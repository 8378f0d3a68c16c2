/**
  Split positions of the straight walls and of the irregular wall's wide parts.

  When a part is longer than the maximum part length, splitters are placed on an
  arithmetic progression whose step, the split separation, is the maximum part
  length rounded down to whole 60-unit modules:

      for (int j = 0; j <= Math.Floor((limit - first) / separation); j++)
        add a splitter at first + separation * j

  A separation of 0 (a maximum part length under 60) divides by zero in double
  arithmetic: a positive span gives +Infinity and the loop never ends; a zero or
  negative span gives NaN or -Infinity and the loop does not run.
 */
module Progression {
  import opened Kernel
  import opened Layout

  /** The positions of the splitters, or `Unending` when the loop bound is +Infinity. */
  datatype SplitRun = Positions(ys: seq<real>) | Unending

  /** Math.Floor(maxPartLength / 60) * 60. */
  function Separation(maxPartLength: real): (sep: real)
    ensures maxPartLength - 60.0 < sep <= maxPartLength
    ensures (sep / 60.0).Floor as real == sep / 60.0
    ensures maxPartLength >= 60.0 ==> sep >= 60.0
  {
    (maxPartLength / 60.0).Floor as real * 60.0
  }

  lemma StepsBelowSpan(sep: real, span: real, j: int)
    requires sep > 0.0 && 0 <= j <= (span / sep).Floor
    ensures sep * j as real <= span
  {
    var q := span / sep;
    assert q * sep == span;
    assert j as real <= q;
  }

  lemma NextStepBeyondSpan(sep: real, span: real)
    requires sep > 0.0
    ensures sep * ((span / sep).Floor + 1) as real > span
  {
    var q := span / sep;
    assert q * sep == span;
    assert ((span / sep).Floor + 1) as real > q;
  }

  /** The j-th position of a progression. */
  function Step(first: real, sep: real, j: int): real {
    first + sep * j as real
  }

  /** The positions of a progression of count + 1 steps (none when count is negative). */
  function Steps(first: real, sep: real, count: int): (ys: seq<real>)
    ensures |ys| == Iterations(count + 1)
    ensures forall j :: 0 <= j < |ys| ==> ys[j] == Step(first, sep, j)
  {
    seq(Iterations(count + 1), j => Step(first, sep, j))
  }

  /** Consecutive positions are exactly one separation apart. */
  lemma StepsEvenlySpaced(first: real, sep: real, count: int)
    ensures var ys := Steps(first, sep, count);
      forall j :: 0 <= j < |ys| - 1 ==> ys[j + 1] == ys[j] + sep
  {
    var ys := Steps(first, sep, count);
    forall j | 0 <= j < |ys| - 1
      ensures ys[j + 1] == ys[j] + sep
    {
      assert sep * (j + 1) as real == sep * j as real + sep;
    }
  }

  /** For a positive separation no step passes the limit, and the step after the last one would. */
  lemma StepsBounded(first: real, sep: real, limit: real)
    requires sep > 0.0
    ensures var count := ((limit - first) / sep).Floor;
      var ys := Steps(first, sep, count);
      && (forall j :: 0 <= j < |ys| ==> ys[j] <= limit)
      && (|ys| > 0 <==> first <= limit)
      && (|ys| > 0 ==> ys[|ys| - 1] + sep > limit)
  {
    var count := ((limit - first) / sep).Floor;
    var ys := Steps(first, sep, count);
    forall j | 0 <= j < |ys|
      ensures ys[j] <= limit
    {
      StepsBelowSpan(sep, limit - first, j);
    }
    if first <= limit {
      assert (limit - first) / sep >= 0.0;
      NextStepBeyondSpan(sep, limit - first);
      assert ys[|ys| - 1] == first + sep * count as real;
      assert sep * count as real + sep == sep * (count + 1) as real;
    } else {
      assert (limit - first) / sep < 0.0;
    }
  }

  /**
    The progression first, first + sep, ... up to `limit`: every position lies
    at or below the limit, the next one would lie beyond it, and consecutive
    positions are exactly one separation apart.
   */
  function Run(sep: real, first: real, limit: real): (r: SplitRun)
    ensures sep != 0.0 ==> r.Positions?
    ensures sep == 0.0 ==> (r.Unending? <==> limit - first > 0.0)
    ensures r.Positions? && |r.ys| > 0 ==> r.ys[0] == first
    ensures r.Positions? ==> forall j :: 0 <= j < |r.ys| - 1 ==> r.ys[j + 1] == r.ys[j] + sep
    ensures sep > 0.0 ==> forall j :: 0 <= j < |r.ys| ==> r.ys[j] <= limit
    ensures sep > 0.0 ==> (|r.ys| > 0 <==> first <= limit)
    ensures sep > 0.0 && |r.ys| > 0 ==> r.ys[|r.ys| - 1] + sep > limit
  {
    if sep == 0.0 then
      if limit - first > 0.0 then Unending else Positions([])
    else
      var count := ((limit - first) / sep).Floor;
      StepsEvenlySpaced(first, sep, count);
      if sep > 0.0 then
        StepsBounded(first, sep, limit);
        Positions(Steps(first, sep, count))
      else
        Positions(Steps(first, sep, count))
  }

  /** The splitter positions, or none when the part is no longer than the maximum. */
  function SplitsWhenLong(length: real, maxPartLength: real, first: real, limit: real): SplitRun {
    if maxPartLength < length then Run(Separation(maxPartLength), first, limit) else Positions([])
  }

  /** The narrow part's first split sits 3.75 before the end of the first A-B pair: 30 + 60 - 3.75. */
  const NarrowStartY: real := 30.0 + 60.0 - 3.750

  /**
    The straight narrow part's splitters (StraightWallBlueprint.cs:89-99,
    StraightWall.cs:128-138): from 86.25 in steps of the separation, never past
    the end of the last module, length - 10 - rest.
   */
  function StraightNarrowSplits(length: real, maxPartLength: real): (r: SplitRun)
    ensures !(maxPartLength < length) ==> r == Positions([])
    ensures maxPartLength >= 60.0 ==> r.Positions?
    ensures r.Positions? && |r.ys| > 0 ==> r.ys[0] == 86.25
    ensures r.Positions? ==> forall j :: 0 <= j < |r.ys| - 1 ==> r.ys[j + 1] == r.ys[j] + Separation(maxPartLength)
    ensures maxPartLength >= 60.0 ==> forall j :: 0 <= j < |r.ys| ==> r.ys[j] <= length - 10.0 - StraightRest(length)
    ensures maxPartLength >= 60.0 && maxPartLength < length && 86.25 <= length - 10.0 - StraightRest(length) ==> |r.ys| > 0
  {
    SplitsWhenLong(length, maxPartLength, NarrowStartY, length - 10.0 - StraightRest(length))
  }

  /**
    The straight wide part's splitters (StraightWallBlueprint.cs:145-155,
    StraightWall.cs:175-185): from separation - 30, half a module short of the
    separation, in steps of the separation.
   */
  function StraightWideSplits(length: real, maxPartLength: real): (r: SplitRun)
    ensures !(maxPartLength < length) ==> r == Positions([])
    ensures maxPartLength >= 60.0 ==> r.Positions?
    ensures r.Positions? && |r.ys| > 0 ==> r.ys[0] == Separation(maxPartLength) - 30.0
    ensures r.Positions? ==> forall j :: 0 <= j < |r.ys| - 1 ==> r.ys[j + 1] == r.ys[j] + Separation(maxPartLength)
    ensures maxPartLength >= 60.0 ==> forall j :: 0 <= j < |r.ys| ==> r.ys[j] <= length - 10.0 - StraightRest(length)
  {
    var sep := Separation(maxPartLength);
    SplitsWhenLong(length, maxPartLength, sep - 30.0, length - 10.0 - StraightRest(length))
  }

  /**
    The irregular wide part's splitters (IrregularWallBlueprint.cs:185-195): the
    progression from separation - 30 runs over the symmetry line less twice the
    excess, and every position is shifted by startOffset + excess.
   */
  function IrregularWideSplits(contourLength: real, symmetryLength: real, startOffset: real,
                               maxPartLength: real): (r: SplitRun)
    ensures !(maxPartLength < contourLength) ==> r == Positions([])
    ensures maxPartLength >= 60.0 ==> r.Positions?
    ensures r.Positions? && |r.ys| > 0 ==>
      r.ys[0] == startOffset + WideExcess(symmetryLength) + Separation(maxPartLength) - 30.0
    ensures r.Positions? ==> forall j :: 0 <= j < |r.ys| - 1 ==> r.ys[j + 1] == r.ys[j] + Separation(maxPartLength)
    ensures maxPartLength >= 60.0 ==> forall j :: 0 <= j < |r.ys| ==>
      r.ys[j] <= startOffset + symmetryLength - WideExcess(symmetryLength)
  {
    var excess := WideExcess(symmetryLength);
    var sep := Separation(maxPartLength);
    match SplitsWhenLong(contourLength, maxPartLength, sep - 30.0, symmetryLength - excess * 2.0)
    case Unending => Unending
    case Positions(ys) => Positions(seq(|ys|, j requires 0 <= j < |ys| => startOffset + excess + ys[j]))
  }
}
