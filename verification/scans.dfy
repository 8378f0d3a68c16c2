/**
  Split-point selection of the irregular wall (IrregularWallBlueprint.SolveNarrowPart).

  The candidate split parameters are the A-module parameters of one guide line,
  in ascending order.  Three greedy scans run over them: a corner limit from the
  start, a corner limit from the end, and a straight-run limit.
 */
module SplitScans {
  import opened Kernel

  /** The least index in [lo, hi) whose parameter satisfies `hit`. */
  function FirstIn(p: seq<real>, lo: int, hi: int, test: Test): (r: Option<int>)
    requires 0 <= lo && hi <= |p|
    decreases hi - lo
    ensures r.Some? ==> lo <= r.value < hi && Hits(test, p[r.value])
    ensures r.Some? ==> forall m :: lo <= m < r.value ==> !Hits(test, p[m])
    ensures r.None? ==> forall m :: lo <= m < hi ==> !Hits(test, p[m])
  {
    if lo >= hi then None
    else if Hits(test, p[lo]) then Some(lo)
    else FirstIn(p, lo + 1, hi, test)
  }

  /** The greatest index in [lo, hi) whose parameter satisfies `hit`. */
  function LastIn(p: seq<real>, lo: int, hi: int, test: Test): (r: Option<int>)
    requires 0 <= lo && hi <= |p|
    decreases hi - lo
    ensures r.Some? ==> lo <= r.value < hi && Hits(test, p[r.value])
    ensures r.Some? ==> forall m :: r.value < m < hi ==> !Hits(test, p[m])
    ensures r.None? ==> forall m :: lo <= m < hi ==> !Hits(test, p[m])
  {
    if lo >= hi then None
    else if Hits(test, p[hi - 1]) then Some(hi - 1)
    else LastIn(p, lo, hi - 1, test)
  }

  /** The corner test: a split at this distance from the corner is far enough from it. */
  predicate CornerReached(distance: real, cornerOffset: real, connectorsOffset: real, maxCornerLength: real) {
    distance + cornerOffset + connectorsOffset + 10.0 >= maxCornerLength
  }

  /** The three scan tests, each with the quantities it reads. */
  datatype Test =
    | FromStart(axisLength: real, offsetAtStart: real, connectorsOffset: real, maxCornerLength: real)
    | FromEnd(axisLength: real, offsetAtEnd: real, connectorsOffset: real, maxCornerLength: real)
    | FromAnchor(anchor: real, axisLength: real, maxStraightLength: real)

  /** Whether the candidate parameter t passes the test. */
  predicate Hits(test: Test, t: real) {
    match test
    case FromStart(len, off, co, max) => CornerReached(t * len, off, co, max)
    case FromEnd(len, off, co, max) => CornerReached((1.0 - t) * len, off, co, max)
    case FromAnchor(anchor, len, max) => RunReached(anchor, t, len, max)
  }

  /** The outcome of a corner scan: the index it split at, and the candidates left. */
  datatype CornerScan = CornerScan(at: Option<int>, kept: seq<real>)

  /**
    The scan from the start corner (IrregularWallBlueprint.cs:285-301): the first
    candidate far enough from the start corner becomes a split, and the
    candidates before it are dropped (RemoveRange(0, n)); the split itself stays.
   */
  function ForwardCornerScan(p: seq<real>, axisLength: real, offsetAtStart: real, connectorsOffset: real,
                             maxCornerLength: real): (r: CornerScan)
    ensures r.at.None? ==> r.kept == p
    ensures r.at.None? ==> forall m :: 0 <= m < |p| ==>
      !CornerReached(p[m] * axisLength, offsetAtStart, connectorsOffset, maxCornerLength)
    ensures r.at.Some? ==> var n := r.at.value;
      && 0 <= n < |p|
      && CornerReached(p[n] * axisLength, offsetAtStart, connectorsOffset, maxCornerLength)
      && (forall m :: 0 <= m < n ==> !CornerReached(p[m] * axisLength, offsetAtStart, connectorsOffset, maxCornerLength))
      && r.kept == p[n..] && r.kept[0] == p[n]
  {
    match FirstIn(p, 0, |p|, FromStart(axisLength, offsetAtStart, connectorsOffset, maxCornerLength))
    case None => CornerScan(None, p)
    case Some(n) =>
      CornerScan(Some(n), p[n..])
  }

  /** `times` calls of List.RemoveAt(n). */
  function RemoveAtRepeatedly(p: seq<real>, n: nat, times: nat): seq<real>
    requires n + times <= |p|
    decreases times
  {
    if times == 0 then p else RemoveAtRepeatedly(p[..n] + p[n + 1..], n, times - 1)
  }

  /** Removing at index n as often as there are entries from n on leaves exactly the prefix [0, n). */
  lemma {:induction false} RemoveAtRepeatedlyLeavesPrefix(p: seq<real>, n: nat, times: nat)
    requires n + times == |p|
    ensures RemoveAtRepeatedly(p, n, times) == p[..n]
    decreases times
  {
    if times > 0 {
      var q := p[..n] + p[n + 1..];
      assert q[..n] == p[..n];
      RemoveAtRepeatedlyLeavesPrefix(q, n, times - 1);
    }
  }

  /**
    The scan from the end corner (IrregularWallBlueprint.cs:303-322): indices
    Count-1 down to 1 are inspected; the first one far enough from the end corner
    becomes a split, and `turnsFromEnd` = Count - n calls of RemoveAt(n) drop it
    together with every candidate after it.
   */
  function BackwardCornerScan(p: seq<real>, axisLength: real, offsetAtEnd: real, connectorsOffset: real,
                              maxCornerLength: real): (r: CornerScan)
    ensures r.at.None? ==> r.kept == p
    ensures r.at.None? ==> forall m :: 1 <= m < |p| ==>
      !CornerReached((1.0 - p[m]) * axisLength, offsetAtEnd, connectorsOffset, maxCornerLength)
    ensures r.at.Some? ==> var n := r.at.value;
      && 1 <= n < |p|
      && CornerReached((1.0 - p[n]) * axisLength, offsetAtEnd, connectorsOffset, maxCornerLength)
      && (forall m :: n < m < |p| ==> !CornerReached((1.0 - p[m]) * axisLength, offsetAtEnd, connectorsOffset, maxCornerLength))
      && r.kept == p[..n]
  {
    match LastIn(p, 1, |p|, FromEnd(axisLength, offsetAtEnd, connectorsOffset, maxCornerLength))
    case None => CornerScan(None, p)
    case Some(n) =>
      var turnsFromEnd := |p| - n;
      RemoveAtRepeatedlyLeavesPrefix(p, n, turnsFromEnd);
      CornerScan(Some(n), RemoveAtRepeatedly(p, n, turnsFromEnd))
  }

  /** The straight-run test between the anchor parameter and a later one. */
  predicate RunReached(anchor: real, next: real, axisLength: real, maxStraightLength: real) {
    (next - anchor) * axisLength + 60.0 >= maxStraightLength
  }

  /** One split of the straight-run scan: the anchor it was measured from and the split index. */
  datatype RunSplit = RunSplit(anchor: int, split: int)

  /**
    The split is a candidate after its anchor, not the last parameter, that the
    anchor reaches, and no candidate between them is reached.
   */
  predicate FirstReached(p: seq<real>, rs: RunSplit, axisLength: real, maxStraightLength: real) {
    && 0 <= rs.anchor < rs.split <= |p| - 2
    && RunReached(p[rs.anchor], p[rs.split], axisLength, maxStraightLength)
    && forall m :: rs.anchor < m < rs.split ==> !RunReached(p[rs.anchor], p[m], axisLength, maxStraightLength)
  }

  /**
    The straight-run scan from anchor s (IrregularWallBlueprint.cs:324-344): the
    first candidate m in (s, Count - 2] far enough from the anchor becomes a split
    and scanning resumes with m as the anchor; when none is, the anchor moves on.
   */
  function StraightRunFrom(p: seq<real>, s: nat, axisLength: real, maxStraightLength: real): (r: seq<RunSplit>)
    requires s <= |p|
    decreases |p| - s
    ensures forall k :: 0 <= k < |r| ==> s <= r[k].anchor && FirstReached(p, r[k], axisLength, maxStraightLength)
    ensures forall k :: 0 <= k < |r| - 1 ==> r[k].split <= r[k + 1].anchor
  {
    if s == |p| then []
    else
      match FirstIn(p, s + 1, |p| - 1, FromAnchor(p[s], axisLength, maxStraightLength))
      case Some(m) => [RunSplit(s, m)] + StraightRunFrom(p, m, axisLength, maxStraightLength)
      case None => StraightRunFrom(p, s + 1, axisLength, maxStraightLength)
  }

  predicate Ascending(p: seq<real>) {
    forall i, j :: 0 <= i < j < |p| ==> p[i] < p[j]
  }

  /** A later anchor is never further from a candidate than an earlier one. */
  lemma LaterAnchorCloser(a: real, b: real, t: real, axisLength: real)
    requires a <= b && axisLength >= 0.0
    ensures (t - b) * axisLength <= (t - a) * axisLength
  {
    assert (t - a) * axisLength - (t - b) * axisLength == (b - a) * axisLength;
  }

  /** On ascending candidates, an anchor that reaches nothing is followed only by anchors that reach nothing. */
  lemma {:induction false} MissedAnchorEndsRun(p: seq<real>, s: nat, axisLength: real, maxStraightLength: real)
    requires Ascending(p) && axisLength >= 0.0
    requires s < |p|
    requires forall m :: s < m < |p| - 1 ==> !RunReached(p[s], p[m], axisLength, maxStraightLength)
    ensures StraightRunFrom(p, s + 1, axisLength, maxStraightLength) == []
    decreases |p| - s
  {
    if s + 1 < |p| {
      forall m | s + 1 < m < |p| - 1
        ensures !RunReached(p[s + 1], p[m], axisLength, maxStraightLength)
      {
        LaterAnchorCloser(p[s], p[s + 1], p[m], axisLength);
      }
      MissedAnchorEndsRun(p, s + 1, axisLength, maxStraightLength);
    }
  }

  /**
    On ascending candidates the scan is a chain: the first split is measured from
    the starting anchor and every later split from the split before it.
   */
  lemma {:induction false} StraightRunIsChain(p: seq<real>, s: nat, axisLength: real, maxStraightLength: real)
    requires Ascending(p) && axisLength >= 0.0
    requires s <= |p|
    ensures var r := StraightRunFrom(p, s, axisLength, maxStraightLength);
      && (|r| > 0 ==> r[0].anchor == s)
      && (forall k :: 0 <= k < |r| - 1 ==> r[k + 1].anchor == r[k].split)
    decreases |p| - s
  {
    if s < |p| {
      match FirstIn(p, s + 1, |p| - 1, FromAnchor(p[s], axisLength, maxStraightLength))
      case Some(m) =>
        StraightRunIsChain(p, m, axisLength, maxStraightLength);
      case None =>
        MissedAnchorEndsRun(p, s, axisLength, maxStraightLength);
    }
  }

  /** The split parameters chosen on one guide line, in the order the splitters are added. */
  function LineSplitParameters(p: seq<real>, axisLength: real, offsetAtStart: real, offsetAtEnd: real,
                               connectorsOffset: real, maxCornerLength: real, maxStraightLength: real): (r: seq<real>)
    ensures forall t :: t in r ==> t in p
  {
    var forward := ForwardCornerScan(p, axisLength, offsetAtStart, connectorsOffset, maxCornerLength);
    var backward := BackwardCornerScan(forward.kept, axisLength, offsetAtEnd, connectorsOffset, maxCornerLength);
    var q := backward.kept;
    var run := StraightRunFrom(q, 0, axisLength, maxStraightLength);
    var first := if forward.at.Some? then [p[forward.at.value]] else [];
    var second := if backward.at.Some? then [forward.kept[backward.at.value]] else [];
    var rest := SplitsOf(q, run);
    assert forall t :: t in forward.kept ==> t in p;
    assert forall t :: t in q ==> t in forward.kept;
    first + second + rest
  }

  /** The parameters at the splits of a straight-run scan. */
  function SplitsOf(q: seq<real>, run: seq<RunSplit>): (r: seq<real>)
    requires forall k :: 0 <= k < |run| ==> 0 <= run[k].split < |q|
    ensures |r| == |run|
    ensures forall k :: 0 <= k < |r| ==> r[k] == q[run[k].split]
    ensures forall t :: t in r ==> t in q
  {
    seq(|run|, k requires 0 <= k < |run| => q[run[k].split])
  }
}
