/**
  The index bookkeeping of the irregular wall volume (IrregularWallVolume).

  Every part of the blueprint becomes one raw solid, indexed by its branch.
  Each narrow part is placed twice, on the right and on the left of the wall;
  each wide part once, on the guide line its signed guide index names, with
  the side in the sign.  The solids themselves are not modelled: a placed
  shape records which raw solid it is and the numbers its transform is built
  from.  A blueprint that was never solved makes the constructor fail.
 */
module Volume {
  import opened Kernel
  import opened GuideLines
  import opened Irregular

  /**
    One placed solid: the branch of its raw solid and what its transform
    depends on.  A wide solid is moved from the position the blueprint drew it
    at to its guide line, on the side the sign gives, shifted by the start
    offset across the turn before it.
   */
  datatype Placed =
    | NarrowRight(branch: int)
    | NarrowLeft(branch: int)
    | Wide(branch: int, guideLine: int, side: int, deviationSign: int, startOffset: real, position: Point)

  /**
    The decoding of a signed guide index (IrregularWallVolume.cs:74-82): take
    its sign, step one towards zero (a zero index steps down), and multiply by
    the sign.  A positive index g names line g - 1, a negative one line -g - 1.
   */
  function Decode(g: int): (i: int)
    ensures g > 0 ==> i == g - 1
    ensures g < 0 ==> i == -g - 1
    ensures g == 0 ==> i == 0
  {
    var sign := SignInt(g);
    var stepped := if sign < 0 then g + 1 else g - 1;
    stepped * sign
  }

  /**
    Decoding undoes the blueprint's encoding up to the side: contour line i of
    2n, on either side, decodes to its guide line i mod n.
   */
  lemma DecodeEncode(i: int, n: int)
    requires 0 <= i < 2 * n
    ensures Decode(GuideIndex(i, n)) == i % n
    ensures SignInt(GuideIndex(i, n)) == (if i < n then 1 else -1)
  {
  }

  /**
    The range check (IrregularWallVolume.cs:84-85) keeps exactly the indexes
    of magnitude at most n; in particular it never skips an index the
    blueprint wrote, all of which are non-zero and at most n in magnitude.
   */
  lemma DecodeInRange(g: int, n: int)
    requires n >= 1
    ensures 0 <= Decode(g) < n <==> -n <= g <= n
  {
  }

  /**
    The turn sign used for guide line gi (IrregularWallVolume.cs:97): 0 for the
    first line, the sign of the joint before it otherwise.  For a line of the
    guide the lookup is in bounds and gives -1, 0 or 1.
   */
  function DeviationSignOf(d: GuideLinesData, gi: int): (s: int)
    requires WellFormed(d) && |d.deviationSigns| == |d.guideLines| && 0 <= gi < |d.guideLines|
    requires forall j :: 0 <= j < |d.deviationSigns| ==> -1 <= d.deviationSigns[j] <= 1
    ensures -1 <= s <= 1
    ensures gi == 0 ==> s == 0
    ensures gi > 0 ==> s == d.deviationSigns[gi - 1]
  {
    if gi == 0 then 0 else d.deviationSigns[gi - 1]
  }

  /** The guide data as the blueprint's GuideLinesData holds it. */
  predicate Signed(d: GuideLinesData) {
    && WellFormed(d) && |d.deviationSigns| == |d.guideLines|
    && forall j :: 0 <= j < |d.deviationSigns| ==> -1 <= d.deviationSigns[j] <= 1
  }

  /** Wide entry j of the blueprint, or nothing when its decoded guide line is out of range. */
  function WideEntry(b: Blueprint, d: GuideLinesData, j: int): (r: Option<Placed>)
    requires Numbered(b) && Signed(d) && 0 <= j < |b.wideParts|
    ensures r.Some? <==> -|d.guideLines| <= b.wideGuideLineIndexes[j] <= |d.guideLines|
    ensures r.Some? ==> r.value.Wide? && r.value.branch == b.wideIndexes[j]
    ensures r.Some? ==> var gi := r.value.guideLine;
      && 0 <= gi < |d.guideLines|
      && gi == Decode(b.wideGuideLineIndexes[j]) && r.value.side == SignInt(b.wideGuideLineIndexes[j])
      && r.value.deviationSign == DeviationSignOf(d, gi)
      && r.value.startOffset == d.offsetsAtStart[gi]
      && r.value.position == b.widePositions[j]
  {
    var g := b.wideGuideLineIndexes[j];
    var gi := Decode(g);
    DecodeInRange(g, |d.guideLines|);
    if gi < 0 || gi >= |d.guideLines| then None
    else Some(Wide(b.wideIndexes[j], gi, SignInt(g), DeviationSignOf(d, gi), d.offsetsAtStart[gi], b.widePositions[j]))
  }

  /** The placed wide shapes of entries 0..m-1, in order, skipping the entries out of range. */
  function Kept(b: Blueprint, d: GuideLinesData, m: int): (r: seq<Placed>)
    requires Numbered(b) && Signed(d) && 0 <= m <= |b.wideParts|
    ensures |r| <= m
  {
    if m == 0 then []
    else
      var e := WideEntry(b, d, m - 1);
      Kept(b, d, m - 1) + (if e.Some? then [e.value] else [])
  }

  /** For a solved blueprint nothing is skipped: one wide shape per wide part, on its own branch. */
  lemma {:induction false} KeptAll(b: Blueprint, d: GuideLinesData, m: int)
    requires Numbered(b) && Signed(d) && 0 <= m <= |b.wideParts|
    requires Solved(b, |d.guideLines|)
    ensures |Kept(b, d, m)| == m
    ensures forall j :: 0 <= j < m ==> Kept(b, d, m)[j].branch == |b.narrowParts| + j
  {
    if m > 0 {
      KeptAll(b, d, m - 1);
    }
  }

  /**
    The narrow loop of the constructor (IrregularWallVolume.cs:47-59): two
    shapes, right then left, per narrow branch index.
   */
  method NarrowShapes(b: Blueprint) returns (shapes: seq<Placed>)
    requires Numbered(b)
    ensures |shapes| == 2 * |b.narrowIndexes|
    ensures forall j :: 0 <= j < |b.narrowIndexes| ==>
      shapes[2 * j] == NarrowRight(b.narrowIndexes[j]) && shapes[2 * j + 1] == NarrowLeft(b.narrowIndexes[j])
    ensures forall s :: s in shapes ==> 0 <= s.branch < |b.narrowParts|
  {
    shapes := [];
    var m := 0;
    while m < |b.narrowIndexes|
      invariant 0 <= m <= |b.narrowIndexes| && |shapes| == 2 * m
      invariant forall j :: 0 <= j < m ==>
        shapes[2 * j] == NarrowRight(b.narrowIndexes[j]) && shapes[2 * j + 1] == NarrowLeft(b.narrowIndexes[j])
      invariant forall s :: s in shapes ==> 0 <= s.branch < |b.narrowParts|
    {
      var index := b.narrowIndexes[m];
      shapes := shapes + [NarrowRight(index), NarrowLeft(index)];
      m := m + 1;
    }
  }

  /**
    The wide loop of the constructor (IrregularWallVolume.cs:61-111): the wide
    entries in order, each skipped when its guide line is out of range.
   */
  method WideShapes(b: Blueprint, d: GuideLinesData) returns (shapes: seq<Placed>)
    requires Numbered(b) && Signed(d)
    ensures shapes == Kept(b, d, |b.wideParts|)
    ensures forall s :: s in shapes ==> |b.narrowParts| <= s.branch < |b.narrowParts| + |b.wideParts|
  {
    shapes := [];
    var i := 0;
    while i < |b.wideParts|
      invariant 0 <= i <= |b.wideParts|
      invariant shapes == Kept(b, d, i)
      invariant forall s :: s in shapes ==> |b.narrowParts| <= s.branch < |b.narrowParts| + |b.wideParts|
    {
      var e := WideEntry(b, d, i);
      if e.None? {
        i := i + 1;
        continue;
      }
      shapes := shapes + [e.value];
      i := i + 1;
    }
  }

  /**
    The placement loops of the constructor (IrregularWallVolume.cs:39-113):
    the narrow pairs, then the kept wide entries.  Every shape names the raw
    solid of an existing branch.  A blueprint that was never solved fails:
    without guide lines at `GuideLines[0]` (line 39), and with a single one at
    the missing guide data (line 67); the model gives None for both.
   */
  method Shapes(b: Blueprint, d: GuideLinesData) returns (r: Option<seq<Placed>>)
    requires Numbered(b) && Signed(d)
    ensures r.None? <==> b.guideLines.None? || |b.guideLines.value| <= 1
    ensures r.Some? ==> var shapes := r.value;
      && |shapes| == 2 * |b.narrowIndexes| + |Kept(b, d, |b.wideParts|)|
      && (forall j :: 0 <= j < |b.narrowIndexes| ==>
            shapes[2 * j] == NarrowRight(b.narrowIndexes[j]) && shapes[2 * j + 1] == NarrowLeft(b.narrowIndexes[j]))
      && shapes[2 * |b.narrowIndexes|..] == Kept(b, d, |b.wideParts|)
      && (forall s :: s in shapes ==> 0 <= s.branch < |b.narrowParts| + |b.wideParts|)
  {
    if b.guideLines.None? || |b.guideLines.value| <= 1 {
      return None;
    }
    var narrow := NarrowShapes(b);
    var wide := WideShapes(b, d);
    var shapes := narrow + wide;
    assert shapes[2 * |b.narrowIndexes|..] == wide;
    r := Some(shapes);
  }

  /**
    The shape count of a solved blueprint: two per narrow part and one per
    wide part.
   */
  lemma ShapeCount(b: Blueprint, d: GuideLinesData, shapes: seq<Placed>)
    requires Numbered(b) && Signed(d) && Solved(b, |d.guideLines|)
    requires |shapes| == 2 * |b.narrowIndexes| + |Kept(b, d, |b.wideParts|)|
    ensures |shapes| == 2 * |b.narrowParts| + |b.wideParts|
  {
    KeptAll(b, d, |b.wideParts|);
  }
}
