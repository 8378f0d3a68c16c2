/**
  The older straight wall component (StraightWall).

  It lays out the same narrow part as the blueprint and a wide part at x = 0
  without mills, and writes every part into one tree: a branch per part
  holding the part's outline followed by the holes inside it.  The component
  then reads each branch back as an outline and its holes.
 */
module StraightWall {
  import opened Kernel
  import opened Progression
  import opened Splitter
  import opened Clamps
  import Straight

  /** A branch of the tree: the part's outline, then its holes. */
  type Branch = seq<Curve>

  /**
    SplitPart (StraightWall.cs:190-296).  Without splitters the one branch holds
    the contour alone and the holes are dropped.  Otherwise the contour is cut
    as in the blueprint, never skipping, and each part in turn drains from the
    pool the holes whose start point lies inside it.
   */
  function SplitBranches(k: Kernel, contour: Curve, splitters: seq<Curve>, holes: seq<Curve>): (r: seq<Branch>)
    ensures splitters == [] ==> r == [[contour]]
    ensures |r| == |splitters| + 1
    ensures forall i :: 0 <= i < |r| ==> |r[i]| >= 1
    ensures splitters != [] ==>
      var parts := SplitContours(k, contour, splitters, false);
      var shares := Share(k, StartInside, parts, holes).0;
      && |parts| == |r| && |shares| == |r|
      && forall i :: 0 <= i < |r| ==> r[i] == [parts[i]] + shares[i]
  {
    if splitters == [] then [[contour]]
    else
      var parts := SplitContours(k, contour, splitters, false);
      var shares := Share(k, StartInside, parts, holes).0;
      seq(|parts|, i requires 0 <= i < |parts| => [parts[i]] + shares[i])
  }

  /**
    Each hole in a branch was in the pool, lies inside that branch's outline,
    and lies inside no earlier branch's outline: a hole is written at most
    once, to the first part that contains it.
   */
  lemma BranchHole(k: Kernel, contour: Curve, splitters: seq<Curve>, holes: seq<Curve>, i: int)
    requires splitters != [] && 0 <= i <= |splitters|
    ensures var r := SplitBranches(k, contour, splitters, holes);
      forall c :: c in r[i][1..] ==>
        && c in holes
        && k.contains(r[i][0], k.pointAtStart(c)) == Inside
        && forall j :: 0 <= j < i ==> k.contains(r[j][0], k.pointAtStart(c)) != Inside
  {
    var r := SplitBranches(k, contour, splitters, holes);
    var parts := SplitContours(k, contour, splitters, false);
    assert r[i][1..] == Share(k, StartInside, parts, holes).0[i];
    forall c | c in r[i][1..]
      ensures c in holes && k.contains(r[i][0], k.pointAtStart(c)) == Inside
      ensures forall j :: 0 <= j < i ==> k.contains(r[j][0], k.pointAtStart(c)) != Inside
    {
      ShareTaken(k, StartInside, parts, holes, i, c);
    }
  }

  /**
    SolveNarrowPart (StraightWall.cs:95-141): the blueprint's narrow pieces, cut
    at the narrow progression into one branch per part.
   */
  method SolveNarrowPart(k: Kernel, length: real, maxPartLength: real) returns (r: Option<seq<Branch>>)
    ensures maxPartLength >= 60.0 ==> r.Some?
    ensures r.Some? ==> StraightNarrowSplits(length, maxPartLength).Positions?
    ensures r.Some? ==> |r.value| == |StraightNarrowSplits(length, maxPartLength).ys| + 1
    ensures r.Some? ==> forall i :: 0 <= i < |r.value| ==> |r.value[i]| >= 1
  {
    var pieces := Straight.NarrowPieces(k, length);
    var splitters := Straight.SplittersAt(k, StraightNarrowSplits(length, maxPartLength), y => NarrowSplitCurve(0.0, y));
    if splitters.None? {
      return None;
    }
    r := Some(SplitBranches(k, k.join(pieces.connect), splitters.value, pieces.holes));
  }

  /**
    The wide part's hole pool (StraightWall.cs:165-173): the B modules' holes
    and, last, the wide contour itself.
   */
  function WideHoles(k: Kernel, length: real): (r: seq<Curve>)
    ensures |r| >= 1 && r[|r| - 1] == k.join(Straight.WidePieces(k, length, 0.0).connect)
  {
    var pieces := Straight.WidePieces(k, length, 0.0);
    pieces.holes + [k.join(pieces.connect)]
  }

  /**
    SolveWidePart (StraightWall.cs:143-188): the wide part at x = 0, without
    mills, cut at the wide progression; its hole pool ends with its own
    contour.
   */
  method SolveWidePart(k: Kernel, length: real, maxPartLength: real) returns (r: Option<seq<Branch>>)
    ensures maxPartLength >= 60.0 ==> r.Some?
    ensures r.Some? ==> StraightWideSplits(length, maxPartLength).Positions?
    ensures r.Some? ==> |r.value| == |StraightWideSplits(length, maxPartLength).ys| + 1
    ensures r.Some? ==> forall i :: 0 <= i < |r.value| ==> |r.value[i]| >= 1
  {
    var pieces := Straight.WidePieces(k, length, 0.0);
    var splitters := Straight.SplittersAt(k, StraightWideSplits(length, maxPartLength), y => WideSplitCurve(0.0, y, None));
    if splitters.None? {
      return None;
    }
    r := Some(SplitBranches(k, k.join(pieces.connect), splitters.value, WideHoles(k, length)));
  }

  /** What the component hands to the solid builder: an outline and its holes. */
  datatype Plan = Plan(contour: Curve, holes: seq<Curve>)

  /**
    The consumer (StraightWall.cs:52-66): branch i's first curve is the outline
    and the rest are its holes.  Every branch has a first curve, so reading it
    never fails, and a plan rebuilds its branch.
   */
  function Consume(tree: seq<Branch>): (r: seq<Plan>)
    requires forall i :: 0 <= i < |tree| ==> |tree[i]| >= 1
    ensures |r| == |tree|
    ensures forall i :: 0 <= i < |r| ==> [r[i].contour] + r[i].holes == tree[i]
  {
    seq(|tree|, i requires 0 <= i < |tree| => Plan(tree[i][0], tree[i][1..]))
  }

  /**
    SolveInstance (StraightWall.cs:34-75): a missing length is 120 and a
    missing maximum part length 250; both are raised to 60, the narrow
    branches come first, then the wide ones, and the component reads back
    exactly narrowPartCount + widePartCount plans.
   */
  method SolveInstance(k: Kernel, lengthInput: Option<real>, maxPartLengthInput: Option<real>)
    returns (tree: seq<Branch>, plans: seq<Plan>)
    ensures var s := StraightWallSettings(if lengthInput.Some? then lengthInput.value else 120.0,
                                          if maxPartLengthInput.Some? then maxPartLengthInput.value else 250.0);
      && StraightNarrowSplits(s.0, s.1).Positions? && StraightWideSplits(s.0, s.1).Positions?
      && |tree| == |StraightNarrowSplits(s.0, s.1).ys| + 1 + |StraightWideSplits(s.0, s.1).ys| + 1
    ensures |plans| == |tree|
    ensures forall i :: 0 <= i < |plans| ==> [plans[i].contour] + plans[i].holes == tree[i]
  {
    var length := if lengthInput.Some? then lengthInput.value else 120.0;
    var maxPartLength := if maxPartLengthInput.Some? then maxPartLengthInput.value else 250.0;
    var s := StraightWallSettings(length, maxPartLength);
    var narrow := SolveNarrowPart(k, s.0, s.1);
    var wide := SolveWidePart(k, s.0, s.1);
    tree := narrow.value + wide.value;
    plans := Consume(tree);
  }
}
