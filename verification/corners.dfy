/**
  The ends and the corners of the narrow outline, shared by the irregular
  blueprint's narrow part (IrregularWallBlueprint.cs:346-416) and the older
  side builder (IrregularSidePartBuilder.cs:76-132).

  The first segment is capped with an end connector, and otherwise the last
  one.  At every interior joint each of the two segments meeting there draws
  two short lines from the joint's contour points towards its own modules; the
  line on the inner side of the turn is extended to reach the axis.
 */
module Corners {
  import opened Kernel
  import opened GuideLines

  // ---------------------------------------------------------------------------
  // Caps

  /** Which end connector a segment receives. */
  datatype Cap = StartCap | EndCap | NoCap

  /**
    IrregularSidePartBuilder.cs:81-92: the first segment gets the start cap, and
    otherwise the last one gets the end cap; with a single segment the
    `else if` leaves the polyline without an end cap.
   */
  function CapOf(i: int, n: int): (c: Cap)
    ensures c == StartCap <==> i == 0
    ensures c == EndCap <==> i != 0 && i == n - 1
  {
    if i == 0 then StartCap else if i == n - 1 then EndCap else NoCap
  }

  /** The number of segments among the first m of n that receive cap c. */
  function CapsAmong(n: int, m: nat, c: Cap): nat {
    if m == 0 then 0 else CapsAmong(n, m - 1, c) + (if CapOf(m - 1, n) == c then 1 else 0)
  }

  /** No segment before `m` is the last, and only segment 0 is the first. */
  lemma {:induction false} CapsBefore(n: int, m: nat)
    requires 1 <= m <= n
    ensures CapsAmong(n, m, StartCap) == 1
    ensures CapsAmong(n, m, EndCap) == (if m == n && n >= 2 then 1 else 0)
  {
    if m > 1 {
      CapsBefore(n, m - 1);
    }
  }

  /** A guide of n segments gets one start cap, and one end cap only when n >= 2. */
  lemma {:induction false} CapsOverGuide(n: nat)
    requires n >= 1
    ensures CapsAmong(n, n, StartCap) == 1
    ensures CapsAmong(n, n, EndCap) == (if n >= 2 then 1 else 0)
  {
    CapsBefore(n, n);
  }

  // ---------------------------------------------------------------------------
  // Lines to the corners

  /**
    Two lines from the contour points on either side of a joint (lines 1 and 2
    at the start of a segment, 4 and 3 at its end): both move by `shift`, and
    the one on the inner side of the turn also by `extension`.  A turn to the
    left (deviation 1) extends the first line, a turn to the right (-1) the
    second, and a straight joint (0) neither.
   */
  function CornerPair(first: Point, second: Point, shift: Vec, deviation: int, extension: Vec): (ls: (Line, Line))
    ensures ls.0.from == first && ls.1.from == second
    ensures deviation != 1 ==> ls.0.Direction() == shift
    ensures deviation != -1 ==> ls.1.Direction() == shift
    ensures deviation == 1 || deviation == -1 ==>
      ls.0.Direction().Plus(ls.1.Direction()) == shift.Scale(2.0).Plus(extension)
  {
    var corner1 := if deviation != 1 then Zero else extension;
    var corner2 := if deviation != -1 then Zero else extension;
    (Line(first, first.Plus(shift).Plus(corner1)), Line(second, second.Plus(shift).Plus(corner2)))
  }

  /**
    The lines at the start of segment i > 0 (IrregularSidePartBuilder.cs:94-112):
    from the right contour point of the previous joint (line 1) and its left
    one (line 2), along the connectors offset, the inner one extended by twice
    the start offset.
   */
  function StartLines(k: Kernel, g: seq<Line>, cps: seq<Point>, i: int, shift: Vec, extension: Vec): (ls: seq<Line>)
    requires |cps| == 2 * |g| + 2 && 0 <= i < |g|
    ensures i == 0 <==> ls == []
    ensures i > 0 ==> |ls| == 2 && ls[0].from == cps[2 * |g| + 1 - i] && ls[1].from == cps[i]
  {
    if i == 0 then []
    else
      var deviation := DeviationSign(g[i].Direction(), g[i - 1].Direction(), ZAxis);
      var pair := CornerPair(cps[|cps| - 1 - i], cps[i], shift, deviation, extension);
      [pair.0, pair.1]
  }

  /**
    The lines at the end of segment i < n - 1 (IrregularSidePartBuilder.cs:114-132):
    from the left contour point of the joint (line 3) and its right one (line 4),
    back along the connectors offset, the inner one extended by twice the end
    offset.
   */
  function EndLines(k: Kernel, g: seq<Line>, cps: seq<Point>, i: int, shift: Vec, extension: Vec): (ls: seq<Line>)
    requires |cps| == 2 * |g| + 2 && 0 <= i < |g|
    ensures i == |g| - 1 <==> ls == []
    ensures i < |g| - 1 ==> |ls| == 2 && ls[0].from == cps[i + 1] && ls[1].from == cps[2 * |g| - i]
  {
    if i == |g| - 1 then []
    else
      var deviation := DeviationSign(g[i].Direction(), g[i + 1].Direction(), ZAxis);
      var pair := CornerPair(cps[i + 1], cps[|cps| - 2 - i], shift.Neg(), deviation, extension);
      [pair.0, pair.1]
  }

  /**
    The two lines of a corner pair start at contour points that mirror each
    other about the joint: their midpoint is the end point of the earlier
    segment.
   */
  lemma {:induction false} CornerLinesMirrored(k: Kernel, g: seq<Line>, i: int, shift: Vec, extension: Vec)
    requires |g| >= 1 && 0 <= i < |g|
    ensures var cps := ContourPoints(k, g);
      && (i > 0 ==> var ls := StartLines(k, g, cps, i, shift, extension);
            ls[0].from.Plus(ls[1].from) == g[i - 1].to.Scale(2.0))
      && (i < |g| - 1 ==> var ls := EndLines(k, g, cps, i, shift, extension);
            ls[0].from.Plus(ls[1].from) == g[i].to.Scale(2.0))
  {
    ContourPointsMirrored(k, g);
    PairsMirrored(k, g, ContourPoints(k, g), i, shift, extension);
  }

  /** The corner pairs of any contour points mirrored about the guide's vertices. */
  lemma PairsMirrored(k: Kernel, g: seq<Line>, cps: seq<Point>, i: int, shift: Vec, extension: Vec)
    requires MirroredAbout(cps, g) && 0 <= i < |g|
    ensures i > 0 ==> var ls := StartLines(k, g, cps, i, shift, extension);
      ls[0].from.Plus(ls[1].from) == g[i - 1].to.Scale(2.0)
    ensures i < |g| - 1 ==> var ls := EndLines(k, g, cps, i, shift, extension);
      ls[0].from.Plus(ls[1].from) == g[i].to.Scale(2.0)
  {
    var n := |g|;
    if i > 0 {
      assert cps[i - 1 + 1].Plus(cps[2 * n - (i - 1)]) == Vertex(g, i - 1).Scale(2.0);
    }
    if i < n - 1 {
      assert cps[i + 1].Plus(cps[2 * n - i]) == Vertex(g, i).Scale(2.0);
    }
  }

  /** Each interior joint gets two lines from either side: the segment i contributes this many. */
  function CornerLineCount(i: int, n: int): nat {
    (if i > 0 then 2 else 0) + (if i < n - 1 then 2 else 0)
  }

  /** The corner lines of the first m segments of n. */
  function CornerLinesAmong(n: int, m: nat): nat {
    if m == 0 then 0 else CornerLinesAmong(n, m - 1) + CornerLineCount(m - 1, n)
  }

  /** The first m segments draw four lines per joint between them, and two at joint m - 1 when it is interior. */
  lemma {:induction false} CornerLinesBefore(n: int, m: nat)
    requires 1 <= m <= n
    ensures CornerLinesAmong(n, m) == 4 * (m - 1) + (if m < n then 2 else 0)
  {
    if m > 1 {
      CornerLinesBefore(n, m - 1);
    }
  }

  /** A guide of n segments has n - 1 interior joints and draws four corner lines at each. */
  lemma {:induction false} CornerLinesOverGuide(n: nat)
    requires n >= 1
    ensures CornerLinesAmong(n, n) == 4 * (n - 1)
  {
    CornerLinesBefore(n, n);
  }

  /** Line.ToNurbsCurve on each line. */
  function Curves(k: Kernel, ls: seq<Line>): (r: seq<Curve>)
    ensures |r| == |ls|
    ensures forall m :: 0 <= m < |r| ==> r[m] == k.line(ls[m].from, ls[m].to)
  {
    seq(|ls|, m requires 0 <= m < |ls| => k.line(ls[m].from, ls[m].to))
  }

  /** The midpoint of two points, (a + b) / 2. */
  function Midpoint(a: Point, b: Point): Point {
    a.Plus(b).Scale(0.5)
  }

  /**
    The end holes of a corner (IrregularWallBlueprint.cs:389-390 and 413-414)
    sit at the midpoint of the two lines' start points, which is the joint
    itself whatever the offsets of the contour points are.
   */
  lemma {:induction false} CornerMidpoints(k: Kernel, g: seq<Line>, i: int, shift: Vec, extension: Vec)
    requires |g| >= 1 && 0 <= i < |g|
    ensures var cps := ContourPoints(k, g);
      && (i > 0 ==> var ls := StartLines(k, g, cps, i, shift, extension);
            Midpoint(ls[0].from, ls[1].from) == g[i - 1].to)
      && (i < |g| - 1 ==> var ls := EndLines(k, g, cps, i, shift, extension);
            Midpoint(ls[0].from, ls[1].from) == g[i].to)
  {
    CornerLinesMirrored(k, g, i, shift, extension);
  }
}
