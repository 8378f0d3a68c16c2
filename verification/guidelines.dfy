/**
  Guide-line bookkeeping of the irregular wall (GuideLinesData).

  A polyline of n guide segments is offset 14.3 to both sides.  The joints of
  the polyline (its start point, and the end point of every segment) each give
  two contour points, one on either side, mirrored about the joint; the
  contour of the narrow part walks the left points forward and the right points
  backward.  Each segment also gets an axis of symmetry, the part of the segment
  between the perpendicular feet of its two corner points.
 */
module GuideLines {
  import opened Kernel

  /** The half width of the wall: contour points lie 14.3 off the guide line. */
  const HalfWidth: real := 14.3

  /**
    GetDeviationSign (GuideLinesData.cs:103-108, IrregularSidePartBuilder.cs:173-178):
    minus the sign of (current × planeNormal) · reference.  In the XY plane it is
    the sign of the plan cross product: 1 when `reference` turns left of
    `current`, -1 when it turns right, 0 when the two are parallel.
   */
  function DeviationSign(current: Vec, reference: Vec, planeNormal: Vec): (s: int)
    ensures -1 <= s <= 1
    ensures planeNormal == ZAxis ==> s == Sign(Cross2(current, reference))
  {
    var d := Dot(Cross(current, planeNormal), reference);
    assert planeNormal == ZAxis ==> d == -Cross2(current, reference);
    -Sign(d)
  }

  /** Swapping the two vectors flips the sign. */
  lemma {:induction false} DeviationSignAntisymmetric(a: Vec, b: Vec)
    ensures DeviationSign(a, b, ZAxis) == -DeviationSign(b, a, ZAxis)
  {
    assert Cross2(b, a) == -Cross2(a, b);
  }

  lemma CrossScaled(v: Vec, c: real)
    ensures Cross2(v, v.Scale(c)) == 0.0 && Cross2(v.Scale(c), v) == 0.0
    ensures Cross(v.Scale(c), v) == Zero
  {
    assert v.x * (c * v.y) == c * (v.x * v.y);
    assert v.y * (c * v.x) == c * (v.x * v.y);
    assert v.y * (c * v.z) == c * (v.y * v.z);
    assert v.z * (c * v.y) == c * (v.y * v.z);
    assert v.z * (c * v.x) == c * (v.x * v.z);
    assert v.x * (c * v.z) == c * (v.x * v.z);
  }

  /** Parallel and antiparallel vectors have no deviation, whichever way round. */
  lemma {:induction false} DeviationSignParallel(v: Vec, c: real)
    ensures DeviationSign(v, v.Scale(c), ZAxis) == 0
    ensures DeviationSign(v.Scale(c), v, ZAxis) == 0
  {
    CrossScaled(v, c);
  }

  // ---------------------------------------------------------------------------
  // Contour points (SetContourPoints, GetContourPoints)

  /** What the loop of SetContourPoints computes at joint i. */
  datatype Joint = Joint(sign: int, end: Point, normal: Vec, deviation: Vec) {
    /** The contour point on the left of the guide line. */
    function Left(): Point { end.Plus(normal).Plus(deviation) }
    /** The contour point on the right of the guide line. */
    function Right(): Point { end.Minus(normal).Minus(deviation) }
  }

  /**
    Joint i, for i in [-1, n): the joint between segment i and the next one, the
    first segment standing in for segment -1 and the last one for segment n.
    The deviation slides the offset point along the segment so that the two
    offset lines meet; its sign is the turn of the next segment.
   */
  function JointAt(k: Kernel, g: seq<Line>, i: int): (j: Joint)
    requires |g| >= 1 && -1 <= i < |g|
    ensures -1 <= j.sign <= 1
    ensures j.end == if i == -1 then g[0].from else g[i].to
    ensures i == |g| - 1 ==> j.sign == 0
  {
    var guideLine := if i == -1 then g[0] else g[i];
    var nextGuideLine := if i == |g| - 1 then g[|g| - 1] else g[i + 1];
    var lineDirection := Unitize(k, guideLine.Direction());
    var nextLineDirection := Unitize(k, nextGuideLine.Direction());
    var deviationAngle := (Pi - k.angle(lineDirection.Neg(), nextLineDirection)) * 0.5;
    var deviationLength := HalfWidth * k.tan(deviationAngle);
    var deviationSign := DeviationSign(lineDirection, nextLineDirection, ZAxis);
    var deviationTranslation := lineDirection.Scale(deviationLength).Scale(deviationSign as real);
    var normalTranslation := Unitize(k, Cross(lineDirection, ZAxis)).Scale(HalfWidth);
    var segmentEndPoint := if i == -1 then guideLine.PointAt(0.0) else guideLine.PointAt(1.0);
    if i == |g| - 1 then
      CrossScaled(lineDirection, 1.0);
      assert lineDirection.Scale(1.0) == lineDirection;
      Joint(deviationSign, segmentEndPoint, normalTranslation, deviationTranslation)
    else
      Joint(deviationSign, segmentEndPoint, normalTranslation, deviationTranslation)
  }

  /**
    The joint whose points slot j of ContourPoints receives: slots 0..n are
    written as i + 1 and slots n+1..2n+1 as 2n - i (Length - 2 - i), so every
    slot is written by exactly one pass of the loop.
   */
  function Writer(n: nat, j: int): (i: int)
    requires 0 <= j < 2 * n + 2
    ensures -1 <= i < n
    ensures j == i + 1 <==> j <= n
    ensures j == 2 * n - i <==> j > n
  {
    if j <= n then j - 1 else 2 * n - j
  }

  /** The contour points, slot by slot: the left point of its writer, or the right one. */
  function ContourPoints(k: Kernel, g: seq<Line>): (cps: seq<Point>)
    requires |g| >= 1
    ensures |cps| == 2 * |g| + 2
  {
    seq(2 * |g| + 2, j requires 0 <= j < 2 * |g| + 2 => Slot(k, g, j))
  }

  /** Slot j of the contour points: the left point of its writer, or the right one. */
  function Slot(k: Kernel, g: seq<Line>, j: int): Point
    requires |g| >= 1 && 0 <= j < 2 * |g| + 2
  {
    if j <= |g| then JointAt(k, g, j - 1).Left() else JointAt(k, g, 2 * |g| - j).Right()
  }

  /** The turn signs of the joints 0..n-1; joint -1 is not recorded. */
  function DeviationSigns(k: Kernel, g: seq<Line>): (signs: seq<int>)
    requires |g| >= 1
    ensures |signs| == |g|
    ensures forall i :: 0 <= i < |signs| ==> -1 <= signs[i] <= 1
    ensures signs[|g| - 1] == 0
  {
    seq(|g|, i requires 0 <= i < |g| => JointAt(k, g, i).sign)
  }

  /**
    The loop of SetContourPoints (GuideLinesData.cs:32-62) and of GetContourPoints
    (IrregularSidePartBuilder.cs:141-171): pass i writes the left point of joint
    i to slot i + 1 and the right one to slot Length - 2 - i.
   */
  method SetContourPoints(k: Kernel, g: seq<Line>) returns (cps: seq<Point>, signs: seq<int>)
    requires |g| >= 1
    ensures |cps| == 2 * |g| + 2 && |signs| == |g|
    ensures forall i :: -1 <= i < |g| ==> cps[i + 1] == JointAt(k, g, i).Left()
    ensures forall i :: -1 <= i < |g| ==> cps[2 * |g| - i] == JointAt(k, g, i).Right()
    ensures forall i :: 0 <= i < |g| ==> signs[i] == JointAt(k, g, i).sign
  {
    var js := Joints(k, g);
    cps, signs := WriteJoints(js);
    WrittenJoints(k, g, cps, signs);
  }

  /**
    The loop itself, over the joints -1..n-1 (joint i at position i + 1): pass i
    writes joint i's points and, from joint 0 on, its turn sign.
   */
  method WriteJoints(js: seq<Joint>) returns (cps: seq<Point>, signs: seq<int>)
    requires |js| >= 1
    ensures Written(cps, signs, js, |js| - 2)
  {
    var n := |js| - 1;
    cps := seq(2 * n + 2, _ => Zero);
    signs := seq(n, _ => 0);
    var i := -1;
    while i < n
      invariant -1 <= i <= n
      invariant Written(cps, signs, js, i - 1)
    {
      WrittenStep(cps, signs, js, i);
      cps, signs := WriteJoint(cps, i, js[i + 1]), RecordSign(signs, i, js[i + 1]);
      i := i + 1;
    }
  }

  /**
    The loop invariant over joints js (joint i at position i + 1): after pass i,
    slots 0..i + 1 hold the left points and the mirrored slots the right points
    of joints -1..i, and the signs of joints 0..i are recorded.
   */
  predicate Written(cps: seq<Point>, signs: seq<int>, js: seq<Joint>, i: int) {
    var n := |js| - 1;
    && |cps| == 2 * n + 2 && |signs| == n
    && (forall m :: 0 <= m <= i + 1 && m <= n ==> cps[m] == js[m].Left())
    && (forall m :: 0 <= m <= i + 1 && m <= n ==> cps[2 * n + 1 - m] == js[m].Right())
    && (forall m :: 1 <= m <= i + 1 && m <= n ==> signs[m - 1] == js[m].sign)
  }

  /** Joint i's turn sign is recorded at i; joint -1's is not. */
  function RecordSign(signs: seq<int>, i: int, joint: Joint): seq<int>
    requires -1 <= i < |signs|
  {
    if i > -1 then signs[i := joint.sign] else signs
  }

  /** One pass of the loop keeps the invariant, one joint further. */
  lemma WrittenStep(cps: seq<Point>, signs: seq<int>, js: seq<Joint>, i: int)
    requires 1 <= |js| && -1 <= i < |js| - 1
    requires Written(cps, signs, js, i - 1)
    ensures Written(WriteJoint(cps, i, js[i + 1]), RecordSign(signs, i, js[i + 1]), js, i)
  {
  }

  /** The finished loop over the guide's joints gives each joint's points and sign. */
  lemma WrittenJoints(k: Kernel, g: seq<Line>, cps: seq<Point>, signs: seq<int>)
    requires |g| >= 1 && Written(cps, signs, Joints(k, g), |g| - 1)
    ensures |cps| == 2 * |g| + 2 && |signs| == |g|
    ensures forall i :: -1 <= i < |g| ==> cps[i + 1] == JointAt(k, g, i).Left()
    ensures forall i :: -1 <= i < |g| ==> cps[2 * |g| - i] == JointAt(k, g, i).Right()
    ensures forall i :: 0 <= i < |g| ==> signs[i] == JointAt(k, g, i).sign
  {
    var js := Joints(k, g);
    forall i | -1 <= i < |g|
      ensures cps[i + 1] == JointAt(k, g, i).Left() && cps[2 * |g| - i] == JointAt(k, g, i).Right()
    {
      assert cps[2 * |g| + 1 - (i + 1)] == js[i + 1].Right();
    }
  }

  /** One pass of the loop: joint i's left point to slot i + 1, its right point to slot Length - 2 - i. */
  function WriteJoint(cps: seq<Point>, i: int, joint: Joint): (r: seq<Point>)
    requires -1 <= i && 2 * i + 4 <= |cps|
    ensures |r| == |cps|
    ensures r[i + 1] == joint.Left() && r[|cps| - 2 - i] == joint.Right()
    ensures forall m :: 0 <= m < |cps| && m != i + 1 && m != |cps| - 2 - i ==> r[m] == cps[m]
  {
    cps[i + 1 := joint.Left()][|cps| - 2 - i := joint.Right()]
  }

  /** The joints -1..n-1, joint i at position i + 1. */
  function Joints(k: Kernel, g: seq<Line>): (js: seq<Joint>)
    requires |g| >= 1
    ensures |js| == |g| + 1
    ensures forall i :: -1 <= i < |g| ==> js[i + 1] == JointAt(k, g, i)
  {
    seq(|g| + 1, m requires 0 <= m <= |g| => JointAt(k, g, m - 1))
  }

  /** The loop computes the slot-by-slot contour points. */
  lemma {:induction false} SetContourPointsMatches(k: Kernel, g: seq<Line>, cps: seq<Point>)
    requires |g| >= 1 && |cps| == 2 * |g| + 2
    requires forall i :: -1 <= i < |g| ==> cps[i + 1] == JointAt(k, g, i).Left()
    requires forall i :: -1 <= i < |g| ==> cps[2 * |g| - i] == JointAt(k, g, i).Right()
    ensures cps == ContourPoints(k, g)
  {
    var n := |g|;
    var ref := ContourPoints(k, g);
    forall j | 0 <= j < 2 * n + 2
      ensures cps[j] == ref[j]
    {
      var i := Writer(n, j);
      if j <= n {
        assert cps[i + 1] == JointAt(k, g, i).Left();
      } else {
        assert cps[2 * n - i] == JointAt(k, g, i).Right();
      }
    }
  }

  /**
    The two points of a joint are mirror images about the joint: their midpoint
    is the guide's vertex there (the first line's start for joint -1, line i's
    end for joint i), whatever the kernel's angles and lengths are.
   */
  lemma {:induction false} ContourMirror(k: Kernel, g: seq<Line>, i: int)
    requires |g| >= 1 && -1 <= i < |g|
    ensures var cps := ContourPoints(k, g);
      cps[i + 1].Plus(cps[2 * |g| - i]) == (if i == -1 then g[0].from else g[i].to).Scale(2.0)
  {
    var n := |g|;
    var cps := ContourPoints(k, g);
    var j := JointAt(k, g, i);
    assert cps[i + 1] == j.Left();
    assert 2 * n - i > n;
    assert cps[2 * n - i] == JointAt(k, g, 2 * n - (2 * n - i)).Right();
  }

  /** Guide vertex i, for i in [-1, n): the first line's start, or line i's end. */
  function Vertex(g: seq<Line>, i: int): Point
    requires |g| >= 1 && -1 <= i < |g|
  {
    if i == -1 then g[0].from else g[i].to
  }

  /** Slots i + 1 and 2n - i mirror each other about guide vertex i, for every joint i. */
  predicate MirroredAbout(cps: seq<Point>, g: seq<Line>) {
    && |g| >= 1 && |cps| == 2 * |g| + 2
    && forall i :: -1 <= i < |g| ==> cps[i + 1].Plus(cps[2 * |g| - i]) == Vertex(g, i).Scale(2.0)
  }

  /** The contour points mirror each other about every vertex of the guide. */
  lemma ContourPointsMirrored(k: Kernel, g: seq<Line>)
    requires |g| >= 1
    ensures MirroredAbout(ContourPoints(k, g), g)
  {
    forall i | -1 <= i < |g|
      ensures ContourPoints(k, g)[i + 1].Plus(ContourPoints(k, g)[2 * |g| - i]) == Vertex(g, i).Scale(2.0)
    {
      ContourMirror(k, g, i);
    }
  }

  // ---------------------------------------------------------------------------
  // Axes of symmetry (SetSymmetryData)

  /** The symmetry data of one guide segment. */
  datatype Axis = Axis(line: Line, rotation: real, offsetAtStart: real, offsetAtEnd: real)

  /**
    The start corner's offset: the projection of the corner's offset vector on
    the segment, taken at the acute angle between them, so never negative.
   */
  function StartOffset(k: Kernel, unitDirection: Vec, startSegment: Vec): (d: real)
    ensures CosineSigns(k) ==> d >= 0.0
  {
    var startAngle := k.angle(unitDirection, startSegment);
    var startAngleMin := Min(startAngle, Pi - startAngle);
    assert 0.0 <= startAngleMin <= Pi / 2.0;
    k.cos(startAngleMin) * k.norm(startSegment)
  }

  /**
    The end corner's offset: the same projection measured against the reversed
    direction at the obtuse angle, so never positive.
   */
  function EndOffset(k: Kernel, unitDirection: Vec, endSegment: Vec): (d: real)
    ensures CosineSigns(k) ==> d <= 0.0
  {
    var endAngle := k.angle(unitDirection.Neg(), endSegment);
    var endAngleMax := Max(endAngle, Pi - endAngle);
    assert Pi / 2.0 <= endAngleMax <= Pi;
    k.cos(endAngleMax) * k.norm(endSegment)
  }

  /**
    The rotation of a segment's connectors: its angle to the x axis, signed by
    its vertical direction, which is the sign of its y component (1 for up, -1
    for down), less a quarter turn.
   */
  function Rotation(k: Kernel, lineDirection: Vec): (r: real)
    ensures r == k.angle(lineDirection, XAxis) * (Sign(lineDirection.y) as real) - Pi * 0.5
    ensures -Pi * 1.5 <= r <= Pi * 0.5
  {
    var verticalDirection := DeviationSign(XAxis, lineDirection, ZAxis);
    k.angle(lineDirection, XAxis) * verticalDirection as real - Pi * 0.5
  }

  /**
    The axis: each end point of the segment moved along its unit direction by
    its offset, so the axis is the segment lengthened by the end offset and
    shortened by the start offset; a degenerate segment is its own axis.
   */
  function AxisLine(k: Kernel, guideLine: Line, startDistance: real, endDistance: real): (l: Line)
    ensures Cross(l.from.Minus(guideLine.from), guideLine.Direction()) == Zero
    ensures Cross(l.to.Minus(guideLine.to), guideLine.Direction()) == Zero
    ensures l.from.Minus(guideLine.from) == Unitize(k, guideLine.Direction()).Scale(startDistance)
    ensures l.to.Minus(guideLine.to) == Unitize(k, guideLine.Direction()).Scale(endDistance)
    ensures l.Direction() == guideLine.Direction().Plus(Unitize(k, guideLine.Direction()).Scale(endDistance - startDistance))
    ensures guideLine.from == guideLine.to ==> l == guideLine
  {
    var unitDirection := Unitize(k, guideLine.Direction());
    OnSupportingLine(k, guideLine, guideLine.PointAt(0.0), startDistance);
    OnSupportingLine(k, guideLine, guideLine.PointAt(1.0), endDistance);
    Line(guideLine.PointAt(0.0).Plus(unitDirection.Scale(startDistance)),
         guideLine.PointAt(1.0).Plus(unitDirection.Scale(endDistance)))
  }

  /**
    One pass of SetSymmetryData (GuideLinesData.cs:64-101; the same arithmetic
    opens IrregularSidePartBuilder.GetShapes, IrregularSidePartBuilder.cs:19-46):
    the start offset is never negative, the end offset never positive, both
    ends of the axis lie on the segment's supporting line, and each end is moved
    from the segment's end by exactly the offset the pass records.
   */
  function AxisAt(k: Kernel, guideLine: Line, startCornerPoint: Point, endCornerPoint: Point): (a: Axis)
    ensures CosineSigns(k) ==> a.offsetAtStart >= 0.0
    ensures CosineSigns(k) ==> a.offsetAtEnd <= 0.0
    ensures Cross(a.line.from.Minus(guideLine.from), guideLine.Direction()) == Zero
    ensures Cross(a.line.to.Minus(guideLine.to), guideLine.Direction()) == Zero
    ensures a.line.from.Minus(guideLine.from) == Unitize(k, guideLine.Direction()).Scale(a.offsetAtStart)
    ensures a.line.to.Minus(guideLine.to) == Unitize(k, guideLine.Direction()).Scale(a.offsetAtEnd)
    ensures AxisOf(k, guideLine, a)
  {
    var unitDirection := Unitize(k, guideLine.Direction());
    var startDistance := StartOffset(k, unitDirection, startCornerPoint.Minus(guideLine.PointAt(0.0)));
    var endDistance := EndOffset(k, unitDirection, endCornerPoint.Minus(guideLine.PointAt(1.0)));
    Axis(AxisLine(k, guideLine, startDistance, endDistance), Rotation(k, guideLine.Direction()), startDistance, endDistance)
  }

  /** A point displaced from a point of the segment along its unit direction stays on its supporting line. */
  lemma OnSupportingLine(k: Kernel, l: Line, p: Point, d: real)
    requires p == l.PointAt(0.0) || p == l.PointAt(1.0)
    ensures p == l.from || p == l.to
    ensures p == l.PointAt(0.0) ==> p == l.from
    ensures p == l.PointAt(1.0) ==> p == l.to
    ensures Cross(p.Plus(Unitize(k, l.Direction()).Scale(d)).Minus(p), l.Direction()) == Zero
  {
    var v := l.Direction();
    var u := Unitize(k, v);
    var c := if k.norm(v) == 0.0 then d else 1.0 / k.norm(v) * d;
    assert u.Scale(d) == v.Scale(c);
    assert p.Plus(u.Scale(d)).Minus(p) == v.Scale(c);
    CrossScaled(v, c);
  }

  /** GuideLinesData: the guide lines and everything computed from them. */
  datatype GuideLinesData = GuideLinesData(
    guideLines: seq<Line>,
    symmetryLines: seq<Line>,
    rotations: seq<real>,
    offsetsAtStart: seq<real>,
    offsetsAtEnd: seq<real>,
    deviationSigns: seq<int>,
    contourPoints: seq<Point>)

  /** Each end of the axis is the segment's end moved along its unit direction by the axis's recorded offset. */
  predicate OffsetBy(k: Kernel, guideLine: Line, a: Axis) {
    && a.line.from.Minus(guideLine.from) == Unitize(k, guideLine.Direction()).Scale(a.offsetAtStart)
    && a.line.to.Minus(guideLine.to) == Unitize(k, guideLine.Direction()).Scale(a.offsetAtEnd)
  }

  /**
    What one pass of SetSymmetryData promises about a segment's axis: offsets
    of the right signs, both ends on the supporting line, each end moved by
    exactly its offset.
   */
  ghost predicate AxisOf(k: Kernel, guideLine: Line, a: Axis) {
    && (CosineSigns(k) ==> a.offsetAtStart >= 0.0 && a.offsetAtEnd <= 0.0)
    && Cross(a.line.from.Minus(guideLine.from), guideLine.Direction()) == Zero
    && Cross(a.line.to.Minus(guideLine.to), guideLine.Direction()) == Zero
    && OffsetBy(k, guideLine, a)
  }

  /** The symmetry data of every segment, segment i from its corner points i and i + 1. */
  function Axes(k: Kernel, g: seq<Line>, cps: seq<Point>): (axes: seq<Axis>)
    requires |cps| == 2 * |g| + 2
    ensures |axes| == |g|
    ensures forall i :: 0 <= i < |g| ==> AxisOf(k, g[i], axes[i])
  {
    seq(|g|, i requires 0 <= i < |g| => AxisAt(k, g[i], cps[i], cps[i + 1]))
  }

  /**
    The GuideLinesData constructor (GuideLinesData.cs:16-30): the contour array
    holds 2n + 2 points and every per-segment array n entries; the turn sign of
    the last joint is 0.
   */
  function Data(k: Kernel, g: seq<Line>): (d: GuideLinesData)
    requires |g| >= 1
    ensures d.guideLines == g
    ensures |d.contourPoints| == 2 * |g| + 2 && |d.deviationSigns| == |g|
    ensures |d.symmetryLines| == |g| && |d.rotations| == |g|
    ensures |d.offsetsAtStart| == |g| && |d.offsetsAtEnd| == |g|
    ensures d.deviationSigns[|g| - 1] == 0
    ensures forall i :: 0 <= i < |g| ==> -1 <= d.deviationSigns[i] <= 1
  {
    var cps := ContourPoints(k, g);
    var parts := Unzip(Axes(k, g, cps));
    GuideLinesData(g, parts.0, parts.1, parts.2, parts.3, DeviationSigns(k, g), cps)
  }

  /** The four symmetry arrays of a sequence of axes. */
  function Unzip(axes: seq<Axis>): (r: (seq<Line>, seq<real>, seq<real>, seq<real>))
    ensures |r.0| == |axes| && |r.1| == |axes| && |r.2| == |axes| && |r.3| == |axes|
    ensures forall i :: 0 <= i < |axes| ==>
      r.0[i] == axes[i].line && r.1[i] == axes[i].rotation && r.2[i] == axes[i].offsetAtStart && r.3[i] == axes[i].offsetAtEnd
  {
    if axes == [] then ([], [], [], [])
    else
      var rest := Unzip(axes[1..]);
      ([axes[0].line] + rest.0, [axes[0].rotation] + rest.1, [axes[0].offsetAtStart] + rest.2, [axes[0].offsetAtEnd] + rest.3)
  }

  /**
    The offsets the narrow part reads (GuideLinesData.cs:84-99): start offsets
    are never negative and end offsets never positive, both ends of every
    axis lie on the supporting line of its guide segment, and each end is the
    segment's end moved along the unit direction by exactly the recorded offset.
   */
  lemma {:induction false} DataOffsets(k: Kernel, g: seq<Line>, i: int)
    requires |g| >= 1 && 0 <= i < |g|
    ensures var d := Data(k, g);
      && (CosineSigns(k) ==> d.offsetsAtStart[i] >= 0.0 && d.offsetsAtEnd[i] <= 0.0)
      && Cross(d.symmetryLines[i].from.Minus(g[i].from), g[i].Direction()) == Zero
      && Cross(d.symmetryLines[i].to.Minus(g[i].to), g[i].Direction()) == Zero
      && d.symmetryLines[i].from.Minus(g[i].from) == Unitize(k, g[i].Direction()).Scale(d.offsetsAtStart[i])
      && d.symmetryLines[i].to.Minus(g[i].to) == Unitize(k, g[i].Direction()).Scale(d.offsetsAtEnd[i])
  {
    var parts := Unzip(Axes(k, g, ContourPoints(k, g)));
    assert Data(k, g).offsetsAtStart == parts.2;
  }
}
