/**
  The irregular wall blueprint (IrregularWallBlueprint).

  A guide polyline of at least two segments gives one narrow part, the
  outline of the whole wall seen from above, and for every side of every
  segment one wide part, the wall's face along that side.  Each is cut into
  pieces short enough to mill by SplitPart.  Parts are numbered in one run:
  the narrow pieces first, from 0, then the wide pieces.
 */
module Irregular {
  import opened Kernel
  import opened Layout
  import opened GuideLines
  import opened Corners
  import opened SplitScans
  import opened Splitter
  import Progression

  /** The irregular wall's SplitPart: splitters may be skipped, holes go by their start point, mills by crossing. */
  const IrregularRules: Rules := Rules(true, StartInside, Crossing)

  /** What one guide line adds to the narrow part. */
  datatype LinePieces = LinePieces(connect: seq<Curve>, holes: seq<Curve>, splitters: seq<Curve>)

  /** The guide-line data as GuideLinesData builds it, with every array of the right size. */
  predicate WellFormed(d: GuideLinesData) {
    && |d.guideLines| >= 1
    && |d.contourPoints| == 2 * |d.guideLines| + 2
    && |d.symmetryLines| == |d.guideLines| && |d.rotations| == |d.guideLines|
    && |d.offsetsAtStart| == |d.guideLines| && |d.offsetsAtEnd| == |d.guideLines|
  }

  // ---------------------------------------------------------------------------
  // The narrow part (SolveNarrowPart)

  /** An axis of zero length gets no modules, so placing a module never divides by zero. */
  lemma IrregularLayoutFits(len: NonNeg)
    ensures var p := IrregularPlacement(len);
      len == 0.0 ==> |p.aCentres| == 0 && |p.bCentres| == 0
  {
  }

  /** The points of the axis at the given parameters. */
  function PointsAt(axis: Line, ps: seq<real>): (r: seq<Point>)
    ensures |r| == |ps|
    ensures forall m :: 0 <= m < |r| ==> r[m] == axis.PointAt(ps[m])
  {
    seq(|ps|, m requires 0 <= m < |ps| => axis.PointAt(ps[m]))
  }

  /**
    The modules of one guide line (IrregularWallBlueprint.cs:258-279): each A
    centre gives an A connector, each B centre a B connector and its holes.
    Returns the curves to join and the holes.
   */
  function NarrowModules(k: Kernel, axis: Line, p: Placement, len: real, thickness: real, rotation: real): (r: (seq<Curve>, seq<Curve>))
    requires len > 0.0 || (|p.aCentres| == 0 && |p.bCentres| == 0)
    ensures |p.aCentres| == 0 && |p.bCentres| == 0 ==> r == ([], [])
    ensures |p.bCentres| == 0 ==> r.1 == []
  {
    var atA := PointsAt(axis, Parameters(p.aCentres, len));
    var atB := PointsAt(axis, Parameters(p.bCentres, len));
    var connectorsA := seq(|atA|, m requires 0 <= m < |atA| => k.many(IrregularConnectorA(atA[m].x, atA[m].y, thickness, rotation)));
    var connectorsB := seq(|atB|, m requires 0 <= m < |atB| => k.many(IrregularConnectorB(atB[m].x, atB[m].y, rotation)));
    var holes := seq(|atB|, m requires 0 <= m < |atB| => k.many(IrregularMiddleHoles(atB[m].x, atB[m].y, thickness, rotation)));
    assert |p.bCentres| == 0 ==> Flatten(holes) == [] && Flatten(connectorsB) == [] by {
      if |p.bCentres| == 0 {
        assert holes == [] && connectorsB == [];
      }
    }
    assert |p.aCentres| == 0 ==> Flatten(connectorsA) == [] by {
      if |p.aCentres| == 0 {
        assert connectorsA == [];
      }
    }
    assert |p.aCentres| == 0 && |p.bCentres| == 0 ==> Flatten(connectorsA) + Flatten(connectorsB) == [];
    (Flatten(connectorsA) + Flatten(connectorsB), Flatten(holes))
  }

  /**
    A split curve at each chosen parameter, placed 3.75 before the module's
    centre (IrregularWallBlueprint.cs:282-283, 292-295).
   */
  function NarrowSplitters(k: Kernel, axis: Line, ts: seq<real>, thickness: real, rotation: real): (r: seq<Curve>)
    requires Length(k, axis) > 0.0 || ts == []
    ensures |r| == |ts|
  {
    if ts == [] then []
    else
      var parameterOffset := 3.750 / Length(k, axis);
      var at := PointsAt(axis, seq(|ts|, j requires 0 <= j < |ts| => ts[j] - parameterOffset));
      seq(|at|, j requires 0 <= j < |at| => k.one(NarrowRotatedSplitCurve(at[j].x, at[j].y, thickness, rotation)))
  }

  /** The cap of a narrow part: the end connector and its holes. */
  function NarrowCap(k: Kernel, guideLine: Line, cap: Cap, offset: real, thickness: real, rotation: real): (r: (seq<Curve>, seq<Curve>))
    ensures cap == NoCap <==> r.0 == []
    ensures |r.0| == (if cap == NoCap then 0 else 1)
    ensures cap == NoCap ==> r.1 == []
  {
    match cap
    case StartCap =>
      var at := guideLine.PointAt(0.0);
      ([k.one(IrregularEndConnector(at.x, at.y, offset - 10.0, offset - 10.0, rotation))],
       k.many(NarrowRotatedEndHoles(at.x, at.y, thickness, rotation)))
    case EndCap =>
      var at := guideLine.PointAt(1.0);
      ([k.one(IrregularEndConnector(at.x, at.y, offset - 10.0, offset - 10.0, Pi + rotation))],
       k.many(NarrowRotatedEndHoles(at.x, at.y, thickness, Pi + rotation)))
    case NoCap => ([], [])
  }

  /**
    The end holes of a corner, at the midpoint of its two lines, shifted across
    the turn by half the extension (IrregularWallBlueprint.cs:389-391, 413-415).
   */
  function CornerHoles(k: Kernel, ls: seq<Line>, deviation: int, extension: Vec, thickness: real, rotation: real): (r: seq<Curve>)
    requires |ls| == 0 || |ls| == 2
    ensures ls == [] ==> r == []
  {
    if ls == [] then []
    else
      var middlePoint := Midpoint(ls[0].from, ls[1].from);
      k.many(IrregularEndHoles(middlePoint.x, middlePoint.y, thickness, rotation,
                               (-deviation) as real * k.norm(extension) * 0.5))
  }

  /** The turn sign between segment i and segment j, 0 when j is outside the guide. */
  function TurnWith(g: seq<Line>, i: int, j: int): int
    requires 0 <= i < |g|
  {
    if 0 <= j < |g| then DeviationSign(g[i].Direction(), g[j].Direction(), ZAxis) else 0
  }

  /**
    Guide line i's contribution to the narrow part (IrregularWallBlueprint.cs:228-416):
    its modules, cap and corner lines to join, its holes, and its split curves.
   */
  function NarrowLine(k: Kernel, d: GuideLinesData, maxStraightLength: real, maxCornerLength: real,
                      thickness: real, i: int): (r: LinePieces)
    requires WellFormed(d) && 0 <= i < |d.guideLines|
    ensures var axisLength := Length(k, d.symmetryLines[i]);
      var p := IrregularPlacement(axisLength);
      var modules := NarrowModules(k, d.symmetryLines[i], p, axisLength, thickness, d.rotations[i]);
      && |r.connect| == |modules.0| + (if CapOf(i, |d.guideLines|) == NoCap then 0 else 1) + CornerLineCount(i, |d.guideLines|)
      && r.connect[..|modules.0|] == modules.0
      && |r.holes| >= |modules.1| && r.holes[..|modules.1|] == modules.1
      && |r.splitters| == |LineSplitParameters(Parameters(p.aCentres, axisLength), axisLength, d.offsetsAtStart[i],
                                               d.offsetsAtEnd[i], p.offset, maxCornerLength, maxStraightLength)|
  {
    var g := d.guideLines;
    var cps := d.contourPoints;
    var guideLine := g[i];
    var rotation := d.rotations[i];
    var axis := d.symmetryLines[i];
    var axisLength := Length(k, axis);
    var p := IrregularPlacement(axisLength);
    IrregularLayoutFits(axisLength);
    var modules := NarrowModules(k, axis, p, axisLength, thickness, rotation);
    var candidates := Parameters(p.aCentres, axisLength);
    var ts := LineSplitParameters(candidates, axisLength, d.offsetsAtStart[i], d.offsetsAtEnd[i], p.offset,
                                  maxCornerLength, maxStraightLength);
    assert ts != [] ==> ts[0] in candidates;
    var unitDirection := Unitize(k, guideLine.Direction());
    var shift := unitDirection.Scale(p.offset);
    var maxStart := unitDirection.Scale(d.offsetsAtStart[i]).Scale(2.0);
    var maxEnd := unitDirection.Scale(d.offsetsAtEnd[i]).Scale(2.0);
    var cap := NarrowCap(k, guideLine, CapOf(i, |g|), p.offset, thickness, rotation);
    var startLines := StartLines(k, g, cps, i, shift, maxStart);
    var endLines := EndLines(k, g, cps, i, shift, maxEnd);
    var startHoles := CornerHoles(k, startLines, TurnWith(g, i, i - 1), maxStart, thickness, rotation);
    var endHoles := CornerHoles(k, endLines, TurnWith(g, i, i + 1), maxEnd, thickness, rotation + Pi);
    JoinLine(k, modules, cap, startLines, endLines, startHoles + endHoles, NarrowSplitters(k, axis, ts, thickness, rotation))
  }

  /** A line's pieces in the order they are added: modules, cap, then the corner lines and their holes. */
  function JoinLine(k: Kernel, modules: (seq<Curve>, seq<Curve>), cap: (seq<Curve>, seq<Curve>),
                    startLines: seq<Line>, endLines: seq<Line>, cornerHoles: seq<Curve>, splitters: seq<Curve>): (r: LinePieces)
    ensures |r.connect| == |modules.0| + |cap.0| + |startLines| + |endLines|
    ensures r.connect[..|modules.0|] == modules.0
    ensures |r.holes| >= |modules.1| && r.holes[..|modules.1|] == modules.1
    ensures r.splitters == splitters
  {
    LinePieces(modules.0 + cap.0 + Curves(k, startLines) + Curves(k, endLines), modules.1 + cap.1 + cornerHoles, splitters)
  }

  /** The pieces of every guide line. */
  function NarrowLines(k: Kernel, d: GuideLinesData, maxStraightLength: real, maxCornerLength: real,
                       thickness: real): (r: seq<LinePieces>)
    requires WellFormed(d)
    ensures |r| == |d.guideLines|
    ensures forall i :: 0 <= i < |r| ==> r[i] == NarrowLine(k, d, maxStraightLength, maxCornerLength, thickness, i)
  {
    seq(|d.guideLines|, i requires 0 <= i < |d.guideLines| => NarrowLine(k, d, maxStraightLength, maxCornerLength, thickness, i))
  }

  /** The holes of every line, in line order. */
  function AllHoles(lines: seq<LinePieces>): seq<Curve> {
    Flatten(seq(|lines|, i requires 0 <= i < |lines| => lines[i].holes))
  }

  /** The curves to join of every line, in line order. */
  function AllConnect(lines: seq<LinePieces>): seq<Curve> {
    Flatten(seq(|lines|, i requires 0 <= i < |lines| => lines[i].connect))
  }

  /** The split curves of every line, in line order. */
  function AllSplitters(lines: seq<LinePieces>): seq<Curve> {
    Flatten(seq(|lines|, i requires 0 <= i < |lines| => lines[i].splitters))
  }

  /**
    SolveNarrowPart (IrregularWallBlueprint.cs:213-422), given every line's
    pieces: the outline is joined and split once, with no mills, from `index`.
    Its parts are numbered index, index + 1, ..., none has mills, nothing is
    added without a branch, and every hole ends in one part or is left over.
   */
  function SolveNarrowPart(k: Kernel, lines: seq<LinePieces>, index: int): (r: Outcome)
    ensures 1 <= |r.parts|
    ensures forall j :: 0 <= j < |r.parts| ==> r.parts[j].index == index + j
    ensures r.looseMills == [] && r.millsLeft == [] && multiset(Flatten(MillsOf(r.parts))) == multiset{}
    ensures multiset(Flatten(HolesOf(r.parts))) + multiset(r.holesLeft) == multiset(AllHoles(lines))
  {
    SplitPart(k, IrregularRules, k.join(AllConnect(lines)), AllSplitters(lines), AllHoles(lines), [], index)
  }

  // ---------------------------------------------------------------------------
  // The wide parts (SolveWidePart)

  /**
    The 2n contour lines (IrregularWallBlueprint.cs:118-129): line i runs along
    the left side of segment i and line n + i along its right side, both from
    the segment's start joint to its end joint; consecutive lines on one side
    meet.
   */
  function ContourLines(cps: seq<Point>, n: nat): (ls: seq<Line>)
    requires |cps| == 2 * n + 2
    ensures |ls| == 2 * n
    ensures forall i :: 0 <= i < n ==> ls[i] == Line(cps[i], cps[i + 1])
    ensures forall j :: n <= j < 2 * n ==> ls[j] == Line(cps[3 * n + 1 - j], cps[3 * n - j])
    ensures forall j :: 0 <= j < 2 * n - 1 && j != n - 1 ==> ls[j].to == ls[j + 1].from
  {
    seq(2 * n, j requires 0 <= j < 2 * n =>
      if j < n then Line(cps[j], cps[j + 1]) else Line(cps[|cps| - 1 - (j - n)], cps[|cps| - 2 - (j - n)]))
  }

  /**
    The two contour lines of segment i mirror each other about the guide: their
    start points about the segment's start vertex and their end points about
    its end vertex.
   */
  lemma {:induction false} ContourLinesMirrored(k: Kernel, g: seq<Line>, i: int)
    requires |g| >= 1 && 0 <= i < |g|
    ensures var n := |g|;
      var ls := ContourLines(ContourPoints(k, g), n);
      && ls[i].from.Plus(ls[n + i].from) == Vertex(g, i - 1).Scale(2.0)
      && ls[i].to.Plus(ls[n + i].to) == Vertex(g, i).Scale(2.0)
  {
    ContourPointsMirrored(k, g);
    MirroredLines(ContourPoints(k, g), g, i);
  }

  /** Contour lines i and n + i run between points mirrored about the guide's vertices. */
  lemma MirroredLines(cps: seq<Point>, g: seq<Line>, i: int)
    requires MirroredAbout(cps, g) && 0 <= i < |g|
    ensures var n := |g|;
      var ls := ContourLines(cps, n);
      && ls[i].from.Plus(ls[n + i].from) == Vertex(g, i - 1).Scale(2.0)
      && ls[i].to.Plus(ls[n + i].to) == Vertex(g, i).Scale(2.0)
  {
    var n := |g|;
    var ls := ContourLines(cps, n);
    assert ls[n + i] == Line(cps[2 * n - (i - 1)], cps[2 * n - i]);
    assert cps[i - 1 + 1].Plus(cps[2 * n - (i - 1)]) == Vertex(g, i - 1).Scale(2.0);
  }

  /**
    Where the axis starts and ends along a contour line
    (IrregularWallBlueprint.cs:142-151): the start offset is the distance,
    measured along the line's plan direction, between the line's start and the
    axis' start; the end offset is what the line has left beyond the axis.
   */
  function WideOffsets(k: Kernel, contourLine: Line, axis: Line): (r: (real, real))
    ensures r.0 >= 0.0
    ensures r.0 + Length(k, axis) + r.1 == Length(k, contourLine)
  {
    var direction := Unitize(k, contourLine.Direction());
    var startPointContour := contourLine.PointAt(0.0);
    var startPointSymmetry := axis.PointAt(0.0);
    var contourLineStart := direction.x * startPointContour.x + direction.y * startPointContour.y;
    var symmetryLineStart := direction.x * startPointSymmetry.x + direction.y * startPointSymmetry.y;
    var startOffset := if contourLineStart - symmetryLineStart >= 0.0 then contourLineStart - symmetryLineStart
                       else symmetryLineStart - contourLineStart;
    (startOffset, Length(k, contourLine) - startOffset - Length(k, axis))
  }

  /** What one contour line's wide part is made of, before it is split. */
  datatype WidePieces = WidePieces(contour: Curve, splitters: seq<Curve>, holes: seq<Curve>, mills: seq<Curve>)

  /**
    The modules of a wide part (IrregularWallBlueprint.cs:168-183): each A centre
    gives parallel connectors and mills, each B centre square connectors, holes
    and mills.  Returns the connectors, the holes and the mills.
   */
  function WideModules(k: Kernel, posX: real, aCentres: seq<real>, bCentres: seq<real>, thickness: real): (r: (seq<Curve>, seq<Curve>, seq<Curve>))
    ensures aCentres == [] && bCentres == [] ==> r == ([], [], [])
    ensures bCentres == [] ==> r.1 == []
  {
    var t := Some(thickness);
    var connectorsA := seq(|aCentres|, m requires 0 <= m < |aCentres| => k.many(WideParallelConnector(posX, aCentres[m], t)));
    var millsA := seq(|aCentres|, m requires 0 <= m < |aCentres| => k.many(WideParallelMill(posX, aCentres[m])));
    var connectorsB := seq(|bCentres|, m requires 0 <= m < |bCentres| => k.many(WideSquareConnector(posX, bCentres[m], t)));
    var holesB := seq(|bCentres|, m requires 0 <= m < |bCentres| => k.many(WideMiddleHoles(posX, bCentres[m], t)));
    var millsB := seq(|bCentres|, m requires 0 <= m < |bCentres| => k.many(WideSquareMill(posX, bCentres[m], t)));
    assert bCentres == [] ==> Flatten(connectorsB) == [] && Flatten(holesB) == [] && Flatten(millsB) == [] by {
      if bCentres == [] {
        assert connectorsB == [] && holesB == [] && millsB == [];
      }
    }
    assert aCentres == [] ==> Flatten(connectorsA) == [] && Flatten(millsA) == [] by {
      if aCentres == [] {
        assert connectorsA == [] && millsA == [];
      }
    }
    assert aCentres == [] && bCentres == [] ==>
      Flatten(connectorsA) + Flatten(connectorsB) == [] && Flatten(millsA) + Flatten(millsB) == [];
    (Flatten(connectorsA) + Flatten(connectorsB), Flatten(holesB), Flatten(millsA) + Flatten(millsB))
  }

  /**
    Contour line i's wide part (IrregularWallBlueprint.cs:131-197), drawn at
    x = 70 i, with the axis of segment i mod n; none when its split loop never
    ends, which a maximum part length of at least 60 rules out.
   */
  function WideLine(k: Kernel, d: GuideLinesData, maxPartLength: real, thickness: real, contourLine: Line, i: nat): (r: Option<WidePieces>)
    requires WellFormed(d)
    ensures maxPartLength >= 60.0 ==> r.Some?
  {
    var posX := 70.0 * i as real;
    var axis := d.symmetryLines[i % |d.symmetryLines|];
    var contourLength := Length(k, contourLine);
    var symmetryLength := Length(k, axis);
    var offsets := WideOffsets(k, contourLine, axis);
    var startOffset := offsets.0;
    var counts := IrregularCounts(symmetryLength);
    var excess := WideExcess(symmetryLength);
    var modules := WideModules(k, posX, Centres(counts.a, 40.0 / 2.0 + 10.0 + excess + startOffset),
                               Centres(counts.b, 20.0 / 2.0 + 50.0 + excess + startOffset), thickness);
    var ends := [k.one(WideStraightEndConnector(posX, 0.0, startOffset + excess, thickness, true, 0.0)),
                 k.one(WideStraightEndConnector(posX, contourLength, offsets.1 + excess, thickness, counts.a > counts.b, Pi))];
    var endMills := k.many(WideStraightEndMill(posX, 0.0, thickness, 0.0)) + k.many(WideStraightEndMill(posX, contourLength, thickness, Pi));
    match Progression.IrregularWideSplits(contourLength, symmetryLength, startOffset, maxPartLength)
    case Unending => None
    case Positions(ys) =>
      var splitters := seq(|ys|, j requires 0 <= j < |ys| => k.one(WideSplitCurve(posX, ys[j], Some(thickness))));
      Some(WidePieces(k.join(ends + modules.0), splitters, modules.1, endMills + modules.2))
  }

  /**
    The signed guide index of contour line i of 2n (IrregularWallBlueprint.cs:202-203):
    i + 1 on the left side and -(i - n) - 1 on the right, so never 0 and at
    most n in magnitude.
   */
  function GuideIndex(i: int, n: int): (r: int)
    requires 0 <= i < 2 * n
    ensures r != 0 && -n <= r <= n
    ensures r > 0 <==> i < n
  {
    if i < n then i % n + 1 else -(i % n) - 1
  }

  /** The wide parts so far and the three lists that grow with them. */
  datatype WideState = WideState(parts: seq<Part>, looseMills: seq<Curve>, indexes: seq<int>,
                                 guideIndexes: seq<int>, positions: seq<Point>)

  /**
    The lists grow in lock-step: one branch index, guide index and position per
    part; the branch indexes run on from `index`, and every guide index is a
    non-zero index of one of the n guide lines.
   */
  predicate LockStep(s: WideState, index: int, n: int) {
    && |s.indexes| == |s.parts| && |s.guideIndexes| == |s.parts| && |s.positions| == |s.parts|
    && (forall j :: 0 <= j < |s.parts| ==> s.parts[j].index == index + j && s.indexes[j] == index + j)
    && (forall j :: 0 <= j < |s.parts| ==> s.guideIndexes[j] != 0 && -n <= s.guideIndexes[j] <= n)
  }

  /** `count` copies of x. */
  function Repeat<T>(x: T, count: nat): (r: seq<T>)
    ensures |r| == count && forall j :: 0 <= j < count ==> r[j] == x
  {
    seq(count, _ => x)
  }

  /**
    One contour line's pass (IrregularWallBlueprint.cs:199-209): its parts are
    numbered on from those before, and the guide index and position lists grow
    by the same count.
   */
  function AddLine(s: WideState, o: Outcome, guideIndex: int, posX: real): (r: WideState)
    ensures |r.parts| == |s.parts| + |o.parts| && r.parts[..|s.parts|] == s.parts && r.parts[|s.parts|..] == o.parts
    ensures r.looseMills == s.looseMills + o.looseMills
    ensures |r.indexes| == |s.indexes| + |o.parts| && r.indexes[..|s.indexes|] == s.indexes
    ensures |r.guideIndexes| == |s.guideIndexes| + |o.parts| && r.guideIndexes[..|s.guideIndexes|] == s.guideIndexes
    ensures |r.positions| == |s.positions| + |o.parts| && r.positions[..|s.positions|] == s.positions
    ensures forall j :: |s.guideIndexes| <= j < |r.guideIndexes| ==> r.guideIndexes[j] == guideIndex
    ensures forall j :: |s.positions| <= j < |r.positions| ==> r.positions[j] == Vec(posX, 0.0, 0.0)
  {
    WideState(s.parts + o.parts, s.looseMills + o.looseMills, s.indexes + PartIndexes(o.parts),
              s.guideIndexes + Repeat(guideIndex, |o.parts|), s.positions + Repeat(Vec(posX, 0.0, 0.0), |o.parts|))
  }

  /** A pass keeps the lists in lock-step when its parts are numbered on from the others. */
  lemma {:induction false} AddLineKeepsLockStep(s: WideState, o: Outcome, index: int, n: int, guideIndex: int, posX: real)
    requires LockStep(s, index, n)
    requires forall j :: 0 <= j < |o.parts| ==> o.parts[j].index == index + |s.parts| + j
    requires guideIndex != 0 && -n <= guideIndex <= n
    ensures LockStep(AddLine(s, o, guideIndex, posX), index, n)
    ensures |AddLine(s, o, guideIndex, posX).parts| == |s.parts| + |o.parts|
  {
    var r := AddLine(s, o, guideIndex, posX);
    var pi := PartIndexes(o.parts);
    forall j | 0 <= j < |r.parts|
      ensures r.parts[j].index == index + j && r.indexes[j] == index + j
    {
      if j >= |s.parts| {
        assert r.parts[j] == o.parts[j - |s.parts|];
        assert r.indexes[j] == pi[j - |s.parts|];
      }
    }
  }

  /**
    The pass over contour line i of 2n (IrregularWallBlueprint.cs:199-209): its
    parts start at index plus the number of parts so far, and it adds at least
    one.
   */
  function LinePass(k: Kernel, w: WidePieces, index: int, i: nat, n: nat, s: WideState): (r: WideState)
    requires i < 2 * n && LockStep(s, index, n)
    ensures LockStep(r, index, n) && |r.parts| > |s.parts|
  {
    var o := SplitPart(k, IrregularRules, w.contour, w.splitters, w.holes, w.mills, index + |s.parts|);
    var guideIndex := GuideIndex(i, n);
    AddLineKeepsLockStep(s, o, index, n, guideIndex, 70.0 * i as real);
    AddLine(s, o, guideIndex, 70.0 * i as real)
  }

  /** The loop over contour lines i, i + 1, ..., 2n - 1. */
  function SolveWideFrom(k: Kernel, d: GuideLinesData, maxPartLength: real, thickness: real, lines: seq<Line>,
                         index: int, i: nat, s: WideState): (r: Option<WideState>)
    requires WellFormed(d) && |lines| == 2 * |d.guideLines| && i <= |lines|
    requires LockStep(s, index, |d.guideLines|)
    decreases |lines| - i
    ensures maxPartLength >= 60.0 ==> r.Some?
    ensures r.Some? ==> LockStep(r.value, index, |d.guideLines|)
    ensures r.Some? ==> |r.value.parts| >= |s.parts| + |lines| - i
  {
    if i == |lines| then Some(s)
    else
      match WideLine(k, d, maxPartLength, thickness, lines[i], i)
      case None => None
      case Some(w) =>
        SolveWideFrom(k, d, maxPartLength, thickness, lines, index, i + 1, LinePass(k, w, index, i, |d.guideLines|, s))
  }

  /**
    SolveWidePart (IrregularWallBlueprint.cs:108-211): the wide parts of the 2n
    contour lines, numbered on from `index`, at least one per line.
   */
  function SolveWidePart(k: Kernel, d: GuideLinesData, maxPartLength: real, thickness: real, index: int): (r: Option<WideState>)
    requires WellFormed(d)
    ensures maxPartLength >= 60.0 ==> r.Some?
    ensures r.Some? ==> LockStep(r.value, index, |d.guideLines|)
    ensures r.Some? ==> |r.value.parts| >= 2 * |d.guideLines|
  {
    var lines := ContourLines(d.contourPoints, |d.guideLines|);
    SolveWideFrom(k, d, maxPartLength, thickness, lines, index, 0, WideState([], [], [], [], []))
  }

  // ---------------------------------------------------------------------------
  // The blueprint

  /**
    What the blueprint holds: the parts of the three output trees (each part's
    outline, holes and mills under its branch index), the mills added without a
    branch, and the bookkeeping lists.
   */
  datatype Blueprint = Blueprint(
    guideLines: Option<seq<Line>>,
    narrowParts: seq<Part>,
    wideParts: seq<Part>,
    looseMills: seq<Curve>,
    narrowIndexes: seq<int>,
    wideIndexes: seq<int>,
    transversalIndexes: seq<int>,
    wideGuideLineIndexes: seq<int>,
    widePositions: seq<Point>)

  /** A blueprint with nothing solved. */
  function Unsolved(guideLines: Option<seq<Line>>): Blueprint {
    Blueprint(guideLines, [], [], [], [], [], [], [], [])
  }

  /**
    The parts are numbered in two contiguous blocks, the narrow ones from 0 and
    the wide ones right after them; the wide lists grow in lock-step; there are
    no transversal parts.
   */
  predicate Numbered(b: Blueprint) {
    && |b.narrowIndexes| == |b.narrowParts|
    && (forall j :: 0 <= j < |b.narrowParts| ==> b.narrowParts[j].index == j && b.narrowIndexes[j] == j)
    && |b.wideIndexes| == |b.wideParts| && |b.wideGuideLineIndexes| == |b.wideParts| && |b.widePositions| == |b.wideParts|
    && (forall j :: 0 <= j < |b.wideParts| ==>
          b.wideParts[j].index == |b.narrowParts| + j && b.wideIndexes[j] == |b.narrowParts| + j)
    && b.transversalIndexes == []
  }

  /**
    A solved guide of n lines: the parts are numbered, there is at least one
    narrow part and two wide parts per guide line, and every wide part's guide
    index names one of the n lines, with its side in the sign.
   */
  predicate Solved(b: Blueprint, n: int) {
    && Numbered(b)
    && |b.narrowParts| >= 1
    && |b.wideParts| >= 2 * n
    && forall j :: 0 <= j < |b.wideParts| ==>
         b.wideGuideLineIndexes[j] != 0 && -n <= b.wideGuideLineIndexes[j] <= n
  }

  /**
    The blueprint of a solved guide of n lines: the narrow parts numbered from
    0 and the wide parts from the narrow count make two contiguous blocks.
   */
  function Assemble(guideLines: Option<seq<Line>>, narrow: Outcome, wide: WideState, n: nat): (r: Blueprint)
    requires 1 <= |narrow.parts| && forall j :: 0 <= j < |narrow.parts| ==> narrow.parts[j].index == j
    requires LockStep(wide, |narrow.parts|, n) && |wide.parts| >= 2 * n
    ensures Solved(r, n) && r.guideLines == guideLines
    ensures r.narrowParts == narrow.parts && r.wideParts == wide.parts
    ensures r.wideGuideLineIndexes == wide.guideIndexes
  {
    Blueprint(guideLines, narrow.parts, wide.parts, narrow.looseMills + wide.looseMills,
              PartIndexes(narrow.parts), wide.indexes, [], wide.guideIndexes, wide.positions)
  }

  /**
    The narrow part of every guide line (IrregularWallBlueprint.cs:49), numbered
    from 0; every hole of the guide ends in one part or is left over.
   */
  method SolveNarrow(k: Kernel, d: GuideLinesData, maxPartLength: real, maxCornerLength: real,
                     thickness: real) returns (o: Outcome)
    requires WellFormed(d)
    ensures 1 <= |o.parts| && forall j :: 0 <= j < |o.parts| ==> o.parts[j].index == j
  {
    o := SolveNarrowPart(k, NarrowLines(k, d, maxPartLength, maxCornerLength, thickness), 0);
  }

  /**
    The solve of a guide of at least two lines (IrregularWallBlueprint.cs:47-50):
    the narrow part from index 0, then the wide parts from the narrow part's
    count.
   */
  method Solve(k: Kernel, d: GuideLinesData, maxPartLength: real, maxCornerLength: real,
               thickness: real) returns (r: Option<Blueprint>)
    requires WellFormed(d)
    ensures maxPartLength >= 60.0 ==> r.Some?
    ensures r.Some? ==> Solved(r.value, |d.guideLines|) && r.value.guideLines == Some(d.guideLines)
  {
    var narrow := SolveNarrow(k, d, maxPartLength, maxCornerLength, thickness);
    var wide := SolveWidePart(k, d, maxPartLength, thickness, |narrow.parts|);
    if wide.None? {
      r := None;
    } else {
      r := Some(Assemble(Some(d.guideLines), narrow, wide.value, |d.guideLines|));
    }
  }

  /** The GuideLinesData constructor as the blueprint calls it (IrregularWallBlueprint.cs:47). */
  method NewData(k: Kernel, g: seq<Line>) returns (d: GuideLinesData)
    requires |g| >= 1
    ensures WellFormed(d) && d.guideLines == g
  {
    d := Data(k, g);
  }

  /**
    The constructor (IrregularWallBlueprint.cs:29-51), given the guide lines
    GetGuideLines extracted from the curve: with none, or with a single one, it
    stops with every output empty; otherwise it solves the guide.  It has no
    result only when a wide part's split loop never ends.
   */
  method Build(k: Kernel, guideLines: Option<seq<Line>>, maxPartLength: real, maxCornerLength: real,
               thickness: real) returns (r: Option<Blueprint>)
    ensures guideLines.None? || |guideLines.value| <= 1 ==> r == Some(Unsolved(guideLines))
    ensures maxPartLength >= 60.0 ==> r.Some?
    ensures r.Some? ==> r.value.guideLines == guideLines
    ensures r.Some? && guideLines.Some? && |guideLines.value| > 1 ==> Solved(r.value, |guideLines.value|)
  {
    if guideLines.None? || |guideLines.value| <= 1 {
      r := Some(Unsolved(guideLines));
    } else {
      var d := NewData(k, guideLines.value);
      r := Solve(k, d, maxPartLength, maxCornerLength, thickness);
    }
  }
}
