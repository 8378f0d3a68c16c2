/**
  The geometry the panel layout engine relies on but does not implement.

  Points and vectors are exact 3-D real triples.  Everything RhinoCommon computes
  (square roots, angles, trigonometry, curve intersection, splitting, joining,
  point containment) is a field of the `Kernel` record: an uninterpreted total
  function that every operation of the model receives as a parameter.  Curves are
  an opaque type; the fixed connector silhouettes of the part builders are
  described by `Shape` values and turned into curves by the kernel.
 */
module Kernel {

  datatype Option<+T> = None | Some(value: T)

  /** Math.PI as a double, read as an exact real. */
  const Pi: real := 3.141592653589793

  type NonNeg = r: real | r >= 0.0

  /** The range of Vector3d.VectorAngle. */
  type Angle = r: real | 0.0 <= r <= Pi

  datatype Vec = Vec(x: real, y: real, z: real) {
    function Plus(o: Vec): Vec { Vec(x + o.x, y + o.y, z + o.z) }
    function Minus(o: Vec): Vec { Vec(x - o.x, y - o.y, z - o.z) }
    function Scale(s: real): Vec { Vec(s * x, s * y, s * z) }
    function Neg(): Vec { Vec(-x, -y, -z) }
  }

  type Point = Vec

  const Zero: Vec := Vec(0.0, 0.0, 0.0)
  const XAxis: Vec := Vec(1.0, 0.0, 0.0)
  const ZAxis: Vec := Vec(0.0, 0.0, 1.0)

  function Cross(a: Vec, b: Vec): Vec {
    Vec(a.y * b.z - a.z * b.y, a.z * b.x - a.x * b.z, a.x * b.y - a.y * b.x)
  }

  function Dot(a: Vec, b: Vec): real {
    a.x * b.x + a.y * b.y + a.z * b.z
  }

  /** The z component of the cross product of the plan projections. */
  function Cross2(a: Vec, b: Vec): real {
    a.x * b.y - a.y * b.x
  }

  /** Math.Sign on a double. */
  function Sign(r: real): int {
    if r > 0.0 then 1 else if r < 0.0 then -1 else 0
  }

  /** Math.Sign on an int. */
  function SignInt(i: int): int {
    if i > 0 then 1 else if i < 0 then -1 else 0
  }

  function Max(a: real, b: real): real { if a >= b then a else b }
  function Min(a: real, b: real): real { if a <= b then a else b }

  /** A `for (int m = 0; m < count; m++)` loop over a double count runs this often. */
  function Iterations(count: int): nat { if count > 0 then count else 0 }

  /** Rhino.Geometry.Line: a segment from `from` to `to`. */
  datatype Line = Line(from: Point, to: Point) {
    function Direction(): Vec { to.Minus(from) }
    /** Line.PointAt: the affine point at normalised parameter t. */
    function PointAt(t: real): Point { from.Plus(to.Minus(from).Scale(t)) }
  }

  /** A RhinoCommon curve, known only through the kernel. */
  type Curve(==, !new)

  /** Rhino.Geometry.PointContainment. */
  datatype Containment = Unset | Inside | Outside | Coincident

  /** One entry of the CurveIntersections list of Intersection.CurveCurve. */
  datatype Event = Event(isPoint: bool, parameterA: real)

  /**
    The fixed parametric silhouettes of the part builders, one constructor per
    builder call, carrying that call's arguments.
   */
  datatype Shape =
    // IrregularNarrowPartBuilder
    | IrregularEndConnector(x: real, y: real, addSpaceR: real, addSpaceL: real, rotation: real)
    | IrregularConnectorA(x: real, y: real, thickness: real, rotation: real)
    | IrregularConnectorB(x: real, y: real, rotation: real)
    | IrregularMiddleHoles(x: real, y: real, thickness: real, rotation: real)
    | IrregularEndHoles(x: real, y: real, thickness: real, rotation: real, offset: real)
    // NarrowPartBuilder
    | NarrowSplitCurve(x: real, y: real)
    | NarrowRotatedSplitCurve(x: real, y: real, thickness: real, rotation: real)
    | NarrowEndConnector(x: real, y: real, rotate: bool)
    | NarrowEndHoles(x: real, y: real, rotate: bool)
    | NarrowRotatedEndHoles(x: real, y: real, thickness: real, rotation: real)
    | NarrowConnectorA(x: real, y: real)
    | NarrowConnectorB(x: real, y: real)
    | NarrowMiddleHoles(x: real, y: real)
    | NarrowConnectorRest(x: real, y: real, rest: real, hole: bool)
    // WidePartBuilder
    | WideEndConnector(x: real, y: real, excess: real, hole: bool, rotation: real)
    | WideStraightEndConnector(x: real, y: real, excess: real, thickness: real, hole: bool, rotation: real)
    | WideEndMill(x: real, y: real, rotation: real)
    | WideStraightEndMill(x: real, y: real, thickness: real, rotation: real)
    | WideParallelConnector(x: real, y: real, optThickness: Option<real>)
    | WideParallelMill(x: real, y: real)
    | WideSquareConnector(x: real, y: real, optThickness: Option<real>)
    | WideSquareMill(x: real, y: real, optThickness: Option<real>)
    | WideMiddleHoles(x: real, y: real, optThickness: Option<real>)
    | WideSplitCurve(x: real, y: real, optThickness: Option<real>)
    // TransversalPartBuilder
    | TransversalContour
    // IrregularSidePartBuilder's own helpers
    | SideEndConnector(x: real, y: real, addSpaceR: real, addSpaceL: real, rotation: real)
    | SideConnectorA(x: real, y: real, rotation: real)
    | SideConnectorB(x: real, y: real, rotation: real)
    | SideMiddleHoles(x: real, y: real, rotation: real)
    // GeometryHelper, as used by the Wall component
    | WallEndCutOuts(length: real)
    | WallConnectorModule1(x: real, y: real)
    | WallConnectorModule2(x: real, y: real)
    | WallMiddleCutOuts(x: real, y: real)
    | WallConnectorModule(x: real, y: real)
    | HCutOff(width: real, height: real, x: real, y: real, rotation: real)
    | RCutOff(width: real, radius: real, x: real, y: real, rotation: real)
    | SCutOff(width: real, height: real, x: real, y: real)
    | Rectangle(x0: real, y0: real, x1: real, y1: real)

  /** The uninterpreted geometry collaborators. */
  datatype Kernel = Kernel(
    norm: Vec -> NonNeg,                          // Vector3d.Length, Line.Length
    angle: (Vec, Vec) -> Angle,                   // Vector3d.VectorAngle
    tan: real -> real,                            // Math.Tan
    cos: real -> real,                            // Math.Cos
    intersect: (Curve, Curve) -> seq<Event>,      // Intersection.CurveCurve
    split: (Curve, seq<real>) -> (Curve, Curve),  // the first two pieces of Curve.Split
    join: seq<Curve> -> Curve,                    // Curve.JoinCurves(...)[0]
    joinAll: seq<Curve> -> seq<Curve>,            // Curve.JoinCurves(...), every joined curve
    union: seq<Curve> -> Curve,                   // Curve.CreateBooleanUnion(...)[0]
    difference: (Curve, seq<Curve>) -> Curve,     // Curve.CreateBooleanDifference(...)[0]
    contains: (Curve, Point) -> Containment,      // Curve.Contains on the world XY plane
    boxContains: (Curve, Point) -> bool,          // GetBoundingBox(false).Contains
    pointAtStart: Curve -> Point,
    pointAtEnd: Curve -> Point,
    line: (Point, Point) -> Curve,                // new Line(a, b).ToNurbsCurve()
    translate: (Curve, Vec) -> Curve,             // Transform.Translation applied to a copy
    one: Shape -> Curve,                          // a builder that returns one curve
    many: Shape -> seq<Curve>                     // a builder that returns several curves
  )

  /** The only facts about Math.Cos the model needs: its sign on [0, π]. */
  ghost predicate CosineSigns(k: Kernel) {
    && (forall a :: 0.0 <= a <= Pi / 2.0 ==> k.cos(a) >= 0.0)
    && (forall a :: Pi / 2.0 <= a <= Pi ==> k.cos(a) <= 0.0)
  }

  /** Vector3d.Unitize: divides by the length, and leaves a zero vector unchanged. */
  function Unitize(k: Kernel, v: Vec): Vec {
    if k.norm(v) == 0.0 then v else v.Scale(1.0 / k.norm(v))
  }

  /** Line.Length. */
  function Length(k: Kernel, l: Line): NonNeg {
    k.norm(l.Direction())
  }
}
