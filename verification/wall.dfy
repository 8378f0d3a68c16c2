/**
  The Wall component (Wall).

  It draws the plan of a simple wall of length L: a front piece with its
  connector cut-outs on a 60-unit pitch, and a side piece whose outline is a
  31.8-wide rectangle less its cut-outs, perforated once per module joint.
 */
module Wall {
  import opened Kernel
  import opened Clamps
  import opened Splitter

  /** The positions 0, 60, 120, ... of `count` modules (none for a count below 1). */
  function ModuleYs(count: int): (ys: seq<real>)
    ensures |ys| == Iterations(count)
    ensures forall i :: 0 <= i < |ys| ==> ys[i] == 60.0 * i as real
  {
    seq(Iterations(count), i => 60.0 * i as real)
  }

  /** The Math.Floor of L / 60: the number of whole modules, and of connector modules. */
  function Modules(length: real): (c: int)
    ensures 60.0 * c as real <= length < 60.0 * c as real + 60.0
  {
    (length / 60.0).Floor
  }

  /** The Math.Floor of (L - 30) / 60: the number of module joints with 30 units beyond them. */
  function Joints(length: real): (c: int)
    ensures 60.0 * c as real + 30.0 <= length < 60.0 * c as real + 90.0
  {
    ((length - 30.0) / 60.0).Floor
  }

  /**
    There is one joint fewer than modules, unless the length reaches 30 past
    the last module's start, when there are as many.
   */
  lemma JointsOfModules(length: real)
    ensures Joints(length) == (if length >= 60.0 * Modules(length) as real + 30.0 then Modules(length) else Modules(length) - 1)
  {
    var c := Modules(length);
    var j := Joints(length);
    if length >= 60.0 * c as real + 30.0 {
      assert 60.0 * j as real > 60.0 * c as real - 60.0;
      assert 60.0 * j as real < 60.0 * c as real + 60.0;
    } else {
      assert 60.0 * j as real > 60.0 * c as real - 120.0;
      assert 60.0 * j as real < 60.0 * c as real;
    }
  }

  // ---------------------------------------------------------------------------
  // The front piece

  /** The front piece: its outline (none when there is no outer cut-out), and the outer and inner cut-outs. */
  datatype Front = Front(contour: Option<Curve>, outer: seq<Curve>, inner: seq<Curve>)

  /**
    GetFrontCurves (Wall.cs:59-95): the end cut-outs, floor(L / 60) primary
    connector modules and floor((L - 30) / 60) secondary ones, each with its
    middle cut-outs, all at x = 0 and y = 60i.  The outline is the first outer
    cut-out: the rectangle is built but never used.
   */
  function FrontCurves(k: Kernel, length: real): (r: Front)
    ensures |r.outer| >= |k.many(WallEndCutOuts(length))|
    ensures r.outer[..|k.many(WallEndCutOuts(length))|] == k.many(WallEndCutOuts(length))
    ensures r.contour.Some? <==> r.outer != []
    ensures r.contour.Some? ==> r.contour.value == r.outer[0]
    ensures k.many(WallEndCutOuts(length)) != [] ==> r.contour == Some(k.many(WallEndCutOuts(length))[0])
    ensures r.inner == ManyAt(k, y => WallMiddleCutOuts(0.0, y), ModuleYs(Joints(length)))
    ensures r.outer == k.many(WallEndCutOuts(length))
      + ManyAt(k, y => WallConnectorModule1(0.0, y), ModuleYs(Modules(length)))
      + ManyAt(k, y => WallConnectorModule2(0.0, y), ModuleYs(Joints(length)))
  {
    var endCutOuts := k.many(WallEndCutOuts(length));
    var primary := ManyAt(k, y => WallConnectorModule1(0.0, y), ModuleYs(Modules(length)));
    var secondary := ManyAt(k, y => WallConnectorModule2(0.0, y), ModuleYs(Joints(length)));
    var outer := endCutOuts + primary + secondary;
    Front(if outer == [] then None else Some(outer[0]), outer,
          ManyAt(k, y => WallMiddleCutOuts(0.0, y), ModuleYs(Joints(length))))
  }

  /**
    Every primary module starts at least 60 before the end of the wall, every
    secondary one at least 90 before it: none overruns the wall.
   */
  lemma FrontModulesFit(length: real)
    ensures forall y :: y in ModuleYs(Modules(length)) ==> 0.0 <= y && y + 60.0 <= length
    ensures forall y :: y in ModuleYs(Joints(length)) ==> 0.0 <= y && y + 90.0 <= length
  {
    var ys := ModuleYs(Modules(length));
    forall y | y in ys
      ensures 0.0 <= y && y + 60.0 <= length
    {
      var i :| 0 <= i < |ys| && ys[i] == y;
      assert i + 1 <= Modules(length);
      assert 60.0 * (i + 1) as real <= 60.0 * Modules(length) as real;
    }
    var js := ModuleYs(Joints(length));
    forall y | y in js
      ensures 0.0 <= y && y + 90.0 <= length
    {
      var i :| 0 <= i < |js| && js[i] == y;
      assert i + 1 <= Joints(length);
      assert 60.0 * (i + 1) as real <= 60.0 * Joints(length) as real;
    }
  }

  // ---------------------------------------------------------------------------
  // The side piece

  /** The side's leftover after the connector modules and the 20 units of end cut-outs. */
  function SideRest(length: real): (r: real)
    ensures -20.0 <= r < 40.0
    ensures r == length - 60.0 * Modules(length) as real - 20.0
  {
    length - Modules(length) as real * 60.0 - 20.0
  }

  /**
    The side's cut-outs (Wall.cs:106-130): four end notches, a connector module
    every 60, and, when the rest is at least 10, a pair of notches filling it,
    centred between the last module's end at 60c + 10 and L - 10.
   */
  function SideCutOuts(k: Kernel, length: real): (r: seq<Curve>)
    ensures var c := Modules(length);
      var modules := ManyAt(k, y => WallConnectorModule(0.0, y), ModuleYs(c));
      && |r| == 4 + |modules| + (if SideRest(length) >= 10.0 then 2 else 0)
      && r[..4 + |modules|] == [k.one(HCutOff(6.0, 3.60, -5.0, 0.0, 0.0)), k.one(HCutOff(6.0, 3.60, 7.0, 0.0, 0.0)),
                                k.one(HCutOff(6.0, 3.60, -5.0, length, 0.0)), k.one(HCutOff(6.0, 3.60, 7.0, length, 0.0))] + modules
    ensures SideRest(length) >= 10.0 ==>
      var centre := 10.0 + SideRest(length) * 0.5 + Modules(length) as real * 60.0;
      && centre - (60.0 * Modules(length) as real + 10.0) == (length - 10.0) - centre
      && r[|r| - 2] == k.one(HCutOff(SideRest(length), 10.0, -15.9, centre, Pi * 0.5))
      && r[|r| - 1] == k.one(HCutOff(SideRest(length), 3.60, 15.9, centre, Pi * 0.5))
  {
    var rot90 := Pi * 0.5;
    var c := Modules(length);
    var ends := [k.one(HCutOff(6.0, 3.60, -5.0, 0.0, 0.0)), k.one(HCutOff(6.0, 3.60, 7.0, 0.0, 0.0)),
                 k.one(HCutOff(6.0, 3.60, -5.0, length, 0.0)), k.one(HCutOff(6.0, 3.60, 7.0, length, 0.0))];
    var modules := ManyAt(k, y => WallConnectorModule(0.0, y), ModuleYs(c));
    var rest := SideRest(length);
    var centre := 10.0 + rest * 0.5 + c as real * 60.0;
    ends + modules + (if rest >= 10.0
      then [k.one(HCutOff(rest, 10.0, -15.9, centre, rot90)), k.one(HCutOff(rest, 3.60, 15.9, centre, rot90))]
      else [])
  }

  /** The pair of round slots across the side at y, one near each face. */
  function EndPair(k: Kernel, y: real): seq<Curve> {
    var rot90 := Pi * 0.5;
    [k.one(RCutOff(2.519, 0.45, -11.35, y, rot90)), k.one(RCutOff(2.519, 0.45, 14.55, y, rot90))]
  }

  /**
    The four perforations at the two ends of the side: the same pair of round
    slots 5.24 from the start and 5.24 from the end, so the side is perforated
    symmetrically about its middle.
   */
  function EndPerforations(k: Kernel, length: real): (r: seq<Curve>)
    ensures |r| == 4
    ensures r[..2] == EndPair(k, 5.24) && r[2..] == EndPair(k, length - 5.24)
  {
    EndPair(k, 5.24) + EndPair(k, length - 5.24)
  }

  /** The three perforations of the joint at y: a slot, a slot joined to a square, and a round slot. */
  function JointPerforations(k: Kernel, y: real): (r: seq<Curve>)
    ensures |r| == 3
  {
    var rot90 := Pi * 0.5;
    var strangeShape := [k.one(HCutOff(5.0, 1.2, -11.5, y, rot90)), k.one(SCutOff(1.2, 6.2, -12.1, y))];
    [k.one(HCutOff(5.0, 1.8, 1.596, y, 0.0)), k.union(strangeShape), k.one(RCutOff(5.0, 0.45, 14.55, y, rot90))]
  }

  /**
    The perforation loop (Wall.cs:138-171): the end perforations, then three
    for every joint i = 1, ..., c at y = 60i, except that the last joint is
    dropped when the rest is under 10.  The joints perforated are exactly those
    with 30 units of wall beyond them, as many as the front's secondary
    modules.
   */
  method SidePerforations(k: Kernel, length: real) returns (perfs: seq<Curve>)
    ensures |perfs| == 4 + 3 * Iterations(Joints(length))
    ensures perfs[..4] == EndPerforations(k, length)
    ensures forall j :: 0 <= j < Iterations(Joints(length)) ==>
      perfs[4 + 3 * j..4 + 3 * j + 3] == JointPerforations(k, 60.0 * (j + 1) as real)
  {
    var c := Modules(length);
    var rest := SideRest(length);
    JointsOfModules(length);
    perfs := EndPerforations(k, length);
    var i := 1;
    while i <= c
      invariant 1 <= i && (c >= 1 ==> i <= c + 1)
      invariant i - 1 <= Iterations(Joints(length))
      invariant |perfs| == 4 + 3 * (i - 1)
      invariant perfs[..4] == EndPerforations(k, length)
      invariant forall j :: 0 <= j < i - 1 ==>
        perfs[4 + 3 * j..4 + 3 * j + 3] == JointPerforations(k, 60.0 * (j + 1) as real)
    {
      if c == i && rest < 10.0 {
        break;
      }
      var before := perfs;
      perfs := perfs + JointPerforations(k, (i * 60) as real);
      assert forall j :: 0 <= j < i - 1 ==> perfs[4 + 3 * j..4 + 3 * j + 3] == before[4 + 3 * j..4 + 3 * j + 3];
      i := i + 1;
    }
  }

  /** The side piece: the rectangle less its cut-outs, and the perforations. */
  datatype Side = Side(contour: Curve, perforations: seq<Curve>)

  /** GetSideCurves (Wall.cs:97-172). */
  method SideCurves(k: Kernel, length: real) returns (r: Side)
    ensures r.contour == k.difference(k.one(Rectangle(-15.9, 0.0, 15.9, length)), SideCutOuts(k, length))
    ensures |r.perforations| == 4 + 3 * Iterations(Joints(length))
  {
    var perfs := SidePerforations(k, length);
    r := Side(k.difference(k.one(Rectangle(-15.9, 0.0, 15.9, length)), SideCutOuts(k, length)), perfs);
  }

  // ---------------------------------------------------------------------------
  // The component

  /** What the component sets: the two outlines, and the cut-offs of output 1. */
  datatype Outputs = Outputs(contours: seq<Option<Curve>>, cutOffs: seq<Curve>)

  /**
    SolveInstance (Wall.cs:29-57): a missing length is 120 and a missing
    modulate flag false; the length is modulated; output 0 holds the front and
    side outlines and output 1 only the front's cut-offs, the side's
    perforations are computed and dropped.
   */
  method SolveInstance(k: Kernel, lengthInput: Option<real>, modulateInput: Option<bool>) returns (out: Outputs)
    ensures var length := Modulated(if lengthInput.Some? then lengthInput.value else 120.0,
                                     modulateInput.Some? && modulateInput.value);
      && |out.contours| == 2
      && out.contours[0] == FrontCurves(k, length).contour
      && out.contours[1] == Some(k.difference(k.one(Rectangle(-15.9, 0.0, 15.9, length)), SideCutOuts(k, length)))
      && out.cutOffs == FrontCurves(k, length).inner
  {
    var length := if lengthInput.Some? then lengthInput.value else 120.0;
    var modulate := modulateInput.Some? && modulateInput.value;
    length := Modulated(length, modulate);
    var front := FrontCurves(k, length);
    var side := SideCurves(k, length);
    out := Outputs([front.contour, Some(side.contour)], front.inner);
  }
}
