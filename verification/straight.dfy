/**
  The straight wall blueprint (StraightWallBlueprint).

  A straight wall of length L has one narrow part (the wall seen from above),
  one wide part (its face) and a row of transversal parts.  Narrow and wide
  parts are cut by splitters on an arithmetic progression when they are longer
  than the maximum part length; the SplitPart here never skips a splitter.
  Parts are numbered in one run: narrow, then wide, then transversal.
 */
module Straight {
  import opened Kernel
  import opened Layout
  import opened Progression
  import opened Splitter

  /** The straight wall's SplitPart: no skipping, holes by their start point, mills by their end point, both in the box. */
  const StraightRules: Rules := Rules(false, StartInBox, EndInBox)

  /** What a part is built from before it is split. */
  datatype Pieces = Pieces(connect: seq<Curve>, holes: seq<Curve>, mills: seq<Curve>)

  // ---------------------------------------------------------------------------
  // The narrow part

  /**
    The narrow part's pieces (StraightWallBlueprint.cs:58-85, StraightWall.cs:97-124):
    the two end connectors, the A connectors at 60m + 30, the B connectors at
    60m + 60 with their holes, and the filler of the rest, centred in it, with
    a hole when the last module is a B.
   */
  function NarrowPieces(k: Kernel, length: real): (r: Pieces)
    ensures r.mills == []
  {
    var p := StraightPlacement(length);
    var ends := [k.one(NarrowEndConnector(0.0, 0.0, false)), k.one(NarrowEndConnector(0.0, length, true))];
    var connectorsA := ManyAt(k, y => NarrowConnectorA(0.0, y), p.aCentres);
    var connectorsB := ManyAt(k, y => NarrowConnectorB(0.0, y), p.bCentres);
    var restFiller := k.many(NarrowConnectorRest(0.0, length - 10.0 - p.rest * 0.5, p.rest, p.counts.a <= p.counts.b));
    var endHoles := k.many(NarrowEndHoles(0.0, 0.0, false)) + k.many(NarrowEndHoles(0.0, length, true));
    Pieces(ends + connectorsA + connectorsB + restFiller, endHoles + ManyAt(k, y => NarrowMiddleHoles(0.0, y), p.bCentres), [])
  }

  /** The splitter curves at the given positions across a part at posX. */
  function SplittersAt(k: Kernel, run: SplitRun, shape: real -> Shape): (r: Option<seq<Curve>>)
    ensures r.Some? <==> run.Positions?
    ensures r.Some? ==> |r.value| == |run.ys|
  {
    match run
    case Unending => None
    case Positions(ys) => Some(seq(|ys|, j requires 0 <= j < |ys| => k.one(shape(ys[j]))))
  }

  /**
    A part joined from its pieces and cut at the split run, parts numbered from
    `index`; nothing when the run never ends.  Every splitter makes one more
    part, and every hole and mill ends in one part or is left over.
   */
  method SplitAlong(k: Kernel, pieces: Pieces, run: SplitRun, shape: real -> Shape, index: int) returns (r: Option<Outcome>)
    ensures r.Some? <==> run.Positions?
    ensures r.Some? ==> |r.value.parts| == |run.ys| + 1
    ensures r.Some? ==> forall j :: 0 <= j < |r.value.parts| ==> r.value.parts[j].index == index + j
    ensures r.Some? ==> multiset(Flatten(HolesOf(r.value.parts))) + multiset(r.value.holesLeft) == multiset(pieces.holes)
    ensures r.Some? ==> multiset(Flatten(MillsOf(r.value.parts))) + multiset(r.value.looseMills) + multiset(r.value.millsLeft)
                        == multiset(pieces.mills)
  {
    var splitters := SplittersAt(k, run, shape);
    if splitters.None? {
      return None;
    }
    r := Some(SplitPart(k, StraightRules, k.join(pieces.connect), splitters.value, pieces.holes, pieces.mills, index));
  }

  /**
    SolveNarrowPart (StraightWallBlueprint.cs:56-102): the narrow part cut at
    the narrow progression, one part more than there are split positions, all
    without mills.
   */
  method SolveNarrowPart(k: Kernel, length: real, maxPartLength: real, index: int) returns (r: Option<Outcome>)
    ensures maxPartLength >= 60.0 ==> r.Some?
    ensures r.Some? ==> StraightNarrowSplits(length, maxPartLength).Positions?
    ensures r.Some? ==> |r.value.parts| == |StraightNarrowSplits(length, maxPartLength).ys| + 1
    ensures r.Some? ==> forall j :: 0 <= j < |r.value.parts| ==> r.value.parts[j].index == index + j
    ensures r.Some? ==> multiset(Flatten(HolesOf(r.value.parts))) + multiset(r.value.holesLeft) == multiset(NarrowPieces(k, length).holes)
  {
    r := SplitAlong(k, NarrowPieces(k, length), StraightNarrowSplits(length, maxPartLength), y => NarrowSplitCurve(0.0, y), index);
  }

  // ---------------------------------------------------------------------------
  // The wide part

  /**
    The wide part's pieces at posX (StraightWallBlueprint.cs:106-143): the two
    end connectors, the upper one filling the rest and with a hole when the last
    module is an A; parallel connectors at the A centres and square connectors
    with holes at the B centres; a mill at each end and one per module.
   */
  function WidePieces(k: Kernel, length: real, posX: real): (r: Pieces)
    ensures var c := StraightCounts(length);
      && |r.connect| >= 2
      && r.connect[0] == k.one(WideEndConnector(posX, 0.0, 0.0, true, 0.0))
      && r.connect[1] == k.one(WideEndConnector(posX, length, StraightRest(length), c.a > c.b, Pi))
    ensures Iterations(StraightCounts(length).b) == 0 ==> r.holes == []
    ensures var lower := k.many(WideEndMill(posX, 0.0, 0.0));
      var upper := k.many(WideEndMill(posX, length, Pi));
      && |r.mills| >= |lower| + |upper|
      && r.mills[..|lower|] == lower && r.mills[|lower|..|lower| + |upper|] == upper
  {
    var p := StraightPlacement(length);
    var ends := [k.one(WideEndConnector(posX, 0.0, 0.0, true, 0.0)),
                 k.one(WideEndConnector(posX, length, p.rest, p.counts.a > p.counts.b, Pi))];
    var endMills := k.many(WideEndMill(posX, 0.0, 0.0)) + k.many(WideEndMill(posX, length, Pi));
    var connect := ends + ManyAt(k, y => WideParallelConnector(posX, y, None), p.aCentres)
                        + ManyAt(k, y => WideSquareConnector(posX, y, None), p.bCentres);
    var mills := endMills + ModuleMills(k, posX, p.aCentres, p.bCentres);
    Pieces(connect, ManyAt(k, y => WideMiddleHoles(posX, y, None), p.bCentres), mills)
  }

  /** The module mills in the order the two module loops add them: every A's, then every B's. */
  function ModuleMills(k: Kernel, posX: real, aCentres: seq<real>, bCentres: seq<real>): (r: seq<Curve>)
    ensures aCentres == [] && bCentres == [] ==> r == []
  {
    ManyAtNone(k, y => WideParallelMill(posX, y));
    ManyAtNone(k, y => WideSquareMill(posX, y, None));
    ManyAt(k, y => WideParallelMill(posX, y), aCentres) + ManyAt(k, y => WideSquareMill(posX, y, None), bCentres)
  }

  /**
    SolveWidePart (StraightWallBlueprint.cs:104-158): the wide part at x = 60 cut
    at the wide progression.  With no splitter its mills go to the mill tree
    without a branch; otherwise every hole and mill ends in one part or is left
    over.
   */
  method SolveWidePart(k: Kernel, length: real, maxPartLength: real, index: int) returns (r: Option<Outcome>)
    ensures maxPartLength >= 60.0 ==> r.Some?
    ensures r.Some? ==> StraightWideSplits(length, maxPartLength).Positions?
    ensures r.Some? ==> |r.value.parts| == |StraightWideSplits(length, maxPartLength).ys| + 1
    ensures r.Some? ==> forall j :: 0 <= j < |r.value.parts| ==> r.value.parts[j].index == index + j
    ensures r.Some? ==> multiset(Flatten(MillsOf(r.value.parts))) + multiset(r.value.looseMills) + multiset(r.value.millsLeft)
                        == multiset(WidePieces(k, length, 60.0).mills)
  {
    r := SplitAlong(k, WidePieces(k, length, 60.0), StraightWideSplits(length, maxPartLength), y => WideSplitCurve(60.0, y, None), index);
  }

  // ---------------------------------------------------------------------------
  // The transversal parts

  /**
    SolveTransversalParts (StraightWallBlueprint.cs:35-54): floor((L - 40) / 60)
    copies of the transversal contour at x = -60, one every 60 from y = 60, each
    its own part with no holes or mills.  There is one per B module, level
    with it: the count is the B-module count of the narrow and wide parts.
   */
  function TransversalParts(k: Kernel, length: real, index: int): (r: seq<Part>)
    ensures |r| == Iterations(((length - 50.0 + 20.0 / 2.0) / 60.0).Floor)
    ensures |r| == |StraightPlacement(length).bCentres|
    ensures forall i :: 0 <= i < |r| ==> 60.0 + 60.0 * i as real == StraightPlacement(length).bCentres[i]
    ensures forall i :: 0 <= i < |r| ==> r[i].index == index + i && r[i].holes == [] && r[i].mills == []
    ensures forall i :: 0 <= i < |r| ==>
      r[i].contour == k.translate(k.one(TransversalContour), Vec(-60.0, 60.0 + 60.0 * i as real, 0.0))
  {
    var count := Iterations(((length - 50.0 + 20.0 / 2.0) / 60.0).Floor);
    seq(count, i requires 0 <= i < count =>
      Part(index + i, k.translate(k.one(TransversalContour), Vec(-60.0, 60.0 + 60.0 * i as real, 0.0)), [], []))
  }

  // ---------------------------------------------------------------------------
  // The blueprint

  /** The three part lists and their branch index lists, and the mills added without a branch. */
  datatype StraightBlueprint = StraightBlueprint(
    narrowParts: seq<Part>,
    wideParts: seq<Part>,
    transversalParts: seq<Part>,
    looseMills: seq<Curve>,
    narrowIndexes: seq<int>,
    wideIndexes: seq<int>,
    transversalIndexes: seq<int>)

  /** Parts [first, first + |parts|) in order, and the index list that records them. */
  predicate Block(parts: seq<Part>, indexes: seq<int>, first: int) {
    && |indexes| == |parts|
    && forall j :: 0 <= j < |parts| ==> parts[j].index == first + j && indexes[j] == first + j
  }

  /**
    The three blocks are contiguous: narrow parts [0, n), wide parts [n, n + w),
    transversal parts [n + w, n + w + t).
   */
  predicate Contiguous(b: StraightBlueprint) {
    && Block(b.narrowParts, b.narrowIndexes, 0)
    && Block(b.wideParts, b.wideIndexes, |b.narrowParts|)
    && Block(b.transversalParts, b.transversalIndexes, |b.narrowParts| + |b.wideParts|)
  }

  /** Parts numbered on from `first` make a block with their own index list. */
  lemma PartIndexesBlock(parts: seq<Part>, first: int)
    requires forall j :: 0 <= j < |parts| ==> parts[j].index == first + j
    ensures Block(parts, PartIndexes(parts), first)
  {
  }

  /**
    The constructor (StraightWallBlueprint.cs:20-33): the narrow part from
    index 0, the wide part from the narrow count, the transversal parts from
    the sum.  It has no result only when a split loop never ends, which a
    maximum part length of at least 60 rules out.
   */
  method Build(k: Kernel, length: real, maxPartLength: real) returns (r: Option<StraightBlueprint>)
    ensures maxPartLength >= 60.0 ==> r.Some?
    ensures r.Some? ==> Contiguous(r.value)
    ensures r.Some? ==> StraightNarrowSplits(length, maxPartLength).Positions? && StraightWideSplits(length, maxPartLength).Positions?
    ensures r.Some? ==> |r.value.narrowParts| == |StraightNarrowSplits(length, maxPartLength).ys| + 1
    ensures r.Some? ==> |r.value.wideParts| == |StraightWideSplits(length, maxPartLength).ys| + 1
    ensures r.Some? ==> |r.value.transversalParts| == |StraightPlacement(length).bCentres|
  {
    var narrow := SolveNarrowPart(k, length, maxPartLength, 0);
    if narrow.None? {
      return None;
    }
    var n := |narrow.value.parts|;
    var wide := SolveWidePart(k, length, maxPartLength, n);
    if wide.None? {
      return None;
    }
    var w := |wide.value.parts|;
    var transversal := TransversalParts(k, length, n + w);
    PartIndexesBlock(narrow.value.parts, 0);
    PartIndexesBlock(wide.value.parts, n);
    PartIndexesBlock(transversal, n + w);
    r := Some(StraightBlueprint(narrow.value.parts, wide.value.parts, transversal,
                                narrow.value.looseMills + wide.value.looseMills,
                                PartIndexes(narrow.value.parts), PartIndexes(wide.value.parts), PartIndexes(transversal)));
  }
}
