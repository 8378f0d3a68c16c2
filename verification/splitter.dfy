/**
  The SplitPart state machine shared by the blueprints.

  A part's contour is cut by an ordered list of splitter curves.  Two candidate
  curves A and B, both the contour at first, are rewritten for each splitter:
  the candidate the splitter crosses is split at the crossing points and both
  pieces are closed with the splitter; the candidate left behind is archived as
  a finished part, except on the first cut.  At the end both candidates are
  archived too.  Every finished part then takes, from shared pools, the holes and
  mills that it claims; earlier parts take first.

  The source tests "first cut" by the loop index, which differs from the
  intended test when the first splitter is skipped.  SplitContoursAsWritten
  keeps that test and is what SplitPart cuts with; SplitContours is the loop
  with the intended test, and SplitContoursAgree shows where the two agree.
 */
module Splitter {
  import opened Kernel

  // ---------------------------------------------------------------------------
  // Cutting the contour

  /** The parameters of the point events, in order (overlap events are skipped). */
  function PointParameters(events: seq<Event>): (r: seq<real>)
    ensures |r| <= |events|
    ensures forall e :: e in events && e.isPoint ==> e.parameterA in r
    ensures forall t :: t in r ==> exists e :: e in events && e.isPoint && e.parameterA == t
  {
    if events == [] then []
    else (if events[0].isPoint then [events[0].parameterA] else []) + PointParameters(events[1..])
  }

  /** The two candidates and the parts archived so far. */
  datatype Candidates = Candidates(a: Curve, b: Curve, archived: seq<Curve>)

  /** What one splitter did: it cut candidate A, cut candidate B, or was skipped. */
  datatype Step = CutA | CutB | Skipped

  /**
    One pass of the splitter loop (IrregularWallBlueprint.cs:452-509,
    StraightWallBlueprint.cs:181-235): A is cut when the splitter meets it more
    than once; otherwise B is cut, unless `mayskip` is set and the splitter
    misses B entirely.  The candidate left behind is archived when `archive`
    is set.
   */
  function Cut(k: Kernel, c: Candidates, splitter: Curve, archive: bool, mayskip: bool): (r: (Candidates, Step))
    ensures r.1 == CutA <==> |k.intersect(c.a, splitter)| > 1
    ensures r.1 == Skipped <==> mayskip && |k.intersect(c.a, splitter)| <= 1 && |k.intersect(c.b, splitter)| == 0
    ensures r.1 == Skipped ==> r.0 == c
    ensures r.1 == CutA ==> r.0.archived == c.archived + (if archive then [c.b] else [])
    ensures r.1 == CutB ==> r.0.archived == c.archived + (if archive then [c.a] else [])
  {
    var eventsA := k.intersect(c.a, splitter);
    if |eventsA| > 1 then
      var pieces := k.split(c.a, PointParameters(eventsA));
      (Candidates(k.join([pieces.0, splitter]), k.join([pieces.1, splitter]),
                  c.archived + (if archive then [c.b] else [])), CutA)
    else
      var eventsB := k.intersect(c.b, splitter);
      if mayskip && |eventsB| == 0 then (c, Skipped)
      else
        var pieces := k.split(c.b, PointParameters(eventsB));
        (Candidates(k.join([pieces.0, splitter]), k.join([pieces.1, splitter]),
                    c.archived + (if archive then [c.a] else [])), CutB)
  }

  /** How many of the steps, taken from loop index i on, archived a candidate: the ones past index 0 that were not skipped. */
  function Archiving(steps: seq<Step>, i: nat): nat
    decreases |steps|
  {
    if steps == [] then 0
    else (if i > 0 && steps[0] != Skipped then 1 else 0) + Archiving(steps[1..], i + 1)
  }

  /** The candidates after the loop, and the step each splitter took. */
  datatype Trace = Trace(final: Candidates, steps: seq<Step>)

  /** The splitter loop from index i to the end. */
  function CutFrom(k: Kernel, c: Candidates, splitters: seq<Curve>, i: nat, mayskip: bool): (r: Trace)
    requires i <= |splitters|
    decreases |splitters| - i
    ensures |r.steps| == |splitters| - i
    ensures |r.final.archived| == |c.archived| + Archiving(r.steps, i)
    ensures !mayskip ==> forall j :: 0 <= j < |r.steps| ==> r.steps[j] != Skipped
    ensures c.archived <= r.final.archived
  {
    if i == |splitters| then Trace(c, [])
    else
      var (next, step) := Cut(k, c, splitters[i], i > 0, mayskip);
      var rest := CutFrom(k, next, splitters, i + 1, mayskip);
      Trace(rest.final, [step] + rest.steps)
  }

  /** When no step is skipped, every step but the first one archives. */
  lemma {:induction false} ArchivingWithoutSkips(steps: seq<Step>, i: nat)
    requires forall j :: 0 <= j < |steps| ==> steps[j] != Skipped
    ensures Archiving(steps, i) == if i == 0 && |steps| > 0 then |steps| - 1 else |steps|
    decreases |steps|
  {
    if steps != [] {
      ArchivingWithoutSkips(steps[1..], i + 1);
    }
  }

  /** Archiving counts at most the steps it is given. */
  lemma {:induction false} ArchivingBounded(steps: seq<Step>, i: nat)
    ensures Archiving(steps, i) <= |steps|
    ensures i == 0 && |steps| > 0 ==> Archiving(steps, i) <= |steps| - 1
    decreases |steps|
  {
    if steps != [] {
      ArchivingBounded(steps[1..], i + 1);
    }
  }

  /**
    The contours of the finished parts as the source indexes them: the parts
    archived during the loop, then the two final candidates.  The loop index
    decides whether a candidate is archived, so a skipped first splitter
    leaves the uncut contour to be archived by the first cut, and a loop whose
    every splitter is skipped ends with the contour twice.  There is one part
    without splitters; otherwise two plus one for every splitter after the
    first that was not skipped, which is one more than the number of splitters
    when none is skipped, and never more.
   */
  function SplitContoursAsWritten(k: Kernel, contour: Curve, splitters: seq<Curve>, mayskip: bool): (parts: seq<Curve>)
    ensures splitters == [] ==> parts == [contour]
    ensures splitters != [] ==>
      |parts| == 2 + Archiving(CutFrom(k, Candidates(contour, contour, []), splitters, 0, mayskip).steps, 0)
    ensures splitters != [] && !mayskip ==> |parts| == |splitters| + 1
    ensures 1 <= |parts| <= |splitters| + 1
  {
    if splitters == [] then [contour]
    else
      var t := CutFrom(k, Candidates(contour, contour, []), splitters, 0, mayskip);
      ArchivingBounded(t.steps, 0);
      if !mayskip then
        ArchivingWithoutSkips(t.steps, 0);
        t.final.archived + [t.final.a, t.final.b]
      else
        t.final.archived + [t.final.a, t.final.b]
  }

  /**
    A splitter that misses the contour, followed by one that cuts it: as
    written, the first cut archives candidate B, which is still the whole
    contour, so the uncut contour becomes a part of its own before its two
    pieces.  The intended loop gives just the two pieces.
   */
  lemma MissedFirstSplitterKeepsContour(k: Kernel, contour: Curve, s0: Curve, s1: Curve)
    requires |k.intersect(contour, s0)| == 0 && |k.intersect(contour, s1)| > 1
    ensures var parts := SplitContoursAsWritten(k, contour, [s0, s1], true);
      |parts| == 3 && parts[0] == contour
    ensures SplitContours(k, contour, [s0, s1], true) == SplitContoursAsWritten(k, contour, [s0, s1], true)[1..]
  {
    var c := Candidates(contour, contour, []);
    assert Cut(k, c, s0, false, true).1 == Skipped;
    var c1 := Cut(k, c, s1, true, true).0;
    assert CutFrom(k, c1, [s0, s1], 2, true).final == c1;
    assert CutFrom(k, c, [s0, s1], 1, true).final == c1;
    assert CutFrom(k, c, [s0, s1], 0, true).final == c1;
    assert CutAfter(k, c, [s0, s1], 0, false, true).final == Cut(k, c, s1, false, true).0;
  }

  /**
    A single splitter that misses the contour: as written, the loop ends with
    both candidates still the contour, so the contour is output as two parts.
    The intended loop gives the contour once.
   */
  lemma MissedOnlySplitterDuplicatesContour(k: Kernel, contour: Curve, s0: Curve)
    requires |k.intersect(contour, s0)| == 0
    ensures SplitContoursAsWritten(k, contour, [s0], true) == [contour, contour]
    ensures SplitContours(k, contour, [s0], true) == [contour]
  {
    var c := Candidates(contour, contour, []);
    assert CutFrom(k, c, [s0], 0, true).final == c;
    assert CutAfter(k, c, [s0], 0, false, true).steps == [Skipped];
    assert Cuts([Skipped]) == 0 by {
      assert [Skipped][1..] == [];
    }
  }

  /** How many of the steps cut a candidate. */
  function Cuts(steps: seq<Step>): nat
    decreases |steps|
  {
    if steps == [] then 0
    else (if steps[0] != Skipped then 1 else 0) + Cuts(steps[1..])
  }

  /**
    The splitter loop from index i as intended: a candidate is archived only
    once an earlier splitter has cut (`cut`).  Every cut but the first
    archives one part, and a loop that never cuts leaves the candidates alone.
   */
  function CutAfter(k: Kernel, c: Candidates, splitters: seq<Curve>, i: nat, cut: bool, mayskip: bool): (r: Trace)
    requires i <= |splitters|
    decreases |splitters| - i
    ensures |r.steps| == |splitters| - i
    ensures Cuts(r.steps) <= |r.steps|
    ensures !mayskip ==> Cuts(r.steps) == |r.steps|
    ensures |r.final.archived| == |c.archived| + (if cut || Cuts(r.steps) == 0 then Cuts(r.steps) else Cuts(r.steps) - 1)
    ensures Cuts(r.steps) == 0 ==> r.final == c
  {
    if i == |splitters| then Trace(c, [])
    else
      var (next, step) := Cut(k, c, splitters[i], cut, mayskip);
      var rest := CutAfter(k, next, splitters, i + 1, cut || step != Skipped, mayskip);
      assert ([step] + rest.steps)[1..] == rest.steps;
      Trace(rest.final, [step] + rest.steps)
  }

  /** Once a cut has happened, and past index 0, the intended loop is the loop as written. */
  lemma {:induction false} CutAfterFirstCut(k: Kernel, c: Candidates, splitters: seq<Curve>, i: nat, mayskip: bool)
    requires 0 < i <= |splitters|
    ensures CutAfter(k, c, splitters, i, true, mayskip) == CutFrom(k, c, splitters, i, mayskip)
    decreases |splitters| - i
  {
    if i < |splitters| {
      var next := Cut(k, c, splitters[i], true, mayskip).0;
      CutAfterFirstCut(k, next, splitters, i + 1, mayskip);
    }
  }

  /**
    The contours of the finished parts, in the order they are indexed, with the
    loop as intended: the contour alone when no splitter cuts, and otherwise
    the archived parts and the two final candidates.  There is one part more
    than there are splitters that cut, so exactly one more than the number of
    splitters when none may be skipped.
   */
  function SplitContours(k: Kernel, contour: Curve, splitters: seq<Curve>, mayskip: bool): (r: seq<Curve>)
    ensures var t := CutAfter(k, Candidates(contour, contour, []), splitters, 0, false, mayskip);
      && |r| == Cuts(t.steps) + 1
      && (Cuts(t.steps) == 0 ==> r == [contour])
    ensures splitters == [] ==> r == [contour]
    ensures !mayskip ==> |r| == |splitters| + 1
    ensures 1 <= |r| <= |splitters| + 1
  {
    var t := CutAfter(k, Candidates(contour, contour, []), splitters, 0, false, mayskip);
    if Cuts(t.steps) == 0 then [contour] else t.final.archived + [t.final.a, t.final.b]
  }

  /**
    The intended loop differs from the loop as written only when the first
    splitter is skipped: whenever it cuts, and in particular whenever no
    splitter may be skipped, the two give the same parts.
   */
  lemma SplitContoursAgree(k: Kernel, contour: Curve, splitters: seq<Curve>, mayskip: bool)
    requires splitters == [] || !mayskip || |k.intersect(contour, splitters[0])| > 0
    ensures SplitContours(k, contour, splitters, mayskip) == SplitContoursAsWritten(k, contour, splitters, mayskip)
  {
    if splitters != [] {
      var c := Candidates(contour, contour, []);
      var (next, step) := Cut(k, c, splitters[0], false, mayskip);
      assert step != Skipped;
      CutAfterFirstCut(k, next, splitters, 1, mayskip);
      assert CutAfter(k, c, splitters, 0, false, mayskip).final == CutFrom(k, c, splitters, 0, mayskip).final;
    }
  }

  // ---------------------------------------------------------------------------
  // Sharing out holes and mills

  /** The claim a finished part makes on a pooled curve. */
  datatype Rule =
    | StartInside     // Curve.Contains(hole.PointAtStart) == Inside
    | Crossing        // Intersection.CurveCurve(mill, part) is not empty
    | StartInBox      // the part's bounding box contains hole.PointAtStart
    | EndInBox        // the part's bounding box contains mill.PointAtEnd

  predicate Claims(k: Kernel, rule: Rule, part: Curve, c: Curve) {
    match rule
    case StartInside => k.contains(part, k.pointAtStart(c)) == Inside
    case Crossing => |k.intersect(c, part)| > 0
    case StartInBox => k.boxContains(part, k.pointAtStart(c))
    case EndInBox => k.boxContains(part, k.pointAtEnd(c))
  }

  /** The pooled curves the part claims, in pool order. */
  function Select(k: Kernel, rule: Rule, part: Curve, pool: seq<Curve>): (r: seq<Curve>)
    ensures forall c :: c in r <==> c in pool && Claims(k, rule, part, c)
    ensures |r| <= |pool|
  {
    if pool == [] then []
    else (if Claims(k, rule, part, pool[0]) then [pool[0]] else []) + Select(k, rule, part, pool[1..])
  }

  /** The pooled curves the part does not claim, in pool order. */
  function Reject(k: Kernel, rule: Rule, part: Curve, pool: seq<Curve>): (r: seq<Curve>)
    ensures forall c :: c in r <==> c in pool && !Claims(k, rule, part, c)
    ensures |r| <= |pool|
  {
    if pool == [] then []
    else (if Claims(k, rule, part, pool[0]) then [] else [pool[0]]) + Reject(k, rule, part, pool[1..])
  }

  function Reverse(s: seq<Curve>): (r: seq<Curve>)
    ensures |r| == |s|
    ensures forall i :: 0 <= i < |s| ==> r[i] == s[|s| - 1 - i]
    ensures multiset(r) == multiset(s)
  {
    if s == [] then []
    else
      assert s == [s[0]] + s[1..];
      Reverse(s[1..]) + [s[0]]
  }

  /** Select and Reject on a suffix that starts one entry earlier. */
  lemma SelectFrom(k: Kernel, rule: Rule, part: Curve, pool: seq<Curve>, j: nat)
    requires j < |pool|
    ensures Select(k, rule, part, pool[j..]) ==
      (if Claims(k, rule, part, pool[j]) then [pool[j]] else []) + Select(k, rule, part, pool[j + 1..])
    ensures Reject(k, rule, part, pool[j..]) ==
      (if Claims(k, rule, part, pool[j]) then [] else [pool[j]]) + Reject(k, rule, part, pool[j + 1..])
  {
    assert pool[j..][0] == pool[j];
    assert pool[j..][1..] == pool[j + 1..];
  }

  /** Selecting and rejecting split the pool: together they hold every curve as often as the pool does. */
  lemma {:induction false} SelectRejectConserve(k: Kernel, rule: Rule, part: Curve, pool: seq<Curve>)
    ensures multiset(Select(k, rule, part, pool)) + multiset(Reject(k, rule, part, pool)) == multiset(pool)
    decreases |pool|
  {
    if pool != [] {
      SelectRejectConserve(k, rule, part, pool[1..]);
      assert multiset(pool) == multiset([pool[0]]) + multiset(pool[1..]) by {
        assert pool == [pool[0]] + pool[1..];
      }
      if Claims(k, rule, part, pool[0]) {
        assert Select(k, rule, part, pool) == [pool[0]] + Select(k, rule, part, pool[1..]);
        assert Reject(k, rule, part, pool) == Reject(k, rule, part, pool[1..]);
      } else {
        assert Select(k, rule, part, pool) == Select(k, rule, part, pool[1..]);
        assert Reject(k, rule, part, pool) == [pool[0]] + Reject(k, rule, part, pool[1..]);
      }
    }
  }

  lemma PoolEnds(pool: seq<Curve>)
    ensures pool[|pool|..] == [] && pool[..|pool|] == pool
    ensures pool[..0] == [] && pool[0..] == pool
  {
  }

  /** One iteration of the drain loop keeps its invariant, with j one lower. */
  lemma DrainStep(k: Kernel, rule: Rule, part: Curve, pool: seq<Curve>, j: nat, taken: seq<Curve>, left: seq<Curve>)
    requires j < |pool|
    requires left == pool[..j + 1] + Reject(k, rule, part, pool[j + 1..])
    requires taken == Reverse(Select(k, rule, part, pool[j + 1..]))
    ensures j < |left| && left[j] == pool[j]
    ensures Claims(k, rule, part, pool[j]) ==>
      && taken + [pool[j]] == Reverse(Select(k, rule, part, pool[j..]))
      && left[..j] + left[j + 1..] == pool[..j] + Reject(k, rule, part, pool[j..])
    ensures !Claims(k, rule, part, pool[j]) ==>
      && taken == Reverse(Select(k, rule, part, pool[j..]))
      && left == pool[..j] + Reject(k, rule, part, pool[j..])
  {
    SelectFrom(k, rule, part, pool, j);
    var later := Reject(k, rule, part, pool[j + 1..]);
    RemoveAtSplit(pool, j, later);
    if Claims(k, rule, part, pool[j]) {
      assert Select(k, rule, part, pool[j..]) == [pool[j]] + Select(k, rule, part, pool[j + 1..]);
      assert Reject(k, rule, part, pool[j..]) == later;
      ReverseCons(pool[j], Select(k, rule, part, pool[j + 1..]));
    } else {
      assert Select(k, rule, part, pool[j..]) == Select(k, rule, part, pool[j + 1..]);
      assert Reject(k, rule, part, pool[j..]) == [pool[j]] + later;
    }
  }

  /** The pool during the drain loop, seen at index j, and with index j removed. */
  lemma RemoveAtSplit(pool: seq<Curve>, j: nat, later: seq<Curve>)
    requires j < |pool|
    ensures (pool[..j + 1] + later)[j] == pool[j]
    ensures (pool[..j + 1] + later)[..j] + (pool[..j + 1] + later)[j + 1..] == pool[..j] + later
    ensures pool[..j + 1] + later == pool[..j] + ([pool[j]] + later)
  {
    assert pool[..j + 1] == pool[..j] + [pool[j]];
  }

  lemma ReverseCons(x: Curve, s: seq<Curve>)
    ensures Reverse([x] + s) == Reverse(s) + [x]
  {
    assert ([x] + s)[1..] == s;
  }

  /**
    The drain loop of one part (IrregularWallBlueprint.cs:521-533 and 539-550,
    StraightWallBlueprint.cs:249-279, StraightWall.cs:278-290): the pool is
    scanned from its last entry down to its first and every claimed curve is
    appended to the part's list and removed from the pool.  The part receives
    the claimed curves in reverse pool order; the pool keeps the others in order.
   */
  method Drain(k: Kernel, rule: Rule, part: Curve, pool: seq<Curve>) returns (taken: seq<Curve>, left: seq<Curve>)
    ensures taken == Reverse(Select(k, rule, part, pool))
    ensures left == Reject(k, rule, part, pool)
  {
    taken := [];
    left := pool;
    var j := |left| - 1;
    PoolEnds(pool);
    while j >= 0
      invariant -1 <= j < |pool|
      invariant left == pool[..j + 1] + Reject(k, rule, part, pool[j + 1..])
      invariant taken == Reverse(Select(k, rule, part, pool[j + 1..]))
    {
      DrainStep(k, rule, part, pool, j, taken, left);
      var c := left[j];
      if Claims(k, rule, part, c) {
        taken := taken + [c];
        left := left[..j] + left[j + 1..];
      }
      j := j - 1;
    }
    PoolEnds(pool);
  }

  // ---------------------------------------------------------------------------
  // Finished parts

  function Flatten(ss: seq<seq<Curve>>): seq<Curve> {
    if ss == [] then [] else ss[0] + Flatten(ss[1..])
  }

  /** The curves of a builder called once per position, in position order. */
  function ManyAt(k: Kernel, shape: real -> Shape, ys: seq<real>): seq<Curve> {
    Flatten(seq(|ys|, j requires 0 <= j < |ys| => k.many(shape(ys[j]))))
  }

  /** A builder called at no position gives no curve. */
  lemma ManyAtNone(k: Kernel, shape: real -> Shape)
    ensures ManyAt(k, shape, []) == []
  {
    var calls := seq(0, j requires 0 <= j < 0 => k.many(shape(0.0)));
    assert calls == [];
  }

  /**
    The parts, in index order, drain one pool (IrregularWallBlueprint.cs:514-555):
    each part takes the pooled curves it claims, and what no part claims stays
    in the pool.  Returns each part's share and what is left.
   */
  function Share(k: Kernel, rule: Rule, contours: seq<Curve>, pool: seq<Curve>): (r: (seq<seq<Curve>>, seq<Curve>))
    decreases |contours|
    ensures |r.0| == |contours|
    ensures multiset(Flatten(r.0)) + multiset(r.1) == multiset(pool)
  {
    if contours == [] then ([], pool)
    else
      var part := contours[0];
      var taken := Reverse(Select(k, rule, part, pool));
      var rest := Share(k, rule, contours[1..], Reject(k, rule, part, pool));
      SelectRejectConserve(k, rule, part, pool);
      assert ([taken] + rest.0)[1..] == rest.0;
      ([taken] + rest.0, rest.1)
  }

  /** The share of the first part and of the parts after it. */
  lemma ShareUnfold(k: Kernel, rule: Rule, contours: seq<Curve>, pool: seq<Curve>)
    requires contours != []
    ensures var r := Share(k, rule, contours, pool);
      var rest := Share(k, rule, contours[1..], Reject(k, rule, contours[0], pool));
      && r.0[0] == Reverse(Select(k, rule, contours[0], pool))
      && r.0[1..] == rest.0 && r.1 == rest.1
  {
  }

  /** No claim by the first part and none by the parts after it up to n is no claim by the first n parts. */
  lemma NoEarlierClaim(k: Kernel, rule: Rule, contours: seq<Curve>, c: Curve, n: int)
    requires 0 < n <= |contours|
    requires !Claims(k, rule, contours[0], c)
    requires forall j :: 0 <= j < n - 1 ==> !Claims(k, rule, contours[1..][j], c)
    ensures forall j :: 0 <= j < n ==> !Claims(k, rule, contours[j], c)
  {
    forall j | 0 < j < n
      ensures !Claims(k, rule, contours[j], c)
    {
      assert contours[1..][j - 1] == contours[j];
    }
  }

  /** Entry i of a sequence is entry i - 1 of its tail. */
  lemma TailAt(s: seq<Curve>, i: int)
    requires 0 < i < |s|
    ensures s[1..][i - 1] == s[i]
  {
  }

  /**
    First claimant wins: a curve a part took is in the pool, is claimed by that
    part and by no earlier part.
   */
  lemma {:induction false} ShareTaken(k: Kernel, rule: Rule, contours: seq<Curve>, pool: seq<Curve>, i: int, c: Curve)
    requires 0 <= i < |contours| && c in Share(k, rule, contours, pool).0[i]
    ensures c in pool && Claims(k, rule, contours[i], c)
    ensures forall j :: 0 <= j < i ==> !Claims(k, rule, contours[j], c)
    decreases i, 1
  {
    if i == 0 {
      ShareTakenFirst(k, rule, contours, pool, c);
    } else {
      ShareTakenLater(k, rule, contours, pool, i, c);
    }
  }

  /** The first part takes only curves of the pool that it claims. */
  lemma ShareTakenFirst(k: Kernel, rule: Rule, contours: seq<Curve>, pool: seq<Curve>, c: Curve)
    requires contours != [] && c in Share(k, rule, contours, pool).0[0]
    ensures c in pool && Claims(k, rule, contours[0], c)
  {
    ShareUnfold(k, rule, contours, pool);
    assert c in multiset(Reverse(Select(k, rule, contours[0], pool)));
  }

  /** A later part takes from what the first part rejected, as the first of the remaining parts would. */
  lemma {:induction false} ShareTakenLater(k: Kernel, rule: Rule, contours: seq<Curve>, pool: seq<Curve>, i: int, c: Curve)
    requires 0 < i < |contours| && c in Share(k, rule, contours, pool).0[i]
    ensures c in pool && Claims(k, rule, contours[i], c)
    ensures forall j :: 0 <= j < i ==> !Claims(k, rule, contours[j], c)
    decreases i, 0
  {
    ShareUnfold(k, rule, contours, pool);
    TailAt(contours, i);
    var later := Reject(k, rule, contours[0], pool);
    assert c in Share(k, rule, contours[1..], later).0[i - 1];
    ShareTaken(k, rule, contours[1..], later, i - 1, c);
    assert c in later;
    NoEarlierClaim(k, rule, contours, c, i);
  }

  /** A curve left in the pool is one no part claims. */
  lemma {:induction false} ShareLeft(k: Kernel, rule: Rule, contours: seq<Curve>, pool: seq<Curve>)
    ensures forall c :: c in Share(k, rule, contours, pool).1 ==>
      c in pool && forall j :: 0 <= j < |contours| ==> !Claims(k, rule, contours[j], c)
    decreases |contours|
  {
    if contours != [] {
      ShareUnfold(k, rule, contours, pool);
      var later := Reject(k, rule, contours[0], pool);
      ShareLeft(k, rule, contours[1..], later);
      forall c | c in Share(k, rule, contours, pool).1
        ensures c in pool && forall j :: 0 <= j < |contours| ==> !Claims(k, rule, contours[j], c)
      {
        NoEarlierClaim(k, rule, contours, c, |contours|);
      }
    }
  }

  /** A finished part: its branch index, contour, and the holes and mills it took. */
  datatype Part = Part(index: int, contour: Curve, holes: seq<Curve>, mills: seq<Curve>)

  function HolesOf(parts: seq<Part>): (r: seq<seq<Curve>>)
    ensures |r| == |parts| && forall i :: 0 <= i < |parts| ==> r[i] == parts[i].holes
  {
    seq(|parts|, i requires 0 <= i < |parts| => parts[i].holes)
  }

  function MillsOf(parts: seq<Part>): (r: seq<seq<Curve>>)
    ensures |r| == |parts| && forall i :: 0 <= i < |parts| ==> r[i] == parts[i].mills
  {
    seq(|parts|, i requires 0 <= i < |parts| => parts[i].mills)
  }

  /** How a SplitPart variant behaves: whether it may skip splitters and how parts claim holes and mills. */
  datatype Rules = Rules(mayskip: bool, hole: Rule, mill: Rule)

  /** The parts with what they took, and what no part claimed. */
  datatype Assignment = Assignment(parts: seq<Part>, holesLeft: seq<Curve>, millsLeft: seq<Curve>)

  /** Parts at index, index + 1, ... from their contours and shares. */
  function MakeParts(contours: seq<Curve>, index: int, hs: seq<seq<Curve>>, ms: seq<seq<Curve>>): (parts: seq<Part>)
    requires |hs| == |contours| && |ms| == |contours|
    ensures |parts| == |contours|
    ensures forall i :: 0 <= i < |parts| ==> parts[i].index == index + i && parts[i].contour == contours[i]
    ensures HolesOf(parts) == hs && MillsOf(parts) == ms
  {
    var parts := seq(|contours|, i requires 0 <= i < |contours| => Part(index + i, contours[i], hs[i], ms[i]));
    assert HolesOf(parts) == hs;
    assert MillsOf(parts) == ms;
    parts
  }

  /** The finished parts at index, index + 1, ..., each with its share of holes and of mills. */
  function Assign(k: Kernel, rules: Rules, contours: seq<Curve>, index: int, holes: seq<Curve>,
                  mills: seq<Curve>): (r: Assignment)
    ensures |r.parts| == |contours|
    ensures forall i :: 0 <= i < |r.parts| ==> r.parts[i].index == index + i && r.parts[i].contour == contours[i]
    ensures multiset(Flatten(HolesOf(r.parts))) + multiset(r.holesLeft) == multiset(holes)
    ensures multiset(Flatten(MillsOf(r.parts))) + multiset(r.millsLeft) == multiset(mills)
    ensures (HolesOf(r.parts), r.holesLeft) == Share(k, rules.hole, contours, holes)
    ensures (MillsOf(r.parts), r.millsLeft) == Share(k, rules.mill, contours, mills)
  {
    var h := Share(k, rules.hole, contours, holes);
    var m := Share(k, rules.mill, contours, mills);
    Assignment(MakeParts(contours, index, h.0, m.0), h.1, m.1)
  }

  /** The outcome of SplitPart: the finished parts, mills added without a part, and what no part took. */
  datatype Outcome = Outcome(parts: seq<Part>, looseMills: seq<Curve>, holesLeft: seq<Curve>, millsLeft: seq<Curve>)

  /**
    SplitPart (IrregularWallBlueprint.cs:431-558, StraightWallBlueprint.cs:160-287).
    Without splitters the contour is the one part, at `index`, with every hole;
    the mills are added to the mill tree without a branch.  Otherwise the cut
    contours, archived by the loop-index test as written, become parts at
    index, index + 1, ... and share out the pools: two parts plus one for every
    splitter after the first that was not skipped.
   */
  function SplitPart(k: Kernel, rules: Rules, contour: Curve, splitters: seq<Curve>, holes: seq<Curve>,
                     mills: seq<Curve>, index: int): (r: Outcome)
    ensures splitters == [] ==> r.parts == [Part(index, contour, holes, [])] && r.looseMills == mills
    ensures splitters == [] ==> r.holesLeft == [] && r.millsLeft == []
    ensures splitters != [] ==> r.looseMills == []
    ensures 1 <= |r.parts| <= |splitters| + 1
    ensures splitters != [] ==>
      |r.parts| == 2 + Archiving(CutFrom(k, Candidates(contour, contour, []), splitters, 0, rules.mayskip).steps, 0)
    ensures splitters != [] && !rules.mayskip ==> |r.parts| == |splitters| + 1
    ensures forall i :: 0 <= i < |r.parts| ==> r.parts[i].index == index + i
    ensures multiset(Flatten(HolesOf(r.parts))) + multiset(r.holesLeft) == multiset(holes)
    ensures multiset(Flatten(MillsOf(r.parts))) + multiset(r.looseMills) + multiset(r.millsLeft) == multiset(mills)
  {
    if splitters == [] then Whole(contour, holes, mills, index)
    else
      var a := Assign(k, rules, SplitContoursAsWritten(k, contour, splitters, rules.mayskip), index, holes, mills);
      Outcome(a.parts, [], a.holesLeft, a.millsLeft)
  }

  /** The unsplit outcome: the contour with every hole, the mills loose. */
  function Whole(contour: Curve, holes: seq<Curve>, mills: seq<Curve>, index: int): (r: Outcome)
    ensures r.parts == [Part(index, contour, holes, [])] && r.looseMills == mills
    ensures r.holesLeft == [] && r.millsLeft == []
    ensures Flatten(HolesOf(r.parts)) == holes && Flatten(MillsOf(r.parts)) == []
  {
    assert HolesOf([Part(index, contour, holes, [])]) == [holes];
    assert MillsOf([Part(index, contour, holes, [])]) == [[]];
    assert Flatten([holes]) == holes + Flatten([]);
    assert Flatten([[]]) == [] + Flatten([]);
    Outcome([Part(index, contour, holes, [])], mills, [], [])
  }

  /** The branch indexes SplitPart appends to its index list: index, index + 1, ... one per part. */
  function PartIndexes(parts: seq<Part>): (r: seq<int>)
    ensures |r| == |parts|
    ensures forall i :: 0 <= i < |r| ==> r[i] == parts[i].index
  {
    seq(|parts|, i requires 0 <= i < |parts| => parts[i].index)
  }
}
