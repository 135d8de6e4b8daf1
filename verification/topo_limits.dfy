/** What ids that are configured twice do to the sort. */
module TopoLimits {
  import opened Collections
  import opened TopoGraph
  import opened TopoLoop

  // --- the tables of a small configuration ---

  /** Without refusals the needs of a plugin are its listed dependencies. */
  lemma {:induction false} WithoutNothing(s: seq<Id>)
    ensures Without(s, {}) == s
  {
    if s != [] { WithoutNothing(s[1..]); }
  }

  lemma TimesSnoc(s: seq<Id>, y: Id, x: Id, n: nat)
    ensures Times(s + [y], x, n) == Times(s, x, n) + if y == x then n else 0
  {
    assert (s + [y])[..|s|] == s;
  }

  lemma RevSnoc(g: Graph, active: seq<Id>, x: Id)
    ensures RevOf(g, active + [x]) == PushAll(RevOf(g, active), Needs(g, x), x)
  {
    assert (active + [x])[..|active|] == active;
  }

  lemma PushOne(rev: map<Id, seq<Id>>, d: Id, x: Id)
    ensures PushAll(rev, [d], x) == Push(rev, d, x)
  {
    assert [d][..0] == [];
  }

  lemma PushTwo(rev: map<Id, seq<Id>>, d: Id, e: Id, x: Id)
    ensures PushAll(rev, [d, e], x) == Push(Push(rev, d, x), e, x)
  {
    assert [d, e] == [d] + [e];
    PushAllSnoc(rev, [d], e, x);
    PushOne(rev, d, x);
  }

  lemma WithoutOne(x: Id, s: seq<Id>, drop: set<Id>)
    ensures Without([x] + s, drop) == if x in drop then Without(s, drop) else [x] + Without(s, drop)
  {
    assert ([x] + s)[1..] == s;
  }

  lemma CountOne(dep: Id, inDegree: map<Id, nat>, queue: seq<Id>)
    requires dep in inDegree
    ensures var cnt := CountDown(dep, inDegree);
      CountAll([dep], inDegree, queue) == (inDegree[dep := cnt], if cnt == 0 then queue + [dep] else queue)
  {
    assert [dep][1..] == [];
  }

  /** One turn that counts one mention of `dep` down. */
  lemma TurnOne(rev: map<Id, seq<Id>>, l: Loop, id: Id, rest: seq<Id>, dep: Id)
    requires l.queue == [id] + rest && Dependants(rev, id) == [dep] && dep in l.inDegree
    ensures var cnt := CountDown(dep, l.inDegree);
      Turn(rev, l) == Loop(l.inDegree[dep := cnt], if cnt == 0 then rest + [dep] else rest, l.order + [id])
  {
    assert l.queue[1..] == rest;
    CountOne(dep, l.inDegree, rest);
  }

  lemma TurnNone(rev: map<Id, seq<Id>>, l: Loop, id: Id, rest: seq<Id>)
    requires l.queue == [id] + rest && Dependants(rev, id) == []
    ensures Turn(rev, l) == Loop(l.inDegree, rest, l.order + [id])
  {
    assert l.queue[1..] == rest;
  }

  // --- a loop that never ends ---

  /** Plugin `a` is configured twice; plugin `b` requires `a` and itself. */
  function SelfNeeding(a: Id, b: Id): Graph {
    GraphOf([a, a, b], map[b := [a, b]], {})
  }

  lemma SelfNeedingGraph(a: Id, b: Id)
    requires a != b
    ensures var g := SelfNeeding(a, b);
      g.active == [] + [a] + [a] + [b] && Needs(g, a) == [] && Needs(g, b) == [a, b]
  {
    WithoutNothing([a, a, b]);
    WithoutNothing([a, b]);
    assert [a, a, b] == [] + [a] + [a] + [b];
  }

  function TwoDegrees(a: Id, b: Id, n: nat): map<Id, nat> {
    map[a := 0, b := n]
  }

  lemma SelfNeedingTimes(a: Id, b: Id)
    requires a != b
    ensures Times([] + [a] + [a] + [b], a, 0) == 0 && Times([] + [a] + [a] + [b], b, 2) == 2
  {
    TimesAbsent([] + [a] + [a], b, 2);
    TimesSnoc([] + [a] + [a], b, b, 2);
    TimesLess([] + [a] + [a] + [b], a, 0, 0);
  }

  /** Degrees known plugin by plugin. */
  lemma DegreesAre(g: Graph, degrees: map<Id, nat>)
    requires SetOf(g.active) == degrees.Keys
    requires forall x :: x in g.active ==> Times(g.active, x, |Needs(g, x)|) == degrees[x]
    ensures StartDegrees(g) == degrees
  {
    forall x ensures x in g.active <==> x in degrees { assert x in g.active <==> x in SetOf(g.active); }
  }

  lemma SelfNeedingDegrees(a: Id, b: Id)
    requires a != b
    ensures StartDegrees(SelfNeeding(a, b)) == TwoDegrees(a, b, 2)
  {
    var g := SelfNeeding(a, b);
    SelfNeedingGraph(a, b);
    SelfNeedingTimes(a, b);
    assert |Needs(g, a)| == 0 && |Needs(g, b)| == 2;
    DegreesAre(g, TwoDegrees(a, b, 2));
  }

  lemma SelfNeedingReady(a: Id, b: Id)
    requires a != b
    ensures Ready([a] + ([a] + ([b] + [])), TwoDegrees(a, b, 2)) == [a] + [a]
  {
    assert Held(TwoDegrees(a, b, 2)) == {b};
    WithoutOne(b, [], {b});
    WithoutOne(a, [b] + [], {b});
    WithoutOne(a, [a] + ([b] + []), {b});
  }

  lemma SelfNeedingStart(a: Id, b: Id)
    requires a != b
    ensures StartLoop(SelfNeeding(a, b)) == Loop(TwoDegrees(a, b, 2), [a] + [a], [])
  {
    SelfNeedingGraph(a, b);
    SelfNeedingDegrees(a, b);
    SelfNeedingReady(a, b);
    assert [] + [a] + [a] + [b] == [a] + ([a] + ([b] + []));
  }

  lemma SelfNeedingRev(a: Id, b: Id)
    requires a != b
    ensures var rev := Rev(SelfNeeding(a, b));
      Dependants(rev, a) == [b] && Dependants(rev, b) == [b]
  {
    var g := SelfNeeding(a, b);
    SelfNeedingGraph(a, b);
    RevSnoc(g, [], a);
    RevSnoc(g, [] + [a], a);
    RevSnoc(g, [] + [a] + [a], b);
    PushTwo(map[], a, b, b);
  }

  lemma TwoDown(a: Id, b: Id, n: nat)
    requires a != b && n > 0
    ensures TwoDegrees(a, b, n)[b := n - 1] == TwoDegrees(a, b, n - 1)
  {
  }

  lemma SelfNeedingFirst(a: Id, b: Id)
    requires a != b
    ensures Turns(SelfNeeding(a, b), 1) == Loop(TwoDegrees(a, b, 1), [a], [] + [a])
  {
    SelfNeedingStart(a, b);
    SelfNeedingRev(a, b);
    TwoDown(a, b, 2);
    var start := Loop(TwoDegrees(a, b, 2), [a] + [a], []);
    assert Turns(SelfNeeding(a, b), 0) == start;
    TurnOne(Rev(SelfNeeding(a, b)), start, a, [a], b);
  }

  /** Each turn after the second finds and leaves the loop as it was. */
  lemma {:induction false} SelfNeedingTurns(a: Id, b: Id, n: nat)
    requires a != b
    ensures var l := Turns(SelfNeeding(a, b), n + 2);
      l.inDegree == TwoDegrees(a, b, 0) && l.queue == [b]
  {
    var g := SelfNeeding(a, b);
    SelfNeedingRev(a, b);
    assert [] + [b] == [b] && [a] == [a] + [] && [b] == [b] + [];
    if n == 0 {
      SelfNeedingFirst(a, b);
      TurnOne(Rev(g), Turns(g, 1), a, [], b);
      TwoDown(a, b, 1);
    } else {
      SelfNeedingTurns(a, b, n - 1);
      TurnOne(Rev(g), Turns(g, n + 1), b, [], b);
      assert TwoDegrees(a, b, 0)[b := 0] == TwoDegrees(a, b, 0);
    }
  }

  /** With `a` configured twice and `b` requiring `a` and itself the loop never ends. */
  lemma RepeatedIdLoops(a: Id, b: Id)
    requires a != b
    ensures !Ends(SelfNeeding(a, b))
  {
    forall n: nat ensures Turns(SelfNeeding(a, b), n).queue != [] {
      if n == 0 { SelfNeedingStart(a, b); }
      else if n == 1 { SelfNeedingFirst(a, b); }
      else { SelfNeedingTurns(a, b, n - 2); }
    }
  }

  // --- an order that is none ---

  /** Plugin `a` is configured twice; `c` requires `b`, and `d` requires `a` and `c`. */
  function TwiceConfigured(a: Id, b: Id, c: Id, d: Id): Graph {
    GraphOf([a, a, b, c, d], map[c := [b], d := [a, c]], {})
  }

  ghost predicate AllDifferent(a: Id, b: Id, c: Id, d: Id) {
    a != b && a != c && a != d && b != c && b != d && c != d
  }

  lemma TwiceGraph(a: Id, b: Id, c: Id, d: Id)
    requires AllDifferent(a, b, c, d)
    ensures var g := TwiceConfigured(a, b, c, d);
      && g.active == [a, a, b] + [c] + [d] && Needs(g, a) == [] && Needs(g, b) == []
      && Needs(g, c) == [b] && Needs(g, d) == [a, c]
  {
    WithoutNothing([a, a, b, c, d]);
    WithoutNothing([b]);
    WithoutNothing([a, c]);
    assert [a, a, b, c, d] == [a, a, b] + [c] + [d];
  }

  function FourDegrees(a: Id, b: Id, c: Id, d: Id, m: nat, n: nat): map<Id, nat> {
    map[a := 0, b := 0, c := m, d := n]
  }

  lemma TwiceTimes(a: Id, b: Id, c: Id, d: Id)
    requires AllDifferent(a, b, c, d)
    ensures Times([a, a, b] + [c] + [d], c, 1) == 1 && Times([a, a, b] + [c] + [d], d, 2) == 2
  {
    TimesAbsent([a, a, b], c, 1);
    TimesSnoc([a, a, b], c, c, 1);
    TimesSnoc([a, a, b] + [c], d, c, 1);
    TimesAbsent([a, a, b] + [c], d, 2);
    TimesSnoc([a, a, b] + [c], d, d, 2);
  }

  lemma TwiceDegrees(a: Id, b: Id, c: Id, d: Id)
    requires AllDifferent(a, b, c, d)
    ensures StartDegrees(TwiceConfigured(a, b, c, d)) == FourDegrees(a, b, c, d, 1, 2)
  {
    var g := TwiceConfigured(a, b, c, d);
    TwiceGraph(a, b, c, d);
    TwiceTimes(a, b, c, d);
    TimesLess(g.active, a, 0, 0);
    TimesLess(g.active, b, 0, 0);
    DegreesAre(g, FourDegrees(a, b, c, d, 1, 2));
  }

  lemma TwiceReady(a: Id, b: Id, c: Id, d: Id)
    requires AllDifferent(a, b, c, d)
    ensures Ready([a, a, b] + [c] + [d], FourDegrees(a, b, c, d, 1, 2)) == [a] + ([a] + [b])
  {
    assert Held(FourDegrees(a, b, c, d, 1, 2)) == {c, d};
    assert [a, a, b] + [c] + [d] == [a] + ([a] + ([b] + ([c] + ([d] + []))));
    WithoutOne(d, [], {c, d});
    WithoutOne(c, [d] + [], {c, d});
    WithoutOne(b, [c] + ([d] + []), {c, d});
    WithoutOne(a, [b] + ([c] + ([d] + [])), {c, d});
    WithoutOne(a, [a] + ([b] + ([c] + ([d] + []))), {c, d});
  }

  lemma TwiceRev(a: Id, b: Id, c: Id, d: Id)
    requires AllDifferent(a, b, c, d)
    ensures var rev := Rev(TwiceConfigured(a, b, c, d));
      Dependants(rev, a) == [d] && Dependants(rev, b) == [c] && Dependants(rev, c) == [d] && Dependants(rev, d) == []
  {
    var g := TwiceConfigured(a, b, c, d);
    TwiceGraph(a, b, c, d);
    assert [a, a, b] == [] + [a] + [a] + [b];
    RevSnoc(g, [], a);
    RevSnoc(g, [] + [a], a);
    RevSnoc(g, [] + [a] + [a], b);
    RevSnoc(g, [a, a, b], c);
    RevSnoc(g, [a, a, b] + [c], d);
    PushOne(map[], b, c);
    PushTwo(Push(map[], b, c), a, c, d);
  }

  lemma TwiceStart(a: Id, b: Id, c: Id, d: Id)
    requires AllDifferent(a, b, c, d)
    ensures StartLoop(TwiceConfigured(a, b, c, d)) == Loop(FourDegrees(a, b, c, d, 1, 2), [a] + ([a] + [b]), [])
  {
    TwiceGraph(a, b, c, d);
    TwiceDegrees(a, b, c, d);
    TwiceReady(a, b, c, d);
  }

  lemma FourDown(a: Id, b: Id, c: Id, d: Id, m: nat, n: nat)
    requires AllDifferent(a, b, c, d)
    ensures m > 0 ==> FourDegrees(a, b, c, d, m, n)[c := m - 1] == FourDegrees(a, b, c, d, m - 1, n)
    ensures n > 0 ==> FourDegrees(a, b, c, d, m, n)[d := n - 1] == FourDegrees(a, b, c, d, m, n - 1)
  {
  }

  /** The second `a` counts `d` down in place of its other dependency. */
  lemma TwiceFirst(a: Id, b: Id, c: Id, d: Id)
    requires AllDifferent(a, b, c, d)
    ensures Turns(TwiceConfigured(a, b, c, d), 2) == Loop(FourDegrees(a, b, c, d, 1, 0), [b] + [d], [a] + [a])
  {
    var g := TwiceConfigured(a, b, c, d);
    TwiceStart(a, b, c, d);
    TwiceRev(a, b, c, d);
    FourDown(a, b, c, d, 1, 2);
    FourDown(a, b, c, d, 1, 1);
    var l1 := Loop(FourDegrees(a, b, c, d, 1, 1), [a] + [b], [a]);
    TurnOne(Rev(g), StartLoop(g), a, [a] + [b], d);
    assert [] + [a] == [a] && Turns(g, 0) == StartLoop(g) && Turns(g, 1) == l1;
    TurnOne(Rev(g), l1, a, [b], d);
  }

  lemma TwiceThen(a: Id, b: Id, c: Id, d: Id)
    requires AllDifferent(a, b, c, d)
    ensures Turns(TwiceConfigured(a, b, c, d), 4) == Loop(FourDegrees(a, b, c, d, 0, 0), [c], [a] + [a] + [b] + [d])
  {
    var g := TwiceConfigured(a, b, c, d);
    TwiceFirst(a, b, c, d);
    TwiceRev(a, b, c, d);
    TurnOne(Rev(g), Turns(g, 2), b, [d], c);
    FourDown(a, b, c, d, 1, 0);
    assert Turns(g, 3) == Loop(FourDegrees(a, b, c, d, 0, 0), [d] + [c], [a] + [a] + [b]);
    TurnNone(Rev(g), Turns(g, 3), d, [c]);
  }

  lemma TwiceLast(a: Id, b: Id, c: Id, d: Id)
    requires AllDifferent(a, b, c, d)
    ensures Turns(TwiceConfigured(a, b, c, d), 6) ==
            Loop(FourDegrees(a, b, c, d, 0, 0), [], [a] + [a] + [b] + [d] + [c] + [d])
  {
    var g := TwiceConfigured(a, b, c, d);
    TwiceThen(a, b, c, d);
    TwiceRev(a, b, c, d);
    assert [c] == [c] + [] && [d] == [d] + [] && [] + [d] == [d];
    TurnOne(Rev(g), Turns(g, 4), c, [], d);
    assert FourDegrees(a, b, c, d, 0, 0)[d := 0] == FourDegrees(a, b, c, d, 0, 0);
    assert Turns(g, 5) == Loop(FourDegrees(a, b, c, d, 0, 0), [d], [a] + [a] + [b] + [d] + [c]);
    TurnNone(Rev(g), Turns(g, 5), d, []);
  }

  /** With `a` configured twice the loop ends, and the order it gives starts `d` before `c`, which
      `d` requires. */
  lemma RepeatedIdMisorders(a: Id, b: Id, c: Id, d: Id)
    requires AllDifferent(a, b, c, d)
    ensures var g := TwiceConfigured(a, b, c, d);
      Turns(g, 6).queue == [] && |Turns(g, 6).order| >= |g.active| && !DepsFirst(g, Turns(g, 6).order)
  {
    var g := TwiceConfigured(a, b, c, d);
    TwiceGraph(a, b, c, d);
    TwiceLast(a, b, c, d);
    var order := Turns(g, 6).order;
    assert c in Needs(g, order[3]) && order[..3] == [a, a, b] && c !in order[..3];
  }
}
