/** Kahn's loop as a function of the configured ids: its tables, its turns, when it ends, and what
    it has done by then. Ids may repeat; where they must not, a lemma says so. */
module TopoLoop {
  import opened Collections
  import opened TopoGraph

  // --- counting ---

  /** How many elements of `s`, repeats included, are not yet `done`. */
  function Left(s: seq<Id>, done: set<Id>): nat {
    if s == [] then 0 else (if s[0] in done then 0 else 1) + Left(s[1..], done)
  }

  lemma {:induction false} LeftZero(s: seq<Id>, done: set<Id>)
    ensures Left(s, done) == 0 <==> forall d :: d in s ==> d in done
  {
    if s != [] { LeftZero(s[1..], done); }
  }

  lemma {:induction false} LeftNone(s: seq<Id>)
    ensures Left(s, {}) == |s|
  {
    if s != [] { LeftNone(s[1..]); }
  }

  lemma {:induction false} LeftAfter(s: seq<Id>, done: set<Id>, d: Id)
    requires d !in done
    ensures Left(s, done + {d}) == Left(s, done) - multiset(s)[d]
  {
    if s != [] {
      LeftAfter(s[1..], done, d);
      assert s == [s[0]] + s[1..];
    }
  }

  /** `n` for each occurrence of `x` in `s`. */
  function Times(s: seq<Id>, x: Id, n: nat): nat {
    if s == [] then 0 else Times(s[..|s| - 1], x, n) + if s[|s| - 1] == x then n else 0
  }

  lemma {:induction false} TimesLess(s: seq<Id>, x: Id, n: nat, m: nat)
    requires m <= n
    ensures Times(s, x, n) == Times(s, x, m) + Times(s, x, n - m)
    ensures Times(s, x, 0) == 0
  {
    if s != [] { TimesLess(s[..|s| - 1], x, n, m); }
  }

  lemma {:induction false} TimesOnce(s: seq<Id>, x: Id, n: nat)
    requires Distinct(s)
    ensures Times(s, x, n) == if x in s then n else 0
  {
    if s != [] {
      var front := s[..|s| - 1];
      TimesOnce(front, x, n);
      assert s == front + [s[|s| - 1]];
    }
  }

  // --- the two tables ---

  /** The degree of a plugin: its counted dependencies, once for each time it is configured. */
  function StartDegrees(g: Graph): map<Id, nat> {
    map x | x in g.active :: Times(g.active, x, |Needs(g, x)|)
  }

  function Dependants(rev: map<Id, seq<Id>>, d: Id): seq<Id> {
    if d in rev then rev[d] else []
  }

  /** `x` joins the list under `d`. */
  function Push(rev: map<Id, seq<Id>>, d: Id, x: Id): map<Id, seq<Id>> {
    rev[d := Dependants(rev, d) + [x]]
  }

  function PushAll(rev: map<Id, seq<Id>>, needs: seq<Id>, x: Id): map<Id, seq<Id>> {
    if needs == [] then rev else Push(PushAll(rev, needs[..|needs| - 1], x), needs[|needs| - 1], x)
  }

  lemma PushAllSnoc(rev: map<Id, seq<Id>>, needs: seq<Id>, d: Id, x: Id)
    ensures PushAll(rev, needs + [d], x) == Push(PushAll(rev, needs, x), d, x)
  {
    assert (needs + [d])[..|needs|] == needs;
  }

  function RevOf(g: Graph, active: seq<Id>): map<Id, seq<Id>> {
    if active == [] then map[]
    else
      var x := active[|active| - 1];
      PushAll(RevOf(g, active[..|active| - 1]), Needs(g, x), x)
  }

  /** Each plugin under each of its dependencies, once for each mention. */
  function Rev(g: Graph): map<Id, seq<Id>> {
    RevOf(g, g.active)
  }

  /** How often `x` is listed under `d`. */
  ghost function Listed(rev: map<Id, seq<Id>>, d: Id, x: Id): nat {
    multiset(Dependants(rev, d))[x]
  }

  lemma PushListed(rev: map<Id, seq<Id>>, e: Id, x: Id, d: Id, y: Id)
    ensures Listed(Push(rev, e, x), d, y) == Listed(rev, d, y) + if e == d && y == x then 1 else 0
  {
  }

  /** One more push, after those for `front`. */
  lemma OnePushListed(rev: map<Id, seq<Id>>, mid: map<Id, seq<Id>>, front: seq<Id>, last: Id, x: Id, d: Id, y: Id)
    requires Listed(mid, d, y) == Listed(rev, d, y) + if y == x then multiset(front)[d] else 0
    ensures Listed(Push(mid, last, x), d, y) ==
            Listed(rev, d, y) + if y == x then multiset(front + [last])[d] else 0
  {
    PushListed(mid, last, x, d, y);
    LastCount(front, last, d);
  }

  lemma {:induction false} PushAllListed(rev: map<Id, seq<Id>>, needs: seq<Id>, x: Id, d: Id, y: Id)
    ensures Listed(PushAll(rev, needs, x), d, y) == Listed(rev, d, y) + if y == x then multiset(needs)[d] else 0
  {
    if needs != [] {
      var (front, last) := (needs[..|needs| - 1], needs[|needs| - 1]);
      PushAllListed(rev, front, x, d, y);
      OnePushListed(rev, PushAll(rev, front, x), front, last, x, d, y);
      assert needs == front + [last];
    }
  }

  lemma {:induction false} RevListed(g: Graph, active: seq<Id>, d: Id, y: Id)
    ensures Listed(RevOf(g, active), d, y) == Times(active, y, multiset(Needs(g, y))[d])
  {
    if active != [] {
      var x := active[|active| - 1];
      RevListed(g, active[..|active| - 1], d, y);
      PushAllListed(RevOf(g, active[..|active| - 1]), Needs(g, x), x, d, y);
    }
  }

  /** Only active plugins are listed, each under what it needs. */
  lemma ListedNeeds(g: Graph, d: Id, y: Id)
    requires y in Dependants(Rev(g), d)
    ensures y in g.active && d in Needs(g, y)
  {
    RevListed(g, g.active, d, y);
    TimesLess(g.active, y, 0, 0);
    if y !in g.active { TimesAbsent(g.active, y, multiset(Needs(g, y))[d]); }
  }

  lemma {:induction false} TimesAbsent(s: seq<Id>, x: Id, n: nat)
    requires x !in s
    ensures Times(s, x, n) == 0
  {
    if s != [] { TimesAbsent(s[..|s| - 1], x, n); }
  }

  // --- turns ---

  datatype Loop = Loop(inDegree: map<Id, nat>, queue: seq<Id>, order: seq<Id>)

  /** One mention of the dependency just ordered: count its dependant down, queue it at zero. */
  function CountDown(dep: Id, inDegree: map<Id, nat>): nat {
    if dep in inDegree && inDegree[dep] > 0 then inDegree[dep] - 1 else 0
  }

  function CountAll(dependants: seq<Id>, inDegree: map<Id, nat>, queue: seq<Id>): (map<Id, nat>, seq<Id>) {
    if dependants == [] then (inDegree, queue)
    else
      var cnt := CountDown(dependants[0], inDegree);
      CountAll(dependants[1..], inDegree[dependants[0] := cnt], if cnt == 0 then queue + [dependants[0]] else queue)
  }

  /** The plugins whose degree is zero, in configuration order. */
  function Ready(active: seq<Id>, inDegree: map<Id, nat>): seq<Id> {
    Without(active, Held(inDegree))
  }

  function Held(inDegree: map<Id, nat>): set<Id> {
    set x | x in inDegree && inDegree[x] != 0
  }

  function StartLoop(g: Graph): Loop {
    Loop(StartDegrees(g), Ready(g.active, StartDegrees(g)), [])
  }

  function Turn(rev: map<Id, seq<Id>>, l: Loop): Loop {
    if l.queue == [] then l
    else
      var (inDegree, queue) := CountAll(Dependants(rev, l.queue[0]), l.inDegree, l.queue[1..]);
      Loop(inDegree, queue, l.order + [l.queue[0]])
  }

  /** The loop after `n` turns. */
  function Turns(g: Graph, n: nat): Loop {
    if n == 0 then StartLoop(g) else Turn(Rev(g), Turns(g, n - 1))
  }

  /** The loop comes to an end. */
  ghost predicate Ends(g: Graph) {
    exists n: nat :: Turns(g, n).queue == []
  }

  // --- any ids: nothing loadable is left out ---

  function Less(a: nat, b: nat): nat {
    if a >= b then a - b else 0
  }

  lemma {:induction false} CountAllDegrees(dependants: seq<Id>, inDegree: map<Id, nat>, queue: seq<Id>)
    requires forall x :: x in dependants ==> x in inDegree
    ensures var (d, q) := CountAll(dependants, inDegree, queue);
      && d.Keys == inDegree.Keys
      && (forall x :: x in inDegree ==> d[x] == Less(inDegree[x], multiset(dependants)[x]))
      && (forall x :: x in queue ==> x in q)
      && (forall x :: x in dependants && d[x] == 0 ==> x in q)
      && (forall x :: x in q ==> x in queue || x in dependants)
  {
    if dependants != [] {
      var dep := dependants[0];
      var cnt := CountDown(dep, inDegree);
      assert dependants == [dep] + dependants[1..];
      CountAllDegrees(dependants[1..], inDegree[dep := cnt], if cnt == 0 then queue + [dep] else queue);
    }
  }

  /** Degrees never exceed what is left, and a plugin at zero has been queued. */
  ghost predicate Covering(g: Graph, l: Loop) {
    && l.inDegree.Keys == SetOf(g.active)
    && (forall x :: x in l.order || x in l.queue ==> x in g.active)
    && (forall x :: x in l.inDegree && l.inDegree[x] == 0 ==> x in l.order || x in l.queue)
    && (forall x :: x in l.inDegree ==> l.inDegree[x] <= Times(g.active, x, Left(Needs(g, x), SetOf(l.order))))
  }

  lemma StartCovering(g: Graph)
    ensures Covering(g, StartLoop(g))
  {
    var l := StartLoop(g);
    WithoutKeeps(g.active, Held(l.inDegree));
    forall x | x in g.active ensures l.inDegree[x] == Times(g.active, x, Left(Needs(g, x), SetOf(l.order))) {
      LeftNone(Needs(g, x));
      assert SetOf(l.order) == {};
    }
  }

  lemma TimesFewer(s: seq<Id>, x: Id, n: nat, m: nat)
    requires m <= n
    ensures Less(Times(s, x, n), Times(s, x, m)) == Times(s, x, n - m)
  {
    TimesLess(s, x, n, m);
  }

  /** What is left of a plugin's dependencies after one more turn. */
  lemma LeftTurn(g: Graph, x: Id, order: seq<Id>, id: Id)
    ensures Less(Times(g.active, x, Left(Needs(g, x), SetOf(order))), Listed(Rev(g), id, x))
            <= Times(g.active, x, Left(Needs(g, x), SetOf(order + [id])))
  {
    var left, mentions := Left(Needs(g, x), SetOf(order)), multiset(Needs(g, x))[id];
    if id in order {
      assert SetOf(order + [id]) == SetOf(order);
    } else {
      assert SetOf(order + [id]) == SetOf(order) + {id};
      LeftAfter(Needs(g, x), SetOf(order), id);
      TimesFewer(g.active, x, left, mentions);
      assert Listed(Rev(g), id, x) == Times(g.active, x, mentions) by { RevListed(g, g.active, id, x); }
    }
  }

  lemma CoveringTurn(g: Graph, l: Loop)
    requires Covering(g, l)
    ensures Covering(g, Turn(Rev(g), l))
  {
    if l.queue != [] {
      var id := l.queue[0];
      var deps := Dependants(Rev(g), id);
      forall y | y in deps ensures y in l.inDegree { ListedNeeds(g, id, y); }
      CountAllDegrees(deps, l.inDegree, l.queue[1..]);
      var m := Turn(Rev(g), l);
      forall x | x in m.inDegree ensures m.inDegree[x] <= Times(g.active, x, Left(Needs(g, x), SetOf(m.order))) {
        LeftTurn(g, x, l.order, id);
      }
      forall x | x in m.inDegree && m.inDegree[x] == 0 ensures x in m.order || x in m.queue {
        if x !in deps { assert multiset(deps)[x] == 0; }
      }
    }
  }

  lemma {:induction false} CoveringTurns(g: Graph, n: nat)
    ensures Covering(g, Turns(g, n))
  {
    if n == 0 { StartCovering(g); } else { CoveringTurns(g, n - 1); CoveringTurn(g, Turns(g, n - 1)); }
  }

  /** Whatever ids repeat: once the loop has ended, a plugin it left out is blocked. */
  lemma LeftOutBlocked(g: Graph, n: nat, x: Id)
    requires Turns(g, n).queue == [] && x in g.active && x !in Turns(g, n).order
    ensures Blocked(g, x)
  {
    var l := Turns(g, n);
    CoveringTurns(g, n);
    forall y | y in g.active && y !in l.order ensures exists d :: d in Needs(g, y) && d !in l.order {
      LeftZero(Needs(g, y), SetOf(l.order));
      TimesLess(g.active, y, 0, 0);
    }
    StuckBlocked(g, l.order, x);
  }

  // --- distinct ids: a load order ---

  /** `listed` holds exactly the plugins with nothing left, each once. */
  ghost predicate Listing(g: Graph, inDegree: map<Id, nat>, listed: seq<Id>) {
    && inDegree.Keys == SetOf(g.active)
    && Distinct(listed) && (forall x :: x in listed ==> x in g.active)
    && forall x :: x in inDegree ==> (inDegree[x] == 0 <==> x in listed)
  }

  /** Degrees count the dependencies not yet ordered. */
  ghost predicate Progress(g: Graph, l: Loop) {
    && Listing(g, l.inDegree, l.order + l.queue)
    && DepsFirst(g, l.order)
    && forall x :: x in l.inDegree ==> l.inDegree[x] == Left(Needs(g, x), SetOf(l.order))
  }

  lemma ListDown(g: Graph, degrees: map<Id, nat>, listed: seq<Id>, dep: Id)
    requires Listing(g, degrees, listed) && dep in degrees && degrees[dep] > 0
    ensures degrees[dep] == 1 ==> Listing(g, degrees[dep := 0], listed + [dep])
    ensures degrees[dep] > 1 ==> Listing(g, degrees[dep := degrees[dep] - 1], listed)
  {
  }

  /** Counting down every mention of an ordered plugin queues each dependant once, at its last. */
  lemma {:induction false} CountAllListing(g: Graph, dependants: seq<Id>, degrees: map<Id, nat>,
                                           front: seq<Id>, queue: seq<Id>)
    requires Listing(g, degrees, front + queue)
    requires forall x :: x in dependants ==> x in degrees && multiset(dependants)[x] <= degrees[x]
    ensures var (d, q) := CountAll(dependants, degrees, queue);
      Listing(g, d, front + q)
    decreases |dependants|
  {
    if dependants != [] {
      var dep := dependants[0];
      HeadCount(dependants, dep);
      ListDown(g, degrees, front + queue, dep);
      var cnt := CountDown(dep, degrees);
      var next := if cnt == 0 then queue + [dep] else queue;
      assert front + (queue + [dep]) == front + queue + [dep];
      forall x | x in dependants[1..] ensures multiset(dependants[1..])[x] <= degrees[dep := cnt][x] {
        HeadCount(dependants, x);
      }
      CountAllListing(g, dependants[1..], degrees[dep := cnt], front, next);
    }
  }

  lemma ReadyListing(g: Graph, inDegree: map<Id, nat>)
    requires Distinct(g.active) && inDegree.Keys == SetOf(g.active)
    ensures Listing(g, inDegree, Ready(g.active, inDegree))
  {
    WithoutKeeps(g.active, Held(inDegree));
  }

  lemma StartProgress(g: Graph)
    requires Distinct(g.active)
    ensures Progress(g, StartLoop(g))
  {
    var l := StartLoop(g);
    ReadyListing(g, l.inDegree);
    assert l.order + l.queue == l.queue;
    forall x | x in g.active ensures l.inDegree[x] == Left(Needs(g, x), SetOf(l.order)) {
      LeftNone(Needs(g, x));
      TimesOnce(g.active, x, |Needs(g, x)|);
      assert SetOf(l.order) == {};
    }
  }

  lemma DistinctSplit(s: seq<Id>, x: Id, t: seq<Id>)
    requires Distinct(s + [x] + t)
    ensures x !in s
  {
    var u := s + [x] + t;
    assert u[|s|] == x && forall i :: 0 <= i < |s| ==> u[i] == s[i];
  }

  /** The plugin at the head of the queue is new and has no dependency left. */
  lemma AtHead(g: Graph, l: Loop)
    requires Progress(g, l) && l.queue != []
    ensures var id := l.queue[0];
      && id in g.active && id !in l.order && Left(Needs(g, id), SetOf(l.order)) == 0
      && Listing(g, l.inDegree, l.order + [id] + l.queue[1..])
    ensures |l.order| < |g.active|
  {
    assert l.order + l.queue == l.order + [l.queue[0]] + l.queue[1..];
    assert l.queue[0] in l.order + l.queue;
    DistinctSplit(l.order, l.queue[0], l.queue[1..]);
    Pigeonhole(l.order + l.queue, g.active);
  }

  /** A dependant's mentions are all still counted. */
  lemma Mentions(g: Graph, id: Id, x: Id, done: set<Id>)
    requires Distinct(g.active) && id !in done && x in g.active
    ensures Listed(Rev(g), id, x) == multiset(Needs(g, x))[id]
    ensures Left(Needs(g, x), done + {id}) == Left(Needs(g, x), done) - Listed(Rev(g), id, x)
  {
    RevListed(g, g.active, id, x);
    TimesOnce(g.active, x, multiset(Needs(g, x))[id]);
    LeftAfter(Needs(g, x), done, id);
  }

  lemma OrderedNext(g: Graph, order: seq<Id>, id: Id)
    requires DepsFirst(g, order) && Left(Needs(g, id), SetOf(order)) == 0
    ensures DepsFirst(g, order + [id])
  {
    LeftZero(Needs(g, id), SetOf(order));
    forall i, d | 0 <= i < |order + [id]| && d in Needs(g, (order + [id])[i]) ensures d in (order + [id])[..i] {
      assert (order + [id])[..i] == order[..i];
    }
  }

  lemma MentionsCounted(g: Graph, l: Loop)
    requires Distinct(g.active) && Progress(g, l) && l.queue != []
    ensures var deps := Dependants(Rev(g), l.queue[0]);
      forall x :: x in deps ==> x in l.inDegree && multiset(deps)[x] <= l.inDegree[x]
  {
    var id := l.queue[0];
    AtHead(g, l);
    forall x | x in Dependants(Rev(g), id) ensures x in l.inDegree && Listed(Rev(g), id, x) <= l.inDegree[x] {
      ListedNeeds(g, id, x);
      Mentions(g, id, x, SetOf(l.order));
    }
  }

  lemma LeftOne(g: Graph, l: Loop, x: Id)
    requires Distinct(g.active) && Progress(g, l) && l.queue != [] && x in l.inDegree
    ensures Less(l.inDegree[x], Listed(Rev(g), l.queue[0], x)) == Left(Needs(g, x), SetOf(l.order + [l.queue[0]]))
  {
    var id := l.queue[0];
    AtHead(g, l);
    Mentions(g, id, x, SetOf(l.order));
    assert SetOf(l.order + [id]) == SetOf(l.order) + {id};
  }

  /** After the turn the degrees count what is then left. */
  lemma LeftCounted(g: Graph, l: Loop)
    requires Distinct(g.active) && Progress(g, l) && l.queue != []
    ensures var m := Turn(Rev(g), l);
      m.inDegree.Keys == l.inDegree.Keys
      && forall x :: x in m.inDegree ==> m.inDegree[x] == Left(Needs(g, x), SetOf(m.order))
  {
    var id := l.queue[0];
    var m := Turn(Rev(g), l);
    MentionsCounted(g, l);
    CountAllDegrees(Dependants(Rev(g), id), l.inDegree, l.queue[1..]);
    forall x | x in m.inDegree ensures m.inDegree[x] == Left(Needs(g, x), SetOf(m.order)) {
      LeftOne(g, l, x);
    }
  }

  lemma ProgressTurn(g: Graph, l: Loop)
    requires Distinct(g.active) && Progress(g, l) && l.queue != []
    ensures Progress(g, Turn(Rev(g), l))
  {
    var id := l.queue[0];
    AtHead(g, l);
    MentionsCounted(g, l);
    CountAllListing(g, Dependants(Rev(g), id), l.inDegree, l.order + [id], l.queue[1..]);
    OrderedNext(g, l.order, id);
    LeftCounted(g, l);
  }

  lemma {:induction false} ProgressTurns(g: Graph, n: nat)
    requires Distinct(g.active)
    ensures Progress(g, Turns(g, n)) && (Turns(g, n).queue == [] || |Turns(g, n).order| == n)
  {
    if n == 0 {
      StartProgress(g);
    } else {
      ProgressTurns(g, n - 1);
      if Turns(g, n - 1).queue != [] { ProgressTurn(g, Turns(g, n - 1)); }
    }
  }

  /** With distinct ids the loop ends, whatever the dependencies and however often they repeat. */
  lemma DistinctEnds(g: Graph)
    requires Distinct(g.active)
    ensures Ends(g)
  {
    ProgressTurns(g, |g.active|);
    if Turns(g, |g.active|).queue != [] { AtHead(g, Turns(g, |g.active|)); }
  }

  /** With distinct ids: what is left out is blocked, what is ordered is not, and it is a load order. */
  lemma DistinctSorted(g: Graph, n: nat)
    requires Distinct(g.active) && Turns(g, n).queue == []
    ensures var order := Turns(g, n).order;
      && Distinct(order) && DepsFirst(g, order) && SetOf(order) == SetOf(g.active) - BlockedIds(g)
  {
    var l := Turns(g, n);
    ProgressTurns(g, n);
    assert l.order + [] == l.order;
    forall x | x in g.active ensures x in l.order <==> !Blocked(g, x) {
      if x in l.order { OrderedUnblocked(g, l.order, x); } else { LeftOutBlocked(g, n, x); }
    }
  }

  // --- acyclic graphs: the loop ends whatever repeats ---

  /** How many turns a queued plugin can cause, over `k` levels of dependants. */
  function Weight(rev: map<Id, seq<Id>>, x: Id, k: nat): nat
    decreases k, 0, 0
  {
    if k == 0 then 1 else 1 + WeightAll(rev, Dependants(rev, x), k - 1)
  }

  function WeightAll(rev: map<Id, seq<Id>>, s: seq<Id>, k: nat): nat
    decreases k, 1, |s|
  {
    if s == [] then 0 else Weight(rev, s[0], k) + WeightAll(rev, s[1..], k)
  }

  lemma {:induction false} WeightGrows(rev: map<Id, seq<Id>>, x: Id, j: nat, k: nat)
    requires j <= k
    ensures Weight(rev, x, j) <= Weight(rev, x, k)
    decreases k, 0, 0
  {
    if j > 0 { WeightAllGrows(rev, Dependants(rev, x), j - 1, k - 1); }
  }

  lemma {:induction false} WeightAllGrows(rev: map<Id, seq<Id>>, s: seq<Id>, j: nat, k: nat)
    requires j <= k
    ensures WeightAll(rev, s, j) <= WeightAll(rev, s, k)
    decreases k, 1, |s|
  {
    if s != [] {
      WeightGrows(rev, s[0], j, k);
      WeightAllGrows(rev, s[1..], j, k);
    }
  }

  /** Levels left above `x`. */
  function Levels(rank: map<Id, nat>, top: nat, x: Id): nat {
    Less(top, Rank(rank, x))
  }

  /** The turns still to come for a queue. */
  function Pending(rev: map<Id, seq<Id>>, rank: map<Id, nat>, top: nat, queue: seq<Id>): nat {
    if queue == [] then 0
    else Pending(rev, rank, top, queue[..|queue| - 1])
         + Weight(rev, queue[|queue| - 1], Levels(rank, top, queue[|queue| - 1]))
  }

  lemma {:induction false} PendingHead(rev: map<Id, seq<Id>>, rank: map<Id, nat>, top: nat, queue: seq<Id>)
    requires queue != []
    ensures Pending(rev, rank, top, queue) ==
            Weight(rev, queue[0], Levels(rank, top, queue[0])) + Pending(rev, rank, top, queue[1..])
  {
    if |queue| > 1 {
      var front := queue[..|queue| - 1];
      PendingHead(rev, rank, top, front);
      assert queue[1..][..|queue| - 2] == front[1..];
    }
  }

  /** What the dependants of a plugin can add. */
  function Added(rev: map<Id, seq<Id>>, rank: map<Id, nat>, top: nat, s: seq<Id>): nat {
    if s == [] then 0 else Weight(rev, s[0], Levels(rank, top, s[0])) + Added(rev, rank, top, s[1..])
  }

  lemma {:induction false} CountAllPending(rev: map<Id, seq<Id>>, rank: map<Id, nat>, top: nat,
                                           dependants: seq<Id>, inDegree: map<Id, nat>, queue: seq<Id>)
    ensures Pending(rev, rank, top, CountAll(dependants, inDegree, queue).1)
            <= Pending(rev, rank, top, queue) + Added(rev, rank, top, dependants)
    decreases |dependants|
  {
    if dependants != [] {
      var dep := dependants[0];
      var cnt := CountDown(dep, inDegree);
      var next := if cnt == 0 then queue + [dep] else queue;
      assert (queue + [dep])[..|queue|] == queue;
      CountAllPending(rev, rank, top, dependants[1..], inDegree[dep := cnt], next);
    }
  }

  lemma {:induction false} AddedBound(rev: map<Id, seq<Id>>, rank: map<Id, nat>, top: nat, s: seq<Id>, k: nat)
    requires forall y :: y in s ==> Levels(rank, top, y) <= k
    ensures Added(rev, rank, top, s) <= WeightAll(rev, s, k)
  {
    if s != [] {
      WeightGrows(rev, s[0], Levels(rank, top, s[0]), k);
      AddedBound(rev, rank, top, s[1..], k);
    }
  }

  /** `top` ranks above every active plugin. */
  ghost predicate Tops(g: Graph, rank: map<Id, nat>, top: nat) {
    forall x :: x in g.active ==> Rank(rank, x) < top
  }

  /** A turn takes more off the queue than it puts on. */
  lemma PendingFalls(g: Graph, rank: map<Id, nat>, top: nat, l: Loop)
    requires Ranked(g, rank) && Tops(g, rank, top) && l.queue != [] && l.queue[0] in g.active
    ensures Pending(Rev(g), rank, top, Turn(Rev(g), l).queue) < Pending(Rev(g), rank, top, l.queue)
  {
    var id := l.queue[0];
    var deps := Dependants(Rev(g), id);
    var k := Levels(rank, top, id);
    forall y | y in deps ensures Levels(rank, top, y) <= k - 1 { ListedNeeds(g, id, y); }
    AddedBound(Rev(g), rank, top, deps, k - 1);
    CountAllPending(Rev(g), rank, top, deps, l.inDegree, l.queue[1..]);
    PendingHead(Rev(g), rank, top, l.queue);
  }

  lemma {:induction false} EndsWithin(g: Graph, rank: map<Id, nat>, top: nat, n: nat)
    requires Ranked(g, rank) && Tops(g, rank, top)
    ensures Ends(g)
    decreases Pending(Rev(g), rank, top, Turns(g, n).queue)
  {
    if Turns(g, n).queue != [] {
      CoveringTurns(g, n);
      assert Turns(g, n).queue[0] in Turns(g, n).queue;
      PendingFalls(g, rank, top, Turns(g, n));
      EndsWithin(g, rank, top, n + 1);
    }
  }

  lemma {:induction false} TopRank(active: seq<Id>, rank: map<Id, nat>) returns (top: nat)
    ensures forall x :: x in active ==> Rank(rank, x) < top
  {
    if active == [] {
      top := 0;
    } else {
      top := TopRank(active[1..], rank);
      if Rank(rank, active[0]) >= top { top := Rank(rank, active[0]) + 1; }
    }
  }

  /** Without a cycle the loop ends, whatever ids repeat. */
  lemma AcyclicEnds(g: Graph)
    requires Cyclic(g) == {}
    ensures Ends(g)
  {
    AcyclicIffRanked(g);
    var rank :| Ranked(g, rank);
    var top := TopRank(g.active, rank);
    EndsWithin(g, rank, top, 0);
  }
}
