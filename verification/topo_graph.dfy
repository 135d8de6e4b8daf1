/** The dependency graph of the configured plugins: paths, cycles, and what blocks a plugin. */
module TopoGraph {
  import opened Collections

  type Id = nat

  // --- the dependency graph ---

  /** The active plugins and the dependencies that count. */
  datatype Graph = Graph(active: seq<Id>, deps: map<Id, seq<Id>>, refused: set<Id>)

  function Needs(g: Graph, x: Id): seq<Id> {
    if x in g.deps then Without(g.deps[x], g.refused) else []
  }

  function GraphOf(ids: seq<Id>, deps: map<Id, seq<Id>>, refused: set<Id>): Graph {
    Graph(Without(ids, refused), deps, refused)
  }

  /** Every dependency is itself an active plugin. */
  ghost predicate Closed(g: Graph) {
    forall x, d :: x in g.active && d in Needs(g, x) ==> d in g.active
  }

  /** A walk that follows dependencies from active plugins. */
  ghost predicate Path(g: Graph, p: seq<Id>) {
    p != [] && forall i :: 0 <= i < |p| - 1 ==> p[i] in g.active && p[i + 1] in Needs(g, p[i])
  }

  ghost predicate Repeats(p: seq<Id>) {
    exists i, j :: 0 <= i < j < |p| && p[i] == p[j]
  }

  /** Following dependencies from `x` comes back to a plugin already met. */
  ghost predicate ReachesCycle(g: Graph, x: Id) {
    exists p :: Path(g, p) && p[0] == x && Repeats(p)
  }

  /** Following dependencies from `x` reaches a cycle or a plugin that is not active. */
  ghost predicate Blocked(g: Graph, x: Id) {
    exists p :: Path(g, p) && p[0] == x && (Repeats(p) || p[|p| - 1] !in g.active)
  }

  ghost function BlockedIds(g: Graph): set<Id> {
    set x | x in g.active && Blocked(g, x)
  }

  /** `order` lists dependencies before dependants. */
  ghost predicate DepsFirst(g: Graph, order: seq<Id>) {
    forall i, d :: 0 <= i < |order| && d in Needs(g, order[i]) ==> d in order[..i]
  }

  // --- what a finished order says about paths ---

  ghost function Pos(order: seq<Id>, x: Id): (k: nat)
    requires x in order
    ensures k < |order| && order[k] == x
  {
    var k :| 0 <= k < |order| && order[k] == x;
    k
  }

  lemma {:induction false} PathDescends(g: Graph, order: seq<Id>, p: seq<Id>, i: nat, j: nat)
    requires Distinct(order) && DepsFirst(g, order) && Path(g, p) && i <= j < |p| && p[i] in order
    ensures p[j] in order && (i < j ==> Pos(order, p[j]) < Pos(order, p[i]))
    decreases j
  {
    if i < j {
      PathDescends(g, order, p, i, j - 1);
      var k := Pos(order, p[j - 1]);
      assert p[j] in Needs(g, order[k]);
    }
  }

  /** From an ordered plugin every path stays in the order and never repeats. */
  lemma OrderedUnblocked(g: Graph, order: seq<Id>, x: Id)
    requires Distinct(order) && DepsFirst(g, order) && (forall y :: y in order ==> y in g.active) && x in order
    ensures !Blocked(g, x)
  {
    if Blocked(g, x) {
      var p :| Path(g, p) && p[0] == x && (Repeats(p) || p[|p| - 1] !in g.active);
      PathDescends(g, order, p, 0, |p| - 1);
      if Repeats(p) {
        var i, j :| 0 <= i < j < |p| && p[i] == p[j];
        PathDescends(g, order, p, 0, i);
        PathDescends(g, order, p, i, j);
      }
    }
  }

  /** Every active plugin left out of `order` still needs one left out. */
  ghost predicate Stuck(g: Graph, order: seq<Id>) {
    forall x :: x in g.active && x !in order ==> exists d :: d in Needs(g, x) && d !in order
  }

  /** A walk of `n` steps among the plugins left out, unless it leaves the active ones first. */
  lemma {:induction false} Walk(g: Graph, order: seq<Id>, x: Id, n: nat) returns (p: seq<Id>)
    requires Stuck(g, order) && x in g.active && x !in order
    ensures Path(g, p) && p[0] == x
    ensures p[|p| - 1] !in g.active || (|p| == n + 1 && forall i :: 0 <= i < |p| ==> p[i] in g.active)
    decreases n
  {
    p := [x];
    if n > 0 {
      var d :| d in Needs(g, x) && d !in order;
      if d in g.active {
        var q := Walk(g, order, d, n - 1);
        p := [x] + q;
      } else {
        p := [x, d];
      }
    }
  }

  lemma {:induction false} Pigeonhole(s: seq<Id>, within: seq<Id>)
    requires Distinct(s) && forall x :: x in s ==> x in within
    ensures |s| <= |within|
    decreases |s|
  {
    if s != [] {
      var rest := s[1..];
      assert s[0] in within && forall x :: x in rest ==> x in s;
      var k :| 0 <= k < |within| && within[k] == s[0];
      var less := within[..k] + within[k + 1..];
      forall x | x in rest ensures x in less {
        var i :| 0 <= i < |within| && within[i] == x;
        assert x == less[if i < k then i else i - 1];
      }
      Pigeonhole(rest, less);
    }
  }

  lemma StuckBlocked(g: Graph, order: seq<Id>, x: Id)
    requires Stuck(g, order) && x in g.active && x !in order
    ensures Blocked(g, x)
  {
    var p := Walk(g, order, x, |g.active|);
    if p[|p| - 1] in g.active && !Repeats(p) {
      Pigeonhole(p, g.active);
    }
  }

  lemma {:induction false} PathActive(g: Graph, p: seq<Id>, i: nat)
    requires Closed(g) && Path(g, p) && p[0] in g.active && i < |p|
    ensures p[i] in g.active
  {
    if i > 0 { PathActive(g, p, i - 1); }
  }

  /** Where no dependency dangles, only cycles block. */
  lemma ClosedBlocked(g: Graph, x: Id)
    requires Closed(g) && x in g.active
    ensures Blocked(g, x) <==> ReachesCycle(g, x)
  {
    if Blocked(g, x) {
      var p :| Path(g, p) && p[0] == x && (Repeats(p) || p[|p| - 1] !in g.active);
      PathActive(g, p, |p| - 1);
    }
  }

  // --- graphs without a cycle ---

  ghost function Cyclic(g: Graph): set<Id> {
    set x | x in g.active && ReachesCycle(g, x)
  }

  function Rank(rank: map<Id, nat>, x: Id): nat {
    if x in rank then rank[x] else 0
  }

  /** Every plugin ranks above what it needs. */
  ghost predicate Ranked(g: Graph, rank: map<Id, nat>) {
    forall x, d :: x in g.active && d in Needs(g, x) ==> Rank(rank, d) < Rank(rank, x)
  }

  /** `order` lists active plugins, each after the active ones it needs. */
  ghost predicate Partial(g: Graph, order: seq<Id>) {
    && Distinct(order) && (forall x :: x in order ==> x in g.active)
    && forall i, d :: 0 <= i < |order| && d in Needs(g, order[i]) && d in g.active ==> d in order[..i]
  }

  /** Every active plugin outside `order` needs an active one outside it. */
  ghost predicate StuckActive(g: Graph, order: seq<Id>) {
    forall x :: x in g.active && x !in order ==> exists d :: d in Needs(g, x) && d in g.active && d !in order
  }

  lemma PathFrom(g: Graph, x: Id, q: seq<Id>)
    requires Path(g, q) && x in g.active && q[0] in Needs(g, x)
    ensures Path(g, [x] + q)
  {
  }

  /** All the plugins of a path are active. */
  ghost predicate Within(g: Graph, p: seq<Id>) {
    forall i :: 0 <= i < |p| ==> p[i] in g.active
  }

  lemma MissingNeed(g: Graph, order: seq<Id>, x: Id) returns (d: Id)
    requires StuckActive(g, order) && x in g.active && x !in order
    ensures d in Needs(g, x) && d in g.active && d !in order
  {
    d :| d in Needs(g, x) && d in g.active && d !in order;
  }

  lemma {:induction false} WalkActive(g: Graph, order: seq<Id>, x: Id, n: nat) returns (p: seq<Id>)
    requires StuckActive(g, order) && x in g.active && x !in order
    ensures Path(g, p) && p[0] == x && |p| == n + 1 && Within(g, p)
    decreases n
  {
    if n == 0 {
      p := [x];
    } else {
      var d := MissingNeed(g, order, x);
      var q := WalkActive(g, order, d, n - 1);
      PathFrom(g, x, q);
      p := [x] + q;
    }
  }

  lemma StuckCycles(g: Graph, order: seq<Id>, x: Id)
    requires StuckActive(g, order) && x in g.active && x !in order
    ensures x in Cyclic(g)
  {
    var p := WalkActive(g, order, x, |g.active|);
    if !Repeats(p) { Pigeonhole(p, g.active); }
  }

  /** While a plugin is missing and there is no cycle, some missing plugin has all it needs. */
  lemma NextInOrder(g: Graph, order: seq<Id>, x: Id) returns (y: Id)
    requires Cyclic(g) == {} && x in g.active && x !in order
    ensures y in g.active && y !in order && forall d :: d in Needs(g, y) && d in g.active ==> d in order
  {
    if StuckActive(g, order) {
      StuckCycles(g, order, x);
    }
    y :| y in g.active && y !in order && !exists d :: d in Needs(g, y) && d in g.active && d !in order;
  }

  lemma {:induction false} FullOrder(g: Graph, order: seq<Id>) returns (full: seq<Id>)
    requires Cyclic(g) == {} && Partial(g, order)
    ensures Partial(g, full) && forall x :: x in g.active ==> x in full
    decreases |g.active| - |order|
  {
    full := order;
    if x :| x in g.active && x !in order {
      var y := NextInOrder(g, order, x);
      var next := order + [y];
      forall i, d | 0 <= i < |next| && d in Needs(g, next[i]) && d in g.active ensures d in next[..i] {
        assert next[..i] == order[..i];
      }
      Pigeonhole(next, g.active);
      full := FullOrder(g, next);
    }
  }

  /** A graph has no cycle if and only if its plugins can be ranked. */
  lemma AcyclicIffRanked(g: Graph)
    ensures Cyclic(g) == {} <==> exists rank :: Ranked(g, rank)
  {
    if Cyclic(g) == {} {
      var full := FullOrder(g, []);
      var rank: map<Id, nat> := map x | x in full :: Pos(full, x) + 1;
      forall x, d | x in g.active && d in Needs(g, x) ensures Rank(rank, d) < Rank(rank, x) {
        if d in g.active { assert d in full[..Pos(full, x)]; }
      }
      assert Ranked(g, rank);
    }
    if rank :| Ranked(g, rank) {
      forall x | x in g.active ensures !ReachesCycle(g, x) {
        if p :| Path(g, p) && p[0] == x && Repeats(p) {
          var i, j :| 0 <= i < j < |p| && p[i] == p[j];
          RankFalls(g, rank, p, i, j);
        }
      }
    }
  }

  lemma {:induction false} RankFalls(g: Graph, rank: map<Id, nat>, p: seq<Id>, i: nat, j: nat)
    requires Ranked(g, rank) && Path(g, p) && i < j < |p|
    ensures Rank(rank, p[j]) < Rank(rank, p[i])
    decreases j
  {
    if i < j - 1 { RankFalls(g, rank, p, i, j - 1); }
  }
}
