/** The loader's code: dependency filtering, the sort, and the order plugins are started in. */
module TopoSort {
  import opened Collections
  import opened TopoGraph
  import opened TopoLoop

  datatype Result<T, E> = Ok(value: T) | Err(error: E)

  // --- the two tables ---

  lemma {:induction false} WithoutSnoc(s: seq<Id>, j: nat, drop: set<Id>)
    requires j < |s|
    ensures s[j] in drop ==> Without(s[..j + 1], drop) == Without(s[..j], drop)
    ensures s[j] !in drop ==> Without(s[..j + 1], drop) == Without(s[..j], drop) + [s[j]]
  {
    if j > 0 {
      WithoutSnoc(s[1..], j - 1, drop);
      assert s[..j + 1][1..] == s[1..][..j] && s[..j][1..] == s[1..][..j - 1];
    } else {
      assert s[..1] == [s[0]] && s[..0] == [];
    }
  }

  /** One more for each counted dependency of `id`. */
  method AddDegree(g: Graph, degrees: map<Id, nat>, id: Id) returns (inDegree: map<Id, nat>)
    requires id in degrees
    ensures inDegree == degrees[id := degrees[id] + |Needs(g, id)|]
  {
    inDegree := degrees;
    if id in g.deps {
      var req := g.deps[id];
      for j := 0 to |req|
        invariant id in inDegree && inDegree == degrees[id := degrees[id] + |Without(req[..j], g.refused)|]
      {
        WithoutSnoc(req, j, g.refused);
        if req[j] !in g.refused {
          inDegree := inDegree[id := inDegree[id] + 1];
        }
      }
      assert req[..|req|] == req;
    }
  }

  /** A plugin's degree counts its dependencies, repeats included, once for each time the plugin
      itself is listed. */
  method Degrees(g: Graph) returns (inDegree: map<Id, nat>)
    ensures inDegree == StartDegrees(g)
  {
    inDegree := map x | x in g.active :: 0;
    for i := 0 to |g.active|
      invariant inDegree == map x | x in g.active :: Times(g.active[..i], x, |Needs(g, x)|)
    {
      assert g.active[..i + 1][..i] == g.active[..i];
      inDegree := AddDegree(g, inDegree, g.active[i]);
    }
    assert g.active[..|g.active|] == g.active;
  }

  /** `id` goes under each of its counted dependencies, once for each mention. */
  method ReverseOne(g: Graph, rev: map<Id, seq<Id>>, id: Id) returns (next: map<Id, seq<Id>>)
    ensures next == PushAll(rev, Needs(g, id), id)
  {
    next := rev;
    if id in g.deps {
      var req := g.deps[id];
      for j := 0 to |req|
        invariant next == PushAll(rev, Without(req[..j], g.refused), id)
      {
        WithoutSnoc(req, j, g.refused);
        if req[j] !in g.refused {
          PushAllSnoc(rev, Without(req[..j], g.refused), req[j], id);
          next := Push(next, req[j], id);
        }
      }
      assert req[..|req|] == req;
    }
  }

  method Reverse(g: Graph) returns (rev: map<Id, seq<Id>>)
    ensures rev == Rev(g)
  {
    rev := map[];
    for i := 0 to |g.active|
      invariant rev == RevOf(g, g.active[..i])
    {
      assert g.active[..i + 1][..i] == g.active[..i];
      rev := ReverseOne(g, rev, g.active[i]);
    }
    assert g.active[..|g.active|] == g.active;
  }

  // --- the queue loop ---

  /** Each mention of the plugin just ordered counts its dependant down; one at zero is queued. */
  method Release(dependants: seq<Id>, degrees: map<Id, nat>, waiting: seq<Id>)
    returns (inDegree: map<Id, nat>, queue: seq<Id>)
    ensures (inDegree, queue) == CountAll(dependants, degrees, waiting)
  {
    inDegree, queue := degrees, waiting;
    for k := 0 to |dependants|
      invariant CountAll(dependants[k..], inDegree, queue) == CountAll(dependants, degrees, waiting)
    {
      var dep := dependants[k];
      assert dependants[k..][1..] == dependants[k + 1..];
      var cnt := if dep in inDegree then inDegree[dep] else 0;
      if cnt > 0 {
        cnt := cnt - 1;
      }
      inDegree := inDegree[dep := cnt];
      if cnt == 0 {
        queue := queue + [dep];
      }
    }
    assert dependants[|dependants|..] == [];
  }

  lemma SameElements(s: seq<Id>, t: seq<Id>)
    requires Distinct(s) && Distinct(t) && forall x :: x in s <==> x in t
    ensures multiset(s) == multiset(t)
  {
    forall x ensures multiset(s)[x] == multiset(t)[x] {
      CountDistinct(s, x);
      CountDistinct(t, x);
    }
  }

  lemma {:induction false} CountDistinct(s: seq<Id>, x: Id)
    requires Distinct(s)
    ensures multiset(s)[x] == if x in s then 1 else 0
  {
    if s != [] {
      CountDistinct(s[1..], x);
      assert s == [s[0]] + s[1..];
    }
  }

  /** An order of distinct active plugins that leaves none out is a permutation. */
  lemma NoneLeftOut(active: seq<Id>, order: seq<Id>)
    requires Distinct(active) && Distinct(order) && SetOf(order) <= SetOf(active)
    ensures |order| < |active| <==> SetOf(order) != SetOf(active)
    ensures SetOf(order) == SetOf(active) ==> multiset(order) == multiset(active)
  {
    assert forall x :: x in order <==> x in SetOf(order);
    assert forall x :: x in active <==> x in SetOf(active);
    if SetOf(order) == SetOf(active) {
      SameElements(order, active);
      assert |multiset(order)| == |order| && |multiset(active)| == |active|;
    } else {
      var x :| x in SetOf(active) && x !in SetOf(order);
      Pigeonhole(order + [x], active);
    }
  }

  /** What the sort promises for distinct ids. */
  ghost predicate Sorted(g: Graph, r: Result<seq<Id>, seq<Id>>) {
    match r
    case Ok(order) => BlockedIds(g) == {} && multiset(order) == multiset(g.active) && DepsFirst(g, order)
    case Err(stuck) => BlockedIds(g) != {} && stuck == Without(g.active, SetOf(g.active) - BlockedIds(g))
  }

  /** What it promises whatever ids repeat: nothing loadable is left out or refused. */
  ghost predicate LeavesNoneOut(g: Graph, r: Result<seq<Id>, seq<Id>>) {
    match r
    case Ok(order) => SetOf(g.active) - BlockedIds(g) <= SetOf(order)
    case Err(stuck) => SetOf(stuck) <= BlockedIds(g)
  }

  lemma DistinctResult(g: Graph, n: nat)
    requires Distinct(g.active) && Turns(g, n).queue == []
    ensures var order := Turns(g, n).order;
      Sorted(g, if |order| < |g.active| then Err(Without(g.active, SetOf(order))) else Ok(order))
  {
    DistinctSorted(g, n);
    NoneLeftOut(g.active, Turns(g, n).order);
    WithoutKeeps(g.active, SetOf(Turns(g, n).order));
  }

  lemma AnyResult(g: Graph, n: nat)
    requires Turns(g, n).queue == []
    ensures var order := Turns(g, n).order;
      LeavesNoneOut(g, if |order| < |g.active| then Err(Without(g.active, SetOf(order))) else Ok(order))
  {
    var order := Turns(g, n).order;
    WithoutKeeps(g.active, SetOf(order));
    forall x | x in g.active && x !in order ensures Blocked(g, x) { LeftOutBlocked(g, n, x); }
  }

  /** A load order, or the plugins that cannot be loaded, in configuration order, on every input on
      which the loop ends. */
  method Sort(ids: seq<Id>, deps: map<Id, seq<Id>>, refused: set<Id>) returns (r: Result<seq<Id>, seq<Id>>)
    requires Ends(GraphOf(ids, deps, refused))
    ensures Distinct(ids) ==> Sorted(GraphOf(ids, deps, refused), r)
    ensures LeavesNoneOut(GraphOf(ids, deps, refused), r)
  {
    var g := GraphOf(ids, deps, refused);
    WithoutKeeps(ids, refused);
    ghost var total: nat :| Turns(g, total).queue == [];
    var inDegree := Degrees(g);
    var rev := Reverse(g);
    var queue := Ready(g.active, inDegree);
    var order: seq<Id> := [];
    ghost var n := 0;
    while queue != []
      invariant n <= total && Loop(inDegree, queue, order) == Turns(g, n)
      decreases total - n
    {
      var id := queue[0];
      order := order + [id];
      inDegree, queue := Release(Dependants(rev, id), inDegree, queue[1..]);
      n := n + 1;
    }
    AnyResult(g, n);
    if Distinct(g.active) { DistinctResult(g, n); }
    if |order| < |g.active| {
      r := Err(Without(g.active, set x | x in order));
    } else {
      r := Ok(order);
    }
  }

  // --- the loader ---

  /** What a plugin's manifest requires; nothing without a manifest. */
  function Requires(manifests: map<Id, seq<Id>>, x: Id): seq<Id> {
    if x in manifests then manifests[x] else []
  }

  ghost predicate Missing(ids: seq<Id>, manifests: map<Id, seq<Id>>, x: Id) {
    exists d :: d in Requires(manifests, x) && d !in ids
  }

  /** Some required plugin is not configured at all. */
  method HasMissing(ids: seq<Id>, req: seq<Id>) returns (missing: bool)
    ensures missing <==> exists d :: d in req && d !in ids
  {
    missing := false;
    for j := 0 to |req|
      invariant !missing && forall k :: 0 <= k < j ==> req[k] in ids
    {
      if req[j] !in ids {
        missing := true;
        break;
      }
    }
  }

  /** What is refused before sorting, and the graph of the rest. */
  ghost function Refused(ids: seq<Id>, manifests: map<Id, seq<Id>>, invalid: set<Id>): set<Id> {
    invalid + set x | x in ids && Missing(ids, manifests, x)
  }

  ghost function LoadGraph(ids: seq<Id>, manifests: map<Id, seq<Id>>, invalid: set<Id>): Graph {
    var refused := Refused(ids, manifests, invalid);
    GraphOf(ids, map x | x in ids && x !in refused :: Requires(manifests, x), refused)
  }

  /** A plugin with a dependency outside the configuration is refused; the others keep theirs. */
  method ResolveDeps(ids: seq<Id>, manifests: map<Id, seq<Id>>, invalid: set<Id>)
    returns (deps: map<Id, seq<Id>>, refused: set<Id>)
    ensures refused == Refused(ids, manifests, invalid)
    ensures deps == map x | x in ids && x !in refused :: Requires(manifests, x)
    ensures Closed(GraphOf(ids, deps, refused))
  {
    deps, refused := map[], invalid;
    for i := 0 to |ids|
      invariant forall x :: x in refused <==> x in invalid || (x in ids[..i] && Missing(ids, manifests, x))
      invariant forall x :: x in deps <==> x in ids[..i] && x !in refused
      invariant forall x :: x in deps ==> deps[x] == Requires(manifests, x)
    {
      var id := ids[i];
      assert ids[..i + 1] == ids[..i] + [id];
      if id !in refused {
        var missing := HasMissing(ids, Requires(manifests, id));
        if missing {
          refused := refused + {id};
        } else {
          deps := deps[id := Requires(manifests, id)];
        }
      }
    }
    assert ids[..|ids|] == ids;
    ResolvedClosed(ids, manifests, deps, refused);
  }

  lemma ResolvedClosed(ids: seq<Id>, manifests: map<Id, seq<Id>>, deps: map<Id, seq<Id>>, refused: set<Id>)
    requires forall x :: x in ids && x !in refused ==> !Missing(ids, manifests, x)
    requires forall x :: x in deps ==> deps[x] == Requires(manifests, x)
    ensures Closed(GraphOf(ids, deps, refused))
  {
    var g := GraphOf(ids, deps, refused);
    WithoutKeeps(ids, refused);
    forall x, d | x in g.active && d in Needs(g, x) ensures d in g.active {
      WithoutKeeps(deps[x], refused);
    }
  }

  /** The order in which plugins are started: dependencies first, unless some plugin reaches a
      cycle; then those that do are refused and the rest start in configuration order. With ids that
      repeat, still no plugin is refused that reaches no cycle, and none left out that is not
      refused. */
  method LoadOrder(ids: seq<Id>, manifests: map<Id, seq<Id>>, invalid: set<Id>)
    returns (order: seq<Id>, refused: set<Id>)
    requires Ends(LoadGraph(ids, manifests, invalid))
    ensures var g := LoadGraph(ids, manifests, invalid);
      && g.refused <= refused <= g.refused + Cyclic(g)
      && SetOf(ids) - refused - Cyclic(g) <= SetOf(order)
      && (Distinct(ids) ==>
            && refused == g.refused + Cyclic(g)
            && if Cyclic(g) == {} then multiset(order) == multiset(g.active) && DepsFirst(g, order)
               else order == Without(ids, refused))
  {
    var deps;
    deps, refused := ResolveDeps(ids, manifests, invalid);
    ghost var g := GraphOf(ids, deps, refused);
    assert g == LoadGraph(ids, manifests, invalid);
    WithoutKeeps(ids, refused);
    var sorted := Sort(ids, deps, refused);
    forall x | x in g.active { ClosedBlocked(g, x); }
    assert BlockedIds(g) == Cyclic(g);
    match sorted {
      case Ok(o) =>
        order := o;
      case Err(cycle) =>
        WithoutKeeps(g.active, SetOf(g.active) - BlockedIds(g));
        refused := refused + set x | x in cycle;
        order := Without(ids, refused);
        WithoutKeeps(ids, refused);
    }
  }
}
