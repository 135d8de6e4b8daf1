/** The registry's action index: one map for actions with a single live declarer, one for
    collisions, and one for dormant declarers, kept in step with the registered manifests. */
module ActionIndex {
  import opened Collections

  type PluginId = nat
  type Action = nat
  type Conn = nat

  datatype Entry = Entry(conn: Conn, actions: seq<Action>)

  datatype RegisterError = InvalidId | ConnTaken(conn: Conn) | IdTaken(id: PluginId)
  datatype Result<E> = Ok | Err(error: E)

  datatype Lookup =
    | Found(id: PluginId)
    | Dormant(id: PluginId)
    | Ambiguous(ids: seq<PluginId>)
    | NotFound

  /** The actions each plugin declares. */
  type Declared = map<PluginId, set<Action>>

  predicate Declares(decl: Declared, p: PluginId, a: Action) {
    p in decl && a in decl[p]
  }

  ghost function DeclaredBy(live: map<PluginId, Entry>): Declared {
    map p | p in live :: SetOf(live[p].actions)
  }

  ghost function DormantBy(dormant: map<PluginId, seq<Action>>): Declared {
    map p | p in dormant :: SetOf(dormant[p])
  }

  // --- the reference: a scan over all manifests ---

  ghost function Declarers(decl: Declared, a: Action): set<PluginId> {
    set p | p in decl && a in decl[p]
  }

  ghost predicate Agrees(r: Lookup, live: set<PluginId>, dormant: set<PluginId>) {
    match r
    case Found(p) => live == {p} && dormant <= {p}
    case Dormant(p) => live == {} && dormant == {p}
    case NotFound => live == {} && dormant == {}
    case Ambiguous(ids) =>
      && |live + dormant| >= 2 && Distinct(ids)
      && SetOf(ids) == if |live| >= 2 then live else live + dormant
  }

  /** The four answers exclude each other and cover every case, so each is given exactly when
      its condition holds. */
  lemma AgreesIff(r: Lookup, live: set<PluginId>, dormant: set<PluginId>)
    requires Agrees(r, live, dormant)
    ensures r.Found? <==> exists p :: live == {p} && dormant <= {p}
    ensures r.Dormant? <==> live == {} && exists p :: dormant == {p}
    ensures r.NotFound? <==> live + dormant == {}
    ensures r.Ambiguous? <==> |live + dormant| >= 2
  {
    forall p | live <= {p} && dormant <= {p} ensures |live + dormant| <= 1 {
      SubsetSize(live + dormant, {p});
    }
  }

  lemma TwoMembers(s: set<PluginId>, x: PluginId, y: PluginId)
    requires x in s && y in s && x != y
    ensures |s| >= 2
  {
    assert {x, y} <= s;
    SubsetSize({x, y}, s);
  }

  // --- the index, action by action ---

  datatype Index = Index(single: map<Action, PluginId>, colliding: map<Action, seq<PluginId>>)

  /** What the index holds for `a` is what the manifests declare. */
  ghost predicate ExactFor(ix: Index, decl: Declared, a: Action) {
    && (a in ix.single ==> a !in ix.colliding && forall p :: Declares(decl, p, a) <==> p == ix.single[a])
    && (a in ix.colliding ==>
          && |ix.colliding[a]| >= 2 && Distinct(ix.colliding[a])
          && forall p :: Declares(decl, p, a) <==> p in ix.colliding[a])
    && (a !in ix.single && a !in ix.colliding ==> forall p :: !Declares(decl, p, a))
  }

  ghost predicate Exact(ix: Index, decl: Declared) {
    forall a :: ExactFor(ix, decl, a)
  }

  function With(ids: seq<PluginId>, p: PluginId): seq<PluginId> {
    if p in ids then ids else ids + [p]
  }

  function Except(ids: seq<PluginId>, p: PluginId): seq<PluginId> {
    Without(ids, {p})
  }

  /** Without one of at least two distinct members, at least one is left. */
  lemma ExceptSize(ids: seq<PluginId>, p: PluginId)
    requires |ids| >= 2 && Distinct(ids)
    ensures Except(ids, p) != []
  {
    WithoutKeeps(ids, {p});
    assert ids[0] in ids && ids[1] in ids;
  }

  function IndexAction(ix: Index, a: Action, p: PluginId): Index {
    if a in ix.colliding then ix.(colliding := ix.colliding[a := With(ix.colliding[a], p)])
    else if a in ix.single then
      if ix.single[a] == p then ix
      else Index(ix.single - {a}, ix.colliding[a := [ix.single[a], p]])
    else ix.(single := ix.single[a := p])
  }

  function UnindexAction(ix: Index, a: Action, p: PluginId): Index {
    var colliding := if a in ix.colliding then ix.colliding[a := Except(ix.colliding[a], p)] else ix.colliding;
    if a in colliding && |colliding[a]| == 1 then Index(ix.single[a := colliding[a][0]], colliding - {a})
    else if a in ix.single && ix.single[a] == p then Index(ix.single - {a}, colliding)
    else Index(ix.single, colliding)
  }

  lemma IndexExact(ix: Index, decl: Declared, a: Action, p: PluginId)
    requires Exact(ix, decl) && p in decl
    ensures Exact(IndexAction(ix, a, p), decl[p := decl[p] + {a}])
  {
    var (ix', decl') := (IndexAction(ix, a, p), decl[p := decl[p] + {a}]);
    forall b ensures ExactFor(ix', decl', b) {
      assert ExactFor(ix, decl, b);
      assert forall q :: Declares(decl', q, b) <==> Declares(decl, q, b) || (q == p && b == a);
    }
  }

  lemma UnindexExact(ix: Index, decl: Declared, a: Action, p: PluginId)
    requires Exact(ix, decl) && p in decl
    ensures Exact(UnindexAction(ix, a, p), decl[p := decl[p] - {a}])
  {
    var (ix', decl') := (UnindexAction(ix, a, p), decl[p := decl[p] - {a}]);
    assert ExactFor(ix, decl, a);
    if a in ix.colliding {
      WithoutKeeps(ix.colliding[a], {p});
      ExceptSize(ix.colliding[a], p);
    }
    forall b ensures ExactFor(ix', decl', b) {
      assert ExactFor(ix, decl, b);
      assert forall q :: Declares(decl', q, b) <==> Declares(decl, q, b) && !(q == p && b == a);
    }
  }

  /** A plugin that declares nothing leaves no trace. */
  lemma ExactSame(ix: Index, decl: Declared, decl': Declared)
    requires Exact(ix, decl) && forall p, a :: Declares(decl, p, a) <==> Declares(decl', p, a)
    ensures Exact(ix, decl')
  {
    forall a ensures ExactFor(ix, decl', a) { assert ExactFor(ix, decl, a); }
  }

  // --- dormant declarers ---

  ghost predicate ListsFor(index: map<Action, seq<PluginId>>, decl: Declared, a: Action) {
    if a in index then index[a] != [] && Distinct(index[a]) && forall p :: Declares(decl, p, a) <==> p in index[a]
    else forall p :: !Declares(decl, p, a)
  }

  ghost predicate Lists(index: map<Action, seq<PluginId>>, decl: Declared) {
    forall a :: ListsFor(index, decl, a)
  }

  function AddDormant(index: map<Action, seq<PluginId>>, a: Action, p: PluginId): map<Action, seq<PluginId>> {
    index[a := With(if a in index then index[a] else [], p)]
  }

  function DropDormant(index: map<Action, seq<PluginId>>, a: Action, p: PluginId): map<Action, seq<PluginId>> {
    if a !in index then index
    else if Except(index[a], p) == [] then index - {a}
    else index[a := Except(index[a], p)]
  }

  lemma AddLists(index: map<Action, seq<PluginId>>, decl: Declared, a: Action, p: PluginId)
    requires Lists(index, decl) && p in decl
    ensures Lists(AddDormant(index, a, p), decl[p := decl[p] + {a}])
  {
    var (index', decl') := (AddDormant(index, a, p), decl[p := decl[p] + {a}]);
    forall b ensures ListsFor(index', decl', b) {
      assert ListsFor(index, decl, b);
      assert forall q :: Declares(decl', q, b) <==> Declares(decl, q, b) || (q == p && b == a);
    }
  }

  lemma DropLists(index: map<Action, seq<PluginId>>, decl: Declared, a: Action, p: PluginId)
    requires Lists(index, decl) && p in decl
    ensures Lists(DropDormant(index, a, p), decl[p := decl[p] - {a}])
  {
    var (index', decl') := (DropDormant(index, a, p), decl[p := decl[p] - {a}]);
    if a in index { WithoutKeeps(index[a], {p}); }
    forall b ensures ListsFor(index', decl', b) {
      assert ListsFor(index, decl, b);
      assert forall q :: Declares(decl', q, b) <==> Declares(decl, q, b) && !(q == p && b == a);
    }
  }

  lemma ListsSame(index: map<Action, seq<PluginId>>, decl: Declared, decl': Declared)
    requires Lists(index, decl) && forall p, a :: Declares(decl, p, a) <==> Declares(decl', p, a)
    ensures Lists(index, decl')
  {
    forall a ensures ListsFor(index, decl', a) { assert ListsFor(index, decl, a); }
  }

  // --- connections ---

  /** Connections and plugins point at each other. */
  ghost predicate Inverse(byPlugin: map<PluginId, Entry>, byConn: map<Conn, PluginId>) {
    && (forall p :: p in byPlugin ==> byPlugin[p].conn in byConn && byConn[byPlugin[p].conn] == p)
    && (forall c :: c in byConn ==> byConn[c] in byPlugin && byPlugin[byConn[c]].conn == c)
  }

  // --- the registry ---

  class PluginRegistry {
    var byPluginId: map<PluginId, Entry>
    var byConnId: map<Conn, PluginId>
    var actionIndex: map<Action, PluginId>
    var ambiguousActions: map<Action, seq<PluginId>>
    var dormant: map<PluginId, seq<Action>>
    var dormantActions: map<Action, seq<PluginId>>

    /** The connection map and the two action indexes hold exactly what the entries say. */
    ghost predicate Valid()
      reads this
    {
      && Inverse(byPluginId, byConnId)
      && Exact(Index(actionIndex, ambiguousActions), DeclaredBy(byPluginId))
      && Lists(dormantActions, DormantBy(dormant))
    }

    constructor ()
      ensures Valid() && byPluginId == map[] && dormant == map[]
    {
      byPluginId, byConnId := map[], map[];
      actionIndex, ambiguousActions, dormant, dormantActions := map[], map[], map[], map[];
    }

    method IndexOne(a: Action, p: PluginId)
      modifies this`actionIndex, this`ambiguousActions
      ensures Index(actionIndex, ambiguousActions) == IndexAction(old(Index(actionIndex, ambiguousActions)), a, p)
    {
      if a in ambiguousActions {
        if p !in ambiguousActions[a] {
          ambiguousActions := ambiguousActions[a := ambiguousActions[a] + [p]];
        } else {
          assert ambiguousActions[a := ambiguousActions[a]] == ambiguousActions;
        }
        return;
      }
      if a in actionIndex {
        if actionIndex[a] == p {
          return;
        }
        var existing := actionIndex[a];
        actionIndex := actionIndex - {a};
        ambiguousActions := ambiguousActions[a := [existing, p]];
      } else {
        actionIndex := actionIndex[a := p];
      }
    }

    method UnindexOne(a: Action, p: PluginId)
      modifies this`actionIndex, this`ambiguousActions
      ensures Index(actionIndex, ambiguousActions) == UnindexAction(old(Index(actionIndex, ambiguousActions)), a, p)
    {
      if a in ambiguousActions {
        ambiguousActions := ambiguousActions[a := Except(ambiguousActions[a], p)];
        if |ambiguousActions[a]| == 1 {
          var only := ambiguousActions[a][0];
          ambiguousActions := ambiguousActions - {a};
          actionIndex := actionIndex[a := only];
          return;
        }
      }
      if a in actionIndex && actionIndex[a] == p {
        actionIndex := actionIndex - {a};
      }
    }

    /** A free id on a free connection is registered, and each of its actions is indexed. */
    method Register(p: PluginId, conn: Conn, actions: seq<Action>, validId: bool) returns (r: Result<RegisterError>)
      requires Valid()
      modifies this
      ensures Valid() && dormant == old(dormant)
      ensures r == if !validId then Err(InvalidId)
                   else if conn in old(byConnId) then Err(ConnTaken(conn))
                   else if p in old(byPluginId) then Err(IdTaken(p))
                   else Ok
      ensures byPluginId == if r.Ok? then old(byPluginId)[p := Entry(conn, actions)] else old(byPluginId)
    {
      if !validId { return Err(InvalidId); }
      if conn in byConnId { return Err(ConnTaken(conn)); }
      if p in byPluginId { return Err(IdTaken(p)); }
      ghost var live: Declared := DeclaredBy(byPluginId);
      byConnId := byConnId[conn := p];
      ExactSame(Index(actionIndex, ambiguousActions), live, live[p := {}]);
      assert SetOf(actions[..0]) == {};
      for i := 0 to |actions|
        invariant Exact(Index(actionIndex, ambiguousActions), live[p := SetOf(actions[..i])])
        invariant unchanged(`byPluginId, `dormant, `dormantActions) && byConnId == old(byConnId)[conn := p]
      {
        SetOfSnoc(actions, i);
        IndexExact(Index(actionIndex, ambiguousActions), live[p := SetOf(actions[..i])], actions[i], p);
        IndexOne(actions[i], p);
        assert live[p := SetOf(actions[..i])][p := SetOf(actions[..i + 1])] == live[p := SetOf(actions[..i + 1])];
      }
      assert actions[..|actions|] == actions;
      byPluginId := byPluginId[p := Entry(conn, actions)];
      assert DeclaredBy(byPluginId) == live[p := SetOf(actions)];
      r := Ok;
    }

    /** The entry goes if the predicate holds of it, and its actions leave the index. */
    method UnregisterIf(p: PluginId, pred: Entry -> bool) returns (removed: bool)
      requires Valid()
      modifies this
      ensures Valid() && dormant == old(dormant)
      ensures removed <==> p in old(byPluginId) && pred(old(byPluginId)[p])
      ensures byPluginId == if removed then old(byPluginId) - {p} else old(byPluginId)
    {
      if p !in byPluginId || !pred(byPluginId[p]) { return false; }
      ghost var live: Declared := DeclaredBy(byPluginId);
      var entry := byPluginId[p];
      var actions := entry.actions;
      byPluginId := byPluginId - {p};
      byConnId := byConnId - {entry.conn};
      assert SetOf(actions) - SetOf(actions[..0]) == SetOf(actions) && live[p := SetOf(actions)] == live;
      for i := 0 to |actions|
        invariant Exact(Index(actionIndex, ambiguousActions), live[p := SetOf(actions) - SetOf(actions[..i])])
        invariant unchanged(`dormant, `dormantActions)
        invariant byPluginId == old(byPluginId) - {p} && byConnId == old(byConnId) - {entry.conn}
      {
        ghost var decl := live[p := SetOf(actions) - SetOf(actions[..i])];
        SetOfSnoc(actions, i);
        assert SetOf(actions) - SetOf(actions[..i + 1]) == SetOf(actions) - SetOf(actions[..i]) - {actions[i]};
        UnindexExact(Index(actionIndex, ambiguousActions), decl, actions[i], p);
        UnindexOne(actions[i], p);
        assert decl[p := decl[p] - {actions[i]}] == live[p := SetOf(actions) - SetOf(actions[..i + 1])];
      }
      assert actions[..|actions|] == actions && SetOf(actions) - SetOf(actions) == {};
      ExactSame(Index(actionIndex, ambiguousActions), live[p := {}], DeclaredBy(byPluginId));
      removed := true;
    }

    method AddDormantOne(a: Action, p: PluginId)
      modifies this`dormantActions
      ensures dormantActions == AddDormant(old(dormantActions), a, p)
    {
      var ids := if a in dormantActions then dormantActions[a] else [];
      if p !in ids {
        ids := ids + [p];
      }
      dormantActions := dormantActions[a := ids];
    }

    method DropDormantOne(a: Action, p: PluginId)
      modifies this`dormantActions
      ensures dormantActions == DropDormant(old(dormantActions), a, p)
    {
      if a in dormantActions {
        dormantActions := dormantActions[a := Except(dormantActions[a], p)];
      }
      if a in dormantActions && dormantActions[a] == [] {
        dormantActions := dormantActions - {a};
      }
    }

    method DropDormantActions(p: PluginId)
      requires Valid()
      modifies this`dormant, this`dormantActions
      ensures Valid() && dormant == old(dormant) - {p}
    {
      if p !in dormant {
        assert dormant - {p} == dormant;
        return;
      }
      ghost var decl: Declared := DormantBy(dormant);
      var specs := dormant[p];
      dormant := dormant - {p};
      assert SetOf(specs) - SetOf(specs[..0]) == SetOf(specs) && decl[p := SetOf(specs)] == decl;
      for i := 0 to |specs|
        invariant Lists(dormantActions, decl[p := SetOf(specs) - SetOf(specs[..i])])
        invariant dormant == old(dormant) - {p}
      {
        ghost var now := decl[p := SetOf(specs) - SetOf(specs[..i])];
        SetOfSnoc(specs, i);
        assert SetOf(specs) - SetOf(specs[..i + 1]) == SetOf(specs) - SetOf(specs[..i]) - {specs[i]};
        DropLists(dormantActions, now, specs[i], p);
        DropDormantOne(specs[i], p);
        assert now[p := now[p] - {specs[i]}] == decl[p := SetOf(specs) - SetOf(specs[..i + 1])];
      }
      assert specs[..|specs|] == specs && SetOf(specs) - SetOf(specs) == {};
      ListsSame(dormantActions, decl[p := {}], DormantBy(dormant));
    }

    /** A lazy plugin's record, in place of an earlier one of its id. */
    method RegisterDormant(p: PluginId, specs: seq<Action>)
      requires Valid()
      modifies this`dormant, this`dormantActions
      ensures Valid() && dormant == old(dormant)[p := specs]
    {
      DropDormantActions(p);
      ghost var decl: Declared := DormantBy(dormant);
      ListsSame(dormantActions, decl, decl[p := {}]);
      assert SetOf(specs[..0]) == {};
      for i := 0 to |specs|
        invariant Lists(dormantActions, decl[p := SetOf(specs[..i])])
        invariant dormant == old(dormant) - {p}
      {
        AddLists(dormantActions, decl[p := SetOf(specs[..i])], specs[i], p);
        AddDormantOne(specs[i], p);
        SetOfSnoc(specs, i);
        assert decl[p := SetOf(specs[..i])][p := SetOf(specs[..i + 1])] == decl[p := SetOf(specs[..i + 1])];
      }
      assert specs[..|specs|] == specs;
      dormant := dormant[p := specs];
      assert DormantBy(dormant) == decl[p := SetOf(specs)];
    }

    /** The lookup agrees with a scan over every manifest, live and dormant. */
    method FindActionProvider(a: Action) returns (r: Lookup)
      requires Valid()
      ensures Agrees(r, Declarers(DeclaredBy(byPluginId), a), Declarers(DormantBy(dormant), a))
    {
      ghost var (live, asleep) := (Declarers(DeclaredBy(byPluginId), a), Declarers(DormantBy(dormant), a));
      ExactDeclarers(Index(actionIndex, ambiguousActions), DeclaredBy(byPluginId), a);
      ListsDeclarers(dormantActions, DormantBy(dormant), a);
      if a in ambiguousActions {
        CollidingAgrees(ambiguousActions[a], live, asleep);
        return Ambiguous(ambiguousActions[a]);
      }
      assert a in actionIndex ==> actionIndex[a] in live && actionIndex[a] in byPluginId;
      var ids := if a in dormantActions then dormantActions[a] else [];
      if a in actionIndex && actionIndex[a] in byPluginId {
        r := MergeDormant(actionIndex[a], ids);
      } else {
        r := OnlyDormant(ids);
      }
    }
  }

  /** One live declarer, and the dormant ones. */
  method MergeDormant(p: PluginId, ids: seq<PluginId>) returns (r: Lookup)
    requires Distinct(ids)
    ensures Agrees(r, {p}, SetOf(ids))
  {
    if forall id :: id in ids ==> id == p {
      return Found(p);
    }
    MergedAgrees(p, ids);
    r := Ambiguous([p] + Except(ids, p));
  }

  method OnlyDormant(ids: seq<PluginId>) returns (r: Lookup)
    requires Distinct(ids)
    ensures Agrees(r, {}, SetOf(ids))
  {
    if |ids| == 0 {
      r := NotFound;
    } else if |ids| == 1 {
      r := Dormant(ids[0]);
    } else {
      CollidingAgrees(ids, SetOf(ids), {});
      assert {} + SetOf(ids) == SetOf(ids);
      r := Ambiguous(ids);
    }
  }

  lemma ExactDeclarers(ix: Index, decl: Declared, a: Action)
    requires Exact(ix, decl)
    ensures a in ix.colliding ==>
      |ix.colliding[a]| >= 2 && Distinct(ix.colliding[a]) && SetOf(ix.colliding[a]) == Declarers(decl, a)
    ensures a in ix.single ==> Declarers(decl, a) == {ix.single[a]}
    ensures a !in ix.single && a !in ix.colliding ==> Declarers(decl, a) == {}
  {
    assert ExactFor(ix, decl, a);
    assert forall p :: p in Declarers(decl, a) <==> Declares(decl, p, a);
  }

  lemma ListsDeclarers(index: map<Action, seq<PluginId>>, decl: Declared, a: Action)
    requires Lists(index, decl)
    ensures var ids := if a in index then index[a] else [];
      Distinct(ids) && SetOf(ids) == Declarers(decl, a)
  {
    assert ListsFor(index, decl, a);
    assert forall p :: p in Declarers(decl, a) <==> Declares(decl, p, a);
  }

  lemma SetOfSnoc(s: seq<Action>, i: nat)
    requires i < |s|
    ensures SetOf(s[..i + 1]) == SetOf(s[..i]) + {s[i]}
  {
    assert s[..i + 1] == s[..i] + [s[i]];
  }

  lemma CollidingAgrees(ids: seq<PluginId>, live: set<PluginId>, dormant: set<PluginId>)
    requires |ids| >= 2 && Distinct(ids) && SetOf(ids) == live
    ensures Agrees(Ambiguous(ids), live, dormant) && |live| >= 2
  {
    assert ids[0] in live && ids[1] in live;
    TwoMembers(live, ids[0], ids[1]);
    TwoMembers(live + dormant, ids[0], ids[1]);
  }

  lemma MergedAgrees(p: PluginId, ids: seq<PluginId>)
    requires Distinct(ids) && exists id :: id in ids && id != p
    ensures Agrees(Ambiguous([p] + Except(ids, p)), {p}, SetOf(ids))
  {
    WithoutKeeps(ids, {p});
    var id :| id in ids && id != p;
    TwoMembers({p} + SetOf(ids), p, id);
    assert SetOf([p] + Except(ids, p)) == {p} + SetOf(ids);
  }
}
