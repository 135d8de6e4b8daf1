/** Registration against disconnects: the router, the bridge, the disconnect loop and explicit
    stops interleave between single operations on the registry's two connection maps and its
    action index. */
module Reconnect {
  type PluginId = nat
  type Conn = nat

  /** The one connection id that is used again, each time the bridge comes up. */
  const BRIDGE: Conn := 2_000_000_000

  /** Where the disconnect loop is: between two messages, or holding the plugin it found for a
      connection. */
  datatype Loop = Waiting | Holding(conn: Conn, plugin: PluginId)

  type Action = nat

  /** Where the router is with a registration of `plugin` from `conn` that declares `actions`: about
      to evict a holder it found dead, unindexing the `rest` of that holder's actions, or about to
      register. `evicted` says that the previous holder was found dead. */
  datatype Router =
    | Idle
    | Evicting(conn: Conn, plugin: PluginId, actions: set<Action>)
    | Clearing(conn: Conn, plugin: PluginId, actions: set<Action>, rest: set<Action>)
    | Registering(conn: Conn, plugin: PluginId, actions: set<Action>, evicted: bool)

  datatype State = State(
    byPlugin: map<PluginId, Conn>,
    byConn: map<Conn, PluginId>,
    leaving: set<Conn>,              // removed from the first map, not yet from the second
    declared: map<PluginId, set<Action>>, // the actions of each id's last registration
    indexed: set<(PluginId, Action)>,
    tails: multiset<(PluginId, Action)>, // what removals by others than the router have still to unindex
    open: set<Conn>,                 // connections whose write channel is open
    seen: set<Conn>,                 // every connection id handed out
    queue: seq<Conn>,                // disconnects signalled and not yet handled
    loop: Loop,
    router: Router
  )

  datatype Event =
    | Open(conn: Conn)
    | Close(conn: Conn)                           // the write channel closes
    | Signal(conn: Conn)                          // ... and then the disconnect is signalled
    | LoopTake
    | LoopRemove
    | RouterCheck(conn: Conn, plugin: PluginId, actions: set<Action>) // a registration message arrives
    | RouterEvict
    | RouterUnindex(action: Action)               // the rest of the router's own removal
    | RouterCleared
    | RouterRegister
    | BridgeUp(plugin: PluginId)                  // the bridge registers its device, with no actions
    | BridgeDown                                  // its channel closes
    | Stop(plugin: PluginId)                      // a manager, bridge or shutdown removal
    | Finish(conn: Conn)                          // a removal reaches the second map
    | Unindex(plugin: PluginId, action: Action)   // ... and, action by action, the index

  predicate Enabled(s: State, e: Event) {
    match e
    case Open(c) => c !in s.seen && c != BRIDGE
    case Close(c) => c in s.open && c != BRIDGE
    case Signal(c) => c in s.seen && c !in s.open && c != BRIDGE
    case LoopTake => s.loop.Waiting? && s.queue != []
    case LoopRemove => s.loop.Holding?
    case RouterCheck(c, _, _) => s.router.Idle? && c in s.seen
    case RouterEvict => s.router.Evicting?
    case RouterUnindex(a) => s.router.Clearing? && a in s.router.rest
    case RouterCleared => s.router.Clearing? && s.router.rest == {}
    case RouterRegister => s.router.Registering?
    case BridgeUp(_) => true
    case BridgeDown => true
    case Stop(_) => true
    case Finish(c) => c in s.leaving
    case Unindex(p, a) => (p, a) in s.tails
  }

  function Declared(s: State, p: PluginId): set<Action> {
    if p in s.declared then s.declared[p] else {}
  }

  function Rows(p: PluginId, actions: set<Action>): set<(PluginId, Action)> {
    set a | a in actions :: (p, a)
  }

  /** The first part of a removal: the id is free from here on. */
  function Remove(s: State, p: PluginId): State
    requires p in s.byPlugin
  {
    s.(byPlugin := s.byPlugin - {p}, leaving := s.leaving + {s.byPlugin[p]})
  }

  function RemoveByOther(s: State, p: PluginId): State
    requires p in s.byPlugin
  {
    Remove(s, p).(tails := s.tails + multiset(Rows(p, Declared(s, p))))
  }

  /** A free id on a free connection is entered in both maps and its actions are indexed. */
  function Entered(s: State, p: PluginId, c: Conn, actions: set<Action>): State {
    if c !in s.byConn && p !in s.byPlugin
    then s.(byPlugin := s.byPlugin[p := c], byConn := s.byConn[c := p],
            declared := s.declared[p := actions], indexed := s.indexed + Rows(p, actions))
    else s
  }

  predicate Dead(s: State, p: PluginId) {
    p in s.byPlugin && s.byPlugin[p] !in s.open
  }

  function Taken(s: State): State
    requires s.queue != []
  {
    var c := s.queue[0];
    s.(queue := s.queue[1..],
       loop := if c in s.byConn && s.byConn[c] in s.byPlugin then Holding(c, s.byConn[c]) else Waiting)
  }

  /** The loop removes the plugin it found only while the connection still holds it. */
  function LoopRemoved(s: State): State
    requires s.loop.Holding?
  {
    var (c, p) := (s.loop.conn, s.loop.plugin);
    (if p in s.byPlugin && s.byPlugin[p] == c then RemoveByOther(s, p) else s).(loop := Waiting)
  }

  function Checked(s: State, c: Conn, p: PluginId, actions: set<Action>): State {
    s.(router := if Dead(s, p) then Evicting(c, p, actions) else Registering(c, p, actions, false))
  }

  function Evicted(s: State): State
    requires s.router.Evicting?
  {
    var Evicting(c, p, actions) := s.router;
    if Dead(s, p) then Remove(s, p).(router := Clearing(c, p, actions, Declared(s, p)))
    else s.(router := Registering(c, p, actions, true))
  }

  predicate Registers(s: State)
    requires s.router.Registering?
  {
    s.router.conn !in s.byConn && s.router.plugin !in s.byPlugin
  }

  function Registered(s: State): State
    requires s.router.Registering?
  {
    Entered(s, s.router.plugin, s.router.conn, s.router.actions).(router := Idle)
  }

  function Step(s: State, e: Event): State
    requires Enabled(s, e)
  {
    match e
    case Open(c) => s.(open := s.open + {c}, seen := s.seen + {c})
    case Close(c) => s.(open := s.open - {c})
    case Signal(c) => s.(queue := s.queue + [c])
    case LoopTake => Taken(s)
    case LoopRemove => LoopRemoved(s)
    case RouterCheck(c, p, actions) => Checked(s, c, p, actions)
    case RouterEvict => Evicted(s)
    case RouterUnindex(a) =>
      s.(indexed := s.indexed - {(s.router.plugin, a)}, router := s.router.(rest := s.router.rest - {a}))
    case RouterCleared => s.(router := Registering(s.router.conn, s.router.plugin, s.router.actions, true))
    case RouterRegister => Registered(s)
    case BridgeUp(p) =>
      if BRIDGE !in s.byConn && p !in s.byPlugin
      then Entered(s, p, BRIDGE, {}).(open := s.open + {BRIDGE}, seen := s.seen + {BRIDGE}) else s
    case BridgeDown => s.(open := s.open - {BRIDGE})
    case Stop(p) => if p in s.byPlugin then RemoveByOther(s, p) else s
    case Finish(c) => s.(byConn := s.byConn - {c}, leaving := s.leaving - {c})
    case Unindex(p, a) => s.(indexed := s.indexed - {(p, a)}, tails := s.tails - multiset{(p, a)})
  }

  predicate IsRun(s: State, es: seq<Event>)
    decreases |es|
  {
    es == [] || (Enabled(s, es[0]) && IsRun(Step(s, es[0]), es[1..]))
  }

  function Run(s: State, es: seq<Event>): State
    requires IsRun(s, es)
    decreases |es|
  {
    if es == [] then s else Run(Step(s, es[0]), es[1..])
  }

  const EMPTY: State := State(map[], map[], {}, map[], {}, multiset{}, {}, {}, [], Waiting, Idle)

  ghost predicate Reachable(s: State) {
    exists es :: IsRun(EMPTY, es) && Run(EMPTY, es) == s
  }

  // --- the invariant ---

  /** Each registered plugin's connection points back at it; a connection points at a plugin it
      holds, unless it is on its way out. */
  ghost predicate Paired(s: State) {
    && (forall p :: p in s.byPlugin ==> s.byPlugin[p] in s.byConn && s.byConn[s.byPlugin[p]] == p)
    && (forall p :: p in s.byPlugin ==> s.byPlugin[p] !in s.leaving)
    && (forall c :: c in s.byConn && c !in s.leaving ==> s.byConn[c] in s.byPlugin && s.byPlugin[s.byConn[c]] == c)
    && s.leaving <= s.byConn.Keys
  }

  /** The loop works only on closed connections. */
  ghost predicate LoopClosed(s: State) {
    && (forall i :: 0 <= i < |s.queue| ==> s.queue[i] in s.seen && s.queue[i] !in s.open && s.queue[i] != BRIDGE)
    && (s.loop.Holding? ==> s.loop.conn in s.seen && s.loop.conn !in s.open && s.loop.conn != BRIDGE)
  }

  ghost predicate Seen(s: State) {
    && s.open <= s.seen
    && (forall p :: p in s.byPlugin ==> s.byPlugin[p] in s.seen)
    && (!s.router.Idle? ==> s.router.conn in s.seen)
  }

  ghost predicate Inv(s: State) {
    Paired(s) && LoopClosed(s) && Seen(s)
  }

  lemma RemovePaired(s: State, p: PluginId)
    requires Paired(s) && p in s.byPlugin
    ensures Paired(Remove(s, p))
  {
  }

  lemma EnterPaired(s: State, p: PluginId, c: Conn, actions: set<Action>)
    requires Paired(s)
    ensures Paired(Entered(s, p, c, actions))
  {
  }

  /** The parts of the state the maps do not depend on. */
  lemma SamePaired(s: State, t: State)
    requires Paired(s) && t.byPlugin == s.byPlugin && t.byConn == s.byConn && t.leaving == s.leaving
    ensures Paired(t)
  {
  }

  lemma PairedStep(s: State, e: Event)
    requires Paired(s) && Enabled(s, e)
    ensures Paired(Step(s, e))
  {
    match e {
      case LoopRemove => if s.loop.plugin in s.byPlugin { RemovePaired(s, s.loop.plugin); }
      case RouterEvict => if s.router.plugin in s.byPlugin { RemovePaired(s, s.router.plugin); }
      case Stop(p) => if p in s.byPlugin { RemovePaired(s, p); }
      case RouterRegister => EnterPaired(s, s.router.plugin, s.router.conn, s.router.actions);
      case BridgeUp(p) => EnterPaired(s, p, BRIDGE, {});
      case Finish(_) =>
      case _ => SamePaired(s, Step(s, e));
    }
  }

  lemma LoopClosedStep(s: State, e: Event)
    requires LoopClosed(s) && Enabled(s, e)
    ensures LoopClosed(Step(s, e))
  {
  }

  lemma SeenStep(s: State, e: Event)
    requires Seen(s) && Enabled(s, e)
    ensures Seen(Step(s, e))
  {
  }

  lemma InvStep(s: State, e: Event)
    requires Inv(s) && Enabled(s, e)
    ensures Inv(Step(s, e))
  {
    PairedStep(s, e);
    LoopClosedStep(s, e);
    SeenStep(s, e);
  }

  lemma {:induction false} InvRun(s: State, es: seq<Event>)
    requires Inv(s) && IsRun(s, es)
    ensures Inv(Run(s, es))
    decreases |es|
  {
    if es != [] {
      InvStep(s, es[0]);
      InvRun(Step(s, es[0]), es[1..]);
    }
  }

  lemma ReachableInv(s: State)
    requires Reachable(s)
    ensures Inv(s)
  {
    var es :| IsRun(EMPTY, es) && Run(EMPTY, es) == s;
    InvRun(EMPTY, es);
  }

  // --- what the interleavings keep ---

  /** The two maps are inverse to each other but for removals that are half done. */
  lemma MapsInverse(s: State)
    requires Reachable(s)
    ensures forall p, c ::
      p in s.byPlugin && s.byPlugin[p] == c <==> c in s.byConn && s.byConn[c] == p && c !in s.leaving
  {
    ReachableInv(s);
  }

  /** No step of the disconnect loop, and no registration under the same id, takes a registration
      away from a connection that is still open. */
  lemma OpenKept(s: State, e: Event, p: PluginId)
    requires Inv(s) && Enabled(s, e) && p in s.byPlugin && s.byPlugin[p] in s.open && e != Stop(p)
    ensures p in Step(s, e).byPlugin && Step(s, e).byPlugin[p] == s.byPlugin[p]
  {
    match e {
      case LoopRemove => assert s.loop.plugin == p ==> s.byPlugin[p] != s.loop.conn;
      case RouterEvict => assert s.router.plugin == p ==> !Dead(s, p);
      case _ =>
    }
  }

  predicate Closes(e: Event, c: Conn) {
    e == Close(c) || (e == BridgeDown && c == BRIDGE)
  }

  /** ... over any run, until the connection closes or the plugin is stopped. */
  lemma {:induction false} OpenSurvives(s: State, es: seq<Event>, p: PluginId)
    requires Inv(s) && IsRun(s, es) && p in s.byPlugin && s.byPlugin[p] in s.open
    requires forall i :: 0 <= i < |es| ==> es[i] != Stop(p) && !Closes(es[i], s.byPlugin[p])
    ensures p in Run(s, es).byPlugin && Run(s, es).byPlugin[p] == s.byPlugin[p]
    decreases |es|
  {
    if es != [] {
      OpenKept(s, es[0], p);
      InvStep(s, es[0]);
      OpenSurvives(Step(s, es[0]), es[1..], p);
    }
  }

  // --- reconnecting ---

  /** What the router relies on: a holder found dead stays dead, and once evicted its id stays free. */
  ghost predicate Claims(s: State) {
    && (s.router.Evicting? && s.router.plugin in s.byPlugin ==> s.byPlugin[s.router.plugin] !in s.open)
    && (s.router.Clearing? ==> s.router.plugin !in s.byPlugin)
    && (s.router.Registering? && s.router.evicted ==> s.router.plugin !in s.byPlugin)
  }

  /** The bridge registers the very id the router is registering. */
  predicate Clashes(s: State, e: Event) {
    e.BridgeUp? && !s.router.Idle? && e.plugin == s.router.plugin
  }

  ghost predicate Apart(s: State, es: seq<Event>)
    requires IsRun(s, es)
    decreases |es|
  {
    es == [] || (!Clashes(s, es[0]) && Apart(Step(s, es[0]), es[1..]))
  }

  lemma ClaimsStep(s: State, e: Event)
    requires Inv(s) && Claims(s) && Enabled(s, e) && !Clashes(s, e)
    ensures Claims(Step(s, e))
  {
  }

  lemma {:induction false} ClaimsRun(s: State, es: seq<Event>)
    requires Inv(s) && Claims(s) && IsRun(s, es) && Apart(s, es)
    ensures Claims(Run(s, es))
    decreases |es|
  {
    if es != [] {
      ClaimsStep(s, es[0]);
      InvStep(s, es[0]);
      ClaimsRun(Step(s, es[0]), es[1..]);
    }
  }

  /** The router is replacing a dead holder of `p` by `c`. */
  predicate Claiming(s: State, c: Conn, p: PluginId, actions: set<Action>) {
    match s.router
    case Evicting(d, q, a) => d == c && q == p && a == actions
    case Clearing(d, q, a, _) => d == c && q == p && a == actions
    case Registering(d, q, a, evicted) => d == c && q == p && a == actions && evicted
    case Idle => false
  }

  lemma {:induction false} ClaimingRun(s: State, es: seq<Event>, c: Conn, p: PluginId, actions: set<Action>)
    requires Claiming(s, c, p, actions) && IsRun(s, es) && RouterRegister !in es
    ensures Claiming(Run(s, es), c, p, actions)
    decreases |es|
  {
    if es != [] { ClaimingRun(Step(s, es[0]), es[1..], c, p, actions); }
  }

  /** A registration message that finds the holder of its id dead: whatever runs before the router gets
      to register - the rest of the removal, the disconnect loop, stops, other connections - it then
      succeeds and has its actions indexed, unless its own connection already holds a registration
      or the bridge takes the id first. */
  lemma ReconnectSucceeds(s: State, c: Conn, p: PluginId, actions: set<Action>, es: seq<Event>)
    requires Reachable(s) && Enabled(s, RouterCheck(c, p, actions)) && p in s.byPlugin && s.byPlugin[p] !in s.open
    requires IsRun(Step(s, RouterCheck(c, p, actions)), es) && Apart(Step(s, RouterCheck(c, p, actions)), es)
    requires RouterRegister !in es
    ensures var t := Run(Step(s, RouterCheck(c, p, actions)), es);
      && Claiming(t, c, p, actions)
      && (Enabled(t, RouterRegister) && c !in t.byConn ==>
            && Step(t, RouterRegister).byPlugin == t.byPlugin[p := c]
            && forall a :: a in actions ==> (p, a) in Step(t, RouterRegister).indexed)
  {
    var s1 := Step(s, RouterCheck(c, p, actions));
    ReachableInv(s);
    InvStep(s, RouterCheck(c, p, actions));
    ClaimsRun(s1, es);
    ClaimingRun(s1, es, c, p, actions);
  }

  /** ... and by its own steps alone the router gets there. */
  lemma {:induction false} RouterFinishes(t: State, c: Conn, p: PluginId, actions: set<Action>) returns (es: seq<Event>)
    requires Claiming(t, c, p, actions) && Claims(t)
    ensures IsRun(t, es) && Run(t, es).router == Registering(c, p, actions, true)
    ensures Run(t, es).byConn == t.byConn && Run(t, es).byPlugin == t.byPlugin - {p}
    decreases if t.router.Evicting? then 2 else if t.router.Clearing? then 1 else 0,
              if t.router.Clearing? then |t.router.rest| else 0
  {
    if t.router.Registering? {
      es := [];
      assert t.byPlugin - {p} == t.byPlugin;
    } else {
      var e: Event := RouterCleared;
      if t.router.Evicting? {
        e := RouterEvict;
      } else if a :| a in t.router.rest {
        e := RouterUnindex(a);
      }
      var rest := RouterFinishes(Step(t, e), c, p, actions);
      es := [e] + rest;
      assert es[1..] == rest;
      assert t.byPlugin - {p} - {p} == t.byPlugin - {p};
    }
  }

  /** From every reachable state in which a registration message finds the holder of its id dead, the
      router's own steps put the plugin on its new connection, with all its actions. */
  lemma DeadHolderReplaced(s: State, c: Conn, p: PluginId, actions: set<Action>) returns (es: seq<Event>)
    requires Reachable(s) && s.router.Idle? && c in s.seen && c !in s.byConn
    requires p in s.byPlugin && s.byPlugin[p] !in s.open
    ensures IsRun(s, es) && Run(s, es).byPlugin == s.byPlugin[p := c] && Run(s, es).router.Idle?
    ensures forall a :: a in actions ==> (p, a) in Run(s, es).indexed
  {
    var e := RouterCheck(c, p, actions);
    var mid := RouterFinishes(Step(s, e), c, p, actions);
    RunAppend(Step(s, e), mid, RouterRegister);
    es := [e] + (mid + [RouterRegister]);
    assert es[1..] == mid + [RouterRegister];
    assert (s.byPlugin - {p})[p := c] == s.byPlugin[p := c];
  }

  // --- disconnects ---

  /** Nothing is registered on `c`. */
  ghost predicate Vacated(s: State, c: Conn) {
    forall p :: p in s.byPlugin ==> s.byPlugin[p] != c
  }

  lemma HandlesHead(s: State) returns (es: seq<Event>)
    requires Inv(s) && s.loop.Waiting? && s.queue != []
    ensures IsRun(s, es) && Inv(Run(s, es)) && Run(s, es).loop.Waiting? && Run(s, es).queue == s.queue[1..]
    ensures Vacated(Run(s, es), s.queue[0])
  {
    var s1 := Taken(s);
    InvStep(s, LoopTake);
    assert IsRun(s1, []) && Run(s1, []) == s1;
    if s1.loop.Waiting? {
      es := [LoopTake];
      assert es[1..] == [];
    } else {
      es := [LoopTake, LoopRemove];
      var s2 := LoopRemoved(s1);
      InvStep(s1, LoopRemove);
      assert IsRun(s2, []) && Run(s2, []) == s2;
      assert es[1..] == [LoopRemove] && [LoopRemove][1..] == [];
    }
  }

  /** From every reachable state a signalled disconnect is handled: the loop's own steps leave nothing
      registered on the closed connection. */
  lemma {:induction false} DisconnectHandled(s: State, i: nat) returns (es: seq<Event>)
    requires Inv(s) && s.loop.Waiting? && i < |s.queue|
    ensures IsRun(s, es) && Vacated(Run(s, es), s.queue[i])
    decreases i
  {
    var first := HandlesHead(s);
    if i == 0 {
      es := first;
    } else {
      var rest := DisconnectHandled(Run(s, first), i - 1);
      es := first + rest;
      RunConcat(s, first, rest);
    }
  }

  /** The rows of `p` for these actions are unindexed one by one. */
  lemma {:induction false} UnindexesAll(s: State, p: PluginId, actions: set<Action>) returns (es: seq<Event>)
    requires forall a :: a in actions ==> (p, a) in s.tails
    ensures IsRun(s, es) && Run(s, es).byPlugin == s.byPlugin && Run(s, es).byConn == s.byConn
    ensures Run(s, es).indexed <= s.indexed && forall a :: a in actions ==> (p, a) !in Run(s, es).indexed
    decreases |actions|
  {
    if actions == {} {
      es := [];
    } else {
      var a :| a in actions;
      var t := Step(s, Unindex(p, a));
      var rest := UnindexesAll(t, p, actions - {a});
      es := [Unindex(p, a)] + rest;
      assert es[1..] == rest;
    }
  }

  /** A stopped plugin can leave for good: a run takes it off both maps, and all its actions off the
      index. */
  lemma StopCompletes(s: State, p: PluginId) returns (es: seq<Event>)
    requires p in s.byPlugin
    ensures IsRun(s, es) && p !in Run(s, es).byPlugin && s.byPlugin[p] !in Run(s, es).byConn
    ensures forall a :: a in Declared(s, p) ==> (p, a) !in Run(s, es).indexed
  {
    var (s1, c) := (Step(s, Stop(p)), s.byPlugin[p]);
    var s2 := Step(s1, Finish(c));
    forall a | a in Declared(s, p) ensures (p, a) in s2.tails {
      assert (p, a) in Rows(p, Declared(s, p));
    }
    var rest := UnindexesAll(s2, p, Declared(s, p));
    es := [Stop(p), Finish(c)] + rest;
    assert es[1..] == [Finish(c)] + rest && es[1..][1..] == rest;
  }

  lemma {:induction false} RunConcat(s: State, a: seq<Event>, b: seq<Event>)
    requires IsRun(s, a) && IsRun(Run(s, a), b)
    ensures IsRun(s, a + b) && Run(s, a + b) == Run(Run(s, a), b)
    decreases |a|
  {
    if a == [] {
      assert a + b == b;
    } else {
      assert (a + b)[1..] == a[1..] + b;
      RunConcat(Step(s, a[0]), a[1..], b);
    }
  }

  // --- the action index ---

  /** A removal of an earlier registration of `p` has still to unindex `a`. */
  predicate Trailing(s: State, p: PluginId, a: Action) {
    (p, a) in s.tails || (s.router.Clearing? && s.router.plugin == p && a in s.router.rest)
  }

  /** `p` keeps its registration throughout the run. */
  predicate Lasts(s: State, es: seq<Event>, p: PluginId)
    requires IsRun(s, es)
    decreases |es|
  {
    p in s.byPlugin
    && (es == [] || (p in Step(s, es[0]).byPlugin && Step(s, es[0]).byPlugin[p] == s.byPlugin[p]
                     && Lasts(Step(s, es[0]), es[1..], p)))
  }

  /** The removal of another plugin leaves nothing of `p` to unindex. */
  lemma OtherTails(s: State, q: PluginId, p: PluginId, a: Action)
    requires q in s.byPlugin && q != p
    ensures (p, a) in RemoveByOther(s, q).tails <==> (p, a) in s.tails
  {
    assert (p, a) !in Rows(q, Declared(s, q));
  }

  lemma IndexedStep(s: State, e: Event, p: PluginId, a: Action)
    requires Enabled(s, e) && (p, a) in s.indexed && !Trailing(s, p, a) && p in s.byPlugin && p in Step(s, e).byPlugin
    ensures (p, a) in Step(s, e).indexed && !Trailing(Step(s, e), p, a)
  {
    match e {
      case LoopRemove =>
        var q := s.loop.plugin;
        if q in s.byPlugin && s.byPlugin[q] == s.loop.conn { OtherTails(s, q, p, a); }
      case Stop(q) => if q in s.byPlugin { OtherTails(s, q, p, a); }
      case _ =>
    }
  }

  lemma {:induction false} IndexedRun(s: State, es: seq<Event>, p: PluginId, a: Action)
    requires (p, a) in s.indexed && !Trailing(s, p, a) && IsRun(s, es) && Lasts(s, es, p)
    ensures (p, a) in Run(s, es).indexed
    decreases |es|
  {
    if es != [] {
      IndexedStep(s, es[0], p, a);
      IndexedRun(Step(s, es[0]), es[1..], p, a);
    }
  }

  /** In every run that keeps the registration, `a` stays in the index. */
  ghost predicate KeepsAction(s: State, p: PluginId, a: Action) {
    forall es: seq<Event> :: IsRun(s, es) && Lasts(s, es, p) ==> (p, a) in Run(s, es).indexed
  }

  lemma OneMore(s: State, e: Event, p: PluginId, a: Action)
    requires Enabled(s, e) && p in s.byPlugin && Step(s, e).byPlugin == s.byPlugin && (p, a) !in Step(s, e).indexed
    ensures !KeepsAction(s, p, a)
  {
    assert [e][1..] == [];
    assert IsRun(Step(s, e), []) && Run(Step(s, e), []) == Step(s, e) && Lasts(Step(s, e), [], p);
    assert IsRun(s, [e]) && Lasts(s, [e], p) && Run(s, [e]) == Step(s, e);
  }

  /** A registered plugin keeps an indexed action in every run if and only if no removal of an earlier
      registration of its id has still to unindex that action. */
  lemma KeepsActionIff(s: State, p: PluginId, a: Action)
    requires p in s.byPlugin && (p, a) in s.indexed
    ensures KeepsAction(s, p, a) <==> !Trailing(s, p, a)
  {
    if (p, a) in s.tails {
      OneMore(s, Unindex(p, a), p, a);
    } else if Trailing(s, p, a) {
      OneMore(s, RouterUnindex(a), p, a);
    } else {
      forall es: seq<Event> | IsRun(s, es) && Lasts(s, es, p) ensures (p, a) in Run(s, es).indexed {
        IndexedRun(s, es, p, a);
      }
    }
  }

  lemma ReachableStep(s: State, e: Event, t: State)
    requires Reachable(s) && Enabled(s, e) && Step(s, e) == t
    ensures Reachable(t)
  {
    var es :| IsRun(EMPTY, es) && Run(EMPTY, es) == s;
    RunAppend(EMPTY, es, e);
  }

  lemma {:induction false} RunAppend(s: State, es: seq<Event>, e: Event)
    requires IsRun(s, es) && Enabled(Run(s, es), e)
    ensures IsRun(s, es + [e]) && Run(s, es + [e]) == Step(Run(s, es), e)
    decreases |es|
  {
    if es != [] {
      assert (es + [e])[1..] == es[1..] + [e];
      RunAppend(Step(s, es[0]), es[1..], e);
    } else {
      assert es + [e] == [e] && [e][1..] == [];
    }
  }

  /** A plugin that came on connection `c`, with nothing else going on. */
  lemma Comes(s: State, c: Conn, p: PluginId, actions: set<Action>) returns (t: State)
    requires Reachable(s) && s.router.Idle? && c !in s.seen && c != BRIDGE && c !in s.byConn && p !in s.byPlugin
    ensures Reachable(t)
    ensures t == Entered(s, p, c, actions).(open := s.open + {c}, seen := s.seen + {c})
  {
    var s1 := Step(s, Open(c));
    ReachableStep(s, Open(c), s1);
    var s2 := Step(s1, RouterCheck(c, p, actions));
    ReachableStep(s1, RouterCheck(c, p, actions), s2);
    t := Step(s2, RouterRegister);
    ReachableStep(s2, RouterRegister, t);
  }

  /** The only connection closes and the disconnect loop removes the plugin from the first map. */
  lemma Goes(s: State, c: Conn, p: PluginId) returns (t: State)
    requires Reachable(s) && s.loop.Waiting? && s.queue == [] && c in s.open && s.open <= s.seen && c != BRIDGE
    requires c in s.byConn && s.byConn[c] == p && p in s.byPlugin && s.byPlugin[p] == c
    ensures Reachable(t) && t == RemoveByOther(s, p).(open := s.open - {c})
  {
    var s2 := s.(open := s.open - {c});
    ReachableStep(s, Close(c), s2);
    var s3 := s2.(queue := [c]);
    ReachableStep(s2, Signal(c), s3);
    var s4 := s2.(loop := Holding(c, p));
    ReachableStep(s3, LoopTake, s4);
    t := RemoveByOther(s2, p);
    ReachableStep(s4, LoopRemove, t);
  }

  /** A plugin that reconnects while the disconnect loop is still removing its first registration may
      end up registered, open, and without an action that both registrations declare. */
  lemma LiveWithoutAction(p: PluginId, a: Action) returns (s: State)
    ensures Reachable(s) && p in s.byPlugin && s.byPlugin[p] in s.open
    ensures a in Declared(s, p) && (p, a) !in s.indexed
  {
    assert IsRun(EMPTY, []) && Run(EMPTY, []) == EMPTY;
    var s1 := Comes(EMPTY, 1, p, {a});
    var s2 := Goes(s1, 1, p);
    assert (p, a) in Rows(p, {a});
    var s3 := Comes(s2, 2, p, {a});
    s := Step(s3, Unindex(p, a));
    ReachableStep(s3, Unindex(p, a), s);
  }
}
