/** Where the guarantees of the pending-action protocol end: a removal between the router's lookup
    and its insertion, a removal that has freed an id and not failed its actions yet, and one that
    runs between a relay's insertion and its withdrawal. */
module PendingLimits {
  import opened Collections
  import opened PendingActions
  import PendingAnswers

  const CALLER: PluginId := 1
  const PROVIDER: PluginId := 2

  /** The caller asks on connection 10; the lookup finds the provider on connection 20. */
  const ASK: Request := Request(10, 7, false, 30)
  const FOUND: Found := Found(PROVIDER, Registration(20, 1))

  /** A kernel with these registrations and nothing in flight. */
  function With(conns: Conns): Kernel {
    Kernel(None, 0, conns, Table(map[], 0, map[], map[], {}, {}), [], None)
  }

  const BOTH: set<(PluginId, Registration)> := {(CALLER, Registration(10, 0)), (PROVIDER, Registration(20, 1))}

  /** Both are registered, and the lookup returns the provider. */
  function LookedUp(): Kernel {
    With(Conns(map[CALLER := Registration(10, 0), PROVIDER := Registration(20, 1)],
               map[10 := CALLER, 20 := PROVIDER], BOTH, 2, {}))
  }

  /** The provider has gone. */
  function Gone(failing: set<(PluginId, Registration)>): Conns {
    Conns(map[CALLER := Registration(10, 0)], map[10 := CALLER], BOTH, 2, failing)
  }

  /** ... and come back on connection 30. */
  function Back(failing: set<(PluginId, Registration)>): Conns {
    Conns(map[CALLER := Registration(10, 0), PROVIDER := Registration(30, 2)],
          map[10 := CALLER, 30 := PROVIDER], BOTH + {(PROVIDER, Registration(30, 2))}, 3, failing)
  }

  lemma ReachableStep(k: Kernel, e: Event)
    requires Reachable(k) && Enabled(k, e)
    ensures Reachable(Step(k, e))
  {
    var k0, events :| Init(k0) && IsRun(k0, events) && Run(k0, events) == k;
    RunAppend(k0, events, e);
  }

  lemma {:induction false} RunAppend(k: Kernel, events: seq<Event>, e: Event)
    requires IsRun(k, events) && Enabled(Run(k, events), e)
    ensures IsRun(k, events + [e]) && Run(k, events + [e]) == Step(Run(k, events), e)
    decreases |events|
  {
    if events != [] {
      assert (events + [e])[1..] == events[1..] + [e];
      RunAppend(Step(k, events[0]), events[1..], e);
    } else {
      assert events + [e] == [e];
      assert [e][1..] == [];
    }
  }

  /** Only the caller is registered. */
  function Alone(): Kernel {
    With(Conns(map[CALLER := Registration(10, 0)], map[10 := CALLER], {(CALLER, Registration(10, 0))}, 1, {}))
  }

  lemma AloneReachable()
    ensures Reachable(Alone())
  {
    var k0 := With(Conns(map[], map[], {}, 0, {}));
    assert IsRun(k0, []) && Run(k0, []) == k0 && Init(k0);
    ReachableStep(k0, Register(CALLER, 10));
    assert Registered(k0, CALLER, 10) == Alone();
  }

  lemma LookedUpReachable()
    ensures Reachable(LookedUp()) && Current(LookedUp().conns, FOUND.provider, FOUND.at)
  {
    var k1 := Alone();
    AloneReachable();
    ReachableStep(k1, Register(PROVIDER, 20));
    assert Registered(k1, PROVIDER, 20).conns.made == BOTH;
  }

  /** The provider's removal frees its id, whatever is in the table. */
  lemma Leaves(k: Kernel)
    requires Reachable(k) && k.conns == LookedUp().conns
    ensures Reachable(k.(conns := Gone({(PROVIDER, Registration(20, 1))})))
  {
    assert k.conns.byPlugin - {PROVIDER} == Gone({}).byPlugin;
    assert k.conns.byConn - {20} == Gone({}).byConn;
    ReachableStep(k, Unregister(PROVIDER));
  }

  lemma Returns(k: Kernel, failing: set<(PluginId, Registration)>)
    requires Reachable(k) && k.conns == Gone(failing)
    ensures Reachable(k.(conns := Back(failing)))
  {
    ReachableStep(k, Register(PROVIDER, 30));
    assert Registered(k, PROVIDER, 30).conns.byPlugin == Back(failing).byPlugin;
    assert Registered(k, PROVIDER, 30).conns.byConn == Back(failing).byConn;
  }

  lemma CameBackReachable()
    ensures Reachable(With(Back({})))
  {
    var tail := (PROVIDER, Registration(20, 1));
    LookedUpReachable();
    Leaves(LookedUp());
    ReachableStep(With(Gone({tail})), FailPending(tail.0, tail.1));
    assert {tail} - {tail} == {};
    assert Failed(With(Gone({tail})), tail.0, tail.1).table.log == map[];
    assert Failed(With(Gone({tail})), tail.0, tail.1) == With(Gone({}));
    Returns(With(Gone({})), {});
  }

  /** Who may answer an action under its provider's id settles it. */
  lemma Settles(k: Kernel, conn: Conn, key: ActionId)
    requires k.busy.None? && FromProvider(k, conn, key) && !k.table.pending[key].streaming
    ensures var (e, p) := (Respond(conn, key, Ok), k.table.pending[key]);
      && Enabled(k, e) && key in Step(k, e).table.log
      && Step(k, e).table.log[key] == k.table.log[key] + [Response(p.requesterTx, p.originalId, Ok, false)]
  {
  }

  /** Overtaken between lookup and insertion: the request forwarded to connection 20 waits for the
      registration on connection 30, and that one may answer it. */
  lemma ReregisteredResolves() returns (k: Kernel)
    ensures Reachable(k) && 0 in k.table.pending && 0 in k.table.log && 0 in k.table.routes && k.conns.failing == {}
    ensures k.table.log[0] == [Forward(20, 0)]
    ensures k.table.routes[0] == Route(10, 7, FOUND.at, true, false)
    ensures Enabled(k, Respond(30, 0, Ok))
    ensures 0 in Step(k, Respond(30, 0, Ok)).table.log
    ensures Step(k, Respond(30, 0, Ok)).table.log[0] == [Forward(20, 0), Response(10, 7, Ok, false)]
  {
    CameBackReachable();
    ReachableStep(With(Back({})), RouteLocal(ASK, FOUND));
    k := Inserted(With(Back({})), ASK, FOUND, true);
    Settles(k, 30, 0);
  }

  /** Inserted in time, and the removal still on its way to the table: again the registration on
      connection 30 may answer. */
  lemma RemovalUnderWayResolves() returns (k: Kernel)
    ensures Reachable(k) && 0 in k.table.pending && 0 in k.table.log && 0 in k.table.routes
    ensures k.table.log[0] == [Forward(20, 0)]
    ensures k.table.routes[0] == Route(10, 7, FOUND.at, true, true)
    ensures Enabled(k, Respond(30, 0, Ok))
    ensures 0 in Step(k, Respond(30, 0, Ok)).table.log
    ensures Step(k, Respond(30, 0, Ok)).table.log[0] == [Forward(20, 0), Response(10, 7, Ok, false)]
  {
    var tail := (PROVIDER, Registration(20, 1));
    LookedUpReachable();
    var asked := Inserted(LookedUp(), ASK, FOUND, true);
    ReachableStep(LookedUp(), RouteLocal(ASK, FOUND));
    Leaves(asked);
    Returns(asked.(conns := Gone({tail})), {tail});
    k := asked.(conns := Back({tail}));
    Settles(k, 30, 0);
  }

  // --- two answers ---

  /** The bridge's device is registered, and the router relays the caller's request to it. */
  const DEVICE: PluginId := 3
  const HOST: Found := Found(DEVICE, Registration(BRIDGE, 1))

  function Bridged(): Kernel {
    With(Conns(map[CALLER := Registration(10, 0), DEVICE := Registration(BRIDGE, 1)],
               map[10 := CALLER, BRIDGE := DEVICE],
               {(CALLER, Registration(10, 0)), (DEVICE, Registration(BRIDGE, 1))}, 2, {}))
  }

  lemma BridgedReachable()
    ensures Reachable(Bridged())
  {
    var k1 := Alone();
    AloneReachable();
    ReachableStep(k1, Register(DEVICE, BRIDGE));
    assert Registered(k1, DEVICE, BRIDGE).conns.made == Bridged().conns.made;
    assert Registered(k1, DEVICE, BRIDGE) == Bridged();
  }

  /** Between insertion and sending, the bridge goes down; its removal has not come to the table yet. */
  lemma DownBeforeSent() returns (k: Kernel)
    ensures Reachable(k) && k.busy == Some(0) && 0 in k.table.pending && 0 in k.table.log && 0 in k.table.routes
    ensures k.table.log[0] == [Forward(BRIDGE, 0)] && k.table.pending[0].providerId == DEVICE
    ensures k.table.routes[0] == Route(10, 7, Registration(BRIDGE, 1), false, true)
    ensures (DEVICE, Registration(BRIDGE, 1)) in k.conns.failing
  {
    BridgedReachable();
    var k1 := Relayed(Bridged(), ASK, HOST);
    ReachableStep(Bridged(), Relay(ASK, HOST));
    ReachableStep(k1, Unregister(DEVICE));
    k := Unregistered(k1, DEVICE);
  }

  /** Whenever a removal comes to the table while a relay to the removed plugin is neither sent nor
      withdrawn, and the relay then fails: the requester is answered twice under one id. */
  lemma WithdrawnAfterRemoval(k: Kernel, p: PluginId, r: Registration, key: ActionId)
    requires Reachable(k) && (p, r) in k.conns.failing && k.busy == Some(key)
    requires key in k.table.pending && k.table.pending[key].providerId == p
    ensures key in k.table.log && key in k.table.routes && Enabled(Failed(k, p, r), Withdraw)
    ensures var (t, q) := (Withdrawn(Failed(k, p, r), key).table, k.table.routes[key]);
      && key in t.log && key in t.twice
      && t.log[key] == k.table.log[key]
                       + [Response(q.requesterTx, q.originalId, Error, true)]
                       + [Response(q.requesterTx, q.originalId, NotFound, true)]
  {
    PendingAnswers.ReachableInv(k);
    assert PendingAnswers.Answered(k.table, key) && key in PendingAt(k.table, p);
  }

  lemma RelayAnsweredTwice() returns (k: Kernel)
    ensures Reachable(k) && 0 in k.table.log && 0 in k.table.twice
    ensures k.table.log[0] == [Forward(BRIDGE, 0), Response(10, 7, Error, true), Response(10, 7, NotFound, true)]
  {
    var k0 := DownBeforeSent();
    var r := Registration(BRIDGE, 1);
    ReachableStep(k0, FailPending(DEVICE, r));
    WithdrawnAfterRemoval(k0, DEVICE, r, 0);
    ReachableStep(Failed(k0, DEVICE, r), Withdraw);
    k := Withdrawn(Failed(k0, DEVICE, r), 0);
  }
}
