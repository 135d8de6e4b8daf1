/** Answers arrive: from every reachable state in which the other kernel has answered a request that
    still waits, a run hands the answer, with its status, to the plugin that asked. */
module RelayDelivery {
  import opened Collections
  import opened PendingActions
  import opened Relay
  import PendingAnswers
  import RelayProofs

  // --- reaching a state ---

  /** Closed under the steps of the network. */
  ghost predicate Closed(states: iset<Net>) {
    forall n, x :: n in states && NetEnabled(n, x) ==> NetStep(n, x) in states
  }

  /** `m` is in every closed set that `n` is in. */
  ghost predicate Reaches(n: Net, m: Net) {
    forall states: iset<Net> :: Closed(states) && n in states ==> m in states
  }

  lemma Stays(n: Net)
    ensures Reaches(n, n)
  {
  }

  lemma After(n: Net, x: NetEvent, m: Net)
    requires NetEnabled(n, x) && Reaches(NetStep(n, x), m)
    ensures Reaches(n, m)
  {
  }

  lemma Then(n: Net, m: Net, o: Net)
    requires Reaches(n, m) && Reaches(m, o)
    ensures Reaches(n, o)
  {
  }

  lemma {:induction false} RunReaches(n: Net, es: seq<NetEvent>)
    requires Relay.IsRun(n, es)
    ensures Reaches(n, Relay.Run(n, es))
    decreases |es|
  {
    if es == [] {
      Stays(n);
    } else {
      RunReaches(NetStep(n, es[0]), es[1..]);
      After(n, es[0], Relay.Run(n, es));
    }
  }

  lemma {:induction false} RunNext(n: Net, es: seq<NetEvent>, x: NetEvent)
    requires Relay.IsRun(n, es) && NetEnabled(Relay.Run(n, es), x)
    ensures Relay.IsRun(n, es + [x]) && Relay.Run(n, es + [x]) == NetStep(Relay.Run(n, es), x)
    decreases |es|
  {
    if es == [] {
      assert es + [x] == [x] && [x][1..] == [];
    } else {
      assert (es + [x])[1..] == es[1..] + [x];
      RunNext(NetStep(n, es[0]), es[1..], x);
    }
  }

  ghost predicate ByRun(n: Net, m: Net) {
    exists es :: Relay.IsRun(n, es) && Relay.Run(n, es) == m
  }

  /** ... which is to say that a run leads from `n` to `m`. */
  lemma ReachesIff(n: Net, m: Net)
    ensures Reaches(n, m) <==> ByRun(n, m)
  {
    if ByRun(n, m) {
      var es :| Relay.IsRun(n, es) && Relay.Run(n, es) == m;
      RunReaches(n, es);
    }
    if Reaches(n, m) {
      var runs := iset o | ByRun(n, o);
      assert Relay.IsRun(n, []) && Relay.Run(n, []) == n;
      forall o, x | o in runs && NetEnabled(o, x) ensures NetStep(o, x) in runs {
        var es :| Relay.IsRun(n, es) && Relay.Run(n, es) == o;
        RunNext(n, es, x);
      }
      assert Closed(runs);
    }
  }

  ghost predicate FromStart(n: Net) {
    exists n0 :: Relay.Init(n0) && Reaches(n0, n)
  }

  lemma FromStartIff(n: Net)
    ensures FromStart(n) <==> Relay.Reachable(n)
  {
    if FromStart(n) {
      var n0 :| Relay.Init(n0) && Reaches(n0, n);
      ReachesIff(n0, n);
    }
    if Relay.Reachable(n) {
      var n0, es :| Relay.Init(n0) && Relay.IsRun(n0, es) && Relay.Run(n0, es) == n;
      RunReaches(n0, es);
    }
  }

  // --- what holds besides ---

  /** Only what is in transit, delivered or counted as sent has changed. */
  ghost predicate SameNodes(n: Net, m: Net) {
    m.client == n.client && m.host == n.host && m.link == n.link && m.device == n.device
  }

  /** While the link is up each kernel has the device registered on its end. */
  ghost predicate Held(k: Kernel, conn: Conn, device: PluginId) {
    conn in k.conns.byConn && k.conns.byConn[conn] == device
  }

  ghost predicate LinkHeld(n: Net) {
    n.link.Some? ==> Held(n.client.kernel, BRIDGE, n.device) && Held(n.host.kernel, n.link.value, n.device)
  }

  /** No more has left than was logged. */
  ghost predicate SentWithin(n: Net) {
    forall x :: x in n.sent ==>
      x.1 in At(n, x.0).kernel.table.log && n.sent[x] <= |At(n, x.0).kernel.table.log[x.1]|
  }

  lemma HeldStep(k: Kernel, e: Event, conn: Conn, device: PluginId)
    requires PendingAnswers.Inverse(k.conns) && Enabled(k, e) && Held(k, conn, device) && e != Unregister(device)
    ensures Held(Step(k, e), conn, device)
  {
  }

  lemma StreamLogGrows(k: Kernel, e: Event, key: ActionId)
    requires Enabled(k, e) && key in k.table.log && (e.RequestChunk? || e.ResponseChunk? || e.CloseSession?)
    ensures key in Step(k, e).table.log && |k.table.log[key]| <= |Step(k, e).table.log[key]|
  {
  }

  lemma RouterLogGrows(k: Kernel, e: Event, key: ActionId)
    requires PendingAnswers.AllAnswered(k.table) && Enabled(k, e) && ByRouter(e) && key in k.table.log
    ensures key in Step(k, e).table.log && |k.table.log[key]| <= |Step(k, e).table.log[key]|
  {
    match e {
      case RouteLocal(_, _) => assert key != k.table.nextSeq;
      case Relay(_, _) => assert key != k.table.nextSeq;
      case RequestChunk(_, _, _, _) => StreamLogGrows(k, e, key);
      case ResponseChunk(_, _, _) => StreamLogGrows(k, e, key);
      case CloseSession(_, _, _) => StreamLogGrows(k, e, key);
      case _ =>
    }
  }

  lemma LogGrows(k: Kernel, e: Event, key: ActionId)
    requires PendingAnswers.AllAnswered(k.table) && Enabled(k, e) && key in k.table.log
    ensures key in Step(k, e).table.log && |k.table.log[key]| <= |Step(k, e).table.log[key]|
  {
    if ByRouter(e) { RouterLogGrows(k, e, key); }
  }

  ghost predicate LogsGrow(k: Kernel, l: Kernel) {
    forall key :: key in k.table.log ==> key in l.table.log && |k.table.log[key]| <= |l.table.log[key]|
  }

  lemma StillWithin(n: Net, m: Net)
    requires SentWithin(n) && m.sent == n.sent
    requires LogsGrow(n.client.kernel, m.client.kernel) && LogsGrow(n.host.kernel, m.host.kernel)
    ensures SentWithin(m)
  {
    forall x | x in m.sent
      ensures x.1 in At(m, x.0).kernel.table.log && m.sent[x] <= |At(m, x.0).kernel.table.log[x.1]|
    {
      assert x.1 in At(n, x.0).kernel.table.log;
    }
  }

  lemma AdvanceGrows(node: Node, e: Event, o: Origin, hops: nat)
    requires PendingAnswers.Inv(node.kernel) && Enabled(node.kernel, e)
    ensures LogsGrow(node.kernel, Advance(node, e, o, hops).kernel)
  {
    forall key | key in node.kernel.table.log { LogGrows(node.kernel, e, key); }
  }

  ghost predicate Sound(n: Net) {
    RelayProofs.Inv(n) && LinkHeld(n) && SentWithin(n)
  }

  lemma ActKeeps(n: Net, side: Side, e: Event, o: Origin, hops: nat)
    requires PendingAnswers.Inv(At(n, side).kernel) && LinkHeld(n) && SentWithin(n)
    requires Enabled(At(n, side).kernel, e) && e != Unregister(n.device)
    ensures var m := Put(n, side, Advance(At(n, side), e, o, hops));
      LinkHeld(m) && SentWithin(m)
  {
    var m := Put(n, side, Advance(At(n, side), e, o, hops));
    AdvanceGrows(At(n, side), e, o, hops);
    StillWithin(n, m);
    if n.link.Some? {
      HeldStep(At(n, side).kernel, e, if side == Client then BRIDGE else n.link.value, n.device);
    }
  }

  lemma LinkKeeps(n: Net, x: NetEvent)
    requires PendingAnswers.Inv(n.client.kernel) && PendingAnswers.Inv(n.host.kernel)
    requires LinkHeld(n) && SentWithin(n) && NetEnabled(n, x) && (x.LinkUp? || x.LinkDown?)
    ensures LinkHeld(NetStep(n, x)) && SentWithin(NetStep(n, x))
  {
    var (e, f) := if x.LinkUp? then (Register(n.device, BRIDGE), Register(n.device, x.ws))
                  else (Unregister(n.device), Unregister(n.device));
    AdvanceGrows(n.client, e, Origin(Client, 0, 0), 0);
    AdvanceGrows(n.host, f, Origin(Client, 0, 0), 0);
    StillWithin(n, NetStep(n, x));
  }

  /** A message leaves: its count goes up by one, and the kernels stay as they are. */
  lemma SendKeeps(n: Net, side: Side, key: ActionId)
    requires LinkHeld(n) && SentWithin(n) && CanSend(n, side, key)
    ensures LinkHeld(SentNext(n, side, key)) && SentWithin(SentNext(n, side, key))
  {
    var m := SentNext(n, side, key);
    LeavesNodes(n, side, key, At(n, side).kernel.table.log[key][Sent(n, side, key)]);
    forall x | x in m.sent
      ensures x.1 in At(m, x.0).kernel.table.log && m.sent[x] <= |At(m, x.0).kernel.table.log[x.1]|
    {
      assert At(m, x.0) == At(n, x.0) && (x != (side, key) ==> x in n.sent);
    }
  }

  lemma LeavesNodes(n: Net, side: Side, key: ActionId, out: Out)
    requires key in At(n, side).origin && key in At(n, side).hops
    ensures SameNodes(n, Leaves(n, side, key, out)) && Leaves(n, side, key, out).sent == n.sent
  {
  }

  lemma TakeKeeps(n: Net, side: Side, e: Event)
    requires PendingAnswers.Inv(At(n, side).kernel) && LinkHeld(n) && SentWithin(n) && CanTake(n, side, e)
    ensures LinkHeld(Taken(n, side, e)) && SentWithin(Taken(n, side, e))
  {
    var (m, p) := (Inbound(n, side)[0], Popped(n, side));
    var hops := if m.Ask? then m.hops else 0;
    PopKeeps(n, side);
    assert At(p, side) == At(n, side);
    ActKeeps(p, side, e, m.origin, hops);
    assert Taken(n, side, e) == Put(p, side, Advance(At(p, side), e, m.origin, hops));
  }

  lemma RefusalKeeps(n: Net, side: Side)
    requires LinkHeld(n) && SentWithin(n) && CanRefuse(n, side)
    ensures LinkHeld(RefusalSent(n, side)) && SentWithin(RefusalSent(n, side))
  {
    RefusalNodes(n, side);
    SameKeeps(n, RefusalSent(n, side));
  }

  lemma RefusalNodes(n: Net, side: Side)
    requires CanRefuse(n, side)
    ensures var m := RefusalSent(n, side);
      SameNodes(n, m) && m.sent == n.sent && RefusalsSent(m, side) == RefusalsSent(n, side) + 1
  {
  }

  lemma SameKeeps(n: Net, m: Net)
    requires LinkHeld(n) && SentWithin(n) && SameNodes(n, m) && m.sent == n.sent
    ensures LinkHeld(m) && SentWithin(m)
  {
    StillWithin(n, m);
  }

  lemma PopKeeps(n: Net, side: Side)
    requires LinkHeld(n) && SentWithin(n) && Inbound(n, side) != []
    ensures LinkHeld(Popped(n, side)) && SentWithin(Popped(n, side))
  {
    SameKeeps(n, Popped(n, side));
  }

  lemma KeepsStep(n: Net, x: NetEvent)
    requires PendingAnswers.Inv(n.client.kernel) && PendingAnswers.Inv(n.host.kernel)
    requires LinkHeld(n) && SentWithin(n) && NetEnabled(n, x)
    ensures LinkHeld(NetStep(n, x)) && SentWithin(NetStep(n, x))
  {
    match x {
      case LinkUp(_) => LinkKeeps(n, x);
      case LinkDown => LinkKeeps(n, x);
      case Local(side, e) => ActKeeps(n, side, e, LocalOrigin(side, e), 0);
      case Receive(side, e) => TakeKeeps(n, side, e);
      case Ignore(side) => PopKeeps(n, side);
      case Send(side, key) => SendKeeps(n, side, key);
      case SendRefusal(side) => RefusalKeeps(n, side);
    }
  }

  lemma SoundStep(n: Net, x: NetEvent)
    requires Sound(n) && NetEnabled(n, x)
    ensures Sound(NetStep(n, x))
  {
    RelayProofs.InvStep(n, x);
    KeepsStep(n, x);
  }

  lemma {:induction false} SoundRun(n: Net, es: seq<NetEvent>)
    requires Sound(n) && Relay.IsRun(n, es)
    ensures Sound(Relay.Run(n, es))
    decreases |es|
  {
    if es != [] {
      SoundStep(n, es[0]);
      SoundRun(NetStep(n, es[0]), es[1..]);
    }
  }

  lemma ReachableSound(n: Net)
    requires Relay.Reachable(n)
    ensures Sound(n)
  {
    var n0, es :| Relay.Init(n0) && Relay.IsRun(n0, es) && Relay.Run(n0, es) == n;
    RelayProofs.InvInit(n0);
    SoundRun(n0, es);
  }

  // --- single facts of a reachable state ---

  lemma GoesOn(n: Net, m: Net)
    requires FromStart(n) && Reaches(n, m)
    ensures FromStart(m)
  {
    var n0 :| Relay.Init(n0) && Reaches(n0, n);
    Then(n0, n, m);
  }

  lemma DeviceHeld(n: Net, side: Side)
    requires FromStart(n) && n.link.Some?
    ensures Held(At(n, side).kernel, LinkOf(n, side).value, n.device)
  {
    FromStartIff(n);
    ReachableSound(n);
  }

  lemma SentSoFar(n: Net, side: Side, key: ActionId)
    requires FromStart(n) && key in At(n, side).kernel.table.log
    ensures Sent(n, side, key) <= |At(n, side).kernel.table.log[key]|
  {
    FromStartIff(n);
    ReachableSound(n);
  }

  /** Every id a kernel minted has its origin, and its responses are addressed to its requester. */
  lemma Minted(n: Net, side: Side, key: ActionId)
    requires FromStart(n) && key in At(n, side).kernel.table.log
    ensures var node := At(n, side);
      && key in node.origin && key in node.hops && key in node.kernel.table.routes
      && var r := node.kernel.table.routes[key];
         && (forall o :: o in node.kernel.table.log[key] && o.Response? ==>
               o.to == r.requesterTx && o.id == r.originalId)
         && (key in node.kernel.table.pending ==>
               && node.kernel.table.pending[key].requesterTx == r.requesterTx
               && node.kernel.table.pending[key].originalId == r.originalId)
  {
    FromStartIff(n);
    ReachableSound(n);
    assert PendingAnswers.Answered(At(n, side).kernel.table, key);
  }

  lemma PendingMinted(n: Net, side: Side, key: ActionId)
    requires FromStart(n) && key in At(n, side).kernel.table.pending
    ensures key in At(n, side).kernel.table.log
  {
    FromStartIff(n);
    ReachableSound(n);
  }

  // --- messages leave ---

  /** From `n` to `m` the log of `key` has been sent up to and with its `j`-th message. */
  ghost predicate SentUpTo(n: Net, m: Net, side: Side, key: ActionId, j: nat)
    requires key in At(n, side).origin && key in At(n, side).hops
    requires key in At(n, side).kernel.table.log && j < |At(n, side).kernel.table.log[key]|
  {
    && Reaches(n, m) && SameNodes(n, m)
    && (forall x :: x != (side, key) ==> (x in m.sent <==> x in n.sent) && (x in n.sent ==> m.sent[x] == n.sent[x]))
    && var (out, node) := (At(n, side).kernel.table.log[key][j], At(n, side));
       && (out.Response? && LinkOf(n, side) == Some(out.to) ==>
             && Inbound(m, Other(side)) != []
             && Inbound(m, Other(side))[|Inbound(m, Other(side))| - 1] == Answer(out.id, node.origin[key], out.status))
       && (out.Forward? && LinkOf(n, side) == Some(out.to) ==>
             && Inbound(m, Other(side)) != []
             && Inbound(m, Other(side))[|Inbound(m, Other(side))| - 1] ==
                Ask(key, node.origin[key], node.hops[key] + 1))
       && (out.Response? && LinkOf(n, side) != Some(out.to) && out.to !in node.links ==>
             Delivered(side, out.to, out.id, node.origin[key], out.status) in m.delivered)
  }

  lemma SendsOne(n: Net, side: Side, key: ActionId)
    requires CanSend(n, side, key)
    ensures SentUpTo(n, SentNext(n, side, key), side, key, Sent(n, side, key))
    ensures Sent(SentNext(n, side, key), side, key) == Sent(n, side, key) + 1
  {
    Stays(SentNext(n, side, key));
    After(n, Send(side, key), SentNext(n, side, key));
  }

  lemma {:induction false} SendsUntil(n: Net, side: Side, key: ActionId, j: nat) returns (m: Net)
    requires key in At(n, side).origin && key in At(n, side).hops && key in At(n, side).kernel.table.log
    requires Sent(n, side, key) <= j < |At(n, side).kernel.table.log[key]|
    ensures SentUpTo(n, m, side, key, j)
    decreases j - Sent(n, side, key)
  {
    var m1 := SentNext(n, side, key);
    SendsOne(n, side, key);
    if Sent(n, side, key) == j {
      m := m1;
    } else {
      m := SendsUntil(m1, side, key, j);
      Then(n, m1, m);
    }
  }

  /** What comes before the last message on the link is dropped. */
  lemma {:induction false} IgnoresUntil(n: Net, side: Side) returns (m: Net)
    requires Inbound(n, side) != []
    ensures Reaches(n, m) && SameNodes(n, m) && m.sent == n.sent && m.delivered == n.delivered
    ensures Inbound(m, side) == [Inbound(n, side)[|Inbound(n, side)| - 1]]
    decreases |Inbound(n, side)|
  {
    if |Inbound(n, side)| == 1 {
      m := n;
      Stays(n);
    } else {
      var m1 := Popped(n, side);
      m := IgnoresUntil(m1, side);
      After(n, Ignore(side), m);
    }
  }

  /** The router finishes a relay it has in hand. */
  lemma FreesRouter(n: Net, side: Side) returns (m: Net)
    ensures Reaches(n, m) && m == Put(n, side, At(n, side).(kernel := At(n, side).kernel.(busy := None)))
  {
    if At(n, side).kernel.busy.None? {
      m := n;
      Stays(n);
    } else {
      m := Acted(n, side, RelaySent);
      Stays(m);
      After(n, Local(side, RelaySent), m);
    }
  }

  // --- a request on the link ---

  /** The other kernel routes the request that is next on the link to a provider its lookup returns. */
  lemma TakesRequest(n: Net, side: Side, m: Msg, q: Request, f: Found) returns (o: Net)
    requires FromStart(n) && n.link.Some? && At(n, side).kernel.busy.None? && Inbound(n, side) == [m] && m.Ask?
    requires q.conn == LinkOf(n, side).value && q.id == m.id && FindsPlugin(side, RouteLocal(q, f))
    requires Routable(n, side, f)
    ensures Reaches(n, o) && RoutedTo(n, o, side, m, f)
  {
    var (e, k) := (RouteLocal(q, f), At(n, side).kernel);
    DeviceHeld(n, side);
    KernelRoutes(k, n.device, q, f);
    assert CanTake(n, side, e);
    o := Taken(n, side, e);
    assert At(o, side) == Advance(At(n, side), e, m.origin, m.hops);
    Stays(o);
    After(n, Receive(side, e), o);
  }

  lemma KernelRoutes(k: Kernel, device: PluginId, q: Request, f: Found)
    requires Held(k, q.conn, device) && k.busy.None? && (f.provider, f.at) in k.conns.made
    requires k.cap.Some? ==> CountFor(k.table, device, f.provider) < k.cap.value
    ensures Enabled(k, RouteLocal(q, f))
    ensures var (t, there) := (Step(k, RouteLocal(q, f)).table, k.table.nextSeq);
      && there in t.pending && there in t.log && t.log[there] == [Forward(f.at.conn, there)]
      && t.pending[there].originalId == q.id && t.pending[there].requesterTx == q.conn
      && t.pending[there].providerId == f.provider
  {
  }

  /** `f` is what a lookup on this kernel may return, and the device is below its cap there. */
  ghost predicate Routable(n: Net, side: Side, f: Found) {
    var k := At(n, side).kernel;
    && (f.provider, f.at) in k.conns.made
    && (k.cap.Some? ==> CountFor(k.table, n.device, f.provider) < k.cap.value)
  }

  /** The kernel has an entry of its own for `m`, bound for this provider, under the same origin. */
  ghost predicate RoutedTo(n: Net, o: Net, side: Side, m: Msg, f: Found)
    requires m.Ask?
  {
    var (there, node) := (At(n, side).kernel.table.nextSeq, At(o, side));
    && there in node.kernel.table.pending && there in node.kernel.table.log && there in node.origin
    && node.kernel.table.pending[there].originalId == m.id
    && Some(node.kernel.table.pending[there].requesterTx) == LinkOf(n, side)
    && node.kernel.table.pending[there].providerId == f.provider
    && node.kernel.table.log[there] == [Forward(f.at.conn, there)] && node.origin[there] == m.origin
  }

  /** The request is next on the link, and the other kernel's router is free for it. */
  lemma RequestCrosses(n: Net, side: Side, key: ActionId, j: nat) returns (c: Net, ask: Msg)
    requires FromStart(n) && key in At(n, side).kernel.table.log && key in At(n, side).origin
    requires Sent(n, side, key) <= j < |At(n, side).kernel.table.log[key]|
    requires LinkOf(n, side).Some? && At(n, side).kernel.table.log[key][j] == Forward(LinkOf(n, side).value, key)
    ensures Reaches(n, c) && FromStart(c) && c.link == n.link && c.device == n.device
    ensures At(c, Other(side)).kernel == At(n, Other(side)).kernel.(busy := None)
    ensures Inbound(c, Other(side)) == [ask] && ask.Ask? && ask.id == key && ask.origin == At(n, side).origin[key]
  {
    Minted(n, side, key);
    var a := SendsUntil(n, side, key, j);
    var b := IgnoresUntil(a, Other(side));
    c := FreesRouter(b, Other(side));
    ask := Inbound(c, Other(side))[0];
    Then(n, a, b);
    Then(n, b, c);
    GoesOn(n, c);
  }

  /** From every reachable state with the link up: a request forwarded over the link that has not left
      yet gets an entry on the other kernel, bound for any provider its lookup may return. */
  lemma RelayedRequestArrives(n: Net, side: Side, key: ActionId, j: nat, f: Found, streaming: bool, timeout: nat)
    returns (m: Net)
    requires Relay.Reachable(n) && n.link.Some? && key in At(n, side).kernel.table.log && key in At(n, side).origin
    requires Sent(n, side, key) <= j < |At(n, side).kernel.table.log[key]|
    requires At(n, side).kernel.table.log[key][j] == Forward(LinkOf(n, side).value, key)
    requires Routable(n, Other(side), f) && (side == Host ==> f.at.conn != BRIDGE)
    ensures exists es :: Relay.IsRun(n, es) && Relay.Run(n, es) == m
    ensures RoutedTo(n, m, Other(side), Ask(key, At(n, side).origin[key], 0), f)
  {
    FromStartIff(n);
    var c, ask := RequestCrosses(n, side, key, j);
    m := TakesRequest(c, Other(side), ask, Request(LinkOf(n, Other(side)).value, key, streaming, timeout), f);
    Then(n, c, m);
    ReachesIff(n, m);
  }

  // --- an answer on the link ---

  /** The request `key` of one of the kernel's own plugins waits for the other kernel. */
  ghost predicate Waits(n: Net, side: Side, key: ActionId) {
    var node := At(n, side);
    && key in node.kernel.table.pending && node.kernel.table.pending[key].providerId == n.device
    && key in node.kernel.table.routes && node.kernel.table.routes[key].requesterTx !in node.links
    && key in node.origin
  }

  /** The plugin that asked has been given this status under its own id. */
  ghost predicate Told(n: Net, m: Net, side: Side, key: ActionId, status: Status)
    requires key in At(n, side).kernel.table.routes && key in At(n, side).origin
  {
    var r := At(n, side).kernel.table.routes[key];
    Delivered(side, r.requesterTx, r.originalId, At(n, side).origin[key], status) in m.delivered
  }

  lemma KernelTakes(k: Kernel, conn: Conn, device: PluginId, key: ActionId, status: Status)
    requires Held(k, conn, device) && k.busy.None? && key in k.table.pending && key in k.table.log
    requires k.table.pending[key].providerId == device
    ensures var (e, p) := (Respond(conn, key, status), k.table.pending[key]);
      && Enabled(k, e) && Step(k, e).table.routes == k.table.routes && key in Step(k, e).table.log
      && Step(k, e).table.log[key] == k.table.log[key] + [Response(p.requesterTx, p.originalId, status, false)]
  {
  }

  /** The kernel takes the answer that is next on the link, and its own response is the last it logs. */
  lemma TakesAnswer(n: Net, side: Side, key: ActionId, o: Origin, status: Status) returns (m: Net)
    requires FromStart(n) && n.link.Some? && Waits(n, side, key) && At(n, side).kernel.busy.None?
    requires Inbound(n, side) == [Answer(key, o, status)]
    ensures Reaches(n, m) && FromStart(m) && m.link == n.link
    ensures var (a, b) := (At(n, side), At(m, side));
      && b.origin == a.origin && b.hops == a.hops && b.links == a.links
      && b.kernel.table.routes == a.kernel.table.routes && key in b.kernel.table.log
      && var log := b.kernel.table.log[key];
         var r := a.kernel.table.routes[key];
         log != [] && log[|log| - 1] == Response(r.requesterTx, r.originalId, status, false)
    ensures Sent(m, side, key) < |At(m, side).kernel.table.log[key]|
  {
    var (node, e) := (At(n, side), Respond(LinkOf(n, side).value, key, status));
    PendingMinted(n, side, key);
    Minted(n, side, key);
    DeviceHeld(n, side);
    SentSoFar(n, side, key);
    KernelTakes(node.kernel, LinkOf(n, side).value, n.device, key, status);
    m := Taken(n, side, e);
    Stays(m);
    After(n, Receive(side, e), m);
    GoesOn(n, m);
  }

  lemma AnswerIsTold(n: Net, side: Side, key: ActionId, o: Origin, status: Status) returns (m: Net)
    requires FromStart(n) && n.link.Some? && Waits(n, side, key) && At(n, side).kernel.busy.None?
    requires Inbound(n, side) == [Answer(key, o, status)]
    ensures Reaches(n, m) && Told(n, m, side, key, status)
  {
    var a := TakesAnswer(n, side, key, o, status);
    LinkIsLink(a, side);
    var (j, r) := (|At(a, side).kernel.table.log[key]| - 1, At(n, side).kernel.table.routes[key]);
    assert r.requesterTx !in At(a, side).links && LinkOf(a, side) != Some(r.requesterTx);
    m := TellsPlugin(a, side, key, j);
    Then(n, a, m);
  }

  /** A logged response to a plugin of the kernel is delivered. */
  lemma TellsPlugin(n: Net, side: Side, key: ActionId, j: nat) returns (m: Net)
    requires FromStart(n) && key in At(n, side).kernel.table.log && key in At(n, side).origin
    requires Sent(n, side, key) <= j < |At(n, side).kernel.table.log[key]|
    requires var out := At(n, side).kernel.table.log[key][j];
      out.Response? && out.to !in At(n, side).links && LinkOf(n, side) != Some(out.to)
    ensures var out := At(n, side).kernel.table.log[key][j];
      Reaches(n, m) && Delivered(side, out.to, out.id, At(n, side).origin[key], out.status) in m.delivered
  {
    Minted(n, side, key);
    m := SendsUntil(n, side, key, j);
  }

  lemma LinkIsLink(n: Net, side: Side)
    requires FromStart(n) && n.link.Some?
    ensures LinkOf(n, side).value in At(n, side).links
  {
    FromStartIff(n);
    ReachableSound(n);
  }

  /** An answer last on the link, for a request that still waits, is handed to the plugin that asked. */
  lemma LastAnswerIsTold(n: Net, side: Side, key: ActionId, o: Origin, status: Status) returns (m: Net)
    requires FromStart(n) && n.link.Some? && Waits(n, side, key) && Inbound(n, side) != []
    requires Inbound(n, side)[|Inbound(n, side)| - 1] == Answer(key, o, status)
    ensures Reaches(n, m) && Told(n, m, side, key, status)
  {
    var a := IgnoresUntil(n, side);
    var b := FreesRouter(a, side);
    Then(n, a, b);
    GoesOn(n, b);
    m := AnswerIsTold(b, side, key, o, status);
    Then(n, b, m);
  }

  /** From every reachable state with the link up: a request of one of a kernel's plugins that waits for
      the other kernel, and for which that kernel has logged a response that has not left yet, is
      answered to the plugin with the status of that response. */
  lemma RelayedAnswerArrives(n: Net, side: Side, key: ActionId, there: ActionId, j: nat) returns (m: Net)
    requires Relay.Reachable(n) && n.link.Some? && Waits(n, side, key)
    requires var other := At(n, Other(side)).kernel.table;
      && there in other.log && there in other.routes && Sent(n, Other(side), there) <= j < |other.log[there]|
      && other.log[there][j].Response?
      && other.routes[there].requesterTx == LinkOf(n, Other(side)).value && other.routes[there].originalId == key
    ensures exists es :: Relay.IsRun(n, es) && Relay.Run(n, es) == m
    ensures Told(n, m, side, key, At(n, Other(side)).kernel.table.log[there][j].status)
  {
    var node := At(n, Other(side));
    FromStartIff(n);
    Minted(n, Other(side), there);
    var a := SendsUntil(n, Other(side), there, j);
    GoesOn(n, a);
    m := LastAnswerIsTold(a, side, key, node.origin[there], node.kernel.table.log[there][j].status);
    Then(n, a, m);
    ReachesIff(n, m);
  }

  /** A refusal of the other kernel arrives in the same way. */
  lemma {:induction false} RefusalsLeave(n: Net, side: Side, j: nat) returns (m: Net)
    requires FromStart(n) && RefusalsSent(n, side) <= j < |At(n, side).kernel.refusals|
    ensures Reaches(n, m) && SameNodes(n, m) && j < |At(n, side).refused| && At(n, side).kernel.refusals[j].Response?
    ensures var out := At(n, side).kernel.refusals[j];
      && (LinkOf(n, side) == Some(out.to) ==>
            && Inbound(m, Other(side)) != []
            && Inbound(m, Other(side))[|Inbound(m, Other(side))| - 1] ==
               Answer(out.id, At(n, side).refused[j], out.status))
      && (LinkOf(n, side) != Some(out.to) && out.to !in At(n, side).links ==>
            Delivered(side, out.to, out.id, At(n, side).refused[j], out.status) in m.delivered)
    decreases j - RefusalsSent(n, side)
  {
    RefusalsAre(n, side);
    var m1 := RefusalSent(n, side);
    RefusalLeavesOne(n, side);
    if RefusalsSent(n, side) == j {
      m := m1;
    } else {
      GoesOn(n, m1);
      m := RefusalsLeave(m1, side, j);
      Then(n, m1, m);
    }
  }

  lemma RefusalLeavesOne(n: Net, side: Side)
    requires CanRefuse(n, side)
    ensures var (m, i) := (RefusalSent(n, side), RefusalsSent(n, side));
      && Reaches(n, m) && SameNodes(n, m) && RefusalsSent(m, side) == i + 1
      && var (out, inbound) := (At(n, side).kernel.refusals[i], Inbound(m, Other(side)));
         && (LinkOf(n, side) == Some(out.to) ==>
               inbound != [] && inbound[|inbound| - 1] == Answer(out.id, At(n, side).refused[i], out.status))
         && (LinkOf(n, side) != Some(out.to) && out.to !in At(n, side).links ==>
               Delivered(side, out.to, out.id, At(n, side).refused[i], out.status) in m.delivered)
  {
    RefusalNodes(n, side);
    Stays(RefusalSent(n, side));
    After(n, SendRefusal(side), RefusalSent(n, side));
  }

  lemma RefusalsAre(n: Net, side: Side)
    requires FromStart(n)
    ensures |At(n, side).refused| == |At(n, side).kernel.refusals|
    ensures forall i :: 0 <= i < |At(n, side).kernel.refusals| ==> At(n, side).kernel.refusals[i].Response?
  {
    FromStartIff(n);
    ReachableSound(n);
  }

  lemma RefusalArrives(n: Net, side: Side, key: ActionId, j: nat) returns (m: Net)
    requires Relay.Reachable(n) && n.link.Some? && Waits(n, side, key)
    requires RefusalsSent(n, Other(side)) <= j < |At(n, Other(side)).kernel.refusals|
    requires var out := At(n, Other(side)).kernel.refusals[j];
      out.Response? && out.to == LinkOf(n, Other(side)).value && out.id == key
    ensures exists es :: Relay.IsRun(n, es) && Relay.Run(n, es) == m
    ensures Told(n, m, side, key, At(n, Other(side)).kernel.refusals[j].status)
  {
    FromStartIff(n);
    var out := At(n, Other(side)).kernel.refusals[j];
    var a := RefusalsLeave(n, Other(side), j);
    GoesOn(n, a);
    m := LastAnswerIsTold(a, side, key, At(n, Other(side)).refused[j], out.status);
    Then(n, a, m);
    ReachesIff(n, m);
  }

  /** What a kernel itself has for one of its plugins arrives, link or no link: a logged response that
      has not left yet, and a refusal. */
  lemma OwnAnswerArrives(n: Net, side: Side, key: ActionId, j: nat) returns (m: Net)
    requires Relay.Reachable(n) && key in At(n, side).kernel.table.log && key in At(n, side).origin
    requires Sent(n, side, key) <= j < |At(n, side).kernel.table.log[key]|
    requires var out := At(n, side).kernel.table.log[key][j];
      out.Response? && out.to !in At(n, side).links
    ensures exists es :: Relay.IsRun(n, es) && Relay.Run(n, es) == m
    ensures var out := At(n, side).kernel.table.log[key][j];
      Delivered(side, out.to, out.id, At(n, side).origin[key], out.status) in m.delivered
  {
    FromStartIff(n);
    if n.link.Some? { LinkIsLink(n, side); }
    m := TellsPlugin(n, side, key, j);
    ReachesIff(n, m);
  }

  lemma OwnRefusalArrives(n: Net, side: Side, j: nat) returns (m: Net)
    requires Relay.Reachable(n) && RefusalsSent(n, side) <= j < |At(n, side).kernel.refusals|
    requires At(n, side).kernel.refusals[j].to !in At(n, side).links
    ensures j < |At(n, side).refused| && At(n, side).kernel.refusals[j].Response?
    ensures exists es :: Relay.IsRun(n, es) && Relay.Run(n, es) == m
    ensures var out := At(n, side).kernel.refusals[j];
      Delivered(side, out.to, out.id, At(n, side).refused[j], out.status) in m.delivered
  {
    FromStartIff(n);
    if n.link.Some? { LinkIsLink(n, side); }
    m := RefusalsLeave(n, side, j);
    ReachesIff(n, m);
  }
}
