/** An action that crosses the bridge is answered only to the plugin that asked, under its own
    id, and a request crosses at most twice. */
module RelayProofs {
  import opened Collections
  import opened PendingActions
  import opened Relay
  import PendingAnswers

  // --- one kernel ---

  /** One origin for each id the kernel minted and for each refusal. */
  ghost predicate Sound(node: Node) {
    && node.origin.Keys == node.kernel.table.routes.Keys && node.hops.Keys == node.origin.Keys
    && |node.refused| == |node.kernel.refusals|
    && forall i :: 0 <= i < |node.kernel.refusals| ==> node.kernel.refusals[i].Response?
  }

  /** A request that did not come over a link has its requester as origin. */
  ghost predicate OwnOrigins(side: Side, node: Node)
    requires Sound(node)
  {
    && (forall k :: k in node.origin && node.kernel.table.routes[k].requesterTx !in node.links ==>
          var r := node.kernel.table.routes[k];
          node.origin[k] == Origin(side, r.requesterTx, r.originalId))
    && (forall i :: 0 <= i < |node.refused| && node.kernel.refusals[i].to !in node.links ==>
          node.refused[i] == Origin(side, node.kernel.refusals[i].to, node.kernel.refusals[i].id))
  }

  /** `id` on `node` stands for the request of `o`. */
  ghost predicate StandsFor(node: Node, id: ActionId, o: Origin) {
    id in node.origin && node.origin[id] == o
  }

  /** A request that came over a link is answered under an id that stands for it on the other side. */
  ghost predicate Linked(node: Node, other: Node)
    requires Sound(node)
  {
    && (forall k :: k in node.origin && node.kernel.table.routes[k].requesterTx in node.links ==>
          StandsFor(other, node.kernel.table.routes[k].originalId, node.origin[k]))
    && (forall i :: 0 <= i < |node.refused| && node.kernel.refusals[i].to in node.links ==>
          StandsFor(other, node.kernel.refusals[i].id, node.refused[i]))
  }

  /** A message from one kernel to the other: a request stands for its origin where it was made,
      an answer where it goes. */
  ghost predicate Crosses(m: Msg, from: Node, to: Node) {
    match m
    case Ask(id, o, _) => StandsFor(from, id, o)
    case Answer(id, o, _) => StandsFor(to, id, o)
  }

  ghost predicate Crossing(msgs: seq<Msg>, from: Node, to: Node) {
    forall i :: 0 <= i < |msgs| ==> Crosses(msgs[i], from, to)
  }

  ghost predicate Right(d: Delivered) {
    d.origin == Origin(d.side, d.tx, d.id)
  }

  // --- crossings ---

  /** A request the client passes to the host came from one of its own plugins and has not crossed
      yet; one the client passes on locally has crossed at most twice. */
  ghost predicate ClientHops(node: Node)
    requires Sound(node)
  {
    forall k :: k in node.hops ==>
      && node.hops[k] <= 2
      && (node.kernel.table.routes[k].provider.conn == BRIDGE ==> node.hops[k] == 0)
  }

  ghost predicate HostHops(node: Node) {
    forall k :: k in node.hops ==> node.hops[k] <= 1
  }

  ghost predicate HopsUpTo(m: Msg, most: nat) {
    m.Ask? ==> 1 <= m.hops <= most
  }

  ghost predicate Hops(msgs: seq<Msg>, most: nat) {
    forall i :: 0 <= i < |msgs| ==> HopsUpTo(msgs[i], most)
  }

  /** The host never had a registration on a connection numbered like a bridge. */
  ghost predicate NoBridge(k: Kernel) {
    forall x :: x in k.conns.made ==> x.1.conn != BRIDGE
  }

  // --- the network ---

  /** Origins, messages in transit and deliveries agree with the two kernels. */
  ghost predicate Mapped(n: Net) {
    && Sound(n.client) && Sound(n.host)
    && OwnOrigins(Client, n.client) && OwnOrigins(Host, n.host)
    && Linked(n.client, n.host) && Linked(n.host, n.client)
    && Crossing(n.up, n.client, n.host) && Crossing(n.down, n.host, n.client)
    && (forall i :: 0 <= i < |n.delivered| ==> Right(n.delivered[i]))
    && ClientHops(n.client) && HostHops(n.host) && Hops(n.up, 1) && Hops(n.down, 2)
    && n.client.links == {BRIDGE} && BRIDGE !in n.host.links && NoBridge(n.host.kernel)
    && (n.link.Some? ==> n.link.value in n.host.links)
  }

  ghost predicate Inv(n: Net) {
    PendingAnswers.Inv(n.client.kernel) && PendingAnswers.Inv(n.host.kernel) && Mapped(n)
  }

  // --- what a kernel step adds ---

  /** Who asks, and under which id. */
  function Asker(e: Event): Request
    requires Inserts(e) || e.Refuse?
  {
    if e.Refuse? then Request(e.conn, e.id, false, 0) else e.request
  }

  /** `next` is `node` after a step that inserts a request of `o`, refuses one, or does neither. */
  ghost predicate Grown(node: Node, next: Node, e: Event, o: Origin, hops: nat) {
    var (k, l) := (node.kernel, next.kernel);
    var key := k.table.nextSeq;
    && next.links == node.links
    && (if Inserts(e) then
          && key !in k.table.routes && l.table.routes.Keys == k.table.routes.Keys + {key}
          && (forall i :: i in k.table.routes ==> l.table.routes[i] == k.table.routes[i])
          && l.table.routes[key].requesterTx == Asker(e).conn && l.table.routes[key].originalId == Asker(e).id
          && l.table.routes[key].provider == e.found.at
          && next.origin == node.origin[key := o] && next.hops == node.hops[key := hops]
        else
          l.table.routes == k.table.routes && next.origin == node.origin && next.hops == node.hops)
    && (if e.Refuse? then
          l.refusals == k.refusals + [Response(e.conn, e.id, e.status, true)] && next.refused == node.refused + [o]
        else l.refusals == k.refusals && next.refused == node.refused)
  }

  lemma InsertRoutes(k: Kernel, e: Event)
    requires Enabled(k, e) && Inserts(e)
    ensures var (l, key) := (Step(k, e), k.table.nextSeq);
      && key in l.table.routes
      && l.table.routes == k.table.routes[key := l.table.routes[key]]
      && l.table.routes[key].requesterTx == e.request.conn && l.table.routes[key].originalId == e.request.id
      && l.table.routes[key].provider == e.found.at
      && l.refusals == k.refusals
  {
  }

  lemma OtherRoutes(k: Kernel, e: Event)
    requires Enabled(k, e) && !Inserts(e) && !e.Refuse?
    ensures Step(k, e).table.routes == k.table.routes && Step(k, e).refusals == k.refusals
  {
  }

  lemma FreshKey(k: Kernel)
    requires PendingAnswers.Inv(k)
    ensures k.table.nextSeq !in k.table.routes
  {
    assert k.table.nextSeq !in k.table.log;
  }

  lemma AdvanceGrows(node: Node, e: Event, o: Origin, hops: nat)
    requires Enabled(node.kernel, e) && node.kernel.table.nextSeq !in node.kernel.table.routes
    ensures Grown(node, Advance(node, e, o, hops), e, o, hops)
  {
    if Inserts(e) { InsertRoutes(node.kernel, e); }
    else if !e.Refuse? { OtherRoutes(node.kernel, e); }
  }

  lemma GrownSound(node: Node, next: Node, e: Event, o: Origin, hops: nat)
    requires Sound(node) && Grown(node, next, e, o, hops)
    ensures Sound(next)
  {
    assert next.origin.Keys == next.kernel.table.routes.Keys;
  }

  /** A plugin's own request has the plugin as origin; one that came over a link may have any. */
  lemma GrownOrigins(side: Side, node: Node, next: Node, e: Event, o: Origin, hops: nat)
    requires Sound(node) && Sound(next) && Grown(node, next, e, o, hops) && OwnOrigins(side, node)
    requires Inserts(e) || e.Refuse? ==> Asker(e).conn in node.links || o == Origin(side, Asker(e).conn, Asker(e).id)
    ensures OwnOrigins(side, next)
  {
  }

  lemma GrownLinked(node: Node, next: Node, other: Node, e: Event, o: Origin, hops: nat)
    requires Sound(node) && Sound(next) && Grown(node, next, e, o, hops) && Linked(node, other)
    requires Inserts(e) || e.Refuse? ==> Asker(e).conn !in node.links || StandsFor(other, Asker(e).id, o)
    ensures Linked(next, other)
  {
  }

  /** Origins only grow. */
  ghost predicate Extends(node: Node, next: Node) {
    forall k :: k in node.origin ==> StandsFor(next, k, node.origin[k])
  }

  lemma GrownExtends(node: Node, next: Node, e: Event, o: Origin, hops: nat)
    requires Sound(node) && Grown(node, next, e, o, hops)
    ensures Extends(node, next)
  {
  }

  lemma LinkedExtends(node: Node, other: Node, next: Node)
    requires Sound(node) && Linked(node, other) && Extends(other, next)
    ensures Linked(node, next)
  {
  }

  lemma CrossingExtends(msgs: seq<Msg>, from: Node, to: Node, from': Node, to': Node)
    requires Crossing(msgs, from, to) && Extends(from, from') && Extends(to, to')
    ensures Crossing(msgs, from', to')
  {
  }

  lemma GrownClientHops(node: Node, next: Node, e: Event, o: Origin, hops: nat)
    requires Sound(node) && Sound(next) && Grown(node, next, e, o, hops) && ClientHops(node) && hops <= 2
    requires e.RouteLocal? ==> e.found.at.conn != BRIDGE
    requires e.Relay? ==> hops == 0
    ensures ClientHops(next)
  {
  }

  lemma GrownHostHops(node: Node, next: Node, e: Event, o: Origin, hops: nat)
    requires Grown(node, next, e, o, hops) && HostHops(node) && hops <= 1
    ensures HostHops(next)
  {
  }

  // --- steps of the network ---

  /** One kernel moves on; the other and the messages in transit stay as they are. */
  lemma NodeMapped(n: Net, side: Side, next: Node, e: Event, o: Origin, hops: nat)
    requires Mapped(n) && Grown(At(n, side), next, e, o, hops) && FindsPlugin(side, e)
    requires Known(n, side, e, o)
    requires hops <= if side == Client then 2 else 1
    requires side == Client && e.Relay? ==> hops == 0
    requires side == Host ==> NoBridge(next.kernel)
    ensures Mapped(Put(n, side, next))
  {
    var node := At(n, side);
    GrownSound(node, next, e, o, hops);
    GrownOrigins(side, node, next, e, o, hops);
    GrownExtends(node, next, e, o, hops);
    if side == Client {
      GrownLinked(node, next, n.host, e, o, hops);
      GrownClientHops(node, next, e, o, hops);
      LinkedExtends(n.host, n.client, next);
      CrossingExtends(n.up, n.client, n.host, next, n.host);
      CrossingExtends(n.down, n.host, n.client, n.host, next);
    } else {
      GrownLinked(node, next, n.client, e, o, hops);
      GrownHostHops(node, next, e, o, hops);
      LinkedExtends(n.client, n.host, next);
      CrossingExtends(n.up, n.client, n.host, n.client, next);
      CrossingExtends(n.down, n.host, n.client, next, n.client);
    }
  }

  /** `o` is the origin of the request `e` inserts or refuses: what it stands for on the other side
      if it came over a link, the requester itself otherwise. */
  ghost predicate Known(n: Net, side: Side, e: Event, o: Origin) {
    Inserts(e) || e.Refuse? ==>
      if Asker(e).conn in At(n, side).links then StandsFor(At(n, Other(side)), Asker(e).id, o)
      else o == Origin(side, Asker(e).conn, Asker(e).id)
  }

  lemma NodeStep(n: Net, side: Side, e: Event, o: Origin, hops: nat)
    requires Inv(n) && Enabled(At(n, side).kernel, e) && FindsPlugin(side, e)
    requires Known(n, side, e, o)
    requires hops <= if side == Client then 2 else 1
    requires side == Client && e.Relay? ==> hops == 0
    requires side == Host && e.Register? ==> e.conn != BRIDGE
    ensures Inv(Put(n, side, Advance(At(n, side), e, o, hops)))
  {
    AdvanceKernel(At(n, side), e, o, hops);
    AdvanceMapped(n, side, e, o, hops);
  }

  lemma AdvanceKernel(node: Node, e: Event, o: Origin, hops: nat)
    requires PendingAnswers.Inv(node.kernel) && Enabled(node.kernel, e)
    ensures PendingAnswers.Inv(Advance(node, e, o, hops).kernel)
    ensures Grown(node, Advance(node, e, o, hops), e, o, hops)
  {
    FreshKey(node.kernel);
    AdvanceGrows(node, e, o, hops);
    PendingAnswers.InvStep(node.kernel, e);
  }

  lemma AdvanceMapped(n: Net, side: Side, e: Event, o: Origin, hops: nat)
    requires Mapped(n) && Enabled(At(n, side).kernel, e) && FindsPlugin(side, e)
    requires Grown(At(n, side), Advance(At(n, side), e, o, hops), e, o, hops)
    requires Known(n, side, e, o)
    requires hops <= if side == Client then 2 else 1
    requires side == Client && e.Relay? ==> hops == 0
    requires side == Host && e.Register? ==> e.conn != BRIDGE
    ensures Mapped(Put(n, side, Advance(At(n, side), e, o, hops)))
  {
    if side == Host { NoBridgeStep(n.host.kernel, e); }
    NodeMapped(n, side, Advance(At(n, side), e, o, hops), e, o, hops);
  }

  lemma NoBridgeStep(k: Kernel, e: Event)
    requires Enabled(k, e) && NoBridge(k) && (e.Register? ==> e.conn != BRIDGE)
    ensures NoBridge(Step(k, e))
  {
  }

  lemma LocalStep(n: Net, side: Side, e: Event)
    requires Inv(n) && CanAct(n, side, e)
    ensures Inv(Acted(n, side, e))
  {
    NodeStep(n, side, e, LocalOrigin(side, e), 0);
  }

  lemma PoppedMapped(n: Net, side: Side)
    requires Mapped(n) && Inbound(n, side) != []
    ensures Mapped(Popped(n, side))
  {
  }

  /** What a kernel takes off the bridge stands for its origin on the other side, and a request
      that came over the bridge is never relayed again. */
  lemma Received(n: Net, side: Side, e: Event)
    requires Mapped(n) && CanTake(n, side, e)
    ensures !e.Relay? && !e.Register? && Known(n, side, e, Inbound(n, side)[0].origin)
    ensures HopsUpTo(Inbound(n, side)[0], if side == Client then 2 else 1)
  {
    assert Crosses(Inbound(n, side)[0], At(n, Other(side)), At(n, side));
  }

  lemma ReceiveMapped(n: Net, side: Side, e: Event, o: Origin, hops: nat)
    requires Mapped(n) && CanTake(n, side, e)
    requires o == Inbound(n, side)[0].origin && hops == if Inbound(n, side)[0].Ask? then Inbound(n, side)[0].hops else 0
    requires Grown(At(n, side), Advance(At(n, side), e, o, hops), e, o, hops)
    ensures Mapped(Taken(n, side, e))
  {
    Received(n, side, e);
    PoppedMapped(n, side);
    AdvanceMapped(Popped(n, side), side, e, o, hops);
  }

  lemma ReceiveStep(n: Net, side: Side, e: Event)
    requires Inv(n) && CanTake(n, side, e)
    ensures Inv(Taken(n, side, e))
  {
    var m := Inbound(n, side)[0];
    var hops := if m.Ask? then m.hops else 0;
    AdvanceKernel(At(n, side), e, m.origin, hops);
    ReceiveMapped(n, side, e, m.origin, hops);
  }

  /** A message that stands for its origin joins those in transit. */
  lemma PushedMapped(n: Net, side: Side, m: Msg)
    requires Mapped(n)
    requires Crosses(m, At(n, side), At(n, Other(side))) && HopsUpTo(m, if side == Client then 1 else 2)
    ensures Mapped(Pushed(n, side, m))
  {
    if side == Client {
      CrossingPush(n.up, m, n.client, n.host, 1);
    } else {
      CrossingPush(n.down, m, n.host, n.client, 2);
    }
  }

  lemma CrossingPush(msgs: seq<Msg>, m: Msg, from: Node, to: Node, most: nat)
    requires Crossing(msgs, from, to) && Hops(msgs, most) && Crosses(m, from, to) && HopsUpTo(m, most)
    ensures Crossing(msgs + [m], from, to) && Hops(msgs + [m], most)
  {
  }

  lemma DeliveredMapped(n: Net, d: Delivered)
    requires Mapped(n) && Right(d)
    ensures Mapped(n.(delivered := n.delivered + [d]))
  {
  }

  /** What was issued under `key` is addressed as its request was routed. */
  ghost predicate LogFits(t: Table, key: ActionId) {
    key in t.log && key in t.routes && PendingAnswers.Addressed(t.log[key], t.routes[key])
  }

  lemma LogsFit(k: Kernel, key: ActionId)
    requires PendingAnswers.Inv(k) && key in k.table.log
    ensures LogFits(k.table, key)
  {
    assert PendingAnswers.Answered(k.table, key);
  }

  /** A response goes back where its request came from. */
  lemma ResponseStands(side: Side, node: Node, other: Node, key: ActionId, out: Out)
    requires Sound(node) && OwnOrigins(side, node) && Linked(node, other)
    requires key in node.origin && LogFits(node.kernel.table, key)
    requires out in node.kernel.table.log[key] && out.Response?
    ensures out.to in node.links ==> StandsFor(other, out.id, node.origin[key])
    ensures out.to !in node.links ==> node.origin[key] == Origin(side, out.to, out.id)
  {
  }

  /** What the client forwards over the bridge has not crossed before. */
  lemma ForwardHops(node: Node, key: ActionId, out: Out)
    requires Sound(node) && ClientHops(node)
    requires key in node.hops && LogFits(node.kernel.table, key)
    requires out in node.kernel.table.log[key] && out.Forward? && out.to == BRIDGE
    ensures node.hops[key] == 0
  {
  }

  lemma LeavesMapped(n: Net, side: Side, key: ActionId, out: Out)
    requires Mapped(n) && key in At(n, side).origin && LogFits(At(n, side).kernel.table, key)
    requires out in At(n, side).kernel.table.log[key]
    ensures Mapped(Leaves(n, side, key, out))
  {
    if out.Response? {
      ResponseLeaves(n, side, key, out);
    } else if LinkOf(n, side) == Some(out.to) && out.Forward? {
      ForwardLeaves(n, side, key, out);
    }
  }

  lemma ResponseLeaves(n: Net, side: Side, key: ActionId, out: Out)
    requires Mapped(n) && key in At(n, side).origin && LogFits(At(n, side).kernel.table, key)
    requires out in At(n, side).kernel.table.log[key] && out.Response?
    ensures Mapped(Leaves(n, side, key, out))
  {
    var o := At(n, side).origin[key];
    ResponseStands(side, At(n, side), At(n, Other(side)), key, out);
    if LinkOf(n, side) == Some(out.to) {
      assert out.to in At(n, side).links;
      PushedMapped(n, side, Answer(out.id, o, out.status));
    } else if out.to !in At(n, side).links {
      DeliveredMapped(n, Delivered(side, out.to, out.id, o, out.status));
    }
  }

  lemma ForwardLeaves(n: Net, side: Side, key: ActionId, out: Out)
    requires Mapped(n) && key in At(n, side).origin && LogFits(At(n, side).kernel.table, key)
    requires out in At(n, side).kernel.table.log[key] && out.Forward? && LinkOf(n, side) == Some(out.to)
    ensures Mapped(Leaves(n, side, key, out))
  {
    if side == Client { ForwardHops(n.client, key, out); }
    PushedMapped(n, side, Ask(key, At(n, side).origin[key], At(n, side).hops[key] + 1));
  }

  lemma RefusalLeavesMapped(n: Net, side: Side, i: nat)
    requires Mapped(n) && i < |At(n, side).refused| && At(n, side).kernel.refusals[i].Response?
    ensures Mapped(RefusalLeaves(n, side, At(n, side).kernel.refusals[i], At(n, side).refused[i]))
  {
    var node := At(n, side);
    var out := node.kernel.refusals[i];
    if LinkOf(n, side) == Some(out.to) {
      assert out.to in node.links;
      PushedMapped(n, side, Answer(out.id, node.refused[i], out.status));
    } else if out.to !in node.links {
      DeliveredMapped(n, Delivered(side, out.to, out.id, node.refused[i], out.status));
    }
  }

  ghost predicate SameKernels(n: Net, n': Net) {
    n'.client.kernel == n.client.kernel && n'.host.kernel == n.host.kernel
  }

  lemma SendMapped(n: Net, side: Side, key: ActionId)
    requires Mapped(n) && CanSend(n, side, key) && LogFits(At(n, side).kernel.table, key)
    ensures Mapped(SentNext(n, side, key)) && SameKernels(n, SentNext(n, side, key))
  {
    var out := At(n, side).kernel.table.log[key][Sent(n, side, key)];
    LeavesMapped(n, side, key, out);
    LeavesKernels(n, side, key, out);
    CountedMapped(Leaves(n, side, key, out), n.sent[(side, key) := Sent(n, side, key) + 1]);
  }

  lemma LeavesKernels(n: Net, side: Side, key: ActionId, out: Out)
    requires key in At(n, side).origin && key in At(n, side).hops
    ensures SameKernels(n, Leaves(n, side, key, out))
  {
  }

  lemma CountedMapped(n: Net, sent: map<(Side, ActionId), nat>)
    requires Mapped(n)
    ensures Mapped(n.(sent := sent))
  {
  }

  lemma SendStep(n: Net, side: Side, key: ActionId)
    requires Inv(n) && CanSend(n, side, key)
    ensures Inv(SentNext(n, side, key))
  {
    LogsFit(At(n, side).kernel, key);
    SendMapped(n, side, key);
  }

  lemma RefusalMapped(n: Net, side: Side)
    requires Mapped(n) && CanRefuse(n, side)
    ensures Mapped(RefusalSent(n, side)) && SameKernels(n, RefusalSent(n, side))
  {
    RefusalLeavesMapped(n, side, RefusalsSent(n, side));
  }

  lemma SendRefusalStep(n: Net, side: Side)
    requires Inv(n) && CanRefuse(n, side)
    ensures Inv(RefusalSent(n, side))
  {
    RefusalMapped(n, side);
  }

  lemma IgnoreStep(n: Net, side: Side)
    requires Inv(n) && Inbound(n, side) != []
    ensures Inv(Popped(n, side))
  {
    PoppedMapped(n, side);
  }

  /** A connection no request came in on may become a link. */
  lemma MoreLinks(host: Node, client: Node, ws: Conn)
    requires Sound(host) && OwnOrigins(Host, host) && Linked(host, client) && Unused(host, ws)
    ensures var h := host.(links := host.links + {ws});
      Sound(h) && OwnOrigins(Host, h) && Linked(h, client)
  {
  }

  lemma LinkedTo(n: Net, ws: Conn)
    requires Mapped(n) && Unused(n.host, ws) && ws != BRIDGE
    ensures Mapped(n.(host := n.host.(links := n.host.links + {ws}), link := Some(ws)))
  {
    var h := n.host.(links := n.host.links + {ws});
    MoreLinks(n.host, n.client, ws);
    assert Extends(n.host, h);
    LinkedExtends(n.client, n.host, h);
    CrossingExtends(n.up, n.client, n.host, n.client, h);
    CrossingExtends(n.down, n.host, n.client, h, n.client);
  }

  /** Both kernels register the other, and then the link is there. */
  lemma LinkUpStep(n: Net, ws: Conn)
    requires Inv(n) && CanLinkUp(n, ws)
    ensures Inv(LinkedUp(n, ws))
  {
    var o := Origin(Client, 0, 0);
    var e, f := Register(n.device, BRIDGE), Register(n.device, ws);
    AdvanceKernel(n.client, e, o, 0);
    AdvanceKernel(n.host, f, o, 0);
    BothMapped(n, e, f, o);
    LinkedTo(Both(n, e, f, o), ws);
    assert LinkedUp(n, ws).host == Both(n, e, f, o).host.(links := n.host.links + {ws});
  }

  lemma LinkDownStep(n: Net)
    requires Inv(n) && CanLinkDown(n)
    ensures Inv(LinkedDown(n))
  {
    var o, e := Origin(Client, 0, 0), Unregister(n.device);
    AdvanceKernel(n.client, e, o, 0);
    AdvanceKernel(n.host, e, o, 0);
    BothMapped(n, e, e, o);
    assert LinkedDown(n) == Both(n, e, e, o).(link := None, up := [], down := []);
  }

  /** A step of each kernel. */
  function Both(n: Net, e: Event, f: Event, o: Origin): Net
    requires Enabled(n.client.kernel, e) && Enabled(n.host.kernel, f)
  {
    n.(client := Advance(n.client, e, o, 0), host := Advance(n.host, f, o, 0))
  }

  lemma BothMapped(n: Net, e: Event, f: Event, o: Origin)
    requires Mapped(n) && Enabled(n.client.kernel, e) && Enabled(n.host.kernel, f)
    requires e.Register? || e.Unregister?
    requires f.Unregister? || (f.Register? && f.conn != BRIDGE)
    requires Grown(n.client, Advance(n.client, e, o, 0), e, o, 0) && Grown(n.host, Advance(n.host, f, o, 0), f, o, 0)
    ensures Mapped(Both(n, e, f, o))
  {
    AdvanceMapped(n, Client, e, o, 0);
    var p := Put(n, Client, Advance(n.client, e, o, 0));
    AdvanceMapped(p, Host, f, o, 0);
    assert Both(n, e, f, o) == Put(p, Host, Advance(n.host, f, o, 0));
  }

  lemma InvStep(n: Net, x: NetEvent)
    requires Inv(n) && NetEnabled(n, x)
    ensures Inv(NetStep(n, x))
  {
    match x {
      case LinkUp(ws) => LinkUpStep(n, ws);
      case LinkDown => LinkDownStep(n);
      case Local(side, e) => LocalStep(n, side, e);
      case Receive(side, e) => ReceiveStep(n, side, e);
      case Ignore(side) => IgnoreStep(n, side);
      case Send(side, key) => SendStep(n, side, key);
      case SendRefusal(side) => SendRefusalStep(n, side);
    }
  }

  lemma {:induction false} InvRun(n: Net, events: seq<NetEvent>)
    requires Inv(n) && Relay.IsRun(n, events)
    ensures Inv(Relay.Run(n, events))
    decreases |events|
  {
    if events != [] {
      InvStep(n, events[0]);
      InvRun(NetStep(n, events[0]), events[1..]);
    }
  }

  lemma InvInit(n: Net)
    requires Relay.Init(n)
    ensures Inv(n)
  {
    PendingAnswers.InvInit(n.client.kernel);
    PendingAnswers.InvInit(n.host.kernel);
    assert n.client.origin.Keys == {} && n.client.hops.Keys == {} && n.host.origin.Keys == {} && n.host.hops.Keys == {};
    assert n.client.kernel.table.routes.Keys == {} && n.host.kernel.table.routes.Keys == {};
  }

  lemma ReachableInv(n: Net)
    requires Relay.Reachable(n)
    ensures Inv(n)
  {
    var n0, events :| Relay.Init(n0) && Relay.IsRun(n0, events) && Relay.Run(n0, events) == n;
    InvInit(n0);
    InvRun(n0, events);
  }

  ghost predicate OwnAnswers(delivered: seq<Delivered>) {
    forall i :: 0 <= i < |delivered| ==>
      delivered[i].origin == Origin(delivered[i].side, delivered[i].tx, delivered[i].id)
  }

  ghost predicate AnswersStandFor(msgs: seq<Msg>, to: Node) {
    forall i :: 0 <= i < |msgs| && msgs[i].Answer? ==>
      msgs[i].id in to.origin && to.origin[msgs[i].id] == msgs[i].origin
  }

  ghost predicate CrossedAtMost(msgs: seq<Msg>, most: nat) {
    forall i :: 0 <= i < |msgs| && msgs[i].Ask? ==> 1 <= msgs[i].hops <= most
  }

  lemma InTransit(msgs: seq<Msg>, from: Node, to: Node, most: nat)
    requires Crossing(msgs, from, to) && Hops(msgs, most)
    ensures AnswersStandFor(msgs, to) && CrossedAtMost(msgs, most)
  {
    forall i | 0 <= i < |msgs| ensures Crosses(msgs[i], from, to) && HopsUpTo(msgs[i], most) {}
  }

  /** In every reachable state of the two kernels: each response handed to a plugin answers a
      request of that very plugin connection, on that kernel, under the plugin's own id; each
      answer on the bridge goes to an id that stands for the same original request on the kernel
      it travels to; and no request crosses the bridge more than twice, up only once. */
  lemma AnsweredToOrigin(n: Net)
    requires Relay.Reachable(n)
    ensures OwnAnswers(n.delivered)
    ensures AnswersStandFor(n.down, n.client) && AnswersStandFor(n.up, n.host)
    ensures CrossedAtMost(n.up, 1) && CrossedAtMost(n.down, 2)
  {
    ReachableInv(n);
    InTransit(n.up, n.client, n.host, 1);
    InTransit(n.down, n.host, n.client, 2);
  }

  /** A request that came over the bridge and finds no provider is never relayed again. */
  lemma MissNotRelayed(n: Net, side: Side, e: Event)
    requires Relay.Reachable(n) && NetEnabled(n, Receive(side, e))
    ensures !e.Relay?
  {
    ReachableInv(n);
    Received(n, side, e);
  }
}
