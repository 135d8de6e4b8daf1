/** A client kernel and its host, joined by the bridge: each side runs the pending-action
    protocol, and requests and responses addressed to the other kernel's connection cross
    the bridge. Every request carries its origin through both id translations. */
module Relay {
  import opened Collections
  import opened PendingActions

  datatype Side = Client | Host

  /** Who asked: on which kernel, on which connection, under which id of their own. */
  datatype Origin = Origin(side: Side, tx: Conn, id: ActionId)

  /** What crosses the bridge. `hops` counts the crossings of a request, this one included. */
  datatype Msg =
    | Ask(id: ActionId, origin: Origin, hops: nat)
    | Answer(id: ActionId, origin: Origin, status: Status)

  /** A kernel, with the origin of each id it minted and how often that request has crossed the
      bridge. `links` are the connections that have led to the other kernel. */
  datatype Node = Node(
    kernel: Kernel,
    links: set<Conn>,
    origin: map<ActionId, Origin>,
    hops: map<ActionId, nat>,
    refused: seq<Origin>
  )

  /** A response handed to a plugin of one of the kernels. */
  datatype Delivered = Delivered(side: Side, tx: Conn, id: ActionId, origin: Origin, status: Status)

  datatype Net = Net(
    client: Node,
    host: Node,
    device: PluginId,       // the client kernel's name on both sides
    link: Option<Conn>,     // the host's connection to the device, while the bridge is up
    up: seq<Msg>,           // client to host
    down: seq<Msg>,
    delivered: seq<Delivered>,
    sent: map<(Side, ActionId), nat>,  // how many of an action's logged messages have left
    refusalsSent: map<Side, nat>
  )

  function At(n: Net, side: Side): Node {
    if side == Client then n.client else n.host
  }

  function Other(side: Side): Side {
    if side == Client then Host else Client
  }

  function Put(n: Net, side: Side, node: Node): Net {
    if side == Client then n.(client := node) else n.(host := node)
  }

  function Sent(n: Net, side: Side, key: ActionId): nat {
    if (side, key) in n.sent then n.sent[(side, key)] else 0
  }

  function RefusalsSent(n: Net, side: Side): nat {
    if side in n.refusalsSent then n.refusalsSent[side] else 0
  }

  /** The connection over which `side` reaches the other kernel. */
  function LinkOf(n: Net, side: Side): Option<Conn> {
    if n.link.None? then None else if side == Client then Some(BRIDGE) else n.link
  }

  // --- one kernel step ---

  predicate Inserts(e: Event) { e.RouteLocal? || e.Relay? }

  /** The kernel's step, with the origin and crossings of the request it may insert or refuse. */
  function Advance(node: Node, e: Event, o: Origin, hops: nat): Node
    requires Enabled(node.kernel, e)
  {
    var key := node.kernel.table.nextSeq;
    var next := node.(kernel := Step(node.kernel, e));
    if Inserts(e) then next.(origin := node.origin[key := o], hops := node.hops[key := hops])
    else if e.Refuse? then next.(refused := node.refused + [o])
    else next
  }

  /** A link registers, or a request or an answer comes in over one. Stream messages may come from
      either side at any time. */
  predicate Concerns(e: Event, links: set<Conn>) {
    match e
    case Register(_, conn) => conn in links
    case RouteLocal(q, _) => q.conn in links
    case Relay(q, _) => q.conn in links
    case Refuse(conn, _, _) => conn in links
    case Respond(conn, _, _) => conn in links
    case _ => false
  }

  /** The entry for the device on the client declares no action, so no lookup returns it. */
  predicate FindsPlugin(side: Side, e: Event) {
    side == Client && e.RouteLocal? ==> e.found.at.conn != BRIDGE
  }

  // --- events ---

  datatype NetEvent =
    | LinkUp(ws: Conn)
    | LinkDown
    | Local(side: Side, e: Event)      // any other step of a kernel: its plugins, streams, removals, clock
    | Receive(side: Side, e: Event)    // a kernel takes the next message from the bridge
    | Ignore(side: Side)               // ... or drops it: a late or unmatched answer
    | Send(side: Side, key: ActionId)  // the next message logged for `key` leaves
    | SendRefusal(side: Side)

  function Inbound(n: Net, side: Side): seq<Msg> {
    if side == Client then n.down else n.up
  }

  function Popped(n: Net, side: Side): Net
    requires Inbound(n, side) != []
  {
    if side == Client then n.(down := n.down[1..]) else n.(up := n.up[1..])
  }

  function Pushed(n: Net, side: Side, m: Msg): Net {
    if side == Client then n.(up := n.up + [m]) else n.(down := n.down + [m])
  }

  /** The event with which the router takes `m` off the link. */
  predicate Handles(e: Event, m: Msg, link: Conn) {
    match m
    case Ask(id, _, _) =>
      || (e.RouteLocal? && e.request.conn == link && e.request.id == id)
      || (e.Relay? && e.request.conn == link && e.request.id == id)
      || (e.Refuse? && e.conn == link && e.id == id)
    case Answer(id, _, status) => e.Respond? && e.conn == link && e.key == id && e.status == status
  }

  predicate CanLinkUp(n: Net, ws: Conn) {
    && n.link.None?
    && Enabled(n.client.kernel, Register(n.device, BRIDGE)) && Enabled(n.host.kernel, Register(n.device, ws))
    && ws != BRIDGE && Unused(n.host, ws)
  }

  predicate CanLinkDown(n: Net) {
    && n.link.Some?
    && Enabled(n.client.kernel, Unregister(n.device)) && Enabled(n.host.kernel, Unregister(n.device))
  }

  predicate CanAct(n: Net, side: Side, e: Event) {
    && Enabled(At(n, side).kernel, e) && !Concerns(e, At(n, side).links) && FindsPlugin(side, e)
    && (e.Register? ==> e.plugin != n.device && e.conn != BRIDGE)
    && (e.Unregister? ==> e.plugin != n.device)
  }

  predicate CanTake(n: Net, side: Side, e: Event) {
    && LinkOf(n, side).Some? && Inbound(n, side) != []
    && Enabled(At(n, side).kernel, e) && FindsPlugin(side, e)
    && Handles(e, Inbound(n, side)[0], LinkOf(n, side).value)
  }

  predicate CanSend(n: Net, side: Side, key: ActionId) {
    var node := At(n, side);
    && key in node.kernel.table.log && Sent(n, side, key) < |node.kernel.table.log[key]|
    && key in node.origin && key in node.hops
  }

  predicate CanRefuse(n: Net, side: Side) {
    var (i, node) := (RefusalsSent(n, side), At(n, side));
    i < |node.kernel.refusals| && i < |node.refused| && node.kernel.refusals[i].Response?
  }

  predicate NetEnabled(n: Net, x: NetEvent) {
    match x
    case LinkUp(ws) => CanLinkUp(n, ws)
    case LinkDown => CanLinkDown(n)
    case Local(side, e) => CanAct(n, side, e)
    case Receive(side, e) => CanTake(n, side, e)
    case Ignore(side) => Inbound(n, side) != []
    case Send(side, key) => CanSend(n, side, key)
    case SendRefusal(side) => CanRefuse(n, side)
  }

  /** No request has come in on `conn`: connection ids are never reused. */
  predicate Unused(node: Node, conn: Conn) {
    && (forall k :: k in node.kernel.table.routes ==> node.kernel.table.routes[k].requesterTx != conn)
    && (forall i :: 0 <= i < |node.kernel.refusals| ==> node.kernel.refusals[i].to != conn)
  }

  /** A logged message leaves the kernel: over the bridge if addressed to the link, to a plugin
      otherwise. What is addressed to a closed link is lost. Only requests and responses matter here. */
  function Leaves(n: Net, side: Side, key: ActionId, out: Out): Net
    requires key in At(n, side).origin && key in At(n, side).hops
  {
    var node := At(n, side);
    if LinkOf(n, side) == Some(out.to) then
      match out
      case Forward(_, _) => Pushed(n, side, Ask(key, node.origin[key], node.hops[key] + 1))
      case Response(_, id, status, _) => Pushed(n, side, Answer(id, node.origin[key], status))
      case _ => n
    else if out.Response? && out.to !in node.links then
      n.(delivered := n.delivered + [Delivered(side, out.to, out.id, node.origin[key], out.status)])
    else n
  }

  function RefusalLeaves(n: Net, side: Side, out: Out, o: Origin): Net
    requires out.Response?
  {
    if LinkOf(n, side) == Some(out.to) then Pushed(n, side, Answer(out.id, o, out.status))
    else if out.to !in At(n, side).links
    then n.(delivered := n.delivered + [Delivered(side, out.to, out.id, o, out.status)])
    else n
  }

  /** The origin of a request one of the kernel's own plugins makes. */
  function LocalOrigin(side: Side, e: Event): Origin {
    match e
    case RouteLocal(q, _) => Origin(side, q.conn, q.id)
    case Relay(q, _) => Origin(side, q.conn, q.id)
    case Refuse(conn, id, _) => Origin(side, conn, id)
    case _ => Origin(side, 0, 0)
  }

  function LinkedUp(n: Net, ws: Conn): Net
    requires CanLinkUp(n, ws)
  {
    n.(link := Some(ws),
       client := n.client.(kernel := Step(n.client.kernel, Register(n.device, BRIDGE))),
       host := n.host.(kernel := Step(n.host.kernel, Register(n.device, ws)), links := n.host.links + {ws}))
  }

  function LinkedDown(n: Net): Net
    requires CanLinkDown(n)
  {
    n.(link := None, up := [], down := [],
       client := n.client.(kernel := Step(n.client.kernel, Unregister(n.device))),
       host := n.host.(kernel := Step(n.host.kernel, Unregister(n.device))))
  }

  function Acted(n: Net, side: Side, e: Event): Net
    requires CanAct(n, side, e)
  {
    Put(n, side, Advance(At(n, side), e, LocalOrigin(side, e), 0))
  }

  function Taken(n: Net, side: Side, e: Event): Net
    requires CanTake(n, side, e)
  {
    var m := Inbound(n, side)[0];
    Put(Popped(n, side), side, Advance(At(n, side), e, m.origin, if m.Ask? then m.hops else 0))
  }

  function SentNext(n: Net, side: Side, key: ActionId): Net
    requires CanSend(n, side, key)
  {
    var i := Sent(n, side, key);
    Leaves(n, side, key, At(n, side).kernel.table.log[key][i]).(sent := n.sent[(side, key) := i + 1])
  }

  function RefusalSent(n: Net, side: Side): Net
    requires CanRefuse(n, side)
  {
    var i := RefusalsSent(n, side);
    RefusalLeaves(n, side, At(n, side).kernel.refusals[i], At(n, side).refused[i])
      .(refusalsSent := n.refusalsSent[side := i + 1])
  }

  function NetStep(n: Net, x: NetEvent): Net
    requires NetEnabled(n, x)
  {
    match x
    case LinkUp(ws) => LinkedUp(n, ws)
    case LinkDown => LinkedDown(n)
    case Local(side, e) => Acted(n, side, e)
    case Receive(side, e) => Taken(n, side, e)
    case Ignore(side) => Popped(n, side)
    case Send(side, key) => SentNext(n, side, key)
    case SendRefusal(side) => RefusalSent(n, side)
  }

  predicate IsRun(n: Net, events: seq<NetEvent>)
    decreases |events|
  {
    events == [] || (NetEnabled(n, events[0]) && IsRun(NetStep(n, events[0]), events[1..]))
  }

  function Run(n: Net, events: seq<NetEvent>): Net
    requires IsRun(n, events)
    decreases |events|
  {
    if events == [] then n else Run(NetStep(n, events[0]), events[1..])
  }

  ghost predicate Fresh(node: Node) {
    PendingActions.Init(node.kernel) && node.origin == map[] && node.hops == map[] && node.refused == []
  }

  ghost predicate Init(n: Net) {
    && Fresh(n.client) && n.client.links == {BRIDGE}
    && Fresh(n.host) && n.host.links == {}
    && n.link.None? && n.up == [] && n.down == [] && n.delivered == []
    && n.sent == map[] && n.refusalsSent == map[]
  }

  ghost predicate Reachable(n: Net) {
    exists n0, events :: Init(n0) && IsRun(n0, events) && Run(n0, events) == n
  }
}
