/** The pending-action table and every router arm that touches it, as a state machine:
    requests, relays, responses, stream chunks, session closes, the two sweeps, and
    the removal of a provider. */
module PendingActions {
  import opened Collections

  type PluginId = nat
  type Conn = nat

  /** Requesters choose their own ids freely, so they share one space with the kernel's. */
  type ActionId = nat

  /** The connection that leads to the host (BRIDGE_CONN_ID_BASE). */
  const BRIDGE: Conn := 2_000_000_000

  datatype PendingAction = PendingAction(
    requesterTx: Conn,
    originalId: ActionId,
    requesterId: PluginId,
    deadline: nat,
    providerId: PluginId,
    streaming: bool,
    accepted: bool,
    lastActivity: nat
  )

  datatype Status = Ok | Error | Timeout | Backpressure | NotFound | Denied | QuotaExceeded

  /** A message the kernel issues. A response is `synthesized` when the kernel itself answers
      instead of passing on the provider's answer. */
  datatype Out =
    | Forward(to: Conn, id: ActionId)
    | Response(to: Conn, id: ActionId, status: Status, synthesized: bool)
    | Chunk(to: Conn, id: ActionId)
    | Abort(to: Conn, id: ActionId)
    | Close(to: Conn, id: ActionId)

  /** One registration of a plugin: its connection, and a serial no other registration has. */
  datatype Registration = Registration(conn: Conn, serial: nat)

  /** How a request was routed when it entered the table: the registration the lookup returned,
      and whether the provider still held it then. */
  datatype Route = Route(requesterTx: Conn, originalId: ActionId, provider: Registration, local: bool, current: bool)

  /** The two connection maps, every registration there has been, and the removals under way: their
      id is free and the actions routed to them have not been failed yet. */
  datatype Conns = Conns(
    byPlugin: map<PluginId, Registration>,
    byConn: map<Conn, PluginId>,
    made: set<(PluginId, Registration)>,
    serials: nat,
    failing: set<(PluginId, Registration)>
  )

  /** The table, and for each id it ever minted the messages issued on its behalf. `twice` holds the
      ids whose relay was withdrawn when their entry had already gone. */
  datatype Table = Table(
    pending: map<ActionId, PendingAction>,
    nextSeq: ActionId,
    log: map<ActionId, seq<Out>>,
    routes: map<ActionId, Route>,
    everAccepted: set<ActionId>,
    twice: set<ActionId>
  )

  /** `busy` is the id of the relay the router has inserted and not sent yet. */
  datatype Kernel = Kernel(
    cap: Option<nat>,
    now: nat,
    conns: Conns,
    table: Table,
    refusals: seq<Out>,
    busy: Option<ActionId>
  )

  // --- table operations ---

  /** `register_pending_action` under a fresh id, with the request forwarded to the provider. */
  function Insert(t: Table, p: PendingAction, r: Route): Table {
    t.(pending := t.pending[t.nextSeq := p],
       nextSeq := t.nextSeq + 1,
       log := t.log[t.nextSeq := [Forward(r.provider.conn, t.nextSeq)]],
       routes := t.routes[t.nextSeq := r])
  }

  /** The entry leaves the table with these last messages. */
  function Leave(t: Table, key: ActionId, last: seq<Out>): Table
    requires key in t.log
  {
    t.(pending := t.pending - {key}, log := t.log[key := t.log[key] + last])
  }

  function Issue(t: Table, key: ActionId, p: PendingAction, out: seq<Out>): Table
    requires key in t.log
  {
    t.(pending := t.pending[key := p], log := t.log[key := t.log[key] + out])
  }

  /** Entries in `gone` leave together, each with its own last messages. */
  function LeaveAll(t: Table, gone: set<ActionId>, last: map<ActionId, seq<Out>>): Table
    requires gone <= last.Keys
  {
    t.(pending := t.pending - gone,
       log := map k | k in t.log :: if k in gone then t.log[k] + last[k] else t.log[k])
  }

  /** The actions of `requester` in flight at `provider`. */
  function ActionsOf(t: Table, requester: PluginId, provider: PluginId): set<ActionId> {
    set k | k in t.pending && t.pending[k].requesterId == requester && t.pending[k].providerId == provider
  }

  function CountFor(t: Table, requester: PluginId, provider: PluginId): nat {
    |ActionsOf(t, requester, provider)|
  }

  /** `notify_forced_termination`: both sides are told; the requester gets a response only if
      its session was never accepted. */
  function Termination(key: ActionId, p: PendingAction, provider: Option<Conn>): seq<Out> {
    [Abort(p.requesterTx, p.originalId)]
    + (if p.accepted then [] else [Response(p.requesterTx, p.originalId, Backpressure, true)])
    + (if provider.Some? then [Abort(provider.value, key)] else [])
  }

  function ConnOf(c: Conns, p: PluginId): Option<Conn> {
    if p in c.byPlugin then Some(c.byPlugin[p].conn) else None
  }

  /** The plugin still holds this registration. */
  predicate Current(c: Conns, p: PluginId, r: Registration) {
    p in c.byPlugin && c.byPlugin[p] == r
  }

  // --- registration ---

  function Registered(k: Kernel, p: PluginId, conn: Conn): Kernel {
    var r := Registration(conn, k.conns.serials);
    var c := k.conns;
    k.(conns := Conns(c.byPlugin[p := r], c.byConn[conn := p], c.made + {(p, r)}, c.serials + 1, c.failing))
  }

  function PendingAt(t: Table, provider: PluginId): set<ActionId> {
    set k | k in t.pending && t.pending[k].providerId == provider
  }

  /** What `fail_pending_for_provider` tells the requester. */
  function GoneNotice(p: PendingAction): seq<Out> {
    if p.accepted then [Abort(p.requesterTx, p.originalId)]
    else [Response(p.requesterTx, p.originalId, Error, true)]
  }

  function GoneNotices(t: Table): map<ActionId, seq<Out>> {
    map k | k in t.pending :: GoneNotice(t.pending[k])
  }

  /** `unregister_if`, first: the plugin and its connection go. */
  function Unregistered(k: Kernel, p: PluginId): Kernel
    requires p in k.conns.byPlugin
  {
    var (c, r) := (k.conns, k.conns.byPlugin[p]);
    k.(conns := c.(byPlugin := c.byPlugin - {p}, byConn := c.byConn - {r.conn}, failing := c.failing + {(p, r)}))
  }

  /** ... and at its end: every action routed to the plugin's id fails. */
  function Failed(k: Kernel, p: PluginId, r: Registration): Kernel {
    k.(conns := k.conns.(failing := k.conns.failing - {(p, r)}),
       table := LeaveAll(k.table, PendingAt(k.table, p), GoneNotices(k.table)))
  }

  // --- requests ---

  /** What the requester sent. */
  datatype Request = Request(conn: Conn, id: ActionId, streaming: bool, timeout: nat)

  /** What the lookup returned: a provider, and the registration it had at that moment. A removal
      may run before the request is inserted. */
  datatype Found = Found(provider: PluginId, at: Registration)

  function NewPending(k: Kernel, q: Request, provider: PluginId): PendingAction
    requires q.conn in k.conns.byConn
  {
    PendingAction(q.conn, q.id, k.conns.byConn[q.conn], k.now + q.timeout, provider, q.streaming, false, k.now)
  }

  function RouteOf(k: Kernel, q: Request, f: Found, local: bool): Route {
    Route(q.conn, q.id, f.at, local, Current(k.conns, f.provider, f.at))
  }

  function Inserted(k: Kernel, q: Request, f: Found, local: bool): Kernel
    requires q.conn in k.conns.byConn
  {
    k.(table := Insert(k.table, NewPending(k, q, f.provider), RouteOf(k, q, f, local)))
  }

  /** A relay is inserted; whether the host's channel takes it shows only then. */
  function Relayed(k: Kernel, q: Request, f: Found): Kernel
    requires q.conn in k.conns.byConn
  {
    Inserted(k, q, f, false).(busy := Some(k.table.nextSeq))
  }

  /** A relay the host's channel did not take is withdrawn, whether its entry is still there or not,
      and answered like an unknown action. */
  function Withdrawn(k: Kernel, key: ActionId): Kernel
    requires key in k.table.log && key in k.table.routes
  {
    var r := k.table.routes[key];
    var t := Leave(k.table, key, [Response(r.requesterTx, r.originalId, NotFound, true)]);
    k.(busy := None, table := t.(twice := if key in k.table.pending then t.twice else t.twice + {key}))
  }

  // --- answers, chunks and closes ---

  /** `resolve_action_response`, with the response passed on to the requester. */
  function Resolved(k: Kernel, key: ActionId, status: Status): Kernel
    requires key in k.table.pending && key in k.table.log
  {
    var p := k.table.pending[key];
    var out := [Response(p.requesterTx, p.originalId, status, false)];
    if status == Ok && p.streaming then
      var t := Issue(k.table, key, p.(accepted := true, lastActivity := k.now), out);
      k.(table := t.(everAccepted := t.everAccepted + {key}))
    else k.(table := Leave(k.table, key, out))
  }

  function Touched(k: Kernel, key: ActionId, out: Out): Kernel
    requires key in k.table.pending && key in k.table.log
  {
    k.(table := Issue(k.table, key, k.table.pending[key].(lastActivity := k.now), [out]))
  }

  /** `abort_stream`. */
  function Aborted(k: Kernel, key: ActionId): Kernel
    requires key in k.table.pending && key in k.table.log
  {
    var p := k.table.pending[key];
    k.(table := Leave(k.table, key, Termination(key, p, ConnOf(k.conns, p.providerId))))
  }

  function Closed(k: Kernel, key: ActionId, byProvider: bool): Kernel
    requires key in k.table.pending && key in k.table.log
  {
    var p := k.table.pending[key];
    var provider := ConnOf(k.conns, p.providerId);
    k.(table := Leave(k.table, key,
         if byProvider then [Close(p.requesterTx, p.originalId)]
         else if provider.Some? then [Close(provider.value, key)] else []))
  }

  // --- sweeps ---

  function ExpiredKeys(k: Kernel): set<ActionId> {
    set i | i in k.table.pending && !k.table.pending[i].accepted && k.table.pending[i].deadline <= k.now
  }

  function TimeoutNotices(t: Table): map<ActionId, seq<Out>> {
    map i | i in t.pending :: [Response(t.pending[i].requesterTx, t.pending[i].originalId, Timeout, true)]
  }

  function SweptExpired(k: Kernel): Kernel {
    k.(table := LeaveAll(k.table, ExpiredKeys(k), TimeoutNotices(k.table)))
  }

  function IdleKeys(k: Kernel, idle: nat): set<ActionId> {
    set i | i in k.table.pending && k.table.pending[i].accepted && k.now - k.table.pending[i].lastActivity > idle
  }

  function IdleNotices(k: Kernel): map<ActionId, seq<Out>> {
    map i | i in k.table.pending :: Termination(i, k.table.pending[i], ConnOf(k.conns, k.table.pending[i].providerId))
  }

  function SweptIdle(k: Kernel, idle: nat): Kernel {
    k.(table := LeaveAll(k.table, IdleKeys(k, idle), IdleNotices(k)))
  }

  // --- steps ---

  datatype Event =
    | Register(plugin: PluginId, conn: Conn)
    | Unregister(plugin: PluginId)
    | FailPending(plugin: PluginId, registration: Registration)
    | Tick(elapsed: nat)
    | RouteLocal(request: Request, found: Found)
    | Relay(request: Request, found: Found)
    | RelaySent
    | Withdraw
    | Refuse(conn: Conn, id: ActionId, status: Status)
    | Respond(conn: Conn, key: ActionId, status: Status)
    | RequestChunk(conn: Conn, id: ActionId, key: ActionId, sent: bool)
    | ResponseChunk(conn: Conn, key: ActionId, sent: bool)
    | CloseSession(conn: Conn, id: ActionId, key: ActionId)
    | SweepExpired
    | SweepIdle(idle: nat)

  /** The sender of a message on `conn` is the provider `key` was routed to. */
  predicate FromProvider(k: Kernel, conn: Conn, key: ActionId) {
    conn in k.conns.byConn && key in k.table.pending && key in k.table.log
    && k.table.pending[key].providerId == k.conns.byConn[conn]
  }

  /** `find_pending_internal_id` may return `key` for the sender's own `id`. */
  predicate FromRequester(k: Kernel, conn: Conn, id: ActionId, key: ActionId) {
    conn in k.conns.byConn && key in k.table.pending && key in k.table.log
    && k.table.pending[key].requesterId == k.conns.byConn[conn] && k.table.pending[key].originalId == id
  }

  /** The steps of the router. It takes one message at a time; the others run beside it. */
  predicate ByRouter(e: Event) {
    match e
    case Register(_, _) => false
    case Unregister(_) => false
    case FailPending(_, _) => false
    case Tick(_) => false
    case RelaySent => false
    case Withdraw => false
    case _ => true
  }

  /** Guards of the steps that change something; a message that fails them is dropped. A
      message on an unregistered connection is never handled. */
  predicate Enabled(k: Kernel, e: Event) {
    (ByRouter(e) ==> k.busy.None?) && Fits(k, e)
  }

  predicate Fits(k: Kernel, e: Event) {
    match e
    case Register(p, conn) => p !in k.conns.byPlugin && conn !in k.conns.byConn
    case Unregister(p) => p in k.conns.byPlugin
    case FailPending(p, r) => (p, r) in k.conns.failing
    case Tick(_) => true
    case RouteLocal(q, f) =>
      && q.conn in k.conns.byConn && (f.provider, f.at) in k.conns.made
      && (k.cap.Some? ==> CountFor(k.table, k.conns.byConn[q.conn], f.provider) < k.cap.value)
    case RelaySent => k.busy.Some?
    case Withdraw => k.busy.Some? && k.busy.value in k.table.log && k.busy.value in k.table.routes
    case Relay(q, f) =>
      q.conn in k.conns.byConn && q.conn != BRIDGE && (f.provider, f.at) in k.conns.made && f.at.conn == BRIDGE
    case Refuse(conn, _, _) => conn in k.conns.byConn
    case Respond(conn, key, _) => FromProvider(k, conn, key)
    case RequestChunk(conn, id, key, _) => FromRequester(k, conn, id, key)
    case ResponseChunk(conn, key, _) => FromProvider(k, conn, key)
    case CloseSession(conn, id, key) =>
      && (if FromProvider(k, conn, id) then key == id else FromRequester(k, conn, id, key))
      && k.table.pending[key].accepted
    case SweepExpired => true
    case SweepIdle(_) => true
  }

  function Step(k: Kernel, e: Event): Kernel
    requires Enabled(k, e)
  {
    match e
    case Register(p, conn) => Registered(k, p, conn)
    case Unregister(p) => Unregistered(k, p)
    case FailPending(p, r) => Failed(k, p, r)
    case Tick(d) => k.(now := k.now + d)
    case RouteLocal(q, f) => Inserted(k, q, f, true)
    case Relay(q, f) => Relayed(k, q, f)
    case RelaySent => k.(busy := None)
    case Withdraw => Withdrawn(k, k.busy.value)
    case Refuse(conn, id, status) => k.(refusals := k.refusals + [Response(conn, id, status, true)])
    case Respond(_, key, status) => Resolved(k, key, status)
    case RequestChunk(_, _, key, sent) =>
      var provider := ConnOf(k.conns, k.table.pending[key].providerId);
      if provider.Some? && sent then Touched(k, key, Chunk(provider.value, key)) else Aborted(k, key)
    case ResponseChunk(_, key, sent) =>
      var p := k.table.pending[key];
      if sent then Touched(k, key, Chunk(p.requesterTx, p.originalId)) else Aborted(k, key)
    case CloseSession(conn, id, key) => Closed(k, key, FromProvider(k, conn, id))
    case SweepExpired => SweptExpired(k)
    case SweepIdle(idle) => SweptIdle(k, idle)
  }

  ghost predicate Init(k: Kernel) {
    && k.conns == Conns(map[], map[], {}, 0, {}) && k.table == Table(map[], 0, map[], map[], {}, {})
    && k.refusals == [] && k.busy == None
  }

  predicate IsRun(k: Kernel, events: seq<Event>)
    decreases |events|
  {
    events == [] || (Enabled(k, events[0]) && IsRun(Step(k, events[0]), events[1..]))
  }

  function Run(k: Kernel, events: seq<Event>): Kernel
    requires IsRun(k, events)
    decreases |events|
  {
    if events == [] then k else Run(Step(k, events[0]), events[1..])
  }

  ghost predicate Reachable(k: Kernel) {
    exists k0, events :: Init(k0) && IsRun(k0, events) && Run(k0, events) == k
  }
}
