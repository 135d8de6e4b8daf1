/** The wake-on-first-call protocol as a state machine: the router's treatment of a
    call to a lazy plugin, the waker's handlers, the lazy gates of the registry, and
    the start and stop tasks the waker spawns. The waker's handlers are split where the
    source awaits and the idle sweep before it takes a gate; the router's arm is split at
    its lookup, its gate check and its insertion. A run is any interleaving of the steps. */
module LazyWake {

  type PluginId = nat

  /** One action call. `frame` stands for the payload address that identifies the
      frame at the gate; `plugin` is the lazy plugin that declares its action. */
  datatype Call = Call(frame: nat, plugin: PluginId)

  /** A gate's allowances: the frames it lets through, and since when. */
  type Allowances = map<Call, nat>
  type Gates = map<PluginId, Allowances>

  const MAX_QUEUED: nat := 64
  const ALLOW_TTL: nat := 5000

  /** The waker's slot for one plugin that is starting or being stopped. */
  datatype Waking = Waking(queue: seq<Call>, since: nat, starting: bool, wantStop: bool, stopping: bool)

  /** `poll_waking` first decides which slots are ready and which have expired and
      then works through both lists, awaiting the router channel in between. */
  datatype PollState = NoPoll | Polling(ready: set<PluginId>, expired: set<PluginId>)

  /** The router is between two calls; or it has looked up a call's provider and found it live or
      not; or the call has passed the gate and is not in the pending table yet. */
  datatype Routing = Free | Looked(call: Call, live: bool) | Passed(call: Call)

  /** The idle sweep has decided to stop a plugin and not taken its gate yet. */
  datatype Sweeping = NoSweep | Decided(plugin: PluginId)

  /** The part of the registry that lazy plugins use. */
  datatype Registry = Registry(
    dormant: map<PluginId, nat>,     // lazy plugins and their idle_stop
    registered: set<PluginId>,
    gates: Gates,                    // lazy_gates
    lastUsed: map<PluginId, nat>,
    pending: set<Call>               // in-flight actions at a lazy plugin
  )

  /** Tasks the waker spawned: those that run, and the reports it has not taken yet. */
  datatype Tasks = Tasks(
    starts: multiset<PluginId>,
    stops: multiset<PluginId>,
    startReports: seq<(PluginId, bool)>,
    stopReports: seq<PluginId>
  )

  /** What has happened to the calls so far. */
  datatype History = History(
    arrived: set<Call>,
    seen: set<Call>,                 // the router has looked at them
    served: seq<Call>,               // passed to the live-provider path, in order
    refused: multiset<Call>,         // answered with an error by the router
    received: multiset<Call>,        // taken by the waker from its channel
    reinjected: multiset<Call>,
    failed: multiset<Call>           // answered with an error by the waker
  )

  datatype State = State(
    startTimeout: nat,
    now: nat,
    reg: Registry,
    inbox: seq<Call>,                // the router's channel
    routing: Routing,                // the call in the router's hands
    wake: seq<Call>,                 // the channel from router to waker
    slots: map<PluginId, Waking>,    // `waking`
    poll: PollState,
    draining: seq<Call>,             // what `reinject` has not sent yet
    sweeping: Sweeping,
    tasks: Tasks,
    hist: History
  )

  ghost predicate Init(s: State) {
    && s.reg == Registry(s.reg.dormant, {}, map[], map[], {})
    && s.inbox == [] && s.routing == Free && s.wake == [] && s.slots == map[]
    && s.poll == NoPoll && s.draining == [] && s.sweeping == NoSweep
    && s.tasks == Tasks(multiset{}, multiset{}, [], [])
    && s.hist == History({}, {}, [], multiset{}, multiset{}, multiset{}, multiset{})
  }

  // --- registry operations ---

  function Hold(reg: Registry, p: PluginId): Registry {
    if p in reg.gates then reg else reg.(gates := reg.gates[p := map[]])
  }

  function Release(reg: Registry, p: PluginId): Registry {
    reg.(gates := reg.gates - {p})
  }

  function Allow(reg: Registry, c: Call, now: nat): Registry {
    if c.plugin in reg.gates then
      var allowances: Allowances := reg.gates[c.plugin][c := now];
      reg.(gates := reg.gates[c.plugin := allowances])
    else reg
  }

  /** May the call go straight to its registered plugin? */
  predicate Passes(reg: Registry, c: Call) {
    c.plugin in reg.gates ==> c in reg.gates[c.plugin]
  }

  /** After `lazy_gate_passes`: an allowance is consumed on use. */
  function Consume(reg: Registry, c: Call): Registry {
    if c.plugin in reg.gates then reg.(gates := reg.gates[c.plugin := reg.gates[c.plugin] - {c}]) else reg
  }

  /** What `lazy_gate_trim` leaves of a gate. */
  function Fresh(allowances: Allowances, now: nat): Allowances {
    map c | c in allowances && now - allowances[c] < ALLOW_TTL :: allowances[c]
  }

  function Touch(reg: Registry, p: PluginId, now: nat): Registry {
    if p in reg.dormant then reg.(lastUsed := reg.lastUsed[p := now]) else reg
  }

  predicate HasPending(reg: Registry, p: PluginId) {
    exists c :: c in reg.pending && c.plugin == p
  }

  // --- the router: lookup, gate and insertion are calls of their own ---

  /** The router takes the next call and looks its plugin up. */
  function LookedUp(s: State): State
    requires s.inbox != []
  {
    var c := s.inbox[0];
    s.(inbox := s.inbox[1..], routing := Looked(c, c.plugin in s.reg.registered),
       hist := s.hist.(seen := s.hist.seen + {c}))
  }

  /** The lookup found the plugin live and the gate lets the call through. */
  predicate Live(s: State) {
    s.routing.Looked? && s.routing.live && Passes(s.reg, s.routing.call)
  }

  function Served(s: State): State
    requires s.routing.Looked?
  {
    var c := s.routing.call;
    s.(routing := Passed(c), reg := Consume(s.reg, c), hist := s.hist.(served := s.hist.served + [c]))
  }

  function Bounced(s: State): State
    requires s.routing.Looked?
  {
    s.(routing := Free, wake := s.wake + [s.routing.call])
  }

  function Refused(s: State): State
    requires s.routing.Looked?
  {
    s.(routing := Free, hist := s.hist.(refused := s.hist.refused + multiset{s.routing.call}))
  }

  /** The call enters the pending table, or is denied after all. */
  function Admitted(s: State, denied: bool): State
    requires s.routing.Passed?
  {
    var c := s.routing.call;
    s.(routing := Free,
       reg := if denied then s.reg else Touch(s.reg.(pending := s.reg.pending + {c}), c.plugin, s.now))
  }

  // --- the waker ---

  predicate WakerIdle(s: State) {
    s.draining == [] && s.poll == NoPoll && s.sweeping == NoSweep
  }

  function Receive(hist: History, c: Call): History {
    hist.(received := hist.received + multiset{c})
  }

  function WakeQueued(s: State): State
    requires s.wake != [] && s.wake[0].plugin in s.slots
  {
    var c := s.wake[0];
    var w := s.slots[c.plugin];
    s.(wake := s.wake[1..], hist := Receive(s.hist, c),
       slots := s.slots[c.plugin := w.(queue := w.queue + [c])])
  }

  function WakeFailed(s: State): State
    requires s.wake != []
  {
    var c := s.wake[0];
    s.(wake := s.wake[1..], hist := Receive(s.hist, c).(failed := s.hist.failed + multiset{c}))
  }

  function WakeReinjected(s: State): State
    requires s.wake != []
  {
    var c := s.wake[0];
    s.(wake := s.wake[1..], hist := Receive(s.hist, c), draining := [c])
  }

  function WakeOpened(s: State): State
    requires s.wake != []
  {
    var c := s.wake[0];
    s.(wake := s.wake[1..], hist := Receive(s.hist, c),
       reg := Hold(Touch(s.reg, c.plugin, s.now), c.plugin),
       slots := s.slots[c.plugin := Waking([c], s.now, true, false, false)],
       tasks := s.tasks.(starts := s.tasks.starts + multiset{c.plugin}))
  }

  function StartSucceeded(s: State): State
    requires s.tasks.startReports != [] && s.tasks.startReports[0].0 in s.slots
  {
    var p := s.tasks.startReports[0].0;
    s.(tasks := s.tasks.(startReports := s.tasks.startReports[1..]),
       slots := s.slots[p := s.slots[p].(starting := false)])
  }

  function StartTimedOut(s: State): State
    requires s.tasks.startReports != [] && s.tasks.startReports[0].0 in s.slots
  {
    var p := s.tasks.startReports[0].0;
    s.(tasks := s.tasks.(startReports := s.tasks.startReports[1..], stops := s.tasks.stops + multiset{p}),
       slots := s.slots[p := s.slots[p].(starting := false, stopping := true)])
  }

  function StartFailed(s: State): State
    requires s.tasks.startReports != [] && s.tasks.startReports[0].0 in s.slots
  {
    var p := s.tasks.startReports[0].0;
    s.(tasks := s.tasks.(startReports := s.tasks.startReports[1..]),
       slots := s.slots - {p}, reg := Release(s.reg, p),
       hist := s.hist.(failed := s.hist.failed + multiset(s.slots[p].queue)))
  }

  function StopClosed(s: State): State
    requires s.tasks.stopReports != []
  {
    var p := s.tasks.stopReports[0];
    s.(tasks := s.tasks.(stopReports := s.tasks.stopReports[1..]),
       slots := s.slots - {p}, reg := Release(s.reg, p))
  }

  function StopRestarted(s: State): State
    requires s.tasks.stopReports != [] && s.tasks.stopReports[0] in s.slots
  {
    var p := s.tasks.stopReports[0];
    s.(tasks := s.tasks.(stopReports := s.tasks.stopReports[1..], starts := s.tasks.starts + multiset{p}),
       reg := Hold(s.reg, p),
       slots := s.slots[p := s.slots[p].(stopping := false, wantStop := false, starting := true, since := s.now)])
  }

  predicate Polled(s: State, p: PluginId) {
    p in s.slots && !s.slots[p].stopping && !s.slots[p].wantStop
  }

  predicate Overdue(s: State, p: PluginId)
    requires p in s.slots
  {
    s.now - s.slots[p].since >= s.startTimeout
  }

  function PollStarted(s: State): State {
    s.(poll := Polling(
         set p | p in s.slots && Polled(s, p) && p in s.reg.registered,
         set p | p in s.slots && Polled(s, p) && p !in s.reg.registered && Overdue(s, p)))
  }

  function Drained(s: State, p: PluginId): State
    requires s.poll.Polling? && p in s.slots
  {
    s.(poll := s.poll.(ready := s.poll.ready - {p}), slots := s.slots - {p}, draining := s.slots[p].queue)
  }

  function Expired(s: State, p: PluginId): State
    requires s.poll.Polling? && p in s.slots
  {
    var w := s.slots[p];
    s.(poll := s.poll.(expired := s.poll.expired - {p}),
       hist := s.hist.(failed := s.hist.failed + multiset(w.queue)),
       reg := Release(s.reg, p),
       slots := s.slots[p := w.(queue := [], wantStop := true, stopping := !w.starting)],
       tasks := if w.starting then s.tasks else s.tasks.(stops := s.tasks.stops + multiset{p}))
  }

  function Trimmed(s: State, p: PluginId): State
    requires p in s.reg.gates
  {
    s.(reg := s.reg.(gates := s.reg.gates[p := Fresh(s.reg.gates[p], s.now)]))
  }

  /** The idle sweep would stop `p`: live, unused for its `idle_stop`, nothing pending. */
  predicate Idle(s: State, p: PluginId) {
    p in s.reg.dormant && p in s.reg.registered && p !in s.slots && p in s.reg.lastUsed
    && s.now >= s.reg.lastUsed[p] + s.reg.dormant[p] && !HasPending(s.reg, p)
  }

  function IdleStopped(s: State, p: PluginId): State {
    s.(sweeping := NoSweep, reg := Hold(s.reg, p),
       slots := s.slots[p := Waking([], s.now, false, false, true)],
       tasks := s.tasks.(stops := s.tasks.stops + multiset{p}))
  }

  /** `lazy_gate_allow` followed by the send to the router, for the next queued frame. */
  function Reinjected(s: State): State
    requires s.draining != []
  {
    var c := s.draining[0];
    s.(reg := Allow(s.reg, c, s.now), inbox := s.inbox + [c], draining := s.draining[1..],
       hist := s.hist.(reinjected := s.hist.reinjected + multiset{c}))
  }

  // --- steps, by the actor that takes them; a guard is the branch condition of the handler ---

  datatype EnvEvent =
    | Arrive(call: Call)                       // a connection delivers a new call
    | Register(plugin: PluginId)
    | Unregister(plugin: PluginId)
    | Tick(elapsed: nat)
    | Answer(call: Call, stays: bool)          // the plugin answers a pending action; a stream may stay
    | Complete(call: Call)                     // a pending action leaves the table for another reason
    | StartReturns(plugin: PluginId, ok: bool) // a task ends and reports to the waker
    | StopReturns(plugin: PluginId)

  predicate EnvEnabled(s: State, e: EnvEvent) {
    match e
    case Arrive(c) => c !in s.hist.arrived
    case Answer(c, _) => c in s.reg.pending
    case StartReturns(p, _) => p in s.tasks.starts
    case StopReturns(p) => p in s.tasks.stops
    case _ => true
  }

  function EnvStep(s: State, e: EnvEvent): State
    requires EnvEnabled(s, e)
  {
    match e
    case Arrive(c) => s.(hist := s.hist.(arrived := s.hist.arrived + {c}), inbox := s.inbox + [c])
    case Register(p) => s.(reg := s.reg.(registered := s.reg.registered + {p}))
    case Unregister(p) => s.(reg := s.reg.(registered := s.reg.registered - {p}))
    case Tick(d) => s.(now := s.now + d)
    case Answer(c, stays) =>
      s.(reg := Touch(s.reg.(pending := if stays then s.reg.pending else s.reg.pending - {c}), c.plugin, s.now))
    case Complete(c) => s.(reg := s.reg.(pending := s.reg.pending - {c}))
    case StartReturns(p, ok) =>
      s.(tasks := s.tasks.(starts := s.tasks.starts - multiset{p}, startReports := s.tasks.startReports + [(p, ok)]))
    case StopReturns(p) =>
      s.(tasks := s.tasks.(stops := s.tasks.stops - multiset{p}, stopReports := s.tasks.stopReports + [p]))
  }

  /** A call that is not live goes to the waker, or is answered with an error when it is denied
      or the wake channel is full; `denied` stands for the permission and quota checks. */
  datatype RouteEvent = Look | Serve | Bounce | Refuse | Admit(denied: bool)

  predicate RouteEnabled(s: State, e: RouteEvent) {
    match e
    case Look => s.routing.Free? && s.inbox != []
    case Serve => Live(s)
    case Bounce => s.routing.Looked? && !Live(s)
    case Refuse => s.routing.Looked? && !Live(s)
    case Admit(_) => s.routing.Passed?
  }

  function RouteStep(s: State, e: RouteEvent): State
    requires RouteEnabled(s, e)
  {
    match e
    case Look => LookedUp(s)
    case Serve => Served(s)
    case Bounce => Bounced(s)
    case Refuse => Refused(s)
    case Admit(denied) => Admitted(s, denied)
  }

  /** `on_wake_request`. A registered plugin may turn out not to serve the action (`Fail`). */
  datatype WakeEvent = Enqueue | Fail | Return | Open

  predicate WakeEnabled(s: State, e: WakeEvent) {
    && WakerIdle(s) && s.wake != []
    && var p := s.wake[0].plugin;
       if p in s.slots then (if |s.slots[p].queue| >= MAX_QUEUED then e.Fail? else e.Enqueue?)
       else if p in s.reg.registered then e.Return? || e.Fail?
       else e.Open?
  }

  function WakeStep(s: State, e: WakeEvent): State
    requires WakeEnabled(s, e)
  {
    match e
    case Enqueue => WakeQueued(s)
    case Fail => WakeFailed(s)
    case Return => WakeReinjected(s)
    case Open => WakeOpened(s)
  }

  /** `on_start_result` and `on_stopped`. */
  datatype ReportEvent = StartLate | StartOk | StartError | StartThenStop | StopLate | StopClose | StopRestart

  predicate ReportEnabled(s: State, e: ReportEvent) {
    && WakerIdle(s)
    && match e
       case StopLate => s.tasks.stopReports != [] && s.tasks.stopReports[0] !in s.slots
       case StopClose =>
         s.tasks.stopReports != [] && s.tasks.stopReports[0] in s.slots
         && s.slots[s.tasks.stopReports[0]].queue == []
       case StopRestart =>
         s.tasks.stopReports != [] && s.tasks.stopReports[0] in s.slots
         && s.slots[s.tasks.stopReports[0]].queue != []
       case _ =>
         s.tasks.startReports != []
         && var (p, ok) := s.tasks.startReports[0];
            if p !in s.slots then e.StartLate?
            else if s.slots[p].wantStop then e.StartThenStop?
            else if ok then e.StartOk? else e.StartError?
  }

  function ReportStep(s: State, e: ReportEvent): State
    requires ReportEnabled(s, e)
  {
    match e
    case StartLate => s.(tasks := s.tasks.(startReports := s.tasks.startReports[1..]))
    case StartOk => StartSucceeded(s)
    case StartError => StartFailed(s)
    case StartThenStop => StartTimedOut(s)
    case StopLate => s.(tasks := s.tasks.(stopReports := s.tasks.stopReports[1..]))
    case StopClose => StopClosed(s)
    case StopRestart => StopRestarted(s)
  }

  /** `poll_waking`: drain the ready slots, then time out the expired ones, then trim gates. */
  datatype PollEvent =
    | Begin | Drain(plugin: PluginId) | Expire(plugin: PluginId)
    | TrimKeep(plugin: PluginId) | TrimRelease(plugin: PluginId) | End

  predicate PollEnabled(s: State, e: PollEvent) {
    && s.draining == []
    && match e
       case Begin => s.poll == NoPoll && s.sweeping == NoSweep
       case Drain(p) => s.poll.Polling? && p in s.poll.ready && p in s.slots
       case Expire(p) => s.poll.Polling? && s.poll.ready == {} && p in s.poll.expired && p in s.slots
       case TrimKeep(p) =>
         s.poll == Polling({}, {}) && p in s.reg.gates && p !in s.slots && Fresh(s.reg.gates[p], s.now) != map[]
       case TrimRelease(p) =>
         s.poll == Polling({}, {}) && p in s.reg.gates && p !in s.slots && Fresh(s.reg.gates[p], s.now) == map[]
       case End => s.poll == Polling({}, {})
  }

  function PollStep(s: State, e: PollEvent): State
    requires PollEnabled(s, e)
  {
    match e
    case Begin => PollStarted(s)
    case Drain(p) => Drained(s, p)
    case Expire(p) => Expired(s, p)
    case TrimKeep(p) => Trimmed(s, p)
    case TrimRelease(p) => s.(reg := Release(s.reg, p))
    case End => s.(poll := NoPoll)
  }

  /** `sweep_idle`, for one plugin: start its idle clock; or decide to stop it, and then take its
      gate and spawn the stop. */
  datatype SweepEvent = StartClock(plugin: PluginId) | Decide(plugin: PluginId) | StopIdle

  predicate SweepEnabled(s: State, e: SweepEvent) {
    match e
    case StartClock(p) =>
      WakerIdle(s) && p in s.reg.dormant && p in s.reg.registered && p !in s.slots && p !in s.reg.lastUsed
    case Decide(p) => WakerIdle(s) && Idle(s, p)
    case StopIdle => s.sweeping.Decided?
  }

  function SweepStep(s: State, e: SweepEvent): State
    requires SweepEnabled(s, e)
  {
    match e
    case StartClock(p) => s.(reg := Touch(s.reg, p, s.now))
    case Decide(p) => s.(sweeping := Decided(p))
    case StopIdle => IdleStopped(s, s.sweeping.plugin)
  }

  datatype Event =
    | Env(env: EnvEvent) | Route(route: RouteEvent) | Wake(wake: WakeEvent) | Report(report: ReportEvent)
    | Poll(poll: PollEvent) | Sweep(sweep: SweepEvent) | Reinject

  predicate Enabled(s: State, e: Event) {
    match e
    case Env(x) => EnvEnabled(s, x)
    case Route(x) => RouteEnabled(s, x)
    case Wake(x) => WakeEnabled(s, x)
    case Report(x) => ReportEnabled(s, x)
    case Poll(x) => PollEnabled(s, x)
    case Sweep(x) => SweepEnabled(s, x)
    case Reinject => s.draining != []
  }

  function Step(s: State, e: Event): State
    requires Enabled(s, e)
  {
    match e
    case Env(x) => EnvStep(s, x)
    case Route(x) => RouteStep(s, x)
    case Wake(x) => WakeStep(s, x)
    case Report(x) => ReportStep(s, x)
    case Poll(x) => PollStep(s, x)
    case Sweep(x) => SweepStep(s, x)
    case Reinject => Reinjected(s)
  }

  /** `events` is a run from `s`: each event is enabled when its turn comes. */
  predicate IsRun(s: State, events: seq<Event>)
    decreases |events|
  {
    events == [] || (Enabled(s, events[0]) && IsRun(Step(s, events[0]), events[1..]))
  }

  function Run(s: State, events: seq<Event>): State
    requires IsRun(s, events)
    decreases |events|
  {
    if events == [] then s else Run(Step(s, events[0]), events[1..])
  }

  lemma {:induction false} RunAppend(s: State, events: seq<Event>, e: Event)
    requires IsRun(s, events) && Enabled(Run(s, events), e)
    ensures IsRun(s, events + [e]) && Run(s, events + [e]) == Step(Run(s, events), e)
    decreases |events|
  {
    if events != [] {
      assert (events + [e])[1..] == events[1..] + [e];
      RunAppend(Step(s, events[0]), events[1..], e);
    } else {
      assert events + [e] == [e];
      assert [e][1..] == [];
    }
  }

  ghost predicate Reachable(s: State) {
    exists s0, events :: Init(s0) && IsRun(s0, events) && Run(s0, events) == s
  }
}
