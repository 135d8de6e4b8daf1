/** What every step of the wake protocol keeps: each call is in exactly one place,
    the waker accounts for every call it takes, queues are bounded, and a slot that
    has not timed out holds its gate. */
module LazyConservation {
  import opened Collections
  import opened LazyWake

  /** How often `c` sits in its plugin's slot. */
  function InQueue(s: State, c: Call): nat {
    if c.plugin in s.slots then multiset(s.slots[c.plugin].queue)[c] else 0
  }

  /** Whether the router holds `c` and has not decided on it. */
  function InHand(s: State, c: Call): nat {
    if s.routing.Looked? && s.routing.call == c then 1 else 0
  }

  /** How often `c` occurs over all the places a call can be. */
  function Places(s: State, c: Call): nat {
    multiset(s.inbox)[c] + InHand(s, c) + multiset(s.wake)[c] + InQueue(s, c) + multiset(s.draining)[c]
    + multiset(s.hist.served)[c] + s.hist.refused[c] + s.hist.failed[c]
  }

  /** Where the calls the waker has taken from its channel are accounted for. */
  function Accounted(s: State, c: Call): nat {
    InQueue(s, c) + multiset(s.draining)[c] + s.hist.reinjected[c] + s.hist.failed[c]
  }

  ghost predicate OwnQueues(s: State) {
    forall p, c :: p in s.slots && c in s.slots[p].queue ==> c.plugin == p
  }

  ghost predicate BoundedQueues(s: State) {
    forall p :: p in s.slots ==> |s.slots[p].queue| <= MAX_QUEUED
  }

  /** While frames of a plugin are being re-injected it has no slot. */
  ghost predicate DrainingAlone(s: State) {
    && (forall c :: c in s.draining ==> c.plugin !in s.slots)
    && (forall c, d :: c in s.draining && d in s.draining ==> c.plugin == d.plugin)
  }

  /** The router has looked at every call beyond its channel, and at every allowed frame. */
  ghost predicate BeyondInboxSeen(s: State) {
    && (forall c :: c in s.wake || c in s.draining || c in s.hist.served ==> c in s.hist.seen)
    && (forall p, c :: p in s.slots && c in s.slots[p].queue ==> c in s.hist.seen)
    && (!s.routing.Free? ==> s.routing.call in s.hist.seen)
    && (forall p, c :: p in s.reg.gates && c in s.reg.gates[p] ==> c in s.hist.seen && c.plugin == p)
    && s.hist.seen <= s.hist.arrived
  }

  /** A slot that is not waiting to be stopped after a timeout holds its gate. */
  ghost predicate GatesHeld(s: State) {
    forall p :: p in s.slots && !s.slots[p].wantStop ==> p in s.reg.gates
  }

  ghost predicate PollConsistent(s: State) {
    s.poll.Polling? ==>
      && (forall p :: p in s.poll.ready || p in s.poll.expired ==> Polled(s, p))
      && s.poll.ready !! s.poll.expired
  }

  /** Between the sweep's decision and the gate the waker does nothing else. */
  ghost predicate SweepAlone(s: State) {
    s.sweeping.Decided? ==> s.draining == [] && s.poll == NoPoll && s.sweeping.plugin !in s.slots
  }

  ghost predicate Conserved(s: State) {
    && (forall c :: Places(s, c) == if c in s.hist.arrived then 1 else 0)
    && (forall c :: s.hist.received[c] == Accounted(s, c))
  }

  // --- conservation ---

  /** A plugin's slot holds no call to another plugin. */
  lemma ForeignQueue(s: State, p: PluginId, c: Call)
    requires OwnQueues(s)
    ensures p in s.slots && c.plugin != p ==> multiset(s.slots[p].queue)[c] == 0
  {
    if p in s.slots && c in s.slots[p].queue {
      assert c.plugin == p;
    }
  }

  /** From `s` to `t`, `c` has changed places at most, and the waker's account of it still balances. */
  ghost predicate Balanced(s: State, t: State, c: Call, added: nat) {
    && Places(t, c) == Places(s, c) + added
    && (c in t.hist.arrived <==> c in s.hist.arrived || added > 0)
    && t.hist.received[c] - Accounted(t, c) == s.hist.received[c] - Accounted(s, c)
  }

  lemma EnvBalance(s: State, e: EnvEvent, c: Call)
    requires EnvEnabled(s, e)
    ensures Balanced(s, EnvStep(s, e), c, if e == Arrive(c) then 1 else 0)
  {
  }

  lemma LookBalance(s: State, c: Call)
    requires s.routing.Free? && s.inbox != []
    ensures Balanced(s, LookedUp(s), c, 0)
  {
    HeadCount(s.inbox, c);
  }

  lemma ServeBalance(s: State, c: Call)
    requires s.routing.Looked?
    ensures Balanced(s, Served(s), c, 0)
  {
    LastCount(s.hist.served, s.routing.call, c);
  }

  lemma BounceBalance(s: State, c: Call)
    requires s.routing.Looked?
    ensures Balanced(s, Bounced(s), c, 0)
  {
    LastCount(s.wake, s.routing.call, c);
  }

  lemma RouteBalance(s: State, e: RouteEvent, c: Call)
    requires RouteEnabled(s, e)
    ensures Balanced(s, RouteStep(s, e), c, 0)
  {
    match e {
      case Look => LookBalance(s, c);
      case Serve => ServeBalance(s, c);
      case Bounce => BounceBalance(s, c);
      case _ =>
    }
  }

  lemma EnqueueBalance(s: State, c: Call)
    requires s.wake != [] && s.wake[0].plugin in s.slots
    ensures Balanced(s, WakeQueued(s), c, 0)
  {
    HeadCount(s.wake, c);
    LastCount(s.slots[s.wake[0].plugin].queue, s.wake[0], c);
  }

  lemma OpenBalance(s: State, c: Call)
    requires s.wake != [] && s.wake[0].plugin !in s.slots
    ensures Balanced(s, WakeOpened(s), c, 0)
  {
    HeadCount(s.wake, c);
  }

  lemma WakeFailBalance(s: State, c: Call)
    requires s.wake != []
    ensures Balanced(s, WakeFailed(s), c, 0)
  {
    HeadCount(s.wake, c);
  }

  lemma ReturnBalance(s: State, c: Call)
    requires s.wake != [] && s.draining == []
    ensures Balanced(s, WakeReinjected(s), c, 0)
  {
    HeadCount(s.wake, c);
  }

  lemma WakeBalance(s: State, e: WakeEvent, c: Call)
    requires WakeEnabled(s, e)
    ensures Balanced(s, WakeStep(s, e), c, 0)
  {
    match e {
      case Enqueue => EnqueueBalance(s, c);
      case Open => OpenBalance(s, c);
      case Fail => WakeFailBalance(s, c);
      case Return => ReturnBalance(s, c);
    }
  }

  /** Nothing of `c` moves when the slots keep their queues. */
  lemma SameQueues(s: State, t: State, c: Call)
    requires t.inbox == s.inbox && t.routing == s.routing && t.wake == s.wake && t.draining == s.draining
    requires t.hist == s.hist && InQueue(t, c) == InQueue(s, c)
    ensures Balanced(s, t, c, 0)
  {
  }

  lemma FailBalance(s: State, c: Call)
    requires s.tasks.startReports != [] && s.tasks.startReports[0].0 in s.slots && OwnQueues(s)
    ensures Balanced(s, StartFailed(s), c, 0)
  {
    ForeignQueue(s, s.tasks.startReports[0].0, c);
  }

  lemma ReportBalance(s: State, e: ReportEvent, c: Call)
    requires ReportEnabled(s, e) && OwnQueues(s)
    ensures Balanced(s, ReportStep(s, e), c, 0)
  {
    if e.StartError? { FailBalance(s, c); } else { SameQueues(s, ReportStep(s, e), c); }
  }

  lemma PollBalance(s: State, e: PollEvent, c: Call)
    requires PollEnabled(s, e) && OwnQueues(s)
    ensures Balanced(s, PollStep(s, e), c, 0)
  {
    match e {
      case Drain(p) => ForeignQueue(s, p, c);
      case Expire(p) => ForeignQueue(s, p, c);
      case _ =>
    }
  }

  lemma SweepBalance(s: State, e: SweepEvent, c: Call)
    requires SweepEnabled(s, e) && SweepAlone(s)
    ensures Balanced(s, SweepStep(s, e), c, 0)
  {
  }

  lemma ReinjectBalance(s: State, c: Call)
    requires s.draining != []
    ensures Balanced(s, Reinjected(s), c, 0)
  {
    HeadCount(s.draining, c);
  }

  /** No step creates, loses or duplicates a call; only `Arrive` brings one in. */
  lemma StepBalance(s: State, e: Event, c: Call)
    requires Enabled(s, e) && OwnQueues(s) && SweepAlone(s)
    ensures Balanced(s, Step(s, e), c, if e == Env(Arrive(c)) then 1 else 0)
  {
    match e {
      case Env(x) => EnvBalance(s, x, c);
      case Route(x) => RouteBalance(s, x, c);
      case Wake(x) => WakeBalance(s, x, c);
      case Report(x) => ReportBalance(s, x, c);
      case Poll(x) => PollBalance(s, x, c);
      case Sweep(x) => SweepBalance(s, x, c);
      case Reinject => ReinjectBalance(s, c);
    }
  }

  lemma ConservedStep(s: State, e: Event)
    requires Enabled(s, e) && OwnQueues(s) && SweepAlone(s) && Conserved(s)
    ensures Conserved(Step(s, e))
  {
    var t := Step(s, e);
    forall c ensures Places(t, c) == (if c in t.hist.arrived then 1 else 0) && t.hist.received[c] == Accounted(t, c) {
      StepBalance(s, e, c);
    }
  }

  // --- the shape of slots, gates and the poll ---

  ghost predicate Shape(s: State) {
    && OwnQueues(s) && BoundedQueues(s) && DrainingAlone(s) && BeyondInboxSeen(s)
    && GatesHeld(s) && PollConsistent(s) && SweepAlone(s)
  }

  lemma EnvShape(s: State, e: EnvEvent)
    requires EnvEnabled(s, e) && Shape(s)
    ensures Shape(EnvStep(s, e))
  {
  }

  lemma RouteShape(s: State, e: RouteEvent)
    requires RouteEnabled(s, e) && Shape(s) && (e.Look? ==> s.inbox[0] in s.hist.arrived)
    ensures Shape(RouteStep(s, e))
  {
  }

  lemma EnqueueShape(s: State)
    requires WakeEnabled(s, Enqueue) && Shape(s)
    ensures Shape(WakeQueued(s))
  {
  }

  lemma OpenShape(s: State)
    requires WakeEnabled(s, Open) && Shape(s)
    ensures Shape(WakeOpened(s))
  {
  }

  lemma WakeShape(s: State, e: WakeEvent)
    requires WakeEnabled(s, e) && Shape(s)
    ensures Shape(WakeStep(s, e))
  {
    match e {
      case Enqueue => EnqueueShape(s);
      case Open => OpenShape(s);
      case _ =>
    }
  }

  lemma ReportShape(s: State, e: ReportEvent)
    requires ReportEnabled(s, e) && Shape(s)
    ensures Shape(ReportStep(s, e))
  {
  }

  lemma PollShape(s: State, e: PollEvent)
    requires PollEnabled(s, e) && Shape(s)
    ensures Shape(PollStep(s, e))
  {
  }

  lemma SweepShape(s: State, e: SweepEvent)
    requires SweepEnabled(s, e) && Shape(s)
    ensures Shape(SweepStep(s, e))
  {
  }

  lemma ReinjectShape(s: State)
    requires s.draining != [] && Shape(s)
    ensures Shape(Reinjected(s))
  {
  }

  lemma ShapeStep(s: State, e: Event)
    requires Enabled(s, e) && Inv(s)
    ensures Shape(Step(s, e))
  {
    match e {
      case Env(x) => EnvShape(s, x);
      case Route(x) =>
        if x.Look? { assert Places(s, s.inbox[0]) >= 1; }
        RouteShape(s, x);
      case Wake(x) => WakeShape(s, x);
      case Report(x) => ReportShape(s, x);
      case Poll(x) => PollShape(s, x);
      case Sweep(x) => SweepShape(s, x);
      case Reinject => ReinjectShape(s);
    }
  }

  ghost predicate Inv(s: State) {
    Shape(s) && Conserved(s)
  }

  lemma InvStep(s: State, e: Event)
    requires Enabled(s, e) && Inv(s)
    ensures Inv(Step(s, e))
  {
    ConservedStep(s, e);
    ShapeStep(s, e);
  }

  lemma InvInit(s: State)
    requires Init(s)
    ensures Inv(s)
  {
  }

  lemma {:induction false} InvRun(s: State, events: seq<Event>)
    requires Inv(s) && IsRun(s, events)
    ensures Inv(Run(s, events))
    decreases |events|
  {
    if events != [] {
      InvStep(s, events[0]);
      InvRun(Step(s, events[0]), events[1..]);
    }
  }

  lemma ReachableInv(s: State)
    requires Reachable(s)
    ensures Inv(s)
  {
    var s0, events :| Init(s0) && IsRun(s0, events) && Run(s0, events) == s;
    InvInit(s0);
    InvRun(s0, events);
  }

  /** In every reachable state: each call that arrived is in exactly one place and no other call
      is anywhere; each wake request the waker took is queued, being re-injected, re-injected or
      answered with an error; queues hold their own plugin's calls and never exceed the cap. */
  lemma WakeConservation(s: State)
    requires Reachable(s)
    ensures forall c :: Places(s, c) == if c in s.hist.arrived then 1 else 0
    ensures forall c ::
      s.hist.received[c] == InQueue(s, c) + multiset(s.draining)[c] + s.hist.reinjected[c] + s.hist.failed[c]
    ensures forall p, c :: p in s.slots && c in s.slots[p].queue ==> c.plugin == p
    ensures forall p :: p in s.slots ==> |s.slots[p].queue| <= MAX_QUEUED
  {
    ReachableInv(s);
  }

  /** In every reachable state a slot that has not timed out holds its gate. */
  lemma OpenSlotHoldsGate(s: State, p: PluginId)
    requires Reachable(s) && p in s.slots && !s.slots[p].wantStop
    ensures p in s.reg.gates
  {
    ReachableInv(s);
  }
}
