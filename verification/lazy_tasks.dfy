/** Start and stop tasks never overlap for one plugin, and an idle stop is safe. Both
    need a start task to report before its plugin's slot is drained. */
module LazyTasks {
  import opened Collections
  import opened LazyWake
  import opened LazyConservation

  /** Start tasks for `p` that run or whose report the waker has not taken. */
  function StartTasks(s: State, p: PluginId): nat {
    s.tasks.starts[p] + multiset(s.tasks.startReports)[(p, true)] + multiset(s.tasks.startReports)[(p, false)]
  }

  function StopTasks(s: State, p: PluginId): nat {
    s.tasks.stops[p] + multiset(s.tasks.stopReports)[p]
  }

  /** At most one task is in flight for `p`, the slot's flags say which, and a slot that
      waits to be stopped has one. */
  ghost predicate OneTask(s: State, p: PluginId) {
    if p !in s.slots then StartTasks(s, p) == 0 && StopTasks(s, p) == 0
    else
      var w := s.slots[p];
      && StartTasks(s, p) == (if w.starting then 1 else 0)
      && StopTasks(s, p) == (if w.stopping then 1 else 0)
      && !(w.starting && w.stopping)
      && (w.wantStop ==> w.starting || w.stopping)
  }

  /** A slot is drained only after its start task has reported. */
  predicate Prompt(s: State, e: Event)
    requires Enabled(s, e)
  {
    e.Poll? && e.poll.Drain? ==> !s.slots[e.poll.plugin].starting
  }

  predicate PromptRun(s: State, events: seq<Event>)
    requires IsRun(s, events)
    decreases |events|
  {
    events == [] || (Prompt(s, events[0]) && PromptRun(Step(s, events[0]), events[1..]))
  }

  lemma EnvTask(s: State, e: EnvEvent, p: PluginId)
    requires EnvEnabled(s, e) && OneTask(s, p)
    ensures OneTask(EnvStep(s, e), p)
  {
  }

  lemma RouteTask(s: State, e: RouteEvent, p: PluginId)
    requires RouteEnabled(s, e) && OneTask(s, p)
    ensures OneTask(RouteStep(s, e), p)
  {
  }

  lemma WakeTask(s: State, e: WakeEvent, p: PluginId)
    requires WakeEnabled(s, e) && OneTask(s, p)
    ensures OneTask(WakeStep(s, e), p)
  {
  }

  lemma StartReportTask(s: State, e: ReportEvent, p: PluginId)
    requires ReportEnabled(s, e) && OneTask(s, p)
    requires e.StartLate? || e.StartOk? || e.StartError? || e.StartThenStop?
    ensures OneTask(ReportStep(s, e), p)
  {
    var (q, ok) := s.tasks.startReports[0];
    assert s.tasks.startReports[0] == (q, true) || s.tasks.startReports[0] == (q, false);
    HeadCount(s.tasks.startReports, (p, true));
    HeadCount(s.tasks.startReports, (p, false));
  }

  lemma StopReportTask(s: State, e: ReportEvent, p: PluginId)
    requires ReportEnabled(s, e) && OneTask(s, p)
    requires e.StopLate? || e.StopClose? || e.StopRestart?
    ensures OneTask(ReportStep(s, e), p)
  {
    HeadCount(s.tasks.stopReports, p);
  }

  lemma PollTask(s: State, e: PollEvent, p: PluginId)
    requires PollEnabled(s, e) && Prompt(s, Poll(e)) && OneTask(s, p) && PollConsistent(s)
    ensures OneTask(PollStep(s, e), p)
  {
  }

  lemma SweepTask(s: State, e: SweepEvent, p: PluginId)
    requires SweepEnabled(s, e) && OneTask(s, p) && SweepAlone(s)
    ensures OneTask(SweepStep(s, e), p)
  {
  }

  lemma TaskStep(s: State, e: Event, p: PluginId)
    requires Enabled(s, e) && Prompt(s, e) && OneTask(s, p) && PollConsistent(s) && SweepAlone(s)
    ensures OneTask(Step(s, e), p)
  {
    match e {
      case Env(x) => EnvTask(s, x, p);
      case Route(x) => RouteTask(s, x, p);
      case Wake(x) => WakeTask(s, x, p);
      case Report(x) =>
        if x.StopLate? || x.StopClose? || x.StopRestart? { StopReportTask(s, x, p); }
        else { StartReportTask(s, x, p); }
      case Poll(x) => PollTask(s, x, p);
      case Sweep(x) => SweepTask(s, x, p);
      case Reinject =>
    }
  }

  /** The start task must have reported: draining keeps the invariant in exactly that case. */
  lemma DrainKeepsOneTask(s: State, p: PluginId)
    requires Enabled(s, Poll(Drain(p))) && PollConsistent(s) && OneTask(s, p)
    ensures OneTask(Drained(s, p), p) <==> !s.slots[p].starting
  {
  }

  lemma {:induction false} TaskRun(s: State, events: seq<Event>, p: PluginId)
    requires Inv(s) && OneTask(s, p) && IsRun(s, events) && PromptRun(s, events)
    ensures OneTask(Run(s, events), p)
    decreases |events|
  {
    if events != [] {
      TaskStep(s, events[0], p);
      InvStep(s, events[0]);
      TaskRun(Step(s, events[0]), events[1..], p);
    }
  }

  /** Reachable by a run in which every start task reports before its slot is drained. */
  ghost predicate PromptReachable(s: State) {
    exists s0, events :: Init(s0) && IsRun(s0, events) && PromptRun(s0, events) && Run(s0, events) == s
  }

  lemma PromptReachableInv(s: State, p: PluginId)
    requires PromptReachable(s)
    ensures Inv(s) && OneTask(s, p)
  {
    var s0, events :| Init(s0) && IsRun(s0, events) && PromptRun(s0, events) && Run(s0, events) == s;
    InvInit(s0);
    InvRun(s0, events);
    TaskRun(s0, events, p);
  }

  /** With prompt starts, no reachable state has two lifecycle tasks for one plugin; the slot's
      flags say which one runs; a slot that waits to be stopped has exactly one. */
  lemma OneLifecycleTask(s: State, p: PluginId)
    requires PromptReachable(s)
    ensures StartTasks(s, p) + StopTasks(s, p) <= 1
    ensures p in s.slots ==>
      && (s.slots[p].starting <==> StartTasks(s, p) == 1)
      && (s.slots[p].stopping <==> StopTasks(s, p) == 1)
      && (s.slots[p].wantStop ==> StartTasks(s, p) + StopTasks(s, p) == 1)
    ensures p !in s.slots ==> StartTasks(s, p) + StopTasks(s, p) == 0
  {
    PromptReachableInv(s, p);
  }

  // --- idle stop ---

  /** A call to `p` has passed the gate and is not in the pending table yet. */
  predicate Passing(s: State, p: PluginId) {
    s.routing.Passed? && s.routing.call.plugin == p
  }

  /** The gate of `p` has an allowance for `c`, and the router has `c` before it: still in its channel,
      or looked up and found live. */
  predicate Slipping(s: State, p: PluginId, c: Call) {
    && c.plugin == p && p in s.reg.gates && c in s.reg.gates[p]
    && (c in s.inbox || s.routing == Looked(c, true))
  }

  /** Nothing is pending on `p`, no call to it is past the gate, and no allowed one is before it. */
  ghost predicate Clear(s: State, p: PluginId) {
    !HasPending(s.reg, p) && !Passing(s, p) && forall c: Call :: !Slipping(s, p, c)
  }

  /** `p` is being stopped by the idle sweep, behind its gate, and nothing is under way. */
  ghost predicate IdleStopping(s: State, p: PluginId) {
    p in s.slots && s.slots[p].stopping && !s.slots[p].wantStop && p in s.reg.gates && Clear(s, p)
  }

  /** The waker takes the report that `p` has been stopped. */
  predicate CompletesStop(s: State, e: Event, p: PluginId)
    requires Enabled(s, e)
  {
    e.Report? && (e.report.StopClose? || e.report.StopRestart?) && s.tasks.stopReports[0] == p
  }

  /** The stop of `p` that is running in `s` has not completed during the run. */
  predicate StopRuns(s: State, events: seq<Event>, p: PluginId)
    requires IsRun(s, events)
    decreases |events|
  {
    events == [] || (!CompletesStop(s, events[0], p) && StopRuns(Step(s, events[0]), events[1..], p))
  }

  /** `t` follows `s` without a call to `p` reaching the live-provider path, and `p`'s queue has only grown. */
  ghost predicate Untouched(s: State, t: State, p: PluginId) {
    && (forall c: Call :: c.plugin == p ==> multiset(t.hist.served)[c] == multiset(s.hist.served)[c])
    && p in s.slots && p in t.slots && s.slots[p].queue <= t.slots[p].queue
  }

  /** A call of another plugin, or one the gate does not allow, changes nothing for `p`. */
  lemma RouteIdle(s: State, e: RouteEvent, p: PluginId)
    requires RouteEnabled(s, e) && IdleStopping(s, p)
    ensures IdleStopping(RouteStep(s, e), p) && Untouched(s, RouteStep(s, e), p)
  {
    var t := RouteStep(s, e);
    assert e.Serve? ==> !Slipping(s, p, s.routing.call);
    forall c: Call ensures !Slipping(t, p, c) {
      assert !Slipping(s, p, c);
    }
  }

  /** A step that brings `p` no call, no allowance and no entry keeps it clear. */
  lemma StaysClear(s: State, t: State, p: PluginId)
    requires Clear(s, p) && t.routing == s.routing && t.reg.pending <= s.reg.pending
    requires forall c: Call :: c.plugin == p && c in t.inbox ==> c in s.inbox
    requires p in s.reg.gates && p in t.reg.gates && t.reg.gates[p] == s.reg.gates[p]
    ensures Clear(t, p)
  {
    forall c: Call ensures !Slipping(t, p, c) {
      assert !Slipping(s, p, c);
    }
  }

  lemma WakeIdle(s: State, e: WakeEvent, p: PluginId)
    requires WakeEnabled(s, e) && IdleStopping(s, p)
    ensures IdleStopping(WakeStep(s, e), p) && Untouched(s, WakeStep(s, e), p)
  {
    StaysClear(s, WakeStep(s, e), p);
  }

  lemma ReportIdle(s: State, e: ReportEvent, p: PluginId)
    requires ReportEnabled(s, e) && IdleStopping(s, p) && OneTask(s, p) && !CompletesStop(s, Report(e), p)
    ensures IdleStopping(ReportStep(s, e), p) && Untouched(s, ReportStep(s, e), p)
  {
    if e.StartOk? || e.StartError? || e.StartThenStop? {
      var (q, ok) := s.tasks.startReports[0];
      assert multiset(s.tasks.startReports)[(q, ok)] >= 1;
      assert q != p;
    }
    StaysClear(s, ReportStep(s, e), p);
  }

  lemma PollIdle(s: State, e: PollEvent, p: PluginId)
    requires PollEnabled(s, e) && IdleStopping(s, p) && PollConsistent(s)
    ensures IdleStopping(PollStep(s, e), p) && Untouched(s, PollStep(s, e), p)
  {
    StaysClear(s, PollStep(s, e), p);
  }

  lemma EnvIdle(s: State, e: EnvEvent, p: PluginId)
    requires EnvEnabled(s, e) && IdleStopping(s, p) && BeyondInboxSeen(s)
    ensures IdleStopping(EnvStep(s, e), p) && Untouched(s, EnvStep(s, e), p)
  {
    forall c: Call ensures !Slipping(EnvStep(s, e), p, c) {
      assert !Slipping(s, p, c);
    }
  }

  lemma SweepIdle(s: State, e: SweepEvent, p: PluginId)
    requires SweepEnabled(s, e) && IdleStopping(s, p) && SweepAlone(s)
    ensures IdleStopping(SweepStep(s, e), p) && Untouched(s, SweepStep(s, e), p)
  {
    StaysClear(s, SweepStep(s, e), p);
  }

  lemma ReinjectIdle(s: State, p: PluginId)
    requires s.draining != [] && IdleStopping(s, p) && DrainingAlone(s)
    ensures IdleStopping(Reinjected(s), p) && Untouched(s, Reinjected(s), p)
  {
    StaysClear(s, Reinjected(s), p);
  }

  lemma IdleStep(s: State, e: Event, p: PluginId)
    requires Enabled(s, e) && Inv(s) && OneTask(s, p) && IdleStopping(s, p) && !CompletesStop(s, e, p)
    ensures IdleStopping(Step(s, e), p) && Untouched(s, Step(s, e), p)
  {
    match e {
      case Route(x) => RouteIdle(s, x, p);
      case Wake(x) => WakeIdle(s, x, p);
      case Report(x) => ReportIdle(s, x, p);
      case Poll(x) => PollIdle(s, x, p);
      case Env(x) => EnvIdle(s, x, p);
      case Sweep(x) => SweepIdle(s, x, p);
      case Reinject => ReinjectIdle(s, p);
    }
  }

  lemma {:induction false} IdleRun(s: State, events: seq<Event>, p: PluginId)
    requires Inv(s) && OneTask(s, p) && IdleStopping(s, p)
    requires IsRun(s, events) && PromptRun(s, events) && StopRuns(s, events, p)
    ensures IdleStopping(Run(s, events), p) && Untouched(s, Run(s, events), p)
    decreases |events|
  {
    if events != [] {
      var e := events[0];
      IdleStep(s, e, p);
      TaskStep(s, e, p);
      InvStep(s, e);
      IdleRun(Step(s, e), events[1..], p);
    }
  }

  /** How often `c` is on its way, waits in its slot, or was answered with an error. */
  function Elsewhere(s: State, c: Call): nat {
    multiset(s.inbox)[c] + InHand(s, c) + multiset(s.wake)[c] + InQueue(s, c) + s.hist.refused[c] + s.hist.failed[c]
  }

  /** The sweep has decided to stop `p` and is about to take its gate. */
  ghost predicate StopBegins(s: State, p: PluginId) {
    PromptReachable(s) && s.sweeping == Decided(p)
  }

  /** A run during which the stop of `p` is under way and starts are prompt. */
  ghost predicate DuringStop(s: State, events: seq<Event>, p: PluginId) {
    IsRun(s, events) && PromptRun(s, events) && StopRuns(s, events, p)
  }

  /** From the moment the sweep takes the gate of `p`, with no call to `p` pending, past the gate or
      allowed through it, until the stop completes: no call to `p` takes the live-provider path and nothing is pending
      on `p`; each call to `p` that was not served is on its way to the slot, waits in it or was
      answered. */
  lemma IdleStopIsSafe(s: State, p: PluginId, events: seq<Event>)
    requires StopBegins(s, p) && Clear(s, p)
    requires DuringStop(IdleStopped(s, p), events, p)
    ensures var t := Run(IdleStopped(s, p), events);
      && (forall c: Call :: c.plugin == p ==> multiset(t.hist.served)[c] == multiset(s.hist.served)[c])
      && !HasPending(t.reg, p)
      && p in t.slots && t.slots[p].stopping && p in t.reg.gates
      && (forall c: Call :: c.plugin == p && c in t.hist.arrived && c !in t.hist.served ==> Elsewhere(t, c) == 1)
  {
    var t := Run(IdleStopped(s, p), events);
    StopBegun(s, p);
    IdleRun(IdleStopped(s, p), events, p);
    InvRun(IdleStopped(s, p), events);
    forall c: Call | c.plugin == p && c in t.hist.arrived && c !in t.hist.served ensures Elsewhere(t, c) == 1 {
      assert Places(t, c) == 1 && c !in t.draining;
    }
  }

  lemma StopBegun(s: State, p: PluginId)
    requires StopBegins(s, p)
    ensures Inv(IdleStopped(s, p)) && OneTask(IdleStopped(s, p), p)
    ensures Clear(s, p) ==> IdleStopping(IdleStopped(s, p), p)
  {
    forall c: Call ensures Slipping(IdleStopped(s, p), p, c) ==> Slipping(s, p, c) {}
    PromptReachableInv(s, p);
    InvStep(s, Sweep(StopIdle));
    TaskStep(s, Sweep(StopIdle), p);
  }

  /** Calls that wait in the slot of a plugin being stopped keep their order. */
  lemma IdleQueueKept(s: State, p: PluginId, first: seq<Event>, rest: seq<Event>)
    requires StopBegins(s, p) && Clear(s, p)
    requires DuringStop(IdleStopped(s, p), first, p)
    requires DuringStop(Run(IdleStopped(s, p), first), rest, p)
    ensures var t := Run(IdleStopped(s, p), first);
      p in t.slots && p in Run(t, rest).slots && t.slots[p].queue <= Run(t, rest).slots[p].queue
  {
    StopBegun(s, p);
    IdleRun(IdleStopped(s, p), first, p);
    InvRun(IdleStopped(s, p), first);
    TaskRun(IdleStopped(s, p), first, p);
    IdleRun(Run(IdleStopped(s, p), first), rest, p);
  }

  /** Nothing is ever pending on `p` while it is being stopped. */
  ghost predicate StaysQuiet(s: State, p: PluginId) {
    forall events: seq<Event> :: DuringStop(s, events, p) ==> !HasPending(Run(s, events).reg, p)
  }

  /** One step of the router or of the world outside in front of a run that disturbs the stop. */
  lemma DisturbedAfter(s: State, e: Event, p: PluginId)
    requires Enabled(s, e) && (e.Env? || e.Route?) && !StaysQuiet(Step(s, e), p)
    ensures !StaysQuiet(s, p)
  {
    var events: seq<Event> :| DuringStop(Step(s, e), events, p) && HasPending(Run(Step(s, e), events).reg, p);
    assert ([e] + events)[1..] == events;
    assert DuringStop(s, [e] + events, p);
  }

  lemma PendingDisturbs(s: State, p: PluginId)
    requires HasPending(s.reg, p)
    ensures !StaysQuiet(s, p)
  {
    assert DuringStop(s, [], p) && Run(s, []) == s;
  }

  /** A call past the gate may enter the table while its plugin is being stopped. */
  lemma PassingDisturbs(s: State, p: PluginId)
    requires Passing(s, p)
    ensures !StaysQuiet(s, p)
  {
    assert s.routing.call in Admitted(s, false).reg.pending;
    PendingDisturbs(Admitted(s, false), p);
    DisturbedAfter(s, Route(Admit(false)), p);
  }

  /** ... and so may an allowed one that has been found live. */
  lemma FoundDisturbs(s: State, p: PluginId, c: Call)
    requires s.routing == Looked(c, true) && Slipping(s, p, c)
    ensures !StaysQuiet(s, p)
  {
    PassingDisturbs(Served(s), p);
    DisturbedAfter(s, Route(Serve), p);
  }

  /** `c`, allowed through the gate of the registered `p`, is `i`-th in the channel. */
  predicate Lined(s: State, p: PluginId, c: Call, i: nat) {
    && p in s.reg.registered && c.plugin == p && p in s.reg.gates && c in s.reg.gates[p]
    && i < |s.inbox| && s.inbox[i] == c && c !in s.inbox[..i]
  }

  lemma LinedDisturbs(s: State, p: PluginId, c: Call, i: nat)
    requires Lined(s, p, c, i) && s.routing.Free?
    ensures !StaysQuiet(s, p)
    decreases i, 0
  {
    var t := LookedUp(s);
    if i == 0 {
      FoundDisturbs(t, p, c);
    } else {
      assert s.inbox[0] in s.inbox[..i] && s.inbox[1..][..i - 1] == s.inbox[..i][1..];
      AsideDisturbs(t, p, c, i - 1);
    }
    DisturbedAfter(s, Route(Look), p);
  }

  /** Whatever the router has in hand may be put aside first. */
  lemma AsideDisturbs(s: State, p: PluginId, c: Call, i: nat)
    requires Lined(s, p, c, i) && (s.routing.Looked? ==> s.routing.call != c)
    ensures !StaysQuiet(s, p)
    decreases i, 1
  {
    if s.routing.Free? {
      LinedDisturbs(s, p, c, i);
    } else if s.routing.Passed? {
      LinedDisturbs(Admitted(s, true), p, c, i);
      DisturbedAfter(s, Route(Admit(true)), p);
    } else if Live(s) {
      LinedDisturbs(Admitted(Served(s), true), p, c, i);
      DisturbedAfter(Served(s), Route(Admit(true)), p);
      DisturbedAfter(s, Route(Serve), p);
    } else {
      LinedDisturbs(Bounced(s), p, c, i);
      DisturbedAfter(s, Route(Bounce), p);
    }
  }

  lemma SlippingDisturbs(s: State, p: PluginId, c: Call)
    requires Slipping(s, p, c)
    ensures !StaysQuiet(s, p)
  {
    if s.routing == Looked(c, true) {
      FoundDisturbs(s, p, c);
    } else {
      var i := FirstOf(s.inbox, c);
      var t := EnvStep(s, Register(p));
      if s.routing == Looked(c, false) {
        LinedDisturbs(Bounced(t), p, c, i);
        DisturbedAfter(t, Route(Bounce), p);
      } else {
        AsideDisturbs(t, p, c, i);
      }
      DisturbedAfter(s, Env(Register(p)), p);
    }
  }

  /** The stop is safe in every run if and only if, when the sweep takes the gate, no call to `p` is
      pending or between the gate and the pending table, and none that the gate still allows is on
      its way to the gate. */
  lemma IdleStopSafeIff(s: State, p: PluginId)
    requires StopBegins(s, p)
    ensures StaysQuiet(IdleStopped(s, p), p) <==>
      !HasPending(s.reg, p) && !Passing(s, p) && forall c: Call :: !Slipping(s, p, c)
  {
    var t := IdleStopped(s, p);
    if HasPending(s.reg, p) {
      PendingDisturbs(t, p);
    } else if Passing(s, p) {
      PassingDisturbs(t, p);
    } else if c: Call :| Slipping(s, p, c) {
      SlippingDisturbs(t, p, c);
    } else {
      forall events: seq<Event> | DuringStop(t, events, p) ensures !HasPending(Run(t, events).reg, p) {
        IdleStopIsSafe(s, p, events);
      }
    }
  }

  /** When a stop completes, either no call waited and the slot is gone, or the waiting calls are
      kept in order behind the gate and exactly one new start is in flight. */
  lemma CompletedStopRewakes(s: State, e: Event, p: PluginId)
    requires PromptReachable(s) && Enabled(s, e) && CompletesStop(s, e, p)
    ensures var t := Step(s, e);
      && p in s.slots
      && if s.slots[p].queue == [] then p !in t.slots && StartTasks(t, p) + StopTasks(t, p) == 0
         else p in t.slots && t.slots[p].queue == s.slots[p].queue && p in t.reg.gates
              && StartTasks(t, p) == 1 && StopTasks(t, p) == 0
  {
    PromptReachableInv(s, p);
    StopReportTask(s, e.report, p);
  }
}
