/** The waker's handlers as code, each proved to take steps of the wake protocol. */
module LazyStarterCode {
  import opened Collections
  import opened LazyWake
  import opened LazyConservation
  import opened LazyEffects

  /** `t` is reached from `s` by steps of the poll and the re-injections it makes. */
  ghost predicate PollsTo(s: State, t: State) {
    exists events: seq<Event> ::
      && IsRun(s, events) && Run(s, events) == t
      && (forall e :: e in events ==> e.Poll? || e.Reinject?)
  }

  ghost predicate SweepsTo(s: State, t: State) {
    exists events: seq<Event> ::
      && IsRun(s, events) && Run(s, events) == t
      && (forall e :: e in events ==> e.Sweep?)
  }

  lemma PollsToSelf(s: State)
    ensures PollsTo(s, s)
  {
    assert IsRun(s, []) && Run(s, []) == s;
  }

  lemma SweepsToSelf(s: State)
    ensures SweepsTo(s, s)
  {
    assert IsRun(s, []) && Run(s, []) == s;
  }

  lemma PollsOn(s: State, t: State, e: Event)
    requires PollsTo(s, t) && Enabled(t, e) && (e.Poll? || e.Reinject?)
    ensures PollsTo(s, Step(t, e))
  {
    var events: seq<Event> :|
      IsRun(s, events) && Run(s, events) == t && forall x :: x in events ==> x.Poll? || x.Reinject?;
    RunAppend(s, events, e);
    assert forall x :: x in events + [e] ==> x.Poll? || x.Reinject?;
  }

  /** The router's own steps. */
  ghost predicate RoutesTo(s: State, t: State) {
    exists events: seq<Event> ::
      && IsRun(s, events) && Run(s, events) == t
      && (forall e :: e in events ==> e.Route?)
  }

  lemma RoutesOn(s: State, t: State, e: RouteEvent)
    requires RoutesTo(s, t) && RouteEnabled(t, e)
    ensures RoutesTo(s, RouteStep(t, e))
  {
    var events: seq<Event> :| IsRun(s, events) && Run(s, events) == t && forall x :: x in events ==> x.Route?;
    RunAppend(s, events, Route(e));
    assert forall x :: x in events + [Route(e)] ==> x.Route?;
  }

  lemma RoutesToSelf(s: State)
    ensures RoutesTo(s, s)
  {
    assert IsRun(s, []) && Run(s, []) == s;
  }

  lemma SweepsOn(s: State, t: State, e: SweepEvent)
    requires SweepsTo(s, t) && SweepEnabled(t, e)
    ensures SweepsTo(s, SweepStep(t, e))
  {
    var events: seq<Event> :| IsRun(s, events) && Run(s, events) == t && forall x :: x in events ==> x.Sweep?;
    RunAppend(s, events, Sweep(e));
    assert forall x :: x in events + [Sweep(e)] ==> x.Sweep?;
  }

  class LazyStarter {
    const startTimeout: nat
    var now: nat
    var reg: Registry
    var inbox: seq<Call>
    var routing: Routing
    var wake: seq<Call>
    var waking: map<PluginId, Waking>
    var tasks: Tasks
    ghost var poll: PollState
    ghost var draining: seq<Call>
    ghost var sweeping: Sweeping
    ghost var hist: History

    ghost function Abs(): State
      reads this
    {
      State(startTimeout, now, reg, inbox, routing, wake, waking, poll, draining, sweeping, tasks, hist)
    }

    constructor (startTimeout: nat, dormant: map<PluginId, nat>, now: nat)
      ensures LazyWake.Init(Abs()) && this.startTimeout == startTimeout && reg.dormant == dormant && this.now == now
    {
      this.startTimeout, this.now := startTimeout, now;
      reg := Registry(dormant, {}, map[], map[], {});
      inbox, routing, wake, waking := [], Free, [], map[];
      tasks := Tasks(multiset{}, multiset{}, [], []);
      poll, draining, sweeping := NoPoll, [], NoSweep;
      hist := History({}, {}, [], multiset{}, multiset{}, multiset{}, multiset{});
    }

    // --- on_wake_request, branch by branch ---

    method Enqueue(c: Call, w: Waking)
      requires wake != [] && c == wake[0] && c.plugin in waking && w == waking[c.plugin]
      modifies this
      ensures Abs() == WakeQueued(old(Abs()))
    {
      wake := wake[1..];
      hist := Receive(hist, c);
      waking := waking[c.plugin := w.(queue := w.queue + [c])];
    }

    method FailCall(c: Call)
      requires wake != [] && c == wake[0]
      modifies this
      ensures Abs() == WakeFailed(old(Abs()))
    {
      wake := wake[1..];
      hist := Receive(hist, c).(failed := hist.failed + multiset{c});
    }

    method Open(c: Call)
      requires wake != [] && c == wake[0]
      modifies this
      ensures Abs() == WakeOpened(old(Abs()))
    {
      wake := wake[1..];
      hist := Receive(hist, c);
      reg := Hold(Touch(reg, c.plugin, now), c.plugin);
      waking := waking[c.plugin := Waking([c], now, true, false, false)];
      tasks := tasks.(starts := tasks.starts + multiset{c.plugin});
    }

    /** Allow the frame at the gate and send it to the router. */
    method ReinjectOne(c: Call)
      requires draining != [] && c == draining[0]
      modifies `reg, `inbox, `draining, `hist
      ensures Abs() == Reinjected(old(Abs()))
    {
      reg := Allow(reg, c, now);
      inbox := inbox + [c];
      draining := draining[1..];
      hist := hist.(reinjected := hist.reinjected + multiset{c});
    }

    /** `on_wake_request`: one step of the protocol, completed by the re-injection when the
        call goes straight back to the router. */
    method OnWakeRequest(servesAction: bool) returns (ghost e: WakeEvent)
      requires wake != [] && WakerIdle(Abs())
      modifies this
      ensures WakeEnabled(old(Abs()), e)
      ensures Abs() == if e.Return? then Reinjected(WakeStep(old(Abs()), e)) else WakeStep(old(Abs()), e)
      ensures e.Return? ==> servesAction
      ensures wake == old(wake)[1..]
      ensures var (c, p) := (old(wake)[0], old(wake)[0].plugin);
        if p in old(waking) then
          var w := old(waking)[p];
          && reg == old(reg) && inbox == old(inbox) && tasks == old(tasks)
          && if |w.queue| < 64
             then waking == old(waking)[p := w.(queue := w.queue + [c])] && hist.failed == old(hist).failed
             else waking == old(waking) && hist.failed == old(hist).failed + multiset{c}
        else if p in old(reg).registered then
          && waking == old(waking) && tasks == old(tasks)
          && if servesAction
             then inbox == old(inbox) + [c] && (p in reg.gates ==> c in reg.gates[p] && reg.gates[p][c] == now)
             else inbox == old(inbox) && hist.failed == old(hist).failed + multiset{c}
        else
          && waking == old(waking)[p := Waking([c], now, true, false, false)] && p in reg.gates
          && tasks == old(tasks).(starts := old(tasks).starts + multiset{p}) && inbox == old(inbox)
    {
      var c := wake[0];
      if c.plugin in waking {
        var w := waking[c.plugin];
        if |w.queue| >= MAX_QUEUED {
          e := Fail;
          FailCall(c);
        } else {
          e := WakeEvent.Enqueue;
          Enqueue(c, w);
        }
      } else if c.plugin in reg.registered {
        if servesAction {
          e := Return;
          wake := wake[1..];
          hist := Receive(hist, c);
          draining := [c];
          ReinjectOne(c);
        } else {
          e := Fail;
          FailCall(c);
        }
      } else {
        e := WakeEvent.Open;
        Open(c);
      }
    }

    // --- on_start_result and on_stopped ---

    method SpawnStop(p: PluginId, w: Waking)
      modifies `waking, `tasks
      ensures waking == old(waking)[p := w.(stopping := true)]
      ensures tasks == old(tasks).(stops := old(tasks.stops) + multiset{p})
    {
      waking := waking[p := w.(stopping := true)];
      tasks := tasks.(stops := tasks.stops + multiset{p});
    }

    method OnStartResult() returns (ghost e: ReportEvent)
      requires tasks.startReports != [] && WakerIdle(Abs())
      modifies this
      ensures ReportEnabled(old(Abs()), e) && Abs() == ReportStep(old(Abs()), e)
      ensures e.StartLate? || e.StartOk? || e.StartError? || e.StartThenStop?
      ensures tasks.startReports == old(tasks).startReports[1..]
      ensures var (p, ok) := old(tasks).startReports[0];
        if p !in old(waking) then waking == old(waking) && reg == old(reg)
        else
          var w := old(waking)[p];
          if w.wantStop then
            && waking == old(waking)[p := w.(starting := false, stopping := true)] && reg == old(reg)
            && tasks.stops == old(tasks).stops + multiset{p}
          else if ok then waking == old(waking)[p := w.(starting := false)] && reg == old(reg)
          else
            && waking == old(waking) - {p} && reg == old(reg).(gates := old(reg).gates - {p})
            && hist.failed == old(hist).failed + multiset(w.queue)
    {
      var (p, ok) := tasks.startReports[0];
      tasks := tasks.(startReports := tasks.startReports[1..]);
      if p !in waking {
        e := StartLate;
        return;
      }
      var w := waking[p].(starting := false);
      if w.wantStop {
        e := StartThenStop;
        SpawnStop(p, w);
      } else if !ok {
        e := StartError;
        waking := waking - {p};
        reg := Release(reg, p);
        hist := hist.(failed := hist.failed + multiset(w.queue));
      } else {
        e := StartOk;
        waking := waking[p := w];
      }
    }

    method OnStopped() returns (ghost e: ReportEvent)
      requires tasks.stopReports != [] && WakerIdle(Abs())
      modifies this
      ensures ReportEnabled(old(Abs()), e) && Abs() == ReportStep(old(Abs()), e)
      ensures e.StopLate? || e.StopClose? || e.StopRestart?
      ensures tasks.stopReports == old(tasks).stopReports[1..]
      ensures var p := old(tasks).stopReports[0];
        if p !in old(waking) then waking == old(waking) && reg == old(reg)
        else
          var w := old(waking)[p];
          if w.queue == [] then waking == old(waking) - {p} && reg == old(reg).(gates := old(reg).gates - {p})
          else
            && waking == old(waking)[p := Waking(w.queue, now, true, false, false)] && p in reg.gates
            && tasks.starts == old(tasks).starts + multiset{p}
    {
      var p := tasks.stopReports[0];
      tasks := tasks.(stopReports := tasks.stopReports[1..]);
      if p !in waking {
        e := StopLate;
        return;
      }
      var w := waking[p].(stopping := false, wantStop := false);
      if w.queue == [] {
        e := StopClose;
        waking := waking - {p};
        reg := Release(reg, p);
      } else {
        e := StopRestart;
        reg := Hold(reg, p);
        waking := waking[p := w.(starting := true, since := now)];
        tasks := tasks.(starts := tasks.starts + multiset{p});
      }
    }

    // --- poll_waking ---

    /** The scan at the head of `poll_waking`. */
    method Classify() returns (ready: seq<PluginId>, expired: seq<PluginId>)
      ensures Lists(Abs(), ready, expired)
    {
      ready, expired := [], [];
      var rest := waking.Keys;
      ghost var s := Abs();
      while rest != {}
        invariant rest <= waking.Keys && Distinct(ready) && Distinct(expired)
        invariant forall p :: p in ready <==> p in waking && p !in rest && Polled(s, p) && p in reg.registered
        invariant forall p :: p in expired <==>
          p in waking && p !in rest && Polled(s, p) && p !in reg.registered && Overdue(s, p)
        decreases |rest|
      {
        var p :| p in rest;
        rest := rest - {p};
        var w := waking[p];
        if !w.stopping && !w.wantStop {
          if p in reg.registered {
            ready := ready + [p];
          } else if now - w.since >= startTimeout {
            expired := expired + [p];
          }
        }
      }
    }

    /** `reinject`: send queued frames back through the router in order, each allowed at the gate. */
    method Reinject(queue: seq<Call>, ghost s: State)
      requires draining == queue && PollsTo(s, Abs())
      modifies `reg, `inbox, `draining, `hist
      ensures PollsTo(s, Abs()) && Abs() == ReinjectedAll(old(Abs()))
      ensures SentOn(old(Abs()), Abs(), queue)
    {
      ghost var start := Abs();
      for i := 0 to |queue|
        invariant draining == queue[i..] && PollsTo(s, Abs()) && ReinjectedAll(Abs()) == ReinjectedAll(start)
      {
        ghost var before := Abs();
        PollsOn(s, before, Event.Reinject);
        ReinjectOne(queue[i]);
      }
      ReinjectsAll(start);
    }

    /** Close one ready slot and re-inject its queue. */
    method DrainOne(p: PluginId, ghost s: State)
      requires PollEnabled(Abs(), Drain(p)) && PollsTo(s, Abs())
      modifies `reg, `inbox, `draining, `hist, `poll, `waking
      ensures PollsTo(s, Abs()) && Abs() == ReinjectedAll(Drained(old(Abs()), p))
    {
      ghost var before := Abs();
      PollsOn(s, before, Poll(Drain(p)));
      var queue := waking[p].queue;
      waking := waking - {p};
      poll := Polling(poll.ready - {p}, poll.expired);
      draining := queue;
      assert Abs() == Drained(before, p);
      Reinject(queue, s);
    }

    /** The drain loop over the ready slots. */
    method DrainReady(ready: seq<PluginId>, ghost s: State)
      requires CanDrain(Abs(), ready) && PollsTo(s, Abs())
      modifies `reg, `inbox, `draining, `hist, `poll, `waking
      ensures PollsTo(s, Abs()) && Abs() == DrainedAll(old(Abs()), ready)
    {
      ghost var start := Abs();
      for i := 0 to |ready|
        invariant PollsTo(s, Abs()) && Abs() == DrainedAll(start, ready[..i])
      {
        DrainAt(start, ready, i);
        DrainOne(ready[i], s);
      }
      assert ready[..|ready|] == ready;
    }

    /** Time out one slot: fail its queue, let go of its gate, stop the plugin. */
    method ExpireOne(p: PluginId)
      requires poll.Polling? && p in waking
      modifies `reg, `hist, `poll, `waking, `tasks
      ensures Abs() == Expired(old(Abs()), p)
    {
      var w := waking[p];
      hist := hist.(failed := hist.failed + multiset(w.queue));
      reg := Release(reg, p);
      poll := poll.(expired := poll.expired - {p});
      if w.starting {
        waking := waking[p := w.(queue := [], wantStop := true, stopping := false)];
      } else {
        SpawnStop(p, w.(queue := [], wantStop := true));
      }
    }

    method ExpireNext(p: PluginId, ghost s: State)
      requires PollEnabled(Abs(), Expire(p)) && PollsTo(s, Abs())
      modifies `reg, `hist, `poll, `waking, `tasks
      ensures PollsTo(s, Abs()) && Abs() == Expired(old(Abs()), p)
    {
      PollsOn(s, Abs(), Poll(Expire(p)));
      ExpireOne(p);
    }

    method ExpireOverdue(expired: seq<PluginId>, ghost s: State)
      requires CanTimeOut(Abs(), expired) && PollsTo(s, Abs())
      modifies `reg, `hist, `poll, `waking, `tasks
      ensures PollsTo(s, Abs()) && Abs() == TimedOutAll(old(Abs()), expired)
    {
      ghost var start := Abs();
      for i := 0 to |expired|
        invariant PollsTo(s, Abs()) && Abs() == TimedOutAll(start, expired[..i])
      {
        TimeOutAt(start, expired, i);
        ExpireNext(expired[i], s);
      }
      assert expired[..|expired|] == expired;
    }

    /** `lazy_gate_ids`. */
    method GateIds() returns (ids: seq<PluginId>)
      ensures Distinct(ids) && SetOf(ids) == reg.gates.Keys
    {
      ids := [];
      var rest := reg.gates.Keys;
      while rest != {}
        invariant rest <= reg.gates.Keys && Distinct(ids)
        invariant forall p :: p in ids <==> p in reg.gates && p !in rest
        decreases |rest|
      {
        var p :| p in rest;
        ids, rest := ids + [p], rest - {p};
      }
    }

    /** Trim one gate, unless its plugin has a slot, and let go of it when no allowance is left. */
    method TrimOne(p: PluginId, ghost s: State)
      requires poll == Polling({}, {}) && draining == [] && PollsTo(s, Abs()) && (p !in waking ==> p in reg.gates)
      modifies `reg
      ensures PollsTo(s, Abs()) && Abs() == TrimmedOne(old(Abs()), p)
    {
      if p in waking { return; }
      PollsOn(s, Abs(), Poll(if Fresh(reg.gates[p], now) == map[] then TrimRelease(p) else TrimKeep(p)));
      var kept := Fresh(reg.gates[p], now);
      if kept == map[] {
        reg := Release(reg, p);
      } else {
        reg := reg.(gates := reg.gates[p := kept]);
      }
    }

    method TrimGates(ids: seq<PluginId>, ghost s: State)
      requires poll == Polling({}, {}) && draining == [] && PollsTo(s, Abs())
      requires Distinct(ids) && SetOf(ids) == reg.gates.Keys
      modifies `reg
      ensures PollsTo(s, Abs()) && Abs() == TrimmedAll(old(Abs()), ids)
    {
      ghost var start := Abs();
      for i := 0 to |ids|
        invariant PollsTo(s, Abs()) && Abs() == TrimmedAll(start, ids[..i])
      {
        TrimAt(start, ids, i);
        TrimOne(ids[i], s);
      }
      assert ids[..|ids|] == ids;
    }

    /** `poll_waking`: a run of poll steps. A watched slot whose plugin is registered is drained; one
        whose plugin is not and that is `startTimeout` old is timed out and its gate let go; every
        other slot, a younger one among them, keeps its queue, its flags and its gate. */
    method PollWaking()
      requires WakerIdle(Abs())
      modifies this
      ensures PollsTo(old(Abs()), Abs()) && WakerIdle(Abs()) && PolledSlots(old(Abs()), Abs())
      ensures OwnQueues(old(Abs())) ==> PolledGates(old(Abs()), Abs())
    {
      ghost var s := Abs();
      PollsToSelf(s);
      var ready, expired := Classify();
      PollSlots(ready, expired, s);
      var ids := GateIds();
      PollEnds(s, ready, expired);
      TrimGates(ids, s);
      PollsOn(s, Abs(), Poll(End));
      poll := NoPoll;
      assert Abs() == PolledOver(s, ready, expired, ids);
      PollDoes(s, ready, expired, ids);
    }

    method PollSlots(ready: seq<PluginId>, expired: seq<PluginId>, ghost s: State)
      requires WakerIdle(Abs()) && s == Abs() && PollsTo(s, s) && Lists(s, ready, expired)
      modifies `reg, `inbox, `draining, `hist, `poll, `waking, `tasks
      ensures PollsTo(s, Abs()) && Abs() == TimedOutAll(DrainedAll(PollStarted(s), ready), expired)
    {
      PollsOn(s, s, Poll(Begin));
      poll := PollStarted(s).poll;
      PollCan(s, ready, expired);
      DrainReady(ready, s);
      ExpireOverdue(expired, s);
    }

    // --- sweep_idle ---

    method SweepOne(p: PluginId, ghost s: State)
      requires WakerIdle(Abs()) && SweepsTo(s, Abs()) && p in reg.dormant
      modifies `reg, `waking, `tasks
      ensures SweepsTo(s, Abs()) && WakerIdle(Abs()) && Abs() == SweptOne(old(Abs()), p)
    {
      if p in waking || p !in reg.registered { return; }
      if p !in reg.lastUsed {
        SweepsOn(s, Abs(), StartClock(p));
        reg := Touch(reg, p, now);
        return;
      }
      if now < reg.lastUsed[p] + reg.dormant[p] || HasPending(reg, p) { return; }
      SweepsOn(s, Abs(), Decide(p));
      SweepsOn(s, SweepStep(Abs(), Decide(p)), StopIdle);
      reg := Hold(reg, p);
      SpawnStop(p, Waking([], now, false, false, false));
    }

    method SweepNext(p: PluginId, ghost rest: set<PluginId>, ghost s: State)
      requires p in rest && p in s.reg.dormant && SweepsTo(s, Abs()) && WakerIdle(Abs()) && Swept(s, Abs(), rest)
      modifies `reg, `waking, `tasks
      ensures SweepsTo(s, Abs()) && WakerIdle(Abs()) && Swept(s, Abs(), rest - {p})
    {
      SweptNext(s, Abs(), rest, p);
      SweepOne(p, s);
    }

    /** `sweep_idle`: a run of sweep steps. A slot is opened, behind its gate and with one stop task,
        for exactly the live lazy plugins without a slot whose clock has run for their `idle_stop` and
        to which no call is pending; a live one never used has its clock started. */
    method SweepIdle()
      requires WakerIdle(Abs())
      modifies `reg, `waking, `tasks
      ensures SweepsTo(old(Abs()), Abs()) && Swept(old(Abs()), Abs(), {})
      ensures forall p :: p in waking && p !in old(waking) <==> Rests(old(Abs()), p)
    {
      ghost var s := Abs();
      SweepsToSelf(s);
      var rest := reg.dormant.Keys;
      StartsSwept(s);
      while rest != {}
        invariant rest <= s.reg.dormant.Keys && SweepsTo(s, Abs()) && WakerIdle(Abs()) && Swept(s, Abs(), rest)
        decreases |rest|
      {
        var p :| p in rest;
        SweepNext(p, rest, s);
        rest := rest - {p};
      }
      SlotsAfterSweep(s, Abs());
    }

    // --- the router's side ---

    /** `lazy_gate_passes`: open when there is no gate; otherwise the frame's allowance is used up. */
    method LazyGatePasses(c: Call) returns (passes: bool)
      modifies `reg
      ensures passes <==> Passes(old(reg), c)
      ensures reg == if passes then Consume(old(reg), c) else old(reg)
      ensures passes <==> c.plugin !in old(reg).gates || c in old(reg).gates[c.plugin]
      ensures passes && c.plugin in old(reg).gates ==>
        c.plugin in reg.gates && reg.gates[c.plugin] == old(reg).gates[c.plugin] - {c}
      ensures OnlyGates(old(reg), reg) && forall q :: q != c.plugin ==> SameGate(old(reg), reg, q)
    {
      if c.plugin !in reg.gates {
        return true;
      }
      var allowances := reg.gates[c.plugin];
      passes := c in allowances;
      if passes {
        reg := reg.(gates := reg.gates[c.plugin := allowances - {c}]);
      }
    }

    /** The router takes the next call and looks its plugin up. */
    method LookUp()
      requires inbox != [] && routing.Free?
      modifies `inbox, `routing, `hist
      ensures Abs() == RouteStep(old(Abs()), Look)
    {
      var c := inbox[0];
      inbox := inbox[1..];
      hist := hist.(seen := hist.seen + {c});
      routing := Looked(c, c.plugin in reg.registered);
    }

    /** To the live plugin if the lookup found it and the gate lets the call through, to the waker
        otherwise. `denied` and `full` stand for the permission and quota checks and for the wake
        channel. */
    method PassGate(denied: bool, full: bool) returns (ghost e: RouteEvent)
      requires routing.Looked?
      modifies `routing, `reg, `wake, `hist
      ensures RouteEnabled(old(Abs()), e) && Abs() == RouteStep(old(Abs()), e)
      ensures e == if Live(old(Abs())) then Serve else if denied || full then Refuse else Bounce
      ensures var (c, gates) := (old(routing).call, old(reg).gates);
        if old(routing).live && (c.plugin !in gates || c in gates[c.plugin])
        then routing == Passed(c) && hist.served == old(hist).served + [c] && wake == old(wake)
        else
          && routing == Free && reg == old(reg) && hist.served == old(hist).served
          && if denied || full then wake == old(wake) && hist.refused == old(hist).refused + multiset{c}
             else wake == old(wake) + [c]
    {
      var c := routing.call;
      var live := routing.live;
      if live {
        live := LazyGatePasses(c);
      }
      if live {
        e := Serve;
        routing := Passed(c);
        hist := hist.(served := hist.served + [c]);
      } else if denied || full {
        e := Refuse;
        routing := Free;
        hist := hist.(refused := hist.refused + multiset{c});
      } else {
        e := Bounce;
        routing := Free;
        wake := wake + [c];
      }
    }

    /** The call that passed enters the pending table, unless a check denies it. */
    method InsertPending(denied: bool)
      requires routing.Passed?
      modifies `routing, `reg
      ensures Abs() == RouteStep(old(Abs()), Admit(denied))
      ensures var c := old(routing).call;
        && routing == Free
        && if denied then reg == old(reg)
           else reg.pending == old(reg).pending + {c} && (c.plugin in reg.dormant ==>
                  reg.lastUsed == old(reg).lastUsed[c.plugin := now])
    {
      var c := routing.call;
      routing := Free;
      if !denied {
        reg := Touch(reg.(pending := reg.pending + {c}), c.plugin, now);
      }
    }

    /** The router's arm for one call, when nothing runs in between: a run of the router's steps
        that leaves the call with its live plugin, with the waker, or answered. */
    method RouteCall(denied: bool, full: bool)
      requires inbox != [] && routing.Free?
      modifies `inbox, `routing, `reg, `wake, `hist
      ensures RoutesTo(old(Abs()), Abs()) && routing.Free?
      ensures var c := old(inbox)[0];
        if c.plugin in old(reg).registered && (c.plugin in old(reg).gates ==> c in old(reg).gates[c.plugin])
        then hist.served == old(hist).served + [c] && (!denied ==> c in reg.pending)
        else if denied || full then hist.refused == old(hist).refused + multiset{c}
        else wake == old(wake) + [c]
    {
      ghost var s := Abs();
      RoutesToSelf(s);
      RoutesOn(s, s, Look);
      LookUp();
      ghost var t := Abs();
      var e := PassGate(denied, full);
      RoutesOn(s, t, e);
      if routing.Passed? {
        RoutesOn(s, Abs(), Admit(denied));
        InsertPending(denied);
      }
    }
  }
}
