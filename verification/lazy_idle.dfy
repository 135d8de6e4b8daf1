/** When the idle sweep stops a plugin, told from the events of the run alone. */
module LazyIdle {
  import opened LazyWake

  /** The state before the event at `i`. */
  function StateAt(s: State, events: seq<Event>, i: nat): State
    requires IsRun(s, events) && i <= |events|
    decreases i
  {
    if i == 0 then s else StateAt(Step(s, events[0]), events[1..], i - 1)
  }

  // --- the registry, family by family of steps ---

  /** Entries, uses and the clock are as they were. */
  ghost predicate Quiet(s: State, t: State) {
    && t.reg.pending == s.reg.pending && t.reg.lastUsed == s.reg.lastUsed && t.reg.dormant == s.reg.dormant
    && t.now == s.now
  }

  lemma ReportQuiet(s: State, x: ReportEvent)
    requires ReportEnabled(s, x)
    ensures Quiet(s, ReportStep(s, x))
  {
  }

  lemma PollQuiet(s: State, x: PollEvent)
    requires PollEnabled(s, x)
    ensures Quiet(s, PollStep(s, x))
  {
  }

  /** Entries as they were; the clock of a woken or looked-at plugin may start anew. */
  lemma WakeTouches(s: State, x: WakeEvent)
    requires WakeEnabled(s, x)
    ensures var t := WakeStep(s, x);
      && t.reg.pending == s.reg.pending && t.reg.dormant == s.reg.dormant && t.now == s.now
      && t.reg.lastUsed == if x.Open? then Touch(s.reg, s.wake[0].plugin, s.now).lastUsed else s.reg.lastUsed
  {
  }

  lemma SweepTouches(s: State, x: SweepEvent)
    requires SweepEnabled(s, x)
    ensures var t := SweepStep(s, x);
      && t.reg.pending == s.reg.pending && t.reg.dormant == s.reg.dormant && t.now == s.now
      && t.reg.lastUsed == if x.StartClock? then Touch(s.reg, x.plugin, s.now).lastUsed else s.reg.lastUsed
  {
  }

  lemma RouteTouches(s: State, x: RouteEvent)
    requires RouteEnabled(s, x)
    ensures var t := RouteStep(s, x);
      && t.reg.dormant == s.reg.dormant && t.now == s.now
      && t.reg.pending == s.reg.pending + (if x == Admit(false) then {s.routing.call} else {})
      && t.reg.lastUsed == if x == Admit(false) then Touch(s.reg, s.routing.call.plugin, s.now).lastUsed
                           else s.reg.lastUsed
  {
  }

  lemma EnvTouches(s: State, x: EnvEvent)
    requires EnvEnabled(s, x)
    ensures var t := EnvStep(s, x);
      && t.reg.dormant == s.reg.dormant && t.now >= s.now
      && t.reg.pending == (if x.Complete? || (x.Answer? && !x.stays) then s.reg.pending - {x.call} else s.reg.pending)
      && t.reg.lastUsed == if x.Answer? then Touch(s.reg, x.call.plugin, s.now).lastUsed else s.reg.lastUsed
  {
  }

  // --- what enters and leaves the pending table ---

  predicate Admits(s: State, e: Event, c: Call) {
    e == Route(Admit(false)) && s.routing == Passed(c)
  }

  predicate Removes(e: Event, c: Call) {
    e == Env(Complete(c)) || e == Env(Answer(c, false))
  }

  ghost predicate AdmittedAt(s: State, events: seq<Event>, i: nat, c: Call)
    requires IsRun(s, events)
  {
    i < |events| && Admits(StateAt(s, events, i), events[i], c)
  }

  ghost predicate KeptFrom(events: seq<Event>, i: nat, c: Call) {
    forall j :: i <= j < |events| ==> !Removes(events[j], c)
  }

  lemma PendingStep(s: State, e: Event, c: Call)
    requires Enabled(s, e)
    ensures c in Step(s, e).reg.pending <==> Admits(s, e, c) || (c in s.reg.pending && !Removes(e, c))
  {
    match e {
      case Env(x) => EnvTouches(s, x);
      case Route(x) => RouteTouches(s, x);
      case Wake(x) => WakeTouches(s, x);
      case Report(x) => ReportQuiet(s, x);
      case Poll(x) => PollQuiet(s, x);
      case Sweep(x) => SweepTouches(s, x);
      case Reinject =>
    }
  }

  lemma KeptShift(events: seq<Event>, i: nat, c: Call)
    requires events != [] && 0 < i <= |events|
    ensures KeptFrom(events, i, c) <==> KeptFrom(events[1..], i - 1, c)
    ensures KeptFrom(events, 0, c) <==> !Removes(events[0], c) && KeptFrom(events[1..], 0, c)
  {
    if KeptFrom(events[1..], i - 1, c) {
      forall j | i <= j < |events| ensures !Removes(events[j], c) { assert events[j] == events[1..][j - 1]; }
    }
    if KeptFrom(events[1..], 0, c) && !Removes(events[0], c) {
      forall j | 0 <= j < |events| ensures !Removes(events[j], c) {
        if j > 0 { assert events[j] == events[1..][j - 1]; }
      }
    }
  }

  lemma AdmittedShift(s: State, events: seq<Event>, i: nat, c: Call)
    requires IsRun(s, events) && 0 < i < |events|
    ensures AdmittedAt(s, events, i, c) <==> AdmittedAt(Step(s, events[0]), events[1..], i - 1, c)
  {
  }

  /** In the table exactly if it was admitted and nothing has removed it since. */
  ghost predicate Stays(s: State, events: seq<Event>, c: Call)
    requires IsRun(s, events)
  {
    exists i: nat :: AdmittedAt(s, events, i, c) && KeptFrom(events, i + 1, c)
  }

  lemma StaysShift(s: State, events: seq<Event>, c: Call)
    requires IsRun(s, events) && events != []
    ensures Stays(s, events, c) <==>
      || Stays(Step(s, events[0]), events[1..], c)
      || (Admits(s, events[0], c) && KeptFrom(events[1..], 0, c))
  {
    var (t, rest) := (Step(s, events[0]), events[1..]);
    if Stays(t, rest, c) {
      var i: nat :| AdmittedAt(t, rest, i, c) && KeptFrom(rest, i + 1, c);
      AdmittedShift(s, events, i + 1, c);
      KeptShift(events, i + 2, c);
      assert AdmittedAt(s, events, i + 1, c) && KeptFrom(events, i + 1 + 1, c);
    }
    if Admits(s, events[0], c) && KeptFrom(rest, 0, c) {
      KeptShift(events, 1, c);
      assert AdmittedAt(s, events, 0, c) && KeptFrom(events, 0 + 1, c);
    }
    if Stays(s, events, c) {
      var i: nat :| AdmittedAt(s, events, i, c) && KeptFrom(events, i + 1, c);
      KeptShift(events, i + 1, c);
      if i > 0 {
        AdmittedShift(s, events, i, c);
        assert AdmittedAt(t, rest, i - 1, c) && KeptFrom(rest, i - 1 + 1, c);
      }
    }
  }

  lemma {:induction false} PendingRun(s: State, events: seq<Event>, c: Call)
    requires IsRun(s, events)
    ensures c in Run(s, events).reg.pending <==> Stays(s, events, c) || (c in s.reg.pending && KeptFrom(events, 0, c))
    decreases |events|
  {
    if events != [] {
      PendingStep(s, events[0], c);
      PendingRun(Step(s, events[0]), events[1..], c);
      StaysShift(s, events, c);
      KeptShift(events, 1, c);
    }
  }

  // --- uses ---

  /** The step uses `p`: admits a call to it, passes on its answer, wakes it, or starts its clock. */
  predicate Uses(s: State, e: Event, p: PluginId) {
    || (e == Route(Admit(false)) && s.routing.Passed? && s.routing.call.plugin == p)
    || (e.Env? && e.env.Answer? && e.env.call.plugin == p)
    || (e == Wake(Open) && s.wake != [] && s.wake[0].plugin == p)
    || e == Sweep(StartClock(p))
  }

  ghost predicate UsedAt(s: State, events: seq<Event>, i: nat, p: PluginId)
    requires IsRun(s, events)
  {
    i < |events| && Uses(StateAt(s, events, i), events[i], p)
  }

  /** No use lies in the future. */
  ghost predicate PastUses(s: State) {
    forall p :: p in s.reg.lastUsed ==> s.reg.lastUsed[p] <= s.now
  }

  lemma UseStep(s: State, e: Event, p: PluginId)
    requires Enabled(s, e) && p in s.reg.dormant
    ensures Step(s, e).reg.dormant == s.reg.dormant && Step(s, e).now >= s.now
    ensures if Uses(s, e, p) then p in Step(s, e).reg.lastUsed && Step(s, e).reg.lastUsed[p] == s.now
            else (p in Step(s, e).reg.lastUsed <==> p in s.reg.lastUsed)
                 && (p in s.reg.lastUsed ==> Step(s, e).reg.lastUsed[p] == s.reg.lastUsed[p])
  {
    match e {
      case Env(x) => EnvTouches(s, x);
      case Route(x) => RouteTouches(s, x);
      case Wake(x) => WakeTouches(s, x);
      case Report(x) => ReportQuiet(s, x);
      case Poll(x) => PollQuiet(s, x);
      case Sweep(x) => SweepTouches(s, x);
      case Reinject =>
    }
  }

  lemma PastStep(s: State, e: Event)
    requires Enabled(s, e) && PastUses(s)
    ensures PastUses(Step(s, e))
  {
    match e {
      case Env(x) => EnvTouches(s, x);
      case Route(x) => RouteTouches(s, x);
      case Wake(x) => WakeTouches(s, x);
      case Report(x) => ReportQuiet(s, x);
      case Poll(x) => PollQuiet(s, x);
      case Sweep(x) => SweepTouches(s, x);
      case Reinject =>
    }
  }

  lemma UsedShift(s: State, events: seq<Event>, i: nat, p: PluginId)
    requires IsRun(s, events) && 0 < i <= |events|
    ensures UsedAt(s, events, i, p) <==> UsedAt(Step(s, events[0]), events[1..], i - 1, p)
    ensures StateAt(s, events, i) == StateAt(Step(s, events[0]), events[1..], i - 1)
  {
  }

  /** The clock of `p` shows its last use. */
  lemma {:induction false} LastUse(s: State, events: seq<Event>, p: PluginId)
    requires IsRun(s, events) && p in s.reg.dormant && PastUses(s)
    ensures p in s.reg.lastUsed ==>
      p in Run(s, events).reg.lastUsed && s.reg.lastUsed[p] <= Run(s, events).reg.lastUsed[p]
    ensures forall i: nat :: UsedAt(s, events, i, p) ==>
      p in Run(s, events).reg.lastUsed && StateAt(s, events, i).now <= Run(s, events).reg.lastUsed[p]
    ensures p in Run(s, events).reg.lastUsed ==>
      || (p in s.reg.lastUsed && s.reg.lastUsed[p] == Run(s, events).reg.lastUsed[p])
      || exists i: nat :: UsedAt(s, events, i, p) && StateAt(s, events, i).now == Run(s, events).reg.lastUsed[p]
    decreases |events|
  {
    if events != [] {
      var (t, rest, end) := (Step(s, events[0]), events[1..], Run(s, events));
      UseStep(s, events[0], p);
      PastStep(s, events[0]);
      LastUse(t, rest, p);
      forall i: nat | UsedAt(s, events, i, p)
        ensures p in end.reg.lastUsed && StateAt(s, events, i).now <= end.reg.lastUsed[p]
      {
        if i > 0 { UsedShift(s, events, i, p); }
      }
      if p in end.reg.lastUsed {
        if i: nat :| UsedAt(t, rest, i, p) && StateAt(t, rest, i).now == end.reg.lastUsed[p] {
          UsedShift(s, events, i + 1, p);
        } else if Uses(s, events[0], p) {
          assert UsedAt(s, events, 0, p) && StateAt(s, events, 0).now == end.reg.lastUsed[p];
        }
      }
    }
  }

  lemma {:induction false} SameDormant(s: State, events: seq<Event>)
    requires IsRun(s, events)
    ensures Run(s, events).reg.dormant == s.reg.dormant
    decreases |events|
  {
    if events != [] { SameDormant(Step(s, events[0]), events[1..]); }
  }

  /** Every call to `p` that was admitted has left the table since. */
  ghost predicate NoneInFlight(s: State, events: seq<Event>, p: PluginId)
    requires IsRun(s, events)
  {
    forall i: nat, c: Call :: AdmittedAt(s, events, i, c) && c.plugin == p ==>
      exists j :: i < j < |events| && Removes(events[j], c)
  }

  /** `p` has been used, and not for the last `idle` of the run. */
  ghost predicate Unused(s: State, events: seq<Event>, p: PluginId, idle: nat)
    requires IsRun(s, events)
  {
    && (exists i: nat :: UsedAt(s, events, i, p))
    && forall i: nat :: UsedAt(s, events, i, p) ==> StateAt(s, events, i).now + idle <= Run(s, events).now
  }

  lemma InFlight(s: State, events: seq<Event>, p: PluginId)
    requires IsRun(s, events) && s.reg.pending == {}
    ensures HasPending(Run(s, events).reg, p) <==> !NoneInFlight(s, events, p)
  {
    var end := Run(s, events);
    if HasPending(end.reg, p) {
      var c :| c in end.reg.pending && c.plugin == p;
      PendingRun(s, events, c);
      var i: nat :| AdmittedAt(s, events, i, c) && KeptFrom(events, i + 1, c);
      assert !exists j :: i < j < |events| && Removes(events[j], c);
    } else {
      forall i: nat, c: Call | AdmittedAt(s, events, i, c) && c.plugin == p
        ensures exists j :: i < j < |events| && Removes(events[j], c)
      {
        PendingRun(s, events, c);
        assert !KeptFrom(events, i + 1, c);
      }
    }
  }

  lemma Rested(s: State, events: seq<Event>, p: PluginId)
    requires IsRun(s, events) && s.reg.lastUsed == map[] && p in s.reg.dormant
    ensures var end := Run(s, events);
      (p in end.reg.lastUsed && end.now >= end.reg.lastUsed[p] + s.reg.dormant[p]) <==>
      Unused(s, events, p, s.reg.dormant[p])
  {
    LastUse(s, events, p);
  }

  /** Over every run from the start the idle sweep may decide to stop `p` if and only if the waker is
      idle, `p` is a lazy plugin, registered and without a slot, every call to it that entered the
      pending table has left it, and `p` was last used - a call admitted, an answer passed on, a
      wake, the start of its clock - at least its `idle_stop` ago. */
  lemma DecidesIff(s: State, events: seq<Event>, p: PluginId)
    requires Init(s) && IsRun(s, events)
    ensures var end := Run(s, events);
      Enabled(end, Sweep(Decide(p))) <==>
      && WakerIdle(end) && p in s.reg.dormant && p in end.reg.registered && p !in end.slots
      && NoneInFlight(s, events, p) && Unused(s, events, p, s.reg.dormant[p])
  {
    SameDormant(s, events);
    InFlight(s, events, p);
    if p in s.reg.dormant { Rested(s, events, p); }
  }
}
