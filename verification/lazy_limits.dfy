/** Where the guarantees of the wake protocol end: reachable states and runs that show that each
    condition of the theorems on tasks, on ordering and on the idle stop is needed. */
module LazyLimits {
  import opened LazyWake
  import opened LazyTasks
  import opened LazyOrdering

  lemma ReachableStep(s: State, e: Event)
    requires Reachable(s) && Enabled(s, e)
    ensures Reachable(Step(s, e))
  {
    var s0, events :| Init(s0) && IsRun(s0, events) && Run(s0, events) == s;
    RunAppend(s0, events, e);
  }

  /** The plugin's `idle_stop`: an allowance outlives it. */
  const IDLE: nat := 1000

  function NoHistory(): History {
    History({}, {}, [], multiset{}, multiset{}, multiset{}, multiset{})
  }

  function Start(p: PluginId): State {
    State(10000, 0, Registry(map[p := IDLE], {}, map[], map[], {}), [], Free, [], map[], NoPoll, [], NoSweep,
          Tasks(multiset{}, multiset{}, [], []), NoHistory())
  }

  lemma {:induction false} PromptAppend(s: State, events: seq<Event>, e: Event)
    requires IsRun(s, events) && PromptRun(s, events) && Enabled(Run(s, events), e) && Prompt(Run(s, events), e)
    ensures IsRun(s, events + [e]) && PromptRun(s, events + [e])
    decreases |events|
  {
    RunAppend(s, events, e);
    if events != [] {
      assert (events + [e])[1..] == events[1..] + [e];
      PromptAppend(Step(s, events[0]), events[1..], e);
    } else {
      assert events + [e] == [e] && [e][1..] == [];
    }
  }

  lemma ByPrompt(s: State, e: Event, t: State)
    requires PromptReachable(s) && Enabled(s, e) && Prompt(s, e) && Step(s, e) == t
    ensures PromptReachable(t)
  {
    var s0, events :| Init(s0) && IsRun(s0, events) && PromptRun(s0, events) && Run(s0, events) == s;
    RunAppend(s0, events, e);
    PromptAppend(s0, events, e);
  }

  lemma StartReachable(p: PluginId)
    ensures PromptReachable(Start(p))
  {
    assert IsRun(Start(p), []) && PromptRun(Start(p), []) && Run(Start(p), []) == Start(p);
  }

  lemma PromptIsReachable(s: State)
    requires PromptReachable(s)
    ensures Reachable(s)
  {
  }

  // One step of a run with prompt starts, by the actor that takes it.

  lemma ByEnv(s: State, e: EnvEvent, t: State)
    requires PromptReachable(s) && EnvEnabled(s, e) && EnvStep(s, e) == t
    ensures PromptReachable(t)
  {
    ByPrompt(s, Env(e), t);
  }

  lemma ByRoute(s: State, e: RouteEvent, t: State)
    requires PromptReachable(s) && RouteEnabled(s, e) && RouteStep(s, e) == t
    ensures PromptReachable(t)
  {
    ByPrompt(s, Route(e), t);
  }

  lemma ByWake(s: State, e: WakeEvent, t: State)
    requires PromptReachable(s) && WakeEnabled(s, e) && WakeStep(s, e) == t
    ensures PromptReachable(t)
  {
    ByPrompt(s, Wake(e), t);
  }

  lemma ByReport(s: State, e: ReportEvent, t: State)
    requires PromptReachable(s) && ReportEnabled(s, e) && ReportStep(s, e) == t
    ensures PromptReachable(t)
  {
    ByPrompt(s, Report(e), t);
  }

  lemma ByPoll(s: State, e: PollEvent, t: State)
    requires PromptReachable(s) && PollEnabled(s, e) && PollStep(s, e) == t
    requires e.Drain? ==> !s.slots[e.plugin].starting
    ensures PromptReachable(t)
  {
    ByPrompt(s, Poll(e), t);
  }

  lemma BySweep(s: State, e: SweepEvent, t: State)
    requires PromptReachable(s) && SweepEnabled(s, e) && SweepStep(s, e) == t
    ensures PromptReachable(t)
  {
    ByPrompt(s, Sweep(e), t);
  }

  lemma ByReinject(s: State, t: State)
    requires PromptReachable(s) && s.draining != [] && Reinjected(s) == t
    ensures PromptReachable(t)
  {
    ByPrompt(s, Reinject, t);
  }

  // --- a late start report ---

  /** A first call `c` has opened a slot for its sleeping plugin and the start task runs. */
  function Opened(c: Call): State {
    Start(c.plugin).(
      reg := Registry(map[c.plugin := IDLE], {}, map[c.plugin := map[]], map[c.plugin := 0], {}),
      slots := map[c.plugin := Waking([c], 0, true, false, false)],
      tasks := Tasks(multiset{c.plugin}, multiset{}, [], []),
      hist := NoHistory().(arrived := {c}, seen := {c}, received := multiset{c}))
  }

  /** A call arrives, its plugin is not registered, and it goes to the waker. */
  lemma Bounces(s: State, c: Call, t: State)
    requires PromptReachable(s) && s.inbox == [] && s.routing == Free
    requires c !in s.hist.arrived && c.plugin !in s.reg.registered
    requires t == s.(wake := s.wake + [c],
                     hist := s.hist.(arrived := s.hist.arrived + {c}, seen := s.hist.seen + {c}))
    ensures PromptReachable(t)
  {
    var s1 := EnvStep(s, Arrive(c));
    var s2 := RouteStep(s1, Look);
    ByEnv(s, Arrive(c), s1);
    ByRoute(s1, Look, s2);
    ByRoute(s2, Bounce, t);
  }

  /** The first call is on its way to the waker. */
  function Woken(c: Call): State {
    Start(c.plugin).(wake := [c], hist := NoHistory().(arrived := {c}, seen := {c}))
  }

  lemma OpenedIs(c: Call)
    ensures WakeOpened(Woken(c)) == Opened(c)
  {
    assert [c][1..] == [];
    assert multiset{} + multiset{c} == multiset{c} && multiset{} + multiset{c.plugin} == multiset{c.plugin};
  }

  lemma OpenedReachable(c: Call)
    ensures PromptReachable(Opened(c))
  {
    StartReachable(c.plugin);
    Bounces(Start(c.plugin), c, Woken(c));
    OpenedIs(c);
    ByWake(Woken(c), Open, Opened(c));
  }

  /** The plugin registers before its start task reports, and its slot is drained. */
  function DrainedEarly(c: Call): State {
    Opened(c).(reg := Opened(c).reg.(registered := {c.plugin}), slots := map[],
               poll := Polling({}, {}), draining := [c])
  }

  lemma DrainedEarlyReachable(c: Call)
    ensures Reachable(DrainedEarly(c))
  {
    var p := c.plugin;
    var s3 := Opened(c).(reg := Opened(c).reg.(registered := {p}));
    var s4 := s3.(poll := Polling({p}, {}));
    OpenedReachable(c);
    ByEnv(Opened(c), Register(p), s3);
    assert PollStarted(s3).poll.ready == {p} && PollStarted(s3).poll.expired == {};
    ByPoll(s3, Begin, s4);
    PromptIsReachable(s4);
    assert Drained(s4, p) == DrainedEarly(c) by { assert s4.slots - {p} == map[]; }
    ReachableStep(s4, Poll(Drain(p)));
  }

  /** The re-injected call is in the router's channel and the plugin is gone again. */
  function GoneAgain(c: Call, registered: set<PluginId>): State {
    Opened(c).(
      reg := Registry(map[c.plugin := IDLE], registered, map[c.plugin := map[c := 0]], map[c.plugin := 0], {}),
      inbox := [c], slots := map[],
      hist := Opened(c).hist.(reinjected := multiset{c}))
  }

  lemma ReinjectedEarly(c: Call)
    ensures Reinjected(DrainedEarly(c)) == GoneAgain(c, {c.plugin}).(poll := Polling({}, {}))
  {
    var none: Allowances := map[];
    assert none[c := 0] == map[c := 0];
    assert [] + [c] == [c] && [c][1..] == [];
  }

  lemma GoneAgainReachable(c: Call)
    ensures Reachable(GoneAgain(c, {}))
  {
    var p := c.plugin;
    var s5 := GoneAgain(c, {p}).(poll := Polling({}, {}));
    DrainedEarlyReachable(c);
    ReinjectedEarly(c);
    ReachableStep(DrainedEarly(c), Reinject);
    ReachableStep(s5, Poll(End));
    assert EnvStep(GoneAgain(c, {p}), Unregister(p)) == GoneAgain(c, {p} - {p});
    assert {p} - {p} == {};
    ReachableStep(GoneAgain(c, {p}), Env(Unregister(p)));
  }

  /** Without prompt starts the one-task property fails: the call that comes back to the waker
      opens a second slot while the first start task still runs. */
  lemma LateStartOverlaps(c: Call) returns (s: State)
    ensures Reachable(s) && StartTasks(s, c.plugin) == 2
  {
    GoneAgainReachable(c);
    var s6 := GoneAgain(c, {});
    var s7 := LookedUp(s6);
    ReachableStep(s6, Route(Look));
    var s8 := Bounced(s7);
    ReachableStep(s7, Route(Bounce));
    assert s8.wake[0] == c;
    s := WakeOpened(s8);
    ReachableStep(s8, Wake(Open));
  }

  // --- two calls whose order is lost ---

  /** Both calls wait in the slot of their plugin. */
  function BothQueued(c: Call, d: Call): State {
    Opened(c).(slots := map[c.plugin := Waking([c, d], 0, true, false, false)],
               hist := NoHistory().(arrived := {c, d}, seen := {c, d}, received := multiset{c, d}))
  }

  /** The plugin has registered and the poll has found its slot ready. */
  function BothReady(c: Call, d: Call): State {
    BothQueued(c, d).(reg := Opened(c).reg.(registered := {c.plugin}), poll := Polling({c.plugin}, {}))
  }

  lemma BothQueuedReachable(c: Call, d: Call)
    requires c != d && c.plugin == d.plugin
    ensures PromptReachable(BothQueued(c, d))
  {
    var s1 := Opened(c).(wake := [d], hist := Opened(c).hist.(arrived := {c, d}, seen := {c, d}));
    OpenedReachable(c);
    Bounces(Opened(c), d, s1);
    assert [c] + [d] == [c, d] && multiset{c} + multiset{d} == multiset{c, d};
    assert WakeQueued(s1).slots == BothQueued(c, d).slots;
    ByWake(s1, Enqueue, BothQueued(c, d));
  }

  lemma BothReadyReachable(c: Call, d: Call)
    requires c != d && c.plugin == d.plugin
    ensures Reachable(BothReady(c, d)) && Enabled(BothReady(c, d), Poll(Drain(c.plugin)))
  {
    var p := c.plugin;
    var s3 := BothQueued(c, d).(reg := Opened(c).reg.(registered := {p}));
    BothQueuedReachable(c, d);
    ByEnv(BothQueued(c, d), Register(p), s3);
    assert PollStarted(s3).poll.ready == {p} && PollStarted(s3).poll.expired == {};
    ByPoll(s3, Begin, BothReady(c, d));
    PromptIsReachable(BothReady(c, d));
  }

  /** A state after the drain: what is in the channel, in hand, with the waker, and served. */
  function Line(c: Call, d: Call, now: nat, registered: set<PluginId>, gate: Allowances,
                inbox: seq<Call>, routing: Routing, wake: seq<Call>, served: seq<Call>): State {
    BothReady(c, d).(
      now := now, reg := Registry(map[c.plugin := IDLE], registered, map[c.plugin := gate], map[c.plugin := 0], {}),
      inbox := inbox, routing := routing, wake := wake, slots := map[], poll := Polling({}, {}),
      hist := BothReady(c, d).hist.(served := served, reinjected := multiset{c, d}))
  }

  predicate AllKeepAllowances(s: State, events: seq<Event>, p: PluginId)
    requires IsRun(s, events)
    decreases |events|
  {
    events == [] || (KeepsAllowances(s, events[0], p) && AllKeepAllowances(Step(s, events[0]), events[1..], p))
  }

  /** One more event in front of a run. */
  lemma Before(s: State, e: Event, t: State, events: seq<Event>)
    requires Enabled(s, e) && Step(s, e) == t && IsRun(t, events)
    ensures IsRun(s, [e] + events) && Run(s, [e] + events) == Run(t, events)
    ensures forall p ::
      KeepsAllowances(s, e, p) && AllKeepAllowances(t, events, p) ==> AllKeepAllowances(s, [e] + events, p)
  {
    assert ([e] + events)[1..] == events;
  }

  lemma Nothing(s: State)
    ensures IsRun(s, []) && Run(s, []) == s && forall p :: AllKeepAllowances(s, [], p)
  {
  }

  /** The first call finds the gate closed and goes back to the waker; the second passes. */
  function Overtaking(): seq<Event> {
    [Route(Look)] + ([Route(Serve)] + [])
  }

  lemma SecondPasses(c: Call, d: Call, now: nat, gate: Allowances)
    requires c != d && c.plugin == d.plugin && d in gate
    ensures var (p, s) := (c.plugin, Line(c, d, now, {c.plugin}, gate, [d], Free, [c], []));
      IsRun(s, Overtaking()) && Run(s, Overtaking()).hist.served == [d] && AllKeepAllowances(s, Overtaking(), p)
  {
    var p := c.plugin;
    var s := Line(c, d, now, {p}, gate, [d], Free, [c], []);
    var s1 := Line(c, d, now, {p}, gate, [], Looked(d, true), [c], []);
    assert [d][1..] == [];
    assert RouteStep(s, Look) == s1;
    var s2 := RouteStep(s1, Serve);
    Nothing(s2);
    Before(s1, Route(Serve), s2, []);
    Before(s, Route(Look), s1, [Route(Serve)] + []);
  }

  /** Both frames are allowed and in the channel. */
  function BothAllowed(c: Call, d: Call): State {
    Line(c, d, 0, {c.plugin}, map[c := 0, d := 0], [c, d], Free, [], [])
  }

  /** The slot has been drained and both frames are to be re-injected. */
  function BothDrained(c: Call, d: Call): State {
    BothReady(c, d).(slots := map[], poll := Polling({}, {}), draining := [c, d])
  }

  lemma DrainedIs(c: Call, d: Call)
    ensures Drained(BothReady(c, d), c.plugin) == BothDrained(c, d)
  {
    assert BothReady(c, d).slots - {c.plugin} == map[];
    assert {c.plugin} - {c.plugin} == {};
  }

  /** The first frame is back in the channel. */
  function OneAllowed(c: Call, d: Call, now: nat): State {
    Line(c, d, now, {c.plugin}, map[c := 0], [c], Free, [], []).(
      draining := [d], hist := BothReady(c, d).hist.(reinjected := multiset{c}))
  }

  lemma OneReinjected(c: Call, d: Call)
    ensures Reinjected(BothDrained(c, d)) == OneAllowed(c, d, 0)
  {
    var none: Allowances := map[];
    assert none[c := 0] == map[c := 0];
    assert [c, d][1..] == [d];
  }

  lemma OtherReinjected(c: Call, d: Call, now: nat)
    requires c != d && c.plugin == d.plugin
    ensures Reinjected(OneAllowed(c, d, now)) ==
            Line(c, d, now, {c.plugin}, map[c := 0, d := now], [c, d], Free, [], [])
  {
    var one: Allowances := map[c := 0];
    assert one[d := now] == map[c := 0, d := now];
    assert [c] + [d] == [c, d] && [d][1..] == [] && multiset{c} + multiset{d} == multiset{c, d};
  }

  lemma BothReinjected(c: Call, d: Call, events: seq<Event>)
    requires c != d && c.plugin == d.plugin && IsRun(BothAllowed(c, d), events)
    ensures var (p, s) := (c.plugin, Drained(BothReady(c, d), c.plugin));
      && IsRun(s, [Reinject] + ([Reinject] + events))
      && Run(s, [Reinject] + ([Reinject] + events)) == Run(BothAllowed(c, d), events)
      && (AllKeepAllowances(BothAllowed(c, d), events, p) ==>
            AllKeepAllowances(s, [Reinject] + ([Reinject] + events), p))
  {
    DrainedIs(c, d);
    OneReinjected(c, d);
    OtherReinjected(c, d, 0);
    Before(OneAllowed(c, d, 0), Reinject, BothAllowed(c, d), events);
    Before(BothDrained(c, d), Reinject, OneAllowed(c, d, 0), [Reinject] + events);
  }

  /** The plugin's connection ends before the first call is looked up and is back before the
      second. */
  lemma LeavesAndReturns(c: Call, d: Call, after: seq<Event>)
    requires c != d && c.plugin == d.plugin
    requires IsRun(Line(c, d, 0, {c.plugin}, map[c := 0, d := 0], [d], Free, [c], []), after)
    ensures var (p, s) := (c.plugin, BothAllowed(c, d));
      var t := Line(c, d, 0, {c.plugin}, map[c := 0, d := 0], [d], Free, [c], []);
      var events := [Env(Unregister(p))] + ([Route(Look)] + ([Route(Bounce)] + ([Env(Register(p))] + after)));
      && IsRun(s, events) && Run(s, events) == Run(t, after)
      && (AllKeepAllowances(t, after, p) ==> AllKeepAllowances(s, events, p))
  {
    var p := c.plugin;
    var gate: Allowances := map[c := 0, d := 0];
    var s := BothAllowed(c, d);
    var s1 := Line(c, d, 0, {}, gate, [c, d], Free, [], []);
    var s2 := Line(c, d, 0, {}, gate, [d], Looked(c, false), [], []);
    var s3 := Line(c, d, 0, {}, gate, [d], Free, [c], []);
    var t := Line(c, d, 0, {p}, gate, [d], Free, [c], []);
    assert [c, d][1..] == [d];
    Before(s3, Env(Register(p)), t, after);
    Before(s2, Route(Bounce), s3, [Env(Register(p))] + after);
    Before(s1, Route(Look), s2, [Route(Bounce)] + ([Env(Register(p))] + after));
    Before(s, Env(Unregister(p)), s1, [Route(Look)] + ([Route(Bounce)] + ([Env(Register(p))] + after)));
  }

  /** Without a lasting registration the order fails, even if every allowance is kept. */
  lemma ReregistrationOvertakes(c: Call, d: Call) returns (b: State, after: seq<Event>)
    requires c != d && c.plugin == d.plugin
    ensures Reachable(b) && Enabled(b, Poll(Drain(c.plugin))) && b.slots[c.plugin].queue == [c, d]
    ensures c.plugin in b.reg.registered && b.hist.served == []
    ensures IsRun(Drained(b, c.plugin), after) && Run(Drained(b, c.plugin), after).hist.served == [d]
    ensures AllKeepAllowances(Drained(b, c.plugin), after, c.plugin)
  {
    b := BothReady(c, d);
    BothReadyReachable(c, d);
    var p := c.plugin;
    SecondPasses(c, d, 0, map[c := 0, d := 0]);
    LeavesAndReturns(c, d, Overtaking());
    after := [Env(Unregister(p))] + ([Route(Look)] + ([Route(Bounce)] + ([Env(Register(p))] + Overtaking())));
    BothReinjected(c, d, after);
    after := [Reinject] + ([Reinject] + after);
  }

  /** The second frame is re-injected a little later. */
  lemma ReinjectedApart(c: Call, d: Call, after: seq<Event>)
    requires c != d && c.plugin == d.plugin
    requires IsRun(Line(c, d, 1, {c.plugin}, map[c := 0, d := 1], [c, d], Free, [], []), after)
    ensures var (s, t) := (Drained(BothReady(c, d), c.plugin),
                           Line(c, d, 1, {c.plugin}, map[c := 0, d := 1], [c, d], Free, [], []));
      var events := [Reinject] + ([Env(Tick(1))] + ([Reinject] + after));
      IsRun(s, events) && Run(s, events) == Run(t, after)
  {
    var t := Line(c, d, 1, {c.plugin}, map[c := 0, d := 1], [c, d], Free, [], []);
    DrainedIs(c, d);
    OneReinjected(c, d);
    OtherReinjected(c, d, 1);
    assert EnvStep(OneAllowed(c, d, 0), Tick(1)) == OneAllowed(c, d, 1);
    Before(OneAllowed(c, d, 1), Reinject, t, after);
    Before(OneAllowed(c, d, 0), Env(Tick(1)), OneAllowed(c, d, 1), [Reinject] + after);
    Before(BothDrained(c, d), Reinject, OneAllowed(c, d, 0), [Env(Tick(1))] + ([Reinject] + after));
  }

  /** The first allowance has gone stale in the channel; the second, given later, is kept. */
  lemma FirstGoesStale(c: Call, d: Call, after: seq<Event>)
    requires c != d && c.plugin == d.plugin
    requires IsRun(Line(c, d, ALLOW_TTL, {c.plugin}, map[d := 1], [c, d], Free, [], []), after)
    ensures var (s, t) := (Line(c, d, 1, {c.plugin}, map[c := 0, d := 1], [c, d], Free, [], []),
                           Line(c, d, ALLOW_TTL, {c.plugin}, map[d := 1], [c, d], Free, [], []));
      var events := [Env(Tick(ALLOW_TTL - 1))] + ([Poll(TrimKeep(c.plugin))] + after);
      IsRun(s, events) && Run(s, events) == Run(t, after)
  {
    var p := c.plugin;
    var gate: Allowances := map[c := 0, d := 1];
    var s := Line(c, d, 1, {p}, gate, [c, d], Free, [], []);
    var s1 := Line(c, d, ALLOW_TTL, {p}, gate, [c, d], Free, [], []);
    var t := Line(c, d, ALLOW_TTL, {p}, map[d := 1], [c, d], Free, [], []);
    assert Fresh(gate, ALLOW_TTL) == map[d := 1] && d in Fresh(gate, ALLOW_TTL);
    assert map[p := gate][p := Fresh(gate, ALLOW_TTL)] == map[p := map[d := 1]];
    assert Trimmed(s1, p) == t && EnvStep(s, Tick(ALLOW_TTL - 1)) == s1;
    Before(s1, Poll(TrimKeep(p)), t, after);
    Before(s, Env(Tick(ALLOW_TTL - 1)), s1, [Poll(TrimKeep(p))] + after);
  }

  /** A call without an allowance bounces off the gate although its plugin is live. */
  lemma FirstBounces(c: Call, d: Call, after: seq<Event>)
    requires c != d && c.plugin == d.plugin
    requires IsRun(Line(c, d, ALLOW_TTL, {c.plugin}, map[d := 1], [d], Free, [c], []), after)
    ensures var (s, t) := (Line(c, d, ALLOW_TTL, {c.plugin}, map[d := 1], [c, d], Free, [], []),
                           Line(c, d, ALLOW_TTL, {c.plugin}, map[d := 1], [d], Free, [c], []));
      var events := [Route(Look)] + ([Route(Bounce)] + after);
      IsRun(s, events) && Run(s, events) == Run(t, after)
  {
    var p := c.plugin;
    var s := Line(c, d, ALLOW_TTL, {p}, map[d := 1], [c, d], Free, [], []);
    var s1 := Line(c, d, ALLOW_TTL, {p}, map[d := 1], [d], Looked(c, true), [], []);
    var t := Line(c, d, ALLOW_TTL, {p}, map[d := 1], [d], Free, [c], []);
    assert [c, d][1..] == [d];
    Before(s1, Route(Bounce), t, after);
    Before(s, Route(Look), s1, [Route(Bounce)] + after);
  }

  ghost predicate AllKeepRegistration(events: seq<Event>, p: PluginId) {
    forall e :: e in events ==> KeepsRegistration(e, p)
  }

  lemma TwoMore(a: Event, b: Event, events: seq<Event>, p: PluginId)
    requires AllKeepRegistration(events, p) && KeepsRegistration(a, p) && KeepsRegistration(b, p)
    ensures AllKeepRegistration([a] + ([b] + events), p)
  {
  }

  lemma ThreeMore(a: Event, b: Event, c: Event, events: seq<Event>, p: PluginId)
    requires AllKeepRegistration(events, p)
    requires KeepsRegistration(a, p) && KeepsRegistration(b, p) && KeepsRegistration(c, p)
    ensures AllKeepRegistration([a] + ([b] + ([c] + events)), p)
  {
  }

  /** With an allowance dropped the order fails, even if the plugin stays registered. */
  lemma DroppedAllowanceOvertakes(c: Call, d: Call) returns (b: State, after: seq<Event>)
    requires c != d && c.plugin == d.plugin
    ensures Reachable(b) && Enabled(b, Poll(Drain(c.plugin))) && b.slots[c.plugin].queue == [c, d]
    ensures c.plugin in b.reg.registered && b.hist.served == []
    ensures IsRun(Drained(b, c.plugin), after) && Run(Drained(b, c.plugin), after).hist.served == [d]
    ensures AllKeepRegistration(after, c.plugin)
  {
    b := BothReady(c, d);
    BothReadyReachable(c, d);
    SecondPasses(c, d, ALLOW_TTL, map[d := 1]);
    FirstBounces(c, d, Overtaking());
    var bounced := [Route(Look)] + ([Route(Bounce)] + Overtaking());
    FirstGoesStale(c, d, bounced);
    var stale := [Env(Tick(ALLOW_TTL - 1))] + ([Poll(TrimKeep(c.plugin))] + bounced);
    ReinjectedApart(c, d, stale);
    after := [Reinject] + ([Env(Tick(1))] + ([Reinject] + stale));
    TwoMore(Route(Look), Route(Serve), [], c.plugin);
    TwoMore(Route(Look), Route(Bounce), Overtaking(), c.plugin);
    TwoMore(Env(Tick(ALLOW_TTL - 1)), Poll(TrimKeep(c.plugin)), bounced, c.plugin);
    ThreeMore(Reinject, Env(Tick(1)), Reinject, stale, c.plugin);
  }

  // --- a call between gate and table ---

  /** `c.plugin` has been idle long enough and the sweep has decided to stop it. */
  function SweepDecided(c: Call): State {
    Start(c.plugin).(now := IDLE, sweeping := Decided(c.plugin),
                     reg := Registry(map[c.plugin := IDLE], {c.plugin}, map[], map[c.plugin := 0], {}))
  }

  lemma SweepDecidedReachable(c: Call)
    ensures PromptReachable(SweepDecided(c))
  {
    var p := c.plugin;
    StartReachable(p);
    var s1 := Start(p).(reg := Start(p).reg.(registered := {p}));
    ByEnv(Start(p), Register(p), s1);
    var s2 := s1.(reg := SweepDecided(c).reg);
    BySweep(s1, StartClock(p), s2);
    var s3 := s2.(now := IDLE);
    ByEnv(s2, Tick(IDLE), s3);
    BySweep(s3, Decide(p), SweepDecided(c));
  }

  /** A call may pass before the sweep takes the gate, and become pending while its plugin is being
      stopped. */
  lemma PassedBeforeTheGate(c: Call) returns (s: State)
    ensures StopBegins(s, c.plugin) && Passing(s, c.plugin) && !HasPending(s.reg, c.plugin)
    ensures !StaysQuiet(IdleStopped(s, c.plugin), c.plugin)
  {
    SweepDecidedReachable(c);
    var s1 := EnvStep(SweepDecided(c), Arrive(c));
    ByEnv(SweepDecided(c), Arrive(c), s1);
    var s2 := LookedUp(s1);
    ByRoute(s1, Look, s2);
    s := Served(s2);
    ByRoute(s2, Serve, s);
    IdleStopSafeIff(s, c.plugin);
  }

  // --- an allowed call still in the channel ---

  /** The start task has reported and the plugin is registered: its slot is ready. */
  function Started(c: Call): State {
    Opened(c).(reg := Opened(c).reg.(registered := {c.plugin}),
               slots := map[c.plugin := Waking([c], 0, false, false, false)],
               tasks := Tasks(multiset{}, multiset{}, [], []))
  }

  lemma StartedReachable(c: Call)
    ensures PromptReachable(Started(c))
  {
    var p := c.plugin;
    OpenedReachable(c);
    var s1 := Opened(c).(tasks := Tasks(multiset{}, multiset{}, [(p, true)], []));
    assert multiset{p} - multiset{p} == multiset{};
    ByEnv(Opened(c), StartReturns(p, true), s1);
    var s2 := Started(c).(reg := Opened(c).reg);
    ByReport(s1, StartOk, s2);
    ByEnv(s2, Register(p), Started(c));
  }

  /** The call has been re-injected and the router has not taken it yet. */
  function BackInChannel(c: Call, now: nat, sweeping: Sweeping): State {
    GoneAgain(c, {c.plugin}).(now := now, sweeping := sweeping, tasks := Tasks(multiset{}, multiset{}, [], []))
  }

  lemma BackInChannelReachable(c: Call)
    ensures PromptReachable(BackInChannel(c, 0, NoSweep))
  {
    var p := c.plugin;
    var s := Started(c);
    StartedReachable(c);
    var s1 := s.(poll := Polling({p}, {}));
    assert PollStarted(s).poll.ready == {p} && PollStarted(s).poll.expired == {};
    ByPoll(s, Begin, s1);
    var s2 := DrainedEarly(c).(tasks := s.tasks);
    assert s1.slots - {p} == map[] && {p} - {p} == {};
    ByPoll(s1, Drain(p), s2);
    var s3 := BackInChannel(c, 0, NoSweep).(poll := Polling({}, {}));
    ReinjectedEarly(c);
    ByReinject(s2, s3);
    ByPoll(s3, End, BackInChannel(c, 0, NoSweep));
  }

  /** A re-injected call may stay in the channel until its plugin counts as idle; its allowance takes
      it through the gate while the plugin is being stopped. */
  lemma AllowedAcrossTheStop(c: Call) returns (s: State)
    ensures StopBegins(s, c.plugin) && !Passing(s, c.plugin) && !HasPending(s.reg, c.plugin)
    ensures s.inbox == [c] && Slipping(s, c.plugin, c) && s.now - s.reg.gates[c.plugin][c] < ALLOW_TTL
    ensures !StaysQuiet(IdleStopped(s, c.plugin), c.plugin)
  {
    BackInChannelReachable(c);
    ByEnv(BackInChannel(c, 0, NoSweep), Tick(IDLE), BackInChannel(c, IDLE, NoSweep));
    s := BackInChannel(c, IDLE, Decided(c.plugin));
    BySweep(BackInChannel(c, IDLE, NoSweep), Decide(c.plugin), s);
    assert Slipping(s, c.plugin, c);
    IdleStopSafeIff(s, c.plugin);
  }
}
