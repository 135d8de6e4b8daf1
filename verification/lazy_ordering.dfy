/** Calls queued while a plugin wakes reach it in arrival order, and no call the router
    first saw while their gate was held overtakes them. */
module LazyOrdering {
  import opened LazyWake
  import opened LazyConservation

  /** What is watched: the calls to `plugin` that are `held` in its slot when it drains, or
      that the router had not `seen` when the gate was taken. */
  datatype Watch = Watch(plugin: PluginId, held: seq<Call>, seen: set<Call>)

  predicate Relevant(c: Call, w: Watch) {
    c.plugin == w.plugin && (c in w.held || c !in w.seen)
  }

  /** The watched calls of `cs`, in order. */
  function Pick(cs: seq<Call>, w: Watch): seq<Call> {
    if cs == [] then []
    else (if Relevant(cs[0], w) then [cs[0]] else []) + Pick(cs[1..], w)
  }

  /** The watched calls of `cs` that the gate lets through. */
  function PickAllowed(cs: seq<Call>, w: Watch, gate: set<Call>): seq<Call> {
    if cs == [] then []
    else (if Relevant(cs[0], w) && cs[0] in gate then [cs[0]] else []) + PickAllowed(cs[1..], w, gate)
  }

  lemma {:induction false} PickAppend(a: seq<Call>, b: seq<Call>, w: Watch)
    ensures Pick(a + b, w) == Pick(a, w) + Pick(b, w)
    decreases |a|
  {
    if a == [] {
      assert a + b == b;
    } else {
      assert (a + b)[1..] == a[1..] + b;
      PickAppend(a[1..], b, w);
    }
  }

  lemma {:induction false} PickAllowedAppend(a: seq<Call>, b: seq<Call>, w: Watch, gate: set<Call>)
    ensures PickAllowed(a + b, w, gate) == PickAllowed(a, w, gate) + PickAllowed(b, w, gate)
    decreases |a|
  {
    if a == [] {
      assert a + b == b;
    } else {
      assert (a + b)[1..] == a[1..] + b;
      PickAllowedAppend(a[1..], b, w, gate);
    }
  }

  lemma {:induction false} PickNone(cs: seq<Call>, w: Watch)
    requires forall c :: c in cs ==> !Relevant(c, w)
    ensures Pick(cs, w) == []
    decreases |cs|
  {
    if cs != [] { PickNone(cs[1..], w); }
  }

  lemma {:induction false} PickAll(cs: seq<Call>, w: Watch)
    requires forall c :: c in cs ==> Relevant(c, w)
    ensures Pick(cs, w) == cs
    decreases |cs|
  {
    if cs != [] { PickAll(cs[1..], w); }
  }

  lemma {:induction false} PickAllowedNone(cs: seq<Call>, w: Watch, gate: set<Call>)
    requires forall c :: c in cs && c in gate ==> !Relevant(c, w)
    ensures PickAllowed(cs, w, gate) == []
    decreases |cs|
  {
    if cs != [] { PickAllowedNone(cs[1..], w, gate); }
  }

  /** Gates that agree on the watched calls of `cs` pick the same calls. */
  lemma {:induction false} PickAllowedSame(cs: seq<Call>, w: Watch, g: set<Call>, h: set<Call>)
    requires forall c :: c in cs && Relevant(c, w) ==> (c in g <==> c in h)
    ensures PickAllowed(cs, w, g) == PickAllowed(cs, w, h)
    decreases |cs|
  {
    if cs != [] { PickAllowedSame(cs[1..], w, g, h); }
  }

  // --- while the slot waits ---

  /** `p` has a slot that has not timed out. */
  predicate SlotOpen(s: State, p: PluginId) {
    p in s.slots && !s.slots[p].wantStop
  }

  /** The slot of `p` stays open throughout the run. */
  predicate OpenRun(s: State, events: seq<Event>, p: PluginId)
    requires IsRun(s, events)
    decreases |events|
  {
    SlotOpen(s, p) && (events == [] || OpenRun(Step(s, events[0]), events[1..], p))
  }

  function AllowedCalls(s: State, p: PluginId): set<Call> {
    if p in s.reg.gates then s.reg.gates[p].Keys else {}
  }

  /** Since the gate was taken no call unseen then was allowed or has taken the live path. */
  ghost predicate Waiting(s: State, p: PluginId, seen: set<Call>, base: nat) {
    && AllowedCalls(s, p) <= seen
    && base <= |s.hist.served|
    && forall i :: base <= i < |s.hist.served| && s.hist.served[i].plugin == p ==> s.hist.served[i] in seen
  }

  /** Nothing was served and nothing newly allowed for `p`. */
  lemma StillWaiting(s: State, t: State, p: PluginId, seen: set<Call>, base: nat)
    requires Waiting(s, p, seen, base) && t.hist.served == s.hist.served && AllowedCalls(t, p) <= AllowedCalls(s, p)
    ensures Waiting(t, p, seen, base)
  {
  }

  lemma RouteWaiting(s: State, e: RouteEvent, p: PluginId, seen: set<Call>, base: nat)
    requires RouteEnabled(s, e) && p in s.reg.gates && Waiting(s, p, seen, base)
    ensures Waiting(RouteStep(s, e), p, seen, base)
  {
  }

  lemma EnvWaiting(s: State, e: EnvEvent, p: PluginId, seen: set<Call>, base: nat)
    requires EnvEnabled(s, e) && Waiting(s, p, seen, base)
    ensures Waiting(EnvStep(s, e), p, seen, base)
  {
    StillWaiting(s, EnvStep(s, e), p, seen, base);
  }

  lemma WakeWaiting(s: State, e: WakeEvent, p: PluginId, seen: set<Call>, base: nat)
    requires WakeEnabled(s, e) && Waiting(s, p, seen, base)
    ensures Waiting(WakeStep(s, e), p, seen, base)
  {
    StillWaiting(s, WakeStep(s, e), p, seen, base);
  }

  lemma ReportWaiting(s: State, e: ReportEvent, p: PluginId, seen: set<Call>, base: nat)
    requires ReportEnabled(s, e) && Waiting(s, p, seen, base)
    ensures Waiting(ReportStep(s, e), p, seen, base)
  {
    StillWaiting(s, ReportStep(s, e), p, seen, base);
  }

  lemma PollWaiting(s: State, e: PollEvent, p: PluginId, seen: set<Call>, base: nat)
    requires PollEnabled(s, e) && Waiting(s, p, seen, base)
    ensures Waiting(PollStep(s, e), p, seen, base)
  {
    StillWaiting(s, PollStep(s, e), p, seen, base);
  }

  lemma SweepWaiting(s: State, e: SweepEvent, p: PluginId, seen: set<Call>, base: nat)
    requires SweepEnabled(s, e) && Waiting(s, p, seen, base)
    ensures Waiting(SweepStep(s, e), p, seen, base)
  {
    StillWaiting(s, SweepStep(s, e), p, seen, base);
  }

  lemma ReinjectWaiting(s: State, p: PluginId, seen: set<Call>, base: nat)
    requires s.draining != [] && DrainingAlone(s) && p in s.slots && Waiting(s, p, seen, base)
    ensures Waiting(Reinjected(s), p, seen, base)
  {
    assert s.draining[0] in s.draining;
    StillWaiting(s, Reinjected(s), p, seen, base);
  }

  lemma WaitingStep(s: State, e: Event, p: PluginId, seen: set<Call>, base: nat)
    requires Enabled(s, e) && Inv(s) && SlotOpen(s, p) && Waiting(s, p, seen, base)
    ensures Waiting(Step(s, e), p, seen, base)
  {
    match e {
      case Env(x) => EnvWaiting(s, x, p, seen, base);
      case Route(x) => RouteWaiting(s, x, p, seen, base);
      case Wake(x) => WakeWaiting(s, x, p, seen, base);
      case Report(x) => ReportWaiting(s, x, p, seen, base);
      case Poll(x) => PollWaiting(s, x, p, seen, base);
      case Sweep(x) => SweepWaiting(s, x, p, seen, base);
      case Reinject => ReinjectWaiting(s, p, seen, base);
    }
  }

  lemma {:induction false} WaitingRun(s: State, events: seq<Event>, p: PluginId, seen: set<Call>, base: nat)
    requires Inv(s) && IsRun(s, events) && OpenRun(s, events, p) && Waiting(s, p, seen, base)
    ensures Waiting(Run(s, events), p, seen, base)
    decreases |events|
  {
    if events != [] {
      WaitingStep(s, events[0], p, seen, base);
      InvStep(s, events[0]);
      WaitingRun(Step(s, events[0]), events[1..], p, seen, base);
    }
  }

  // --- after the drain ---

  predicate KeepsRegistration(e: Event, p: PluginId) {
    e != Env(Unregister(p))
  }

  /** No allowance of `p` goes unused: only the router takes one away. */
  predicate KeepsAllowances(s: State, e: Event, p: PluginId)
    requires Enabled(s, e)
  {
    e.Route? || AllowedCalls(s, p) <= AllowedCalls(Step(s, e), p)
  }

  /** `p` keeps its registration and none of its allowances is dropped. */
  predicate Undisturbed(s: State, e: Event, p: PluginId)
    requires Enabled(s, e)
  {
    KeepsRegistration(e, p) && KeepsAllowances(s, e, p)
  }

  predicate UndisturbedRun(s: State, events: seq<Event>, p: PluginId)
    requires IsRun(s, events)
    decreases |events|
  {
    events == [] || (Undisturbed(s, events[0], p) && UndisturbedRun(Step(s, events[0]), events[1..], p))
  }

  /** The call in the router's hands, if it is watched and will take the live path. */
  function HandAllowed(s: State, w: Watch): seq<Call> {
    if s.routing.Looked? && s.routing.live && Relevant(s.routing.call, w)
       && s.routing.call in AllowedCalls(s, w.plugin) then [s.routing.call] else []
  }

  /** The watched calls on their way to the live path: in the router's hands or allowed in its
      channel, or about to be sent there. */
  function Coming(s: State, w: Watch): seq<Call> {
    HandAllowed(s, w) + PickAllowed(s.inbox, w, AllowedCalls(s, w.plugin)) + Pick(s.draining, w)
  }

  /** The watched calls that took the live path are a prefix of the held ones and the rest of
      those come next, or all held ones went first. */
  ghost predicate InOrder(s: State, w: Watch, base: nat) {
    && base <= |s.hist.served|
    && var done := Pick(s.hist.served[base..], w);
       || w.held <= done
       || (&& done <= w.held
           && w.plugin in s.reg.registered && w.plugin in s.reg.gates
           && w.held[|done|..] <= Coming(s, w))
  }

  /** All held calls have taken the live path. */
  ghost predicate AllDone(s: State, w: Watch, base: nat)
    requires base <= |s.hist.served|
  {
    w.held <= Pick(s.hist.served[base..], w)
  }

  /** A step that serves nothing and only adds to what is coming keeps the order. */
  lemma Extends(s: State, t: State, w: Watch, base: nat)
    requires InOrder(s, w, base) && t.hist.served == s.hist.served
    requires !AllDone(s, w, base) ==>
      w.plugin in t.reg.registered && w.plugin in t.reg.gates && Coming(s, w) <= Coming(t, w)
    ensures InOrder(t, w, base)
  {
  }

  lemma NothingComing(s: State, w: Watch, base: nat)
    requires InOrder(s, w, base) && Coming(s, w) == []
    ensures AllDone(s, w, base)
  {
  }

  /** Without an allowance and with nothing to re-inject nothing is coming. */
  lemma NoneAllowed(s: State, w: Watch)
    requires AllowedCalls(s, w.plugin) == {} && s.draining == []
    ensures Coming(s, w) == []
  {
    PickAllowedNone(s.inbox, w, {});
  }

  lemma AloneInHand(s: State)
    requires s.routing.Looked? && Inv(s)
    ensures s.routing.call !in s.inbox && s.routing.call !in s.draining
  {
    var c := s.routing.call;
    assert Places(s, c) <= 1;
    assert multiset(s.inbox)[c] == 0 && multiset(s.draining)[c] == 0;
  }

  /** Serving a call takes it, if watched, from the front of what is coming. */
  lemma ServeComing(s: State, w: Watch)
    requires RouteEnabled(s, Serve) && s.routing.call !in s.inbox && w.plugin in s.reg.gates
    ensures Coming(s, w) == (if Relevant(s.routing.call, w) then [s.routing.call] else []) + Coming(Served(s), w)
  {
    PickAllowedSame(s.inbox, w, AllowedCalls(s, w.plugin), AllowedCalls(Served(s), w.plugin));
  }

  lemma ServeInOrder(s: State, w: Watch, base: nat)
    requires RouteEnabled(s, Serve) && Inv(s) && InOrder(s, w, base)
    ensures InOrder(Served(s), w, base)
  {
    var c := s.routing.call;
    var t := Served(s);
    var done := Pick(s.hist.served[base..], w);
    assert t.hist.served[base..] == s.hist.served[base..] + [c];
    PickAppend(s.hist.served[base..], [c], w);
    var next := if Relevant(c, w) then [c] else [];
    assert Pick([c], w) == next;
    if !(w.held <= done) {
      AloneInHand(s);
      ServeComing(s, w);
      FrontMoves(w.held, done, next, Coming(t, w));
    }
  }

  /** A queue whose rest is next in line stays in order when the front of the line is taken. */
  lemma FrontMoves(held: seq<Call>, done: seq<Call>, next: seq<Call>, rest: seq<Call>)
    requires done <= held && held[|done|..] <= next + rest && |next| <= 1
    ensures held <= done + next || (done + next <= held && held[|done + next|..] <= rest)
  {
    if |done| < |held| && |next| == 1 {
      assert held[|done|..][0] == (next + rest)[0];
      assert held[|done + next|..] == held[|done|..][1..];
      assert (next + rest)[1..] == rest;
    } else if |done| < |held| {
      assert next + rest == rest && done + next == done;
    }
  }

  /** The lookup moves the head of the channel into the router's hands. */
  lemma LookComing(s: State, w: Watch)
    requires RouteEnabled(s, Look) && w.plugin in s.reg.registered
    ensures Coming(LookedUp(s), w) == Coming(s, w)
  {
    var t, gate := LookedUp(s), AllowedCalls(s, w.plugin);
    var rest := PickAllowed(s.inbox[1..], w, gate);
    assert HandAllowed(s, w) == [] && PickAllowed(s.inbox, w, gate) == HandAllowed(t, w) + rest;
    calc {
      Coming(s, w);
      [] + (HandAllowed(t, w) + rest) + Pick(s.draining, w);
      HandAllowed(t, w) + rest + Pick(s.draining, w);
      Coming(t, w);
    }
  }

  lemma SkipInOrder(s: State, e: RouteEvent, w: Watch, base: nat)
    requires RouteEnabled(s, e) && !e.Serve? && InOrder(s, w, base)
    ensures InOrder(RouteStep(s, e), w, base)
  {
    if e.Look? && !AllDone(s, w, base) { LookComing(s, w); }
    Extends(s, RouteStep(s, e), w, base);
  }

  lemma AloneInDraining(s: State)
    requires s.draining != [] && Inv(s)
    ensures s.draining[0] !in s.inbox
  {
    var c := s.draining[0];
    assert c in s.draining && multiset(s.draining)[c] >= 1;
    assert Places(s, c) <= 1;
    assert multiset(s.inbox)[c] == 0;
  }

  /** The re-injected frame is allowed and last in the router's channel. */
  lemma ReinjectInbox(s: State, w: Watch)
    requires s.draining != [] && s.draining[0] !in s.inbox && w.plugin in s.reg.gates
    ensures var (c, t) := (s.draining[0], Reinjected(s));
      PickAllowed(t.inbox, w, AllowedCalls(t, w.plugin)) ==
      PickAllowed(s.inbox, w, AllowedCalls(s, w.plugin)) + if Relevant(c, w) then [c] else []
  {
    var c := s.draining[0];
    var h := AllowedCalls(Reinjected(s), w.plugin);
    PickAllowedAppend(s.inbox, [c], w, h);
    PickAllowedSame(s.inbox, w, AllowedCalls(s, w.plugin), h);
    assert Relevant(c, w) ==> c in h;
    assert PickAllowed([c], w, h) == if Relevant(c, w) then [c] else [];
  }

  lemma ReinjectHand(s: State, w: Watch)
    requires s.draining != [] && (s.routing.Looked? ==> s.routing.call != s.draining[0])
    ensures HandAllowed(Reinjected(s), w) == HandAllowed(s, w)
  {
  }

  /** Re-injection moves a watched call along the line without changing it. */
  lemma ReinjectComing(s: State, w: Watch)
    requires s.draining != [] && s.draining[0] !in s.inbox && w.plugin in s.reg.gates
    requires s.routing.Looked? ==> s.routing.call != s.draining[0]
    ensures Coming(Reinjected(s), w) == Coming(s, w)
  {
    ReinjectInbox(s, w);
    ReinjectHand(s, w);
    Regroup(HandAllowed(s, w), PickAllowed(s.inbox, w, AllowedCalls(s, w.plugin)),
            if Relevant(s.draining[0], w) then [s.draining[0]] else [], Pick(s.draining[1..], w));
  }

  lemma Regroup(a: seq<Call>, b: seq<Call>, c: seq<Call>, d: seq<Call>)
    ensures a + (b + c) + d == a + b + (c + d)
  {
  }

  lemma ReinjectInOrder(s: State, w: Watch, base: nat)
    requires s.draining != [] && Inv(s) && InOrder(s, w, base)
    ensures InOrder(Reinjected(s), w, base)
  {
    if !AllDone(s, w, base) {
      AloneInDraining(s);
      if s.routing.Looked? { AloneInHand(s); }
      ReinjectComing(s, w);
    }
    Extends(s, Reinjected(s), w, base);
  }

  /** A new call is not allowed, so it changes nothing in line. */
  lemma ArriveComing(s: State, c: Call, w: Watch)
    requires EnvEnabled(s, Arrive(c)) && c !in AllowedCalls(s, w.plugin)
    ensures Coming(EnvStep(s, Arrive(c)), w) == Coming(s, w)
  {
    PickAllowedAppend(s.inbox, [c], w, AllowedCalls(s, w.plugin));
    assert PickAllowed([c], w, AllowedCalls(s, w.plugin)) == [];
  }

  lemma EnvInOrder(s: State, e: EnvEvent, w: Watch, base: nat)
    requires EnvEnabled(s, e) && e != Unregister(w.plugin) && InOrder(s, w, base)
    requires e.Arrive? ==> e.call !in AllowedCalls(s, w.plugin)
    ensures InOrder(EnvStep(s, e), w, base)
  {
    if e.Arrive? { ArriveComing(s, e.call, w); }
    Extends(s, EnvStep(s, e), w, base);
  }

  lemma NewNotAllowed(s: State, c: Call, p: PluginId)
    requires Inv(s) && c !in s.hist.arrived
    ensures c !in AllowedCalls(s, p)
  {
  }

  lemma WakeInOrder(s: State, e: WakeEvent, w: Watch, base: nat)
    requires WakeEnabled(s, e) && InOrder(s, w, base)
    ensures InOrder(WakeStep(s, e), w, base)
  {
    Extends(s, WakeStep(s, e), w, base);
  }

  /** A step of the idle waker that drops no allowance: if it lets the gate go, nothing was coming. */
  lemma GateInOrder(s: State, t: State, w: Watch, base: nat)
    requires InOrder(s, w, base) && s.draining == [] && t.hist.served == s.hist.served
    requires t.inbox == s.inbox && t.routing == s.routing && t.reg.registered == s.reg.registered
    requires AllowedCalls(t, w.plugin) == AllowedCalls(s, w.plugin)
    requires w.plugin in s.reg.gates && w.plugin !in t.reg.gates ==> AllowedCalls(s, w.plugin) == {}
    ensures InOrder(t, w, base)
  {
    if AllowedCalls(s, w.plugin) == {} {
      NoneAllowed(s, w);
      NothingComing(s, w, base);
    }
    Extends(s, t, w, base);
  }

  lemma ReportInOrder(s: State, e: ReportEvent, w: Watch, base: nat)
    requires ReportEnabled(s, e) && KeepsAllowances(s, Report(e), w.plugin) && InOrder(s, w, base)
    ensures InOrder(ReportStep(s, e), w, base)
  {
    GateInOrder(s, ReportStep(s, e), w, base);
  }

  lemma PollInOrder(s: State, e: PollEvent, w: Watch, base: nat)
    requires PollEnabled(s, e) && KeepsAllowances(s, Poll(e), w.plugin) && InOrder(s, w, base)
    ensures InOrder(PollStep(s, e), w, base)
  {
    GateInOrder(s, PollStep(s, e), w, base);
  }

  lemma SweepInOrder(s: State, e: SweepEvent, w: Watch, base: nat)
    requires SweepEnabled(s, e) && InOrder(s, w, base)
    ensures InOrder(SweepStep(s, e), w, base)
  {
    Extends(s, SweepStep(s, e), w, base);
  }

  lemma {:induction false} InOrderRun(s: State, events: seq<Event>, w: Watch, base: nat)
    requires Inv(s) && InOrder(s, w, base) && IsRun(s, events) && UndisturbedRun(s, events, w.plugin)
    ensures InOrder(Run(s, events), w, base)
    decreases |events|
  {
    if events != [] {
      var e := events[0];
      match e {
        case Env(x) =>
          if x.Arrive? { NewNotAllowed(s, x.call, w.plugin); }
          EnvInOrder(s, x, w, base);
        case Route(x) =>
          if x.Serve? { ServeInOrder(s, w, base); } else { SkipInOrder(s, x, w, base); }
        case Wake(x) => WakeInOrder(s, x, w, base);
        case Report(x) => ReportInOrder(s, x, w, base);
        case Poll(x) => PollInOrder(s, x, w, base);
        case Sweep(x) => SweepInOrder(s, x, w, base);
        case Reinject => ReinjectInOrder(s, w, base);
      }
      InvStep(s, e);
      InOrderRun(Step(s, e), events[1..], w, base);
    }
  }

  /** A call held in a slot is nowhere else. */
  lemma HeldNowhereElse(s: State, p: PluginId, c: Call)
    requires Inv(s) && p in s.slots && c in s.slots[p].queue
    ensures c !in s.inbox && c !in s.hist.served && InHand(s, c) == 0
  {
    assert multiset(s.slots[p].queue)[c] >= 1 && Places(s, c) <= 1;
    assert multiset(s.inbox)[c] == 0 && multiset(s.hist.served)[c] == 0;
  }

  /** What is relevant and allowed is in the slot, so only the drained queue is coming. */
  lemma DrainComing(s: State, p: PluginId, w: Watch)
    requires PollEnabled(s, Drain(p)) && w.plugin == p && w.held == s.slots[p].queue && AllowedCalls(s, p) <= w.seen
    requires forall c :: c in w.held ==> c.plugin == p && c !in s.inbox && InHand(s, c) == 0
    ensures Coming(Drained(s, p), w) == w.held
  {
    var t := Drained(s, p);
    PickAll(w.held, w);
    PickAllowedNone(s.inbox, w, AllowedCalls(t, p));
    assert HandAllowed(t, w) == [];
  }

  /** Draining a registered plugin's slot puts the held calls next in line. */
  lemma DrainInOrder(s: State, p: PluginId, seen: set<Call>, base: nat)
    requires PollEnabled(s, Drain(p)) && Inv(s) && p in s.reg.registered && p in s.reg.gates
    requires Waiting(s, p, seen, base)
    ensures InOrder(Drained(s, p), Watch(p, s.slots[p].queue, seen), base)
  {
    var held := s.slots[p].queue;
    var w := Watch(p, held, seen);
    forall c | c in held ensures c.plugin == p && c !in s.inbox && c !in s.hist.served && InHand(s, c) == 0 {
      HeldNowhereElse(s, p, c);
    }
    forall c | c in s.hist.served[base..] ensures !Relevant(c, w) {
      assert c in s.hist.served;
    }
    PickNone(s.hist.served[base..], w);
    DrainComing(s, p, w);
    assert held[0..] == held;
  }

  lemma WaitsUntilDrain(a: State, waiting: seq<Event>, p: PluginId)
    requires Reachable(a) && IsRun(a, waiting) && OpenRun(a, waiting, p)
    ensures Inv(Run(a, waiting)) && Waiting(Run(a, waiting), p, a.hist.seen, |a.hist.served|)
  {
    ReachableInv(a);
    WaitingRun(a, waiting, p, a.hist.seen, |a.hist.served|);
    InvRun(a, waiting);
  }

  lemma OrderAfterDrain(b: State, p: PluginId, seen: set<Call>, base: nat, after: seq<Event>)
    requires Inv(b) && Waiting(b, p, seen, base)
    requires Enabled(b, Poll(Drain(p))) && p in b.reg.registered
    requires IsRun(Drained(b, p), after) && UndisturbedRun(Drained(b, p), after, p)
    ensures InOrder(Run(Drained(b, p), after), Watch(p, b.slots[p].queue, seen), base)
  {
    var w := Watch(p, b.slots[p].queue, seen);
    DrainInOrder(b, p, seen, base);
    InvStep(b, Poll(Drain(p)));
    InOrderRun(Drained(b, p), after, w, base);
  }

  /** For every wake that does not time out: take any moment in `waiting` at which the slot's
      gate is held, up to the drain of the slot of the registered plugin. However the system runs
      on while the plugin stays registered and no allowance of it is dropped, the calls held in the
      slot take the live path in arrival order, and no call the router first saw after that moment
      takes it before them. */
  lemma WakeOrdering(a: State, waiting: seq<Event>, b: State, p: PluginId, after: seq<Event>, d: State)
    requires Reachable(a) && IsRun(a, waiting) && OpenRun(a, waiting, p) && b == Run(a, waiting)
    requires Enabled(b, Poll(Drain(p))) && p in b.reg.registered
    requires IsRun(Drained(b, p), after) && UndisturbedRun(Drained(b, p), after, p)
    requires d == Run(Drained(b, p), after)
    ensures |a.hist.served| <= |d.hist.served|
    ensures var held := b.slots[p].queue;
      var live := Pick(d.hist.served[|a.hist.served|..], Watch(p, held, a.hist.seen));
      live <= held || held <= live
  {
    WaitsUntilDrain(a, waiting, p);
    OrderAfterDrain(b, p, a.hist.seen, |a.hist.served|, after);
  }
}
