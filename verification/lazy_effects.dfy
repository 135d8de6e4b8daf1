/** What one poll and one sweep do to each plugin, said of the slots, gates and clocks alone. */
module LazyEffects {
  import opened Collections
  import opened LazyWake
  import opened LazyConservation

  // --- gates ---

  ghost predicate SameGate(a: Registry, b: Registry, p: PluginId) {
    (p in a.gates <==> p in b.gates) && (p in a.gates ==> a.gates[p] == b.gates[p])
  }

  /** Only gates have changed. */
  ghost predicate OnlyGates(a: Registry, b: Registry) {
    b == a.(gates := b.gates)
  }

  /** The allowances younger than five seconds. */
  function Young(allowances: Allowances, now: nat): Allowances {
    map c | c in allowances && now - allowances[c] < 5000 :: allowances[c]
  }

  /** The gate of `p` has lost exactly its allowances of five seconds or more, and is gone if none
      is left. */
  ghost predicate TrimmedGate(a: Registry, b: Registry, p: PluginId, now: nat) {
    && (p in b.gates <==> p in a.gates && Young(a.gates[p], now) != map[])
    && (p in b.gates ==> b.gates[p] == Young(a.gates[p], now))
  }

  // --- re-injection ---

  /** All that is being re-injected has been sent. */
  function ReinjectedAll(t: State): State
    decreases |t.draining|
  {
    if t.draining == [] then t else ReinjectedAll(Reinjected(t))
  }

  ghost predicate OwnCalls(queue: seq<Call>, p: PluginId) {
    forall c :: c in queue ==> c.plugin == p
  }

  /** A frame that has been sent on and, if its plugin has a gate, is allowed there since `now`. */
  ghost predicate Allowed(reg: Registry, c: Call, now: nat) {
    c.plugin in reg.gates ==> c in reg.gates[c.plugin] && reg.gates[c.plugin][c] == now
  }

  /** From `t` to `u` these frames were allowed and sent, and nothing else changed. */
  ghost predicate SentOn(t: State, u: State, queue: seq<Call>) {
    && u == t.(reg := u.reg, inbox := t.inbox + queue, draining := [], hist := u.hist)
    && u.hist == t.hist.(reinjected := u.hist.reinjected)
    && OnlyGates(t.reg, u.reg) && u.reg.gates.Keys == t.reg.gates.Keys
    && (forall c :: c in queue ==> Allowed(u.reg, c, t.now))
    && (forall c :: Allowed(t.reg, c, t.now) ==> Allowed(u.reg, c, t.now))
    && forall p, q :: OwnCalls(queue, p) && q != p ==> SameGate(t.reg, u.reg, q)
  }

  lemma AllowKeeps(reg: Registry, c: Call, now: nat)
    ensures OnlyGates(reg, Allow(reg, c, now)) && Allow(reg, c, now).gates.Keys == reg.gates.Keys
    ensures Allowed(Allow(reg, c, now), c, now)
    ensures forall d :: Allowed(reg, d, now) ==> Allowed(Allow(reg, c, now), d, now)
    ensures forall q :: q != c.plugin ==> SameGate(reg, Allow(reg, c, now), q)
  {
  }

  lemma SentFirst(t: State, u: State)
    requires t.draining != [] && SentOn(Reinjected(t), u, t.draining[1..])
    ensures SentOn(t, u, t.draining)
  {
    var (c, rest, m) := (t.draining[0], t.draining[1..], Reinjected(t));
    AllowKeeps(t.reg, c, t.now);
    assert t.draining == [c] + rest;
    assert t.inbox + [c] + rest == t.inbox + t.draining;
    assert forall d :: d in t.draining ==> d == c || d in rest;
    forall p, q | OwnCalls(t.draining, p) && q != p ensures SameGate(t.reg, u.reg, q) {
      assert c in t.draining && OwnCalls(rest, p);
      assert SameGate(t.reg, m.reg, q) && SameGate(m.reg, u.reg, q);
    }
  }

  lemma {:induction false} ReinjectsAll(t: State)
    ensures SentOn(t, ReinjectedAll(t), t.draining)
    decreases |t.draining|
  {
    if t.draining == [] {
      assert t.inbox + t.draining == t.inbox;
    } else {
      ReinjectsAll(Reinjected(t));
      SentFirst(t, ReinjectedAll(t));
    }
  }

  // --- the poll ---

  ghost predicate Watched(w: Waking) {
    !w.stopping && !w.wantStop
  }

  /** The slot has lost its calls and waits to be stopped: at once, or once its start has reported. */
  ghost predicate TimedOut(before: Waking, after: Waking) {
    after == Waking([], before.since, before.starting, true, !before.starting)
  }

  /** From `s` to `t` exactly the slots in `done` were drained. */
  ghost predicate DrainedSlots(s: State, t: State, done: set<PluginId>) {
    && t.now == s.now && t.slots == s.slots - done && OnlyGates(s.reg, t.reg)
    && t.reg.gates.Keys == s.reg.gates.Keys
    && (OwnQueues(s) ==> forall q :: q !in done ==> SameGate(s.reg, t.reg, q))
    && SentBack(s, t, done)
  }

  /** The calls of the slots in `done` are back in the channel and allowed at their gates. */
  ghost predicate SentBack(s: State, t: State, done: set<PluginId>) {
    forall p, c :: p in done && p in s.slots && c in s.slots[p].queue ==> c in t.inbox && Allowed(t.reg, c, s.now)
  }

  lemma SendsBack(s: State, t: State, u: State, done: set<PluginId>, p: PluginId)
    requires SentBack(s, t, done) && p in s.slots && t.now == s.now
    requires SentOn(t.(draining := s.slots[p].queue), u, s.slots[p].queue)
    ensures SentBack(s, u, done + {p})
  {
  }

  lemma DrainsNext(s: State, t: State, done: set<PluginId>, p: PluginId)
    requires DrainedSlots(s, t, done) && t.poll.Polling? && p in t.slots
    ensures DrainedSlots(s, ReinjectedAll(Drained(t, p)), done + {p})
  {
    var m := Drained(t, p);
    var u := ReinjectedAll(m);
    ReinjectsAll(m);
    SendsBack(s, m.(draining := []), u, done, p);
    assert u.slots == s.slots - (done + {p});
    if OwnQueues(s) {
      assert OwnCalls(m.draining, p);
      forall q | q !in done + {p} ensures SameGate(s.reg, u.reg, q) {
        assert SameGate(s.reg, t.reg, q) && SameGate(m.reg, u.reg, q);
      }
    }
  }

  /** The slots in `ps` are drained in turn. */
  function DrainedAll(t: State, ps: seq<PluginId>): State {
    if ps == [] then t
    else
      var (u, p) := (DrainedAll(t, ps[..|ps| - 1]), ps[|ps| - 1]);
      if u.poll.Polling? && p in u.slots then ReinjectedAll(Drained(u, p)) else u
  }

  /** `ps` are slots the poll has found ready. */
  ghost predicate CanDrain(t: State, ps: seq<PluginId>) {
    && t.poll.Polling? && t.draining == [] && Distinct(ps)
    && forall p :: p in ps ==> p in t.slots && p in t.poll.ready
  }

  lemma {:induction false} DrainsAll(t: State, ps: seq<PluginId>)
    requires CanDrain(t, ps)
    ensures var u := DrainedAll(t, ps);
      && DrainedSlots(t, u, SetOf(ps)) && u.draining == []
      && u.poll == Polling(t.poll.ready - SetOf(ps), t.poll.expired)
  {
    if ps == [] {
      assert t.slots - {} == t.slots && t.poll.ready - {} == t.poll.ready;
    } else {
      var (front, p) := (ps[..|ps| - 1], ps[|ps| - 1]);
      var u := DrainedAll(t, front);
      DrainsAll(t, front);
      assert p !in SetOf(front) && SetOf(ps) == SetOf(front) + {p} by { assert ps == front + [p]; }
      DrainsNext(t, u, SetOf(front), p);
      ReinjectsAll(Drained(u, p));
    }
  }

  lemma DrainAt(t: State, ps: seq<PluginId>, i: nat)
    requires CanDrain(t, ps) && i < |ps|
    ensures var u := DrainedAll(t, ps[..i]);
      PollEnabled(u, Drain(ps[i])) && DrainedAll(t, ps[..i + 1]) == ReinjectedAll(Drained(u, ps[i]))
  {
    DrainsAll(t, ps[..i]);
    assert ps[..i + 1][..i] == ps[..i] && ps[i] !in SetOf(ps[..i]);
  }

  /** From `s` to `t` exactly the slots in `done` were timed out and their gates let go. */
  ghost predicate TimedOutSlots(s: State, t: State, done: set<PluginId>) {
    && t.now == s.now && t.inbox == s.inbox && t.slots.Keys == s.slots.Keys && OnlyGates(s.reg, t.reg)
    && (forall p :: p in done ==> p in t.slots && TimedOut(s.slots[p], t.slots[p]) && p !in t.reg.gates)
    && (forall p :: p in t.slots && p !in done ==> t.slots[p] == s.slots[p])
    && forall p :: p !in done ==> SameGate(s.reg, t.reg, p)
  }

  lemma TimesOutNext(s: State, t: State, done: set<PluginId>, p: PluginId)
    requires TimedOutSlots(s, t, done) && t.poll.Polling? && p in t.slots && p !in done && Watched(s.slots[p])
    ensures TimedOutSlots(s, Expired(t, p), done + {p})
  {
    var u := Expired(t, p);
    assert TimedOut(s.slots[p], u.slots[p]);
    forall q | q !in done + {p} ensures SameGate(s.reg, u.reg, q) {
      assert SameGate(s.reg, t.reg, q);
    }
  }

  /** The slots in `ps` are timed out in turn. */
  function TimedOutAll(t: State, ps: seq<PluginId>): State {
    if ps == [] then t
    else
      var (u, p) := (TimedOutAll(t, ps[..|ps| - 1]), ps[|ps| - 1]);
      if u.poll.Polling? && p in u.slots then Expired(u, p) else u
  }

  /** `ps` are the slots the poll has found expired, and the ready ones are drained. */
  ghost predicate CanTimeOut(t: State, ps: seq<PluginId>) {
    && t.poll.Polling? && t.poll.ready == {} && t.draining == [] && Distinct(ps)
    && forall p :: p in ps ==> p in t.slots && Watched(t.slots[p]) && p in t.poll.expired
  }

  lemma {:induction false} TimesOutAll(t: State, ps: seq<PluginId>)
    requires CanTimeOut(t, ps)
    ensures var u := TimedOutAll(t, ps);
      && TimedOutSlots(t, u, SetOf(ps)) && u.draining == [] && u.poll == Polling({}, t.poll.expired - SetOf(ps))
  {
    if ps == [] {
      assert t.poll.expired - {} == t.poll.expired;
    } else {
      var (front, p) := (ps[..|ps| - 1], ps[|ps| - 1]);
      TimesOutAll(t, front);
      assert p !in SetOf(front) && SetOf(ps) == SetOf(front) + {p} by { assert ps == front + [p]; }
      TimesOutNext(t, TimedOutAll(t, front), SetOf(front), p);
    }
  }

  lemma TimeOutAt(t: State, ps: seq<PluginId>, i: nat)
    requires CanTimeOut(t, ps) && i < |ps|
    ensures var u := TimedOutAll(t, ps[..i]);
      PollEnabled(u, Expire(ps[i])) && TimedOutAll(t, ps[..i + 1]) == Expired(u, ps[i])
  {
    TimesOutAll(t, ps[..i]);
    assert ps[..i + 1][..i] == ps[..i] && ps[i] !in SetOf(ps[..i]);
  }

  /** A gate is trimmed unless its plugin has a slot. */
  function TrimmedOne(t: State, p: PluginId): State {
    if p !in t.reg.gates || p in t.slots then t
    else if Fresh(t.reg.gates[p], t.now) == map[] then t.(reg := Release(t.reg, p))
    else Trimmed(t, p)
  }

  /** The gates in `ps` are trimmed in turn. */
  function TrimmedAll(t: State, ps: seq<PluginId>): State {
    if ps == [] then t else TrimmedOne(TrimmedAll(t, ps[..|ps| - 1]), ps[|ps| - 1])
  }

  /** From `a` to `b` exactly the gates in `ps` of plugins without a slot were trimmed. */
  ghost predicate TrimmedGates(a: Registry, b: Registry, ps: seq<PluginId>, slots: set<PluginId>, now: nat) {
    && OnlyGates(a, b)
    && (forall p :: p in ps && p !in slots ==> TrimmedGate(a, b, p, now))
    && forall p :: p !in ps || p in slots ==> SameGate(a, b, p)
  }

  lemma TrimsOne(t: State, p: PluginId)
    ensures TrimmedOne(t, p) == t.(reg := TrimmedOne(t, p).reg) && OnlyGates(t.reg, TrimmedOne(t, p).reg)
    ensures p !in t.slots ==> TrimmedGate(t.reg, TrimmedOne(t, p).reg, p, t.now)
    ensures forall q :: q != p || q in t.slots ==> SameGate(t.reg, TrimmedOne(t, p).reg, q)
  {
    if p in t.reg.gates { assert Fresh(t.reg.gates[p], t.now) == Young(t.reg.gates[p], t.now); }
  }

  lemma TrimsNext(a: Registry, u: State, ps: seq<PluginId>, p: PluginId)
    requires TrimmedGates(a, u.reg, ps, u.slots.Keys, u.now) && p !in ps
    ensures TrimmedGates(a, TrimmedOne(u, p).reg, ps + [p], u.slots.Keys, u.now)
  {
    var (b, c) := (u.reg, TrimmedOne(u, p).reg);
    TrimsOne(u, p);
    forall q | q in ps + [p] && q !in u.slots.Keys ensures TrimmedGate(a, c, q, u.now) {
      if q == p { assert SameGate(a, b, p); } else { assert TrimmedGate(a, b, q, u.now) && SameGate(b, c, q); }
    }
    forall q | q !in ps + [p] || q in u.slots.Keys ensures SameGate(a, c, q) {
      assert SameGate(a, b, q) && SameGate(b, c, q);
    }
  }

  lemma {:induction false} TrimsAll(t: State, ps: seq<PluginId>)
    requires Distinct(ps)
    ensures TrimmedAll(t, ps) == t.(reg := TrimmedAll(t, ps).reg)
    ensures TrimmedGates(t.reg, TrimmedAll(t, ps).reg, ps, t.slots.Keys, t.now)
  {
    if ps != [] {
      var (front, p) := (ps[..|ps| - 1], ps[|ps| - 1]);
      TrimsAll(t, front);
      TrimsNext(t.reg, TrimmedAll(t, front), front, p);
      TrimsOne(TrimmedAll(t, front), p);
      assert ps == front + [p];
    }
  }

  /** A gate whose turn has not come is still there. */
  lemma TrimAt(t: State, ps: seq<PluginId>, i: nat)
    requires Distinct(ps) && SetOf(ps) == t.reg.gates.Keys && i < |ps|
    ensures var u := TrimmedAll(t, ps[..i]);
      && u == t.(reg := u.reg) && (ps[i] !in t.slots ==> ps[i] in u.reg.gates)
      && TrimmedAll(t, ps[..i + 1]) == TrimmedOne(u, ps[i])
  {
    TrimsAll(t, ps[..i]);
    assert ps[..i + 1][..i] == ps[..i] && ps[i] in SetOf(ps) && ps[i] !in ps[..i];
    assert SameGate(t.reg, TrimmedAll(t, ps[..i]).reg, ps[i]);
  }

  /** What a poll does to every slot of `s`. */
  ghost predicate PolledSlots(s: State, t: State) {
    && OnlyGates(s.reg, t.reg)
    && (forall p :: p in t.slots <==> p in s.slots && !(Watched(s.slots[p]) && p in s.reg.registered))
    && (forall p :: p in t.slots && Watched(s.slots[p]) && s.now - s.slots[p].since >= s.startTimeout ==>
          TimedOut(s.slots[p], t.slots[p]) && p !in t.reg.gates)
    && (forall p :: p in t.slots && !(Watched(s.slots[p]) && s.now - s.slots[p].since >= s.startTimeout) ==>
          t.slots[p] == s.slots[p] && (OwnQueues(s) ==> SameGate(s.reg, t.reg, p)))
  }

  /** ... to the calls of the slots it drains, which are back in the channel and allowed, and to the
      gates of the plugins without a slot, which lose their old allowances. */
  ghost predicate PolledGates(s: State, t: State) {
    && (forall p, c :: p in s.slots && Watched(s.slots[p]) && p in s.reg.registered && c in s.slots[p].queue ==>
          c in t.inbox && (p in s.reg.gates ==> p in t.reg.gates && c in t.reg.gates[p]))
    && (forall p :: p !in s.slots && p in s.reg.gates ==> TrimmedGate(s.reg, t.reg, p, s.now))
  }

  lemma SlotsPolled(s: State, a: State, b: State, t: State)
    requires DrainedSlots(s, a, PollStarted(s).poll.ready)
    requires TimedOutSlots(a, b, PollStarted(s).poll.expired)
    requires t.slots == b.slots && OnlyGates(b.reg, t.reg)
    requires forall p :: p in b.slots ==> SameGate(b.reg, t.reg, p)
    ensures PolledSlots(s, t)
  {
    var expired := PollStarted(s).poll.expired;
    forall p | p in t.slots && Watched(s.slots[p]) && s.now - s.slots[p].since >= s.startTimeout
      ensures TimedOut(s.slots[p], t.slots[p]) && p !in t.reg.gates
    {
      assert p in expired && SameGate(b.reg, t.reg, p);
    }
    forall p | p in t.slots && !(Watched(s.slots[p]) && s.now - s.slots[p].since >= s.startTimeout)
      ensures t.slots[p] == s.slots[p] && (OwnQueues(s) ==> SameGate(s.reg, t.reg, p))
    {
      assert p !in expired && SameGate(a.reg, b.reg, p) && SameGate(b.reg, t.reg, p);
      if OwnQueues(s) { assert SameGate(s.reg, a.reg, p); }
    }
  }

  lemma GatesPolled(s: State, a: State, b: State, t: State)
    requires OwnQueues(s) && DrainedSlots(s, a, PollStarted(s).poll.ready)
    requires TimedOutSlots(a, b, PollStarted(s).poll.expired)
    requires t.slots == b.slots && t.inbox == b.inbox
    requires forall p :: p in b.reg.gates && p !in b.slots ==> TrimmedGate(b.reg, t.reg, p, s.now)
    ensures PolledGates(s, t)
  {
    var q := PollStarted(s).poll;
    forall p, c | p in s.slots && Watched(s.slots[p]) && p in s.reg.registered && c in s.slots[p].queue
      ensures c in t.inbox && (p in s.reg.gates ==> p in t.reg.gates && c in t.reg.gates[p])
    {
      assert p in q.ready && p !in q.expired && c.plugin == p && Allowed(a.reg, c, s.now) && SameGate(a.reg, b.reg, p);
      if p in s.reg.gates {
        assert TrimmedGate(b.reg, t.reg, p, s.now) && c in Young(b.reg.gates[p], s.now);
      }
    }
    forall p | p !in s.slots && p in s.reg.gates ensures TrimmedGate(s.reg, t.reg, p, s.now) {
      assert SameGate(s.reg, a.reg, p) && SameGate(a.reg, b.reg, p) && TrimmedGate(b.reg, t.reg, p, s.now);
    }
  }

  /** `ready` and `expired` list what the poll found. */
  ghost predicate Lists(s: State, ready: seq<PluginId>, expired: seq<PluginId>) {
    && Distinct(ready) && SetOf(ready) == PollStarted(s).poll.ready
    && Distinct(expired) && SetOf(expired) == PollStarted(s).poll.expired
  }

  /** The ready slots can be drained, and then the expired ones timed out. */
  lemma PollCan(s: State, ready: seq<PluginId>, expired: seq<PluginId>)
    requires Lists(s, ready, expired) && s.draining == []
    ensures CanDrain(PollStarted(s), ready) && CanTimeOut(DrainedAll(PollStarted(s), ready), expired)
  {
    assert forall p :: p in ready ==> p in SetOf(ready);
    assert forall p :: p in expired ==> p in SetOf(expired);
    DrainsAll(PollStarted(s), ready);
    assert PollStarted(s).poll.ready - SetOf(ready) == {};
  }

  /** A poll over these lists. */
  function PolledOver(s: State, ready: seq<PluginId>, expired: seq<PluginId>, ids: seq<PluginId>): State {
    TrimmedAll(TimedOutAll(DrainedAll(PollStarted(s), ready), expired), ids).(poll := NoPoll)
  }

  /** The whole poll. */
  lemma PollDoes(s: State, ready: seq<PluginId>, expired: seq<PluginId>, ids: seq<PluginId>)
    requires Lists(s, ready, expired) && s.draining == [] && Distinct(ids)
    requires SetOf(ids) == TimedOutAll(DrainedAll(PollStarted(s), ready), expired).reg.gates.Keys
    ensures PolledSlots(s, PolledOver(s, ready, expired, ids))
    ensures OwnQueues(s) ==> PolledGates(s, PolledOver(s, ready, expired, ids))
  {
    var a := DrainedAll(PollStarted(s), ready);
    var b := TimedOutAll(a, expired);
    var t := PolledOver(s, ready, expired, ids);
    PollCan(s, ready, expired);
    DrainsAll(PollStarted(s), ready);
    TimesOutAll(a, expired);
    TrimsAll(b, ids);
    PollStartedSame(s, a, PollStarted(s).poll.ready);
    SlotsPolled(s, a, b, t);
    assert forall p :: p in b.reg.gates ==> p in SetOf(ids);
    if OwnQueues(s) { GatesPolled(s, a, b, t); }
  }

  /** Once all are timed out nothing is left but to trim the gates. */
  lemma PollEnds(s: State, ready: seq<PluginId>, expired: seq<PluginId>)
    requires Lists(s, ready, expired) && s.draining == []
    ensures var t := TimedOutAll(DrainedAll(PollStarted(s), ready), expired);
      t.poll == Polling({}, {}) && t.draining == []
  {
    var a := DrainedAll(PollStarted(s), ready);
    PollCan(s, ready, expired);
    DrainsAll(PollStarted(s), ready);
    TimesOutAll(a, expired);
    assert a.poll.expired - SetOf(expired) == {};
  }

  lemma PollStartedSame(s: State, a: State, done: set<PluginId>)
    requires DrainedSlots(PollStarted(s), a, done)
    ensures DrainedSlots(s, a, done)
  {
    assert OwnQueues(s) <==> OwnQueues(PollStarted(s));
  }

  // --- the sweep ---

  /** `p` has a clock that has run for its `idle_stop`, is live, has no slot and nothing pending. */
  ghost predicate Rests(s: State, p: PluginId) {
    && p in s.reg.dormant && p in s.reg.registered && p !in s.slots
    && p in s.reg.lastUsed && s.now - s.reg.lastUsed[p] >= s.reg.dormant[p]
    && forall c :: c in s.reg.pending ==> c.plugin != p
  }

  /** `p` is live, has no slot, and was never used. */
  ghost predicate NeverUsed(s: State, p: PluginId) {
    p in s.reg.dormant && p in s.reg.registered && p !in s.slots && p !in s.reg.lastUsed
  }

  /** The sweep's turn for `p`. */
  function SweptOne(t: State, p: PluginId): State {
    if SweepEnabled(t, StartClock(p)) then SweepStep(t, StartClock(p))
    else if SweepEnabled(t, Decide(p)) then SweepStep(SweepStep(t, Decide(p)), StopIdle)
    else t
  }

  /** What a sweep does not touch. */
  ghost predicate SweptFrame(s: State, t: State) {
    && t.now == s.now && t.reg.dormant == s.reg.dormant && t.reg.registered == s.reg.registered
    && t.reg.pending == s.reg.pending
  }

  /** Each plugin outside `rest` that rests has a slot of its own, behind its gate. */
  ghost predicate SweptSlots(s: State, t: State, rest: set<PluginId>) {
    && (forall p :: p in t.slots <==> p in s.slots || (p !in rest && Rests(s, p)))
    && (forall p :: p in t.slots ==>
          t.slots[p] == if p in s.slots then s.slots[p] else Waking([], s.now, false, false, true))
    && (forall p :: p in t.reg.gates <==> p in s.reg.gates || (p in t.slots && p !in s.slots))
  }

  /** One stop task more for each slot that is new. */
  ghost predicate SweptTasks(s: State, t: State) {
    t.tasks == s.tasks.(stops := s.tasks.stops + multiset(t.slots.Keys - s.slots.Keys))
  }

  /** Each plugin outside `rest` that was never used has its clock started. */
  ghost predicate SweptClocks(s: State, t: State, rest: set<PluginId>) {
    && (forall p :: p in t.reg.lastUsed <==> p in s.reg.lastUsed || (p !in rest && NeverUsed(s, p)))
    && (forall p :: p in t.reg.lastUsed ==>
          t.reg.lastUsed[p] == if p in s.reg.lastUsed then s.reg.lastUsed[p] else s.now)
  }

  /** From `s` to `t` all but the plugins in `rest` have been swept. */
  ghost predicate Swept(s: State, t: State, rest: set<PluginId>) {
    SweptFrame(s, t) && SweptSlots(s, t, rest) && SweptTasks(s, t) && SweptClocks(s, t, rest)
  }

  lemma StartsSwept(s: State)
    ensures Swept(s, s, s.reg.dormant.Keys)
  {
    assert s.slots.Keys - s.slots.Keys == {};
    assert s.tasks.stops + multiset({}) == s.tasks.stops;
  }

  /** After a whole sweep the new slots are exactly those of the plugins that rest. */
  lemma SlotsAfterSweep(s: State, t: State)
    requires Swept(s, t, {})
    ensures forall p :: p in t.slots && p !in s.slots <==> Rests(s, p)
  {
  }

  lemma DecideIff(s: State, t: State, rest: set<PluginId>, p: PluginId)
    requires Swept(s, t, rest) && p in rest && WakerIdle(t)
    ensures SweepEnabled(t, Decide(p)) <==> Rests(s, p)
    ensures SweepEnabled(t, StartClock(p)) <==> NeverUsed(s, p)
  {
  }

  lemma OneMoreSlot(s: State, t: State, rest: set<PluginId>, p: PluginId)
    requires SweptSlots(s, t, rest) && p in rest && Rests(s, p) && t.now == s.now
    ensures SweptSlots(s, IdleStopped(t, p), rest - {p})
  {
  }

  lemma OneMoreTask(s: State, t: State, p: PluginId)
    requires SweptTasks(s, t) && p !in s.slots && p !in t.slots
    ensures SweptTasks(s, IdleStopped(t, p))
  {
    var u := IdleStopped(t, p);
    var (before, after) := (t.slots.Keys - s.slots.Keys, u.slots.Keys - s.slots.Keys);
    assert after == before + {p} && p !in before;
    assert multiset(after) == multiset(before) + multiset{p};
  }

  lemma NoMoreSlots(s: State, t: State, rest: set<PluginId>, p: PluginId)
    requires SweptSlots(s, t, rest) && !Rests(s, p)
    ensures SweptSlots(s, t, rest - {p})
  {
  }

  lemma NoMoreClocks(s: State, t: State, rest: set<PluginId>, p: PluginId)
    requires SweptClocks(s, t, rest) && !NeverUsed(s, p)
    ensures SweptClocks(s, t, rest - {p})
  {
  }

  lemma OneMoreClock(s: State, t: State, rest: set<PluginId>, p: PluginId)
    requires SweptClocks(s, t, rest) && p in rest && NeverUsed(s, p) && t.now == s.now && p in t.reg.dormant
    ensures SweptClocks(s, t.(reg := Touch(t.reg, p, t.now)), rest - {p})
  {
  }

  lemma SweptNext(s: State, t: State, rest: set<PluginId>, p: PluginId)
    requires Swept(s, t, rest) && p in rest && WakerIdle(t) && p in s.reg.dormant
    ensures Swept(s, SweptOne(t, p), rest - {p})
  {
    DecideIff(s, t, rest, p);
    if NeverUsed(s, p) {
      OneMoreClock(s, t, rest, p);
      NoMoreSlots(s, t, rest, p);
    } else {
      NoMoreClocks(s, t, rest, p);
      if Rests(s, p) {
        OneMoreSlot(s, t, rest, p);
        OneMoreTask(s, t, p);
      } else {
        NoMoreSlots(s, t, rest, p);
      }
    }
  }
}
