/** What the pending-action protocol guarantees in every reachable state: one answer per
    request, provider identity across reconnects, and the concurrency cap. */
module PendingAnswers {
  import opened Collections
  import opened PendingActions

  /** How many of the messages are responses. */
  function Responses(log: seq<Out>): nat {
    if log == [] then 0 else (if log[|log| - 1].Response? then 1 else 0) + Responses(log[..|log| - 1])
  }

  /** How many are responses the kernel made up. */
  function Synthesized(log: seq<Out>): nat {
    if log == [] then 0
    else (if log[|log| - 1].Response? && log[|log| - 1].synthesized then 1 else 0) + Synthesized(log[..|log| - 1])
  }

  lemma {:induction false} CountsAppend(a: seq<Out>, b: seq<Out>)
    ensures Responses(a + b) == Responses(a) + Responses(b)
    ensures Synthesized(a + b) == Synthesized(a) + Synthesized(b)
    decreases |b|
  {
    if b == [] {
      assert a + b == a;
    } else {
      assert (a + b)[..|a + b| - 1] == a + b[..|b| - 1];
      CountsAppend(a, b[..|b| - 1]);
    }
  }

  lemma CountsOne(o: Out)
    ensures Responses([o]) == if o.Response? then 1 else 0
    ensures Synthesized([o]) == if o.Response? && o.synthesized then 1 else 0
  {
    assert [o][..0] == [];
  }

  // --- one answer ---

  /** Every response goes to the requester, under the requester's own id; the request itself
      goes to the provider's connection. */
  ghost predicate Addressed(log: seq<Out>, r: Route) {
    && (forall o :: o in log && o.Response? ==> o.to == r.requesterTx && o.id == r.originalId)
    && (forall o :: o in log && o.Forward? ==> o.to == r.provider.conn)
  }

  /** The record of one id the table minted. */
  ghost predicate Answered(t: Table, key: ActionId)
    requires key in t.log && key in t.routes
  {
    && Addressed(t.log[key], t.routes[key])
    && (key in t.everAccepted ==> Synthesized(t.log[key]) == 0 && Responses(t.log[key]) >= 1)
    && if key in t.pending then
         var p := t.pending[key];
         && p.requesterTx == t.routes[key].requesterTx && p.originalId == t.routes[key].originalId
         && (p.accepted <==> key in t.everAccepted)
         && (!p.accepted ==> Responses(t.log[key]) == 0 && Synthesized(t.log[key]) == 0)
         && key !in t.twice
       else
         key !in t.everAccepted ==> Responses(t.log[key]) == if key in t.twice then 2 else 1
  }

  ghost predicate AllAnswered(t: Table) {
    && (forall k: ActionId :: k in t.log <==> k < t.nextSeq)
    && t.routes.Keys == t.log.Keys && t.pending.Keys <= t.log.Keys && t.everAccepted <= t.log.Keys
    && t.twice <= t.log.Keys
    && forall k :: k in t.log ==> Answered(t, k)
  }

  lemma InsertAnswered(t: Table, p: PendingAction, r: Route)
    requires AllAnswered(t) && !p.accepted && p.requesterTx == r.requesterTx && p.originalId == r.originalId
    ensures AllAnswered(Insert(t, p, r))
  {
    var u := Insert(t, p, r);
    CountsOne(Forward(r.provider.conn, t.nextSeq));
    forall k | k in u.log ensures Answered(u, k) {
      if k != t.nextSeq { assert Answered(t, k); }
    }
  }

  /** The last messages settle the entry: one synthesized or passed-on response before
      acceptance, none made up by the kernel after it. */
  ghost predicate Settles(t: Table, key: ActionId, last: seq<Out>)
    requires key in t.pending
  {
    var p := t.pending[key];
    && (forall o :: o in last && o.Response? ==> o.to == p.requesterTx && o.id == p.originalId)
    && (forall o :: o in last ==> !o.Forward?)
    && (if p.accepted then Synthesized(last) == 0 else Responses(last) == 1)
  }

  lemma LeaveAnswered(t: Table, key: ActionId, last: seq<Out>)
    requires AllAnswered(t) && key in t.pending && Settles(t, key, last)
    ensures AllAnswered(Leave(t, key, last))
  {
    var u := Leave(t, key, last);
    CountsAppend(t.log[key], last);
    forall k | k in u.log ensures Answered(u, k) {
      assert Answered(t, k);
    }
  }

  lemma LeaveAllAnswered(t: Table, gone: set<ActionId>, last: map<ActionId, seq<Out>>)
    requires AllAnswered(t) && gone <= t.pending.Keys && gone <= last.Keys
    requires forall k :: k in gone ==> Settles(t, k, last[k])
    ensures AllAnswered(LeaveAll(t, gone, last))
  {
    var u := LeaveAll(t, gone, last);
    forall k | k in u.log ensures Answered(u, k) {
      assert Answered(t, k);
      if k in gone { CountsAppend(t.log[k], last[k]); }
    }
  }

  lemma AcceptAnswered(t: Table, key: ActionId, p: PendingAction, o: Out)
    requires AllAnswered(t) && key in t.pending
    requires o == Response(t.pending[key].requesterTx, t.pending[key].originalId, Ok, false)
    requires p.accepted && p == t.pending[key].(accepted := true, lastActivity := p.lastActivity)
    ensures var u := Issue(t, key, p, [o]); AllAnswered(u.(everAccepted := u.everAccepted + {key}))
  {
    var u := Issue(t, key, p, [o]);
    u := u.(everAccepted := u.everAccepted + {key});
    CountsAppend(t.log[key], [o]);
    CountsOne(o);
    forall k | k in u.log ensures Answered(u, k) {
      assert Answered(t, k);
    }
  }

  lemma ChunkAnswered(t: Table, key: ActionId, p: PendingAction, o: Out)
    requires AllAnswered(t) && key in t.pending && o.Chunk?
    requires p == t.pending[key].(lastActivity := p.lastActivity)
    ensures AllAnswered(Issue(t, key, p, [o]))
  {
    var u := Issue(t, key, p, [o]);
    CountsAppend(t.log[key], [o]);
    CountsOne(o);
    forall k | k in u.log ensures Answered(u, k) {
      assert Answered(t, k);
    }
  }

  lemma TerminationSettles(t: Table, key: ActionId, provider: Option<Conn>)
    requires key in t.pending
    ensures Settles(t, key, Termination(key, t.pending[key], provider))
  {
    var p := t.pending[key];
    var first := [Abort(p.requesterTx, p.originalId)];
    var middle := if p.accepted then [] else [Response(p.requesterTx, p.originalId, Backpressure, true)];
    var end := if provider.Some? then [Abort(provider.value, key)] else [];
    CountsAppend(first + middle, end);
    CountsAppend(first, middle);
    CountsOne(first[0]);
    if !p.accepted { CountsOne(middle[0]); }
    if provider.Some? { CountsOne(end[0]); }
  }

  /** The relay that is neither sent nor withdrawn yet has not been accepted. */
  ghost predicate Undecided(k: Kernel) {
    k.busy.Some? ==>
      k.busy.value in k.table.log && k.busy.value !in k.table.everAccepted && k.busy.value !in k.table.twice
  }

  lemma StepUndecided(k: Kernel, e: Event)
    requires Enabled(k, e) && Undecided(k) && AllAnswered(k.table)
    ensures Undecided(Step(k, e))
  {
    if e.Relay? { assert k.table.nextSeq !in k.table.log; }
  }

  lemma StepAnswered(k: Kernel, e: Event)
    requires Enabled(k, e) && AllAnswered(k.table) && Undecided(k)
    ensures AllAnswered(Step(k, e).table)
  {
    if ByRouter(e) { RouterAnswered(k, e); } else { OthersAnswered(k, e); }
  }

  /** What runs beside the router, and the end of a relay. */
  lemma OthersAnswered(k: Kernel, e: Event)
    requires Enabled(k, e) && !ByRouter(e) && AllAnswered(k.table) && Undecided(k)
    ensures AllAnswered(Step(k, e).table)
  {
    var t := k.table;
    match e {
      case FailPending(p, _) =>
        forall i | i in PendingAt(t, p) ensures Settles(t, i, GoneNotices(t)[i]) {
          CountsOne(GoneNotice(t.pending[i])[0]);
        }
        LeaveAllAnswered(t, PendingAt(t, p), GoneNotices(t));
      case Withdraw => WithdrawAnswered(k, k.busy.value);
      case _ =>
    }
  }

  lemma WithdrawAnswered(k: Kernel, key: ActionId)
    requires AllAnswered(k.table) && key in k.table.log && key !in k.table.everAccepted && key !in k.table.twice
    ensures AllAnswered(Withdrawn(k, key).table)
  {
    var r := k.table.routes[key];
    var last := [Response(r.requesterTx, r.originalId, NotFound, true)];
    assert Answered(k.table, key);
    CountsOne(last[0]);
    if key in k.table.pending {
      LeaveAnswered(k.table, key, last);
    } else {
      AnsweredAgain(k.table, key, last[0]);
      assert k.table.pending - {key} == k.table.pending;
    }
  }

  /** An action whose entry has gone is answered a second time. */
  lemma AnsweredAgain(t: Table, key: ActionId, o: Out)
    requires AllAnswered(t) && key in t.log && key !in t.pending && key !in t.everAccepted && key !in t.twice
    requires o.Response? && o.to == t.routes[key].requesterTx && o.id == t.routes[key].originalId
    ensures AllAnswered(t.(log := t.log[key := t.log[key] + [o]], twice := t.twice + {key}))
  {
    var u := t.(log := t.log[key := t.log[key] + [o]], twice := t.twice + {key});
    CountsAppend(t.log[key], [o]);
    CountsOne(o);
    forall k | k in u.log ensures Answered(u, k) {
      assert Answered(t, k);
    }
  }

  lemma RouterAnswered(k: Kernel, e: Event)
    requires Enabled(k, e) && ByRouter(e) && AllAnswered(k.table)
    ensures AllAnswered(Step(k, e).table)
  {
    var t := k.table;
    match e {
      case Refuse(_, _, _) =>
      case RouteLocal(q, f) => InsertAnswered(t, NewPending(k, q, f.provider), RouteOf(k, q, f, true));
      case Relay(q, f) => InsertAnswered(t, NewPending(k, q, f.provider), RouteOf(k, q, f, false));
      case Respond(_, key, status) =>
        var p := t.pending[key];
        var o := Response(p.requesterTx, p.originalId, status, false);
        CountsOne(o);
        if status == Ok && p.streaming {
          AcceptAnswered(t, key, p.(accepted := true, lastActivity := k.now), o);
        } else {
          LeaveAnswered(t, key, [o]);
        }
      case RequestChunk(_, _, key, sent) =>
        var provider := ConnOf(k.conns, t.pending[key].providerId);
        if provider.Some? && sent {
          ChunkAnswered(t, key, t.pending[key].(lastActivity := k.now), Chunk(provider.value, key));
        } else {
          AbortAnswered(k, key);
        }
      case ResponseChunk(_, key, sent) =>
        var p := t.pending[key];
        if sent {
          ChunkAnswered(t, key, p.(lastActivity := k.now), Chunk(p.requesterTx, p.originalId));
        } else {
          AbortAnswered(k, key);
        }
      case CloseSession(conn, id, key) => CloseAnswered(k, key, FromProvider(k, conn, id));
      case SweepExpired =>
        forall i | i in ExpiredKeys(k) ensures Settles(t, i, TimeoutNotices(t)[i]) {
          CountsOne(TimeoutNotices(t)[i][0]);
        }
        LeaveAllAnswered(t, ExpiredKeys(k), TimeoutNotices(t));
      case SweepIdle(idle) =>
        forall i | i in IdleKeys(k, idle) ensures Settles(t, i, IdleNotices(k)[i]) {
          TerminationSettles(t, i, ConnOf(k.conns, t.pending[i].providerId));
        }
        LeaveAllAnswered(t, IdleKeys(k, idle), IdleNotices(k));
    }
  }

  lemma AbortAnswered(k: Kernel, key: ActionId)
    requires AllAnswered(k.table) && key in k.table.pending
    ensures AllAnswered(Aborted(k, key).table)
  {
    var provider := ConnOf(k.conns, k.table.pending[key].providerId);
    TerminationSettles(k.table, key, provider);
    LeaveAnswered(k.table, key, Termination(key, k.table.pending[key], provider));
  }

  lemma CloseAnswered(k: Kernel, key: ActionId, byProvider: bool)
    requires AllAnswered(k.table) && key in k.table.pending && k.table.pending[key].accepted
    ensures AllAnswered(Closed(k, key, byProvider).table)
  {
    var p := k.table.pending[key];
    var provider := ConnOf(k.conns, p.providerId);
    var last := if byProvider then [Close(p.requesterTx, p.originalId)]
                else if provider.Some? then [Close(provider.value, key)] else [];
    if last != [] { CountsOne(last[0]); }
    LeaveAnswered(k.table, key, last);
  }

  // --- provider identity ---

  /** The two connection maps are inverse to each other, serials tell registrations apart, and a
      removal under way is of a registration nobody holds. */
  ghost predicate Inverse(c: Conns) {
    && (forall p :: p in c.byPlugin ==> c.byPlugin[p].conn in c.byConn && c.byConn[c.byPlugin[p].conn] == p)
    && (forall n :: n in c.byConn ==> c.byConn[n] in c.byPlugin && c.byPlugin[c.byConn[n]].conn == n)
    && (forall p :: p in c.byPlugin ==> (p, c.byPlugin[p]) in c.made)
    && (forall x :: x in c.made ==> x.1.serial < c.serials)
    && (forall x :: x in c.failing ==> x in c.made && !Current(c, x.0, x.1))
  }

  /** A pending action's provider holds the registration the request was routed to exactly when it
      held it at the insertion and no removal of it is under way. */
  ghost predicate BoundAt(k: Kernel, i: ActionId)
    requires i in k.table.pending && i in k.table.routes
  {
    var (p, r) := (k.table.pending[i].providerId, k.table.routes[i]);
    && (p, r.provider) in k.conns.made
    && (Current(k.conns, p, r.provider) <==> r.current && (p, r.provider) !in k.conns.failing)
  }

  ghost predicate Bound(k: Kernel) {
    && k.table.pending.Keys <= k.table.routes.Keys
    && forall i :: i in k.table.pending ==> BoundAt(k, i)
  }

  /** Entries only leave or keep their provider, and no registration changes. */
  lemma BoundKept(k: Kernel, l: Kernel)
    requires Bound(k) && l.conns == k.conns && l.table.routes == k.table.routes
    requires forall i :: i in l.table.pending ==>
      i in k.table.pending && l.table.pending[i].providerId == k.table.pending[i].providerId
    ensures Bound(l)
  {
    forall i | i in l.table.pending ensures BoundAt(l, i) { assert BoundAt(k, i); }
  }

  lemma RegisterBound(k: Kernel, p: PluginId, conn: Conn)
    requires Enabled(k, Register(p, conn)) && Inverse(k.conns) && Bound(k)
    ensures Inverse(Registered(k, p, conn).conns) && Bound(Registered(k, p, conn))
  {
    var l := Registered(k, p, conn);
    forall i | i in l.table.pending ensures BoundAt(l, i) { assert BoundAt(k, i); }
  }

  lemma UnregisterBound(k: Kernel, p: PluginId)
    requires p in k.conns.byPlugin && Inverse(k.conns) && Bound(k)
    ensures Inverse(Unregistered(k, p).conns) && Bound(Unregistered(k, p))
  {
    var l := Unregistered(k, p);
    forall i | i in l.table.pending ensures BoundAt(l, i) { assert BoundAt(k, i); }
  }

  lemma FailBound(k: Kernel, p: PluginId, r: Registration)
    requires Inverse(k.conns) && Bound(k)
    ensures Inverse(Failed(k, p, r).conns) && Bound(Failed(k, p, r))
  {
    var l := Failed(k, p, r);
    forall i | i in l.table.pending ensures BoundAt(l, i) { assert BoundAt(k, i); }
  }

  lemma InsertBound(k: Kernel, q: Request, f: Found, local: bool)
    requires Bound(k) && Inverse(k.conns) && AllAnswered(k.table)
    requires q.conn in k.conns.byConn && (f.provider, f.at) in k.conns.made
    ensures Bound(Inserted(k, q, f, local))
  {
    var l := Inserted(k, q, f, local);
    forall i | i in l.table.pending ensures BoundAt(l, i) {
      if i != k.table.nextSeq { assert BoundAt(k, i); }
    }
  }

  /** Answers, chunks, closes, sweeps, withdrawals and the clock change no registration and add no
      entry. */
  lemma OtherBound(k: Kernel, e: Event)
    requires Enabled(k, e) && Bound(k) && !e.Register? && !e.Unregister? && !e.FailPending?
    requires !e.RouteLocal? && !e.Relay?
    ensures Step(k, e).conns == k.conns && Bound(Step(k, e))
  {
    BoundKept(k, Step(k, e));
  }

  lemma StepBound(k: Kernel, e: Event)
    requires Enabled(k, e) && Inverse(k.conns) && Bound(k) && AllAnswered(k.table)
    ensures Inverse(Step(k, e).conns) && Bound(Step(k, e))
  {
    match e {
      case Register(p, conn) => RegisterBound(k, p, conn);
      case Unregister(p) => UnregisterBound(k, p);
      case FailPending(p, r) => FailBound(k, p, r);
      case RouteLocal(q, f) => InsertBound(k, q, f, true);
      case Relay(q, f) =>
        InsertBound(k, q, f, false);
        BoundKept(Inserted(k, q, f, false), Step(k, e));
      case _ => OtherBound(k, e);
    }
  }

  // --- the concurrency cap ---

  /** The in-flight actions of `requester` at `provider` that the local-provider arm created. */
  ghost function LocalActions(t: Table, requester: PluginId, provider: PluginId): set<ActionId> {
    set i | i in t.pending && i in t.routes && t.routes[i].local
            && t.pending[i].requesterId == requester && t.pending[i].providerId == provider
  }

  ghost predicate Capped(k: Kernel) {
    k.cap.Some? ==> forall r, p :: |LocalActions(k.table, r, p)| <= k.cap.value
  }

  /** A table after a step that inserts nothing. */
  ghost predicate Shrinks(t: Table, u: Table) {
    && u.routes == t.routes && u.nextSeq == t.nextSeq
    && forall i :: i in u.pending ==>
         && i in t.pending && u.pending[i].requesterId == t.pending[i].requesterId
         && u.pending[i].providerId == t.pending[i].providerId
  }

  lemma StepShrinks(k: Kernel, e: Event)
    requires Enabled(k, e) && !e.RouteLocal? && !e.Relay?
    ensures Shrinks(k.table, Step(k, e).table) && Step(k, e).cap == k.cap
  {
  }

  lemma ShrinksCapped(k: Kernel, l: Kernel)
    requires Capped(k) && l.cap == k.cap && Shrinks(k.table, l.table)
    ensures Capped(l)
  {
    forall r, p ensures |LocalActions(l.table, r, p)| <= |LocalActions(k.table, r, p)| {
      SubsetSize(LocalActions(l.table, r, p), LocalActions(k.table, r, p));
    }
  }

  lemma InsertLocal(t: Table, p: PendingAction, r: Route, requester: PluginId, provider: PluginId)
    requires t.nextSeq !in t.routes
    ensures LocalActions(Insert(t, p, r), requester, provider) ==
      LocalActions(t, requester, provider)
      + (if r.local && p.requesterId == requester && p.providerId == provider then {t.nextSeq} else {})
  {
  }

  lemma CountsLocal(t: Table, requester: PluginId, provider: PluginId)
    ensures |LocalActions(t, requester, provider)| <= CountFor(t, requester, provider)
  {
    SubsetSize(LocalActions(t, requester, provider), ActionsOf(t, requester, provider));
  }

  lemma RouteCapped(k: Kernel, e: Event)
    requires Enabled(k, e) && e.RouteLocal? && AllAnswered(k.table) && Capped(k)
    ensures Capped(Step(k, e))
  {
    var p := NewPending(k, e.request, e.found.provider);
    var r := RouteOf(k, e.request, e.found, true);
    assert k.table.nextSeq !in k.table.log;
    forall a, b ensures k.cap.Some? ==> |LocalActions(Insert(k.table, p, r), a, b)| <= k.cap.value {
      InsertLocal(k.table, p, r, a, b);
      CountsLocal(k.table, a, b);
    }
  }

  /** A relay never counts. */
  lemma RelayCapped(k: Kernel, e: Event)
    requires Enabled(k, e) && e.Relay? && AllAnswered(k.table) && Capped(k)
    ensures Capped(Step(k, e))
  {
    assert k.table.nextSeq !in k.table.log;
    forall a, b ensures LocalActions(Step(k, e).table, a, b) == LocalActions(k.table, a, b) {
      InsertLocal(k.table, NewPending(k, e.request, e.found.provider), RouteOf(k, e.request, e.found, false), a, b);
    }
  }

  lemma StepCapped(k: Kernel, e: Event)
    requires Enabled(k, e) && AllAnswered(k.table) && Capped(k)
    ensures Capped(Step(k, e))
  {
    if e.RouteLocal? {
      RouteCapped(k, e);
    } else if e.Relay? {
      RelayCapped(k, e);
    } else {
      StepShrinks(k, e);
      ShrinksCapped(k, Step(k, e));
    }
  }

  // --- every reachable state ---

  ghost predicate Inv(k: Kernel) {
    AllAnswered(k.table) && Undecided(k) && Inverse(k.conns) && Bound(k) && Capped(k)
  }

  lemma InvStep(k: Kernel, e: Event)
    requires Inv(k) && Enabled(k, e)
    ensures Inv(Step(k, e))
  {
    StepAnswered(k, e);
    StepUndecided(k, e);
    StepBound(k, e);
    StepCapped(k, e);
  }

  lemma InvInit(k: Kernel)
    requires Init(k)
    ensures Inv(k)
  {
    forall r, p ensures |LocalActions(k.table, r, p)| == 0 {
      assert LocalActions(k.table, r, p) == {};
    }
    assert k.table.routes.Keys == {} && k.table.log.Keys == {} && k.table.pending.Keys == {};
  }

  lemma {:induction false} InvRun(k: Kernel, events: seq<Event>)
    requires Inv(k) && IsRun(k, events)
    ensures Inv(Run(k, events))
    decreases |events|
  {
    if events != [] {
      InvStep(k, events[0]);
      InvRun(Step(k, events[0]), events[1..]);
    }
  }

  lemma ReachableInv(k: Kernel)
    requires Reachable(k)
    ensures Inv(k)
  {
    var k0, events :| Init(k0) && IsRun(k0, events) && Run(k0, events) == k;
    InvInit(k0);
    InvRun(k0, events);
  }

  /** Every id the table minted: while it is pending and not accepted no response has been issued
      for it; if it left without being accepted exactly one was, if and only if no withdrawal of a
      relay found its entry gone; once accepted the kernel never made one up. Every response went to
      the requester under the requester's own id. */
  lemma OneAnswerPerRequest(k: Kernel, key: ActionId)
    requires Reachable(k) && key < k.table.nextSeq
    ensures key in k.table.log && key in k.table.routes
    ensures var log := k.table.log[key];
      && (forall o :: o in log && o.Response? ==>
            o.to == k.table.routes[key].requesterTx && o.id == k.table.routes[key].originalId)
      && (key in k.table.everAccepted ==> Synthesized(log) == 0 && Responses(log) >= 1)
      && (key !in k.table.everAccepted && key in k.table.pending ==> Responses(log) == 0)
      && (key !in k.table.everAccepted && key !in k.table.pending ==>
            1 <= Responses(log) <= 2 && (Responses(log) == 1 <==> key !in k.table.twice))
  {
    ReachableInv(k);
    assert Answered(k.table, key);
  }

  lemma StaysOut(k: Kernel, e: Event, key: ActionId)
    requires Enabled(k, e) && key < k.table.nextSeq && key !in k.table.pending
    ensures key < Step(k, e).table.nextSeq && key !in Step(k, e).table.pending
  {
    if !e.RouteLocal? && !e.Relay? { StepShrinks(k, e); }
  }

  /** An entry that has left the table never comes back. */
  lemma {:induction false} LeavesOnce(k: Kernel, events: seq<Event>, key: ActionId)
    requires Inv(k) && IsRun(k, events) && key < k.table.nextSeq && key !in k.table.pending
    ensures key < Run(k, events).table.nextSeq && key !in Run(k, events).table.pending
    decreases |events|
  {
    if events != [] {
      StaysOut(k, events[0], key);
      InvStep(k, events[0]);
      LeavesOnce(Step(k, events[0]), events[1..], key);
    }
  }

  /** In every reachable state, for an action inserted while its provider still held the
      registration the lookup returned, and as long as no removal of that registration is under way:
      the provider holds it, and exactly its connection can answer the action, stream into it or
      close it as its provider. */
  lemma ProviderIdentity(k: Kernel, key: ActionId, conn: Conn)
    requires Reachable(k) && key in k.table.pending && key in k.table.routes && k.table.routes[key].current
    requires (k.table.pending[key].providerId, k.table.routes[key].provider) !in k.conns.failing
    ensures Current(k.conns, k.table.pending[key].providerId, k.table.routes[key].provider)
    ensures FromProvider(k, conn, key) <==> conn == k.table.routes[key].provider.conn
  {
    ReachableInv(k);
    assert BoundAt(k, key);
  }

  /** In every reachable state a pending action is off the registration it was routed to if and only
      if its insertion found the provider off it, or a removal of it has freed the id and not failed
      its actions yet. */
  lemma UnboundIff(k: Kernel, key: ActionId)
    requires Reachable(k) && key in k.table.pending
    ensures key in k.table.routes
    ensures var (p, r) := (k.table.pending[key].providerId, k.table.routes[key]);
      !Current(k.conns, p, r.provider) <==> !r.current || (p, r.provider) in k.conns.failing
  {
    ReachableInv(k);
    assert BoundAt(k, key);
  }

  /** In every reachable state no caller has more actions in flight at a provider, created by the
      local-provider arm, than the configured cap. */
  lemma ConcurrencyCap(k: Kernel, requester: PluginId, provider: PluginId)
    requires Reachable(k) && k.cap.Some?
    ensures |LocalActions(k.table, requester, provider)| <= k.cap.value
  {
    ReachableInv(k);
  }
}
