/** What requesters are told over a whole run, and what an entry keeps of its request. */
module PendingRuns {
  import opened Collections
  import opened PendingActions
  import PendingAnswers

  /** A response as the requester sees it: its status, and whether the kernel made it up. */
  type Reply = (Status, bool)

  /** The responses among these messages, in order. */
  function Says(log: seq<Out>): seq<Reply> {
    if log == [] then []
    else
      var (front, last) := (log[..|log| - 1], log[|log| - 1]);
      Says(front) + if last.Response? then [(last.status, last.synthesized)] else []
  }

  lemma {:induction false} SaysAppend(a: seq<Out>, b: seq<Out>)
    ensures Says(a + b) == Says(a) + Says(b)
    decreases |b|
  {
    if b == [] {
      assert a + b == a;
    } else {
      var front := b[..|b| - 1];
      SaysAppend(a, front);
      assert (a + b)[..|a + b| - 1] == a + front && (a + b)[|a + b| - 1] == b[|b| - 1];
    }
  }

  lemma SaysOne(o: Out)
    ensures Says([o]) == if o.Response? then [(o.status, o.synthesized)] else []
  {
    assert [o][..0] == [] && Says([]) == [];
  }

  lemma SaysNothing()
    ensures Says([]) == []
  {
  }

  function SaysAt(t: Table, key: ActionId): seq<Reply> {
    if key in t.log then Says(t.log[key]) else []
  }

  /** What the step tells the requester of `key`, from the entry and the step alone: a provider's
      answer as it is; otherwise an error when the provider goes, a timeout at the deadline, a
      backpressure when a stream breaks before it was accepted, not-found for a withdrawn relay. */
  function Told(k: Kernel, e: Event, key: ActionId): seq<Reply> {
    var waits := key in k.table.pending && !k.table.pending[key].accepted;
    match e
    case Respond(_, i, status) => if i == key then [(status, false)] else []
    case FailPending(p, _) => if waits && k.table.pending[key].providerId == p then [(Error, true)] else []
    case SweepExpired => if waits && k.table.pending[key].deadline <= k.now then [(Timeout, true)] else []
    case RequestChunk(_, _, i, sent) =>
      if i == key && waits && !(sent && k.table.pending[key].providerId in k.conns.byPlugin)
      then [(Backpressure, true)] else []
    case ResponseChunk(_, i, sent) => if i == key && waits && !sent then [(Backpressure, true)] else []
    case Withdraw => if k.busy == Some(key) then [(NotFound, true)] else []
    case _ => []
  }

  /** What a run tells the requester of `key`. */
  function ToldOver(k: Kernel, events: seq<Event>, key: ActionId): seq<Reply>
    requires IsRun(k, events)
    decreases |events|
  {
    if events == [] then [] else Told(k, events[0], key) + ToldOver(Step(k, events[0]), events[1..], key)
  }

  /** One entry's log grows by `out`. */
  lemma SaysMore(t: Table, u: Table, i: ActionId, out: seq<Out>, key: ActionId)
    requires i in t.log && u.log == t.log[i := t.log[i] + out]
    ensures SaysAt(u, key) == SaysAt(t, key) + if i == key then Says(out) else []
  {
    if i == key { SaysAppend(t.log[i], out); }
  }

  lemma SaysAll(t: Table, gone: set<ActionId>, last: map<ActionId, seq<Out>>, key: ActionId)
    requires gone <= last.Keys && gone <= t.log.Keys
    ensures SaysAt(LeaveAll(t, gone, last), key) == SaysAt(t, key) + if key in gone then Says(last[key]) else []
  {
    if key in gone { SaysAppend(t.log[key], last[key]); }
  }

  lemma TerminationSays(key: ActionId, p: PendingAction, provider: Option<Conn>)
    ensures Says(Termination(key, p, provider)) == if p.accepted then [] else [(Backpressure, true)]
  {
    var first := [Abort(p.requesterTx, p.originalId)];
    var mid := if p.accepted then [] else [Response(p.requesterTx, p.originalId, Backpressure, true)];
    var end := if provider.Some? then [Abort(provider.value, key)] else [];
    SaysAppend(first + mid, end);
    SaysAppend(first, mid);
    SaysOne(first[0]);
    if mid != [] { SaysOne(mid[0]); }
    if end != [] { SaysOne(end[0]); }
  }

  lemma AbortTold(k: Kernel, i: ActionId, key: ActionId)
    requires i in k.table.pending && i in k.table.log
    ensures SaysAt(Aborted(k, i).table, key) ==
            SaysAt(k.table, key) + if i == key && !k.table.pending[i].accepted then [(Backpressure, true)] else []
  {
    var (p, provider) := (k.table.pending[i], ConnOf(k.conns, k.table.pending[i].providerId));
    TerminationSays(i, p, provider);
    SaysMore(k.table, Aborted(k, i).table, i, Termination(i, p, provider), key);
  }

  lemma ChunkTold(k: Kernel, i: ActionId, out: Out, key: ActionId)
    requires i in k.table.pending && i in k.table.log && out.Chunk?
    ensures SaysAt(Touched(k, i, out).table, key) == SaysAt(k.table, key)
  {
    SaysOne(out);
    SaysMore(k.table, Touched(k, i, out).table, i, [out], key);
  }

  lemma InsertTold(t: Table, p: PendingAction, r: Route, key: ActionId)
    requires t.nextSeq !in t.log
    ensures SaysAt(Insert(t, p, r), key) == SaysAt(t, key)
  {
    SaysOne(Forward(r.provider.conn, t.nextSeq));
  }

  lemma CloseTold(k: Kernel, i: ActionId, byProvider: bool, key: ActionId)
    requires i in k.table.pending && i in k.table.log
    ensures SaysAt(Closed(k, i, byProvider).table, key) == SaysAt(k.table, key)
  {
    var p := k.table.pending[i];
    var provider := ConnOf(k.conns, p.providerId);
    var last := if byProvider then [Close(p.requesterTx, p.originalId)]
                else if provider.Some? then [Close(provider.value, i)] else [];
    if last != [] { SaysOne(last[0]); }
    SaysMore(k.table, Closed(k, i, byProvider).table, i, last, key);
  }

  lemma RespondTold(k: Kernel, i: ActionId, status: Status, key: ActionId)
    requires i in k.table.pending && i in k.table.log
    ensures SaysAt(Resolved(k, i, status).table, key) ==
            SaysAt(k.table, key) + if i == key then [(status, false)] else []
  {
    var p := k.table.pending[i];
    var o := Response(p.requesterTx, p.originalId, status, false);
    SaysOne(o);
    SaysMore(k.table, Resolved(k, i, status).table, i, [o], key);
  }

  lemma WithdrawTold(k: Kernel, i: ActionId, key: ActionId)
    requires i in k.table.log && i in k.table.routes
    ensures SaysAt(Withdrawn(k, i).table, key) == SaysAt(k.table, key) + if i == key then [(NotFound, true)] else []
  {
    var r := k.table.routes[i];
    var o := Response(r.requesterTx, r.originalId, NotFound, true);
    SaysOne(o);
    SaysMore(k.table, Withdrawn(k, i).table, i, [o], key);
  }

  lemma GoneTold(k: Kernel, p: PluginId, r: Registration, key: ActionId)
    requires k.table.pending.Keys <= k.table.log.Keys
    ensures SaysAt(Failed(k, p, r).table, key) == SaysAt(k.table, key) + Told(k, FailPending(p, r), key)
  {
    var t := k.table;
    SaysAll(t, PendingAt(t, p), GoneNotices(t), key);
    if key in t.pending { GoneSays(t.pending[key]); }
  }

  lemma GoneSays(p: PendingAction)
    ensures Says(GoneNotice(p)) == if p.accepted then [] else [(Error, true)]
  {
    SaysOne(if p.accepted then Abort(p.requesterTx, p.originalId)
            else Response(p.requesterTx, p.originalId, Error, true));
  }

  lemma ExpiredTold(k: Kernel, key: ActionId)
    requires k.table.pending.Keys <= k.table.log.Keys
    ensures SaysAt(SweptExpired(k).table, key) == SaysAt(k.table, key) + Told(k, SweepExpired, key)
  {
    SaysAll(k.table, ExpiredKeys(k), TimeoutNotices(k.table), key);
    if key in k.table.pending {
      var p := k.table.pending[key];
      SaysOne(Response(p.requesterTx, p.originalId, Timeout, true));
    }
  }

  lemma IdleTold(k: Kernel, idle: nat, key: ActionId)
    requires k.table.pending.Keys <= k.table.log.Keys
    ensures SaysAt(SweptIdle(k, idle).table, key) == SaysAt(k.table, key)
  {
    SaysAll(k.table, IdleKeys(k, idle), IdleNotices(k), key);
    if key in IdleKeys(k, idle) {
      TerminationSays(key, k.table.pending[key], ConnOf(k.conns, k.table.pending[key].providerId));
    }
  }

  /** A chunk arm: the peer's channel takes the chunk, or the stream is aborted. */
  lemma StreamTold(k: Kernel, e: Event, key: ActionId)
    requires Enabled(k, e) && (e.RequestChunk? || e.ResponseChunk?)
    ensures SaysAt(Step(k, e).table, key) == SaysAt(k.table, key) + Told(k, e, key)
  {
    var p := k.table.pending[e.key];
    var to := if e.RequestChunk? then ConnOf(k.conns, p.providerId) else Some(p.requesterTx);
    if to.Some? && e.sent {
      ChunkTold(k, e.key, if e.RequestChunk? then Chunk(to.value, e.key) else Chunk(p.requesterTx, p.originalId), key);
    } else {
      AbortTold(k, e.key, key);
    }
  }

  lemma StepTold(k: Kernel, e: Event, key: ActionId)
    requires Enabled(k, e) && PendingAnswers.AllAnswered(k.table)
    ensures SaysAt(Step(k, e).table, key) == SaysAt(k.table, key) + Told(k, e, key)
  {
    match e {
      case FailPending(p, r) => GoneTold(k, p, r, key);
      case RouteLocal(q, f) => InsertTold(k.table, NewPending(k, q, f.provider), RouteOf(k, q, f, true), key);
      case Relay(q, f) => InsertTold(k.table, NewPending(k, q, f.provider), RouteOf(k, q, f, false), key);
      case Withdraw => WithdrawTold(k, k.busy.value, key);
      case Respond(_, i, status) => RespondTold(k, i, status, key);
      case RequestChunk(_, _, _, _) => StreamTold(k, e, key);
      case ResponseChunk(_, _, _) => StreamTold(k, e, key);
      case CloseSession(conn, id, i) => CloseTold(k, i, FromProvider(k, conn, id), key);
      case SweepExpired => ExpiredTold(k, key);
      case SweepIdle(idle) => IdleTold(k, idle, key);
      case _ =>
    }
  }

  lemma {:induction false} RunTold(k: Kernel, events: seq<Event>, key: ActionId)
    requires PendingAnswers.Inv(k) && IsRun(k, events)
    ensures SaysAt(Run(k, events).table, key) == SaysAt(k.table, key) + ToldOver(k, events, key)
    decreases |events|
  {
    if events != [] {
      var (l, rest) := (Step(k, events[0]), events[1..]);
      StepTold(k, events[0], key);
      PendingAnswers.InvStep(k, events[0]);
      RunTold(l, rest, key);
      Regroup(SaysAt(k.table, key), Told(k, events[0], key), ToldOver(l, rest, key));
    }
  }

  lemma Regroup(a: seq<Reply>, b: seq<Reply>, c: seq<Reply>)
    ensures a + b + c == a + (b + c)
  {
  }

  /** Over every run from the start, the responses issued for `key` are exactly those its steps call
      for, in order, each with its status. */
  lemma AnswersOverRun(k: Kernel, events: seq<Event>, key: ActionId)
    requires Init(k) && IsRun(k, events)
    ensures SaysAt(Run(k, events).table, key) == ToldOver(k, events, key)
  {
    PendingAnswers.InvInit(k);
    RunTold(k, events, key);
  }

  // --- the provider's own statuses ---

  /** The statuses that were passed on. */
  function PassedOn(says: seq<Reply>): seq<Status> {
    if says == [] then []
    else PassedOn(says[..|says| - 1]) + if says[|says| - 1].1 then [] else [says[|says| - 1].0]
  }

  lemma {:induction false} PassedAppend(a: seq<Reply>, b: seq<Reply>)
    ensures PassedOn(a + b) == PassedOn(a) + PassedOn(b)
    decreases |b|
  {
    if b == [] {
      assert a + b == a;
    } else {
      var front := b[..|b| - 1];
      PassedAppend(a, front);
      assert (a + b)[..|a + b| - 1] == a + front && (a + b)[|a + b| - 1] == b[|b| - 1];
    }
  }

  /** The statuses its provider has answered for `key`. */
  function Statuses(events: seq<Event>, key: ActionId): seq<Status> {
    if events == [] then []
    else (if events[0].Respond? && events[0].key == key then [events[0].status] else []) + Statuses(events[1..], key)
  }

  lemma TellsStatus(k: Kernel, e: Event, key: ActionId)
    ensures PassedOn(Told(k, e, key)) == if e.Respond? && e.key == key then [e.status] else []
  {
    var told := Told(k, e, key);
    if told != [] { assert told[..0] == [] && PassedOn([]) == []; }
  }

  lemma {:induction false} TellsStatuses(k: Kernel, events: seq<Event>, key: ActionId)
    requires IsRun(k, events)
    ensures PassedOn(ToldOver(k, events, key)) == Statuses(events, key)
    decreases |events|
  {
    if events != [] {
      TellsStatus(k, events[0], key);
      TellsStatuses(Step(k, events[0]), events[1..], key);
      PassedAppend(Told(k, events[0], key), ToldOver(Step(k, events[0]), events[1..], key));
    }
  }

  /** Over every run the requester of `key` is passed exactly the statuses its provider answered, in
      order. */
  lemma StatusesPassedOn(k: Kernel, events: seq<Event>, key: ActionId)
    requires Init(k) && IsRun(k, events)
    ensures PassedOn(SaysAt(Run(k, events).table, key)) == Statuses(events, key)
  {
    AnswersOverRun(k, events, key);
    TellsStatuses(k, events, key);
  }

  // --- what an entry keeps ---

  /** The entry is the one `q` made at time `at` for this provider. */
  ghost predicate MadeBy(p: PendingAction, q: Request, sender: PluginId, provider: PluginId, at: nat) {
    && p.requesterTx == q.conn && p.originalId == q.id && p.requesterId == sender && p.providerId == provider
    && p.deadline == at + q.timeout && p.streaming == q.streaming && p.lastActivity >= at
  }

  lemma KeepsStep(k: Kernel, e: Event, key: ActionId, q: Request, sender: PluginId, provider: PluginId, at: nat)
    requires Enabled(k, e) && key < k.table.nextSeq && at <= k.now
    requires key in k.table.pending ==> MadeBy(k.table.pending[key], q, sender, provider, at)
    ensures key < Step(k, e).table.nextSeq && at <= Step(k, e).now
    ensures key in Step(k, e).table.pending ==> MadeBy(Step(k, e).table.pending[key], q, sender, provider, at)
  {
  }

  lemma {:induction false} KeepsRun(k: Kernel, events: seq<Event>, key: ActionId, q: Request, sender: PluginId,
                                    provider: PluginId, at: nat)
    requires IsRun(k, events) && key < k.table.nextSeq && at <= k.now
    requires key in k.table.pending ==> MadeBy(k.table.pending[key], q, sender, provider, at)
    ensures key in Run(k, events).table.pending ==>
      MadeBy(Run(k, events).table.pending[key], q, sender, provider, at)
    decreases |events|
  {
    if events != [] {
      KeepsStep(k, events[0], key, q, sender, provider, at);
      KeepsRun(Step(k, events[0]), events[1..], key, q, sender, provider, at);
    }
  }

  /** From its insertion on, over any run, an entry has its request's connection, id, sender and
      streaming flag, the provider the lookup returned, and a deadline the request's timeout away. */
  lemma EntryKept(k: Kernel, e: Event, events: seq<Event>)
    requires Enabled(k, e) && (e.RouteLocal? || e.Relay?) && IsRun(Step(k, e), events)
    ensures var (key, p) := (k.table.nextSeq, Run(Step(k, e), events).table.pending);
      key in p ==> MadeBy(p[key], e.request, k.conns.byConn[e.request.conn], e.found.provider, k.now)
  {
    KeepsRun(Step(k, e), events, k.table.nextSeq, e.request, k.conns.byConn[e.request.conn], e.found.provider, k.now);
  }
}
