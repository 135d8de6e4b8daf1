/** The pending-action table as code: the registry's operations on it and the router arms that
    call them, each proved to take exactly the step of the protocol, or none. */
module PendingTableCode {
  import opened Collections
  import opened PendingActions

  class PendingTable {
    const cap: Option<nat>
    var now: nat
    var conns: Conns
    var pending: map<ActionId, PendingAction>
    var nextSeq: ActionId
    var log: map<ActionId, seq<Out>>
    var refusals: seq<Out>
    ghost var routes: map<ActionId, Route>
    ghost var everAccepted: set<ActionId>
    ghost var twice: set<ActionId>
    ghost var busy: Option<ActionId>

    ghost function Abs(): Kernel
      reads this
    {
      Kernel(cap, now, conns, Table(pending, nextSeq, log, routes, everAccepted, twice), refusals, busy)
    }

    /** Every entry is one the table minted. */
    ghost predicate Valid()
      reads this
    {
      pending.Keys <= log.Keys
    }

    constructor (cap: Option<nat>, now: nat)
      ensures Valid() && PendingActions.Init(Abs()) && this.cap == cap && this.now == now
    {
      this.cap, this.now := cap, now;
      conns, refusals := Conns(map[], map[], {}, 0, {}), [];
      pending, nextSeq, log, routes, everAccepted, twice, busy := map[], 0, map[], map[], {}, {}, None;
    }

    /** The sender has at most one entry under this id. */
    ghost predicate OneEach(k: Kernel, conn: Conn, id: ActionId) {
      forall i, j :: FromRequester(k, conn, id, i) && FromRequester(k, conn, id, j) ==> i == j
    }

    /** Exactly these messages were issued, under `key`. */
    ghost predicate Issued(before: map<ActionId, seq<Out>>, after: map<ActionId, seq<Out>>,
                           key: ActionId, out: seq<Out>) {
      key in before && after == before[key := before[key] + out]
    }

    /** The entry `k` has left with these last messages, or is as it was. */
    ghost predicate LeftWith(before: Table, k: ActionId, leaves: bool, last: seq<Out>)
      requires k in before.pending && k in before.log
      reads this
    {
      && k in log
      && if leaves then k !in pending && log[k] == before.log[k] + last
         else k in pending && pending[k] == before.pending[k] && log[k] == before.log[k]
    }

    /** No entry is new, and no message was issued for one that had left before. */
    ghost predicate NothingNew(before: Table)
      reads this
    {
      && pending.Keys <= before.pending.Keys && log.Keys == before.log.Keys
      && forall k :: k in before.log && k !in before.pending ==> log[k] == before.log[k]
    }

    // --- lookups ---

    /** `count_pending_actions_for`: a scan of the table. */
    method CountPendingActionsFor(requester: PluginId, provider: PluginId) returns (n: nat)
      ensures n == CountFor(Abs().table, requester, provider)
      ensures n == |set k | k in pending && pending[k].requesterId == requester && pending[k].providerId == provider|
    {
      n := 0;
      var rest := pending.Keys;
      ghost var actions :=
        set k | k in pending && pending[k].requesterId == requester && pending[k].providerId == provider;
      ghost var found: set<ActionId> := {};
      while rest != {}
        invariant rest <= pending.Keys && n == |found|
        invariant forall k :: k in found <==> k in actions && k !in rest
        decreases |rest|
      {
        var k :| k in rest;
        rest := rest - {k};
        if pending[k].requesterId == requester && pending[k].providerId == provider {
          n := n + 1;
          found := found + {k};
        }
      }
      assert found == actions == ActionsOf(Abs().table, requester, provider);
    }

    static predicate IsOf(p: PendingAction, requester: PluginId, id: ActionId) {
      p.requesterId == requester && p.originalId == id
    }

    /** `find_pending_internal_id`: some entry of this requester under this id, if there is one. */
    method FindPendingInternalId(requester: PluginId, id: ActionId) returns (r: Option<ActionId>)
      ensures r.Some? ==> r.value in pending && IsOf(pending[r.value], requester, id)
      ensures r.None? ==> forall k :: k in pending ==> !IsOf(pending[k], requester, id)
    {
      r := None;
      var rest := pending.Keys;
      while rest != {}
        invariant rest <= pending.Keys
        invariant forall k :: k in pending && k !in rest ==> !IsOf(pending[k], requester, id)
        decreases |rest|
      {
        var k :| k in rest;
        if pending[k].requesterId == requester && pending[k].originalId == id { return Some(k); }
        rest := rest - {k};
      }
    }

    /** The keys `take_pending_actions_for_provider` evicts. */
    method KeysAt(provider: PluginId) returns (keys: set<ActionId>)
      ensures keys == PendingAt(Abs().table, provider)
    {
      keys := {};
      var rest := pending.Keys;
      while rest != {}
        invariant rest <= pending.Keys && keys == PendingAt(Abs().table, provider) - rest
        decreases |rest|
      {
        var k :| k in rest;
        rest := rest - {k};
        if pending[k].providerId == provider { keys := keys + {k}; }
      }
      assert keys == PendingAt(Abs().table, provider);
    }

    /** The keys `sweep_expired_actions` evicts. */
    method KeysExpired() returns (keys: set<ActionId>)
      ensures keys == ExpiredKeys(Abs())
    {
      keys := {};
      var rest := pending.Keys;
      while rest != {}
        invariant rest <= pending.Keys && keys == ExpiredKeys(Abs()) - rest
        decreases |rest|
      {
        var k :| k in rest;
        rest := rest - {k};
        if !pending[k].accepted && pending[k].deadline <= now { keys := keys + {k}; }
      }
      assert keys == ExpiredKeys(Abs());
    }

    /** The keys `sweep_idle_sessions` evicts. */
    method KeysIdle(idle: nat) returns (keys: set<ActionId>)
      ensures keys == IdleKeys(Abs(), idle)
    {
      keys := {};
      var rest := pending.Keys;
      while rest != {}
        invariant rest <= pending.Keys && keys == IdleKeys(Abs(), idle) - rest
        decreases |rest|
      {
        var k :| k in rest;
        rest := rest - {k};
        if pending[k].accepted && now - pending[k].lastActivity > idle { keys := keys + {k}; }
      }
      assert keys == IdleKeys(Abs(), idle);
    }

    // --- entries leave ---

    /** Take the entry out of the table and issue its last messages. */
    method TakeOut(key: ActionId, last: seq<Out>)
      requires key in log
      modifies `pending, `log
      ensures Abs().table == Leave(old(Abs()).table, key, last)
    {
      pending := pending - {key};
      log := log[key := log[key] + last];
    }

    /** Take out `keys` one at a time. */
    method TakeOutAll(keys: set<ActionId>, last: map<ActionId, seq<Out>>)
      requires Valid() && keys <= pending.Keys && keys <= last.Keys
      modifies `pending, `log
      ensures Valid() && Abs().table == LeaveAll(old(Abs()).table, keys, last)
    {
      ghost var t := Abs().table;
      var rest := keys;
      while rest != {}
        invariant rest <= keys
        invariant pending == t.pending - (keys - rest) && log.Keys == t.log.Keys
        invariant forall k :: k in log ==> log[k] == if k in keys - rest then t.log[k] + last[k] else t.log[k]
        decreases |rest|
      {
        var k :| k in rest;
        TakeOut(k, last[k]);
        rest := rest - {k};
      }
      assert pending == t.pending - keys;
      assert log == LeaveAll(t, keys, last).log;
    }

    /** `fail_pending_for_provider`. */
    method FailPendingForProvider(provider: PluginId)
      requires Valid()
      modifies `pending, `log
      ensures Valid()
      ensures var t := old(Abs()).table;
        Abs().table == LeaveAll(t, PendingAt(t, provider), GoneNotices(t))
      ensures NothingNew(old(Abs()).table)
      ensures forall k :: k in old(pending) ==>
        var p := old(pending)[k];
        LeftWith(old(Abs()).table, k, p.providerId == provider,
                 [if p.accepted then Abort(p.requesterTx, p.originalId)
                  else Response(p.requesterTx, p.originalId, Error, true)])
    {
      var keys := KeysAt(provider);
      TakeOutAll(keys, map k | k in pending :: GoneNotice(pending[k]));
    }

    /** A free id on a free connection gets a registration of its own. */
    method Register(p: PluginId, conn: Conn) returns (ok: bool)
      modifies `conns
      ensures ok <==> Enabled(old(Abs()), Event.Register(p, conn))
      ensures Abs() == if ok then Step(old(Abs()), Event.Register(p, conn)) else old(Abs())
    {
      ok := conn !in conns.byConn && p !in conns.byPlugin;
      if ok {
        var r := Registration(conn, conns.serials);
        conns := Conns(conns.byPlugin[p := r], conns.byConn[conn := p], conns.made + {(p, r)}, conns.serials + 1,
                       conns.failing);
      }
    }

    /** `unregister_if`, when its condition holds: the id is freed first, and the actions routed to it
        are failed last. */
    method Unregister(p: PluginId)
      requires Valid()
      modifies `conns, `pending, `log
      ensures Valid()
      ensures p !in old(conns).byPlugin ==> Abs() == old(Abs())
      ensures conns.byPlugin == old(conns).byPlugin - {p}
      ensures p in old(conns).byPlugin ==> conns.byConn == old(conns).byConn - {old(conns).byPlugin[p].conn}
      ensures p in old(conns).byPlugin ==>
        var (freed, end) := (Step(old(Abs()), Event.Unregister(p)), FailPending(p, old(conns).byPlugin[p]));
        Enabled(freed, end) && Abs() == Step(freed, end)
    {
      if p !in conns.byPlugin { return; }
      var r := conns.byPlugin[p];
      conns := conns.(byPlugin := conns.byPlugin - {p}, byConn := conns.byConn - {r.conn},
                      failing := conns.failing + {(p, r)});
      FailPendingForProvider(p);
      conns := conns.(failing := conns.failing - {(p, r)});
    }

    /** The sweeps of the prune tick. */
    method SweepExpired()
      requires Valid() && busy.None?
      modifies `pending, `log
      ensures Valid() && Abs() == Step(old(Abs()), Event.SweepExpired)
      ensures NothingNew(old(Abs()).table)
      ensures forall k :: k in old(pending) ==>
        var p := old(pending)[k];
        LeftWith(old(Abs()).table, k, !p.accepted && p.deadline <= now,
                 [Response(p.requesterTx, p.originalId, Timeout, true)])
    {
      var keys := KeysExpired();
      TakeOutAll(keys,
                 map i | i in pending :: [Response(pending[i].requesterTx, pending[i].originalId, Timeout, true)]);
    }

    method SweepIdle(idle: nat)
      requires Valid() && busy.None?
      modifies `pending, `log
      ensures Valid() && Abs() == Step(old(Abs()), Event.SweepIdle(idle))
      ensures NothingNew(old(Abs()).table)
      ensures forall k :: k in old(pending) ==>
        var p := old(pending)[k];
        LeftWith(old(Abs()).table, k, p.accepted && now - p.lastActivity > idle,
                 [Abort(p.requesterTx, p.originalId)]
                 + if p.providerId in conns.byPlugin then [Abort(conns.byPlugin[p.providerId].conn, k)] else [])
    {
      var keys := KeysIdle(idle);
      TakeOutAll(keys, map i | i in pending :: Termination(i, pending[i], ConnOf(conns, pending[i].providerId)));
    }

    // --- router arms ---

    /** `register_pending_action` under the next internal id. */
    method RegisterPendingAction(p: PendingAction, to: Conn, ghost r: Route)
      requires r.provider.conn == to
      modifies `pending, `nextSeq, `log, `routes
      ensures Abs().table == Insert(old(Abs()).table, p, r)
    {
      pending := pending[nextSeq := p];
      log := log[nextSeq := [Forward(to, nextSeq)]];
      routes := routes[nextSeq := r];
      nextSeq := nextSeq + 1;
    }

    /** An ActionRequest for which the lookup returned `f`; a removal may have run since.
        `permitted` is the outcome of the permission and rate checks. It is routed exactly when
        permitted and under the cap; otherwise it is refused at once. */
    method RequestArm(q: Request, f: Found, permitted: bool) returns (routed: bool)
      requires Valid() && busy.None? && (f.provider, f.at) in conns.made
      modifies `pending, `nextSeq, `log, `routes, `refusals
      ensures Valid()
      ensures routed <==>
        && permitted && q.conn in conns.byConn
        && (cap.Some? ==>
              |set k | k in old(pending) && old(pending)[k].requesterId == conns.byConn[q.conn]
                       && old(pending)[k].providerId == f.provider| < cap.value)
      ensures routed ==>
        && pending == old(pending)[old(nextSeq) :=
             PendingAction(q.conn, q.id, conns.byConn[q.conn], now + q.timeout, f.provider, q.streaming, false, now)]
        && log == old(log)[old(nextSeq) := [Forward(f.at.conn, old(nextSeq))]] && refusals == old(refusals)
      ensures routed <==> permitted && Enabled(old(Abs()), RouteLocal(q, f))
      ensures routed ==> Abs() == Step(old(Abs()), RouteLocal(q, f))
      ensures !routed && q.conn in conns.byConn ==>
        && Abs() == Step(old(Abs()), Refuse(q.conn, q.id, if permitted then QuotaExceeded else Denied))
        && refusals == old(refusals) + [Response(q.conn, q.id, if permitted then QuotaExceeded else Denied, true)]
      ensures q.conn !in conns.byConn ==> Abs() == old(Abs())
    {
      if q.conn !in conns.byConn { return false; }
      if !permitted {
        refusals := refusals + [Response(q.conn, q.id, Denied, true)];
        return false;
      }
      var sender := conns.byConn[q.conn];
      if cap.Some? {
        var n := CountPendingActionsFor(sender, f.provider);
        if n >= cap.value {
          refusals := refusals + [Response(q.conn, q.id, QuotaExceeded, true)];
          return false;
        }
      }
      routed := true;
      var p := PendingAction(q.conn, q.id, sender, now + q.timeout, f.provider, q.streaming, false, now);
      RegisterPendingAction(p, f.at.conn, RouteOf(Abs(), q, f, true));
    }

    /** `relay_action_to_host`: an unknown action goes to the host over the bridge, unless it came
        from there or the lookup found no bridge; `sent` says whether the host's channel took it. */
    method RelayArm(q: Request, host: Option<Found>, sent: bool) returns (relayed: bool)
      requires Valid() && busy.None? && q.conn in conns.byConn
      requires host.Some? ==> (host.value.provider, host.value.at) in conns.made && host.value.at.conn == BRIDGE
      modifies `pending, `nextSeq, `log, `routes, `refusals, `busy, `twice
      ensures Valid() && busy.None?
      ensures relayed <==> sent && host.Some? && q.conn != BRIDGE
      ensures relayed ==>
        && pending == old(pending)[old(nextSeq) :=
             PendingAction(q.conn, q.id, conns.byConn[q.conn], now + q.timeout, host.value.provider, q.streaming,
                           false, now)]
        && log == old(log)[old(nextSeq) := [Forward(BRIDGE, old(nextSeq))]] && refusals == old(refusals)
      ensures host.Some? && q.conn != BRIDGE && !sent ==>
        && pending == old(pending) - {old(nextSeq)} && refusals == old(refusals)
        && log == old(log)[old(nextSeq) := [Forward(BRIDGE, old(nextSeq))] + [Response(q.conn, q.id, NotFound, true)]]
      ensures host.Some? && q.conn != BRIDGE ==>
        && Enabled(old(Abs()), Relay(q, host.value))
        && var (k, e) := (Step(old(Abs()), Relay(q, host.value)), if sent then RelaySent else Withdraw);
           Enabled(k, e) && Abs() == Step(k, e)
      ensures !(host.Some? && q.conn != BRIDGE) ==>
        && Abs() == Step(old(Abs()), Refuse(q.conn, q.id, NotFound))
        && refusals == old(refusals) + [Response(q.conn, q.id, NotFound, true)]
    {
      if q.conn == BRIDGE || host.None? {
        refusals := refusals + [Response(q.conn, q.id, NotFound, true)];
        return false;
      }
      var key := InsertRelay(q, host.value);
      if !sent {
        WithdrawRelay(key, q);
      }
      busy := None;
      relayed := sent;
    }

    /** The first end of a relay. */
    method InsertRelay(q: Request, f: Found) returns (key: ActionId)
      requires Valid() && busy.None? && q.conn in conns.byConn && q.conn != BRIDGE
      requires (f.provider, f.at) in conns.made && f.at.conn == BRIDGE
      modifies `pending, `nextSeq, `log, `routes, `busy
      ensures Valid() && Enabled(old(Abs()), Relay(q, f)) && Abs() == Step(old(Abs()), Relay(q, f))
      ensures pending == old(pending)[key :=
        PendingAction(q.conn, q.id, conns.byConn[q.conn], now + q.timeout, f.provider, q.streaming, false, now)]
      ensures log == old(log)[key := [Forward(BRIDGE, key)]]
      ensures key == old(nextSeq)
    {
      key := nextSeq;
      var p := PendingAction(q.conn, q.id, conns.byConn[q.conn], now + q.timeout, f.provider, q.streaming, false, now);
      RegisterPendingAction(p, f.at.conn, RouteOf(Abs(), q, f, false));
      busy := Some(key);
    }

    /** The failing end of a relay. A removal may have taken the entry and answered it; the arm does
        not look. */
    method WithdrawRelay(key: ActionId, q: Request)
      requires Valid() && busy == Some(key) && key in log && key in routes
      requires routes[key].requesterTx == q.conn && routes[key].originalId == q.id
      modifies `pending, `log, `busy, `twice
      ensures Valid() && Enabled(old(Abs()), Withdraw) && Abs() == Step(old(Abs()), Withdraw)
      ensures pending == old(pending) - {key}
      ensures Issued(old(log), log, key, [Response(q.conn, q.id, NotFound, true)])
    {
      twice := if key in pending then twice else twice + {key};
      TakeOut(key, [Response(q.conn, q.id, NotFound, true)]);
      busy := None;
    }

    /** The sender on `conn` is the provider of the entry. */
    predicate SentByProvider(conn: Conn, key: ActionId)
      reads this
    {
      conn in conns.byConn && key in pending && pending[key].providerId == conns.byConn[conn]
    }

    /** An ActionResponse: passed on with its status if its sender is the routed provider, dropped
        otherwise. An accepted stream stays; anything else is settled. */
    method ResponseArm(conn: Conn, key: ActionId, status: Status)
      requires Valid() && busy.None?
      modifies `pending, `log, `everAccepted
      ensures Valid()
      ensures Abs() == if Enabled(old(Abs()), Respond(conn, key, status))
                       then Step(old(Abs()), Respond(conn, key, status)) else old(Abs())
      ensures !old(SentByProvider(conn, key)) ==> pending == old(pending) && log == old(log)
      ensures old(SentByProvider(conn, key)) ==>
        var p := old(pending)[key];
        && Issued(old(log), log, key, [Response(p.requesterTx, p.originalId, status, false)])
        && pending == if status == Ok && p.streaming
                      then old(pending)[key := p.(accepted := true, lastActivity := now)] else old(pending) - {key}
    {
      if conn !in conns.byConn || key !in pending { return; }
      var p := pending[key];
      if p.providerId != conns.byConn[conn] { return; }
      var out := [Response(p.requesterTx, p.originalId, status, false)];
      if status == Ok && p.streaming {
        pending := pending[key := p.(accepted := true, lastActivity := now)];
        log := log[key := log[key] + out];
        everAccepted := everAccepted + {key};
      } else {
        TakeOut(key, out);
      }
    }

    /** The stream is over: its entry has left, both sides are told, and a requester that has had no
        answer yet gets one. */
    ghost predicate Broken(before: map<ActionId, PendingAction>, logged: map<ActionId, seq<Out>>, key: ActionId)
      requires key in before
      reads this
    {
      var p := before[key];
      && pending == before - {key}
      && Issued(logged, log, key,
           [Abort(p.requesterTx, p.originalId)]
           + (if p.accepted then [] else [Response(p.requesterTx, p.originalId, Backpressure, true)])
           + if p.providerId in conns.byPlugin then [Abort(conns.byPlugin[p.providerId].conn, key)] else [])
    }

    /** Forward a chunk and note the activity, or abort the stream when the peer's channel is
        full or gone. */
    method ForwardChunk(key: ActionId, to: Option<Conn>, id: ActionId, sent: bool)
      requires Valid() && key in pending
      modifies `pending, `log
      ensures Valid()
      ensures Abs() == if to.Some? && sent then Touched(old(Abs()), key, Chunk(to.value, id))
                       else Aborted(old(Abs()), key)
      ensures to.Some? && sent ==>
        && pending == old(pending)[key := old(pending)[key].(lastActivity := now)]
        && Issued(old(log), log, key, [Chunk(to.value, id)])
      ensures !(to.Some? && sent) ==> Broken(old(pending), old(log), key)
    {
      var p := pending[key];
      if to.Some? && sent {
        pending := pending[key := p.(lastActivity := now)];
        log := log[key := log[key] + [Chunk(to.value, id)]];
      } else {
        TakeOut(key, Termination(key, p, ConnOf(conns, p.providerId)));
      }
    }

    method ResponseChunkArm(conn: Conn, key: ActionId, sent: bool)
      requires Valid() && busy.None?
      modifies `pending, `log
      ensures Valid()
      ensures Abs() == if Enabled(old(Abs()), ResponseChunk(conn, key, sent))
                       then Step(old(Abs()), ResponseChunk(conn, key, sent)) else old(Abs())
      ensures !old(SentByProvider(conn, key)) ==> pending == old(pending) && log == old(log)
      ensures old(SentByProvider(conn, key)) ==>
        var p := old(pending)[key];
        if sent then
          && pending == old(pending)[key := p.(lastActivity := now)]
          && Issued(old(log), log, key, [Chunk(p.requesterTx, p.originalId)])
        else Broken(old(pending), old(log), key)
    {
      if conn !in conns.byConn || key !in pending || pending[key].providerId != conns.byConn[conn] { return; }
      ForwardChunk(key, Some(pending[key].requesterTx), pending[key].originalId, sent);
    }

    method RequestChunkArm(conn: Conn, id: ActionId, sent: bool) returns (key: Option<ActionId>)
      requires Valid() && busy.None?
      modifies `pending, `log
      ensures Valid()
      ensures key.Some? ==> Enabled(old(Abs()), RequestChunk(conn, id, key.value, sent))
      ensures key.Some? ==> Abs() == Step(old(Abs()), RequestChunk(conn, id, key.value, sent))
      ensures key.None? ==> Abs() == old(Abs()) && forall k :: !Enabled(old(Abs()), RequestChunk(conn, id, k, sent))
      ensures key.None? <==>
        conn !in conns.byConn || forall k :: k in old(pending) ==> !IsOf(old(pending)[k], conns.byConn[conn], id)
      ensures key.Some? ==>
        && key.value in old(pending) && IsOf(old(pending)[key.value], conns.byConn[conn], id)
        && var p := old(pending)[key.value];
           if sent && p.providerId in conns.byPlugin then
             && pending == old(pending)[key.value := p.(lastActivity := now)]
             && Issued(old(log), log, key.value, [Chunk(conns.byPlugin[p.providerId].conn, key.value)])
           else Broken(old(pending), old(log), key.value)
    {
      if conn !in conns.byConn { return None; }
      key := FindPendingInternalId(conns.byConn[conn], id);
      if key.Some? {
        ForwardChunk(key.value, ConnOf(conns, pending[key.value].providerId), key.value, sent);
      }
    }

    /** A SessionClose from either side ends an accepted session and nothing else. The provider
        names the session; a requester's id may name several entries, and the scan picks one. */
    method CloseArm(conn: Conn, id: ActionId) returns (key: Option<ActionId>)
      requires Valid() && busy.None?
      modifies `pending, `log
      ensures Valid()
      ensures key.Some? ==> Enabled(old(Abs()), CloseSession(conn, id, key.value))
      ensures key.Some? ==> Abs() == Step(old(Abs()), CloseSession(conn, id, key.value))
      ensures key.None? ==> Abs() == old(Abs())
      ensures key.Some? ==>
        && key.value in old(pending) && old(pending)[key.value].accepted && pending == old(pending) - {key.value}
        && var p := old(pending)[key.value];
           if old(SentByProvider(conn, id)) then
             key.value == id && Issued(old(log), log, id, [Close(p.requesterTx, p.originalId)])
           else
             && IsOf(p, conns.byConn[conn], id)
             && Issued(old(log), log, key.value,
                  if p.providerId in conns.byPlugin then [Close(conns.byPlugin[p.providerId].conn, key.value)] else [])
      ensures key.None? && FromProvider(old(Abs()), conn, id) ==> !old(pending)[id].accepted
      ensures key.None? && !FromProvider(old(Abs()), conn, id) ==>
        || (forall k :: !FromRequester(old(Abs()), conn, id, k))
        || (exists k :: FromRequester(old(Abs()), conn, id, k) && !old(pending)[k].accepted)
      ensures OneEach(old(Abs()), conn, id) && key.None? ==> forall k :: !Enabled(old(Abs()), CloseSession(conn, id, k))
    {
      if conn !in conns.byConn { return None; }
      var sender := conns.byConn[conn];
      var byProvider := id in pending && pending[id].providerId == sender;
      if byProvider {
        key := Some(id);
      } else {
        key := FindPendingInternalId(sender, id);
      }
      if key.None? || !pending[key.value].accepted { return None; }
      var p := pending[key.value];
      if byProvider {
        TakeOut(id, [Close(p.requesterTx, p.originalId)]);
      } else if p.providerId in conns.byPlugin {
        TakeOut(key.value, [Close(conns.byPlugin[p.providerId].conn, key.value)]);
      } else {
        TakeOut(key.value, []);
      }
    }
  }
}
