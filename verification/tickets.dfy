/** Single-use pairing tickets: issue, consume and the pruning of rows past their retention. */
module Tickets {
  import opened Collections

  type Hash = nat
  type Time = x: int | 0 <= x < 0x1_0000_0000_0000_0000

  const MAX_TIME: Time := 0xffff_ffff_ffff_ffff
  const TICKET_LEN: nat := 43
  const STALE_RETENTION_SECS: Time := 3600

  datatype Row = Row(hash: Hash, created: Time, expires: Time, used: Option<Time>)
  datatype Rejection = Unknown | AlreadyUsed | Expired
  datatype Outcome = Accepted(row: Row) | Rejected(reason: Rejection)

  function SaturatingAdd(a: Time, b: Time): Time {
    if a + b <= MAX_TIME then a + b else MAX_TIME
  }

  predicate IsStale(r: Row, now: Time) {
    var used: Time := if r.used.Some? then r.used.value else 0;
    var last: Time := if used > r.expires then used else r.expires;
    now >= SaturatingAdd(last, STALE_RETENTION_SECS)
  }

  // --- rows ---

  function Retained(rows: seq<Row>, now: Time): seq<Row> {
    if rows == [] then []
    else if IsStale(rows[0], now) then Retained(rows[1..], now)
    else [rows[0]] + Retained(rows[1..], now)
  }

  /** The first row with the hash. */
  function Find(rows: seq<Row>, h: Hash): Option<Row> {
    if rows == [] then None
    else if rows[0].hash == h then Some(rows[0])
    else Find(rows[1..], h)
  }

  function Mark(rows: seq<Row>, h: Hash, now: Time): seq<Row> {
    if rows == [] then []
    else if rows[0].hash == h then [rows[0].(used := Some(now))] + rows[1..]
    else [rows[0]] + Mark(rows[1..], h, now)
  }

  // --- operations ---

  function Issued(h: Hash, now: Time, ttl: Time): Row {
    Row(h, now, SaturatingAdd(now, ttl), None)
  }

  /** The answer to a ticket of the given length and hash. */
  function Answer(rows: seq<Row>, length: nat, h: Hash, now: Time): Outcome {
    if length != TICKET_LEN then Rejected(Unknown)
    else match Find(rows, h)
      case None => Rejected(Unknown)
      case Some(r) =>
        if r.used.Some? then Rejected(AlreadyUsed)
        else if now >= r.expires then Rejected(Expired)
        else Accepted(r.(used := Some(now)))
  }

  datatype Event =
    | Issue(hash: Hash, now: Time, ttl: Time)
    | Consume(length: nat, hash: Hash, now: Time)
    | Sweep(now: Time)

  /** The rows after an event, in a store that prunes or in one that never does. */
  function Step(rows: seq<Row>, e: Event, prunes: bool): seq<Row> {
    match e
    case Issue(h, now, ttl) => (if prunes then Retained(rows, now) else rows) + [Issued(h, now, ttl)]
    case Consume(length, h, now) => if Answer(rows, length, h, now).Accepted? then Mark(rows, h, now) else rows
    case Sweep(now) => if prunes then Retained(rows, now) else rows
  }

  function After(es: seq<Event>, prunes: bool): seq<Row> {
    if es == [] then [] else Step(After(es[..|es| - 1], prunes), es[|es| - 1], prunes)
  }

  /** What the consume at `i` is answered. */
  function AnswerAt(es: seq<Event>, i: nat, prunes: bool): Outcome
    requires i < |es| && es[i].Consume?
  {
    Answer(After(es[..i], prunes), es[i].length, es[i].hash, es[i].now)
  }

  // --- lookups through the row operations ---

  ghost predicate OneRowEach(rows: seq<Row>) {
    forall i, j :: 0 <= i < j < |rows| ==> rows[i].hash != rows[j].hash
  }

  lemma {:induction false} FindNone(rows: seq<Row>, h: Hash)
    ensures Find(rows, h).None? <==> forall i :: 0 <= i < |rows| ==> rows[i].hash != h
    ensures Find(rows, h).Some? ==> Find(rows, h).value.hash == h && Find(rows, h).value in rows
  {
    if rows != [] {
      FindNone(rows[1..], h);
      if Find(rows, h).None? {
        forall i | 0 <= i < |rows| ensures rows[i].hash != h {
          if i > 0 { assert rows[i] == rows[1..][i - 1]; }
        }
      }
    }
  }

  lemma {:induction false} FindAppended(rows: seq<Row>, r: Row, h: Hash)
    ensures Find(rows + [r], h) ==
            if Find(rows, h).Some? then Find(rows, h) else if r.hash == h then Some(r) else None
  {
    if rows != [] {
      FindAppended(rows[1..], r, h);
      assert (rows + [r])[1..] == rows[1..] + [r];
    }
  }

  lemma {:induction false} FindMarked(rows: seq<Row>, h: Hash, now: Time, h': Hash)
    ensures Find(Mark(rows, h, now), h') ==
            if h' == h && Find(rows, h).Some? then Some(Find(rows, h).value.(used := Some(now))) else Find(rows, h')
    ensures |Mark(rows, h, now)| == |rows|
    ensures forall i :: 0 <= i < |rows| ==> Mark(rows, h, now)[i].hash == rows[i].hash
  {
    if rows != [] { FindMarked(rows[1..], h, now, h'); }
  }

  lemma {:induction false} FindRetained(rows: seq<Row>, now: Time, h: Hash)
    requires OneRowEach(rows)
    ensures Find(Retained(rows, now), h) ==
            if Find(rows, h).Some? && !IsStale(Find(rows, h).value, now) then Find(rows, h) else None
  {
    if rows != [] {
      FindRetained(rows[1..], now, h);
      FindNone(rows[1..], rows[0].hash);
    }
  }

  lemma {:induction false} RetainedOnce(rows: seq<Row>, now: Time)
    requires OneRowEach(rows)
    ensures OneRowEach(Retained(rows, now))
    ensures forall r :: r in Retained(rows, now) ==> r in rows
  {
    if rows != [] {
      RetainedOnce(rows[1..], now);
      assert forall r :: r in rows[1..] ==> r.hash != rows[0].hash;
    }
  }

  /** The first row with the hash is the one found and marked. */
  lemma {:induction false} FirstRow(rows: seq<Row>, h: Hash, k: nat, now: Time)
    requires k < |rows| && rows[k].hash == h && forall i :: 0 <= i < k ==> rows[i].hash != h
    ensures Find(rows, h) == Some(rows[k])
    ensures Mark(rows, h, now) == rows[k := rows[k].(used := Some(now))]
  {
    if k > 0 { FirstRow(rows[1..], h, k - 1, now); }
  }

  // --- fresh hashes ---

  /** No two issues use the same hash. */
  ghost predicate FreshHashes(es: seq<Event>) {
    forall i, j :: 0 <= i < j < |es| && es[i].Issue? && es[j].Issue? ==> es[i].hash != es[j].hash
  }

  ghost predicate WasIssued(es: seq<Event>, h: Hash) {
    exists i :: 0 <= i < |es| && es[i].Issue? && es[i].hash == h
  }

  /** One row per hash, and only for issued hashes. */
  ghost predicate Sound(es: seq<Event>, rows: seq<Row>) {
    OneRowEach(rows) && forall r :: r in rows ==> WasIssued(es, r.hash)
  }

  lemma IssuedBefore(es: seq<Event>, h: Hash)
    requires es != []
    ensures WasIssued(es[..|es| - 1], h) ==> WasIssued(es, h)
    ensures FreshHashes(es) ==> FreshHashes(es[..|es| - 1])
    ensures FreshHashes(es) && es[|es| - 1].Issue? ==> !WasIssued(es[..|es| - 1], es[|es| - 1].hash)
  {
  }

  lemma {:induction false} SoundAfter(es: seq<Event>, prunes: bool)
    requires FreshHashes(es)
    ensures Sound(es, After(es, prunes))
  {
    if es != [] {
      var (before, e) := (es[..|es| - 1], es[|es| - 1]);
      var rows := After(before, prunes);
      forall h { IssuedBefore(es, h); }
      SoundAfter(before, prunes);
      match e {
        case Issue(_, now, _) => RetainedOnce(rows, now);
        case Consume(_, h, now) => FindMarked(rows, h, now, h);
        case Sweep(now) => RetainedOnce(rows, now);
      }
    }
  }

  // --- at most one acceptance ---

  /** The ticket can no longer be accepted. */
  predicate Spent(rows: seq<Row>, h: Hash) {
    Find(rows, h).None? || Find(rows, h).value.used.Some?
  }

  lemma SpentStep(rows: seq<Row>, e: Event, prunes: bool, h: Hash)
    requires OneRowEach(rows)
    requires Spent(rows, h) && !(e.Issue? && e.hash == h)
    ensures Spent(Step(rows, e, prunes), h)
  {
    match e {
      case Issue(_, now, ttl) =>
        FindRetained(rows, now, h);
        FindAppended(if prunes then Retained(rows, now) else rows, Issued(e.hash, now, ttl), h);
      case Consume(_, h', now) => FindMarked(rows, h', now, h);
      case Sweep(now) => FindRetained(rows, now, h);
    }
  }

  lemma AcceptedSpends(es: seq<Event>, i: nat, prunes: bool)
    requires FreshHashes(es) && i < |es| && es[i].Consume? && AnswerAt(es, i, prunes).Accepted?
    ensures WasIssued(es[..i], es[i].hash) && Spent(After(es[..i + 1], prunes), es[i].hash)
  {
    var rows := After(es[..i], prunes);
    SoundAfter(es[..i], prunes);
    FindNone(rows, es[i].hash);
    FindMarked(rows, es[i].hash, es[i].now, es[i].hash);
    assert es[..i + 1][..i] == es[..i];
  }

  lemma {:induction false} StaysSpent(es: seq<Event>, i: nat, j: nat, h: Hash, prunes: bool)
    requires FreshHashes(es) && i <= j <= |es| && WasIssued(es[..i], h) && Spent(After(es[..i], prunes), h)
    ensures Spent(After(es[..j], prunes), h)
    decreases j
  {
    if i < j {
      StaysSpent(es, i, j - 1, h, prunes);
      assert es[..j][..j - 1] == es[..j - 1];
      SoundAfter(es[..j - 1], prunes);
      SpentStep(After(es[..j - 1], prunes), es[j - 1], prunes, h);
    }
  }

  /** Over any run, whatever the clock reads, no ticket is accepted twice. */
  lemma AcceptedOnce(es: seq<Event>, i: nat, j: nat, prunes: bool)
    requires FreshHashes(es) && i < j < |es| && es[i].Consume? && es[j].Consume? && es[i].hash == es[j].hash
    requires AnswerAt(es, i, prunes).Accepted?
    ensures AnswerAt(es, j, prunes).Rejected?
  {
    AcceptedSpends(es, i, prunes);
    IssuedExtends(es, i, es[i].hash);
    StaysSpent(es, i + 1, j, es[i].hash, prunes);
  }

  lemma IssuedExtends(es: seq<Event>, i: nat, h: Hash)
    requires i < |es| && WasIssued(es[..i], h)
    ensures WasIssued(es[..i + 1], h)
  {
    var k :| 0 <= k < i && es[..i][k].Issue? && es[..i][k].hash == h;
    assert es[..i + 1][k].Issue? && es[..i + 1][k].hash == h;
  }

  // --- pruning against never pruning ---

  /** What the pruning store still has, the other has too. */
  ghost predicate Covers(pruned: seq<Row>, kept: seq<Row>) {
    forall h :: Find(pruned, h).Some? ==> Find(kept, h) == Find(pruned, h)
  }

  /** A row that no consume at `now` or later accepts. */
  predicate Dead(r: Row, now: Time) {
    r.used.Some? || now >= r.expires
  }

  /** What the pruning store has dropped is dead. */
  ghost predicate DroppedDead(pruned: seq<Row>, kept: seq<Row>, now: Time) {
    forall h :: Find(pruned, h).None? && Find(kept, h).Some? ==> Dead(Find(kept, h).value, now)
  }

  predicate DeadIfDropped(pruned: seq<Row>, kept: seq<Row>, h: Hash, now: Time) {
    Find(pruned, h).None? && Find(kept, h).Some? ==> Dead(Find(kept, h).value, now)
  }

  lemma StaleIsDead(r: Row, now: Time)
    requires IsStale(r, now)
    ensures Dead(r, now)
  {
  }

  lemma CoversIssue(pruned: seq<Row>, kept: seq<Row>, e: Event, h: Hash)
    requires OneRowEach(pruned) && Covers(pruned, kept) && e.Issue? && Find(kept, e.hash).None?
    ensures Find(Step(pruned, e, true), h).Some? ==> Find(Step(kept, e, false), h) == Find(Step(pruned, e, true), h)
    ensures DroppedDead(pruned, kept, e.now) ==> DeadIfDropped(Step(pruned, e, true), Step(kept, e, false), h, e.now)
  {
    FindRetained(pruned, e.now, h);
    FindAppended(Retained(pruned, e.now), Issued(e.hash, e.now, e.ttl), h);
    FindAppended(kept, Issued(e.hash, e.now, e.ttl), h);
    if Find(pruned, h).Some? && IsStale(Find(pruned, h).value, e.now) { StaleIsDead(Find(pruned, h).value, e.now); }
  }

  lemma CoversSweep(pruned: seq<Row>, kept: seq<Row>, e: Event, h: Hash)
    requires OneRowEach(pruned) && Covers(pruned, kept) && e.Sweep?
    ensures Find(Step(pruned, e, true), h).Some? ==> Find(kept, h) == Find(Step(pruned, e, true), h)
    ensures DroppedDead(pruned, kept, e.now) ==> DeadIfDropped(Step(pruned, e, true), kept, h, e.now)
  {
    FindRetained(pruned, e.now, h);
    if Find(pruned, h).Some? && IsStale(Find(pruned, h).value, e.now) { StaleIsDead(Find(pruned, h).value, e.now); }
  }

  lemma CoversConsume(pruned: seq<Row>, kept: seq<Row>, e: Event, h: Hash)
    requires Covers(pruned, kept) && e.Consume?
    ensures Find(Step(pruned, e, true), h).Some? ==> Find(Step(kept, e, false), h) == Find(Step(pruned, e, true), h)
    ensures DroppedDead(pruned, kept, e.now) ==> DeadIfDropped(Step(pruned, e, true), Step(kept, e, false), h, e.now)
  {
    FindMarked(pruned, e.hash, e.now, h);
    FindMarked(kept, e.hash, e.now, h);
  }

  lemma CoversStep(pruned: seq<Row>, kept: seq<Row>, e: Event)
    requires OneRowEach(pruned) && Covers(pruned, kept) && (e.Issue? ==> Find(kept, e.hash).None?)
    ensures Covers(Step(pruned, e, true), Step(kept, e, false))
    ensures DroppedDead(pruned, kept, e.now) ==> DroppedDead(Step(pruned, e, true), Step(kept, e, false), e.now)
  {
    forall h: Hash
      ensures Find(Step(pruned, e, true), h).Some? ==> Find(Step(kept, e, false), h) == Find(Step(pruned, e, true), h)
      ensures DroppedDead(pruned, kept, e.now) ==> DeadIfDropped(Step(pruned, e, true), Step(kept, e, false), h, e.now)
    {
      match e {
        case Issue(_, _, _) => CoversIssue(pruned, kept, e, h);
        case Consume(_, _, _) => CoversConsume(pruned, kept, e, h);
        case Sweep(_) => CoversSweep(pruned, kept, e, h);
      }
    }
  }

  ghost predicate Monotone(es: seq<Event>) {
    forall i, j :: 0 <= i < j < |es| ==> es[i].now <= es[j].now
  }

  lemma {:induction false} CoversAfter(es: seq<Event>)
    requires FreshHashes(es)
    ensures Covers(After(es, true), After(es, false))
    ensures Monotone(es) ==>
      DroppedDead(After(es, true), After(es, false), if es == [] then 0 else es[|es| - 1].now)
  {
    if es != [] {
      var (before, e) := (es[..|es| - 1], es[|es| - 1]);
      CoversAfter(before);
      SoundAfter(before, true);
      SoundAfter(before, false);
      if e.Issue? {
        IssuedBefore(es, e.hash);
        FindNone(After(before, false), e.hash);
      }
      CoversStep(After(before, true), After(before, false), e);
    }
  }

  /** Whatever the clock reads, a consume the pruning store accepts the other accepts too, with
      the same record; and a rejection differs only where the pruning store no longer knows the
      ticket. */
  lemma PruningAcceptsNoMore(es: seq<Event>, i: nat)
    requires FreshHashes(es) && i < |es| && es[i].Consume?
    ensures AnswerAt(es, i, true) == AnswerAt(es, i, false) || AnswerAt(es, i, true) == Rejected(Unknown)
  {
    CoversAfter(es[..i]);
  }

  /** While the clock does not run backwards, both stores accept the same consumes. */
  lemma PruningIsInvisible(es: seq<Event>, i: nat)
    requires FreshHashes(es) && Monotone(es) && i < |es| && es[i].Consume?
    ensures AnswerAt(es, i, true).Accepted? <==> AnswerAt(es, i, false).Accepted?
  {
    CoversAfter(es[..i]);
    PruningAcceptsNoMore(es, i);
  }

  // --- every answer, from the events alone ---

  ghost predicate IssuedAt(es: seq<Event>, j: nat, h: Hash) {
    j < |es| && es[j].Issue? && es[j].hash == h
  }

  /** The consume at `m` was of this hash and was accepted. */
  ghost predicate AcceptedAt(es: seq<Event>, m: nat, h: Hash, prunes: bool) {
    m < |es| && es[m].Consume? && es[m].hash == h && AnswerAt(es, m, prunes).Accepted?
  }

  /** `now` lies before the end of the ticket's life; the end of time ends it too. */
  predicate InTime(issue: Event, now: Time)
    requires issue.Issue?
  {
    now < issue.now + issue.ttl && now < MAX_TIME
  }

  /** `now` is an hour or more after `last`, or the end of time. */
  predicate HourAfter(now: Time, last: int) {
    now >= last + 3600 || now == MAX_TIME
  }

  /** The issue or sweep at `k` drops the ticket issued at `j`: an hour after its life ended and an
      hour after its use. */
  ghost predicate DropsAt(es: seq<Event>, j: nat, k: nat, h: Hash)
    requires IssuedAt(es, j, h) && k < |es|
  {
    && !es[k].Consume? && HourAfter(es[k].now, es[j].now + es[j].ttl)
    && forall m: nat :: m < k && AcceptedAt(es, m, h, true) ==> HourAfter(es[k].now, es[m].now)
  }

  ghost predicate Dropped(es: seq<Event>, j: nat, h: Hash, prunes: bool)
    requires IssuedAt(es, j, h)
  {
    prunes && exists k: nat :: j < k < |es| && DropsAt(es, j, k, h)
  }

  lemma AcceptedPrefix(es: seq<Event>, n: nat, m: nat, h: Hash, prunes: bool)
    requires m < n <= |es|
    ensures AcceptedAt(es, m, h, prunes) <==> AcceptedAt(es[..n], m, h, prunes)
  {
    assert es[..n][..m] == es[..m];
  }

  /** Earlier drops do not depend on what comes later. */
  lemma DropsPrefix(es: seq<Event>, j: nat, k: nat, h: Hash)
    requires es != [] && j < |es| - 1 && IssuedAt(es, j, h) && k < |es| - 1
    ensures DropsAt(es, j, k, h) <==> DropsAt(es[..|es| - 1], j, k, h)
  {
    forall m: nat | m < k { AcceptedPrefix(es, |es| - 1, m, h, true); }
  }

  /** What the store knows of the ticket issued at `j`. */
  ghost predicate RowIs(es: seq<Event>, j: nat, h: Hash, prunes: bool, r: Row)
    requires IssuedAt(es, j, h)
  {
    && r == Row(h, es[j].now, SaturatingAdd(es[j].now, es[j].ttl), r.used)
    && (r.used.Some? ==> exists m: nat :: AcceptedAt(es, m, h, prunes))
    && (forall m: nat :: AcceptedAt(es, m, h, prunes) ==> r.used == Some(es[m].now))
  }

  ghost predicate KnownAs(es: seq<Event>, j: nat, h: Hash, prunes: bool)
    requires IssuedAt(es, j, h)
  {
    var found := Find(After(es, prunes), h);
    if Dropped(es, j, h, prunes) then found.None? else found.Some? && RowIs(es, j, h, prunes, found.value)
  }

  lemma AcceptedNeedsIssue(es: seq<Event>, n: nat, m: nat, h: Hash, prunes: bool)
    requires FreshHashes(es) && m < n <= |es|
    ensures AcceptedAt(es, m, h, prunes) ==> WasIssued(es[..n], h)
  {
    if AcceptedAt(es, m, h, prunes) {
      AcceptedSpends(es, m, prunes);
      var j :| 0 <= j < m && es[..m][j].Issue? && es[..m][j].hash == h;
      assert es[..n][j].Issue? && es[..n][j].hash == h;
    }
  }

  lemma KnownWhenIssued(es: seq<Event>, h: Hash, prunes: bool)
    requires FreshHashes(es) && es != [] && IssuedAt(es, |es| - 1, h)
    ensures KnownAs(es, |es| - 1, h, prunes)
  {
    var (before, e) := (es[..|es| - 1], es[|es| - 1]);
    var rows := After(before, prunes);
    IssuedBefore(es, h);
    SoundAfter(before, prunes);
    FindNone(rows, h);
    FindRetained(rows, e.now, h);
    FindAppended(if prunes then Retained(rows, e.now) else rows, Issued(h, e.now, e.ttl), h);
    forall m: nat | m < |es| - 1 ensures !AcceptedAt(es, m, h, prunes) {
      AcceptedNeedsIssue(es, |es| - 1, m, h, prunes);
    }
  }

  /** A row goes exactly when its retention is over. */
  lemma StaleIffDrops(es: seq<Event>, j: nat, h: Hash, r: Row)
    requires es != [] && j < |es| - 1 && IssuedAt(es, j, h) && !es[|es| - 1].Consume?
    requires RowIs(es[..|es| - 1], j, h, true, r)
    ensures IsStale(r, es[|es| - 1].now) <==> DropsAt(es, j, |es| - 1, h)
  {
    var n := |es| - 1;
    forall m: nat | m < n { AcceptedPrefix(es, n, m, h, true); }
    if r.used.Some? {
      var m: nat :| AcceptedAt(es[..n], m, h, true);
      assert AcceptedAt(es, m, h, true) && r.used.value == es[m].now;
    }
  }

  /** Whether the last event drops the ticket, and what its row says then. */
  lemma KnownAfterPrune(es: seq<Event>, j: nat, h: Hash, prunes: bool)
    requires FreshHashes(es) && es != [] && j < |es| - 1 && IssuedAt(es, j, h) && !es[|es| - 1].Consume?
    requires KnownAs(es[..|es| - 1], j, h, prunes)
    ensures KnownAs(es, j, h, prunes)
  {
    var (n, e) := (|es| - 1, es[|es| - 1]);
    var rows := After(es[..n], prunes);
    SoundAfter(es[..n], prunes);
    forall m: nat | m < n { AcceptedPrefix(es, n, m, h, prunes); }
    forall k: nat | j < k < n { DropsPrefix(es, j, k, h); }
    FindRetained(rows, e.now, h);
    if e.Issue? { FindAppended(if prunes then Retained(rows, e.now) else rows, Issued(e.hash, e.now, e.ttl), h); }
    if prunes && Find(rows, h).Some? { StaleIffDrops(es, j, h, Find(rows, h).value); }
    if Dropped(es[..n], j, h, prunes) {
      var k: nat :| j < k < n && DropsAt(es[..n], j, k, h);
      assert DropsAt(es, j, k, h);
    }
    SameUses(es, h, prunes);
  }

  /** A last event that is no accepted consume of the hash. */
  lemma SameUses(es: seq<Event>, h: Hash, prunes: bool)
    requires es != [] && !AcceptedAt(es, |es| - 1, h, prunes)
    ensures forall m: nat :: AcceptedAt(es, m, h, prunes) <==> AcceptedAt(es[..|es| - 1], m, h, prunes)
  {
    forall m: nat | m < |es| - 1 { AcceptedPrefix(es, |es| - 1, m, h, prunes); }
  }

  lemma KnownAfterConsume(es: seq<Event>, j: nat, h: Hash, prunes: bool)
    requires FreshHashes(es) && es != [] && j < |es| - 1 && IssuedAt(es, j, h) && es[|es| - 1].Consume?
    requires KnownAs(es[..|es| - 1], j, h, prunes)
    ensures KnownAs(es, j, h, prunes)
  {
    var (n, e) := (|es| - 1, es[|es| - 1]);
    FindMarked(After(es[..n], prunes), e.hash, e.now, h);
    forall m: nat | m < n { AcceptedPrefix(es, n, m, h, prunes); }
    forall k: nat | j < k < n { DropsPrefix(es, j, k, h); }
    if Dropped(es[..n], j, h, prunes) {
      var k: nat :| j < k < n && DropsAt(es[..n], j, k, h);
      assert DropsAt(es, j, k, h);
    }
    if !AcceptedAt(es, n, h, prunes) { SameUses(es, h, prunes); }
  }

  lemma {:induction false} KnownAfter(es: seq<Event>, j: nat, h: Hash, prunes: bool)
    requires FreshHashes(es) && IssuedAt(es, j, h)
    ensures KnownAs(es, j, h, prunes)
    decreases |es|
  {
    if j == |es| - 1 {
      KnownWhenIssued(es, h, prunes);
    } else {
      IssuedBefore(es, h);
      KnownAfter(es[..|es| - 1], j, h, prunes);
      if es[|es| - 1].Consume? { KnownAfterConsume(es, j, h, prunes); } else { KnownAfterPrune(es, j, h, prunes); }
    }
  }

  /** The hash was issued at some time before `i` and has not been dropped since. */
  ghost predicate Known(es: seq<Event>, i: nat, h: Hash, prunes: bool)
    requires i <= |es|
  {
    exists j: nat :: IssuedAt(es[..i], j, h) && !Dropped(es[..i], j, h, prunes)
  }

  ghost predicate UsedBefore(es: seq<Event>, i: nat, h: Hash, prunes: bool) {
    exists m: nat :: m < i && AcceptedAt(es, m, h, prunes)
  }

  ghost predicate IssuedInTime(es: seq<Event>, i: nat, h: Hash, now: Time)
    requires i <= |es|
  {
    exists j: nat :: j < i && IssuedAt(es, j, h) && InTime(es[j], now)
  }

  lemma NotKnown(es: seq<Event>, i: nat, h: Hash, prunes: bool)
    requires FreshHashes(es) && i <= |es| && !Known(es, i, h, prunes)
    ensures Find(After(es[..i], prunes), h).None?
  {
    if WasIssued(es[..i], h) {
      var j :| 0 <= j < i && es[..i][j].Issue? && es[..i][j].hash == h;
      assert IssuedAt(es[..i], j, h);
      KnownAfter(es[..i], j, h, prunes);
    } else {
      SoundAfter(es[..i], prunes);
      FindNone(After(es[..i], prunes), h);
    }
  }

  lemma UsesOf(es: seq<Event>, i: nat, h: Hash, prunes: bool)
    requires i <= |es|
    ensures UsedBefore(es, i, h, prunes) <==> exists m: nat :: AcceptedAt(es[..i], m, h, prunes)
  {
    forall m: nat | m < i { AcceptedPrefix(es, i, m, h, prunes); }
    if m: nat :| AcceptedAt(es[..i], m, h, prunes) { assert m < i && AcceptedAt(es, m, h, prunes); }
  }

  /** Every answer of either store, over any run with fresh hashes and any clock: accepted exactly if
      the length is right, the ticket is known, unused and in time; each rejection in that order. */
  lemma AnsweredExactly(es: seq<Event>, i: nat, prunes: bool)
    requires FreshHashes(es) && i < |es| && es[i].Consume?
    ensures var (r, h, now) := (AnswerAt(es, i, prunes), es[i].hash, es[i].now);
      var known := es[i].length == 43 && Known(es, i, h, prunes);
      var used := UsedBefore(es, i, h, prunes);
      && (r.Accepted? <==> known && !used && IssuedInTime(es, i, h, now))
      && (r == Rejected(Unknown) <==> !known)
      && (r == Rejected(AlreadyUsed) <==> known && used)
      && (r == Rejected(Expired) <==> known && !used && !IssuedInTime(es, i, h, now))
  {
    var h := es[i].hash;
    UsesOf(es, i, h, prunes);
    if Known(es, i, h, prunes) {
      var j: nat :| IssuedAt(es[..i], j, h) && !Dropped(es[..i], j, h, prunes);
      KnownAfter(es[..i], j, h, prunes);
      OneIssue(es, i, j, h, es[i].now);
    } else {
      NotKnown(es, i, h, prunes);
    }
  }

  lemma OneIssue(es: seq<Event>, i: nat, j: nat, h: Hash, now: Time)
    requires FreshHashes(es) && i <= |es| && IssuedAt(es[..i], j, h)
    ensures IssuedInTime(es, i, h, now) <==> now < SaturatingAdd(es[j].now, es[j].ttl)
  {
    assert IssuedAt(es, j, h);
  }

  /** A ticket is accepted if and only if it has the right length, was issued and is in time, and no
      consume of it was accepted before: always in the store that never prunes, and in the one that
      does while the clock does not run backwards. */
  lemma AcceptedIff(es: seq<Event>, i: nat, prunes: bool)
    requires FreshHashes(es) && i < |es| && es[i].Consume? && (prunes ==> Monotone(es))
    ensures AnswerAt(es, i, prunes).Accepted? <==>
      && es[i].length == 43 && IssuedInTime(es, i, es[i].hash, es[i].now)
      && !UsedBefore(es, i, es[i].hash, prunes)
  {
    var h := es[i].hash;
    AnsweredExactly(es, i, false);
    if IssuedInTime(es, i, h, es[i].now) {
      var j: nat :| j < i && IssuedAt(es, j, h) && InTime(es[j], es[i].now);
      assert IssuedAt(es[..i], j, h) && !Dropped(es[..i], j, h, false);
    }
    if prunes {
      PruningIsInvisible(es, i);
      forall m: nat | m < i && es[m].Consume? ensures AcceptedAt(es, m, h, true) <==> AcceptedAt(es, m, h, false) {
        PruningIsInvisible(es, m);
      }
    }
  }

  // --- the store ---

  /** The first row with the hash is at `k`. */
  predicate First(rows: seq<Row>, h: Hash, k: nat) {
    k < |rows| && rows[k].hash == h && forall i :: 0 <= i < k ==> rows[i].hash != h
  }

  class TicketStore {
    var rows: seq<Row>

    constructor ()
      ensures rows == []
    {
      rows := [];
    }

    /** Rows past their retention are dropped, the others keep their order. */
    method Prune(now: Time) returns (removed: nat)
      modifies this
      ensures rows == Retained(old(rows), now) && removed == |old(rows)| - |rows|
    {
      var kept: seq<Row> := [];
      for i := 0 to |rows|
        invariant rows == old(rows) && |kept| <= i
        invariant kept + Retained(rows[i..], now) == Retained(rows, now)
      {
        assert rows[i..][1..] == rows[i + 1..];
        if !IsStale(rows[i], now) {
          kept := kept + [rows[i]];
        }
      }
      removed := |rows| - |kept|;
      rows := kept;
    }

    method IssueAt(h: Hash, now: Time, ttl: Time) returns (r: Row)
      modifies this
      ensures rows == Step(old(rows), Issue(h, now, ttl), true) && r == Issued(h, now, ttl)
    {
      r := Issued(h, now, ttl);
      var _ := Prune(now);
      rows := rows + [r];
    }

    method SweepExpired(now: Time) returns (removed: nat)
      modifies this
      ensures rows == Step(old(rows), Sweep(now), true) && removed == |old(rows)| - |rows|
    {
      removed := Prune(now);
    }

    /** The index of the first row with the hash, if there is one. */
    method IndexOf(h: Hash) returns (k: nat)
      ensures k <= |rows| && forall i :: 0 <= i < k ==> rows[i].hash != h
      ensures k < |rows| ==> rows[k].hash == h
      ensures k == |rows| <==> Find(rows, h).None?
    {
      k := 0;
      while k < |rows| && rows[k].hash != h
        invariant k <= |rows| && forall i :: 0 <= i < k ==> rows[i].hash != h
      {
        k := k + 1;
      }
      FindNone(rows, h);
    }

    method ConsumeAt(length: nat, h: Hash, now: Time) returns (r: Outcome)
      modifies this
      ensures r == Answer(old(rows), length, h, now)
      ensures rows == Step(old(rows), Consume(length, h, now), true)
      ensures r.Accepted? <==>
        length == 43 && exists k: nat :: First(old(rows), h, k) && old(rows)[k].used.None? && now < old(rows)[k].expires
      ensures forall k: nat :: length == 43 && First(old(rows), h, k) ==>
        var row := old(rows)[k];
        if row.used.Some? then r == Rejected(AlreadyUsed)
        else if now >= row.expires then r == Rejected(Expired)
        else r == Accepted(row.(used := Some(now))) && rows == old(rows)[k := row.(used := Some(now))]
      ensures length != 43 || (forall i :: 0 <= i < |old(rows)| ==> old(rows)[i].hash != h) ==> r == Rejected(Unknown)
      ensures r.Rejected? ==> rows == old(rows)
    {
      if length != TICKET_LEN {
        return Rejected(Unknown);
      }
      var k := IndexOf(h);
      if k == |rows| {
        return Rejected(Unknown);
      }
      FirstRow(rows, h, k, now);
      assert First(rows, h, k) && forall j: nat :: First(rows, h, j) ==> j == k;
      if rows[k].used.Some? {
        return Rejected(AlreadyUsed);
      }
      if now >= rows[k].expires {
        return Rejected(Expired);
      }
      r := Accepted(rows[k].(used := Some(now)));
      rows := rows[k := rows[k].(used := Some(now))];
    }
  }
}
