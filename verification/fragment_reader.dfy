/** The read loop's fragment branch, with its byte counter in 64-bit arithmetic. */
module FragmentReaderCode {
  import opened Collections
  import opened Reassembly

  const WORD: nat := 0x1_0000_0000_0000_0000

  /** A buffer with the bytes it is counted to hold. */
  datatype Counted = Counted(buf: Buf, bufferedBytes: nat)

  function WrappingSub(a: nat, b: nat): nat
    requires a < WORD && b < WORD
  {
    if a >= b then a - b else a - b + WORD
  }

  function WrappingAdd(a: nat, b: nat): nat {
    (a + b) % WORD
  }

  /** A difference that wraps below zero is undone by the sum it goes into. */
  lemma WrapsBack(count: nat, added: nat, replaced: nat)
    requires replaced <= count && count + added < WORD
    ensures WrappingAdd(count, WrappingSub(added, replaced)) == count + added - replaced
  {
  }

  lemma {:induction false} BytesReplaced(m: map<nat, seq<Byte>>, k: nat, data: seq<Byte>, n: nat)
    ensures var old' := if k in m then |m[k]| else 0;
      Bytes(m[k := data], n) == if k < n then Bytes(m, n) + |data| - old' else Bytes(m, n)
    ensures k < n && k in m ==> |m[k]| <= Bytes(m, n)
  {
    if n > 0 { BytesReplaced(m, k, data, n - 1); }
  }

  lemma {:induction false} BytesNone(n: nat)
    ensures Bytes(map[], n) == 0
  {
    if n > 0 { BytesNone(n - 1); }
  }

  lemma {:induction false} JoinedNone(m: map<nat, seq<Byte>>, n: nat)
    requires forall k :: k in m ==> k >= n
    ensures Joined(m, n) == []
  {
    if n > 0 { JoinedNone(m, n - 1); }
  }

  /** The least key comes first. */
  lemma {:induction false} JoinedLeast(m: map<nat, seq<Byte>>, k: nat, n: nat)
    requires k in m && k < n && forall j :: j in m ==> k <= j
    ensures Joined(m, n) == m[k] + Joined(m - {k}, n)
  {
    if k == n - 1 {
      JoinedNone(m, n - 1);
      JoinedNone(m - {k}, n);
    } else {
      JoinedLeast(m, k, n - 1);
    }
  }

  method Least(keys: set<nat>) returns (k: nat)
    requires keys != {}
    ensures k in keys && forall j :: j in keys ==> k <= j
  {
    k :| k in keys;
    var rest := keys - {k};
    while rest != {}
      invariant rest <= keys && k in keys
      invariant forall j :: j in keys && j !in rest ==> k <= j
    {
      var j :| j in rest;
      rest := rest - {j};
      if j < k { k := j; }
    }
  }

  /** The stored fragments, taken out in sequence order. */
  method Reassemble(b: Buf) returns (out: seq<Byte>)
    requires forall k :: k in b.fragments ==> k < b.total
    ensures out == Joined(b.fragments, b.total)
  {
    out := [];
    var rest: map<nat, seq<Byte>> := b.fragments;
    while rest != map[]
      invariant forall k :: k in rest ==> k < b.total
      invariant out + Joined(rest, b.total) == Joined(b.fragments, b.total)
      decreases |rest|
    {
      assert rest.Keys != {};
      var k := Least(rest.Keys);
      JoinedLeast(rest, k, b.total);
      out := out + rest[k];
      rest := rest - {k};
    }
    JoinedNone(rest, b.total);
  }

  ghost function Plain(bufs: map<Stream, Counted>): map<Stream, Buf> {
    map s | s in bufs :: bufs[s].buf
  }

  ghost predicate Exact(bufs: map<Stream, Counted>) {
    forall s :: s in bufs ==> bufs[s].bufferedBytes == Bytes(bufs[s].buf.fragments, bufs[s].buf.total)
  }

  lemma PlainPut(bufs: map<Stream, Counted>, s: Stream, c: Counted)
    requires Exact(bufs)
    ensures Plain(bufs[s := c]) == Plain(bufs)[s := c.buf]
    ensures c.bufferedBytes == Bytes(c.buf.fragments, c.buf.total) ==> Exact(bufs[s := c])
    ensures Plain(bufs - {s}) == Plain(bufs) - {s} && Exact(bufs - {s})
  {
  }

  /** One pass over the table; a stream goes once its time is up. */
  method PruneBufs(l: Limits, bufs: map<Stream, Counted>, now: Time) returns (kept: map<Stream, Counted>)
    requires Exact(bufs)
    ensures Plain(kept) == Pruned(l, Plain(bufs), now) && Exact(kept)
  {
    kept := bufs;
    var rest := bufs.Keys;
    while rest != {}
      invariant rest <= kept.Keys <= bufs.Keys
      invariant forall s :: s in kept ==> kept[s] == bufs[s]
      invariant forall s :: s in bufs && s !in rest ==> (s in kept <==> Since(now, bufs[s].buf.firstSeen) < l.timeout)
    {
      var s :| s in rest;
      rest := rest - {s};
      if Since(now, kept[s].buf.firstSeen) >= l.timeout {
        kept := kept - {s};
      }
    }
  }

  // --- a fragment, said of the table before it ---

  /** What has arrived of a stream, with `f` in place of what came before under its sequence. */
  function With(buffers: map<Stream, Buf>, f: Input): map<nat, seq<Byte>>
    requires f.Fragment?
  {
    (if f.stream in buffers then buffers[f.stream].fragments else map[])[f.sequence := f.data]
  }

  /** The checks: a sequence below its total; the total its stream began with, or room for one more
      stream; and at most a megabyte. */
  ghost predicate Fits(l: Limits, buffers: map<Stream, Buf>, f: Input)
    requires f.Fragment?
  {
    && f.sequence < f.total
    && (if f.stream in buffers then buffers[f.stream].total == f.total else |buffers| < l.maxStreams)
    && Bytes(With(buffers, f), f.total) <= 1_048_576
  }

  /** No other stream changes; this one is gone if all its sequences are there, and has them stored
      otherwise. */
  ghost predicate TakesIn(before: map<Stream, Buf>, after: map<Stream, Buf>, f: Input)
    requires f.Fragment?
  {
    && after - {f.stream} == before - {f.stream}
    && (f.stream in after <==> |With(before, f)| != f.total)
    && (f.stream in after ==> after[f.stream].fragments == With(before, f) && after[f.stream].total == f.total)
  }

  /** The frame that is then handed on, with the target of the stream's first fragment. */
  ghost function Completes(before: map<Stream, Buf>, f: Input): seq<Frame>
    requires f.Fragment?
  {
    if |With(before, f)| != f.total then []
    else [Frame(f.magic, f.flags, if f.stream in before then before[f.stream].target else f.target,
                Joined(With(before, f), f.total))]
  }

  lemma TakeIs(l: Limits, buffers: map<Stream, Buf>, f: Input, now: Time)
    requires f.Fragment?
    ensures var (r, out) := Take(l, buffers, f, now);
      && (r.open <==> Fits(l, buffers, f))
      && (r.open ==> TakesIn(buffers, r.buffers, f))
      && (if out.Some? then [out.value] else []) == if r.open then Completes(buffers, f) else []
  {
  }

  class FragmentReader {
    const limits: Limits
    var bufs: map<Stream, Counted>
    var open: bool
    var incoming: seq<Frame>   // what has been handed to the router

    ghost function Abs(): Reader
      reads this
    {
      Reader(Plain(bufs), open)
    }

    /** The counters are exact and the table is within its bounds. */
    ghost predicate Valid()
      reads this
    {
      Bounded(limits, Abs()) && Exact(bufs)
    }

    constructor (limits: Limits)
      ensures Valid() && Abs() == Reader(map[], true) && incoming == [] && this.limits == limits
    {
      this.limits := limits;
      bufs, open, incoming := map[], true, [];
    }

    /** Streams whose time is up are discarded. */
    method Prune(now: Time)
      requires Valid()
      modifies this`bufs
      ensures Valid() && Abs() == Reader(Pruned(limits, old(Abs()).buffers, now), open)
    {
      PrunedBounded(limits, Abs(), now);
      bufs := PruneBufs(limits, bufs, now);
    }

    /** The stream's buffer, or a new one. */
    function Entry(f: Input, now: Time): Counted
      requires f.Fragment?
      reads this
    {
      if f.stream in bufs then bufs[f.stream] else Counted(Buf(map[], f.total, f.target, now), 0)
    }

    /** Header, total, stream cap: the checks before the bytes are counted. */
    predicate HeaderOk(f: Input)
      requires f.Fragment?
      reads this
    {
      && f.total != 0 && f.sequence < f.total
      && if f.stream in bufs then bufs[f.stream].buf.total == f.total else |bufs| < limits.maxStreams
    }

    /** The counted size with the fragment stored, as the code adds and subtracts it. */
    lemma CountAfter(f: Input, now: Time)
      requires Valid() && f.Fragment? && HeaderOk(f) && |f.data| <= MAX_PAYLOAD_SIZE
      ensures var e := Entry(f, now);
        var replaced := if f.sequence in e.buf.fragments then |e.buf.fragments[f.sequence]| else 0;
        && replaced <= e.bufferedBytes <= MAX_PAYLOAD_SIZE
        && e.bufferedBytes + |f.data| - replaced == Bytes(Stored(Abs().buffers, f, now).fragments, f.total)
        && WrappingAdd(e.bufferedBytes, WrappingSub(|f.data|, replaced)) == e.bufferedBytes + |f.data| - replaced
    {
      var e := Entry(f, now);
      assert f.stream in bufs ==> Abs().buffers[f.stream] == bufs[f.stream].buf;
      BytesReplaced(e.buf.fragments, f.sequence, f.data, f.total);
      if f.stream !in bufs { BytesNone(f.total); }
      WrapsBack(e.bufferedBytes, |f.data|, if f.sequence in e.buf.fragments then |e.buf.fragments[f.sequence]| else 0);
    }

    /** The checks in order; the size is counted, not summed. */
    method Check(f: Input, now: Time) returns (ok: bool)
      requires Valid() && f.Fragment? && |f.data| <= MAX_PAYLOAD_SIZE
      ensures ok <==> Accepts(limits, Abs().buffers, f, now)
    {
      assert Abs().buffers.Keys == bufs.Keys;
      if !HeaderOk(f) {
        return false;
      }
      CountAfter(f, now);
      var entry := Entry(f, now);
      var replaced := if f.sequence in entry.buf.fragments then |entry.buf.fragments[f.sequence]| else 0;
      ok := entry.bufferedBytes + |f.data| - replaced <= MAX_PAYLOAD_SIZE;
    }

    /** The buffer that results, with its counter. */
    method Store(f: Input, now: Time) returns (stored: Counted)
      requires Valid() && f.Fragment? && |f.data| <= MAX_PAYLOAD_SIZE && Accepts(limits, Abs().buffers, f, now)
      ensures stored.buf == Stored(Abs().buffers, f, now)
      ensures stored.bufferedBytes == Bytes(stored.buf.fragments, stored.buf.total)
      ensures forall k :: k in stored.buf.fragments ==> k < stored.buf.total
    {
      assert Abs().buffers.Keys == bufs.Keys;
      CountAfter(f, now);
      StoredBuf(limits, Abs(), f, now);
      var entry := Entry(f, now);
      var replaced := if f.sequence in entry.buf.fragments then |entry.buf.fragments[f.sequence]| else 0;
      var count := WrappingAdd(entry.bufferedBytes, WrappingSub(|f.data|, replaced));
      stored := Counted(entry.buf.(fragments := entry.buf.fragments[f.sequence := f.data]), count);
    }

    method OnFragment(f: Input, now: Time)
      requires Valid() && open && f.Fragment? && |f.data| <= MAX_PAYLOAD_SIZE
      modifies this
      ensures Valid()
      ensures open <==> Fits(limits, old(Abs()).buffers, f)
      ensures open ==> TakesIn(old(Abs()).buffers, Abs().buffers, f)
      ensures incoming == old(incoming) + if open then Completes(old(Abs()).buffers, f) else []
      ensures var (r, out) := Take(limits, old(Abs()).buffers, f, now);
        Abs() == r && incoming == old(incoming) + if out.Some? then [out.value] else []
    {
      BoundedTake(limits, Abs(), f, now);
      TakeIs(limits, Abs().buffers, f, now);
      var ok := Check(f, now);
      if !ok {
        open := false;
        return;
      }
      var stored := Store(f, now);
      PlainPut(bufs, f.stream, stored);
      if |stored.buf.fragments| == stored.buf.total {
        var payload := Reassemble(stored.buf);
        bufs := bufs - {f.stream};
        incoming := incoming + [Frame(f.magic, f.flags, stored.buf.target, payload)];
      } else {
        bufs := bufs[f.stream := stored];
      }
    }

    /** One frame off the wire. */
    method OnFrame(e: Event)
      requires Valid() && open && (e.input.Fragment? ==> |e.input.data| <= MAX_PAYLOAD_SIZE)
      modifies this
      ensures Valid()
      ensures var (r, out) := Step(limits, old(Abs()), e);
        Abs() == r && incoming == old(incoming) + if out.Some? then [out.value] else []
    {
      Prune(e.now);
      match e.input {
        case Whole(frame) => incoming := incoming + [frame];
        case ShortHeader => open := false;
        case Fragment(_, _, _, _, _, _, _) => OnFragment(e.input, e.stored);
      }
    }
  }
}
