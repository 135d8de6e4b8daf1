/** Fragment reassembly on one connection: what the reader stores, when it drops the connection,
    and what it dispatches, over any interleaving of streams. */
module Reassembly {
  import opened Collections

  type Byte = x: int | 0 <= x < 256
  type Stream = nat
  type Time = nat

  const MAX_PAYLOAD_SIZE: nat := 1_048_576

  /** A frame as it is dispatched. `flags` leaves out the fragment flag. */
  datatype Frame = Frame(magic: nat, flags: nat, target: nat, payload: seq<Byte>)

  datatype Input =
    | Whole(frame: Frame)
    | ShortHeader    // the fragment flag is set but the payload holds no header
    | Fragment(stream: Stream, sequence: nat, total: nat, magic: nat, flags: nat, target: nat, data: seq<Byte>)

  /** What a stream has received so far. */
  datatype Buf = Buf(fragments: map<nat, seq<Byte>>, total: nat, target: nat, firstSeen: Time)

  datatype Limits = Limits(maxStreams: nat, timeout: Time)

  datatype Reader = Reader(buffers: map<Stream, Buf>, open: bool)

  /** A frame with the clock at its arrival and, a little later, when it may open a stream. */
  datatype Event = Event(input: Input, now: Time, stored: Time)

  // --- contents ---

  /** The bytes stored under sequences below `n`. */
  function Bytes(fragments: map<nat, seq<Byte>>, n: nat): nat {
    if n == 0 then 0
    else Bytes(fragments, n - 1) + if n - 1 in fragments then |fragments[n - 1]| else 0
  }

  /** The fragments with sequences below `n`, in sequence order. */
  function Joined(fragments: map<nat, seq<Byte>>, n: nat): seq<Byte> {
    if n == 0 then []
    else Joined(fragments, n - 1) + if n - 1 in fragments then fragments[n - 1] else []
  }

  // --- one frame ---

  /** Time passed, zero if the clock reads earlier. */
  function Since(now: Time, before: Time): Time {
    if now >= before then now - before else 0
  }

  function Pruned(l: Limits, buffers: map<Stream, Buf>, now: Time): map<Stream, Buf> {
    map s | s in buffers && Since(now, buffers[s].firstSeen) < l.timeout :: buffers[s]
  }

  /** The stream's buffer with the fragment stored, in place of an earlier one of its sequence. */
  function Stored(buffers: map<Stream, Buf>, f: Input, now: Time): Buf
    requires f.Fragment?
  {
    var b := if f.stream in buffers then buffers[f.stream] else Buf(map[], f.total, f.target, now);
    b.(fragments := b.fragments[f.sequence := f.data])
  }

  predicate Accepts(l: Limits, buffers: map<Stream, Buf>, f: Input, now: Time)
    requires f.Fragment?
  {
    && f.total != 0 && f.sequence < f.total
    && (if f.stream in buffers then buffers[f.stream].total == f.total else |buffers| < l.maxStreams)
    && Bytes(Stored(buffers, f, now).fragments, f.total) <= MAX_PAYLOAD_SIZE
  }

  predicate Complete(b: Buf) {
    |b.fragments| == b.total
  }

  /** A fragment stored, and the frame it completes; one not accepted drops the connection. */
  function Take(l: Limits, buffers: map<Stream, Buf>, f: Input, now: Time): (Reader, Option<Frame>)
    requires f.Fragment?
  {
    if !Accepts(l, buffers, f, now) then (Reader(buffers, false), None)
    else
      var b := Stored(buffers, f, now);
      if Complete(b) then
        (Reader(buffers - {f.stream}, true), Some(Frame(f.magic, f.flags, b.target, Joined(b.fragments, b.total))))
      else (Reader(buffers[f.stream := b], true), None)
  }

  /** The reader after a frame, and the frame it dispatches. */
  function Step(l: Limits, r: Reader, e: Event): (Reader, Option<Frame>) {
    var buffers := Pruned(l, r.buffers, e.now);
    if !r.open then (r, None)
    else match e.input
      case Whole(frame) => (Reader(buffers, true), Some(frame))
      case ShortHeader => (Reader(buffers, false), None)
      case Fragment(_, _, _, _, _, _, _) => Take(l, buffers, e.input, e.stored)
  }

  function After(l: Limits, r: Reader, es: seq<Event>): Reader {
    if es == [] then r else Step(l, After(l, r, es[..|es| - 1]), es[|es| - 1]).0
  }

  /** What the reader dispatches on the frame at `i`. */
  function Emitted(l: Limits, r: Reader, es: seq<Event>, i: nat): Option<Frame>
    requires i < |es|
  {
    Step(l, After(l, r, es[..i]), es[i]).1
  }

  // --- bounds ---

  ghost predicate BoundedBuf(b: Buf) {
    && (forall k :: k in b.fragments ==> k < b.total)
    && |b.fragments| < b.total
    && Bytes(b.fragments, b.total) <= MAX_PAYLOAD_SIZE
  }

  ghost predicate Bounded(l: Limits, r: Reader) {
    |r.buffers| <= l.maxStreams && forall s :: s in r.buffers ==> BoundedBuf(r.buffers[s])
  }

  lemma PrunedBounded(l: Limits, r: Reader, now: Time)
    requires Bounded(l, r)
    ensures Bounded(l, Reader(Pruned(l, r.buffers, now), r.open))
  {
    SubsetSize(Pruned(l, r.buffers, now).Keys, r.buffers.Keys);
  }

  function Below(n: nat): (s: set<nat>)
    ensures |s| == n && forall k :: k in s <==> 0 <= k < n
  {
    if n == 0 then {} else Below(n - 1) + {n - 1}
  }

  /** A buffer whose keys lie below `total` is complete exactly when it has all of them. */
  lemma CompleteMeansAll(b: Buf)
    requires forall k :: k in b.fragments ==> k < b.total
    ensures |b.fragments| <= b.total
    ensures Complete(b) <==> forall k :: 0 <= k < b.total ==> k in b.fragments
  {
    assert b.fragments.Keys <= Below(b.total);
    SubsetSize(b.fragments.Keys, Below(b.total));
    if forall k :: 0 <= k < b.total ==> k in b.fragments {
      assert b.fragments.Keys == Below(b.total);
    }
  }

  lemma StoredBuf(l: Limits, r: Reader, f: Input, now: Time)
    requires Bounded(l, r) && f.Fragment? && Accepts(l, r.buffers, f, now)
    ensures var b := Stored(r.buffers, f, now);
      b.total == f.total && (forall k :: k in b.fragments ==> k < b.total) && (!Complete(b) ==> BoundedBuf(b))
  {
    var b := Stored(r.buffers, f, now);
    assert forall k :: k in b.fragments ==> k < b.total;
    CompleteMeansAll(b);
  }

  lemma WithStream(l: Limits, r: Reader, s: Stream, b: Buf)
    requires Bounded(l, r) && (s in r.buffers || |r.buffers| < l.maxStreams)
    ensures BoundedBuf(b) ==> Bounded(l, Reader(r.buffers[s := b], true))
    ensures Bounded(l, Reader(r.buffers - {s}, true))
  {
    SubsetSize((r.buffers - {s}).Keys, r.buffers.Keys);
    assert r.buffers[s := b].Keys == r.buffers.Keys + {s};
  }

  lemma BoundedTake(l: Limits, r: Reader, f: Input, now: Time)
    requires Bounded(l, r) && f.Fragment?
    ensures Bounded(l, Take(l, r.buffers, f, now).0)
  {
    if Accepts(l, r.buffers, f, now) {
      StoredBuf(l, r, f, now);
      WithStream(l, r, f.stream, Stored(r.buffers, f, now));
    }
  }

  lemma BoundedStep(l: Limits, r: Reader, e: Event)
    requires Bounded(l, r)
    ensures Bounded(l, Step(l, r, e).0)
  {
    PrunedBounded(l, r, e.now);
    if e.input.Fragment? { BoundedTake(l, Reader(Pruned(l, r.buffers, e.now), r.open), e.input, e.stored); }
  }

  /** In every run from an empty table the buffers keep their bounds. */
  lemma {:induction false} BoundedRun(l: Limits, es: seq<Event>)
    ensures Bounded(l, After(l, Reader(map[], true), es))
  {
    if es != [] {
      BoundedRun(l, es[..|es| - 1]);
      BoundedStep(l, After(l, Reader(map[], true), es[..|es| - 1]), es[|es| - 1]);
    }
  }

  // --- one stream among many ---

  predicate OnStream(e: Event, s: Stream) {
    e.input.Fragment? && e.input.stream == s
  }

  /** The fragments of `s`, in arrival order. */
  function OfStream(es: seq<Event>, s: Stream): (fs: seq<Input>)
    ensures forall i :: 0 <= i < |fs| ==> fs[i].Fragment? && fs[i].stream == s
  {
    if es == [] then []
    else
      var fs := OfStream(es[..|es| - 1], s);
      if OnStream(es[|es| - 1], s) then fs + [es[|es| - 1].input] else fs
  }

  /** When the first fragment of `s` was stored. */
  function FirstSeen(es: seq<Event>, s: Stream): Time
    requires OfStream(es, s) != []
  {
    var before := es[..|es| - 1];
    if OfStream(before, s) != [] then FirstSeen(before, s) else es[|es| - 1].stored
  }

  /** No frame arrives after the stream's time is up. */
  ghost predicate OnTime(l: Limits, es: seq<Event>, s: Stream) {
    forall j :: 0 <= j < |es| && OfStream(es[..j], s) != [] ==> Since(es[j].now, FirstSeen(es[..j], s)) < l.timeout
  }

  ghost predicate Has(fs: seq<Input>, k: nat)
    requires forall i :: 0 <= i < |fs| ==> fs[i].Fragment?
  {
    exists i :: 0 <= i < |fs| && fs[i].sequence == k
  }

  /** Every sequence of the stream has arrived. */
  ghost predicate Covered(fs: seq<Input>)
    requires forall i :: 0 <= i < |fs| ==> fs[i].Fragment?
  {
    fs != [] && forall k: nat :: k < fs[0].total ==> Has(fs, k)
  }

  /** The bytes that came last under `k`. */
  function Latest(fs: seq<Input>, k: nat): seq<Byte>
    requires forall i :: 0 <= i < |fs| ==> fs[i].Fragment?
  {
    if fs == [] then []
    else if fs[|fs| - 1].sequence == k then fs[|fs| - 1].data
    else Latest(fs[..|fs| - 1], k)
  }

  function Payload(fs: seq<Input>, n: nat): seq<Byte>
    requires forall i :: 0 <= i < |fs| ==> fs[i].Fragment?
  {
    if n == 0 then [] else Payload(fs, n - 1) + Latest(fs, n - 1)
  }

  /** The buffer holds what arrived last under each sequence. */
  ghost predicate Holds(b: Buf, fs: seq<Input>)
    requires forall i :: 0 <= i < |fs| ==> fs[i].Fragment?
  {
    && fs != [] && b.total == fs[0].total && b.target == fs[0].target
    && (forall i :: 0 <= i < |fs| ==> fs[i].sequence < b.total)
    && (forall k: nat :: k in b.fragments <==> Has(fs, k))
    && forall k :: k in b.fragments ==> b.fragments[k] == Latest(fs, k)
  }

  lemma HasSnoc(fs: seq<Input>, f: Input, k: nat)
    requires (forall i :: 0 <= i < |fs| ==> fs[i].Fragment?) && f.Fragment?
    ensures Has(fs + [f], k) <==> Has(fs, k) || f.sequence == k
    ensures Latest(fs + [f], k) == if f.sequence == k then f.data else Latest(fs, k)
  {
    var gs := fs + [f];
    assert gs[..|gs| - 1] == fs && gs[|fs|] == f;
    if Has(fs, k) {
      var i :| 0 <= i < |fs| && fs[i].sequence == k;
      assert gs[i].sequence == k;
    }
  }

  lemma StoredHolds(buffers: map<Stream, Buf>, fs: seq<Input>, f: Input, now: Time)
    requires (forall i :: 0 <= i < |fs| ==> fs[i].Fragment?) && f.Fragment? && f.sequence < f.total
    requires if f.stream in buffers then Holds(buffers[f.stream], fs) && buffers[f.stream].total == f.total
             else fs == []
    ensures Holds(Stored(buffers, f, now), fs + [f])
  {
    var b := Stored(buffers, f, now);
    forall k: nat { HasSnoc(fs, f, k); }
  }

  /** Where the stream stands: no fragment yet and no buffer, or a buffer with what arrived. */
  ghost predicate Tracks(r: Reader, es: seq<Event>, s: Stream) {
    var fs := OfStream(es, s);
    if fs == [] then s !in r.buffers
    else s in r.buffers && Holds(r.buffers[s], fs) && r.buffers[s].firstSeen == FirstSeen(es, s)
  }

  lemma CompleteIffCovered(b: Buf, fs: seq<Input>)
    requires (forall i :: 0 <= i < |fs| ==> fs[i].Fragment?) && Holds(b, fs)
    ensures Complete(b) <==> Covered(fs)
  {
    CompleteMeansAll(b);
  }

  lemma {:induction false} JoinedPayload(b: Buf, fs: seq<Input>, n: nat)
    requires (forall i :: 0 <= i < |fs| ==> fs[i].Fragment?) && Holds(b, fs) && Covered(fs) && n <= b.total
    ensures Joined(b.fragments, n) == Payload(fs, n)
  {
    if n > 0 {
      JoinedPayload(b, fs, n - 1);
      assert Has(fs, n - 1);
    }
  }

  /** A frame of another stream, or none of a stream, leaves this one's buffer alone. */
  lemma TracksOther(l: Limits, r: Reader, es: seq<Event>, s: Stream)
    requires es != [] && !OnStream(es[|es| - 1], s)
    requires var before := es[..|es| - 1];
      && Tracks(r, before, s)
      && (OfStream(before, s) != [] ==> Since(es[|es| - 1].now, FirstSeen(before, s)) < l.timeout)
    requires Step(l, r, es[|es| - 1]).0.open
    ensures Tracks(Step(l, r, es[|es| - 1]).0, es, s)
  {
  }

  /** A frame keeps the stream's buffer in step with what has arrived, until the stream is covered. */
  lemma TracksStep(l: Limits, r: Reader, es: seq<Event>, s: Stream)
    requires es != []
    requires var before := es[..|es| - 1];
      && Tracks(r, before, s)
      && (OfStream(before, s) != [] ==> Since(es[|es| - 1].now, FirstSeen(before, s)) < l.timeout)
    requires Step(l, r, es[|es| - 1]).0.open && !Covered(OfStream(es, s))
    ensures Tracks(Step(l, r, es[|es| - 1]).0, es, s)
    ensures OnStream(es[|es| - 1], s) ==> Step(l, r, es[|es| - 1]).1.None?
  {
    var e := es[|es| - 1];
    var before := es[..|es| - 1];
    if OnStream(e, s) {
      var buffers := Pruned(l, r.buffers, e.now);
      StoredHolds(buffers, OfStream(before, s), e.input, e.stored);
      CompleteIffCovered(Stored(buffers, e.input, e.stored), OfStream(es, s));
    } else {
      TracksOther(l, r, es, s);
    }
  }

  lemma TracksRun(l: Limits, r: Reader, es: seq<Event>, s: Stream)
    requires s !in r.buffers && OnTime(l, es, s) && After(l, r, es).open
    requires forall i :: 0 <= i <= |es| ==> !Covered(OfStream(es[..i], s))
    ensures Tracks(After(l, r, es), es, s)
    ensures forall i :: 0 <= i < |es| && OnStream(es[i], s) ==> Emitted(l, r, es, i).None?
  {
    if es != [] {
      var before := es[..|es| - 1];
      Prefixes(l, es, s);
      TracksRun(l, r, before, s);
      assert es[..|es|] == es;
      TracksStep(l, After(l, r, before), es, s);
      forall i | 0 <= i < |es| && OnStream(es[i], s) ensures Emitted(l, r, es, i).None? {
        if i < |before| { assert before[..i] == es[..i] && Emitted(l, r, before, i).None?; }
      }
    }
  }

  lemma Prefixes(l: Limits, es: seq<Event>, s: Stream)
    requires es != []
    ensures var before := es[..|es| - 1];
      && (OnTime(l, es, s) ==> OnTime(l, before, s))
      && forall i :: 0 <= i <= |before| ==> before[..i] == es[..i]
  {
    var before := es[..|es| - 1];
    assert forall i :: 0 <= i <= |before| ==> before[..i] == es[..i];
  }

  /** Whatever else arrives in between, the fragment that covers the stream dispatches exactly one
      frame, with the bytes that came last under each sequence, in sequence order; no earlier
      fragment of the stream dispatches anything, and nothing of the stream is left behind. */
  lemma ReassemblesFrom(l: Limits, r: Reader, es: seq<Event>, s: Stream)
    requires s !in r.buffers && es != [] && OnStream(es[|es| - 1], s)
    requires OnTime(l, es, s) && After(l, r, es).open
    requires Covered(OfStream(es, s)) && forall i :: 0 <= i < |es| ==> !Covered(OfStream(es[..i], s))
    ensures var (fs, last) := (OfStream(es, s), es[|es| - 1].input);
      Emitted(l, r, es, |es| - 1) == Some(Frame(last.magic, last.flags, fs[0].target, Payload(fs, fs[0].total)))
    ensures forall i :: 0 <= i < |es| - 1 && OnStream(es[i], s) ==> Emitted(l, r, es, i).None?
    ensures s !in After(l, r, es).buffers
  {
    var (e, before) := (es[|es| - 1], es[..|es| - 1]);
    Prefixes(l, es, s);
    TracksRun(l, r, before, s);
    forall i | 0 <= i < |es| - 1 && OnStream(es[i], s) ensures Emitted(l, r, es, i).None? {
      assert before[..i] == es[..i] && Emitted(l, r, before, i).None?;
    }
    var q := After(l, r, before);
    var buffers := Pruned(l, q.buffers, e.now);
    var b := Stored(buffers, e.input, e.stored);
    StoredHolds(buffers, OfStream(before, s), e.input, e.stored);
    CompleteIffCovered(b, OfStream(es, s));
    JoinedPayload(b, OfStream(es, s), b.total);
  }

  // --- a re-sent sequence ---

  /** The length of what `f` replaces. */
  function ReplacedLength(buffers: map<Stream, Buf>, f: Input): nat
    requires f.Fragment?
  {
    if f.stream in buffers && f.sequence in buffers[f.stream].fragments
    then |buffers[f.stream].fragments[f.sequence]| else 0
  }

  /** New length minus replaced length, on its own, goes below zero exactly when the fragment
      re-sends a sequence with fewer bytes than came last under it. */
  lemma ShrinksIffShorter(l: Limits, r: Reader, es: seq<Event>, f: Input)
    requires f.Fragment? && f.stream !in r.buffers && OnTime(l, es, f.stream) && After(l, r, es).open
    requires forall i :: 0 <= i <= |es| ==> !Covered(OfStream(es[..i], f.stream))
    ensures var fs := OfStream(es, f.stream);
      |f.data| < ReplacedLength(After(l, r, es).buffers, f) <==>
      Has(fs, f.sequence) && |f.data| < |Latest(fs, f.sequence)|
  {
    TracksRun(l, r, es, f.stream);
  }

  /** Such a fragment is accepted. */
  lemma ShorterResend(l: Limits)
    requires l.maxStreams >= 1 && l.timeout >= 1
    ensures var f := Fragment(7, 0, 2, 0, 0, 0, [1, 2]);
      var again := f.(data := [1]);
      var r := Step(l, Reader(map[], true), Event(f, 0, 0)).0;
      && Accepts(l, Pruned(l, r.buffers, 0), again, 0) && |again.data| < ReplacedLength(r.buffers, again)
  {
    var f := Fragment(7, 0, 2, 0, 0, 0, [1, 2]);
    var none: map<Stream, Buf> := map[];
    assert Pruned(l, none, 0) == none;
    var b := Stored(none, f, 0);
    assert b.fragments == map[0 := [1, 2]] && Bytes(b.fragments, 1) == 2 && Bytes(b.fragments, 2) == 2;
    var kept := map[7 := b];
    assert Step(l, Reader(none, true), Event(f, 0, 0)).0 == Reader(none[7 := b], true) && none[7 := b] == kept;
    assert Pruned(l, kept, 0) == kept;
    var again := Stored(kept, f.(data := [1]), 0);
    assert again.fragments == map[0 := [1]] && Bytes(again.fragments, 1) == 1 && Bytes(again.fragments, 2) == 1;
  }

  // --- a message cut into chunks ---

  function Flatten(chunks: seq<seq<Byte>>): seq<Byte> {
    if chunks == [] then [] else Flatten(chunks[..|chunks| - 1]) + chunks[|chunks| - 1]
  }

  /** Every fragment carries the chunk of its sequence. */
  ghost predicate Carries(fs: seq<Input>, chunks: seq<seq<Byte>>) {
    forall i :: 0 <= i < |fs| ==>
      fs[i].Fragment? && fs[i].total == |chunks| && fs[i].sequence < |chunks| && fs[i].data == chunks[fs[i].sequence]
  }

  lemma {:induction false} LatestChunk(fs: seq<Input>, chunks: seq<seq<Byte>>, k: nat)
    requires Carries(fs, chunks) && Has(fs, k)
    ensures k < |chunks| && Latest(fs, k) == chunks[k]
  {
    if fs[|fs| - 1].sequence != k {
      var i :| 0 <= i < |fs| && fs[i].sequence == k;
      assert fs[..|fs| - 1][i].sequence == k;
      LatestChunk(fs[..|fs| - 1], chunks, k);
    }
  }

  /** Chunks sent in any order, any of them again, come out as the message. */
  lemma {:induction false} RoundTrip(fs: seq<Input>, chunks: seq<seq<Byte>>, n: nat)
    requires Carries(fs, chunks) && Covered(fs) && n <= |chunks|
    ensures Payload(fs, n) == Flatten(chunks[..n])
  {
    if n > 0 {
      RoundTrip(fs, chunks, n - 1);
      assert Has(fs, n - 1);
      LatestChunk(fs, chunks, n - 1);
      assert chunks[..n][..n - 1] == chunks[..n - 1];
    }
  }
}
