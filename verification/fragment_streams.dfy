/** Fragment reassembly told from the frames alone: when the connection stays open, and what each
    frame dispatches, with streams that time out, finish and start again. */
module FragmentStreams {
  import opened Collections
  import opened Reassembly

  /** The fragments of a stream that still count, and when the first of them was stored. */
  datatype Episode = Episode(fragments: seq<Input>, began: Time)

  const NONE: Episode := Episode([], 0)

  ghost predicate AllFragments(fs: seq<Input>) {
    forall i :: 0 <= i < |fs| ==> fs[i].Fragment?
  }

  /** What is left of an episode at `now`: nothing once the timeout has passed since it began. */
  function Alive(l: Limits, c: Episode, now: Time): Episode {
    if now - c.began >= l.timeout || l.timeout == 0 then NONE else c
  }

  /** The episode of `s` after these frames: each frame finds out-of-time episodes gone; a fragment
      joins its stream's episode, and ends it if every sequence has then arrived. */
  ghost function Current(l: Limits, es: seq<Event>, s: Stream): (c: Episode)
    ensures AllFragments(c.fragments)
  {
    if es == [] then NONE
    else
      var (before, e) := (es[..|es| - 1], es[|es| - 1]);
      var alive := Alive(l, Current(l, before, s), e.now);
      if OnStream(e, s) then Joins(alive, e) else alive
  }

  ghost function Joins(alive: Episode, e: Event): (c: Episode)
    requires AllFragments(alive.fragments) && e.input.Fragment?
    ensures AllFragments(c.fragments)
  {
    var fs := alive.fragments + [e.input];
    if Covered(fs) then NONE else Episode(fs, if alive.fragments == [] then e.stored else alive.began)
  }

  /** What the stream has at the arrival of the next frame. */
  ghost function AliveAt(l: Limits, es: seq<Event>, s: Stream, now: Time): (c: Episode)
    ensures AllFragments(c.fragments)
  {
    Alive(l, Current(l, es, s), now)
  }

  /** The streams that have an episode at `now`. */
  ghost function OpenStreams(l: Limits, es: seq<Event>, now: Time): set<Stream> {
    set i | 0 <= i < |es| && es[i].input.Fragment? && AliveAt(l, es, es[i].input.stream, now).fragments != []
      :: es[i].input.stream
  }

  /** The bytes that came last under each sequence below `n`. */
  ghost function Size(fs: seq<Input>, n: nat): nat
    requires AllFragments(fs)
  {
    if n == 0 then 0 else Size(fs, n - 1) + |Latest(fs, n - 1)|
  }

  /** A frame the reader goes on after. A fragment has a total above its sequence and the total of its
      stream's first one, or room for a new stream; and its stream stays within the payload cap. */
  ghost predicate WellFormed(l: Limits, es: seq<Event>, e: Event) {
    match e.input
    case Whole(_) => true
    case ShortHeader => false
    case Fragment(s, sequence, total, _, _, _, _) =>
      var fs := AliveAt(l, es, s, e.now).fragments;
      && sequence < total
      && (if fs == [] then |OpenStreams(l, es, e.now)| < l.maxStreams else fs[0].total == total)
      && Size(fs + [e.input], total) <= 1_048_576
  }

  ghost predicate AllWellFormed(l: Limits, es: seq<Event>) {
    forall i :: 0 <= i < |es| ==> WellFormed(l, es[..i], es[i])
  }

  /** The frame a stream makes once `f` has completed it. */
  ghost function Completed(fs: seq<Input>, f: Input): Option<Frame>
    requires AllFragments(fs) && fs != [] && f.Fragment?
  {
    if Covered(fs) then Some(Frame(f.magic, f.flags, fs[0].target, Payload(fs, f.total))) else None
  }

  /** What a well-formed frame dispatches: a whole frame itself, and the fragment that completes its
      stream the latest bytes of all its sequences, in order. */
  ghost function Dispatch(l: Limits, es: seq<Event>, e: Event): Option<Frame> {
    match e.input
    case Whole(frame) => Some(frame)
    case ShortHeader => None
    case Fragment(s, _, _, _, _, _, _) => Completed(AliveAt(l, es, s, e.now).fragments + [e.input], e.input)
  }

  // --- the buffers follow the episodes ---

  /** The buffer of `s`, if there is one, holds its episode. */
  ghost predicate FollowsAt(buffers: map<Stream, Buf>, c: Episode, s: Stream)
    requires AllFragments(c.fragments)
  {
    if c.fragments == [] then s !in buffers
    else s in buffers && Holds(buffers[s], c.fragments) && buffers[s].firstSeen == c.began
  }

  ghost predicate Follows(l: Limits, buffers: map<Stream, Buf>, es: seq<Event>) {
    forall s :: FollowsAt(buffers, Current(l, es, s), s)
  }

  ghost predicate FollowsAlive(l: Limits, buffers: map<Stream, Buf>, es: seq<Event>, now: Time) {
    forall s :: FollowsAt(buffers, AliveAt(l, es, s, now), s)
  }

  lemma PruneFollows(l: Limits, buffers: map<Stream, Buf>, es: seq<Event>, now: Time)
    requires Follows(l, buffers, es)
    ensures FollowsAlive(l, Pruned(l, buffers, now), es, now)
  {
    forall s ensures FollowsAt(Pruned(l, buffers, now), AliveAt(l, es, s, now), s) {
      assert FollowsAt(buffers, Current(l, es, s), s);
    }
  }

  lemma {:induction false} HasEpisode(l: Limits, es: seq<Event>, s: Stream)
    requires Current(l, es, s).fragments != []
    ensures exists i :: 0 <= i < |es| && OnStream(es[i], s)
  {
    if !OnStream(es[|es| - 1], s) {
      HasEpisode(l, es[..|es| - 1], s);
      var i :| 0 <= i < |es| - 1 && OnStream(es[..|es| - 1][i], s);
      assert OnStream(es[i], s);
    }
  }

  lemma OpenAreBuffered(l: Limits, buffers: map<Stream, Buf>, es: seq<Event>, now: Time)
    requires FollowsAlive(l, buffers, es, now)
    ensures OpenStreams(l, es, now) == buffers.Keys
  {
    forall s ensures s in buffers <==> s in OpenStreams(l, es, now) {
      assert FollowsAt(buffers, AliveAt(l, es, s, now), s);
      if s in buffers {
        HasEpisode(l, es, s);
        var i :| 0 <= i < |es| && OnStream(es[i], s);
        assert es[i].input.Fragment? && AliveAt(l, es, es[i].input.stream, now).fragments != [];
      }
    }
  }

  lemma {:induction false} LatestNone(fs: seq<Input>, k: nat)
    requires AllFragments(fs) && !Has(fs, k)
    ensures Latest(fs, k) == []
  {
    if fs != [] {
      assert fs[|fs| - 1].sequence != k;
      assert forall i :: 0 <= i < |fs| - 1 ==> fs[..|fs| - 1][i] == fs[i];
      LatestNone(fs[..|fs| - 1], k);
    }
  }

  lemma {:induction false} BytesAreSize(b: Buf, fs: seq<Input>, n: nat)
    requires AllFragments(fs) && Holds(b, fs)
    ensures Bytes(b.fragments, n) == Size(fs, n)
  {
    if n > 0 {
      BytesAreSize(b, fs, n - 1);
      if n - 1 !in b.fragments { LatestNone(fs, n - 1); }
    }
  }

  /** A fragment with a good header, stored. */
  lemma StoresEpisode(buffers: map<Stream, Buf>, c: Episode, f: Input, now: Time)
    requires AllFragments(c.fragments) && f.Fragment? && f.sequence < f.total && FollowsAt(buffers, c, f.stream)
    requires c.fragments == [] || c.fragments[0].total == f.total
    ensures var (b, fs) := (Stored(buffers, f, now), c.fragments + [f]);
      && Holds(b, fs) && b.total == f.total && b.firstSeen == (if c.fragments == [] then now else c.began)
      && Bytes(b.fragments, f.total) == Size(fs, f.total) && (Complete(b) <==> Covered(fs))
  {
    StoredHolds(buffers, c.fragments, f, now);
    BytesAreSize(Stored(buffers, f, now), c.fragments + [f], f.total);
    CompleteIffCovered(Stored(buffers, f, now), c.fragments + [f]);
  }

  lemma AcceptsIff(l: Limits, buffers: map<Stream, Buf>, es: seq<Event>, e: Event)
    requires FollowsAlive(l, buffers, es, e.now) && e.input.Fragment?
    ensures Accepts(l, buffers, e.input, e.stored) <==> WellFormed(l, es, e)
  {
    var (f, c) := (e.input, AliveAt(l, es, e.input.stream, e.now));
    OpenAreBuffered(l, buffers, es, e.now);
    assert |buffers| == |buffers.Keys|;
    assert FollowsAt(buffers, c, f.stream);
    if f.sequence < f.total && (c.fragments == [] || c.fragments[0].total == f.total) {
      StoresEpisode(buffers, c, f, e.stored);
    }
  }

  /** With `b` in its place: a complete buffer is taken out and dispatched, any other stored. */
  ghost predicate Settles(b: Buf, f: Input, after: map<Stream, Buf>, out: Option<Frame>)
    requires f.Fragment?
  {
    if Complete(b) then
      && f.stream !in after
      && out == Some(Frame(f.magic, f.flags, b.target, Joined(b.fragments, b.total)))
    else f.stream in after && after[f.stream] == b && out == None
  }

  lemma TakeStored(l: Limits, buffers: map<Stream, Buf>, f: Input, now: Time)
    requires f.Fragment? && Accepts(l, buffers, f, now)
    ensures var (r, out) := Take(l, buffers, f, now);
      r.open && r.buffers - {f.stream} == buffers - {f.stream} && Settles(Stored(buffers, f, now), f, r.buffers, out)
  {
  }

  /** The buffer then follows the episode the fragment has joined, and a completed one is dispatched. */
  lemma SettlesJoined(b: Buf, c: Episode, e: Event, after: map<Stream, Buf>, out: Option<Frame>)
    requires AllFragments(c.fragments) && e.input.Fragment? && Settles(b, e.input, after, out)
    requires var fs := c.fragments + [e.input];
      && Holds(b, fs) && b.total == e.input.total && (Complete(b) <==> Covered(fs))
      && b.firstSeen == if c.fragments == [] then e.stored else c.began
    ensures FollowsAt(after, Joins(c, e), e.input.stream) && out == Completed(c.fragments + [e.input], e.input)
  {
    if Complete(b) { CompletedIs(b, c.fragments + [e.input], e.input); }
  }

  lemma HeaderFits(l: Limits, buffers: map<Stream, Buf>, c: Episode, f: Input, now: Time)
    requires AllFragments(c.fragments) && f.Fragment? && FollowsAt(buffers, c, f.stream) && Accepts(l, buffers, f, now)
    ensures f.sequence < f.total && (c.fragments == [] || c.fragments[0].total == f.total)
  {
  }

  lemma CompletedIs(b: Buf, fs: seq<Input>, f: Input)
    requires AllFragments(fs) && f.Fragment? && Holds(b, fs) && Covered(fs) && b.total == f.total
    ensures Completed(fs, f) == Some(Frame(f.magic, f.flags, b.target, Joined(b.fragments, b.total)))
  {
    JoinedPayload(b, fs, f.total);
  }

  /** What a well-formed fragment does to the table, and what it dispatches. */
  lemma TakeOutcome(l: Limits, buffers: map<Stream, Buf>, es: seq<Event>, e: Event)
    requires FollowsAlive(l, buffers, es, e.now) && e.input.Fragment? && WellFormed(l, es, e)
    ensures var (r, out) := Take(l, buffers, e.input, e.stored);
      && r.open && out == Dispatch(l, es, e)
      && FollowsAt(r.buffers, Joins(AliveAt(l, es, e.input.stream, e.now), e), e.input.stream)
      && r.buffers - {e.input.stream} == buffers - {e.input.stream}
  {
    var c := AliveAt(l, es, e.input.stream, e.now);
    var (r, out) := Take(l, buffers, e.input, e.stored);
    AcceptsIff(l, buffers, es, e);
    assert FollowsAt(buffers, c, e.input.stream);
    HeaderFits(l, buffers, c, e.input, e.stored);
    StoresEpisode(buffers, c, e.input, e.stored);
    TakeStored(l, buffers, e.input, e.stored);
    SettlesJoined(Stored(buffers, e.input, e.stored), c, e, r.buffers, out);
  }

  lemma TakeFollows(l: Limits, buffers: map<Stream, Buf>, es: seq<Event>, e: Event)
    requires FollowsAlive(l, buffers, es, e.now) && e.input.Fragment? && WellFormed(l, es, e)
    ensures var (r, out) := Take(l, buffers, e.input, e.stored);
      r.open && Follows(l, r.buffers, es + [e]) && out == Dispatch(l, es, e)
  {
    TakeOutcome(l, buffers, es, e);
    var after := Take(l, buffers, e.input, e.stored).0.buffers;
    forall s ensures FollowsAt(after, Current(l, es + [e], s), s) {
      CurrentNext(l, es, e, s);
      if s != e.input.stream {
        assert FollowsAt(buffers, AliveAt(l, es, s, e.now), s);
        OtherSame(buffers, after, e.input.stream, s);
      }
    }
  }

  lemma OtherSame(before: map<Stream, Buf>, after: map<Stream, Buf>, s: Stream, o: Stream)
    requires after - {s} == before - {s} && o != s
    ensures (o in after <==> o in before) && (o in before ==> after[o] == before[o])
  {
    assert o in before <==> o in before - {s};
    assert o in after <==> o in after - {s};
    if o in before { assert (after - {s})[o] == (before - {s})[o]; }
  }

  lemma CurrentNext(l: Limits, es: seq<Event>, e: Event, s: Stream)
    ensures Current(l, es + [e], s) ==
            if OnStream(e, s) then Joins(AliveAt(l, es, s, e.now), e) else AliveAt(l, es, s, e.now)
  {
    assert (es + [e])[..|es|] == es;
  }

  lemma StepFollows(l: Limits, r: Reader, es: seq<Event>, e: Event)
    requires r.open && Follows(l, r.buffers, es)
    ensures Step(l, r, e).0.open <==> WellFormed(l, es, e)
    ensures WellFormed(l, es, e) ==>
      Follows(l, Step(l, r, e).0.buffers, es + [e]) && Step(l, r, e).1 == Dispatch(l, es, e)
  {
    var buffers := Pruned(l, r.buffers, e.now);
    PruneFollows(l, r.buffers, es, e.now);
    if e.input.Fragment? {
      AcceptsIff(l, buffers, es, e);
      if WellFormed(l, es, e) { TakeFollows(l, buffers, es, e); }
    } else {
      forall s ensures FollowsAt(buffers, Current(l, es + [e], s), s) {
        CurrentNext(l, es, e, s);
        assert FollowsAt(buffers, AliveAt(l, es, s, e.now), s);
      }
    }
  }

  const FRESH: Reader := Reader(map[], true)

  lemma Prefix(l: Limits, es: seq<Event>)
    requires es != []
    ensures AllWellFormed(l, es) <==>
      AllWellFormed(l, es[..|es| - 1]) && WellFormed(l, es[..|es| - 1], es[|es| - 1])
  {
    var before := es[..|es| - 1];
    assert forall i :: 0 <= i < |before| ==> before[..i] == es[..i] && before[i] == es[i];
    assert es[..|before|] == before;
    if AllWellFormed(l, before) && WellFormed(l, before, es[|es| - 1]) {
      forall i | 0 <= i < |es| ensures WellFormed(l, es[..i], es[i]) {
        if i < |before| { assert WellFormed(l, before[..i], before[i]); }
      }
    }
    if AllWellFormed(l, es) {
      forall i | 0 <= i < |before| ensures WellFormed(l, before[..i], before[i]) {
        assert WellFormed(l, es[..i], es[i]);
      }
    }
  }

  lemma {:induction false} RunFollows(l: Limits, es: seq<Event>)
    ensures After(l, FRESH, es).open <==> AllWellFormed(l, es)
    ensures AllWellFormed(l, es) ==> Follows(l, After(l, FRESH, es).buffers, es)
  {
    if es != [] {
      var (before, e) := (es[..|es| - 1], es[|es| - 1]);
      Prefix(l, es);
      RunFollows(l, before);
      assert before + [e] == es;
      if AllWellFormed(l, before) { StepFollows(l, After(l, FRESH, before), before, e); }
    }
  }

  /** The reader goes on exactly as long as every frame is well formed. */
  lemma StaysOpenIff(l: Limits, es: seq<Event>)
    ensures After(l, FRESH, es).open <==> forall i :: 0 <= i < |es| ==> WellFormed(l, es[..i], es[i])
  {
    RunFollows(l, es);
  }

  /** Every frame of every run: it dispatches what its stream's episode calls for, if it and all
      before it are well formed, and nothing otherwise. */
  lemma DispatchedExactly(l: Limits, es: seq<Event>, i: nat)
    requires i < |es|
    ensures Emitted(l, FRESH, es, i) == if AllWellFormed(l, es[..i + 1]) then Dispatch(l, es[..i], es[i]) else None
  {
    RunFollows(l, es[..i]);
    Prefix(l, es[..i + 1]);
    assert es[..i + 1][..i] == es[..i];
    if AllWellFormed(l, es[..i]) { StepFollows(l, After(l, FRESH, es[..i]), es[..i], es[i]); }
  }

  /** Whatever else arrives in between, well formed and in time: the fragment that covers the stream
      dispatches exactly one frame, with the bytes that came last under each sequence, in order; no
      earlier fragment of the stream dispatches anything, and nothing of it is left behind. */
  lemma Reassembles(l: Limits, es: seq<Event>, s: Stream)
    requires es != [] && OnStream(es[|es| - 1], s) && OnTime(l, es, s) && AllWellFormed(l, es)
    requires Covered(OfStream(es, s)) && forall i :: 0 <= i < |es| ==> !Covered(OfStream(es[..i], s))
    ensures var (fs, last) := (OfStream(es, s), es[|es| - 1].input);
      Emitted(l, FRESH, es, |es| - 1) == Some(Frame(last.magic, last.flags, fs[0].target, Payload(fs, fs[0].total)))
    ensures forall i :: 0 <= i < |es| - 1 && OnStream(es[i], s) ==> Emitted(l, FRESH, es, i).None?
    ensures After(l, FRESH, es).open && s !in After(l, FRESH, es).buffers
  {
    RunFollows(l, es);
    ReassemblesFrom(l, FRESH, es, s);
  }

  /** A message cut into chunks, sent in any order with repeats among other well-formed frames and in
      time, comes out whole when its last chunk arrives. */
  lemma MessageArrives(l: Limits, es: seq<Event>, s: Stream, chunks: seq<seq<Byte>>)
    requires es != [] && OnStream(es[|es| - 1], s) && OnTime(l, es, s) && AllWellFormed(l, es)
    requires Carries(OfStream(es, s), chunks) && Covered(OfStream(es, s))
    requires forall i :: 0 <= i < |es| ==> !Covered(OfStream(es[..i], s))
    ensures Emitted(l, FRESH, es, |es| - 1).Some?
    ensures Emitted(l, FRESH, es, |es| - 1).value.payload == Flatten(chunks)
  {
    WholeMessage(OfStream(es, s), chunks);
    Reassembles(l, es, s);
  }

  lemma WholeMessage(fs: seq<Input>, chunks: seq<seq<Byte>>)
    requires Carries(fs, chunks) && Covered(fs)
    ensures Payload(fs, fs[0].total) == Flatten(chunks)
  {
    RoundTrip(fs, chunks, |chunks|);
    assert chunks[..|chunks|] == chunks;
  }
}
