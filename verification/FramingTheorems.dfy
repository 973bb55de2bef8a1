/** What the serial stream protocol guarantees, proved of the reference scanner that
    `Framing.Framer.Push` is shown to compute. */
module FramingTheorems {
  import opened Wrappers
  import opened Framing

  function Concat(chunks: seq<bytes>): bytes {
    if chunks == [] then [] else chunks[0] + Concat(chunks[1..])
  }

  /** Successive `Push` calls on one framer. */
  function PushAll(buffer: bytes, chunks: seq<bytes>): Scanned
    decreases |chunks|
  {
    if chunks == [] then Scanned([], [], buffer)
    else
      var first := Scan(buffer + chunks[0]);
      PushAll(first.rest, chunks[1..]).After(first.frames, first.errs)
  }

  // ------------------------------------------------------------------ chunking invariance

  /** A decided event stays decided when more bytes arrive. */
  lemma NextStable(a: bytes, b: bytes)
    requires Next(a).Some?
    ensures Next(a + b) == Next(a)
    ensures Width(Next(a).value) <= |a|
    ensures (a + b)[Width(Next(a).value)..] == a[Width(Next(a).value)..] + b
  {
    if Next(a).value.Frame? {
      assert (a + b)[4..4 + |Next(a).value.payload|] == a[4..4 + |Next(a).value.payload|];
    }
  }

  /** Scanning a stream in two parts, the second behind what the first left over, is scanning it whole. */
  lemma {:induction false} ScanAppend(a: bytes, b: bytes)
    ensures Scan(a + b) == Scan(Scan(a).rest + b).After(Scan(a).frames, Scan(a).errs)
    decreases |a|
  {
    var later := Scan(Scan(a).rest + b);
    match Next(a)
    case None =>
    case Some(e) =>
      NextStable(a, b);
      var tail := a[Width(e)..];
      ScanAppend(tail, b);
      match e {
        case Noise(_) =>
        case BadLength(size) => later.AfterAfter(Scan(tail).frames, Scan(tail).errs, [], [InvalidLength(size)]);
        case Frame(payload) => later.AfterAfter(Scan(tail).frames, Scan(tail).errs, [payload], []);
      }
  }

  lemma Reassociate(a: bytes, b: bytes, c: bytes)
    ensures a + (b + c) == (a + b) + c
  {
  }

  /** Whatever the read boundaries, the frames, the errors and the final buffer are those of one
      `Push` of the whole stream. */
  lemma {:induction false} ChunkingInvariance(buffer: bytes, chunks: seq<bytes>)
    requires Residual(buffer)
    ensures PushAll(buffer, chunks) == Scan(buffer + Concat(chunks))
    decreases |chunks|
  {
    hide Residual, Scan, Next, StartsAt;
    if chunks == [] {
      RestIsResidual(buffer);
      assert buffer + [] == buffer;
    } else {
      var head, later := buffer + chunks[0], Concat(chunks[1..]);
      RestIsResidual(head);
      ChunkingInvariance(Scan(head).rest, chunks[1..]);
      ScanAppend(head, later);
      Reassociate(buffer, chunks[0], later);
    }
  }

  // ------------------------------------------------------------------ conservation and bounded memory

  lemma {:induction false} RestIsResidual(s: bytes)
    ensures Residual(Scan(s).rest) && |Scan(s).rest| <= 515
    ensures Residual(s) <==> Scan(s) == Scanned([], [], s)
    decreases |s|
  {
    match Next(s)
    case None =>
    case Some(e) =>
      RestIsResidual(s[Width(e)..]);
      RestShrinks(s[Width(e)..]);
  }

  lemma RestShrinks(s: bytes)
    ensures |Scan(s).rest| <= |s|
    decreases |s|
  {
  }

  /** Every event of the stream in order, dropped bytes included. */
  function Events(s: bytes): seq<Event>
    decreases |s|
  {
    match Next(s)
    case None => []
    case Some(e) => [e] + Events(s[Width(e)..])
  }

  /** The bytes an event stands for: a dropped byte, or the encoding of a delivered frame. */
  function Bytes(e: Event): bytes {
    match e
    case Noise(b) => [b]
    case BadLength(_) => [FRAME_START1]
    case Frame(payload) => Encoded(payload)
  }

  function Replay(events: seq<Event>): bytes {
    if events == [] then [] else Bytes(events[0]) + Replay(events[1..])
  }

  function FramesIn(events: seq<Event>): seq<bytes> {
    if events == [] then []
    else if events[0].Frame? then [events[0].payload] + FramesIn(events[1..])
    else FramesIn(events[1..])
  }

  function ErrorsIn(events: seq<Event>): seq<FrameError> {
    if events == [] then []
    else if events[0].BadLength? then [InvalidLength(events[0].size)] + ErrorsIn(events[1..])
    else ErrorsIn(events[1..])
  }

  /** What one event adds to what a stream yields. */
  function Yield(e: Event, later: Scanned): Scanned {
    later.After(if e.Frame? then [e.payload] else [], if e.BadLength? then [InvalidLength(e.size)] else [])
  }

  lemma ScanStep(s: bytes, e: Event)
    requires Next(s) == Some(e) && Width(e) <= |s|
    ensures Scan(s) == Yield(e, Scan(s[Width(e)..]))
  {
    hide Next;
    var later := Scan(s[Width(e)..]);
    match e
    case Noise(_) => assert [] + later.frames == later.frames && [] + later.errs == later.errs;
    case BadLength(_) =>
    case Frame(_) =>
  }

  lemma EventsStep(s: bytes, e: Event)
    requires Next(s) == Some(e) && Width(e) <= |s|
    ensures Events(s) == [e] + Events(s[Width(e)..])
  {
    hide Next;
  }

  lemma EventCons(e: Event, events: seq<Event>)
    ensures Replay([e] + events) == Bytes(e) + Replay(events)
    ensures FramesIn([e] + events) == (if e.Frame? then [e.payload] else []) + FramesIn(events)
    ensures ErrorsIn([e] + events) == (if e.BadLength? then [InvalidLength(e.size)] else []) + ErrorsIn(events)
  {
    hide Bytes;
    assert ([e] + events)[1..] == events;
  }

  /** No byte is lost or invented: the stream is its dropped bytes interleaved with the encodings of
      exactly the frames delivered, followed by the residual buffer. */
  lemma {:induction false} ByteConservation(s: bytes)
    ensures s == Replay(Events(s)) + Scan(s).rest
    ensures Scan(s).frames == FramesIn(Events(s)) && Scan(s).errs == ErrorsIn(Events(s))
    decreases |s|
  {
    hide Bytes, Next, Scan, Events, Replay, FramesIn, ErrorsIn;
    match Next(s)
    case None => NoEvents(s);
    case Some(e) =>
      HeadBytes(s);
      ScanStep(s, e);
      EventsStep(s, e);
      var tail := s[Width(e)..];
      ByteConservation(tail);
      EventCons(e, Events(tail));
      Reassociate(Bytes(e), Replay(Events(tail)), Scan(tail).rest);
  }

  lemma NoEvents(s: bytes)
    requires Next(s) == None
    ensures Events(s) == [] && Scan(s) == Scanned([], [], s)
    ensures s == Replay([]) + s && FramesIn([]) == [] && ErrorsIn([]) == []
  {
  }

  lemma HeadBytes(s: bytes)
    requires Next(s).Some?
    ensures var e := Next(s).value; Width(e) <= |s| && s == Bytes(e) + s[Width(e)..]
  {
  }

  // ------------------------------------------------------------------ round trip through noise

  predicate PairFree(s: bytes) {
    NoStartBefore(s, |s|)
  }

  /** Noise, frame, noise, frame, ..., noise. */
  function Interleave(noise: seq<bytes>, payloads: seq<Payload>): bytes
    requires |noise| == |payloads| + 1
    decreases |payloads|
  {
    if payloads == [] then noise[0]
    else noise[0] + (Encoded(payloads[0]) + Interleave(noise[1..], payloads[1..]))
  }

  lemma ScanEncoded(payload: Payload, t: bytes)
    ensures Scan(Encoded(payload) + t) == Scan(t).After([payload], [])
  {
    var s := Encoded(payload) + t;
    assert s[4..4 + |payload|] == payload && s[4 + |payload|..] == t;
    assert Next(s) == Some(Frame(payload));
  }

  /** Noise in front of a frame is dropped whole, even when it ends in the first start byte. */
  lemma ScanNoiseThenFrame(noise: bytes, payload: Payload, t: bytes)
    requires PairFree(noise)
    ensures Scan(noise + (Encoded(payload) + t)) == Scan(t).After([payload], [])
  {
    var s := noise + (Encoded(payload) + t);
    forall i: nat | i < |noise| ensures !StartsAt(s, i) {
      assert !StartsAt(noise, i);
    }
    SkipNoise(s, |noise|);
    assert s[|noise|..] == Encoded(payload) + t;
    ScanEncoded(payload, t);
  }

  lemma ScanNoise(noise: bytes)
    requires PairFree(noise)
    ensures Scan(noise).frames == [] && Scan(noise).errs == []
    ensures Scan(noise).rest == if noise != [] && noise[|noise| - 1] == FRAME_START1 then [FRAME_START1] else []
  {
    var n := if noise != [] && noise[|noise| - 1] == FRAME_START1 then |noise| - 1 else |noise|;
    SkipNoise(noise, n);
  }

  /** Encoded payloads survive any pair-free noise around them: they come out in order, complete and
      without errors, whatever chunks the stream arrives in. */
  lemma {:induction false} RoundTripThroughNoise(noise: seq<bytes>, payloads: seq<Payload>)
    requires |noise| == |payloads| + 1
    requires forall n | n in noise :: PairFree(n)
    ensures Scan(Interleave(noise, payloads)).frames == payloads
    ensures Scan(Interleave(noise, payloads)).errs == []
    ensures forall chunks | Concat(chunks) == Interleave(noise, payloads) ::
              PushAll([], chunks).frames == payloads && PushAll([], chunks).errs == []
    decreases |payloads|
  {
    assert noise[0] in noise;
    if payloads == [] {
      ScanNoise(noise[0]);
    } else {
      ScanNoiseThenFrame(noise[0], payloads[0], Interleave(noise[1..], payloads[1..]));
      RoundTripThroughNoise(noise[1..], payloads[1..]);
    }
    forall chunks | Concat(chunks) == Interleave(noise, payloads)
      ensures PushAll([], chunks) == Scan(Interleave(noise, payloads))
    {
      ChunkingInvariance([], chunks);
      assert [] + Concat(chunks) == Concat(chunks);
    }
  }

  // ------------------------------------------------------------------ resynchronisation

  /** After a header with an impossible length the very next frame is still found. The header costs one
      error, or two exactly when its length bytes look like a frame start themselves. */
  lemma Resynchronisation(hi: byte, lo: byte, payload: Payload, t: bytes)
    requires !ValidSize(BigEndian(hi, lo))
    ensures var bad := InvalidLength(BigEndian(hi, lo));
            Scan([FRAME_START1, FRAME_START2, hi, lo] + (Encoded(payload) + t))
              == Scan(t).After([payload], if hi == FRAME_START1 && lo == FRAME_START2 then [bad, bad] else [bad])
  {
    hide Scan, Next, BigEndian;
    var frame := Encoded(payload) + t;
    var bad := [InvalidLength(BigEndian(hi, lo))];
    var cost := if hi == FRAME_START1 && lo == FRAME_START2 then bad + bad else bad;
    HeaderCost(hi, lo, frame);
    assert Scan([FRAME_START1, FRAME_START2, hi, lo] + frame) == Scan(frame).After([], cost);
    ScanEncoded(payload, t);
    Scan(t).AfterAfter([payload], [], [], cost);
  }

  lemma HeaderCost(hi: byte, lo: byte, frame: bytes)
    requires !ValidSize(BigEndian(hi, lo)) && StartsAt(frame, 0)
    ensures var bad := [InvalidLength(BigEndian(hi, lo))];
            Scan([FRAME_START1, FRAME_START2, hi, lo] + frame)
              == Scan(frame).After([], if hi == FRAME_START1 && lo == FRAME_START2 then bad + bad else bad)
  {
    var bad := [InvalidLength(BigEndian(hi, lo))];
    if hi == FRAME_START1 && lo == FRAME_START2 {
      TwoErrors(frame, bad);
    } else {
      BadHeader(hi, lo, frame);
      NotAStart(hi, lo, frame);
    }
  }

  /** Length bytes that are a frame start make the start of the real frame look like a bad length too. */
  lemma TwoErrors(frame: bytes, bad: seq<FrameError>)
    requires StartsAt(frame, 0) && bad == [InvalidLength(BigEndian(FRAME_START1, FRAME_START2))]
    ensures Scan([FRAME_START1, FRAME_START2, FRAME_START1, FRAME_START2] + frame)
         == Scan(frame).After([], bad + bad)
  {
    var start := [FRAME_START1, FRAME_START2];
    BadHeader(FRAME_START1, FRAME_START2, frame);
    BadHeader(FRAME_START1, FRAME_START2, frame[2..]);
    assert frame == start + frame[2..];
    assert start + frame == [FRAME_START1, FRAME_START2, FRAME_START1, FRAME_START2] + frame[2..];
    Scan(frame).AfterAfter([], bad, [], bad);
  }

  lemma NotAStart(hi: byte, lo: byte, frame: bytes)
    requires |frame| >= 2 && frame[0] == FRAME_START1
    requires !(hi == FRAME_START1 && lo == FRAME_START2)
    ensures Scan([hi, lo] + frame) == Scan(frame)
  {
    var s := [hi, lo] + frame;
    forall i: nat | i < 2 ensures !StartsAt(s, i) {
    }
    SkipNoise(s, 2);
    assert s[2..] == frame;
  }

  /** A bad header costs one error and its two start bytes. */
  lemma BadHeader(hi: byte, lo: byte, t: bytes)
    requires !ValidSize(BigEndian(hi, lo))
    ensures Scan([FRAME_START1, FRAME_START2, hi, lo] + t)
         == Scan([hi, lo] + t).After([], [InvalidLength(BigEndian(hi, lo))])
  {
    var s := [FRAME_START1, FRAME_START2, hi, lo] + t;
    var s1 := [FRAME_START2, hi, lo] + t;
    assert Next(s) == Some(BadLength(BigEndian(hi, lo))) && s[1..] == s1;
    assert Next(s1) == Some(Noise(FRAME_START2)) && s1[1..] == [hi, lo] + t;
  }
}
