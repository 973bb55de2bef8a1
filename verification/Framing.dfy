/** The serial stream protocol (internal/meshtastic/framer.go).

    The wire carries frames `0x94 0xC3 hi lo payload` surrounded by arbitrary debug output.
    `Scan` is the reference: it reads a whole stream one byte at a time and reports every
    byte it drops. `Framer.Push` is the program: it searches, reslices a buffer and is fed
    arbitrary chunks. */
module Framing {
  import opened Wrappers

  newtype byte = b: int | 0 <= b < 256

  type bytes = seq<byte>

  const FRAME_START1: byte := 0x94
  const FRAME_START2: byte := 0xC3
  const MAX_FRAME := 512

  /** The error `Push` and `EncodeFrame` report: "invalid Meshtastic frame length". */
  datatype FrameError = InvalidLength(size: nat)

  // ------------------------------------------------------------------ the reference scanner

  predicate ValidSize(size: nat) {
    1 <= size <= MAX_FRAME
  }

  /** What a frame may carry. */
  type Payload = p: bytes | ValidSize(|p|) witness [0]

  /** What one step of the scanner finds at the head of the stream. */
  datatype Event =
    | Noise(b: byte)           // a byte that starts no frame
    | BadLength(size: nat)     // a frame header announcing 0 or more than 512 bytes
    | Frame(payload: Payload)  // a complete frame

  /** What a stream yields: its frames, its errors, and the bytes still waiting for more input. */
  datatype Scanned = Scanned(frames: seq<bytes>, errs: seq<FrameError>, rest: bytes) {
    /** The same yield preceded by earlier frames and errors. */
    function After(frames': seq<bytes>, errs': seq<FrameError>): Scanned {
      Scanned(frames' + frames, errs' + errs, rest)
    }

    lemma AfterAfter(frames': seq<bytes>, errs': seq<FrameError>, frames'': seq<bytes>, errs'': seq<FrameError>)
      ensures After(frames', errs').After(frames'', errs'') == After(frames'' + frames', errs'' + errs')
    {
      assert frames'' + (frames' + frames) == frames'' + frames' + frames;
      assert errs'' + (errs' + errs) == errs'' + errs' + errs;
    }
  }

  function BigEndian(hi: byte, lo: byte): (size: nat)
  {
    hi as nat * 256 + lo as nat
  }

  /** The event at the head of the stream, or None when more bytes are needed to decide. */
  function Next(s: bytes): Option<Event> {
    if |s| == 0 then None
    else if s[0] != FRAME_START1 then Some(Noise(s[0]))
    else if |s| == 1 then None
    else if s[1] != FRAME_START2 then Some(Noise(s[0]))
    else if |s| < 4 then None
    else
      var size := BigEndian(s[2], s[3]);
      if !ValidSize(size) then Some(BadLength(size))
      else if |s| < 4 + size then None
      else Some(Frame(s[4..4 + size]))
  }

  /** How many bytes an event takes off the stream. */
  function Width(e: Event): (n: nat)
    ensures n >= 1
  {
    match e
    case Noise(_) => 1
    case BadLength(_) => 1
    case Frame(payload) => 4 + |payload|
  }

  function Scan(s: bytes): (r: Scanned)
    decreases |s|
  {
    match Next(s)
    case None => Scanned([], [], s)
    case Some(Noise(_)) => Scan(s[1..])
    case Some(BadLength(size)) => Scan(s[1..]).After([], [InvalidLength(size)])
    case Some(Frame(payload)) => Scan(s[4 + |payload|..]).After([payload], [])
  }

  // ------------------------------------------------------------------ the encoder

  /** The frame that carries a payload. */
  function Encoded(payload: Payload): bytes {
    [FRAME_START1, FRAME_START2, (|payload| / 256) as byte, (|payload| % 256) as byte] + payload
  }

  /** `EncodeFrame` fills a fresh buffer in place: two start bytes, a big-endian length, the payload. */
  method EncodeFrame(payload: bytes) returns (r: Result<bytes, FrameError>)
    ensures r == if ValidSize(|payload|) then Success(Encoded(payload)) else Failure(InvalidLength(|payload|))
    ensures r.Success? <==> 1 <= |payload| <= 512
    ensures r.Success? ==>
              var f := r.value;
              && |f| == 4 + |payload| && f[0] == 0x94 && f[1] == 0xC3 && f[4..] == payload
              && f[2] as nat * 256 + f[3] as nat == |payload|
  {
    if |payload| == 0 || |payload| > MAX_FRAME {
      return Failure(InvalidLength(|payload|));
    }
    var frame := new byte[4 + |payload|](_ => 0);
    frame[0], frame[1] := FRAME_START1, FRAME_START2;
    frame[2], frame[3] := (|payload| / 256) as byte, (|payload| % 256) as byte;
    for i := 0 to |payload|
      invariant frame[..4] == Encoded(payload)[..4]
      invariant frame[4..4 + i] == payload[..i]
    {
      frame[4 + i] := payload[i];
    }
    assert frame[..] == frame[..4] + frame[4..4 + |payload|];
    assert frame[..] == Encoded(payload);
    return Success(frame[..]);
  }

  // ------------------------------------------------------------------ the program

  predicate StartsAt(s: bytes, i: nat) {
    i + 1 < |s| && s[i] == FRAME_START1 && s[i + 1] == FRAME_START2
  }

  /** No frame start is present at any position before `n`. */
  predicate NoStartBefore(s: bytes, n: nat) {
    forall i: nat | i < n :: !StartsAt(s, i)
  }

  method FindStart(data: bytes) returns (start: int)
    ensures -1 <= start
    ensures start >= 0 ==> StartsAt(data, start)
    ensures NoStartBefore(data, if start >= 0 then start else |data|)
  {
    var i := 0;
    while i + 1 < |data|
      invariant 0 <= i <= |data|
      invariant NoStartBefore(data, i)
    {
      if data[i] == FRAME_START1 && data[i + 1] == FRAME_START2 {
        return i;
      }
      i := i + 1;
    }
    return -1;
  }

  class Framer {
    var buffer: bytes

    constructor ()
      ensures buffer == []
    {
      buffer := [];
    }

    /** Appends a chunk and takes every complete frame off the buffer. The result is what the
        reference scanner finds in the old buffer followed by the chunk. */
    method Push(data: bytes) returns (frames: seq<bytes>, errs: seq<FrameError>)
      modifies this
      ensures var whole := Scan(old(buffer) + data);
              whole == Scanned(frames, errs, buffer)
    {
      hide Scan, Next, NoStartBefore;
      buffer := buffer + data;
      ghost var whole := Scan(buffer);
      frames, errs := [], [];
      while true
        invariant whole == Scan(buffer).After(frames, errs)
        decreases |buffer|
      {
        var start := FindStart(buffer);
        if start < 0 {
          if |buffer| > 0 && buffer[|buffer| - 1] == FRAME_START1 {
            SkipNoise(buffer, |buffer| - 1);
            buffer := buffer[|buffer| - 1..];
            assert buffer == [FRAME_START1];
          } else {
            SkipNoise(buffer, |buffer|);
            assert buffer[|buffer|..] == [];
            buffer := [];
          }
          Wait(buffer, frames, errs);
          return;
        }
        if start > 0 {
          SkipNoise(buffer, start);
          buffer := buffer[start..];
        }
        if |buffer| < 4 {
          Wait(buffer, frames, errs);
          return;
        }
        var size := BigEndian(buffer[2], buffer[3]);
        if size == 0 || size > MAX_FRAME {
          TakeBadLength(buffer, size, frames, errs);
          errs := errs + [InvalidLength(size)];
          buffer := buffer[1..];
          continue;
        }
        if |buffer| < 4 + size {
          Wait(buffer, frames, errs);
          return;
        }
        var frame := buffer[4..4 + size];
        TakeFrame(buffer, size, frames, errs);
        frames := frames + [frame];
        buffer := buffer[4 + size..];
      }
    }
  }

  // ------------------------------------------------------------------ why `Push` is the scanner

  /** Bytes before the first frame start are dropped, unless the last byte of the stream could
      still become the first byte of a frame. */
  lemma {:induction false} SkipNoise(s: bytes, n: nat)
    requires n <= |s| && NoStartBefore(s, n)
    requires n == |s| > 0 ==> s[n - 1] != FRAME_START1
    ensures Scan(s) == Scan(s[n..])
  {
    if n == 0 {
      assert s[0..] == s;
    } else {
      var tail := s[1..];
      NoStartTail(s, n);
      SkipNoise(tail, n - 1);
      assert tail[n - 1..] == s[n..];
    }
  }

  lemma NoStartTail(s: bytes, n: nat)
    requires 0 < n <= |s| && NoStartBefore(s, n)
    requires n == |s| ==> s[n - 1] != FRAME_START1
    ensures NoStartBefore(s[1..], n - 1)
    ensures Next(s) == Some(Noise(s[0]))
  {
    forall i: nat | i < n - 1 ensures !StartsAt(s[1..], i) {
      assert !StartsAt(s, i + 1);
    }
    assert !StartsAt(s, 0);
  }

  /** A buffer that can only wait: empty, a lone first start byte, or the beginning of one frame. */
  predicate Residual(s: bytes) {
    || s == []
    || s == [FRAME_START1]
    || (StartsAt(s, 0) && (|s| < 4 || (ValidSize(BigEndian(s[2], s[3])) && |s| < 4 + BigEndian(s[2], s[3]))))
  }

  lemma Wait(s: bytes, frames: seq<bytes>, errs: seq<FrameError>)
    requires Residual(s)
    ensures Scan(s).After(frames, errs) == Scanned(frames, errs, s)
  {
    assert Next(s) == None;
  }

  lemma TakeBadLength(s: bytes, size: nat, frames: seq<bytes>, errs: seq<FrameError>)
    requires StartsAt(s, 0) && |s| >= 4 && size == BigEndian(s[2], s[3]) && !ValidSize(size)
    ensures Scan(s).After(frames, errs) == Scan(s[1..]).After(frames, errs + [InvalidLength(size)])
  {
    hide Scan, Next;
    HeadBadLength(s, size);
    Scan(s[1..]).AfterAfter([], [InvalidLength(size)], frames, errs);
    assert frames + [] == frames;
  }

  lemma HeadBadLength(s: bytes, size: nat)
    requires StartsAt(s, 0) && |s| >= 4 && size == BigEndian(s[2], s[3]) && !ValidSize(size)
    ensures Scan(s) == Scan(s[1..]).After([], [InvalidLength(size)])
  {
    assert Next(s) == Some(BadLength(size));
    hide BigEndian;
  }

  lemma TakeFrame(s: bytes, size: nat, frames: seq<bytes>, errs: seq<FrameError>)
    requires StartsAt(s, 0) && |s| >= 4 + size && size == BigEndian(s[2], s[3]) && ValidSize(size)
    ensures Scan(s).After(frames, errs) == Scan(s[4 + size..]).After(frames + [s[4..4 + size]], errs)
  {
    hide Scan, Next, BigEndian, StartsAt;
    var payload, later := s[4..4 + size], Scan(s[4 + size..]);
    HeadFrame(s, payload);
    later.AfterAfter([payload], [], frames, errs);
    assert errs + [] == errs;
  }

  lemma HeadFrame(s: bytes, payload: Payload)
    requires StartsAt(s, 0) && |s| >= 4 + |payload| && |payload| == BigEndian(s[2], s[3])
    requires payload == s[4..4 + |payload|]
    ensures Scan(s) == Scan(s[4 + |payload|..]).After([payload], [])
  {
    hide Next, StartsAt, BigEndian;
    NextIsFrame(s, payload);
  }

  lemma NextIsFrame(s: bytes, payload: Payload)
    requires StartsAt(s, 0) && |s| >= 4 + |payload| && |payload| == BigEndian(s[2], s[3])
    requires payload == s[4..4 + |payload|]
    ensures Next(s) == Some(Frame(payload))
  {
  }
}
