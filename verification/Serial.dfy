/** `Source.consume` (internal/meshtastic/serial.go): ask the radio for its configuration, then read,
    frame and handle its messages, each one until it is archived. */
module Serial {
  import opened Wrappers
  import opened Framing
  import opened Timestamp
  import opened Model
  import opened Decoder
  import opened Database
  import opened Stores
  import opened Ingest
  import FramingTheorems

  // ------------------------------------------------------------------ writing

  /** What one `Write` call does: how many bytes it takes at most, and whether it reports an error. */
  datatype WriteOutcome = WriteOutcome(n: nat, fails: bool)

  datatype SerialError = WriteFailed | ShortWrite | MarshalFailed | BadFrame

  class Port {
    var written: bytes

    constructor ()
      ensures written == []
    {
      written := [];
    }

    method Write(data: bytes, outcome: WriteOutcome) returns (n: nat, failed: bool)
      modifies this
      ensures n == (if outcome.n <= |data| then outcome.n else |data|) && failed == outcome.fails
      ensures written == old(written) + data[..n]
    {
      n, failed := if outcome.n <= |data| then outcome.n else |data|, outcome.fails;
      written := written + data[..n];
    }
  }

  /** No write fails or takes nothing. */
  predicate Accepting(outcomes: seq<WriteOutcome>) {
    forall o | o in outcomes :: !o.fails && o.n > 0
  }

  /** Success means that exactly `data` was written; a failure stops after some prefix of it. Only a write
      that fails or takes no byte makes it fail. */
  method WriteAll(port: Port, data: bytes, outcomes: seq<WriteOutcome>) returns (err: Option<SerialError>, ghost sent: nat)
    requires |outcomes| >= |data|
    modifies port
    ensures sent <= |data| && port.written == old(port.written) + data[..sent]
    ensures err.None? ==> sent == |data|
    ensures err.Some? ==> err.value.WriteFailed? || err.value.ShortWrite?
    ensures Accepting(outcomes) ==> err.None?
  {
    var rest, i := data, 0;
    sent := 0;
    while |rest| > 0
      invariant sent <= |data| && rest == data[sent..] && i <= sent
      invariant port.written == old(port.written) + data[..sent]
      decreases |rest|
    {
      ghost var before := port.written;
      var n, failed := port.Write(rest, outcomes[i]);
      assert outcomes[i] in outcomes;
      assert data[..sent] + rest[..n] == data[..sent + n];
      assert port.written == old(port.written) + (data[..sent] + rest[..n]);
      sent := sent + n;
      if failed {
        return Some(WriteFailed), sent;
      }
      if n == 0 {
        return Some(ShortWrite), sent;
      }
      rest := rest[n..];
      i := i + 1;
    }
    return None, sent;
  }

  // ------------------------------------------------------------------ the messages of a stream

  type Unmarshal = bytes -> Result<Message, string>

  /** Frames that hold no message are dropped; the others keep their order. */
  function Messages(unmarshal: Unmarshal, frames: seq<bytes>): seq<Message> {
    if frames == [] then []
    else Messages(unmarshal, frames[..|frames| - 1]) + FrameMessage(unmarshal, frames[|frames| - 1])
  }

  function FrameMessage(unmarshal: Unmarshal, frame: bytes): seq<Message> {
    match unmarshal(frame)
    case Success(message) => [message]
    case Failure(_) => []
  }

  lemma {:induction false} MessagesAppend(unmarshal: Unmarshal, a: seq<bytes>, b: seq<bytes>)
    ensures Messages(unmarshal, a + b) == Messages(unmarshal, a) + Messages(unmarshal, b)
    decreases |b|
  {
    if b == [] {
      assert a + b == a;
    } else {
      var init := b[..|b| - 1];
      assert (a + b)[..|a + b| - 1] == a + init;
      MessagesAppend(unmarshal, a, init);
    }
  }

  /** Which frames the messages come from: `at` lists the readable frames, every one of them and in order, and
      the messages are theirs. */
  predicate ComeFrom(unmarshal: Unmarshal, frames: seq<bytes>, messages: seq<Message>, at: seq<nat>) {
    && |at| == |messages|
    && (forall i | 0 <= i < |at| :: at[i] < |frames| && unmarshal(frames[at[i]]) == Success(messages[i]))
    && (forall i, j | 0 <= i < j < |at| :: at[i] < at[j])
    && (forall k: nat | k < |frames| && unmarshal(frames[k]).Success? :: k in at)
  }

  lemma ComeFromSkip(unmarshal: Unmarshal, init: seq<bytes>, frame: bytes, messages: seq<Message>, at: seq<nat>)
    requires ComeFrom(unmarshal, init, messages, at) && unmarshal(frame).Failure?
    ensures ComeFrom(unmarshal, init + [frame], messages, at)
  {
  }

  lemma ComeFromTake(unmarshal: Unmarshal, init: seq<bytes>, frame: bytes, messages: seq<Message>, message: Message,
                     at: seq<nat>)
    requires ComeFrom(unmarshal, init, messages, at) && unmarshal(frame) == Success(message)
    ensures ComeFrom(unmarshal, init + [frame], messages + [message], at + [|init|])
  {
    var frames, n := init + [frame], |init|;
    forall k: nat | k < |frames| && unmarshal(frames[k]).Success? ensures k in at + [n] {
      assert k < n ==> unmarshal(init[k]).Success?;
      assert (at + [n])[|at|] == n;
      assert k in at ==> k in at + [n];
    }
  }

  lemma {:induction false} MessagesExact(unmarshal: Unmarshal, frames: seq<bytes>) returns (at: seq<nat>)
    ensures ComeFrom(unmarshal, frames, Messages(unmarshal, frames), at)
    decreases |frames|
  {
    hide ComeFrom;
    if frames == [] {
      at := [];
      NoFrames(unmarshal);
    } else {
      var n := |frames| - 1;
      var init, messages := frames[..n], Messages(unmarshal, frames[..n]);
      at := MessagesExact(unmarshal, init);
      assert frames == init + [frames[n]];
      match unmarshal(frames[n])
      case Success(message) =>
        ComeFromTake(unmarshal, init, frames[n], messages, message, at);
        at := at + [n];
      case Failure(_) =>
        assert messages + [] == messages;
        ComeFromSkip(unmarshal, init, frames[n], messages, at);
    }
  }

  lemma NoFrames(unmarshal: Unmarshal)
    ensures ComeFrom(unmarshal, [], Messages(unmarshal, []), [])
  {
  }

  /** The store after each message was handled once, in order, each at its own moment. */
  function HandleAll(s: Settings, db: Tables, messages: seq<Message>, times: seq<Moment>): Tables
    requires |messages| == |times|
    decreases |messages|
  {
    if messages == [] then db
    else
      var n := |messages| - 1;
      Handled(s, HandleAll(s, db, messages[..n], times[..n]), messages[n], times[n])
  }

  lemma HandleOneMore(s: Settings, db: Tables, messages: seq<Message>, times: seq<Moment>, message: Message, t: Moment)
    requires |messages| == |times|
    ensures HandleAll(s, db, messages + [message], times + [t]) == Handled(s, HandleAll(s, db, messages, times), message, t)
  {
    hide Handled;
    assert (messages + [message])[..|times|] == messages && (times + [t])[..|times|] == times;
  }

  // ------------------------------------------------------------------ reading

  datatype ReadEnd = More | Eof | ReadError

  /** What one `Read` call returns; an error may come with data. */
  datatype Read = Read(data: bytes, end: ReadEnd)

  /** Every byte read until the connection ends. */
  function Input(inputs: seq<Read>): bytes {
    if inputs == [] then []
    else if inputs[0].end.More? then inputs[0].data + Input(inputs[1..])
    else inputs[0].data
  }

  /** One call of the handler; after a failed one the run may be cancelled. */
  datatype Attempt = Attempt(t: Moment, fault: HandleFault, cancelled: bool)

  datatype Ending = Cancelled | EndOfInput | ReadFailed | StartFailed(error: SerialError)

  /** How a connection ends when nothing cancels the run; one that does not end is cancelled some day. */
  function EndOf(inputs: seq<Read>): Ending {
    if inputs == [] then Cancelled
    else match inputs[0].end
      case More => EndOf(inputs[1..])
      case Eof => EndOfInput
      case ReadError => ReadFailed
  }

  /** The bytes of some reads, one after the other. */
  function AllData(inputs: seq<Read>): bytes {
    if inputs == [] then [] else inputs[0].data + AllData(inputs[1..])
  }

  /** The input is the data of the reads up to the first one that ends the connection, its own data included,
      and that read says how it ended; without one it is everything. */
  lemma {:induction false} InputUntilEnd(inputs: seq<Read>, n: nat)
    requires n <= |inputs| && forall i | 0 <= i < n :: inputs[i].end.More?
    requires n < |inputs| ==> !inputs[n].end.More?
    ensures Input(inputs) == AllData(if n < |inputs| then inputs[..n + 1] else inputs)
    ensures EndOf(inputs) == if n == |inputs| then Cancelled else if inputs[n].end.Eof? then EndOfInput else ReadFailed
    decreases n
  {
    if n > 0 {
      InputUntilEnd(inputs[1..], n - 1);
      if n < |inputs| {
        assert inputs[..n + 1][1..] == inputs[1..][..n];
      }
    } else if inputs != [] {
      assert inputs[..1] == [inputs[0]] && AllData([]) == [];
      assert [inputs[0]][1..] == [];
    }
  }

  predicate NoneCancelled(attempts: seq<Attempt>) {
    forall a | a in attempts :: !a.cancelled
  }

  /** The calls during which the database works. */
  function SoundCalls(attempts: seq<Attempt>): nat {
    if attempts == [] then 0 else (if attempts[0].fault == SOUND then 1 else 0) + SoundCalls(attempts[1..])
  }

  /** A sound call is what the failing ones before it were waiting for. */
  lemma {:induction false} SoundCallsAfter(attempts: seq<Attempt>, k: nat)
    requires k <= |attempts| && forall j | 0 <= j < k :: attempts[j].fault != SOUND
    ensures SoundCalls(attempts[k..]) == SoundCalls(attempts)
    ensures k < |attempts| ==> SoundCalls(attempts[k + 1..]) + 1 >= SoundCalls(attempts)
    decreases k
  {
    if k == 0 {
      assert attempts[0..] == attempts;
    } else {
      SoundCallsAfter(attempts[1..], k - 1);
      assert attempts[1..][k - 1..] == attempts[k..];
      assert k < |attempts| ==> attempts[1..][k..] == attempts[k + 1..];
    }
  }

  /** Seconds between a message's attempts: doubling from one, at most thirty. */
  function Pause(k: nat): (seconds: nat)
    ensures seconds <= 30
  {
    if k == 0 then 1 else if 2 * Pause(k - 1) <= 30 then 2 * Pause(k - 1) else 30
  }

  /** The pauses are 1, 2, 4, 8, 16, and then always 30 seconds. */
  lemma {:induction false} PauseTable(k: nat)
    ensures Pause(k) == if k < 5 then [1, 2, 4, 8, 16][k] else 30
  {
    if k > 0 {
      PauseTable(k - 1);
    }
  }

  /** The first attempts failed without being cancelled, and each was followed by its pause. */
  predicate FailedFirst(attempts: seq<Attempt>, pauses: seq<nat>) {
    && |pauses| <= |attempts|
    && forall k | 0 <= k < |pauses| :: pauses[k] == Pause(k) && attempts[k].fault != SOUND && !attempts[k].cancelled
  }

  lemma NoPause(attempts: seq<Attempt>)
    ensures FailedFirst(attempts, []) && Pause(0) == 1
  {
  }

  lemma FailedOnce(attempts: seq<Attempt>, pauses: seq<nat>)
    requires FailedFirst(attempts, pauses) && |pauses| < |attempts|
    requires attempts[|pauses|].fault != SOUND && !attempts[|pauses|].cancelled
    ensures FailedFirst(attempts, pauses + [Pause(|pauses|)])
  {
    hide Pause;
  }

  lemma NextPause(k: nat)
    ensures Pause(k + 1) == if 2 * Pause(k) <= 30 then 2 * Pause(k) else 30
  {
  }

  /** The messages before the `|times|`-th are handled, and at most the node of that one is remembered. */
  predicate HandledSoFar(s: Settings, before: Tables, after: Tables, messages: seq<Message>, times: seq<Moment>) {
    && |times| <= |messages|
    && var db := HandleAll(s, before, messages[..|times|], times);
       after == db || (|times| < |messages| && after == Remembered(s, db, messages[|times|]))
  }

  class Source {
    const service: Service
    const unmarshal: Unmarshal
    const marshalRequest: uint32 -> Result<bytes, string>

    constructor (service: Service, unmarshal: Unmarshal, marshalRequest: uint32 -> Result<bytes, string>)
      ensures this.service == service && this.unmarshal == unmarshal && this.marshalRequest == marshalRequest
    {
      this.service, this.unmarshal, this.marshalRequest := service, unmarshal, marshalRequest;
    }

    /** Calls the handler until it succeeds; no failure drops the message. Each failed attempt is followed by
        a pause and another attempt, and leaves no trace in the end result. Only cancellation, or a script
        that runs out, stops this. */
    method HandleUntilDone(message: Message, attempts: seq<Attempt>)
      returns (done: bool, pauses: seq<nat>, rest: seq<Attempt>, ghost t: Moment)
      modifies service.store
      ensures done ==> service.store.db == Handled(service.settings, old(service.store.db), message, t)
      ensures !done ==> (service.store.db == old(service.store.db)
                         || service.store.db == Remembered(service.settings, old(service.store.db), message))
      ensures FailedFirst(attempts, pauses)
      ensures !done && |pauses| < |attempts| ==> attempts[|pauses|].fault != SOUND && attempts[|pauses|].cancelled
      ensures done ==> |pauses| < |attempts| && t == attempts[|pauses|].t && rest == attempts[|pauses| + 1..]
    {
      hide Handled, Remembered, FailedFirst, Pause;
      var backoff := 1;
      pauses := [];
      NoPause(attempts);
      t := Moment(0, 0);
      RetryAbsorbs(service.settings, service.store.db, message, t);
      while |pauses| < |attempts|
        invariant |pauses| <= |attempts| && backoff == Pause(|pauses|)
        invariant FailedFirst(attempts, pauses)
        invariant service.store.db == old(service.store.db)
               || service.store.db == Remembered(service.settings, old(service.store.db), message)
        decreases |attempts| - |pauses|
      {
        var attempt := attempts[|pauses|];
        t := attempt.t;
        RetryAbsorbs(service.settings, old(service.store.db), message, t);
        var err, woken := service.Handle(message, attempt.t, attempt.fault);
        if err.None? {
          return true, pauses, attempts[|pauses| + 1..], t;
        }
        if attempt.cancelled {
          return false, pauses, attempts[|pauses| + 1..], t;
        }
        FailedOnce(attempts, pauses);
        NextPause(|pauses|);
        pauses := pauses + [backoff];
        backoff := if 2 * backoff <= 30 then 2 * backoff else 30;
      }
      return false, pauses, [], t;
    }

    /** Handles the messages of some frames, after those of earlier frames. */
    method HandleFrames(frames: seq<bytes>, attempts: seq<Attempt>, ghost before: Tables, ghost earlier: seq<bytes>,
                        ghost soFar: seq<Moment>)
      returns (done: bool, rest: seq<Attempt>, ghost times: seq<Moment>)
      requires |soFar| == |Messages(unmarshal, earlier)|
      requires service.store.db == HandleAll(service.settings, before, Messages(unmarshal, earlier), soFar)
      modifies service.store
      ensures HandledSoFar(service.settings, before, service.store.db, Messages(unmarshal, earlier + frames), times)
      ensures if done then |times| == |Messages(unmarshal, earlier + frames)|
              else |times| < |Messages(unmarshal, earlier + frames)|
      ensures done ==> SoundCalls(rest) + |Messages(unmarshal, frames)| >= SoundCalls(attempts)
      ensures done && NoneCancelled(attempts) ==> NoneCancelled(rest)
      ensures !done && NoneCancelled(attempts) ==> |times| >= |soFar| + SoundCalls(attempts)
    {
      hide SoundCalls, NoneCancelled, Handled, Remembered, HandleAll, Messages;
      rest := attempts;
      times := soFar;
      assert earlier + frames[..0] == earlier;
      for i := 0 to |frames|
        invariant |times| == |Messages(unmarshal, earlier + frames[..i])|
        invariant service.store.db
               == HandleAll(service.settings, before, Messages(unmarshal, earlier + frames[..i]), times)
        invariant SoundCalls(rest) + |Messages(unmarshal, frames[..i])| >= SoundCalls(attempts)
        invariant NoneCancelled(attempts) ==> NoneCancelled(rest)
      {
        NextFrame(unmarshal, [], frames, i);
        assert [] + frames[..i] == frames[..i] && [] + frames[..i + 1] == frames[..i + 1] && [] + frames == frames;
        ghost var calls := rest;
        ghost var handled := Messages(unmarshal, earlier + frames[..i]);
        NextFrame(unmarshal, earlier, frames, i);
        var message := unmarshal(frames[i]);
        if message.Failure? {
          assert handled + [] == handled;
          continue;
        }
        var ok, pauses;
        ghost var t;
        ok, pauses, rest, t := HandleUntilDone(message.value, rest);
        SpentOn(calls, |pauses|);
        MessagesAppend(unmarshal, earlier, frames[..i]);
        if !ok {
          StopHere(unmarshal, [], frames, i);
          StopHere(unmarshal, earlier, frames, i);
          assert Messages(unmarshal, earlier + frames)[..|times|] == handled;
          return false, rest, times;
        }
        HandleOneMore(service.settings, before, handled, times, message.value, t);
        times := times + [t];
      }
      MessagesEmpty(unmarshal);
      assert frames[..|frames|] == frames;
      assert Messages(unmarshal, earlier + frames)[..|times|] == Messages(unmarshal, earlier + frames);
      return true, rest, times;
    }

    /** The read loop. Until the connection ends each message of the input is handled exactly once and in
        order, whatever the read boundaries and however many attempts fail; cancellation stops between two
        messages, or inside one that is not archived. Without cancellation every sound call handles a
        message as long as there is one. */
    method ReadLoop(inputs: seq<Read>, attempts: seq<Attempt>) returns (ending: Ending, ghost times: seq<Moment>)
      modifies service.store
      ensures var messages := Messages(unmarshal, Scan(Input(inputs)).frames);
              && HandledSoFar(service.settings, old(service.store.db), service.store.db, messages, times)
              && ending == (if |times| == |messages| then EndOf(inputs) else Cancelled)
              && (NoneCancelled(attempts) && |times| < |messages| ==> |times| >= SoundCalls(attempts))
    {
      hide SoundCalls, NoneCancelled, Messages, HandleAll, Handled, Remembered, Scan, HandledSoFar;
      var framer := new Framer();
      ghost var before := service.store.db;
      ghost var seen: bytes := [];
      ghost var earlier: seq<bytes> := [];
      var rest := attempts;
      times := [];
      EmptyScan();
      MessagesEmpty(unmarshal);
      HandleNone(service.settings, before, times);
      for i := 0 to |inputs|
        invariant seen + Input(inputs[i..]) == Input(inputs)
        invariant EndOf(inputs[i..]) == EndOf(inputs)
        invariant SoundCalls(rest) + |Messages(unmarshal, earlier)| >= SoundCalls(attempts)
        invariant NoneCancelled(attempts) ==> NoneCancelled(rest)
        invariant Scan(seen).frames == earlier && Scan(seen).rest == framer.buffer
        invariant |times| == |Messages(unmarshal, earlier)|
        invariant service.store.db == HandleAll(service.settings, before, Messages(unmarshal, earlier), times)
      {
        var read := inputs[i];
        ghost var later := if read.end.More? then Input(inputs[i + 1..]) else [];
        assert inputs[i..][1..] == inputs[i + 1..];
        if |read.data| > 0 {
          FramingTheorems.ScanAppend(seen, read.data);
          assert (seen + read.data) + later == Input(inputs);
          var frames, errs := framer.Push(read.data);
          MessagesAppend(unmarshal, earlier, frames);
          var done;
          done, rest, times := HandleFrames(frames, rest, before, earlier, times);
          seen, earlier := seen + read.data, earlier + frames;
          if !done {
            WholeInput(unmarshal, service.settings, before, service.store.db, times, seen, later);
            LongerInput(unmarshal, seen, later);
            return Cancelled, times;
          }
          Finished(service.settings, before, service.store.db, Messages(unmarshal, earlier), times);
        }
        if !read.end.More? {
          assert seen == Input(inputs);
          FinishedSoFar(service.settings, before, service.store.db, Messages(unmarshal, earlier), times);
          return if read.end.Eof? then EndOfInput else ReadFailed, times;
        }
      }
      assert seen == Input(inputs);
      FinishedSoFar(service.settings, before, service.store.db, Messages(unmarshal, earlier), times);
      return Cancelled, times;
    }

    /** The configuration request: on success exactly its frame was written. */
    method RequestConfig(port: Port, random: uint32, writes: seq<WriteOutcome>) returns (err: Option<SerialError>)
      requires |writes| >= 4 + MAX_FRAME
      modifies port
      ensures var request := marshalRequest(if random == 0 then 1 else random);
              && (err.None? ==> request.Success? && ValidSize(|request.value|)
                                && port.written == old(port.written) + Encoded(request.value))
              && (request.Success? && ValidSize(|request.value|) && Accepting(writes) ==> err.None?)
              && (err == Some(MarshalFailed) <==> request.Failure?)
              && (err == Some(BadFrame) <==> request.Success? && !ValidSize(|request.value|))
    {
      var configID := random;
      if configID == 0 {
        configID := 1;
      }
      var payload := marshalRequest(configID);
      if payload.Failure? {
        return Some(MarshalFailed);
      }
      var frame := EncodeFrame(payload.value);
      if frame.Failure? {
        return Some(BadFrame);
      }
      assert |frame.value| == 4 + |payload.value|;
      ghost var sent;
      err, sent := WriteAll(port, frame.value, writes);
      assert frame.value[..|frame.value|] == frame.value;
    }

    /** The archive grows by exactly one row for each packet among the messages handled, in stream order.
        Unless the run is cancelled while a call fails, those are all messages of the input as soon as the
        database works for as many calls. The start fails only with the request or its writes. */
    method Consume(port: Port, random: uint32, writes: seq<WriteOutcome>, inputs: seq<Read>, attempts: seq<Attempt>)
      returns (ending: Ending, ghost times: seq<Moment>)
      requires |writes| >= 4 + MAX_FRAME
      modifies port, service.store
      ensures var request := marshalRequest(if random == 0 then 1 else random);
              && (request.Success? && ValidSize(|request.value|) && Accepting(writes) ==> !ending.StartFailed?)
              && (!ending.StartFailed? ==> request.Success? && ValidSize(|request.value|)
                                           && port.written == old(port.written) + Encoded(request.value))
      ensures ending.StartFailed? ==> service.store.db == old(service.store.db)
      ensures !ending.StartFailed? ==>
                var messages := Messages(unmarshal, Scan(Input(inputs)).frames);
                && HandledSoFar(service.settings, old(service.store.db), service.store.db, messages, times)
                && TimelessAll(service.store.db.packets)
                   == TimelessAll(old(service.store.db).packets) + ExpectedRows(service.settings, messages[..|times|])
                && ending == (if messages[..|times|] == messages then EndOf(inputs) else Cancelled)
                && (NoneCancelled(attempts) && |times| < |messages| ==> |times| >= SoundCalls(attempts))
    {
      hide SoundCalls, NoneCancelled, HandledSoFar, Scan, Encoded, Messages, TimelessAll, ExpectedRows;
      var err := RequestConfig(port, random, writes);
      if err.Some? {
        return StartFailed(err.value), [];
      }
      ending, times := ReadLoop(inputs, attempts);
      CancelledPrefix(service.settings, old(service.store.db), service.store.db,
                      Messages(unmarshal, Scan(Input(inputs)).frames), times);
      EndsWell(inputs);
    }
  }

  // ------------------------------------------------------------------ why the loops are right

  lemma EndsWell(inputs: seq<Read>)
    ensures !EndOf(inputs).StartFailed?
  {
  }

  lemma EmptyScan()
    ensures Scan([]) == Scanned([], [], [])
  {
  }

  lemma NextFrame(unmarshal: Unmarshal, earlier: seq<bytes>, frames: seq<bytes>, i: nat)
    requires i < |frames|
    ensures Messages(unmarshal, earlier + frames[..i + 1])
         == Messages(unmarshal, earlier + frames[..i]) + FrameMessage(unmarshal, frames[i])
  {
    assert (earlier + frames[..i + 1])[..|earlier| + i] == earlier + frames[..i];
  }

  /** What an attempt at one message uses up. */
  lemma SpentOn(attempts: seq<Attempt>, k: nat)
    requires k <= |attempts| && forall j | 0 <= j < k :: attempts[j].fault != SOUND
    ensures k < |attempts| ==> SoundCalls(attempts[k + 1..]) + 1 >= SoundCalls(attempts)
    ensures k < |attempts| && NoneCancelled(attempts) ==> NoneCancelled(attempts[k + 1..]) && !attempts[k].cancelled
    ensures k == |attempts| ==> SoundCalls(attempts) == 0
  {
    SoundCallsAfter(attempts, k);
    hide SoundCalls;
    assert k == |attempts| ==> attempts[k..] == [];
    NoCalls();
  }

  lemma NoCalls()
    ensures SoundCalls([]) == 0
  {
  }

  lemma MessagesEmpty(unmarshal: Unmarshal)
    ensures Messages(unmarshal, []) == []
  {
  }

  lemma StopHere(unmarshal: Unmarshal, earlier: seq<bytes>, frames: seq<bytes>, i: nat)
    requires i < |frames|
    ensures Messages(unmarshal, earlier + frames)
         == Messages(unmarshal, earlier + frames[..i]) + FrameMessage(unmarshal, frames[i])
            + Messages(unmarshal, frames[i + 1..])
  {
    hide Messages, FrameMessage;
    NextFrame(unmarshal, earlier, frames, i);
    assert earlier + frames == (earlier + frames[..i + 1]) + frames[i + 1..];
    MessagesAppend(unmarshal, earlier + frames[..i + 1], frames[i + 1..]);
  }

  lemma Finished(s: Settings, before: Tables, after: Tables, messages: seq<Message>, times: seq<Moment>)
    requires HandledSoFar(s, before, after, messages, times) && |times| == |messages|
    ensures after == HandleAll(s, before, messages, times)
  {
    assert messages[..|times|] == messages;
    hide HandleAll, Remembered;
  }

  lemma FinishedSoFar(s: Settings, before: Tables, after: Tables, messages: seq<Message>, times: seq<Moment>)
    requires |times| == |messages| && after == HandleAll(s, before, messages, times)
    ensures HandledSoFar(s, before, after, messages, times)
  {
    assert messages[..|times|] == messages;
    hide HandleAll, Remembered;
  }

  /** Messages of a first part of the input are a prefix of the whole input's. */
  lemma WholeInput(unmarshal: Unmarshal, s: Settings, before: Tables, after: Tables, times: seq<Moment>,
                   seen: bytes, later: bytes)
    requires HandledSoFar(s, before, after, Messages(unmarshal, Scan(seen).frames), times)
    ensures HandledSoFar(s, before, after, Messages(unmarshal, Scan(seen + later).frames), times)
  {
    hide HandleAll, Remembered, Scan, Messages;
    FramingTheorems.ScanAppend(seen, later);
    var more := Scan(Scan(seen).rest + later).frames;
    MessagesAppend(unmarshal, Scan(seen).frames, more);
    var part, whole := Messages(unmarshal, Scan(seen).frames), Messages(unmarshal, Scan(seen + later).frames);
    assert whole == part + Messages(unmarshal, more);
    assert whole[..|times|] == part[..|times|];
  }

  lemma LongerInput(unmarshal: Unmarshal, seen: bytes, later: bytes)
    ensures |Messages(unmarshal, Scan(seen).frames)| <= |Messages(unmarshal, Scan(seen + later).frames)|
  {
    hide Scan, Messages;
    FramingTheorems.ScanAppend(seen, later);
    MessagesAppend(unmarshal, Scan(seen).frames, Scan(Scan(seen).rest + later).frames);
  }

  lemma HandleNone(s: Settings, db: Tables, times: seq<Moment>)
    requires times == []
    ensures HandleAll(s, db, [], times) == db
  {
  }

  // ------------------------------------------------------------------ exactly once, in order

  /** A packet row with its receive time blanked out: what the message alone determines. */
  function Timeless(row: PacketRow): PacketRow {
    row.(receivedAt := "")
  }

  function TimelessAll(rows: seq<PacketRow>): (r: seq<PacketRow>)
    ensures |r| == |rows|
  {
    seq(|rows|, i requires 0 <= i < |rows| => Timeless(rows[i]))
  }

  /** One row for each message that carries a packet, in stream order. */
  function ExpectedRows(s: Settings, messages: seq<Message>): seq<PacketRow>
    decreases |messages|
  {
    if messages == [] then []
    else ExpectedRows(s, messages[..|messages| - 1]) + TimelessAll(NewRows(s, messages[|messages| - 1], Moment(0, 0)))
  }

  lemma TimelessAppend(a: seq<PacketRow>, b: seq<PacketRow>)
    ensures TimelessAll(a + b) == TimelessAll(a) + TimelessAll(b)
  {
  }

  /** Only the receive time of a packet's row depends on when the packet is handled. */
  lemma RowIsTimeless(s: Settings, message: Message, t: Moment, t': Moment)
    ensures TimelessAll(NewRows(s, message, t)) == TimelessAll(NewRows(s, message, t'))
  {
    if message.PacketMessage? {
      JudgedAlike(s.codec, message.packet, t.receivedAt, t'.receivedAt, s.decodePositionApp);
      hide Judge, FormatTime;
    }
  }

  lemma JudgedAlike(codec: Codec, packet: MeshPacket, a: Instant, b: Instant, decodePositionApp: bool)
    ensures var v, w := Judge(codec, packet, a, decodePositionApp), Judge(codec, packet, b, decodePositionApp);
            v.status == w.status && v.error == w.error
  {
    hide Degrees, NodeID, Callsigns;
  }

  /** The archive grows by exactly one row for each packet of the stream, in stream order, whenever and
      after however many failures each one is handled. */
  lemma {:induction false} ExactlyOnce(s: Settings, db: Tables, messages: seq<Message>, times: seq<Moment>)
    requires |messages| == |times|
    ensures db.packets <= HandleAll(s, db, messages, times).packets
    ensures TimelessAll(HandleAll(s, db, messages, times).packets)
         == TimelessAll(db.packets) + ExpectedRows(s, messages)
    decreases |messages|
  {
    hide Handled, NewRows, Timeless, TimelessAll;
    if messages != [] {
      var n := |messages| - 1;
      var db1 := HandleAll(s, db, messages[..n], times[..n]);
      ExactlyOnce(s, db, messages[..n], times[..n]);
      HandledPackets(s, db1, messages[n], times[n]);
      TimelessAppend(db1.packets, NewRows(s, messages[n], times[n]));
      RowIsTimeless(s, messages[n], times[n], Moment(0, 0));
      assert (TimelessAll(db.packets) + ExpectedRows(s, messages[..n])) + TimelessAll(NewRows(s, messages[n], times[n]))
          == TimelessAll(db.packets) + (ExpectedRows(s, messages[..n]) + TimelessAll(NewRows(s, messages[n], times[n])));
    }
  }

  /** A run that was cancelled archived exactly the packets before the message it stopped at. */
  lemma CancelledPrefix(s: Settings, before: Tables, after: Tables, messages: seq<Message>, times: seq<Moment>)
    requires HandledSoFar(s, before, after, messages, times)
    ensures |times| <= |messages|
    ensures TimelessAll(after.packets) == TimelessAll(before.packets) + ExpectedRows(s, messages[..|times|])
  {
    hide HandleAll, Remembered, Handled, NewRows, TimelessAll;
    var db := HandleAll(s, before, messages[..|times|], times);
    ExactlyOnce(s, before, messages[..|times|], times);
    if after != db {
      RememberedPackets(s, db, messages[|times|]);
    }
  }

  /** Two runs over the same bytes that reach the end of input archive the same packets, however the reads
      were cut, whatever failed, and whenever each packet was handled. */
  lemma ReadBoundariesDoNotMatter(s: Settings, unmarshal: Unmarshal, before: Tables, after: Tables, after': Tables,
                                  inputs: seq<Read>, inputs': seq<Read>, times: seq<Moment>, times': seq<Moment>)
    requires Input(inputs) == Input(inputs')
    requires |times| == |times'| == |Messages(unmarshal, Scan(Input(inputs)).frames)|
    requires HandledSoFar(s, before, after, Messages(unmarshal, Scan(Input(inputs)).frames), times)
    requires HandledSoFar(s, before, after', Messages(unmarshal, Scan(Input(inputs')).frames), times')
    ensures TimelessAll(after.packets) == TimelessAll(after'.packets)
  {
    hide HandledSoFar, TimelessAll, ExpectedRows, Scan, Messages;
    var messages := Messages(unmarshal, Scan(Input(inputs)).frames);
    CancelledPrefix(s, before, after, messages, times);
    CancelledPrefix(s, before, after', messages, times');
  }
}
