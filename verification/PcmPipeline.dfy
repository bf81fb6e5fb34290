/**
 The PCM path of `voice-service`: a reader task cuts ffmpeg's output into frames and sends them through
 a bounded channel, and every 20 ms the send loop moves frames into a bounded buffer and encodes one
 frame or silence.  Reader and loop run on different threads, so their steps interleave freely.
 */
module PcmPipeline {
  import opened Collections

  type Frame = Bytes

  /** The sizes `playback_loop` sets up; `target` frames end the initial buffering. */
  datatype Config = Config(frameBytes: nat, limit: nat, capacity: nat, target: nat)

  datatype EndCause = EndOfFile | ReadError | Cancelled | ReceiverGone

  datatype Reader = Reading | Holding | Closed(cause: EndCause)

  datatype Packet = Real(frame: Frame) | Silence

  datatype Exit = EndOfStream | ByCancel | NoPcm | Underrun | EncodeError

  /** Where the send loop is between two accesses to what it shares with the reader. */
  datatype Phase = Top | Draining(attempt: nat) | Checking | Buffering | Choosing | Late | Encoding | Exited(how: Exit)

  datatype State = State(
    unread: Bytes,           // what ffmpeg will still deliver before it closes its output
    read: seq<Frame>,        // complete frames read so far
    reader: Reader,
    held: seq<Frame>,        // the frame the reader is sending, if any
    channel: seq<Frame>,
    buf: seq<Frame>,         // pcm_buf
    hand: seq<Frame>,        // the real frame of this tick, if any
    phase: Phase,
    prebuffering: bool,
    firstSeen: bool,         // logged_first_pcm
    silent: nat,             // underruns_consecutive
    packets: seq<Packet>,
    cancelled: bool)

  function Start(source: Bytes): State {
    State(source, [], Reading, [], [], [], [], Top, true, false, 0, [], false)
  }

  // ---------------------------------------------------------------- pcm_buffer.rs

  predicate Ready(queued: nat, target: nat, closed: bool) {
    queued >= target || (closed && queued > 0)
  }

  /** Channel and queue after at most `attempts` turns of the drain loop. */
  function Drained(channel: seq<Frame>, queue: seq<Frame>, limit: nat, attempts: nat, frameBytes: nat): (seq<Frame>, seq<Frame>)
    decreases attempts
  {
    if attempts == 0 || |queue| >= limit || channel == [] then (channel, queue)
    else Drained(channel[1..], if |channel[0]| == frameBytes then queue + [channel[0]] else queue,
                 limit, attempts - 1, frameBytes)
  }

  class Buffers {
    var channel: seq<Frame>
    var queue: seq<Frame>

    constructor (channel: seq<Frame>, queue: seq<Frame>)
      ensures this.channel == channel && this.queue == queue
    {
      this.channel, this.queue := channel, queue;
    }

    /** `drain_bounded`, while the sender is quiet. */
    method DrainBounded(limit: nat, frameBytes: nat)
      modifies this
      ensures (channel, queue) == Drained(old(channel), old(queue), limit, limit, frameBytes)
    {
      var attempt := 0;
      while attempt < limit
        invariant 0 <= attempt <= limit
        invariant Drained(channel, queue, limit, limit - attempt, frameBytes)
               == Drained(old(channel), old(queue), limit, limit, frameBytes)
      {
        if |queue| >= limit {
          break;
        }
        if channel == [] {
          break;
        }
        var frame := channel[0];
        channel := channel[1..];
        if |frame| == frameBytes {
          queue := queue + [frame];
        }
        attempt := attempt + 1;
      }
    }
  }

  /** A drain keeps the order, drops malformed frames only, leaves the excess where it was, and stops
      only because the queue is full, the channel is empty or the attempts are used up. */
  lemma {:induction false} DrainKeepsOrder(channel: seq<Frame>, queue: seq<Frame>, limit: nat, attempts: nat, frameBytes: nat) returns (taken: nat)
    ensures taken <= |channel| && taken <= attempts
    ensures Drained(channel, queue, limit, attempts, frameBytes)
         == (channel[taken..], queue + Filter((f: Frame) => |f| == frameBytes, channel[..taken]))
    ensures |Drained(channel, queue, limit, attempts, frameBytes).1| <= (if |queue| > limit then |queue| else limit)
    ensures taken == attempts || taken == |channel| || |Drained(channel, queue, limit, attempts, frameBytes).1| >= limit
    decreases attempts
  {
    var ok := (f: Frame) => |f| == frameBytes;
    if attempts == 0 || |queue| >= limit || channel == [] {
      taken := 0;
      assert queue + Filter(ok, channel[..0]) == queue;
    } else {
      var next := if |channel[0]| == frameBytes then queue + [channel[0]] else queue;
      var rest := DrainKeepsOrder(channel[1..], next, limit, attempts - 1, frameBytes);
      taken := rest + 1;
      assert channel[1..][rest..] == channel[taken..];
      assert channel[..taken][0] == channel[0] && channel[..taken][1..] == channel[1..][..rest];
      assert next + Filter(ok, channel[1..][..rest]) == queue + Filter(ok, channel[..taken]);
    }
  }

  // ---------------------------------------------------------------- the two tasks

  datatype Action =
    | Cancel
    | ReadOne | EndReading(cause: EndCause) | SendOne          // reader task
    | SeeCancel | Tick | DrainOne | Check(timeout: bool)       // send loop
    | EndBuffering | Choose | WaitLate(timeout: bool) | Encode(ok: bool)

  predicate Open(s: State) {
    !s.reader.Closed?
  }

  predicate Enabled(c: Config, s: State, a: Action) {
    match a
    case Cancel => true
    case ReadOne => s.reader == Reading && |s.unread| >= c.frameBytes > 0
    case EndReading(EndOfFile) => s.reader == Reading && |s.unread| < c.frameBytes
    case EndReading(ReadError) => s.reader == Reading
    case EndReading(Cancelled) => !s.reader.Closed? && s.cancelled
    case EndReading(ReceiverGone) => s.reader == Holding && s.phase.Exited?
    case SendOne => s.reader == Holding && |s.channel| < c.capacity && !s.phase.Exited?
    case SeeCancel => s.phase == Top && s.cancelled
    case Tick => s.phase == Top
    case DrainOne => s.phase.Draining?
    case Check(_) => s.phase == Checking
    case EndBuffering => s.phase == Buffering
    case Choose => s.phase == Choosing
    case WaitLate(timeout) => s.phase == Late && (s.channel != [] || s.reader.Closed? || timeout)
    case Encode(_) => s.phase == Encoding
  }

  function Step(c: Config, s: State, a: Action): State
    requires Enabled(c, s, a)
  {
    match a
    case Cancel => s.(cancelled := true)
    case ReadOne =>
      var frame := s.unread[..c.frameBytes];
      s.(unread := s.unread[c.frameBytes..], read := s.read + [frame], held := [frame], reader := Holding)
    case EndReading(cause) => s.(reader := Closed(cause))
    case SendOne => s.(channel := s.channel + s.held, held := [], reader := Reading)
    case SeeCancel => s.(phase := Exited(ByCancel))
    case Tick => s.(phase := Draining(0))
    case DrainOne => Drain(c, s)
    case Check(timeout) =>
      if !Open(s) && s.channel == [] && s.buf == [] then s.(phase := Exited(EndOfStream))
      else if !s.firstSeen && s.buf == [] && timeout then s.(phase := Exited(NoPcm))
      else s.(firstSeen := s.firstSeen || s.buf != [], phase := Buffering)
    case EndBuffering =>
      s.(prebuffering := s.prebuffering && !Ready(|s.buf|, c.target, !Open(s)), phase := Choosing)
    case Choose =>
      if s.prebuffering then s.(hand := [], phase := Encoding)
      else if s.buf != [] then s.(hand := Sized(c, s.buf[0]), buf := s.buf[1..], phase := Encoding)
      else s.(phase := Late)
    case WaitLate(timeout) =>
      if s.channel != [] then s.(hand := Sized(c, s.channel[0]), channel := s.channel[1..], phase := Encoding)
      else if !Open(s) then s.(phase := Exited(EndOfStream))
      else s.(hand := [], phase := Encoding)
    case Encode(ok) => EncodeOne(s, ok)
  }

  /** One turn of `drain_bounded`. */
  function Drain(c: Config, s: State): State
    requires s.phase.Draining?
  {
    if s.phase.attempt >= c.limit || |s.buf| >= c.limit || s.channel == [] then s.(phase := Checking)
    else
      s.(channel := s.channel[1..], buf := s.buf + Sized(c, s.channel[0]), phase := Draining(s.phase.attempt + 1))
  }

  /** A frame of the wrong size is dropped. */
  function Sized(c: Config, frame: Frame): seq<Frame> {
    if |frame| == c.frameBytes then [frame] else []
  }

  const MAX_SILENT := 150

  /** Too many silent ticks in a row are a failure; otherwise the frame or silence is encoded. */
  function EncodeOne(s: State, ok: bool): State {
    var silent := if s.hand == [] then s.silent + 1 else 0;
    if s.firstSeen && silent >= MAX_SILENT then s.(silent := silent, phase := Exited(Underrun))
    else if !ok then s.(silent := silent, phase := Exited(EncodeError))
    else
      s.(silent := silent, packets := s.packets + [if s.hand == [] then Silence else Real(s.hand[0])],
         hand := [], phase := Top)
  }

  /** Drain steps one after the other until the loop moves on. */
  function DrainThrough(c: Config, s: State): State
    requires s.phase.Draining?
    decreases c.limit - s.phase.attempt
  {
    var t := Drain(c, s);
    if t.phase.Draining? then DrainThrough(c, t) else t
  }

  /** Without a reader step in between, the drain steps do what `drain_bounded` does in one go. */
  lemma {:induction false} DrainStepsAreDrainBounded(c: Config, s: State)
    requires s.phase.Draining? && s.phase.attempt <= c.limit
    ensures
      var t := DrainThrough(c, s);
      (t.channel, t.buf) == Drained(s.channel, s.buf, c.limit, c.limit - s.phase.attempt, c.frameBytes)
    decreases c.limit - s.phase.attempt
  {
    var t := Drain(c, s);
    if t.phase.Draining? {
      assert s.buf + [] == s.buf;
      DrainStepsAreDrainBounded(c, t);
    }
  }

  // ---------------------------------------------------------------- conservation

  /** The real frames among the packets, in order. */
  function Reals(packets: seq<Packet>): seq<Frame> {
    if packets == [] then []
    else
      var last := packets[|packets| - 1];
      Reals(packets[..|packets| - 1]) + (if last.Real? then [last.frame] else [])
  }

  /** Silent packets at the end. */
  function Trailing(packets: seq<Packet>): nat {
    if packets == [] || packets[|packets| - 1].Real? then 0 else 1 + Trailing(packets[..|packets| - 1])
  }

  /** The complete frames of a byte stream. */
  function Frames(bytes: Bytes, size: nat): seq<Frame>
    requires size > 0
    decreases |bytes|
  {
    if |bytes| < size then [] else [bytes[..size]] + Frames(bytes[size..], size)
  }

  /** Every frame on its way from the packets back to the reader. */
  function OnTheWay(s: State): seq<Frame> {
    Reals(s.packets) + s.hand + s.buf + s.channel + s.held
  }

  ghost predicate Sizes(c: Config, s: State) {
    && (forall f :: f in s.read ==> |f| == c.frameBytes)
    && |s.buf| <= c.limit && |s.channel| <= c.capacity
    && |s.hand| <= 1 && |s.held| <= 1
  }

  ghost predicate ReaderOk(c: Config, s: State) {
    && (s.reader != Holding ==> s.held == [] || (s.reader.Closed? && s.reader.cause in {Cancelled, ReceiverGone}))
    && (s.reader == Holding ==> |s.held| == 1)
    && (s.reader == Closed(EndOfFile) ==> |s.unread| < c.frameBytes)
    && (s.reader == Closed(Cancelled) ==> s.cancelled)
    && (s.reader == Closed(ReceiverGone) ==> s.phase.Exited?)
  }

  ghost predicate LoopOk(s: State) {
    && (s.hand != [] ==> s.phase == Encoding || s.phase == Exited(EncodeError))
    && (s.phase == Late ==> s.buf == [])
    && (s.phase == Exited(EndOfStream) ==>
          s.reader.Closed? && s.reader.cause != ReceiverGone && s.channel == [] && s.buf == [])
    && (s.phase == Exited(ByCancel) ==> s.cancelled)
    && (if s.phase == Exited(Underrun) then s.silent >= MAX_SILENT && Trailing(s.packets) + 1 == s.silent
        else s.phase != Exited(EncodeError) ==> Trailing(s.packets) == s.silent)
  }

  ghost predicate Ok(c: Config, source: Bytes, s: State)
    requires c.frameBytes > 0
  {
    && OnTheWay(s) == s.read
    && Frames(source, c.frameBytes) == s.read + Frames(s.unread, c.frameBytes)
    && Sizes(c, s) && ReaderOk(c, s) && LoopOk(s)
  }

  lemma StartOk(c: Config, source: Bytes)
    requires c.frameBytes > 0
    ensures Ok(c, source, Start(source))
  {
    assert [] + Frames(source, c.frameBytes) == Frames(source, c.frameBytes);
  }

  /** Frames on the way are complete, so no size check of the loop ever drops one. */
  lemma NothingMalformed(c: Config, source: Bytes, s: State)
    requires c.frameBytes > 0 && Ok(c, source, s)
    ensures s.channel != [] ==> Sized(c, s.channel[0]) == [s.channel[0]]
    ensures s.buf != [] ==> Sized(c, s.buf[0]) == [s.buf[0]]
  {
    hide Frames, Reals;
    if s.channel != [] {
      assert s.channel[0] in OnTheWay(s);
    }
    if s.buf != [] {
      assert s.buf[0] in OnTheWay(s);
    }
  }

  lemma ReadKeepsOk(c: Config, source: Bytes, s: State)
    requires c.frameBytes > 0 && Ok(c, source, s) && Enabled(c, s, ReadOne)
    ensures Ok(c, source, Step(c, s, ReadOne))
  {
    hide Reals;
    var frame := s.unread[..c.frameBytes];
    assert s.read + Frames(s.unread, c.frameBytes) == s.read + [frame] + Frames(s.unread[c.frameBytes..], c.frameBytes);
    assert OnTheWay(Step(c, s, ReadOne)) == OnTheWay(s) + [frame];
  }

  lemma SendKeepsOk(c: Config, source: Bytes, s: State)
    requires c.frameBytes > 0 && Ok(c, source, s) && Enabled(c, s, SendOne)
    ensures Ok(c, source, Step(c, s, SendOne))
  {
    hide Reals, Frames, Trailing;
    assert OnTheWay(Step(c, s, SendOne)) == OnTheWay(s);
  }

  /** Moving a frame from the front of one stretch to the end of the one before it. */
  lemma Regroup(before: seq<Frame>, mid: seq<Frame>, x: Frame, rest: seq<Frame>, after: seq<Frame>)
    ensures before + (mid + [x]) + rest + after == before + mid + ([x] + rest) + after
  {
  }

  lemma DrainOnTheWay(c: Config, s: State)
    requires s.phase.Draining? && (s.channel != [] ==> Sized(c, s.channel[0]) == [s.channel[0]])
    ensures OnTheWay(Drain(c, s)) == OnTheWay(s)
  {
    hide Reals;
    if s.channel != [] {
      assert s.channel == [s.channel[0]] + s.channel[1..];
      Regroup(Reals(s.packets) + s.hand, s.buf, s.channel[0], s.channel[1..], s.held);
    }
  }

  lemma DrainKeepsOk(c: Config, source: Bytes, s: State)
    requires c.frameBytes > 0 && Ok(c, source, s) && s.phase.Draining?
    ensures Ok(c, source, Drain(c, s))
  {
    hide Reals, Frames, Trailing, OnTheWay, Sized, Drain, ReaderOk, LoopOk;
    NothingMalformed(c, source, s);
    DrainOnTheWay(c, s);
    DrainFrame(c, s);
  }

  /** What a drain step leaves alone. */
  lemma DrainFrame(c: Config, s: State)
    requires s.phase.Draining? && (s.channel != [] ==> Sized(c, s.channel[0]) == [s.channel[0]])
    ensures
      var t := Drain(c, s);
      && t.read == s.read && t.unread == s.unread && t.hand == s.hand && t.held == s.held
      && |t.channel| <= |s.channel| && (|s.buf| <= c.limit ==> |t.buf| <= c.limit)
      && (ReaderOk(c, s) ==> ReaderOk(c, t)) && (LoopOk(s) ==> LoopOk(t))
  {
    hide Trailing;
  }

  lemma ChooseOnTheWay(c: Config, s: State)
    requires s.phase == Choosing && s.hand == [] && (s.buf != [] ==> Sized(c, s.buf[0]) == [s.buf[0]])
    ensures OnTheWay(Step(c, s, Choose)) == OnTheWay(s)
  {
    hide Reals;
    if s.buf != [] {
      assert s.buf == [s.buf[0]] + s.buf[1..];
      assert Reals(s.packets) + [] == Reals(s.packets);
      Regroup(Reals(s.packets), [], s.buf[0], s.buf[1..], s.channel + s.held);
      assert [] + [s.buf[0]] == [s.buf[0]];
    }
  }

  lemma ChooseKeepsOk(c: Config, source: Bytes, s: State)
    requires c.frameBytes > 0 && Ok(c, source, s) && s.phase == Choosing
    ensures Ok(c, source, Step(c, s, Choose))
  {
    hide Reals, Frames, Trailing, OnTheWay;
    NothingMalformed(c, source, s);
    ChooseOnTheWay(c, s);
  }

  lemma LateOnTheWay(c: Config, s: State, timeout: bool)
    requires Enabled(c, s, WaitLate(timeout)) && s.hand == [] && s.buf == []
    requires s.channel != [] ==> Sized(c, s.channel[0]) == [s.channel[0]]
    ensures OnTheWay(Step(c, s, WaitLate(timeout))) == OnTheWay(s)
  {
    hide Reals, Sized, Enabled;
    if s.channel != [] {
      FirstOfChannel(Reals(s.packets), s.channel, s.held);
    }
  }

  lemma FirstOfChannel(before: seq<Frame>, channel: seq<Frame>, held: seq<Frame>)
    requires channel != []
    ensures before + [channel[0]] + [] + channel[1..] + held == before + [] + [] + channel + held
  {
    assert channel == [channel[0]] + channel[1..];
  }

  lemma LateKeepsOk(c: Config, source: Bytes, s: State, timeout: bool)
    requires c.frameBytes > 0 && Ok(c, source, s) && Enabled(c, s, WaitLate(timeout))
    ensures Ok(c, source, Step(c, s, WaitLate(timeout)))
  {
    hide Reals, Frames, Trailing, OnTheWay;
    NothingMalformed(c, source, s);
    LateOnTheWay(c, s, timeout);
  }

  lemma EncodeOnTheWay(s: State, ok: bool)
    requires s.phase == Encoding && |s.hand| <= 1
    ensures OnTheWay(EncodeOne(s, ok)) == OnTheWay(s)
  {
    var t := EncodeOne(s, ok);
    if t.phase == Top {
      assert t.packets[..|t.packets| - 1] == s.packets;
      assert Reals(t.packets) == Reals(s.packets) + s.hand;
      assert Reals(t.packets) + [] == Reals(t.packets);
    }
  }

  lemma EncodeCountsSilence(s: State, ok: bool)
    requires s.phase == Encoding && LoopOk(s)
    ensures LoopOk(EncodeOne(s, ok))
  {
    hide Trailing;
    TrailingAfter(s.packets, if s.hand == [] then Silence else Real(s.hand[0]));
  }

  lemma TrailingAfter(packets: seq<Packet>, p: Packet)
    ensures Trailing(packets + [p]) == if p.Real? then 0 else Trailing(packets) + 1
  {
    assert (packets + [p])[..|packets|] == packets;
  }

  lemma EncodeKeepsOk(c: Config, source: Bytes, s: State, ok: bool)
    requires c.frameBytes > 0 && Ok(c, source, s) && s.phase == Encoding
    ensures Ok(c, source, EncodeOne(s, ok))
  {
    hide Frames, Reals, Trailing, OnTheWay, LoopOk;
    EncodeOnTheWay(s, ok);
    EncodeCountsSilence(s, ok);
  }

  predicate Quiet(a: Action) {
    a.Cancel? || a.EndReading? || a.SeeCancel? || a.Tick? || a.Check? || a.EndBuffering?
  }

  /** Steps that move no frame. */
  lemma QuietFrame(c: Config, s: State, a: Action)
    requires Quiet(a) && Enabled(c, s, a)
    ensures
      var t := Step(c, s, a);
      && t.read == s.read && t.unread == s.unread && t.packets == s.packets && t.hand == s.hand
      && t.buf == s.buf && t.channel == s.channel && t.held == s.held
  {
  }

  lemma QuietReader(c: Config, s: State, a: Action)
    requires Quiet(a) && Enabled(c, s, a) && ReaderOk(c, s)
    ensures ReaderOk(c, Step(c, s, a))
  {
  }

  lemma QuietLoop(c: Config, s: State, a: Action)
    requires Quiet(a) && Enabled(c, s, a) && LoopOk(s) && ReaderOk(c, s)
    ensures LoopOk(Step(c, s, a))
  {
    hide Trailing;
  }

  lemma QuietKeepsOk(c: Config, source: Bytes, s: State, a: Action)
    requires c.frameBytes > 0 && Ok(c, source, s) && Enabled(c, s, a) && Quiet(a)
    ensures Ok(c, source, Step(c, s, a))
  {
    hide Reals, Frames, Step, Enabled, Quiet, ReaderOk, LoopOk;
    QuietFrame(c, s, a);
    QuietReader(c, s, a);
    QuietLoop(c, s, a);
  }

  lemma StepKeepsOk(c: Config, source: Bytes, s: State, a: Action)
    requires c.frameBytes > 0 && Ok(c, source, s) && Enabled(c, s, a)
    ensures Ok(c, source, Step(c, s, a))
  {
    hide Ok;
    match a
    case ReadOne => ReadKeepsOk(c, source, s);
    case SendOne => SendKeepsOk(c, source, s);
    case DrainOne => DrainKeepsOk(c, source, s);
    case Choose => ChooseKeepsOk(c, source, s);
    case WaitLate(timeout) => LateKeepsOk(c, source, s, timeout);
    case Encode(ok) => EncodeKeepsOk(c, source, s, ok);
    case _ => QuietKeepsOk(c, source, s, a);
  }

  // ---------------------------------------------------------------- runs

  ghost predicate IsRun(c: Config, source: Bytes, run: seq<State>, acts: seq<Action>) {
    && |run| == |acts| + 1 && run[0] == Start(source)
    && forall i :: 0 <= i < |acts| ==> Enabled(c, run[i], acts[i]) && run[i + 1] == Step(c, run[i], acts[i])
  }

  lemma {:induction false} RunKeepsOk(c: Config, source: Bytes, run: seq<State>, acts: seq<Action>, i: nat)
    requires c.frameBytes > 0 && IsRun(c, source, run, acts) && i < |run|
    ensures forall k :: 0 <= k <= i ==> Ok(c, source, run[k])
  {
    hide Ok, Step, Enabled;
    if i == 0 {
      StartOk(c, source);
    } else {
      RunKeepsOk(c, source, run, acts, i - 1);
      StepKeepsOk(c, source, run[i - 1], acts[i - 1]);
    }
  }

  /** At every step: encoded, then buffered, then queued, then held frames are the frames read, in order,
      which are the first frames of ffmpeg's output; and both queues respect their limits. */
  lemma FramesAreConserved(c: Config, source: Bytes, run: seq<State>, acts: seq<Action>, i: nat)
    requires c.frameBytes > 0 && IsRun(c, source, run, acts) && i < |run|
    ensures Reals(run[i].packets) + run[i].hand + run[i].buf + run[i].channel + run[i].held == run[i].read
    ensures run[i].read <= Frames(source, c.frameBytes)
    ensures |run[i].buf| <= c.limit && |run[i].channel| <= c.capacity
  {
    hide Step, Enabled, Frames, Reals;
    RunKeepsOk(c, source, run, acts, i);
  }

  /** An uncancelled exit at the end of the stream has encoded every frame read; when the reader stopped
      because ffmpeg closed its output, that is every complete frame of the output. */
  lemma EndOfStreamEncodedEverything(c: Config, source: Bytes, run: seq<State>, acts: seq<Action>, i: nat)
    requires c.frameBytes > 0 && IsRun(c, source, run, acts) && i < |run|
    requires run[i].phase == Exited(EndOfStream) && !run[i].cancelled
    ensures Reals(run[i].packets) == run[i].read
    ensures run[i].reader != Closed(ReadError) ==> Reals(run[i].packets) == Frames(source, c.frameBytes)
  {
    hide Step, Enabled, Reals;
    RunKeepsOk(c, source, run, acts, i);
    var s := run[i];
    assert OnTheWay(s) == Reals(s.packets);
    if s.reader == Closed(EndOfFile) {
      assert Frames(s.unread, c.frameBytes) == [];
      assert s.read + [] == s.read;
    }
  }

  /** Playback fails for want of data only after 149 silent packets in a row, at the 150th silent tick. */
  lemma UnderrunNeedsSilence(c: Config, source: Bytes, run: seq<State>, acts: seq<Action>, i: nat)
    requires c.frameBytes > 0 && IsRun(c, source, run, acts) && i < |run|
    requires run[i].phase == Exited(Underrun)
    ensures Trailing(run[i].packets) >= MAX_SILENT - 1
  {
    hide Step, Enabled, Reals, Frames;
    RunKeepsOk(c, source, run, acts, i);
  }

  /** With a closed channel and frames left, buffering ends at once: a short tail is not held back. */
  lemma TailIsNotHeldBack(c: Config, s: State)
    requires s.phase == Buffering && s.reader.Closed? && s.buf != []
    ensures
      var t := Step(c, s, EndBuffering);
      && Enabled(c, t, Choose) && !t.prebuffering
      && Step(c, t, Choose).phase == Encoding && Step(c, t, Choose).buf == s.buf[1..]
  {
  }

  // ---------------------------------------------------------------- what a tick plays

  /** Steps of the reader task and of whoever cancels: the send loop stays where it is. */
  predicate Elsewhere(a: Action) {
    a.Cancel? || a.ReadOne? || a.EndReading? || a.SendOne?
  }

  /** A tick without data: still prebuffering, or nothing buffered and the late wait ran out on an empty channel. */
  predicate NoData(s: State, a: Action) {
    || (a.Choose? && s.prebuffering)
    || (a.WaitLate? && a.timeout && s.buf == [] && s.channel == [] && Open(s))
  }

  /** The frame a tick plays: the head of the buffer, or else of the channel. */
  function Next(s: State): seq<Frame> {
    if s.buf != [] then s.buf[..1] else if s.channel != [] then s.channel[..1] else []
  }

  /** A tick that turns to encoding plays the next frame unless it has no data. */
  lemma TickPlaysNext(c: Config, source: Bytes, s: State, a: Action)
    requires c.frameBytes > 0 && Ok(c, source, s) && Enabled(c, s, a) && (a.Choose? || a.WaitLate?)
    ensures
      var t := Step(c, s, a);
      && t.packets == s.packets && t.silent == s.silent
      && (t.phase == Encoding ==> t.hand == (if NoData(s, a) then [] else Next(s)) && (NoData(s, a) || t.hand != []))
  {
    hide Sized, Reals, Frames, Trailing;
    NothingMalformed(c, source, s);
  }

  lemma ElsewhereKeepsLoop(c: Config, s: State, a: Action)
    requires Enabled(c, s, a) && Elsewhere(a)
    ensures
      var t := Step(c, s, a);
      t.phase == s.phase && t.hand == s.hand && t.packets == s.packets && t.silent == s.silent && t.firstSeen == s.firstSeen
  {
  }

  /** Only these two steps turn to encoding. */
  lemma OtherStepsDoNotEncode(c: Config, s: State, a: Action)
    requires Enabled(c, s, a) && !Elsewhere(a) && !a.Choose? && !a.WaitLate?
    ensures
      var t := Step(c, s, a);
      t.phase != Encoding && (!a.Encode? ==> s.phase != Encoding && t.silent == s.silent)
  {
  }

  /** The tick that decided what is being encoded. */
  lemma {:induction false} DecidingTick(c: Config, source: Bytes, run: seq<State>, acts: seq<Action>, i: nat) returns (j: nat)
    requires c.frameBytes > 0 && IsRun(c, source, run, acts) && i < |run| && run[i].phase == Encoding
    ensures j < i && (acts[j].Choose? || acts[j].WaitLate?) && run[j + 1].phase == Encoding
    ensures run[j + 1].hand == run[i].hand
    ensures forall k :: j < k < i ==> Elsewhere(acts[k])
  {
    hide Enabled, Step;
    assert i > 0;
    var a := acts[i - 1];
    assert run[i - 1 + 1] == Step(c, run[i - 1], a);
    if Elsewhere(a) {
      ElsewhereKeepsLoop(c, run[i - 1], a);
      j := DecidingTick(c, source, run, acts, i - 1);
    } else {
      if !a.Choose? && !a.WaitLate? {
        OtherStepsDoNotEncode(c, run[i - 1], a);
      }
      j := i - 1;
    }
  }

  /**
   Over any run, whatever is encoded was decided by a tick: a real frame is the one that was next then, and
   silence means that there was no data.
   */
  lemma EncodedIsNext(c: Config, source: Bytes, run: seq<State>, acts: seq<Action>, i: nat)
    requires c.frameBytes > 0 && IsRun(c, source, run, acts) && i < |run| && run[i].phase == Encoding
    ensures exists j :: 0 <= j < i && (acts[j].Choose? || acts[j].WaitLate?) && (forall k :: j < k < i ==> Elsewhere(acts[k]))
                        && run[i].hand == if NoData(run[j], acts[j]) then [] else Next(run[j])
    ensures run[i].hand == [] ==> exists j :: 0 <= j < i && NoData(run[j], acts[j]) && forall k :: j < k < i ==> Elsewhere(acts[k])
  {
    hide Enabled, Step, NoData, Next;
    var j := DecidingTick(c, source, run, acts, i);
    RunKeepsOk(c, source, run, acts, j);
    TickPlaysNext(c, source, run[j], acts[j]);
    assert run[j + 1] == Step(c, run[j], acts[j]);
  }

  /** Once buffering has ended, a tick with a buffered frame ends in encoding exactly the head of the buffer. */
  lemma BufferedFrameIsPlayed(c: Config, source: Bytes, run: seq<State>, acts: seq<Action>, j: nat, i: nat)
    requires c.frameBytes > 0 && IsRun(c, source, run, acts) && j < i < |acts|
    requires acts[j] == Choose && !run[j].prebuffering && run[j].buf != []
    requires (forall k :: j < k < i ==> Elsewhere(acts[k])) && acts[i] == Encode(true)
    ensures run[i + 1].packets == run[j].packets + [Real(run[j].buf[0])] && run[i + 1].silent == 0
    ensures run[j + 1].buf == run[j].buf[1..]
  {
    hide Reals, Frames, Trailing, Sized;
    RunKeepsOk(c, source, run, acts, j);
    NothingMalformed(c, source, run[j]);
    assert run[j + 1] == Step(c, run[j], Choose);
    LoopWaits(c, source, run, acts, j + 1, i);
    assert run[i + 1] == Step(c, run[i], acts[i]);
  }

  lemma {:induction false} LoopWaits(c: Config, source: Bytes, run: seq<State>, acts: seq<Action>, j: nat, i: nat)
    requires IsRun(c, source, run, acts) && j <= i < |run| && forall k :: j <= k < i ==> Elsewhere(acts[k])
    ensures run[i].hand == run[j].hand && run[i].packets == run[j].packets && run[i].phase == run[j].phase
  {
    hide Enabled, Step;
    if j < i {
      LoopWaits(c, source, run, acts, j, i - 1);
      ElsewhereKeepsLoop(c, run[i - 1], acts[i - 1]);
      assert run[i - 1 + 1] == Step(c, run[i - 1], acts[i - 1]);
    }
  }

  /** Buffering goes on exactly while fewer frames than the target are there and more may come, or none is there. */
  lemma BufferingEnds(c: Config, s: State)
    requires s.phase == Buffering && s.prebuffering
    ensures Step(c, s, EndBuffering).prebuffering <==> |s.buf| < c.target && (Open(s) || s.buf == [])
  {
  }

  /** It never starts again. */
  lemma {:induction false} BufferingEndsOnce(c: Config, source: Bytes, run: seq<State>, acts: seq<Action>, i: nat, j: nat)
    requires IsRun(c, source, run, acts) && i <= j < |run| && !run[i].prebuffering
    ensures !run[j].prebuffering
  {
    hide Enabled;
    if i < j {
      BufferingEndsOnce(c, source, run, acts, i, j - 1);
      assert run[j - 1 + 1] == Step(c, run[j - 1], acts[j - 1]);
    }
  }

  /** Steps without data, in order, with no real frame encoded from the first of them to step `i`. */
  ghost predicate Starved(run: seq<State>, acts: seq<Action>, ticks: seq<nat>, i: nat)
    requires |run| == |acts| + 1 && i < |run|
  {
    && (forall m :: 0 <= m < |ticks| ==> ticks[m] < i && NoData(run[ticks[m]], acts[ticks[m]]))
    && (forall m, n :: 0 <= m < n < |ticks| ==> ticks[m] < ticks[n])
    && (ticks != [] ==> forall k :: ticks[0] <= k < i ==> !(acts[k].Encode? && run[k].hand != []))
  }

  /** Silent packets sent in a row, and the one about to be. */
  function Silences(s: State): nat {
    s.silent + if s.phase == Encoding && s.hand == [] then 1 else 0
  }

  lemma EncodeSilences(s: State, ok: bool)
    requires s.phase == Encoding
    ensures Silences(EncodeOne(s, ok)) == if s.hand != [] then 0 else Silences(s)
  {
  }

  lemma EncodeIs(c: Config, s: State, ok: bool)
    requires Enabled(c, s, Encode(ok))
    ensures s.phase == Encoding && Step(c, s, Encode(ok)) == EncodeOne(s, ok)
  {
  }

  lemma OneMoreStep(c: Config, source: Bytes, s: State, a: Action)
    requires c.frameBytes > 0 && Ok(c, source, s) && Enabled(c, s, a)
    ensures
      var t := Step(c, s, a);
      if a.Encode? && s.hand != [] then Silences(t) == 0
      else Silences(t) <= Silences(s) + if NoData(s, a) then 1 else 0
  {
    hide Step, Enabled, EncodeOne, NoData, Next, Ok;
    if Elsewhere(a) {
      ElsewhereKeepsLoop(c, s, a);
    } else if a.Encode? {
      EncodeIs(c, s, a.ok);
      EncodeSilences(s, a.ok);
    } else if a.Choose? || a.WaitLate? {
      TickPlaysNext(c, source, s, a);
    } else {
      OtherStepsDoNotEncode(c, s, a);
    }
  }

  lemma {:induction false} SilenceIsStarved(c: Config, source: Bytes, run: seq<State>, acts: seq<Action>, i: nat)
    requires c.frameBytes > 0 && IsRun(c, source, run, acts) && i < |run|
    ensures exists ticks: seq<nat> :: Starved(run, acts, ticks, i) && |ticks| >= Silences(run[i])
  {
    hide Enabled, Step, NoData, Silences, Ok;
    if i == 0 {
      assert Silences(run[0]) == 0 by { NothingSilent(source); }
      assert Starved(run, acts, [], 0);
    } else {
      SilenceIsStarved(c, source, run, acts, i - 1);
      var ticks: seq<nat> :| Starved(run, acts, ticks, i - 1) && |ticks| >= Silences(run[i - 1]);
      RunKeepsOk(c, source, run, acts, i - 1);
      OneMoreStep(c, source, run[i - 1], acts[i - 1]);
      assert run[i - 1 + 1] == Step(c, run[i - 1], acts[i - 1]);
      if acts[i - 1].Encode? && run[i - 1].hand != [] {
        assert Starved(run, acts, [], i);
      } else if NoData(run[i - 1], acts[i - 1]) {
        StarvedMore(run, acts, ticks, i - 1);
      } else {
        assert Starved(run, acts, ticks, i);
      }
    }
  }

  lemma NothingSilent(source: Bytes)
    ensures Silences(Start(source)) == 0
  {
  }

  lemma StarvedMore(run: seq<State>, acts: seq<Action>, ticks: seq<nat>, i: nat)
    requires |run| == |acts| + 1 && i < |acts| && Starved(run, acts, ticks, i) && NoData(run[i], acts[i])
    ensures Starved(run, acts, ticks + [i], i + 1)
  {
    var more := ticks + [i];
    forall m | 0 <= m < |more| ensures more[m] < i + 1 && NoData(run[more[m]], acts[more[m]]) {
      if m < |ticks| {
        assert more[m] == ticks[m];
      }
    }
    assert !acts[i].Encode?;
  }

  /** Playback fails for want of data only after 150 ticks that had none, with no real frame encoded among them. */
  lemma UnderrunMeansStarved(c: Config, source: Bytes, run: seq<State>, acts: seq<Action>, i: nat)
    requires c.frameBytes > 0 && IsRun(c, source, run, acts) && i < |run| && run[i].phase == Exited(Underrun)
    ensures exists ticks: seq<nat> :: Starved(run, acts, ticks, i) && |ticks| >= MAX_SILENT
  {
    hide Enabled, Step, NoData, Starved, Reals, Frames, Trailing;
    RunKeepsOk(c, source, run, acts, i);
    SilenceIsStarved(c, source, run, acts, i);
  }

  /** And a silent tick fails exactly if a frame has been seen and 149 packets before it were silent. */
  lemma UnderrunIff(c: Config, source: Bytes, run: seq<State>, acts: seq<Action>, i: nat)
    requires c.frameBytes > 0 && IsRun(c, source, run, acts) && i < |acts| && acts[i].Encode?
    ensures run[i + 1].phase == Exited(Underrun) <==>
      run[i].firstSeen && run[i].hand == [] && Trailing(run[i].packets) >= MAX_SILENT - 1
  {
    hide Reals, Frames, Trailing, Sizes, ReaderOk;
    RunKeepsOk(c, source, run, acts, i);
    assert run[i + 1] == Step(c, run[i], acts[i]);
  }

  // ---------------------------------------------------------------- the first frame

  /** Whether a frame was ever buffered is what the flag says; before that nothing but silence is played. */
  ghost predicate FlagOk(s: State) {
    && (!s.firstSeen ==> s.prebuffering && Reals(s.packets) == [] && s.hand == [])
    && (s.firstSeen ==> Reals(s.packets) != [] || s.hand != [] || s.buf != [])
    && (s.phase == Buffering && s.buf != [] ==> s.firstSeen)
    && (s.phase == Late ==> !s.prebuffering)
    && (!s.phase.Draining? && s.phase != Checking && !s.firstSeen ==> s.buf == [])
  }

  lemma RealsAfter(packets: seq<Packet>, p: Packet)
    ensures Reals(packets + [p]) == Reals(packets) + if p.Real? then [p.frame] else []
  {
    assert (packets + [p])[..|packets|] == packets;
  }

  lemma EncodeKeepsFlag(s: State, ok: bool)
    requires FlagOk(s) && s.phase == Encoding
    ensures FlagOk(EncodeOne(s, ok))
  {
    hide Reals;
    RealsAfter(s.packets, if s.hand == [] then Silence else Real(s.hand[0]));
  }

  /** Steps that leave these fields alone. */
  lemma SameFlag(s: State, t: State)
    requires FlagOk(s)
    requires t.phase == s.phase && t.buf == s.buf && t.hand == s.hand && t.packets == s.packets
    requires t.firstSeen == s.firstSeen && t.prebuffering == s.prebuffering
    ensures FlagOk(t)
  {
  }

  lemma ElsewhereKeepsFlag(c: Config, s: State, a: Action)
    requires FlagOk(s) && Enabled(c, s, a) && Elsewhere(a)
    ensures FlagOk(Step(c, s, a))
  {
    hide FlagOk;
    SameFlag(s, Step(c, s, a));
  }

  lemma DrainKeepsFlag(c: Config, s: State)
    requires FlagOk(s) && s.phase.Draining?
    ensures FlagOk(Drain(c, s))
  {
    hide Reals, Sized;
  }

  lemma ChooseKeepsFlag(c: Config, source: Bytes, s: State, a: Action)
    requires c.frameBytes > 0 && Ok(c, source, s) && FlagOk(s) && Enabled(c, s, a) && (a.Choose? || a.WaitLate?)
    ensures FlagOk(Step(c, s, a))
  {
    NothingMalformed(c, source, s);
    hide Reals, Sized, Frames, Trailing, OnTheWay, ReaderOk, Sizes;
  }

  /** The other steps of the loop. */
  lemma TurnKeepsFlag(c: Config, s: State, a: Action)
    requires c.target > 0 && FlagOk(s) && Enabled(c, s, a)
    requires a.SeeCancel? || a.Tick? || a.Check? || a.EndBuffering?
    ensures FlagOk(Step(c, s, a))
  {
    hide Reals, Sized, EncodeOne, Drain;
  }

  lemma StepKeepsFlag(c: Config, source: Bytes, s: State, a: Action)
    requires c.frameBytes > 0 && c.target > 0 && Ok(c, source, s) && FlagOk(s) && Enabled(c, s, a)
    ensures FlagOk(Step(c, s, a))
  {
    hide FlagOk, Ok, Drain, EncodeOne;
    if Elsewhere(a) {
      ElsewhereKeepsFlag(c, s, a);
    } else if a.Choose? || a.WaitLate? {
      ChooseKeepsFlag(c, source, s, a);
    } else if a.Encode? {
      EncodeKeepsFlag(s, a.ok);
    } else if a.DrainOne? {
      DrainKeepsFlag(c, s);
    } else {
      TurnKeepsFlag(c, s, a);
    }
  }

  lemma {:induction false} RunKeepsFlag(c: Config, source: Bytes, run: seq<State>, acts: seq<Action>, i: nat)
    requires c.frameBytes > 0 && c.target > 0 && IsRun(c, source, run, acts) && i < |run|
    ensures forall k :: 0 <= k <= i ==> FlagOk(run[k])
  {
    hide Ok, Step, Enabled;
    if i > 0 {
      RunKeepsFlag(c, source, run, acts, i - 1);
      RunKeepsOk(c, source, run, acts, i - 1);
      StepKeepsFlag(c, source, run[i - 1], acts[i - 1]);
    }
  }

  /** Playback gives up for want of a first frame exactly when the time is over, the stream has not ended and no
      frame was ever buffered. */
  lemma NoPcmIff(c: Config, source: Bytes, run: seq<State>, acts: seq<Action>, i: nat)
    requires c.frameBytes > 0 && c.target > 0 && IsRun(c, source, run, acts) && i < |acts| && acts[i].Check?
    ensures
      var s := run[i];
      var over := s.reader.Closed? && s.channel == [] && s.buf == [];
      run[i + 1].phase == Exited(NoPcm) <==> acts[i].timeout && !over && s.buf == [] && Reals(s.packets) == []
  {
    hide Reals, Frames, Trailing, Sizes, ReaderOk;
    RunKeepsFlag(c, source, run, acts, i);
    RunKeepsOk(c, source, run, acts, i);
    assert run[i + 1] == Step(c, run[i], acts[i]);
  }
}
