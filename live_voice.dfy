/**
 * The live-voice panel (components/LiveVoice.tsx): the session flags the component keeps, the
 * per-frame mute gate on the microphone path, the volume meter, and the playback scheduler that
 * chains the audio chunks the remote service sends into gapless playback on a virtual clock.
 *
 * Times are `real` seconds.  The output context's `currentTime` and the duration of a decoded
 * chunk are inputs of the message handler; decoding itself is not modelled: the handler is told
 * the decoded duration, or that decoding failed.  Each callback runs to completion before the
 * next one starts.
 */
module LiveVoice {
  import opened Options
  import opened Bytes

  type SourceId = nat
  type SessionHandle = nat
  /** One `updateVolume` chain: the frames it keeps requesting from the browser. */
  type LoopId = nat

  /** One block of captured samples handed to the outbound path (encoding is not modelled). */
  type AudioFrame = seq<real>

  /** `analyzer.fftSize`; the analyser then reports half as many frequency bins. */
  const FFT_SIZE: nat := 256
  const FREQUENCY_BIN_COUNT: nat := FFT_SIZE / 2

  const CONNECTION_ERROR: string := "Connection error. Please try again."
  const SETUP_ERROR: string := "Failed to access microphone or connect."

  // ---------------------------------------------------------------------------------------
  // Inbound messages: the part of the service's message shape the handler reads.
  // ---------------------------------------------------------------------------------------

  datatype InlineData = InlineData(data: Option<string>)
  datatype Part = Part(inlineData: Option<InlineData>)
  datatype ModelTurn = ModelTurn(parts: Option<seq<Part>>)
  datatype ServerContent = ServerContent(modelTurn: Option<ModelTurn>, interrupted: Option<bool>)
  datatype ServerMessage = ServerMessage(serverContent: Option<ServerContent>)

  /**
   * `message.serverContent?.modelTurn?.parts?.[0]?.inlineData?.data`: a payload is found only
   * when every link of the chain is present, and it is the one in the FIRST part; when every
   * link is present, the result is that part's `data`, whether present or not.
   */
  function InlineAudio(m: ServerMessage): (audio: Option<string>)
    ensures audio.Some? ==>
      m.serverContent.Some? && m.serverContent.value.modelTurn.Some? &&
      m.serverContent.value.modelTurn.value.parts.Some? &&
      |m.serverContent.value.modelTurn.value.parts.value| > 0 &&
      m.serverContent.value.modelTurn.value.parts.value[0].inlineData == Some(InlineData(audio))
    ensures (m.serverContent.Some? && m.serverContent.value.modelTurn.Some? &&
             m.serverContent.value.modelTurn.value.parts.Some? &&
             |m.serverContent.value.modelTurn.value.parts.value| > 0 &&
             m.serverContent.value.modelTurn.value.parts.value[0].inlineData.Some?) ==>
      audio == m.serverContent.value.modelTurn.value.parts.value[0].inlineData.value.data
  {
    match m.serverContent
    case None => None
    case Some(content) =>
      match content.modelTurn
      case None => None
      case Some(turn) =>
        match turn.parts
        case None => None
        case Some(parts) =>
          if |parts| == 0 then None
          else match parts[0].inlineData
            case None => None
            case Some(inline) => inline.data
  }

  /** `if (base64Audio)`: a missing payload and an empty string are both falsy. */
  predicate CarriesAudio(m: ServerMessage) {
    var audio := InlineAudio(m);
    audio.Some? && audio.value != ""
  }

  /** `if (message.serverContent?.interrupted)`. */
  predicate IsInterrupted(m: ServerMessage) {
    m.serverContent.Some? && m.serverContent.value.interrupted == Some(true)
  }

  /** A message whose first part carries the given payload and nothing else. */
  function AudioMessage(payload: string): ServerMessage {
    ServerMessage(Some(ServerContent(Some(ModelTurn(Some([Part(Some(InlineData(Some(payload))))]))), None)))
  }

  /**
   * A payload in the first part is found; it counts as audio exactly when it is not empty
   * (`""` is falsy); a payload in a later part, behind a first part without data, is not looked at.
   */
  lemma AudioMessageShape(payload: string, flag: Option<bool>)
    ensures InlineAudio(AudioMessage(payload)) == Some(payload)
    ensures CarriesAudio(AudioMessage(payload)) <==> payload != ""
    ensures !IsInterrupted(AudioMessage(payload))
    ensures !CarriesAudio(ServerMessage(Some(ServerContent(
      Some(ModelTurn(Some([Part(None), Part(Some(InlineData(Some(payload))))]))), flag))))
  {
  }

  /**
   * Only an `interrupted` flag that is present and true interrupts; a message without server
   * content neither interrupts nor carries audio.
   */
  lemma InterruptFlagShape(turn: Option<ModelTurn>, flag: Option<bool>)
    ensures IsInterrupted(ServerMessage(Some(ServerContent(turn, flag)))) <==> flag == Some(true)
    ensures !IsInterrupted(ServerMessage(None)) && !CarriesAudio(ServerMessage(None))
  {
  }

  // ---------------------------------------------------------------------------------------
  // The playback clock.
  // ---------------------------------------------------------------------------------------

  /** A buffer source as scheduled: when it starts and how long its buffer plays. */
  datatype Playback = Playback(start: real, duration: real) {
    function End(): real { start + duration }
  }

  /** A scheduled source together with the id of its node. */
  datatype Scheduled = Scheduled(id: SourceId, playback: Playback)

  /** `Math.max(nextStartTime, currentTime)`: the time a chunk that arrives now starts. */
  function StartAt(clock: real, now: real): (t: real)
    ensures t >= clock && t >= now
    ensures t == clock || t == now
  {
    if clock >= now then clock else now
  }

  /** A chunk as it reaches the scheduler: the output clock's time and its decoded duration. */
  datatype Arrival = Arrival(now: real, duration: real)

  /**
   * The playbacks a run of chunks receives when no interruption comes between them, each
   * chunk starting at `StartAt` of the running clock and advancing it by its duration.
   * `OnMessage` performs one step of it, and `PlayTwoChunks` shows that two successive calls
   * compute the two-chunk run; `RunSplits` extends that to any number of chunks.
   */
  function ScheduleRun(clock: real, chunks: seq<Arrival>): (plan: seq<Playback>)
    ensures |plan| == |chunks|
    decreases |chunks|
  {
    if chunks == [] then []
    else
      var start := StartAt(clock, chunks[0].now);
      [Playback(start, chunks[0].duration)] + ScheduleRun(start + chunks[0].duration, chunks[1..])
  }

  /** The clock after a run: the end of its last chunk, or the clock itself when there is none. */
  function ClockAfter(clock: real, chunks: seq<Arrival>): real
    decreases |chunks|
  {
    if chunks == [] then clock
    else ClockAfter(StartAt(clock, chunks[0].now) + chunks[0].duration, chunks[1..])
  }

  /**
   * A run is its first part followed by its second part on the clock the first part leaves:
   * scheduling chunk by chunk and scheduling the whole run agree.
   */
  lemma {:induction false} RunSplits(clock: real, xs: seq<Arrival>, ys: seq<Arrival>)
    ensures ScheduleRun(clock, xs + ys) == ScheduleRun(clock, xs) + ScheduleRun(ClockAfter(clock, xs), ys)
    decreases |xs|
  {
    if xs == [] {
      assert xs + ys == ys;
    } else {
      var start := StartAt(clock, xs[0].now);
      var head := [Playback(start, xs[0].duration)];
      assert (xs + ys)[1..] == xs[1..] + ys;
      RunSplits(start + xs[0].duration, xs[1..], ys);
      calc {
        ScheduleRun(clock, xs + ys);
        head + ScheduleRun(start + xs[0].duration, xs[1..] + ys);
        head + (ScheduleRun(start + xs[0].duration, xs[1..]) + ScheduleRun(ClockAfter(clock, xs), ys));
        (head + ScheduleRun(start + xs[0].duration, xs[1..])) + ScheduleRun(ClockAfter(clock, xs), ys);
      }
    }
  }

  /** The clock a run leaves is the end of its last chunk, or the clock itself for no chunks. */
  lemma {:induction false} ClockAfterIsLastEnd(clock: real, chunks: seq<Arrival>)
    requires chunks != []
    ensures ClockAfter(clock, chunks) == ScheduleRun(clock, chunks)[|chunks| - 1].End()
    decreases |chunks|
  {
    var start := StartAt(clock, chunks[0].now);
    if |chunks| > 1 {
      ClockAfterIsLastEnd(start + chunks[0].duration, chunks[1..]);
    }
  }

  ghost predicate Nonnegative(chunks: seq<Arrival>) {
    forall i :: 0 <= i < |chunks| ==> 0.0 <= chunks[i].now && 0.0 <= chunks[i].duration
  }

  function TotalDuration(chunks: seq<Arrival>): real
    decreases |chunks|
  {
    if chunks == [] then 0.0 else TotalDuration(chunks[..|chunks| - 1]) + chunks[|chunks| - 1].duration
  }

  /** Each chunk keeps its duration and starts no earlier than the clock or its own arrival. */
  lemma {:induction false} RunStartsAfterArrival(clock: real, chunks: seq<Arrival>, i: nat)
    requires i < |chunks|
    ensures ScheduleRun(clock, chunks)[i].duration == chunks[i].duration
    ensures ScheduleRun(clock, chunks)[i].start >= chunks[i].now
    ensures i == 0 || Nonnegative(chunks) ==> ScheduleRun(clock, chunks)[i].start >= clock
    decreases i
  {
    var start := StartAt(clock, chunks[0].now);
    if i > 0 {
      var rest := chunks[1..];
      assert Nonnegative(chunks) ==> Nonnegative(rest) && 0.0 <= chunks[0].duration by {
        if Nonnegative(chunks) {
          forall k | 0 <= k < |rest| ensures 0.0 <= rest[k].now && 0.0 <= rest[k].duration {
            assert rest[k] == chunks[k + 1];
          }
        }
      }
      RunStartsAfterArrival(start + chunks[0].duration, rest, i - 1);
    }
  }

  /** Successive chunks never overlap: each starts when the previous one ends or later. */
  lemma {:induction false} RunNeverOverlaps(clock: real, chunks: seq<Arrival>, i: nat)
    requires i + 1 < |chunks|
    ensures ScheduleRun(clock, chunks)[i + 1].start >= ScheduleRun(clock, chunks)[i].End()
    decreases i
  {
    var start := StartAt(clock, chunks[0].now);
    var rest := chunks[1..];
    if i == 0 {
      RunStartsAfterArrival(start + chunks[0].duration, rest, 0);
    } else {
      RunNeverOverlaps(start + chunks[0].duration, rest, i - 1);
    }
  }

  /** With non-negative durations, start times never go backwards. */
  lemma {:induction false} RunStartsNonDecreasing(clock: real, chunks: seq<Arrival>, i: nat, j: nat)
    requires Nonnegative(chunks)
    requires i <= j < |chunks|
    ensures ScheduleRun(clock, chunks)[i].start <= ScheduleRun(clock, chunks)[j].start
    decreases j - i
  {
    if i < j {
      RunNeverOverlaps(clock, chunks, i);
      RunStartsAfterArrival(clock, chunks, i);
      RunStartsNonDecreasing(clock, chunks, i + 1, j);
    }
  }

  /** The i-th chunk starts no earlier than the clock plus the durations of the chunks before it. */
  lemma {:induction false} RunStartsAfterEarlierDurations(clock: real, chunks: seq<Arrival>, i: nat)
    requires i < |chunks|
    ensures ScheduleRun(clock, chunks)[i].start >= clock + TotalDuration(chunks[..i])
  {
    if i == 0 {
      assert chunks[..0] == [];
      RunStartsAfterArrival(clock, chunks, 0);
    } else {
      RunStartsAfterEarlierDurations(clock, chunks, i - 1);
      RunNeverOverlaps(clock, chunks, i - 1);
      RunStartsAfterArrival(clock, chunks, i - 1);
      assert chunks[..i][..i - 1] == chunks[..i - 1];
    }
  }

  /** Chunks of 0.5 s arriving at 0, 0.3 and 1.2 start at 0, 0.5 and 1.2. */
  lemma ExampleRun()
    ensures ScheduleRun(0.0, [Arrival(0.0, 0.5), Arrival(0.3, 0.5), Arrival(1.2, 0.5)])
         == [Playback(0.0, 0.5), Playback(0.5, 0.5), Playback(1.2, 0.5)]
  {
    var chunks := [Arrival(0.0, 0.5), Arrival(0.3, 0.5), Arrival(1.2, 0.5)];
    assert chunks[1..][1..][1..] == [];
    assert ScheduleRun(1.7, chunks[1..][1..][1..]) == [];
  }

  // ---------------------------------------------------------------------------------------
  // The volume meter: the mean of the analyser's byte frequency bins.
  // ---------------------------------------------------------------------------------------

  /** `dataArray.reduce((a, b) => a + b, 0)`, folding from the left. */
  function BinSum(bins: seq<Byte>): (s: int)
    ensures 0 <= s <= 255 * |bins|
    decreases |bins|
  {
    if bins == [] then 0 else BinSum(bins[..|bins| - 1]) + bins[|bins| - 1]
  }

  /**
   * The sum divided by the bin count.  With no bins JavaScript yields NaN (0 / 0); that case is
   * None here.  Otherwise the level lies between 0 and 255.
   */
  function MeanLevel(bins: seq<Byte>): (level: Option<real>)
    ensures level.None? <==> |bins| == 0
    ensures level.Some? ==> 0.0 <= level.value <= 255.0
    ensures level.Some? ==> level.value * (|bins| as real) == BinSum(bins) as real
  {
    if |bins| == 0 then None
    else
      var n := |bins| as real;
      var s := BinSum(bins) as real;
      assert s <= 255.0 * n;
      var q := s / n;
      assert q * n == s;
      assert q <= 255.0;
      Some(q)
  }

  /** Bins that all hold the same value average to that value. */
  lemma {:induction false} ConstantBinsSum(bins: seq<Byte>, b: Byte)
    requires forall i :: 0 <= i < |bins| ==> bins[i] == b
    ensures BinSum(bins) == |bins| * b
    decreases |bins|
  {
    if bins != [] {
      ConstantBinsSum(bins[..|bins| - 1], b);
    }
  }

  lemma MeanOfConstantBins(bins: seq<Byte>, b: Byte)
    requires |bins| > 0
    requires forall i :: 0 <= i < |bins| ==> bins[i] == b
    ensures MeanLevel(bins) == Some(b as real)
  {
    ConstantBinsSum(bins, b);
    var n := |bins| as real;
    var v := MeanLevel(bins).value;
    assert v * n == (b as real) * n;
    assert (v - b as real) * n == 0.0;
  }

  // ---------------------------------------------------------------------------------------
  // The component: its state fields and refs, and one method per callback.
  // ---------------------------------------------------------------------------------------

  class LiveVoicePanel {
    /** `isConnected`, `isMuted`, `error`, `volumeLevel`: React state. */
    var isConnected: bool
    var isMuted: bool
    var error: Option<string>
    var volumeLevel: real
    /** `sessionRef`: the handle of the session being held, if any. */
    var session: Option<SessionHandle>
    /** Every session this panel has asked to close, in order (`s.close()`). */
    var closeRequests: seq<SessionHandle>
    /** `sourcesRef`: the active buffer sources, each with its scheduled playback. */
    var sources: map<SourceId, Playback>
    /** `nextStartTimeRef`: the virtual playback clock. */
    var nextStartTime: real
    /** How many buffer sources have been created; the next one gets this id. */
    var createdSources: nat
    /** The value of `isMuted` that the installed `onaudioprocess` closure captured. */
    var captureMuted: bool
    /** The volume loops still running: each requested its next frame and was not cancelled. */
    var loops: set<LoopId>
    /** The loop whose pending frame id `animationFrameRef` holds; every turn writes its own id. */
    var frameLoop: Option<LoopId>
    /** How many volume loops have been started; the next one gets this id. */
    var startedLoops: nat
    /** The frames sent to the session (`sendRealtimeInput`), in order. */
    var outbox: seq<AudioFrame>

    /**
     * The clock is never negative, the level is a mean of bytes, every active source has an
     * id that was handed out, and every active source ends no later than the clock: whatever
     * is scheduled next can not overlap anything still playing.
     */
    ghost predicate Valid()
      reads this
    {
      0.0 <= nextStartTime &&
      0.0 <= volumeLevel <= 255.0 &&
      forall id :: id in sources ==>
        id < createdSources &&
        0.0 <= sources[id].start && 0.0 <= sources[id].duration &&
        sources[id].End() <= nextStartTime
    }

    /** At most one volume loop runs, and it is the one `cancelAnimationFrame` would reach. */
    ghost predicate SingleLoop()
      reads this
    {
      forall l :: l in loops ==> frameLoop == Some(l)
    }

    /** The initial state of the component and of its refs. */
    constructor ()
      ensures Valid()
      ensures !isConnected && !isMuted && error.None? && volumeLevel == 0.0
      ensures session.None? && closeRequests == [] && sources == map[] && nextStartTime == 0.0
      ensures createdSources == 0 && !captureMuted && outbox == []
      ensures loops == {} && frameLoop.None? && startedLoops == 0
    {
      isConnected, isMuted, error, volumeLevel := false, false, None, 0.0;
      session, closeRequests, sources, nextStartTime := None, [], map[], 0.0;
      createdSources, captureMuted, outbox := 0, false, [];
      loops, frameLoop, startedLoops := {}, None, 0;
    }

    /**
     * `connect`, as written.  The error is cleared.  `setupSucceeds == false` stands for the
     * paths that reach the `catch`: the microphone is refused, or a synchronous call of the
     * audio setup throws; then the setup error is shown and nothing else changes.  The session
     * call is not awaited, so a session that fails to come up is a successful `Connect`
     * (its handle is held) followed, when the service reports it, by `OnError`.  On success the
     * handle is held, the frame callback captures the current `isMuted`, and one more volume
     * loop starts, whose frame id the ref now holds.  Loops already running are not stopped,
     * and the playback clock and the active sources stay as the previous call left them.
     */
    method Connect(setupSucceeds: bool, handle: SessionHandle)
      requires Valid()
      modifies this`error, this`session, this`captureMuted, this`loops, this`frameLoop, this`startedLoops
      ensures Valid()
      ensures setupSucceeds ==> error.None? && session == Some(handle) && captureMuted == isMuted
      ensures setupSucceeds ==>
        loops == old(loops) + {old(startedLoops)} &&
        frameLoop == Some(old(startedLoops)) && startedLoops == old(startedLoops) + 1
      ensures !setupSucceeds ==> error == Some(SETUP_ERROR) && session == old(session)
      ensures !setupSucceeds ==> captureMuted == old(captureMuted) && loops == old(loops)
      ensures !setupSucceeds ==> frameLoop == old(frameLoop) && startedLoops == old(startedLoops)
    {
      error := None;
      if !setupSucceeds {
        error := Some(SETUP_ERROR);
        return;
      }
      session := Some(handle);
      captureMuted := isMuted;
      var loop := startedLoops;
      startedLoops := startedLoops + 1;
      loops := loops + {loop};
      frameLoop := Some(loop);
    }

    /**
     * `connect` corrected: a successful setup starts the playback timeline of the new output
     * context afresh, and cancels the pending frame of the previous volume loop before it
     * starts its own, so that at most one loop ever runs.
     */
    method ConnectFresh(setupSucceeds: bool, handle: SessionHandle)
      requires Valid()
      modifies this`error, this`session, this`captureMuted, this`loops, this`frameLoop, this`startedLoops
      modifies this`sources, this`nextStartTime
      ensures Valid()
      ensures setupSucceeds ==> error.None? && session == Some(handle) && captureMuted == isMuted
      ensures setupSucceeds ==> sources == map[] && nextStartTime == 0.0
      ensures setupSucceeds ==>
        loops == old(loops) - Cancelled(old(frameLoop)) + {old(startedLoops)} &&
        frameLoop == Some(old(startedLoops)) && startedLoops == old(startedLoops) + 1
      ensures setupSucceeds && old(SingleLoop()) ==> loops == {old(startedLoops)} && SingleLoop()
      ensures !setupSucceeds ==> error == Some(SETUP_ERROR) && session == old(session)
      ensures !setupSucceeds ==> captureMuted == old(captureMuted) && loops == old(loops)
      ensures !setupSucceeds ==> frameLoop == old(frameLoop) && startedLoops == old(startedLoops)
      ensures !setupSucceeds ==> sources == old(sources) && nextStartTime == old(nextStartTime)
    {
      if setupSucceeds {
        loops := loops - Cancelled(frameLoop);
      }
      Connect(setupSucceeds, handle);
      if setupSucceeds {
        sources := map[];
        nextStartTime := 0.0;
      }
    }

    /** `onopen`: the session is up. */
    method OnOpen()
      modifies this`isConnected
      ensures isConnected
    {
      isConnected := true;
    }

    /** The mute button: flips `isMuted` and nothing else. */
    method ToggleMute()
      modifies this`isMuted
      ensures isMuted == !old(isMuted)
    {
      isMuted := !isMuted;
    }

    /**
     * `onaudioprocess`, as written: the gate reads the captured flag, so a muted capture sends
     * nothing and an unmuted one sends exactly this frame.
     */
    method OnAudioFrame(frame: AudioFrame)
      modifies this`outbox
      ensures outbox == old(outbox) + (if captureMuted then [] else [frame])
    {
      if captureMuted {
        return;
      }
      outbox := outbox + [frame];
    }

    /** The frame callback with its gate reading the current `isMuted`. */
    method OnAudioFrameLive(frame: AudioFrame)
      modifies this`outbox
      ensures outbox == old(outbox) + (if isMuted then [] else [frame])
    {
      if isMuted {
        return;
      }
      outbox := outbox + [frame];
    }

    /**
     * `onmessage`.  A message with audio first brings the clock up to `currentTime`; if the
     * chunk decodes, a new source is started at the clock, the clock advances by the chunk's
     * duration and the source joins the active set.  If decoding fails the handler stops right
     * there (the interruption flag of that message is not looked at).  Then, on `interrupted`,
     * every active source is stopped (including the one just scheduled), the set is emptied and
     * the clock goes back to 0.
     */
    method OnMessage(msg: ServerMessage, currentTime: real, decoded: Option<real>)
      returns (scheduled: Option<Scheduled>, stopped: set<SourceId>)
      requires Valid()
      requires 0.0 <= currentTime
      requires decoded.Some? ==> 0.0 <= decoded.value
      modifies this`sources, this`nextStartTime, this`createdSources
      ensures Valid()
      ensures scheduled.Some? <==> CarriesAudio(msg) && decoded.Some?
      ensures scheduled.Some? ==>
        var s := scheduled.value;
        s.id !in old(sources) &&
        s.playback == Playback(StartAt(old(nextStartTime), currentTime), decoded.value) &&
        (forall other :: other in old(sources) ==> old(sources)[other].End() <= s.playback.start) &&
        createdSources == old(createdSources) + 1
      ensures scheduled.None? ==> createdSources == old(createdSources)
      // decoding failed: the clock has been synced, nothing else happens
      ensures CarriesAudio(msg) && decoded.None? ==>
        stopped == {} && sources == old(sources) && nextStartTime == StartAt(old(nextStartTime), currentTime)
      // interrupted: everything that was playing, and the chunk just scheduled, is stopped
      ensures (!CarriesAudio(msg) || decoded.Some?) && IsInterrupted(msg) ==>
        stopped == old(sources).Keys + (if scheduled.Some? then {scheduled.value.id} else {}) &&
        sources == map[] && nextStartTime == 0.0
      // not interrupted: exactly the new source is added and the clock is at its end
      ensures !IsInterrupted(msg) && scheduled.Some? ==>
        stopped == {} &&
        sources == old(sources)[scheduled.value.id := scheduled.value.playback] &&
        nextStartTime == scheduled.value.playback.End()
      // neither audio nor interruption: clock and set are untouched
      ensures !CarriesAudio(msg) && !IsInterrupted(msg) ==>
        stopped == {} && sources == old(sources) && nextStartTime == old(nextStartTime)
    {
      scheduled, stopped := None, {};
      if CarriesAudio(msg) {
        nextStartTime := StartAt(nextStartTime, currentTime);
        if decoded.None? {
          return;
        }
        var id := createdSources;
        createdSources := createdSources + 1;
        var playback := Playback(nextStartTime, decoded.value);
        nextStartTime := nextStartTime + decoded.value;
        sources := sources[id := playback];
        scheduled := Some(Scheduled(id, playback));
      }
      if IsInterrupted(msg) {
        stopped := sources.Keys;
        sources := map[];
        nextStartTime := 0.0;
      }
    }

    /** A source's `ended` event: only that source leaves the set. */
    method OnEnded(id: SourceId)
      requires Valid()
      modifies this`sources
      ensures Valid()
      ensures sources == old(sources) - {id}
    {
      sources := sources - {id};
    }

    /** `onclose`: only the connected flag drops. */
    method OnClose()
      modifies this`isConnected
      ensures !isConnected
    {
      isConnected := false;
    }

    /**
     * `disconnect`: closes the held session, if there is one, and forgets it; cancels the frame
     * whose id the ref holds, which stops that one loop and no other; the panel is then
     * disconnected with a zero level.  The returned handle is the one closed by this call.
     */
    method Disconnect() returns (closed: Option<SessionHandle>)
      requires Valid()
      modifies this`session, this`closeRequests, this`loops, this`isConnected, this`volumeLevel
      ensures Valid()
      ensures closed == old(session)
      ensures closeRequests == old(closeRequests) + (if closed.Some? then [closed.value] else [])
      ensures loops == old(loops) - Cancelled(frameLoop)
      ensures old(SingleLoop()) ==> loops == {}
      ensures session.None? && !isConnected && volumeLevel == 0.0
    {
      closed := session;
      if session.Some? {
        closeRequests := closeRequests + [session.value];
        session := None;
      }
      loops := loops - Cancelled(frameLoop);
      isConnected := false;
      volumeLevel := 0.0;
    }

    /** `onerror`: the connection error is shown, then the panel disconnects. */
    method OnError() returns (closed: Option<SessionHandle>)
      requires Valid()
      modifies this`error, this`session, this`closeRequests, this`loops, this`isConnected, this`volumeLevel
      ensures Valid()
      ensures error == Some(CONNECTION_ERROR)
      ensures closed == old(session)
      ensures closeRequests == old(closeRequests) + (if closed.Some? then [closed.value] else [])
      ensures loops == old(loops) - Cancelled(frameLoop)
      ensures old(SingleLoop()) ==> loops == {}
      ensures session.None? && !isConnected && volumeLevel == 0.0
    {
      error := Some(CONNECTION_ERROR);
      closed := Disconnect();
    }

    /**
     * One turn of a running volume loop: the analyser fills an array of `frequencyBinCount`
     * bytes, the level becomes their mean, whether or not the panel is connected, and the
     * loop requests its next frame, whose id the ref now holds.
     */
    method OnAnimationFrame(loop: LoopId, bins: seq<Byte>)
      requires Valid() && loop in loops
      requires |bins| == FREQUENCY_BIN_COUNT
      modifies this`volumeLevel, this`frameLoop
      ensures Valid()
      ensures MeanLevel(bins) == Some(volumeLevel)
      ensures frameLoop == Some(loop)
      ensures old(SingleLoop()) ==> SingleLoop()
    {
      volumeLevel := MeanLevel(bins).value;
      frameLoop := Some(loop);
    }
  }

  /** The loops a `cancelAnimationFrame` of the ref's frame id stops: the one that requested it. */
  function Cancelled(frameLoop: Option<LoopId>): (stopped: set<LoopId>)
    ensures |stopped| <= 1
    ensures forall l :: l in stopped ==> frameLoop == Some(l)
  {
    if frameLoop.Some? then {frameLoop.value} else {}
  }

  /** Hanging up twice asks the session to close once: the second call finds no handle. */
  method DisconnectTwice(panel: LiveVoicePanel) returns (first: Option<SessionHandle>, second: Option<SessionHandle>)
    requires panel.Valid()
    modifies panel
    ensures panel.Valid()
    ensures first == old(panel.session) && second.None?
    ensures panel.closeRequests == old(panel.closeRequests) + (if first.Some? then [first.value] else [])
    ensures panel.session.None? && !panel.isConnected && panel.volumeLevel == 0.0
  {
    first := panel.Disconnect();
    second := panel.Disconnect();
  }

  /**
   * The mute button during a call, as written: connect unmuted, press mute, and the next frame
   * is still sent, because the frame callback kept the value `isMuted` had at connect time.
   */
  method MuteAfterConnectScenario() returns (muted: bool, sent: nat)
    ensures muted && sent == 1
  {
    var panel := new LiveVoicePanel();
    panel.Connect(true, 1);
    panel.OnOpen();
    panel.ToggleMute();
    panel.OnAudioFrame([0.0]);
    muted, sent := panel.isMuted, |panel.outbox|;
  }

  /** The same call with the gate reading the current flag: muting stops the frames. */
  method MuteAfterConnectScenarioLive() returns (muted: bool, sent: nat)
    ensures muted && sent == 0
  {
    var panel := new LiveVoicePanel();
    panel.Connect(true, 1);
    panel.OnOpen();
    panel.ToggleMute();
    panel.OnAudioFrameLive([0.0]);
    muted, sent := panel.isMuted, |panel.outbox|;
  }

  /**
   * Two calls, as written: the first plays a 30 s reply and is hung up without an interruption;
   * in the second call (a new output context, whose clock starts again near 0) the first chunk
   * arriving at 0.4 s is held back to 30 s.
   */
  method SecondCallScenario() returns (start: real)
    ensures start == 30.0
  {
    var panel := new LiveVoicePanel();
    panel.Connect(true, 1);
    panel.OnOpen();
    var first, _ := panel.OnMessage(AudioMessage("AAAA"), 0.0, Some(30.0));
    var closed := panel.Disconnect();
    panel.Connect(true, 2);
    panel.OnOpen();
    var second, _ := panel.OnMessage(AudioMessage("AAAA"), 0.4, Some(0.5));
    start := second.value.playback.start;
  }

  /** The same two calls with `ConnectFresh`: the second call's first chunk starts on arrival. */
  method SecondCallScenarioFresh() returns (start: real)
    ensures start == 0.4
  {
    var panel := new LiveVoicePanel();
    panel.ConnectFresh(true, 1);
    panel.OnOpen();
    var first, _ := panel.OnMessage(AudioMessage("AAAA"), 0.0, Some(30.0));
    var closed := panel.Disconnect();
    panel.ConnectFresh(true, 2);
    panel.OnOpen();
    var second, _ := panel.OnMessage(AudioMessage("AAAA"), 0.4, Some(0.5));
    start := second.value.playback.start;
  }

  /**
   * Two audio chunks in a row with no interruption: the two playbacks and the clock they leave
   * are exactly the two-chunk run of `ScheduleRun` from the clock before the first.
   */
  method PlayTwoChunks(panel: LiveVoicePanel, first: ServerMessage, t1: real, d1: real,
                       second: ServerMessage, t2: real, d2: real)
    returns (p1: Playback, p2: Playback)
    requires panel.Valid()
    requires CarriesAudio(first) && !IsInterrupted(first) && CarriesAudio(second) && !IsInterrupted(second)
    requires 0.0 <= t1 && 0.0 <= d1 && 0.0 <= t2 && 0.0 <= d2
    modifies panel
    ensures panel.Valid()
    ensures [p1, p2] == ScheduleRun(old(panel.nextStartTime), [Arrival(t1, d1), Arrival(t2, d2)])
    ensures panel.nextStartTime == ClockAfter(old(panel.nextStartTime), [Arrival(t1, d1), Arrival(t2, d2)])
  {
    var clock := panel.nextStartTime;
    var s1, _ := panel.OnMessage(first, t1, Some(d1));
    var s2, _ := panel.OnMessage(second, t2, Some(d2));
    p1, p2 := s1.value.playback, s2.value.playback;
    var a1, a2 := Arrival(t1, d1), Arrival(t2, d2);
    var mid := StartAt(clock, t1) + d1;
    assert [a1, a2][1..] == [a2];
    assert [a2][1..] == [];
    assert ScheduleRun(mid, [a2]) == [p2];
    assert ClockAfter(mid, [a2]) == panel.nextStartTime;
  }

  /**
   * Hanging up after the service closed a call and a new one was started, as written: the
   * first volume loop survives and keeps setting the level of a disconnected panel.
   */
  method HangUpAfterRemoteCloseScenario() returns (running: set<LoopId>, connected: bool, level: real)
    ensures running == {0} && !connected && level == 255.0
  {
    var panel := new LiveVoicePanel();
    panel.Connect(true, 1);
    panel.OnOpen();
    panel.OnClose();
    panel.Connect(true, 2);
    panel.OnOpen();
    var closed := panel.Disconnect();
    var bins: seq<Byte> := seq(FREQUENCY_BIN_COUNT, _ => 255);
    MeanOfConstantBins(bins, 255);
    panel.OnAnimationFrame(0, bins);
    running, connected, level := panel.loops, panel.isConnected, panel.volumeLevel;
  }

  /** The same calls with `ConnectFresh`: after the hang-up no volume loop runs. */
  method HangUpAfterRemoteCloseScenarioFresh() returns (running: set<LoopId>, connected: bool)
    ensures running == {} && !connected
  {
    var panel := new LiveVoicePanel();
    panel.ConnectFresh(true, 1);
    panel.OnOpen();
    panel.OnClose();
    panel.ConnectFresh(true, 2);
    panel.OnOpen();
    var closed := panel.Disconnect();
    running, connected := panel.loops, panel.isConnected;
  }
}
