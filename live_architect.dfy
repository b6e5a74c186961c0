/** views/LiveArchitectView.tsx: the live voice-session engine. A server message is applied
    to five pieces of state in a fixed order (transcript delta, turn completion, audio
    chunk, interruption); audio chunks are scheduled back to back on a playback cursor;
    microphone frames are converted to PCM16 and sent while the session runs.

    The pure layer (`Engine`, `Step`, …) states what one message does; the class
    `LiveSession` is the component, whose handlers update its fields in place and are
    proved to follow the pure layer. The audio device is abstract: a playback source is
    identified by the number of the `createBufferSource` call that made it, and `stopped`
    records the sources `stop()` was called on. */
module LiveArchitect {
  import opened Wrappers
  import opened Types
  import Base64
  import GeminiService

  type int16 = GeminiService.int16

  const OutputSampleRate: int := 24000
  const PcmMime: string := "audio/pcm;rate=16000"
  const InterruptedMarker: string := " [Interrupted]"
  const MicrophoneFailure: string := "Microphone Link Failure."
  const UplinkError: string := "Neural Uplink Error."

  datatype TranscriptLine = TranscriptLine(role: Role, text: string)

  /** A scheduled playback source: which `createBufferSource` call made it, when it starts
      and how long its buffer plays. */
  datatype Playback = Playback(node: nat, start: real, duration: real)

  /** The parts of a live server message the handler reads. `Some` marks a present
      transcription object (its text may be empty); `audio` is the first part's inline
      base64 data. */
  datatype ServerMessage = ServerMessage(
    outputTranscription: Option<string>,
    inputTranscription: Option<string>,
    turnComplete: bool,
    audio: Option<string>,
    interrupted: bool)

  /** One realtime input sent to the session. */
  datatype RealtimeInput = RealtimeInput(data: string, mimeType: string)

  /** The state the message handler works on. */
  datatype Engine = Engine(
    input: string,
    output: string,
    transcript: seq<TranscriptLine>,
    cursor: real,
    sources: set<Playback>,
    nextNode: nat,
    stopped: set<Playback>)

  function Max(a: real, b: real): (m: real)
    ensures m >= a && m >= b && (m == a || m == b)
  {
    if a >= b then a else b
  }

  // ---------------------------------------------------------------------------------
  // One server message

  /** Transcript delta: an output transcription is appended to the model accumulator;
      only when there is none is an input transcription appended to the user one. */
  function ApplyTranscription(e: Engine, msg: ServerMessage): (r: Engine)
    ensures r.input == e.input || r.output == e.output
    ensures msg.outputTranscription.Some? ==> r.input == e.input && r.output == e.output + msg.outputTranscription.value
    ensures msg.outputTranscription.None? && msg.inputTranscription.Some? ==>
      r.output == e.output && r.input == e.input + msg.inputTranscription.value
    ensures r.transcript == e.transcript && r.cursor == e.cursor && r.sources == e.sources
    ensures r.nextNode == e.nextNode && r.stopped == e.stopped
  {
    match (msg.outputTranscription, msg.inputTranscription)
    case (Some(text), _) => e.(output := e.output + text)
    case (None, Some(text)) => e.(input := e.input + text)
    case (None, None) => e
  }

  /** The line a non-empty accumulator becomes. */
  function LineOf(role: Role, text: string): seq<TranscriptLine> {
    if text == "" then [] else [TranscriptLine(role, text)]
  }

  /** Turn completion: the accumulators become transcript lines and are emptied. */
  function CompleteTurn(e: Engine): (r: Engine) {
    e.(transcript := e.transcript + LineOf(User, e.input) + LineOf(Model, e.output), input := "", output := "")
  }

  /** On turn completion a user line is emitted iff the input accumulator is non-empty and
      a model line iff the output accumulator is non-empty, the user line first; nothing
      earlier changes and both accumulators end empty. */
  lemma TurnLines(e: Engine)
    ensures var r := CompleteTurn(e);
      && r.input == "" && r.output == ""
      && |r.transcript| == |e.transcript| + (if e.input != "" then 1 else 0) + (if e.output != "" then 1 else 0)
      && r.transcript[..|e.transcript|] == e.transcript
      && (TranscriptLine(User, e.input) in r.transcript[|e.transcript|..] <==> e.input != "")
      && (TranscriptLine(Model, e.output) in r.transcript[|e.transcript|..] <==> e.output != "")
      && (e.input != "" ==> r.transcript[|e.transcript|] == TranscriptLine(User, e.input))
      && (e.output != "" ==> r.transcript[|r.transcript| - 1] == TranscriptLine(Model, e.output))
      && r.cursor == e.cursor && r.sources == e.sources && r.nextNode == e.nextNode && r.stopped == e.stopped
  {
    var t, u, m := e.transcript, TranscriptLine(User, e.input), TranscriptLine(Model, e.output);
    var r := CompleteTurn(e).transcript;
    if e.input != "" && e.output != "" {
      assert r == t + [u, m] && r[|t|..] == [u, m];
    } else if e.input != "" {
      assert r == t + [u] && r[|t|..] == [u];
    } else if e.output != "" {
      assert r == t + [m] && r[|t|..] == [m];
    } else {
      assert r == t && r[|t|..] == [];
    }
  }

  /** The playback length of a base64 chunk decoded as 24 kHz mono PCM16, or `None` when
      decoding throws (malformed base64, an odd byte count, or no frame at all). */
  function ChunkDuration(audio: string): (d: Option<real>)
    ensures d.Some? ==> d.value > 0.0
  {
    match Base64.Decode(audio)
    case None => None
    case Some(bytes) =>
      if |bytes| % 2 == 0 && |bytes| / 2 >= 1 then Some((|bytes| / 2) as real / OutputSampleRate as real) else None
  }

  /** A chunk of `duration` is started at the cursor by a new source, which joins the
      active set; the cursor moves to its end. */
  function Schedule(e: Engine, duration: real): (r: Engine) {
    e.(sources := e.sources + {Playback(e.nextNode, e.cursor, duration)},
       cursor := e.cursor + duration,
       nextNode := e.nextNode + 1)
  }

  /** Barge-in: every active source is stopped, the set is emptied, the cursor returns to 0
      and the marker is appended to the model accumulator. */
  function Interrupt(e: Engine): (r: Engine)
    ensures r.sources == {} && r.cursor == 0.0 && r.stopped == e.stopped + e.sources
    ensures r.output == e.output + InterruptedMarker
    ensures r.input == e.input && r.transcript == e.transcript && r.nextNode == e.nextNode
  {
    e.(stopped := e.stopped + e.sources, sources := {}, cursor := 0.0, output := e.output + InterruptedMarker)
  }

  /** `base64Audio && outputAudioContextRef.current`: an empty data string is falsy. */
  predicate HasAudio(msg: ServerMessage, outputContext: bool) {
    msg.audio.Some? && msg.audio.value != "" && outputContext
  }

  /** The whole handler for one message, the clock reading `now` (`ctx.currentTime`). The
      cursor is raised to `now` before the chunk is decoded; if decoding throws, the rest
      of the handler, the interruption included, does not run. */
  function Step(e: Engine, msg: ServerMessage, now: real, outputContext: bool): Engine {
    var e1 := ApplyTranscription(e, msg);
    var e2 := if msg.turnComplete then CompleteTurn(e1) else e1;
    if HasAudio(msg, outputContext) then
      var e3 := e2.(cursor := Max(e2.cursor, now));
      match ChunkDuration(msg.audio.value)
      case None => e3
      case Some(d) =>
        var e4 := Schedule(e3, d);
        if msg.interrupted then Interrupt(e4) else e4
    else if msg.interrupted then Interrupt(e2)
    else e2
  }

  /** The `ended` event of a source: it leaves the active set. */
  function EndPlayback(e: Engine, p: Playback): (r: Engine)
    ensures r.sources == e.sources - {p}
    ensures r.input == e.input && r.output == e.output && r.transcript == e.transcript
    ensures r.cursor == e.cursor && r.nextNode == e.nextNode && r.stopped == e.stopped
  {
    e.(sources := e.sources - {p})
  }

  /** `cleanup`: every active source is stopped, the set, both accumulators and the
      transcript are emptied. The cursor is left as it was. */
  function CleanupEngine(e: Engine): (r: Engine)
    ensures r.sources == {} && r.input == "" && r.output == "" && r.transcript == []
    ensures r.stopped == e.stopped + e.sources && r.cursor == e.cursor && r.nextNode == e.nextNode
  {
    e.(stopped := e.stopped + e.sources, sources := {}, transcript := [], input := "", output := "")
  }

  /** A sequence of messages, each with its clock reading. */
  function Run(e: Engine, msgs: seq<ServerMessage>, nows: seq<real>, outputContext: bool): Engine
    requires |msgs| == |nows|
    decreases |msgs|
  {
    if msgs == [] then e else Run(Step(e, msgs[0], nows[0], outputContext), msgs[1..], nows[1..], outputContext)
  }

  // ---------------------------------------------------------------------------------
  // Properties of the handler

  /** Every active source was made by an earlier `createBufferSource` call, plays for a
      positive time and ends by the cursor; sources made later start no earlier than
      earlier ones end. So no two active sources overlap. */
  predicate WellScheduled(e: Engine) {
    && (forall p | p in e.sources :: p.node < e.nextNode && p.duration > 0.0 && p.start + p.duration <= e.cursor)
    && (forall p, q | p in e.sources && q in e.sources && p.node == q.node :: p == q)
    && (forall p, q | p in e.sources && q in e.sources && p.node < q.node :: p.start + p.duration <= q.start)
  }

  lemma ScheduleKeeps(e: Engine, d: real)
    requires WellScheduled(e) && d > 0.0
    ensures WellScheduled(Schedule(e, d))
  {
    var r := Schedule(e, d);
    var n := Playback(e.nextNode, e.cursor, d);
    forall p, q | p in r.sources && q in r.sources && p.node < q.node
      ensures p.start + p.duration <= q.start
    {
      if q == n {
        assert p in e.sources;
      }
    }
  }

  /** The tail of the handler for a decoded chunk: scheduling, then the interruption if
      flagged. Only the new source can be added. */
  lemma ChunkKeepsSchedule(e: Engine, d: real, interrupted: bool)
    requires WellScheduled(e) && d > 0.0
    ensures var r := Schedule(e, d);
      var r' := if interrupted then Interrupt(r) else r;
      WellScheduled(r') && r'.sources <= e.sources + {Playback(e.nextNode, e.cursor, d)}
  {
    ScheduleKeeps(e, d);
  }

  /** One message keeps the schedule well formed, and a chunk it schedules starts no earlier
      than `now` and no earlier than every source already active ends. */
  lemma StepKeepsSchedule(e: Engine, msg: ServerMessage, now: real, outputContext: bool)
    requires WellScheduled(e)
    ensures WellScheduled(Step(e, msg, now, outputContext))
    ensures forall p | p in Step(e, msg, now, outputContext).sources && p !in e.sources ::
      p.start >= now && forall q | q in e.sources :: q.start + q.duration <= p.start
  {
    var e1 := ApplyTranscription(e, msg);
    var e2 := if msg.turnComplete then CompleteTurn(e1) else e1;
    assert e2.sources == e.sources && e2.cursor == e.cursor && e2.nextNode == e.nextNode;
    var r := Step(e, msg, now, outputContext);
    if HasAudio(msg, outputContext) {
      var e3 := e2.(cursor := Max(e2.cursor, now));
      assert WellScheduled(e3);
      match ChunkDuration(msg.audio.value)
      case None =>
        assert r == e3;
      case Some(d) =>
        ChunkKeepsSchedule(e3, d, msg.interrupted);
        assert r == if msg.interrupted then Interrupt(Schedule(e3, d)) else Schedule(e3, d);
    } else {
      assert r == if msg.interrupted then Interrupt(e2) else e2;
    }
  }

  /** The `ended` event keeps the schedule well formed. */
  lemma EndPlaybackKeepsSchedule(e: Engine, p: Playback)
    requires WellScheduled(e)
    ensures WellScheduled(EndPlayback(e, p))
  {
  }

  /** Any run of messages keeps the schedule well formed: active sources never overlap. */
  lemma {:induction false} RunKeepsSchedule(e: Engine, msgs: seq<ServerMessage>, nows: seq<real>, outputContext: bool)
    requires |msgs| == |nows| && WellScheduled(e)
    ensures WellScheduled(Run(e, msgs, nows, outputContext))
    decreases |msgs|
  {
    if msgs != [] {
      StepKeepsSchedule(e, msgs[0], nows[0], outputContext);
      RunKeepsSchedule(Step(e, msgs[0], nows[0], outputContext), msgs[1..], nows[1..], outputContext);
    }
  }

  /** Two chunks in a row: the second starts exactly where the first ends when the clock has
      not caught up with the cursor, so playback is gapless. */
  lemma GaplessChunks(e: Engine, a: ServerMessage, b: ServerMessage, now1: real, now2: real)
    requires HasAudio(a, true) && HasAudio(b, true) && !a.interrupted && !b.interrupted
    requires ChunkDuration(a.audio.value).Some? && ChunkDuration(b.audio.value).Some?
    requires now2 <= Max(e.cursor, now1) + ChunkDuration(a.audio.value).value
    ensures var e1 := Step(e, a, now1, true);
      var e2 := Step(e1, b, now2, true);
      && Playback(e.nextNode, Max(e.cursor, now1), ChunkDuration(a.audio.value).value) in e2.sources
      && Playback(e.nextNode + 1, Max(e.cursor, now1) + ChunkDuration(a.audio.value).value, ChunkDuration(b.audio.value).value) in e2.sources
  {
    var e1 := Step(e, a, now1, true);
    assert e1.nextNode == e.nextNode + 1;
    assert e1.cursor == Max(e.cursor, now1) + ChunkDuration(a.audio.value).value;
    assert Playback(e.nextNode, Max(e.cursor, now1), ChunkDuration(a.audio.value).value) in e1.sources;
  }

  /** After a barge-in the cursor is 0, so the next chunk starts right at `now`. */
  lemma ChunkAfterInterruptStartsNow(e: Engine, interrupt: ServerMessage, chunk: ServerMessage, now1: real, now2: real)
    requires interrupt.interrupted && !HasAudio(interrupt, true)
    requires HasAudio(chunk, true) && ChunkDuration(chunk.audio.value).Some? && !chunk.interrupted
    requires now2 >= 0.0
    ensures var e1 := Step(e, interrupt, now1, true);
      && e1.sources == {}
      && Step(e1, chunk, now2, true).sources == {Playback(e1.nextNode, now2, ChunkDuration(chunk.audio.value).value)}
  {
    var e1 := Step(e, interrupt, now1, true);
    var e2 := if interrupt.turnComplete then CompleteTurn(ApplyTranscription(e, interrupt)) else ApplyTranscription(e, interrupt);
    assert e1 == Interrupt(e2);
    assert e1.cursor == 0.0;
  }

  /** A delta arriving with `turnComplete` is part of the emitted line: the model line is the
      accumulated text followed by the delta. */
  lemma DeltaInCompletedTurn(e: Engine, msg: ServerMessage, now: real, outputContext: bool)
    requires msg.outputTranscription.Some? && msg.turnComplete && !HasAudio(msg, outputContext) && !msg.interrupted
    requires e.output + msg.outputTranscription.value != ""
    ensures var r := Step(e, msg, now, outputContext);
      && r.transcript[|r.transcript| - 1] == TranscriptLine(Model, e.output + msg.outputTranscription.value)
      && r.output == "" && r.input == ""
  {
    var e1 := ApplyTranscription(e, msg);
    assert Step(e, msg, now, outputContext) == CompleteTurn(e1);
  }

  /** Output deltas "He" and "llo" followed by `turnComplete` emit one model line "Hello". */
  lemma HelloExample(e: Engine, now: real)
    requires e.input == "" && e.output == ""
    ensures var m1 := ServerMessage(Some("He"), None, false, None, false);
      var m2 := ServerMessage(Some("llo"), None, false, None, false);
      var m3 := ServerMessage(None, None, true, None, false);
      Run(e, [m1, m2, m3], [now, now, now], true).transcript == e.transcript + [TranscriptLine(Model, "Hello")]
  {
    var m1 := ServerMessage(Some("He"), None, false, None, false);
    var m2 := ServerMessage(Some("llo"), None, false, None, false);
    var m3 := ServerMessage(None, None, true, None, false);
    var e1 := Step(e, m1, now, true);
    var e2 := Step(e1, m2, now, true);
    var e3 := Step(e2, m3, now, true);
    assert e1.output == "He" && e1.input == "" && e1.transcript == e.transcript;
    assert e2.output == "He" + "llo" && e2.input == "" && e2.transcript == e.transcript;
    assert "He" + "llo" == "Hello";
    assert e3 == CompleteTurn(e2);
    assert e3.transcript == e.transcript + [TranscriptLine(Model, "Hello")];
    assert [m1, m2, m3][1..] == [m2, m3] && [m2, m3][1..] == [m3];
    assert [now, now, now][1..] == [now, now] && [now, now][1..] == [now];
    assert Run(e2, [m3], [now], true) == Run(e3, [], [], true) == e3;
    assert Run(e1, [m2, m3], [now, now], true) == Run(e2, [m3], [now], true);
    assert Run(e, [m1, m2, m3], [now, now, now], true) == Run(e1, [m2, m3], [now, now], true);
  }

  /** A chunk that fails to decode aborts the handler: an interruption in the same message
      is not processed, though the cursor has already been raised to `now`. */
  lemma UndecodableChunkSkipsInterrupt(e: Engine, msg: ServerMessage, now: real)
    requires HasAudio(msg, true) && ChunkDuration(msg.audio.value).None? && msg.interrupted
    requires msg.outputTranscription.None? && msg.inputTranscription.None? && !msg.turnComplete
    ensures Step(e, msg, now, true) == e.(cursor := Max(e.cursor, now))
  {
  }

  /** Without an interruption a message never removes an active source, and it adds at
      most one. */
  lemma StepSources(e: Engine, msg: ServerMessage, now: real, outputContext: bool)
    ensures var r := Step(e, msg, now, outputContext);
      && (!msg.interrupted ==> e.sources <= r.sources && |r.sources - e.sources| <= 1)
      && (msg.interrupted && (!HasAudio(msg, outputContext) || ChunkDuration(msg.audio.value).Some?) ==> r.sources == {})
  {
    var e1 := ApplyTranscription(e, msg);
    var e2 := if msg.turnComplete then CompleteTurn(e1) else e1;
    assert e2.sources == e.sources;
    if HasAudio(msg, outputContext) && ChunkDuration(msg.audio.value).Some? && !msg.interrupted {
      var r := Step(e, msg, now, outputContext);
      assert r.sources == e.sources + {Playback(e.nextNode, Max(e.cursor, now), ChunkDuration(msg.audio.value).value)};
      assert r.sources - e.sources <= {Playback(e.nextNode, Max(e.cursor, now), ChunkDuration(msg.audio.value).value)};
    }
  }

  // ---------------------------------------------------------------------------------
  // Capture

  /** ECMAScript ToInt16, the conversion an Int16Array store applies: truncate toward zero,
      then wrap modulo 2^16 into [-32768, 32767]. */
  function ToInt16(x: real): int16 {
    var t := if x >= 0.0 then x.Floor else -((-x).Floor);
    var m := t % 65536;
    if m >= 32768 then m - 65536 else m
  }

  /** `int16[i] = inputData[i] * 32768` for every sample of the frame. */
  function CaptureSamples(frame: seq<real>): (s: seq<int16>)
    ensures |s| == |frame|
  {
    seq(|frame|, i requires 0 <= i < |frame| => ToInt16(frame[i] * 32768.0))
  }

  /** The base64 payload sent for a frame. */
  function FrameData(frame: seq<real>): string {
    Base64.Encode(GeminiService.PcmBytes(CaptureSamples(frame)))
  }

  /** A frame of n samples is sent as the base64 text of 2n bytes, which are the frame's
      samples in little-endian PCM16. */
  lemma FramePayload(frame: seq<real>)
    ensures Base64.Decode(FrameData(frame)) == Some(GeminiService.PcmBytes(CaptureSamples(frame)))
    ensures |Base64.Decode(FrameData(frame)).value| == 2 * |frame|
  {
    Base64.DecodeEncode(GeminiService.PcmBytes(CaptureSamples(frame)));
  }

  /** Samples strictly inside [-1, 1) are truncated without wrapping; a full-scale 1.0 is
      out of the 16-bit range and wraps to -32768 (capture does not clamp). */
  lemma CaptureRange(x: real)
    requires -1.0 <= x < 1.0
    ensures ToInt16(x * 32768.0) == if x >= 0.0 then (x * 32768.0).Floor else -((-(x * 32768.0)).Floor)
    ensures ToInt16(1.0 * 32768.0) == -32768
  {
    var y := x * 32768.0;
    assert -32768.0 <= y < 32768.0;
    if y >= 0.0 {
      assert 0 <= y.Floor < 32768;
    } else {
      assert 0 <= (-y).Floor <= 32768;
    }
    assert (32768.0).Floor == 32768;
  }

  /** The capture gate as written: the callback tests the mute flag it closed over when the
      session started, not the current one. */
  function SendsFrame(mutedAtStart: bool, mutedNow: bool): bool {
    !mutedAtStart
  }

  /** The gate the mute button evidently intends: the current mute flag. */
  function SendsFrameIntended(mutedAtStart: bool, mutedNow: bool): bool {
    !mutedNow
  }

  /** Muting during a session that started unmuted does not stop frames being sent, and
      unmuting a session that started muted does not resume them. */
  lemma StaleMuteGate()
    ensures SendsFrame(false, true) && !SendsFrame(true, false)
    ensures forall start, now :: SendsFrameIntended(start, now) <==> !now
    ensures exists start, now :: SendsFrame(start, now) != SendsFrameIntended(start, now)
  {
    assert SendsFrame(false, true) != SendsFrameIntended(false, true);
  }


  // ---------------------------------------------------------------------------------
  // The component

  /** The component's flags and capture log, which the message handler leaves alone. */
  datatype Controls = Controls(
    isActive: bool,
    isMuted: bool,
    error: Option<string>,
    streamHeld: bool,
    processorConnected: bool,
    hasOutputContext: bool,
    mutedAtStart: bool,
    sent: seq<RealtimeInput>)

  class LiveSession {
    var isActive: bool
    var isMuted: bool
    var error: Option<string>
    var transcriptions: seq<TranscriptLine>
    var inputTranscription: string
    var outputTranscription: string
    var nextStartTime: real
    var sources: set<Playback>
    var nextNode: nat
    var stopped: set<Playback>
    /** The microphone stream is held (`streamRef.current`). */
    var streamHeld: bool
    /** The capture processor is connected (`scriptProcessorRef.current`). */
    var processorConnected: bool
    /** `outputAudioContextRef.current` is set; nothing ever unsets it. */
    var hasOutputContext: bool
    /** The `isMuted` the capture callback closed over. */
    var mutedAtStart: bool
    /** What the capture callback has sent on the session. */
    var sent: seq<RealtimeInput>

    /** The state the message handler works on. */
    function State(): Engine
      reads this
    {
      Engine(inputTranscription, outputTranscription, transcriptions, nextStartTime, sources, nextNode, stopped)
    }

    function Flags(): Controls
      reads this
    {
      Controls(isActive, isMuted, error, streamHeld, processorConnected, hasOutputContext, mutedAtStart, sent)
    }

    predicate Valid()
      reads this
    {
      WellScheduled(State())
    }

    constructor()
      ensures Valid()
      ensures State() == Engine("", "", [], 0.0, {}, 0, {})
      ensures Flags() == Controls(false, false, None, false, false, false, false, [])
    {
      isActive, isMuted, error := false, false, None;
      transcriptions, inputTranscription, outputTranscription := [], "", "";
      nextStartTime, sources, nextNode, stopped := 0.0, {}, 0, {};
      streamHeld, processorConnected, hasOutputContext, mutedAtStart := false, false, false, false;
      sent := [];
    }

    /** `startSession`, with whether the microphone was granted and the resolved API key.
        The error and transcript are cleared first; a refused microphone or a missing key
        (the client is created synchronously) ends in "Microphone Link Failure.", and in
        the second case the stream stays held. The accumulators, cursor and sources are
        not reset. */
    method StartSession(microphoneGranted: bool, apiKey: Option<string>)
      modifies this
      ensures error == if microphoneGranted && apiKey.Some? then None else Some(MicrophoneFailure)
      ensures State() == old(State()).(transcript := [])
      ensures streamHeld == (microphoneGranted || old(streamHeld))
      ensures hasOutputContext == (microphoneGranted || old(hasOutputContext))
      ensures mutedAtStart == if microphoneGranted && apiKey.Some? then old(isMuted) else old(mutedAtStart)
      ensures isActive == old(isActive) && isMuted == old(isMuted)
      ensures processorConnected == old(processorConnected) && sent == old(sent)
    {
      error := None;
      transcriptions := [];
      if !microphoneGranted {
        error := Some(MicrophoneFailure);
        return;
      }
      streamHeld := true;
      hasOutputContext := true;
      if apiKey.None? {
        error := Some(MicrophoneFailure);
        return;
      }
      mutedAtStart := isMuted;
    }

    /** `onopen`: the session is active and the capture processor connected. */
    method OnOpen()
      modifies this
      ensures Flags() == old(Flags()).(isActive := true, processorConnected := true)
      ensures State() == old(State())
    {
      isActive := true;
      processorConnected := true;
    }

    /** The mute button. */
    method ToggleMute()
      modifies this
      ensures Flags() == old(Flags()).(isMuted := !old(isMuted))
      ensures State() == old(State())
    {
      isMuted := !isMuted;
    }

    /** `onaudioprocess` as written: unless the mute flag captured at start was set, convert
        the frame to PCM16, base64 it and send it. */
    method AudioProcess(frame: seq<real>)
      requires processorConnected
      modifies this
      ensures sent == old(sent) + if SendsFrame(mutedAtStart, isMuted) then [RealtimeInput(FrameData(frame), PcmMime)] else []
      ensures Flags() == old(Flags()).(sent := sent)
      ensures State() == old(State())
    {
      if mutedAtStart {
        return;
      }
      var data := EncodeFrame(frame);
      sent := sent + [RealtimeInput(data, PcmMime)];
    }

    /** `onaudioprocess` gated on the current mute flag, as the mute button intends. */
    method AudioProcessIntended(frame: seq<real>)
      requires processorConnected
      modifies this
      ensures sent == old(sent) + if SendsFrameIntended(mutedAtStart, isMuted) then [RealtimeInput(FrameData(frame), PcmMime)] else []
      ensures isMuted ==> sent == old(sent)
      ensures Flags() == old(Flags()).(sent := sent)
      ensures State() == old(State())
    {
      if isMuted {
        return;
      }
      var data := EncodeFrame(frame);
      sent := sent + [RealtimeInput(data, PcmMime)];
    }

    /** The server-message handler, `now` being the output context's clock. */
    method OnMessage(msg: ServerMessage, now: real)
      requires Valid()
      modifies this
      ensures Valid()
      ensures State() == Step(old(State()), msg, now, hasOutputContext)
      ensures Flags() == old(Flags())
    {
      StepKeepsSchedule(State(), msg, now, hasOutputContext);
      ReceiveTranscription(msg);
      if msg.turnComplete {
        FinishTurn();
      }
      if msg.audio.Some? && msg.audio.value != "" && hasOutputContext {
        var played := PlayChunk(msg.audio.value, now);
        if !played {
          return;
        }
      }
      if msg.interrupted {
        Flush();
      }
    }

    /** Transcription handling: the output delta wins over the input delta. */
    method ReceiveTranscription(msg: ServerMessage)
      modifies this
      ensures State() == ApplyTranscription(old(State()), msg)
      ensures Flags() == old(Flags())
    {
      if msg.outputTranscription.Some? {
        outputTranscription := outputTranscription + msg.outputTranscription.value;
      } else if msg.inputTranscription.Some? {
        inputTranscription := inputTranscription + msg.inputTranscription.value;
      }
    }

    /** `turnComplete`: emit the user line, then the model line, then empty both. */
    method FinishTurn()
      modifies this
      ensures State() == CompleteTurn(old(State()))
      ensures Flags() == old(Flags())
    {
      var userText, modelText := inputTranscription, outputTranscription;
      if userText != "" {
        transcriptions := transcriptions + [TranscriptLine(User, userText)];
      }
      assert transcriptions == old(transcriptions) + LineOf(User, userText);
      if modelText != "" {
        transcriptions := transcriptions + [TranscriptLine(Model, modelText)];
      }
      assert transcriptions == old(transcriptions) + (LineOf(User, userText) + LineOf(Model, modelText));
      inputTranscription, outputTranscription := "", "";
      assert State() == old(State()).(transcript := transcriptions, input := "", output := "");
    }

    /** Audio handling: raise the cursor to `now`, decode the chunk, start a new source at
        the cursor and move the cursor past it. `played` is false when decoding throws,
        which leaves the raised cursor and aborts the handler. */
    method PlayChunk(audio: string, now: real) returns (played: bool)
      modifies this
      ensures played == ChunkDuration(audio).Some?
      ensures var raised := old(State()).(cursor := Max(old(nextStartTime), now));
        State() == if played then Schedule(raised, ChunkDuration(audio).value) else raised
      ensures Flags() == old(Flags())
    {
      nextStartTime := Max(nextStartTime, now);
      var duration := DecodeChunk(audio);
      if duration.None? {
        return false;
      }
      var source := Playback(nextNode, nextStartTime, duration.value);
      nextNode := nextNode + 1;
      nextStartTime := nextStartTime + duration.value;
      sources := sources + {source};
      played := true;
    }

    /** `interrupted`: stop every source, forget them, rewind the cursor, mark the model
        text. */
    method Flush()
      modifies this
      ensures State() == Interrupt(old(State()))
      ensures Flags() == old(Flags())
    {
      StopAll();
      sources := {};
      nextStartTime := 0.0;
      outputTranscription := outputTranscription + InterruptedMarker;
    }

    /** A source's `ended` event. */
    method OnSourceEnded(p: Playback)
      requires Valid()
      modifies this
      ensures Valid()
      ensures State() == EndPlayback(old(State()), p)
      ensures Flags() == old(Flags())
    {
      EndPlaybackKeepsSchedule(State(), p);
      sources := sources - {p};
    }

    /** `cleanup`: release the stream, disconnect the processor, stop and forget every
        source, deactivate, and empty the transcript and both accumulators. */
    method Cleanup()
      modifies this
      ensures Valid()
      ensures State() == CleanupEngine(old(State()))
      ensures Flags() == old(Flags()).(isActive := false, streamHeld := false, processorConnected := false)
    {
      streamHeld, processorConnected, isActive := false, false, false;
      ClearEngine();
    }

    /** The part of `cleanup` the message handler's state sees. */
    method ClearEngine()
      modifies this
      ensures State() == CleanupEngine(old(State()))
      ensures Flags() == old(Flags())
    {
      StopAll();
      sources, transcriptions, inputTranscription, outputTranscription := {}, [], "", "";
    }

    /** `onerror`: report the uplink error, then clean up. (`onclose` is `Cleanup`.) */
    method OnError()
      modifies this
      ensures Valid()
      ensures State() == CleanupEngine(old(State()))
      ensures Flags() == old(Flags()).(error := Some(UplinkError), isActive := false, streamHeld := false, processorConnected := false)
    {
      error := Some(UplinkError);
      Cleanup();
    }

    /** Calls `stop()` on every active source. */
    method StopAll()
      modifies this`stopped
      ensures stopped == old(stopped) + sources
    {
      var remaining := sources;
      while remaining != {}
        invariant remaining <= sources
        invariant stopped == old(stopped) + (sources - remaining)
        decreases remaining
      {
        var source :| source in remaining;
        stopped := stopped + {source};
        remaining := remaining - {source};
      }
    }
  }

  /** The capture conversion loop, then `encode`. */
  method EncodeFrame(frame: seq<real>) returns (data: string)
    ensures data == FrameData(frame)
    ensures Base64.Decode(data) == Some(GeminiService.PcmBytes(CaptureSamples(frame)))
  {
    var int16 := new int16[|frame|];
    for i := 0 to |frame|
      invariant forall j :: 0 <= j < i ==> int16[j] == ToInt16(frame[j] * 32768.0)
    {
      int16[i] := ToInt16(frame[i] * 32768.0);
    }
    assert int16[..] == CaptureSamples(frame);
    data := GeminiService.Encode(GeminiService.PcmBytes(int16[..]));
  }

  /** `decodeAudioData(decode(base64Audio), ctx, 24000, 1)` and the buffer's duration;
      `None` when either call throws. */
  method DecodeChunk(audio: string) returns (duration: Option<real>)
    ensures duration == ChunkDuration(audio)
  {
    var bytes := GeminiService.Decode(audio);
    if bytes.None? {
      return None;
    }
    var buffer := GeminiService.DecodeAudioData(bytes.value, OutputSampleRate, 1);
    if buffer.None? {
      return None;
    }
    duration := Some(|buffer.value.channels[0]| as real / buffer.value.sampleRate as real);
  }
}
