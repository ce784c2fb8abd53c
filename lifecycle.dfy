/**
  The recording session as values: the four state slots of the recording context,
  every platform effect reduced to an outcome the step receives, and one function per
  operation (start, stop, toggle, register, unregister). The recording context class
  is proved against these functions; the lemmas here are about sequences of calls.
 */
module Lifecycle {
  import opened Wrappers
  import opened Transcription

  /** An opaque capture object returned by the platform's create call. */
  datatype Handle = Handle(id: nat)

  /** An opaque callback registered by a screen. */
  datatype Handler = Handler(id: nat)

  /** The slots `recording`, `isRecording`, `isProcessing` and `transcriptionHandler`. */
  datatype Session = Session(
    recording: Option<Handle>,
    isRecording: bool,
    isProcessing: bool,
    handler: Option<Handler>)

  /** The state the provider mounts with. */
  const INITIAL := Session(None, false, false, None)

  /**
    Holds between calls: the recording flag never outlives the handle, and no
    transcription is in progress once a call has returned.
   */
  predicate Inv(s: Session) {
    (s.isRecording ==> s.recording.Some?) && !s.isProcessing
  }

  /** The platform and network calls the context awaits. */
  datatype Op =
    | RequestPermission
    | SetAudioMode(allowsRecording: bool)
    | CreateRecording
    | StopAndUnload(handle: Handle)
    | ReadAudio  // reading the artifact as base64
    | Recognize  // the POST to the speech service and the JSON parse

  /** A call issued, with the flags the UI shows while it is awaited. */
  datatype Call = Call(op: Op, isRecording: bool, isProcessing: bool)

  /** One invocation of the registered handler, with the record it received. */
  datatype Delivery = Delivery(handler: Handler, payload: TranscriptResult)

  function CallIn(s: Session, op: Op): Call {
    Call(op, s.isRecording, s.isProcessing)
  }

  predicate Issued(calls: seq<Call>, op: Op) {
    exists i :: 0 <= i < |calls| && calls[i].op == op
  }

  // ---------------------------------------------------------------- start

  /** The reply of the permission request: granted, anything else, or a throw. */
  datatype PermissionReply = Granted | NotGranted | RequestThrew

  /**
    What the platform does during one start: whether the cached permission response
    already says granted, the reply of the request made otherwise, whether setting the
    audio mode succeeds, and the handle `createAsync` returns (None: it threw).
   */
  datatype StartIO = StartIO(
    alreadyGranted: bool,
    reply: PermissionReply,
    modeSet: bool,
    created: Option<Handle>)

  datatype StartOutcome =
    | Started(handle: Handle)
    | PermissionDenied  // the "Permission needed" alert, then an early return
    | StartFailed  // the catch at the end of startRecording

  datatype StartStep = StartStep(after: Session, outcome: StartOutcome, calls: seq<Call>)

  predicate PermissionHeld(io: StartIO) {
    io.alreadyGranted || io.reply == Granted
  }

  /** startRecording. */
  function Start(s: Session, io: StartIO): (r: StartStep)
    ensures r.outcome.Started? <==> PermissionHeld(io) && io.modeSet && io.created.Some?
    ensures r.outcome.Started? ==>
      r.outcome.handle == io.created.value &&
      r.after == s.(recording := Some(r.outcome.handle), isRecording := true)
    ensures !r.outcome.Started? ==> r.after == s
    ensures r.outcome == PermissionDenied <==> !io.alreadyGranted && io.reply == NotGranted
    ensures Issued(r.calls, RequestPermission) <==> !io.alreadyGranted
    ensures Issued(r.calls, CreateRecording) <==> PermissionHeld(io) && io.modeSet
    ensures forall i :: 0 <= i < |r.calls| ==> r.calls[i] == CallIn(s, r.calls[i].op)
  {
    var asked := if io.alreadyGranted then [] else [CallIn(s, RequestPermission)];
    assert !io.alreadyGranted ==> asked[0].op == RequestPermission;
    if !io.alreadyGranted && io.reply == NotGranted then
      StartStep(s, PermissionDenied, asked)
    else if !io.alreadyGranted && io.reply == RequestThrew then
      StartStep(s, StartFailed, asked)
    else
      var moded := asked + [CallIn(s, SetAudioMode(true))];
      assert !io.alreadyGranted ==> moded[0].op == RequestPermission;
      if !io.modeSet then
        StartStep(s, StartFailed, moded)
      else
        var created := moded + [CallIn(s, CreateRecording)];
        assert created[|created| - 1].op == CreateRecording;
        assert !io.alreadyGranted ==> created[0].op == RequestPermission;
        match io.created
        case None => StartStep(s, StartFailed, created)
        case Some(h) => StartStep(s.(recording := Some(h), isRecording := true), Started(h), created)
  }

  // ---------------------------------------------------------------- stop

  /**
    What the platform does during one stop: whether `stopAndUnloadAsync` and the
    audio-mode reset succeed, whether reading the artifact succeeds, the parsed reply
    (None: the request or the parse threw), and whether the handler itself throws.
   */
  datatype StopIO = StopIO(
    unloaded: bool,
    modeRestored: bool,
    audioRead: bool,
    reply: Option<Response>,
    handlerThrows: bool)

  datatype StopOutcome =
    | Skipped  // no handle: the early return
    | StopFailed  // the outer catch: stop/unload or the mode reset threw
    | NoConsumer  // stopped, but no handler is registered
    | RecognitionFailed  // the inner catch: read, request, parse or unchecked index threw
    | ServiceError(error: ApiError)  // the reply carried `error`
    | NoSpeechDetected  // the reply had no results
    | Delivered(text: TranscriptResult)  // the handler received the record
    | HandlerThrew(text: TranscriptResult)  // the handler received the record, then threw

  datatype StopStep = StopStep(
    after: Session,
    outcome: StopOutcome,
    delivered: seq<Delivery>,
    calls: seq<Call>)

  /** Past the guard, and the capture was finalised: the handle is dropped. */
  predicate Finalized(s: Session, io: StopIO) {
    s.recording.Some? && io.unloaded && io.modeRestored
  }

  /** Finalised with a handler registered: the transcription is attempted. */
  predicate Transcribing(s: Session, io: StopIO) {
    Finalized(s, io) && s.handler.Some?
  }

  /** The transcription got a parsed reply. */
  predicate Replied(s: Session, io: StopIO) {
    Transcribing(s, io) && io.audioRead && io.reply.Some?
  }

  /** stopRecording. */
  function Stop(s: Session, io: StopIO): (r: StopStep)
    ensures s.recording.None? ==> r == StopStep(s, Skipped, [], [])
    ensures s.recording.Some? ==> !r.after.isRecording && !r.after.isProcessing
    ensures s.recording.Some? ==> (r.after.recording.None? <==> io.unloaded && io.modeRestored)
    ensures r.after.recording.Some? ==> r.after.recording == s.recording
    ensures r.after.handler == s.handler
    // isRecording is already false while any call is awaited
    ensures s.recording.Some? ==>
      |r.calls| > 0 && r.calls[0].op == StopAndUnload(s.recording.value) &&
      forall i :: 0 <= i < |r.calls| ==> !r.calls[i].isRecording
    ensures Issued(r.calls, ReadAudio) <==> Transcribing(s, io)
    ensures Issued(r.calls, Recognize) <==> Transcribing(s, io) && io.audioRead
    ensures forall i :: 0 <= i < |r.calls| && (r.calls[i].op == ReadAudio || r.calls[i].op == Recognize) ==>
      r.calls[i].isProcessing
    ensures r.outcome == NoConsumer <==> Finalized(s, io) && s.handler.None?
    ensures r.outcome.ServiceError? <==> Replied(s, io) && Classify(io.reply.value).ServiceFailure?
    ensures r.outcome.ServiceError? ==> r.outcome.error == io.reply.value.error.value
    ensures r.outcome == NoSpeechDetected <==> Replied(s, io) && Classify(io.reply.value) == EmptyResults
    // the handler is invoked at most once, and exactly when the reply has a first alternative
    ensures |r.delivered| <= 1
    ensures |r.delivered| == 1 <==> Replied(s, io) && FirstTranscript(io.reply.value).Some? && io.reply.value.error.None?
    ensures |r.delivered| == 1 ==>
      r.delivered[0].handler == s.handler.value &&
      Uniform(r.delivered[0].payload) &&
      r.delivered[0].payload.transcription == FirstTranscript(io.reply.value).value
    ensures r.outcome.Delivered? || r.outcome.HandlerThrew? <==> |r.delivered| == 1
    ensures r.outcome.Delivered? ==> !io.handlerThrows
  {
    if s.recording.None? then StopStep(s, Skipped, [], [])
    else
      var stopping := s.(isRecording := false);
      var unload := [CallIn(stopping, StopAndUnload(s.recording.value))];
      if !io.unloaded then
        StopStep(stopping.(isProcessing := false), StopFailed, [], unload)
      else
        var reset := unload + [CallIn(stopping, SetAudioMode(false))];
        if !io.modeRestored then
          StopStep(stopping.(isProcessing := false), StopFailed, [], reset)
        else
          var processing := stopping.(recording := None, isProcessing := true);
          var idle := processing.(isProcessing := false);
          match s.handler
          case None => StopStep(idle, NoConsumer, [], reset)
          case Some(f) =>
            var read := reset + [CallIn(processing, ReadAudio)];
            assert read[|read| - 1].op == ReadAudio;
            if !io.audioRead then
              StopStep(idle, RecognitionFailed, [], read)
            else
              var sent := read + [CallIn(processing, Recognize)];
              assert sent[|sent| - 1].op == Recognize && sent[|sent| - 2].op == ReadAudio;
              match io.reply
              case None => StopStep(idle, RecognitionFailed, [], sent)
              case Some(resp) =>
                match Classify(resp)
                case ServiceFailure(e) => StopStep(idle, ServiceError(e), [], sent)
                case EmptyResults => StopStep(idle, NoSpeechDetected, [], sent)
                case Malformed => StopStep(idle, RecognitionFailed, [], sent)
                case Recognized(text) =>
                  StopStep(idle, if io.handlerThrows then HandlerThrew(text) else Delivered(text),
                           [Delivery(f, text)], sent)
  }

  // ---------------------------------------------------------------- handler slot

  /** registerHandler: the new handler replaces whatever was there. */
  function Register(s: Session, h: Handler): (r: Session)
    ensures r.handler == Some(h)
    ensures r.(handler := s.handler) == s
  {
    s.(handler := Some(h))
  }

  /** unregisterHandler: the slot is emptied. */
  function Unregister(s: Session): (r: Session)
    ensures r.handler.None?
    ensures r.(handler := s.handler) == s
  {
    s.(handler := None)
  }

  /** Last registration wins, and unregistering forgets every earlier registration. */
  lemma RegisterLastWriteWins(s: Session, h1: Handler, h2: Handler)
    ensures Register(Register(s, h1), h2) == Register(s, h2)
    ensures Unregister(Register(s, h1)) == Unregister(s)
  {
  }

  // ---------------------------------------------------------------- toggle and actions

  /** The three operations the context exposes, with the platform behaviour each meets. */
  datatype Action =
    | Toggle(start: StartIO, stop: StopIO)
    | RegisterHandler(handler: Handler)
    | UnregisterHandler

  datatype ActionOutcome =
    | StartResult(start: StartOutcome)
    | StopResult(stop: StopOutcome)
    | HandlerChanged

  datatype Step = Step(after: Session, outcome: ActionOutcome, delivered: seq<Delivery>, calls: seq<Call>)

  /** toggleRecording: `isRecording` alone chooses between stop and start. */
  function ToggleStep(s: Session, start: StartIO, stop: StopIO): (r: Step)
    ensures r.outcome.StopResult? <==> s.isRecording
    ensures r.outcome.StopResult? ==>
      var st := Stop(s, stop);
      r == Step(st.after, StopResult(st.outcome), st.delivered, st.calls)
    ensures r.outcome.StartResult? ==>
      var st := Start(s, start);
      r == Step(st.after, StartResult(st.outcome), [], st.calls)
    ensures Inv(s) && s.isRecording ==> r.outcome.stop != Skipped
    ensures Inv(s) ==> Inv(r.after)
  {
    if s.isRecording then
      var st := Stop(s, stop);
      Step(st.after, StopResult(st.outcome), st.delivered, st.calls)
    else
      var st := Start(s, start);
      Step(st.after, StartResult(st.outcome), [], st.calls)
  }

  function Apply(s: Session, a: Action): (r: Step)
    ensures Inv(s) ==> Inv(r.after)
    ensures !a.Toggle? ==> r.delivered == [] && r.calls == [] && r.outcome == HandlerChanged
    ensures |r.delivered| <= 1
    ensures forall i :: 0 <= i < |r.delivered| ==>
      Some(r.delivered[i].handler) == s.handler && Uniform(r.delivered[i].payload)
  {
    match a
    case Toggle(start, stop) => ToggleStep(s, start, stop)
    case RegisterHandler(h) => Step(Register(s, h), HandlerChanged, [], [])
    case UnregisterHandler => Step(Unregister(s), HandlerChanged, [], [])
  }

  /** With the slot empty, a stop reached through toggle transcribes nothing and invokes nobody. */
  lemma UnregisteredStopInvokesNothing(s: Session, h: Handler, start: StartIO, stop: StopIO)
    ensures var s' := Unregister(Register(s, h));
      var r := ToggleStep(s', start, stop);
      r.delivered == [] && !Issued(r.calls, ReadAudio) && !Issued(r.calls, Recognize)
  {
  }

  /**
    A failed stop leaves the handle set with the flag cleared, so the next toggle
    starts again; when that start succeeds the stale handle is overwritten. The audio
    mode is reset only after a successful unload, so the stale handle was never
    unloaded exactly when the unload call threw.
   */
  lemma FailedStopLeavesStaleHandle(s: Session, stop: StopIO, start: StartIO, stop': StopIO)
    requires Inv(s) && s.isRecording
    requires !stop.unloaded || !stop.modeRestored
    ensures Stop(s, stop).outcome == StopFailed
    ensures var after := Stop(s, stop).after;
      after.recording == s.recording && !after.isRecording &&
      ToggleStep(after, start, stop').outcome.StartResult?
    ensures var after := Stop(s, stop).after;
      Start(after, start).outcome.Started? ==>
      Start(after, start).after.recording == start.created
    ensures Issued(Stop(s, stop).calls, SetAudioMode(false)) <==> stop.unloaded
  {
    var calls := Stop(s, stop).calls;
    if stop.unloaded {
      assert calls[1].op == SetAudioMode(false);
    } else {
      assert calls == [CallIn(s.(isRecording := false), StopAndUnload(s.recording.value))];
    }
  }

  // ---------------------------------------------------------------- sequences of calls

  /** The state and everything observed after a sequence of calls, made one after another. */
  datatype Trace = Trace(session: Session, outcomes: seq<ActionOutcome>, deliveries: seq<Delivery>)

  ghost function Run(s0: Session, acts: seq<Action>): (t: Trace)
    ensures |t.outcomes| == |acts|
    decreases |acts|
  {
    if acts == [] then Trace(s0, [], [])
    else
      var t := Run(s0, acts[..|acts| - 1]);
      var st := Apply(t.session, acts[|acts| - 1]);
      Trace(st.after, t.outcomes + [st.outcome], t.deliveries + st.delivered)
  }

  /** `isRecording` per the outcomes: set by a successful start, cleared by a stop past its guard. */
  ghost function RecordingAfter(init: bool, outs: seq<ActionOutcome>): bool
    decreases |outs|
  {
    if outs == [] then init
    else
      match outs[|outs| - 1]
      case StartResult(Started(_)) => true
      case StopResult(o) => if o == Skipped then RecordingAfter(init, outs[..|outs| - 1]) else false
      case _ => RecordingAfter(init, outs[..|outs| - 1])
  }

  /** The handler left in the slot by the most recent register or unregister. */
  ghost function LastRegistered(init: Option<Handler>, acts: seq<Action>): Option<Handler>
    decreases |acts|
  {
    if acts == [] then init
    else
      match acts[|acts| - 1]
      case RegisterHandler(h) => Some(h)
      case UnregisterHandler => None
      case Toggle(_, _) => LastRegistered(init, acts[..|acts| - 1])
  }

  /** How many of the outcomes invoked the handler. */
  ghost function Invocations(outs: seq<ActionOutcome>): nat
    decreases |outs|
  {
    if outs == [] then 0
    else
      var last := outs[|outs| - 1];
      (if last.StopResult? && (last.stop.Delivered? || last.stop.HandlerThrew?) then 1 else 0)
      + Invocations(outs[..|outs| - 1])
  }

  /** Every state reached by sequential calls from a state satisfying Inv satisfies it. */
  lemma {:induction false} RunKeepsInv(s0: Session, acts: seq<Action>)
    requires Inv(s0)
    ensures Inv(Run(s0, acts).session)
    decreases |acts|
  {
    if acts != [] {
      RunKeepsInv(s0, acts[..|acts| - 1]);
    }
  }

  /** `isRecording` is true exactly when the latest stop-or-successful-start was a successful start. */
  lemma {:induction false} RunRecordingFlag(s0: Session, acts: seq<Action>)
    ensures Run(s0, acts).session.isRecording == RecordingAfter(s0.isRecording, Run(s0, acts).outcomes)
    decreases |acts|
  {
    if acts != [] {
      var prefix := acts[..|acts| - 1];
      RunRecordingFlag(s0, prefix);
      var t := Run(s0, prefix);
      var outs := Run(s0, acts).outcomes;
      assert outs[..|outs| - 1] == t.outcomes;
    }
  }

  /** The slot holds what the latest register or unregister left there. */
  lemma {:induction false} RunHandler(s0: Session, acts: seq<Action>)
    ensures Run(s0, acts).session.handler == LastRegistered(s0.handler, acts)
    decreases |acts|
  {
    if acts != [] {
      RunHandler(s0, acts[..|acts| - 1]);
    }
  }

  /** The handler is invoked once per stop that delivered, and never otherwise. */
  lemma {:induction false} RunInvocationCount(s0: Session, acts: seq<Action>)
    ensures |Run(s0, acts).deliveries| == Invocations(Run(s0, acts).outcomes)
    decreases |acts|
  {
    if acts != [] {
      var prefix := acts[..|acts| - 1];
      RunInvocationCount(s0, prefix);
      var outs := Run(s0, acts).outcomes;
      assert outs[..|outs| - 1] == Run(s0, prefix).outcomes;
    }
  }

  /** Every record the handler ever received carries one text in all eight fields. */
  lemma {:induction false} RunPayloadsUniform(s0: Session, acts: seq<Action>)
    ensures forall i :: 0 <= i < |Run(s0, acts).deliveries| ==> Uniform(Run(s0, acts).deliveries[i].payload)
    decreases |acts|
  {
    if acts != [] {
      var prefix := acts[..|acts| - 1];
      RunPayloadsUniform(s0, prefix);
      var t := Run(s0, prefix);
      var st := Apply(t.session, acts[|acts| - 1]);
      var ds := Run(s0, acts).deliveries;
      assert ds == t.deliveries + st.delivered;
      forall i | 0 <= i < |ds|
        ensures Uniform(ds[i].payload)
      {
        if i < |t.deliveries| {
          assert ds[i] == t.deliveries[i];
        } else {
          assert ds[i] == st.delivered[i - |t.deliveries|];
        }
      }
    }
  }

  /** A delivery made by a toggle goes to the handler most recently registered before it. */
  lemma {:induction false} DeliveryGoesToLastRegistered(s0: Session, acts: seq<Action>, start: StartIO, stop: StopIO)
    ensures var before := Run(s0, acts).deliveries;
      var after := Run(s0, acts + [Toggle(start, stop)]).deliveries;
      |after| > |before| ==>
        LastRegistered(s0.handler, acts).Some? &&
        after[|after| - 1].handler == LastRegistered(s0.handler, acts).value
  {
    var all := acts + [Toggle(start, stop)];
    assert all[..|all| - 1] == acts;
    RunHandler(s0, acts);
  }

  // ---------------------------------------------------------------- canned scenarios

  const GRANTED_START := StartIO(true, Granted, true, Some(Handle(1)))

  function StopWith(reply: Response): StopIO {
    StopIO(true, true, true, Some(reply), false)
  }

  /** The first two calls of a canned session: register, then a start that succeeds. */
  lemma CannedRunPrefix(h: Handler, stop: StopIO)
    ensures var acts := [RegisterHandler(h), Toggle(GRANTED_START, stop), Toggle(GRANTED_START, stop)];
      Run(INITIAL, acts[..2]) ==
        Trace(Session(Some(Handle(1)), true, false, Some(h)), [HandlerChanged, StartResult(Started(Handle(1)))], []) &&
      acts[2] == Toggle(GRANTED_START, stop)
  {
    var acts := [RegisterHandler(h), Toggle(GRANTED_START, stop), Toggle(GRANTED_START, stop)];
    assert acts[..2][..1] == [RegisterHandler(h)];
    assert acts[..2][..1][..0] == [];
    assert Run(INITIAL, acts[..2][..1]) == Trace(Register(INITIAL, h), [HandlerChanged], []);
  }

  /** Register, start, stop with one recognised alternative: the text reaches the handler in every field. */
  lemma CannedTranscriptDelivered(h: Handler, text: string)
    ensures var reply := Response(None, [SpeechResult([Alternative(text)])]);
      var t := Run(INITIAL, [RegisterHandler(h), Toggle(GRANTED_START, StopWith(reply)),
                             Toggle(GRANTED_START, StopWith(reply))]);
      t.deliveries == [Delivery(h, RecognizedText(text))] &&
      t.deliveries[0].payload.transcription == text && Uniform(t.deliveries[0].payload) &&
      Inv(t.session) && t.session.recording.None?
  {
    var reply := Response(None, [SpeechResult([Alternative(text)])]);
    var acts := [RegisterHandler(h), Toggle(GRANTED_START, StopWith(reply)),
                 Toggle(GRANTED_START, StopWith(reply))];
    CannedRunPrefix(h, StopWith(reply));
  }

  /** The same session, stopped with an error reply: nothing is delivered and the outcome carries the error. */
  lemma CannedErrorNotDelivered(h: Handler, results: seq<SpeechResult>)
    ensures var reply := Response(Some(ApiError(400, "Invalid recognition audio", "INVALID_ARGUMENT")), results);
      var t := Run(INITIAL, [RegisterHandler(h), Toggle(GRANTED_START, StopWith(reply)),
                             Toggle(GRANTED_START, StopWith(reply))]);
      t.deliveries == [] &&
      t.outcomes[2] == StopResult(ServiceError(reply.error.value)) &&
      Inv(t.session)
  {
    var reply := Response(Some(ApiError(400, "Invalid recognition audio", "INVALID_ARGUMENT")), results);
    var acts := [RegisterHandler(h), Toggle(GRANTED_START, StopWith(reply)),
                 Toggle(GRANTED_START, StopWith(reply))];
    CannedRunPrefix(h, StopWith(reply));
  }
}
