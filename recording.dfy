/**
  The recording provider as an object: the four state slots are fields that its
  methods update step by step, in the order the context does. Two ghost traces record
  what the outside world sees: each handler invocation, and each platform call together
  with the flags shown while it is awaited. Every method is proved against the
  corresponding function of Lifecycle.
 */
module Recording {
  import opened Wrappers
  import opened Transcription
  import opened Lifecycle

  class RecordingProvider {
    var recording: Option<Handle>
    var isRecording: bool
    var isProcessing: bool
    var transcriptionHandler: Option<Handler>

    ghost var deliveries: seq<Delivery>  // every call of the registered handler
    ghost var calls: seq<Call>  // every platform or network call awaited

    /** The four slots as a value. */
    function State(): Session
      reads this
    {
      Session(recording, isRecording, isProcessing, transcriptionHandler)
    }

    ghost predicate Valid()
      reads this
    {
      Inv(State())
    }

    constructor ()
      ensures Valid() && State() == INITIAL
      ensures deliveries == [] && calls == []
    {
      recording := None;
      isRecording := false;
      isProcessing := false;
      transcriptionHandler := None;
      deliveries := [];
      calls := [];
    }

    method RegisterHandler(handler: Handler)
      requires Valid()
      modifies this
      ensures Valid() && State() == Register(old(State()), handler)
      ensures deliveries == old(deliveries) && calls == old(calls)
    {
      transcriptionHandler := Some(handler);
    }

    method UnregisterHandler()
      requires Valid()
      modifies this
      ensures Valid() && State() == Unregister(old(State()))
      ensures deliveries == old(deliveries) && calls == old(calls)
    {
      transcriptionHandler := None;
    }

    method StartRecording(io: StartIO) returns (outcome: StartOutcome)
      requires Valid()
      modifies this
      ensures Valid()
      ensures var r := Start(old(State()), io);
        State() == r.after && outcome == r.outcome &&
        calls == old(calls) + r.calls && deliveries == old(deliveries)
    {
      if !io.alreadyGranted {
        calls := calls + [CallIn(State(), RequestPermission)];
        if io.reply == NotGranted {
          return PermissionDenied;
        } else if io.reply == RequestThrew {
          return StartFailed;
        }
      }
      calls := calls + [CallIn(State(), SetAudioMode(true))];
      if !io.modeSet {
        return StartFailed;
      }
      calls := calls + [CallIn(State(), CreateRecording)];
      if io.created.None? {
        return StartFailed;
      }
      recording := io.created;
      isRecording := true;
      outcome := Started(io.created.value);
    }

    method StopRecording(io: StopIO) returns (outcome: StopOutcome)
      requires Valid()
      modifies this
      ensures Valid()
      ensures var r := Stop(old(State()), io);
        State() == r.after && outcome == r.outcome &&
        calls == old(calls) + r.calls && deliveries == old(deliveries) + r.delivered
    {
      if recording.None? {
        return Skipped;
      }
      var handle := recording.value;
      isRecording := false;
      // the outer try: finalise the capture
      calls := calls + [CallIn(State(), StopAndUnload(handle))];
      if !io.unloaded {
        isProcessing := false;
        return StopFailed;
      }
      calls := calls + [CallIn(State(), SetAudioMode(false))];
      if !io.modeRestored {
        isProcessing := false;
        return StopFailed;
      }
      recording := None;
      isProcessing := true;
      if transcriptionHandler.None? {
        isProcessing := false;
        return NoConsumer;
      }
      var handler := transcriptionHandler.value;
      // the inner try: read, send, classify, deliver
      calls := calls + [CallIn(State(), ReadAudio)];
      if !io.audioRead {
        isProcessing := false;
        return RecognitionFailed;
      }
      calls := calls + [CallIn(State(), Recognize)];
      if io.reply.None? {
        isProcessing := false;
        return RecognitionFailed;
      }
      match Classify(io.reply.value)
      case ServiceFailure(e) =>
        isProcessing := false;
        outcome := ServiceError(e);
      case EmptyResults =>
        outcome := NoSpeechDetected;
        isProcessing := false;
      case Malformed =>
        isProcessing := false;
        outcome := RecognitionFailed;
      case Recognized(text) =>
        deliveries := deliveries + [Delivery(handler, text)];
        isProcessing := false;
        outcome := if io.handlerThrows then HandlerThrew(text) else Delivered(text);
    }

    method ToggleRecording(start: StartIO, stop: StopIO) returns (outcome: ActionOutcome)
      requires Valid()
      modifies this
      ensures Valid()
      ensures var r := ToggleStep(old(State()), start, stop);
        State() == r.after && outcome == r.outcome &&
        calls == old(calls) + r.calls && deliveries == old(deliveries) + r.delivered
    {
      if isRecording {
        var stopped := StopRecording(stop);
        outcome := StopResult(stopped);
      } else {
        var started := StartRecording(start);
        outcome := StartResult(started);
      }
    }
  }
}
