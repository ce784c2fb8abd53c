# Recording context: session state machine and transcript delivery

This project models the recording context of a note-taking mobile app
(`contexts/RecordingContext.js`). The context records microphone audio and sends the
audio to a speech-recognition service. When a transcript comes back, it passes the
transcript to the one handler that the active screen registered.

The model has four parts:

- `Wrappers` (wrappers.dfy): an `Option` type. It stands for the source's `null` and `undefined` slots.
- `Transcription` (transcription.dfy): the parsed reply of the service and how the
  context reads it. A reply can carry an error object, a first alternative, empty
  results, or a first result with no alternatives. In the last case the unchecked
  index throws. This part also builds the eight-field record the handler receives.
- `Lifecycle` (lifecycle.dfy): the four state slots as a value (`recording`,
  `isRecording`, `isProcessing`, the handler slot). Start, stop, toggle, register and
  unregister are functions of that value. Each function also takes the outcome of every
  platform effect it meets: permission, audio mode, capture create/stop, file read, and
  the request. Two traces record what the outside world sees:
  - each handler invocation;
  - each awaited platform call, with the flags the UI shows while the call is awaited.
  `Run` applies a sequence of calls one after another. Its lemmas cover any such sequence.
- `Recording` (recording.dfy): the provider as a class. The four slots are fields, and
  its methods update them step by step in the source's order. Each method is proved
  to produce exactly the new state, outcome and traces of its `Lifecycle` function.

Behaviour of the code that the model keeps:

- A failure while stopping the capture or resetting the audio mode is only logged
  (lines 200-203). No alert is shown, so the outcome `StopFailed` carries no message.
- `startRecording` has no guard of its own. `toggleRecording` picks start or stop by
  `isRecording` (lines 206-212), while `stopRecording` guards on the handle (line 100).
- A failed stop leaves the handle set with `isRecording` false. The next toggle then
  starts a new capture, which overwrites the stale handle while it is still held. If
  `stopAndUnloadAsync` itself threw, that handle was never unloaded; if only the mode
  reset threw, it had been unloaded. `FailedStopLeavesStaleHandle` states this.

## Model

| member | source | states |
|---|---|---|
| `Transcription.RecognizedText` | contexts/RecordingContext.js:166-175 | the record's `transcription` is the recognised text and all seven language fields equal it |
| `Transcription.RecognizedTextExactlyUniform` | contexts/RecordingContext.js:166-175 | a record is one that RecognizedText builds exactly when its eight fields agree |
| `Transcription.FirstTranscript` | contexts/RecordingContext.js:160-161 | the first alternative's transcript exists iff `results` is non-empty and `results[0].alternatives` is non-empty |
| `Transcription.Classify` | contexts/RecordingContext.js:147-188 | the error check wins over any results; empty/absent results means no speech; a first result without alternatives is the throwing unchecked index; otherwise the uniform record of the first alternative's transcript |
| `Lifecycle.Start` | contexts/RecordingContext.js:49-97 | the session starts iff permission is held (cached or granted on request), the audio mode is set and create succeeds; otherwise the state is unchanged; denial iff the request was made and refused; the capture-create call is issued iff permission is held and the mode was set |
| `Lifecycle.Stop` | contexts/RecordingContext.js:99-204 | no handle: nothing changes and nothing is called; otherwise `isRecording` is false during every awaited call, the first call is stop/unload of that handle, both flags end false, and the handle is cleared iff unload and the mode reset both succeed; transcription calls happen iff a handler is registered; the handler is invoked at most once, exactly when the reply has no error and a first alternative, with the uniform record of that transcript; API error and no-speech outcomes match the reply |
| `Lifecycle.Register` | contexts/RecordingContext.js:39-42 | the slot holds the new handler and nothing else changes |
| `Lifecycle.Unregister` | contexts/RecordingContext.js:44-47 | the slot is empty and nothing else changes |
| `Lifecycle.RegisterLastWriteWins` | contexts/RecordingContext.js:39-47 | a second registration overrides the first; unregistering forgets every earlier registration |
| `Lifecycle.ToggleStep` | contexts/RecordingContext.js:206-212 | stop runs exactly when `isRecording` is true, start otherwise; between calls a toggle's stop never takes the no-handle exit; the invariant is kept |
| `Lifecycle.Apply` | contexts/RecordingContext.js:215-221 | each exposed operation keeps the invariant and delivers at most one record, uniform and to the handler in the slot; register and unregister call nothing and deliver nothing |
| `Lifecycle.UnregisteredStopInvokesNothing` | contexts/RecordingContext.js:195-198 | after register then unregister, the next toggle invokes no handler and issues no read or recognition call |
| `Lifecycle.FailedStopLeavesStaleHandle` | contexts/RecordingContext.js:105-112 | when unload or the mode reset throws, the stop ends in the outer catch, the handle stays set with the flag cleared, and the next toggle takes the start branch, which replaces the handle when it succeeds; the mode reset was attempted iff the unload succeeded |
| `Lifecycle.Run` | contexts/RecordingContext.js:39-212 | applies register, unregister and toggle calls one after another, yielding one outcome per call |
| `Lifecycle.RunKeepsInv` | contexts/RecordingContext.js:89-115 | across any sequence of calls, `isRecording` implies a handle is held and `isProcessing` is false once each call returns |
| `Lifecycle.RunRecordingFlag` | contexts/RecordingContext.js:90-103 | after any sequence of calls, `isRecording` is true iff the latest successful start is not followed by a stop past its guard |
| `Lifecycle.RunHandler` | contexts/RecordingContext.js:39-47 | after any sequence, the slot holds what the latest register or unregister left there |
| `Lifecycle.RunInvocationCount` | contexts/RecordingContext.js:160-177 | across any sequence of calls, the handler is invoked once per stop that delivered and never otherwise |
| `Lifecycle.RunPayloadsUniform` | contexts/RecordingContext.js:166-177 | across any sequence of calls, every record the handler received has all eight fields equal |
| `Lifecycle.DeliveryGoesToLastRegistered` | contexts/RecordingContext.js:116-177 | a delivery made by a toggle goes to the handler most recently registered before it |
| `Lifecycle.CannedTranscriptDelivered` | contexts/RecordingContext.js:160-177 | register, start, then stop with one alternative `text`: exactly one delivery, to that handler, with every field equal to `text`, and the handle is released |
| `Lifecycle.CannedErrorNotDelivered` | contexts/RecordingContext.js:147-157 | the same session stopped with an error reply (code 400): no delivery, and the outcome carries that error |
| `Recording.RecordingProvider.constructor` | contexts/RecordingContext.js:32-36 | the slots start empty and false, and the invariant holds |
| `Recording.RecordingProvider.RegisterHandler` | contexts/RecordingContext.js:39-42 | the new state is `Register` of the old one, and the traces are unchanged |
| `Recording.RecordingProvider.UnregisterHandler` | contexts/RecordingContext.js:44-47 | the new state is `Unregister` of the old one, and the traces are unchanged |
| `Recording.RecordingProvider.StartRecording` | contexts/RecordingContext.js:49-97 | new state, outcome and new calls are those of `Start`; no handler is invoked |
| `Recording.RecordingProvider.StopRecording` | contexts/RecordingContext.js:99-204 | the step-by-step updates produce the state, outcome, calls and deliveries of `Stop` |
| `Recording.RecordingProvider.ToggleRecording` | contexts/RecordingContext.js:206-212 | the state, outcome, calls and deliveries are those of `ToggleStep` |

## Left out

- Platform audio calls: permission request, `setAudioModeAsync`,
  `Recording.createAsync`, `stopAndUnloadAsync` and `getURI` are foreign calls.
  Each is an outcome input (`StartIO`, `StopIO`), and `getURI`'s location is not carried.
- `readAudioFileAsBase64` (lines 11-29): the base64 encoding happens inside the
  platform's file reader. The whole helper is one succeed/fail input
  (`StopIO.audioRead`), so the base64 round trip is not modelled.
- `fetch`, `JSON.stringify`, `response.json()`, the API key and endpoint URL are network I/O and library JSON.
  `StopIO.reply` is the parsed reply, or None when any of them threw.
- The recording options and the request configuration (lines 67-87, 129-140) are constants with no behaviour.
- The alert texts and console logging: the outcome datatypes record which alert or exit was taken, not the strings.
- React machinery: `createContext`, `useRecording`, the hooks and the provider markup.
  State setters are modelled as immediate assignments. React's deferred updates and the
  stale capture of `recording` and `transcriptionHandler` inside callbacks are not modelled.
- Overlapping asynchronous calls (toggling while a stop is still awaiting I/O): calls are modelled as sequential.
- Transcription.Classify: an alternative always has a string `transcript`. The source
  would hand the handler `undefined` fields for an alternative without one; that case is not represented.
- Transcription.Classify: an `error` field that is present but falsy (such as `null`) is modelled as absent, as the truthiness test treats it.
- Handler identity: handlers and capture handles are opaque identifiers. The handler's own behaviour is reduced to whether it throws (`StopIO.handlerThrows`).
