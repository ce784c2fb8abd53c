/**
  The recognition service's parsed reply and what the recording context makes of it:
  an API error, a transcript copied into every language field, no speech, or a
  failure raised by an unchecked index into the reply.
 */
module Transcription {
  import opened Wrappers

  /** The `error` object of a reply: code, message and status, shown in the alert. */
  datatype ApiError = ApiError(code: int, message: string, status: string)

  /** One `alternatives[k]` entry of a result. */
  datatype Alternative = Alternative(transcript: string)

  /** One `results[k]` entry; an absent `alternatives` field is the empty sequence. */
  datatype SpeechResult = SpeechResult(alternatives: seq<Alternative>)

  /** A parsed reply. An absent `error` is None, an absent `results` is the empty sequence. */
  datatype Response = Response(error: Option<ApiError>, results: seq<SpeechResult>)

  /** The object handed to the registered handler: one recognised text under eight keys. */
  datatype TranscriptResult = TranscriptResult(
    transcription: string,
    english: string,
    simplifiedChinese: string,
    traditionalChinese: string,
    italian: string,
    spanish: string,
    japanese: string,
    korean: string)

  /** Every language field carries the canonical `transcription` text. */
  predicate Uniform(t: TranscriptResult) {
    && t.english == t.transcription
    && t.simplifiedChinese == t.transcription
    && t.traditionalChinese == t.transcription
    && t.italian == t.transcription
    && t.spanish == t.transcription
    && t.japanese == t.transcription
    && t.korean == t.transcription
  }

  /** Builds the record delivered to the handler from the recognised transcript. */
  function RecognizedText(transcript: string): (t: TranscriptResult)
    ensures Uniform(t)
    ensures t.transcription == transcript
  {
    TranscriptResult(transcript, transcript, transcript, transcript,
                     transcript, transcript, transcript, transcript)
  }

  /** A record is one that RecognizedText builds exactly when all its fields agree. */
  lemma RecognizedTextExactlyUniform(t: TranscriptResult)
    ensures Uniform(t) <==> RecognizedText(t.transcription) == t
  {
  }

  /** `results[0].alternatives[0].transcript`, when both entries exist. */
  function FirstTranscript(r: Response): (tr: Option<string>)
    ensures tr.Some? <==> |r.results| > 0 && |r.results[0].alternatives| > 0
  {
    if |r.results| > 0 && |r.results[0].alternatives| > 0
    then Some(r.results[0].alternatives[0].transcript)
    else None
  }

  /** The four ways the context can read a reply. */
  datatype Classification =
    | ServiceFailure(error: ApiError)  // the reply carries `error`
    | Recognized(text: TranscriptResult)  // a first alternative exists
    | EmptyResults  // `results` absent or empty
    | Malformed  // `results[0].alternatives` empty: the unchecked index throws

  /** Reads a reply the way the context does: the error check first, then the results. */
  function Classify(r: Response): (c: Classification)
    ensures r.error.Some? ==> c == ServiceFailure(r.error.value)
    ensures c.ServiceFailure? <==> r.error.Some?
    ensures c == EmptyResults <==> r.error.None? && |r.results| == 0
    ensures c == Malformed <==> r.error.None? && |r.results| > 0 && |r.results[0].alternatives| == 0
    ensures c.Recognized? <==> r.error.None? && FirstTranscript(r).Some?
    ensures c.Recognized? ==> Uniform(c.text) && c.text.transcription == FirstTranscript(r).value
  {
    if r.error.Some? then ServiceFailure(r.error.value)
    else if |r.results| == 0 then EmptyResults
    else if |r.results[0].alternatives| == 0 then Malformed
    else Recognized(RecognizedText(r.results[0].alternatives[0].transcript))
  }
}
