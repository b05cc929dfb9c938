/**
 * The transcription service: the decision chain of `transcribeAudio`
 * (validation, the in-app recording short-circuit, the response check and
 * the four-way error classification) and the live recogniser's result
 * handling, which appends final segments to the recorded transcript.
 */
module TranscriptionService {
  import opened Wrappers

  /** What `transcribeAudio` is handed: nothing, something that is not a `File`, or a file by name. */
  datatype AudioInput = NoInput | NotAFile | AudioFile(name: string)

  /** `error.response`: the server's JSON `error` field ("" when falsy) and the HTTP status text. */
  datatype ErrorResponse = ErrorResponse(dataError: string, statusText: string)

  /** An error caught by `transcribeAudio`: its `code`, `response`, `request` and `message`. */
  datatype CaughtError = CaughtError(code: string, response: Option<ErrorResponse>, hasRequest: bool, message: string)

  /**
   * How the upload request ended: a reply whose `data.transcript` is given
   * ("" when missing or falsy), or a rejection with an error.
   */
  datatype UploadOutcome = Replied(transcript: string) | Rejected(error: CaughtError)

  const RecordingFileName := "recording.wav"
  const InvalidFileMessage := "A valid audio file is required"
  const NoRecordedTranscriptMessage := "No transcript was recorded. Please try recording again."
  // The timeout and not-responding messages are written as concatenations so
  // that the verifier can read their individual characters, which
  // `ClassifyErrorReports` uses to tell the messages apart.
  const TimeoutMessage := "Transcription timed out." + " The file may be too large or the server is busy."
  const ServerErrorPrefix := "Server error: "
  const NotRespondingMessage := "Server not responding." + " Make sure the server is running."
  const OtherErrorPrefix := "Transcription error: "

  /** The plain `Error` thrown when a reply has no transcript: no code, response or request. */
  const MissingTranscriptError := CaughtError("", None, false, "No transcript returned from server")

  /** The steps of `transcribeAudio` that come before any network call. */
  datatype Step = Finished(result: Result<string, string>) | Upload(name: string)

  function Prepare(input: AudioInput, recordedTranscript: string): (step: Step)
    ensures step.Upload? <==> input.AudioFile? && input.name != RecordingFileName
    ensures !input.AudioFile? ==> step == Finished(Failure(InvalidFileMessage))
  {
    match input
    case NoInput => Finished(Failure(InvalidFileMessage))
    case NotAFile => Finished(Failure(InvalidFileMessage))
    case AudioFile(name) =>
      if name == RecordingFileName then
        Finished(Success(if recordedTranscript != "" then recordedTranscript else NoRecordedTranscriptMessage))
      else Upload(name)
  }

  /** The catch block's translation of an error into the message of the error it rethrows. */
  function ClassifyError(e: CaughtError): string {
    if e.code == "ECONNABORTED" then TimeoutMessage
    else if e.response.Some? then
      ServerErrorPrefix + (if e.response.value.dataError != "" then e.response.value.dataError else e.response.value.statusText)
    else if e.hasRequest then NotRespondingMessage
    else OtherErrorPrefix + e.message
  }

  /** The try block after the request: a truthy transcript is returned, anything else ends classified. */
  function UploadResult(outcome: UploadOutcome): (r: Result<string, string>)
    ensures r.Success? <==> outcome.Replied? && outcome.transcript != ""
    ensures r.Success? ==> r.value == outcome.transcript
    ensures outcome.Rejected? ==> r == Failure(ClassifyError(outcome.error))
  {
    match outcome
    case Replied(t) => if t != "" then Success(t) else Failure(ClassifyError(MissingTranscriptError))
    case Rejected(e) => Failure(ClassifyError(e))
  }

  /**
   * `transcribeAudio(input)`, with `window.recordedTranscript` and the upload's
   * outcome as parameters: a transcript, or the message of the thrown error.
   */
  function TranscribeAudio(input: AudioInput, recordedTranscript: string, outcome: UploadOutcome): (r: Result<string, string>)
    ensures r.Success? ==> r.value != ""
  {
    match Prepare(input, recordedTranscript)
    case Finished(r) => r
    case Upload(_) => UploadResult(outcome)
  }

  /**
   * Validation comes first, the in-app recording name never reaches the
   * server (the result does not depend on the upload's outcome), and every
   * other file's result is exactly the upload's.
   */
  lemma TranscribeAudioPaths(input: AudioInput, recordedTranscript: string, outcome: UploadOutcome, other: UploadOutcome)
    ensures !input.AudioFile? ==> TranscribeAudio(input, recordedTranscript, outcome) == Failure(InvalidFileMessage)
    ensures input == AudioFile(RecordingFileName) ==>
      TranscribeAudio(input, recordedTranscript, outcome) == TranscribeAudio(input, recordedTranscript, other)
      && TranscribeAudio(input, recordedTranscript, outcome)
         == Success(if recordedTranscript != "" then recordedTranscript else NoRecordedTranscriptMessage)
    ensures input.AudioFile? && input.name != RecordingFileName ==>
      TranscribeAudio(input, recordedTranscript, outcome) == UploadResult(outcome)
  {
  }

  /** The four kinds of failure, in the catch block's order of priority. */
  datatype FailureKind = TimedOut | ServerError | NoResponse | OtherError

  function KindOf(e: CaughtError): FailureKind {
    if e.code == "ECONNABORTED" then TimedOut
    else if e.response.Some? then ServerError
    else if e.hasRequest then NoResponse
    else OtherError
  }

  /** Which kind of failure a user-facing message reports, read from its fixed wording. */
  function KindOfMessage(msg: string): FailureKind {
    if msg == TimeoutMessage then TimedOut
    else if msg == NotRespondingMessage then NoResponse
    else if ServerErrorPrefix <= msg then ServerError
    else OtherError
  }

  /**
   * The message tells the user which failure happened, in priority order;
   * a server error carries the server's `error` field, or the status text when
   * that is empty, and any other error carries its own message.
   */
  lemma ClassifyErrorReports(e: CaughtError)
    ensures KindOfMessage(ClassifyError(e)) == KindOf(e)
    ensures KindOf(e) == ServerError ==>
      ClassifyError(e)[|ServerErrorPrefix|..]
      == if e.response.value.dataError != "" then e.response.value.dataError else e.response.value.statusText
    ensures KindOf(e) == OtherError ==> ClassifyError(e)[|OtherErrorPrefix|..] == e.message
    ensures KindOf(e) == ServerError ==>
      ClassifyError(e)
      == ServerErrorPrefix + if e.response.value.dataError != "" then e.response.value.dataError else e.response.value.statusText
    ensures KindOf(e) == OtherError ==> ClassifyError(e) == OtherErrorPrefix + e.message
  {
    var msg := ClassifyError(e);
    match KindOf(e)
    case TimedOut =>
    case ServerError =>
      assert msg[..|ServerErrorPrefix|] == ServerErrorPrefix;
      assert msg[0] == 'S' && TimeoutMessage[0] == 'T';
      assert msg[7] == 'e' && NotRespondingMessage[7] == 'n';
    case NoResponse =>
      assert NotRespondingMessage[7] == 'n' && ServerErrorPrefix[7] == 'e';
    case OtherError =>
      assert msg[..|OtherErrorPrefix|] == OtherErrorPrefix;
      assert msg[0] == 'T' && ServerErrorPrefix[0] == 'S' && NotRespondingMessage[0] == 'S';
      assert msg[14] == 'e' && TimeoutMessage[14] == 't';
  }

  /** A reply with no transcript is reported through the last branch, as a transcription error. */
  lemma MissingTranscriptReported()
    ensures UploadResult(Replied("")) == Failure(OtherErrorPrefix + "No transcript returned from server")
  {
    assert ClassifyError(MissingTranscriptError) == OtherErrorPrefix + "No transcript returned from server";
  }

  /** One entry of `event.results`: its first alternative's text and whether it is final. */
  datatype SpeechResult = SpeechResult(transcript: string, isFinal: bool)

  /** The final segments' texts, in order. */
  function Finals(results: seq<SpeechResult>): seq<string> {
    if results == [] then []
    else Finals(results[..|results| - 1])
         + (if results[|results| - 1].isFinal then [results[|results| - 1].transcript] else [])
  }

  /** Each text followed by one space. */
  function Spaced(texts: seq<string>): string {
    if texts == [] then "" else Spaced(texts[..|texts| - 1]) + texts[|texts| - 1] + " "
  }

  /** What one pass over the results appends to the transcript. */
  function FinalText(results: seq<SpeechResult>): string {
    if results == [] then ""
    else FinalText(results[..|results| - 1])
         + (var r := results[|results| - 1]; if r.isFinal then r.transcript + " " else "")
  }

  /** The position of the last non-final result, or -1 when every result is final. */
  function LastInterimIndex(results: seq<SpeechResult>): (k: int)
    ensures -1 <= k < |results|
    ensures k >= 0 ==> !results[k].isFinal
    ensures forall j :: k < j < |results| ==> results[j].isFinal
  {
    if results == [] then -1
    else if !results[|results| - 1].isFinal then |results| - 1
    else LastInterimIndex(results[..|results| - 1])
  }

  /** The text left in the interim slot: the last non-final result's, or "" when every result is final. */
  function LastInterim(results: seq<SpeechResult>): string {
    var k := LastInterimIndex(results);
    if k < 0 then "" else results[k].transcript
  }

  /** The appended text is each final segment, in order, followed by one space; interim results add nothing. */
  lemma {:induction false} FinalTextIsSpacedFinals(results: seq<SpeechResult>)
    ensures FinalText(results) == Spaced(Finals(results))
  {
    if results != [] {
      var init, r := results[..|results| - 1], results[|results| - 1];
      FinalTextIsSpacedFinals(init);
      if r.isFinal {
        assert Finals(results) == Finals(init) + [r.transcript];
        assert Finals(results)[..|Finals(results)| - 1] == Finals(init);
      } else {
        assert Finals(results) == Finals(init);
      }
    }
  }

  /** Appending is order-preserving across batches: two batches add what their concatenation adds. */
  lemma {:induction false} FinalTextConcat(a: seq<SpeechResult>, b: seq<SpeechResult>)
    ensures FinalText(a + b) == FinalText(a) + FinalText(b)
  {
    if b != [] {
      var init := b[..|b| - 1];
      assert (a + b)[..|a + b| - 1] == a + init;
      FinalTextConcat(a, init);
    } else {
      assert a + b == a;
    }
  }

  lemma {:induction false} InterimOnlyAppendsNothing(results: seq<SpeechResult>)
    requires forall i :: 0 <= i < |results| ==> !results[i].isFinal
    ensures FinalText(results) == ""
  {
    if results != [] {
      InterimOnlyAppendsNothing(results[..|results| - 1]);
    }
  }

  /** The example of two final segments "hello" and "world". */
  lemma HelloWorld()
    ensures FinalText([SpeechResult("hello", true), SpeechResult("world", true)]) == "hello world "
  {
    var rs := [SpeechResult("hello", true), SpeechResult("world", true)];
    assert rs[..1] == [SpeechResult("hello", true)];
    assert rs[..1][..0] == [];
  }

  /** Where the loop over `event.results` begins: `event.resultIndex`, or nowhere past the end. */
  function Unprocessed(results: seq<SpeechResult>, resultIndex: nat): seq<SpeechResult> {
    if resultIndex <= |results| then results[resultIndex..] else []
  }

  /**
   * The `onresult` loop: starting from the stored transcript, each result
   * from `resultIndex` on either appends its text and a space (final) or
   * becomes the interim text (not final).
   */
  method AccumulateResults(stored: string, results: seq<SpeechResult>, resultIndex: nat)
    returns (finalText: string, interimText: string)
    ensures finalText == stored + FinalText(Unprocessed(results, resultIndex))
    ensures interimText == LastInterim(Unprocessed(results, resultIndex))
  {
    finalText, interimText := stored, "";
    var pending := Unprocessed(results, resultIndex);
    var j := 0;
    // pending[j] is results[resultIndex + j]
    while j < |pending|
      invariant j <= |pending|
      invariant finalText == stored + FinalText(pending[..j])
      invariant interimText == LastInterim(pending[..j])
    {
      var result := pending[j];
      if result.isFinal {
        finalText := finalText + result.transcript + " ";
      } else {
        interimText := result.transcript;
      }
      assert pending[..j + 1][..j] == pending[..j];
      j := j + 1;
    }
    assert pending[..j] == pending;
  }

  /** What `setupLiveTranscription` returns. */
  datatype LiveSetup = Unsupported(error: string) | Supported

  const UnsupportedMessage := "Speech recognition not supported in this browser"

  /** The page-wide state the service writes: `window.recordedTranscript` and the interim text it reports. */
  class LiveTranscription {
    var recordedTranscript: string
    /** The last value passed to `window.onInterimTranscript`. */
    var reportedInterim: string

    constructor ()
      ensures recordedTranscript == "" && reportedInterim == ""
    {
      recordedTranscript := "";
      reportedInterim := "";
    }

    /** `setupLiveTranscription`: the stored transcript is always reset, before the support check. */
    method Setup(hasRecognizer: bool) returns (setup: LiveSetup)
      modifies this`recordedTranscript
      ensures recordedTranscript == ""
      ensures setup == if hasRecognizer then Supported else Unsupported(UnsupportedMessage)
    {
      recordedTranscript := "";
      if !hasRecognizer {
        return Unsupported(UnsupportedMessage);
      }
      setup := Supported;
    }

    /**
     * The recogniser's `onresult`: the stored transcript only grows, and the
     * interim text is reported. The source reports it only when a listener is
     * registered; `RecordingControls` registers one when it mounts, so the
     * model always reports it.
     */
    method OnResult(results: seq<SpeechResult>, resultIndex: nat)
      modifies this
      ensures recordedTranscript == old(recordedTranscript) + FinalText(Unprocessed(results, resultIndex))
      ensures reportedInterim == LastInterim(Unprocessed(results, resultIndex))
    {
      var finalText, interimText := AccumulateResults(recordedTranscript, results, resultIndex);
      recordedTranscript := finalText;
      reportedInterim := interimText;
    }
  }
}
