/**
 * The recording coordinator: the `RecordingControls` component's handlers,
 * its effects keyed on the recording flags, and the browser callbacks it
 * installs, each turned into an event method of one object. Timers are
 * counted when armed and fire as separate events.
 */
module RecordingControls {
  import opened Wrappers
  import opened JsString
  import opened App
  import opened TranscriptionService

  /** `MediaRecorder.state`. */
  datatype RecorderState = Inactive | Recording | Paused

  /** `mediaStreamRef.current`: no stream, or a stream whose tracks are live or stopped. */
  datatype StreamRef = NoStream | Stream(live: bool)

  const NoSpeechPlaceholder := "No speech detected. Please try again and speak clearly into the microphone."
  const NoAudioMessage := "No audio data was recorded. Please try again."
  const ProcessingFileMessage := "Processing your audio file... Please wait."
  const FileErrorPrefix := "Error processing file: "
  const NoTranscriptProvidedMessage := "No transcript provided. Please record or upload audio first."

  /** `generateNotes`: an empty transcript gets a fixed message; any other gets the remote service's reply. */
  function GenerateNotes(transcript: string, remoteNotes: string): string {
    if transcript == "" then NoTranscriptProvidedMessage else remoteNotes
  }

  /**
   * The transcript `processRecordedAudio` settles on: the recorded one unless
   * it is empty or blank, else `transcribeAudio` on the file "recording.wav",
   * else (if that threw) the no-speech placeholder.
   */
  function ChooseTranscript(recorded: string, fallback: UploadOutcome): string {
    if recorded == "" || IsBlank(recorded) then
      match TranscribeAudio(AudioFile(RecordingFileName), recorded, fallback)
      case Success(t) => t
      case Failure(_) => NoSpeechPlaceholder
    else recorded
  }

  /**
   * Because the recording is always named "recording.wav", the fallback never
   * reaches the server and never throws: the chosen transcript is the recorded
   * one when it is non-empty (blank or not) and the "No transcript was
   * recorded" message otherwise, so it is never empty and the placeholder
   * branch is dead.
   */
  lemma ChosenTranscript(recorded: string, fallback: UploadOutcome)
    ensures TranscribeAudio(AudioFile(RecordingFileName), recorded, fallback).Success?
    ensures ChooseTranscript(recorded, fallback)
      == if recorded != "" then recorded else NoRecordedTranscriptMessage
    ensures ChooseTranscript(recorded, fallback) != ""
  {
    assert IsBlank("");
  }

  /** Which of the component's controls are enabled. */
  datatype Controls = Controls(start: bool, pause: bool, resume: bool, stop: bool, fileInput: bool)

  class Coordinator {
    /** The parent's state and handlers, reached through the component's props. */
    const app: AppState
    /** Whether the browser offers a speech recogniser (`recognitionRef.current` after mounting). */
    const hasRecognition: bool

    var isProcessing: bool
    var isMicSupported: bool
    var interimTranscript: string
    /** `window.recordedTranscript` ("" also stands for undefined). */
    var recordedTranscript: string
    /** `window.shouldRestartRecognition`. */
    var shouldRestartRecognition: bool
    /** Whether the recogniser was last started rather than stopped or ended. */
    var recognizerListening: bool
    /** 500 ms timers armed by the recognition effect, each of which starts the recogniser. */
    var pendingRecognitionStarts: nat
    /** 300 ms timers armed by `onend`. */
    var pendingRestarts: nat
    /** `mediaRecorderRef.current`'s state, `None` before the first recorder. */
    var recorder: Option<RecorderState>
    /** `audioChunksRef.current`, as the sizes of the chunks. */
    var audioChunks: seq<nat>
    var stream: StreamRef
    /** The 1000 ms stream clean-up timer of the effect keyed on `isRecording`. */
    var cleanupArmed: bool
    /** 30-minute auto-stop timers; `handleRecording` arms one per start and none is ever cleared. */
    var pendingAutoStops: nat
    /** Transcripts handed to `generateNotes` whose reply has not arrived yet. */
    var pendingNotes: seq<string>

    /**
     * The coordination invariant: the flags are consistent, the recorder's
     * state follows them, the stream is live while recording, and (with a
     * recogniser) the restart flag is set exactly while recording unpaused.
     */
    ghost predicate Valid()
      reads this, app
    {
      app.FlagsConsistent()
      && (app.isRecording ==>
            recorder == Some(if app.isPaused then Paused else Recording)
            && stream == Stream(true) && !cleanupArmed)
      && (!app.isRecording ==> recorder == None || recorder == Some(Inactive))
      && (hasRecognition ==> (shouldRestartRecognition <==> app.isRecording && !app.isPaused))
      && (forall i :: 0 <= i < |pendingNotes| ==> pendingNotes[i] != "")
    }

    /**
     * Mounting under the parent's initial state. Without a recogniser the
     * microphone is reported unsupported; otherwise the microphone probe
     * decides.
     */
    constructor (app: AppState, hasRecognition: bool, micProbeOk: bool)
      requires !app.isRecording && !app.isPaused
      ensures this.app == app && this.hasRecognition == hasRecognition
      ensures isMicSupported == (hasRecognition && micProbeOk)
      ensures !isProcessing && interimTranscript == "" && recordedTranscript == ""
      ensures !shouldRestartRecognition && !recognizerListening
      ensures pendingRecognitionStarts == 0 && pendingRestarts == 0 && pendingAutoStops == 0
      ensures recorder == None && audioChunks == [] && stream == NoStream && !cleanupArmed
      ensures pendingNotes == []
      ensures Valid()
    {
      this.app := app;
      this.hasRecognition := hasRecognition;
      isProcessing := false;
      isMicSupported := hasRecognition && micProbeOk;
      interimTranscript := "";
      recordedTranscript := "";
      shouldRestartRecognition := false;
      recognizerListening := false;
      pendingRecognitionStarts := 0;
      pendingRestarts := 0;
      recorder := None;
      audioChunks := [];
      stream := NoStream;
      cleanupArmed := false;
      pendingAutoStops := 0;
      pendingNotes := [];
    }

    /** The enable predicates of the four buttons and the file input (absent counts as disabled). */
    function Buttons(): (c: Controls)
      reads this, app
      ensures !(c.pause && c.resume)
      ensures c.start ==> !c.pause && !c.resume && !c.stop && isMicSupported
      ensures c.pause || c.resume || c.stop ==> app.isRecording
      ensures isProcessing ==> c == Controls(false, false, false, false, false)
      ensures c.start ==> c.fileInput
      ensures c.fileInput ==> isMicSupported && !app.isRecording && !isProcessing
    {
      Controls(
        !(app.isRecording || isProcessing || !isMicSupported),
        !(!app.isRecording || app.isPaused || isProcessing),
        !(!app.isRecording || !app.isPaused || isProcessing),
        !(!app.isRecording || isProcessing),
        // the file input is rendered only in the microphone-supported branch
        isMicSupported && !(app.isRecording || isProcessing))
    }

    /**
     * The effect at lines 211-283: recording unpaused clears the stored
     * transcript and the interim text, sets the restart flag and arms the
     * 500 ms start; any other state clears the restart flag and stops the
     * recogniser.
     */
    method RecognitionEffect()
      modifies this`recordedTranscript, this`shouldRestartRecognition, this`interimTranscript,
        this`recognizerListening, this`pendingRecognitionStarts
      ensures !hasRecognition ==>
        recordedTranscript == old(recordedTranscript) && shouldRestartRecognition == old(shouldRestartRecognition)
        && interimTranscript == old(interimTranscript) && recognizerListening == old(recognizerListening)
        && pendingRecognitionStarts == old(pendingRecognitionStarts)
      ensures hasRecognition && app.isRecording && !app.isPaused ==>
        recordedTranscript == "" && shouldRestartRecognition && interimTranscript == ""
        && !recognizerListening && pendingRecognitionStarts == old(pendingRecognitionStarts) + 1
      ensures hasRecognition && !(app.isRecording && !app.isPaused) ==>
        recordedTranscript == old(recordedTranscript) && !shouldRestartRecognition
        && interimTranscript == old(interimTranscript) && !recognizerListening
        && pendingRecognitionStarts == old(pendingRecognitionStarts)
    {
      if !hasRecognition {
        return;
      }
      if app.isRecording && !app.isPaused {
        recognizerListening := false;
        recordedTranscript := "";
        shouldRestartRecognition := true;
        interimTranscript := "";
        pendingRecognitionStarts := pendingRecognitionStarts + 1;
      } else {
        shouldRestartRecognition := false;
        recognizerListening := false;
      }
    }

    /** The effect at lines 384-394: the recorder is paused only from `recording` and resumed only from `paused`. */
    method RecorderEffect()
      modifies this`recorder
      ensures app.isRecording && app.isPaused && old(recorder) == Some(Recording) ==> recorder == Some(Paused)
      ensures app.isRecording && !app.isPaused && old(recorder) == Some(Paused) ==> recorder == Some(Recording)
      ensures (!(app.isRecording && app.isPaused && old(recorder) == Some(Recording))
               && !(app.isRecording && !app.isPaused && old(recorder) == Some(Paused))) ==> recorder == old(recorder)
    {
      if recorder.Some? && app.isRecording {
        if app.isPaused && recorder.value == Recording {
          recorder := Some(Paused);
        } else if !app.isPaused && recorder.value == Paused {
          recorder := Some(Recording);
        }
      }
    }

    /** The effect at lines 397-407: re-running clears the previous timer; when not recording with a stream, one is armed. */
    method CleanupEffect()
      modifies this`cleanupArmed
      ensures cleanupArmed == (!app.isRecording && stream.Stream?)
    {
      cleanupArmed := !app.isRecording && stream.Stream?;
    }

    /** After a render: each effect runs only when one of its dependencies changed. */
    method RunEffects(wasRecording: bool, wasPaused: bool)
      modifies this`recordedTranscript, this`shouldRestartRecognition, this`interimTranscript,
        this`recognizerListening, this`pendingRecognitionStarts, this`recorder, this`cleanupArmed
      ensures var changed := app.isRecording != wasRecording || app.isPaused != wasPaused;
        changed && hasRecognition && app.isRecording && !app.isPaused ==>
          recordedTranscript == "" && shouldRestartRecognition && interimTranscript == ""
          && !recognizerListening && pendingRecognitionStarts == old(pendingRecognitionStarts) + 1
      ensures var changed := app.isRecording != wasRecording || app.isPaused != wasPaused;
        changed && hasRecognition && !(app.isRecording && !app.isPaused) ==>
          recordedTranscript == old(recordedTranscript) && !shouldRestartRecognition
          && interimTranscript == old(interimTranscript) && !recognizerListening
          && pendingRecognitionStarts == old(pendingRecognitionStarts)
      ensures var changed := app.isRecording != wasRecording || app.isPaused != wasPaused;
        !(changed && hasRecognition) ==>
          recordedTranscript == old(recordedTranscript) && shouldRestartRecognition == old(shouldRestartRecognition)
          && interimTranscript == old(interimTranscript) && recognizerListening == old(recognizerListening)
          && pendingRecognitionStarts == old(pendingRecognitionStarts)
      ensures var changed := app.isRecording != wasRecording || app.isPaused != wasPaused;
        recorder == if changed && app.isRecording && app.isPaused && old(recorder) == Some(Recording) then Some(Paused)
                    else if changed && app.isRecording && !app.isPaused && old(recorder) == Some(Paused) then Some(Recording)
                    else old(recorder)
      ensures cleanupArmed == if app.isRecording != wasRecording then !app.isRecording && stream.Stream? else old(cleanupArmed)
    {
      if app.isRecording != wasRecording || app.isPaused != wasPaused {
        RecognitionEffect();
        RecorderEffect();
      }
      if app.isRecording != wasRecording {
        CleanupEffect();
      }
    }

    /**
     * `handleRecording`: a no-op while recording. Otherwise the transcript is
     * cleared and the old stream's tracks stopped; a denied microphone marks it
     * unsupported; a granted one gets a fresh recorder with an empty chunk
     * list, the parent starts recording, the restart flag is set, the recorder
     * starts and a 30-minute auto-stop is armed.
     */
    method HandleRecording(now: int, micGranted: bool)
      modifies this`recordedTranscript, this`shouldRestartRecognition, this`interimTranscript,
        this`recognizerListening, this`pendingRecognitionStarts, this`recorder, this`cleanupArmed,
        this`isMicSupported, this`stream, this`audioChunks, this`pendingAutoStops,
        app`isRecording, app`isPaused, app`recordingStartTime
      ensures old(app.isRecording) ==> unchanged(this, app)
      ensures !old(app.isRecording) ==> recordedTranscript == "" && interimTranscript == ""
      ensures !old(app.isRecording) && !micGranted ==>
        !isMicSupported && !app.isRecording && app.isPaused == old(app.isPaused)
        && app.recordingStartTime == old(app.recordingStartTime)
        && recorder == old(recorder) && audioChunks == old(audioChunks)
        && stream == (if old(stream).Stream? then Stream(false) else NoStream)
        && shouldRestartRecognition == old(shouldRestartRecognition)
        && pendingAutoStops == old(pendingAutoStops)
        && recognizerListening == old(recognizerListening)
        && pendingRecognitionStarts == old(pendingRecognitionStarts) && cleanupArmed == old(cleanupArmed)
      ensures !old(app.isRecording) && micGranted ==>
        app.isRecording && !app.isPaused && app.recordingStartTime == Some(now)
        && recorder == Some(Recording) && audioChunks == [] && stream == Stream(true) && !cleanupArmed
        && shouldRestartRecognition && pendingAutoStops == old(pendingAutoStops) + 1
        && isMicSupported == old(isMicSupported)
        && (hasRecognition ==> !recognizerListening && pendingRecognitionStarts == old(pendingRecognitionStarts) + 1)
        && (!hasRecognition ==>
              recognizerListening == old(recognizerListening) && pendingRecognitionStarts == old(pendingRecognitionStarts))
      ensures old(Valid()) ==> Valid()
    {
      if app.isRecording {
        return;
      }
      recordedTranscript := "";
      interimTranscript := "";
      // setupMediaRecorder: the previous stream's tracks are stopped first
      if stream.Stream? {
        stream := Stream(false);
      }
      if !micGranted {
        isMicSupported := false;
        return;
      }
      stream := Stream(true);
      recorder := Some(Inactive);
      audioChunks := [];
      var wasRecording, wasPaused := app.isRecording, app.isPaused;
      app.StartRecording(now);
      shouldRestartRecognition := true;
      recorder := Some(Recording);
      pendingAutoStops := pendingAutoStops + 1;
      RunEffects(wasRecording, wasPaused);
    }

    /**
     * The Pause button (`onPauseRecording`, unguarded). The transcript is
     * kept; when the flags change the recogniser is stopped and will not be
     * restarted, and a recording recorder is paused. The invariant survives
     * exactly when pause fires while recording, as the button's enable
     * predicate ensures.
     */
    method PauseRecording()
      modifies this`recordedTranscript, this`shouldRestartRecognition, this`interimTranscript,
        this`recognizerListening, this`pendingRecognitionStarts, this`recorder, this`cleanupArmed, app`isPaused
      ensures app.isPaused && app.isRecording == old(app.isRecording) && cleanupArmed == old(cleanupArmed)
      ensures recordedTranscript == old(recordedTranscript) && interimTranscript == old(interimTranscript)
      ensures pendingRecognitionStarts == old(pendingRecognitionStarts)
      ensures !old(app.isPaused) && hasRecognition ==> !shouldRestartRecognition && !recognizerListening
      ensures old(app.isPaused) || !hasRecognition ==>
        shouldRestartRecognition == old(shouldRestartRecognition) && recognizerListening == old(recognizerListening)
      ensures recorder == if !old(app.isPaused) && app.isRecording && old(recorder) == Some(Recording)
                          then Some(Paused) else old(recorder)
      ensures old(Valid()) && old(app.isRecording) ==> Valid()
      ensures old(Valid()) && !old(app.isRecording) ==> !app.FlagsConsistent()
    {
      var wasRecording, wasPaused := app.isRecording, app.isPaused;
      app.PauseRecording();
      RunEffects(wasRecording, wasPaused);
    }

    /**
     * The Resume button (`onResumeRecording`, unguarded). When the flags become
     * recording-and-not-paused the recognition effect fires as it does at
     * start: the transcript captured before the pause is discarded, the
     * restart flag is set and a recogniser start is armed; a paused recorder
     * is resumed.
     */
    method ResumeRecording()
      modifies this`recordedTranscript, this`shouldRestartRecognition, this`interimTranscript,
        this`recognizerListening, this`pendingRecognitionStarts, this`recorder, this`cleanupArmed, app`isPaused
      ensures !app.isPaused && app.isRecording == old(app.isRecording) && cleanupArmed == old(cleanupArmed)
      ensures old(app.isPaused) && app.isRecording && hasRecognition ==>
        recordedTranscript == "" && interimTranscript == "" && shouldRestartRecognition
        && pendingRecognitionStarts == old(pendingRecognitionStarts) + 1
      ensures !(old(app.isPaused) && app.isRecording && hasRecognition) ==>
        recordedTranscript == old(recordedTranscript) && interimTranscript == old(interimTranscript)
        && pendingRecognitionStarts == old(pendingRecognitionStarts)
      ensures old(app.isPaused) && hasRecognition ==>
        !recognizerListening && shouldRestartRecognition == app.isRecording
      ensures !(old(app.isPaused) && hasRecognition) ==>
        recognizerListening == old(recognizerListening) && shouldRestartRecognition == old(shouldRestartRecognition)
      ensures recorder == if old(app.isPaused) && app.isRecording && old(recorder) == Some(Paused)
                          then Some(Recording) else old(recorder)
      ensures old(Valid()) ==> Valid()
    {
      var wasRecording, wasPaused := app.isRecording, app.isPaused;
      app.ResumeRecording();
      RunEffects(wasRecording, wasPaused);
    }

    /**
     * The Stop button: the restart flag is cleared before anything else, the
     * parent stops recording, and the recorder is stopped unless it is already
     * inactive. The stored transcript is kept for the recorder's `onstop`.
     */
    method StopRecording()
      modifies this`recordedTranscript, this`shouldRestartRecognition, this`interimTranscript,
        this`recognizerListening, this`pendingRecognitionStarts, this`recorder, this`cleanupArmed,
        app`isRecording, app`isPaused
      ensures !app.isRecording && !app.isPaused && !shouldRestartRecognition
      ensures recordedTranscript == old(recordedTranscript) && interimTranscript == old(interimTranscript)
      ensures pendingRecognitionStarts == old(pendingRecognitionStarts)
      ensures recorder == if old(recorder).Some? then Some(Inactive) else None
      ensures cleanupArmed == if old(app.isRecording) then stream.Stream? else old(cleanupArmed)
      ensures (old(app.isRecording) || old(app.isPaused)) && hasRecognition ==> !recognizerListening
      ensures !((old(app.isRecording) || old(app.isPaused)) && hasRecognition) ==>
        recognizerListening == old(recognizerListening)
      ensures old(Valid()) ==> Valid()
    {
      shouldRestartRecognition := false;
      var wasRecording, wasPaused := app.isRecording, app.isPaused;
      app.StopRecording();
      if recorder.Some? && recorder.value != Inactive {
        recorder := Some(Inactive);
      }
      RunEffects(wasRecording, wasPaused);
    }

    /**
     * A 30-minute auto-stop timer fires. It acts only when the current
     * recorder is not inactive (as the Stop button, and it also stops the
     * stream's tracks); after a manual stop it changes nothing.
     */
    method AutoStopTimerFired()
      requires pendingAutoStops > 0
      modifies this`recordedTranscript, this`shouldRestartRecognition, this`interimTranscript,
        this`recognizerListening, this`pendingRecognitionStarts, this`recorder, this`cleanupArmed,
        this`stream, this`pendingAutoStops, app`isRecording, app`isPaused
      ensures pendingAutoStops == old(pendingAutoStops) - 1
      ensures old(recorder) == None || old(recorder) == Some(Inactive) ==>
        unchanged(app) && recorder == old(recorder) && stream == old(stream)
        && shouldRestartRecognition == old(shouldRestartRecognition) && cleanupArmed == old(cleanupArmed)
        && recognizerListening == old(recognizerListening)
      ensures old(recorder) == Some(Recording) || old(recorder) == Some(Paused) ==>
        !app.isRecording && !app.isPaused && !shouldRestartRecognition && recorder == Some(Inactive)
        && stream == (if old(stream).Stream? then Stream(false) else NoStream)
        && cleanupArmed == (if old(app.isRecording) then stream.Stream? else old(cleanupArmed))
        && ((old(app.isRecording) || old(app.isPaused)) && hasRecognition ==> !recognizerListening)
        && (!((old(app.isRecording) || old(app.isPaused)) && hasRecognition) ==>
              recognizerListening == old(recognizerListening))
      ensures recordedTranscript == old(recordedTranscript) && interimTranscript == old(interimTranscript)
      ensures pendingRecognitionStarts == old(pendingRecognitionStarts)
      ensures old(Valid()) ==> Valid()
    {
      pendingAutoStops := pendingAutoStops - 1;
      if recorder.Some? && recorder.value != Inactive {
        shouldRestartRecognition := false;
        var wasRecording, wasPaused := app.isRecording, app.isPaused;
        app.StopRecording();
        recorder := Some(Inactive);
        if stream.Stream? {
          stream := Stream(false);
        }
        RunEffects(wasRecording, wasPaused);
      }
    }

    /** The recogniser's `onresult`: final segments are appended, the interim slot overwritten. */
    method RecognitionResult(results: seq<SpeechResult>, resultIndex: nat)
      modifies this`recordedTranscript, this`interimTranscript
      ensures recordedTranscript == old(recordedTranscript) + FinalText(Unprocessed(results, resultIndex))
      ensures interimTranscript == LastInterim(Unprocessed(results, resultIndex))
      ensures old(Valid()) ==> Valid()
    {
      var finalText, interimText := AccumulateResults(recordedTranscript, results, resultIndex);
      recordedTranscript := finalText;
      interimTranscript := interimText;
    }

    /** The recogniser's `onerror`: a capture failure or a refused permission marks the microphone unsupported. */
    method RecognitionError(error: string)
      modifies this`isMicSupported
      ensures isMicSupported == (old(isMicSupported) && error != "audio-capture" && error != "not-allowed")
      ensures old(Valid()) ==> Valid()
    {
      if error == "audio-capture" || error == "not-allowed" {
        isMicSupported := false;
      }
    }

    /** The recogniser's `onend`: a 300 ms restart is armed only if the restart flag is set. */
    method RecognitionEnded()
      modifies this`recognizerListening, this`pendingRestarts
      ensures !recognizerListening
      ensures pendingRestarts == old(pendingRestarts) + if shouldRestartRecognition then 1 else 0
      ensures old(Valid()) ==> Valid()
    {
      recognizerListening := false;
      if shouldRestartRecognition {
        pendingRestarts := pendingRestarts + 1;
      }
    }

    /**
     * A 300 ms restart timer fires: the recogniser is restarted only if the
     * restart flag is still set, which under the invariant means recording
     * and not paused.
     */
    method RestartTimerFired()
      requires pendingRestarts > 0
      modifies this`recognizerListening, this`pendingRestarts
      ensures pendingRestarts == old(pendingRestarts) - 1
      ensures recognizerListening == (old(recognizerListening) || shouldRestartRecognition)
      ensures Valid() && hasRecognition && recognizerListening && !old(recognizerListening) ==>
        app.isRecording && !app.isPaused
      ensures old(Valid()) ==> Valid()
    {
      pendingRestarts := pendingRestarts - 1;
      if shouldRestartRecognition {
        recognizerListening := true;
      }
    }

    /** A 500 ms start timer fires: `recognition.start()` is called whatever the flags are by then. */
    method StartTimerFired()
      requires pendingRecognitionStarts > 0
      modifies this`recognizerListening, this`pendingRecognitionStarts
      ensures pendingRecognitionStarts == old(pendingRecognitionStarts) - 1 && recognizerListening
      ensures old(Valid()) ==> Valid()
    {
      pendingRecognitionStarts := pendingRecognitionStarts - 1;
      recognizerListening := true;
    }

    /** The recorder's `ondataavailable`: only chunks with data are kept. */
    method DataAvailable(size: nat)
      modifies this`audioChunks
      ensures audioChunks == old(audioChunks) + if size > 0 then [size] else []
      ensures old(Valid()) ==> Valid()
    {
      if size > 0 {
        audioChunks := audioChunks + [size];
      }
    }

    /**
     * The recorder's `onstop`. With no chunks the parent is told that no audio
     * was recorded; otherwise `processRecordedAudio` marks the component busy,
     * settles on a transcript and hands it to `generateNotes`.
     */
    method RecorderStopped(fallback: UploadOutcome)
      modifies this`isProcessing, this`pendingNotes, app`notes
      ensures |audioChunks| == 0 ==>
        app.notes == NoAudioMessage && isProcessing == old(isProcessing) && pendingNotes == old(pendingNotes)
      ensures |audioChunks| > 0 ==>
        app.notes == old(app.notes) && isProcessing
        && pendingNotes == old(pendingNotes) + [ChooseTranscript(recordedTranscript, fallback)]
      ensures old(Valid()) ==> Valid()
    {
      if |audioChunks| > 0 {
        isProcessing := true;
        var transcript := ChooseTranscript(recordedTranscript, fallback);
        ChosenTranscript(recordedTranscript, fallback);
        pendingNotes := pendingNotes + [transcript];
      } else {
        app.HandleNotesGenerated(NoAudioMessage);
      }
    }

    /**
     * The file input's `onChange` through the outcome of `transcribeAudio`,
     * up to the call of `generateNotes`: the parent shows a processing
     * message and the file goes to `transcribeAudio`; a transcript is handed
     * to `generateNotes`, a failure becomes the notes and ends the processing.
     */
    method FileSelected(file: Option<string>, outcome: UploadOutcome)
      modifies this`isProcessing, this`pendingNotes, app`notes
      ensures file.None? ==> isProcessing == old(isProcessing) && pendingNotes == old(pendingNotes) && app.notes == old(app.notes)
      ensures file.Some? ==>
        match TranscribeAudio(AudioFile(file.value), recordedTranscript, outcome)
        case Success(t) => isProcessing && pendingNotes == old(pendingNotes) + [t] && app.notes == ProcessingFileMessage
        case Failure(msg) => !isProcessing && pendingNotes == old(pendingNotes) && app.notes == FileErrorPrefix + msg
      ensures old(Valid()) ==> Valid()
    {
      if file.Some? {
        isProcessing := true;
        app.HandleNotesGenerated(ProcessingFileMessage);
        var r := TranscribeAudio(AudioFile(file.value), recordedTranscript, outcome);
        match r
        case Success(t) =>
          pendingNotes := pendingNotes + [t];
        case Failure(msg) =>
          app.HandleNotesGenerated(FileErrorPrefix + msg);
          isProcessing := false;
      }
    }

    /**
     * The reply to the `k`-th pending `generateNotes` call arrives: the notes
     * go to the parent and, in the `finally` block, processing ends. Pending
     * transcripts are never empty, so the notes are the remote reply itself.
     */
    method NotesGenerated(k: nat, remoteNotes: string)
      requires k < |pendingNotes|
      modifies this`isProcessing, this`pendingNotes, app`notes
      ensures app.notes == GenerateNotes(old(pendingNotes)[k], remoteNotes) && !isProcessing
      ensures pendingNotes == old(pendingNotes)[..k] + old(pendingNotes)[k + 1..]
      ensures old(Valid()) ==> app.notes == remoteNotes && Valid()
    {
      var transcript := pendingNotes[k];
      app.HandleNotesGenerated(GenerateNotes(transcript, remoteNotes));
      isProcessing := false;
      pendingNotes := pendingNotes[..k] + pendingNotes[k + 1..];
    }

    /** The 1000 ms clean-up timer fires: the stream's tracks are stopped and the reference dropped. */
    method CleanupTimerFired()
      requires cleanupArmed
      modifies this`stream, this`cleanupArmed
      ensures stream == NoStream && !cleanupArmed
      ensures old(Valid()) ==> Valid()
    {
      stream := NoStream;
      cleanupArmed := false;
    }
  }

  /**
   * Start, hear "hello", pause, resume: the text captured before the pause is
   * gone after the resume.
   */
  method ResumeAfterPause() returns (beforeResume: string, afterResume: string)
    ensures beforeResume == "hello " && afterResume == ""
  {
    var app := new AppState();
    var c := new Coordinator(app, true, true);
    c.HandleRecording(0, true);
    c.StartTimerFired();
    c.RecognitionResult([SpeechResult("hello", true)], 0);
    assert [SpeechResult("hello", true)][..0] == [];
    c.PauseRecording();
    beforeResume := c.recordedTranscript;
    c.ResumeRecording();
    afterResume := c.recordedTranscript;
  }

  /**
   * Start, hear "hello" and "world", stop, receive audio: the live
   * transcript is what goes to note generation, and its reply becomes the
   * notes once processing ends.
   */
  method StopDeliversLiveTranscript(remoteNotes: string, fallback: UploadOutcome)
    returns (sentForNotes: string, notes: string, processing: bool)
    ensures sentForNotes == "hello world " && notes == remoteNotes && !processing
  {
    var app := new AppState();
    var c := new Coordinator(app, true, true);
    c.HandleRecording(0, true);
    c.StartTimerFired();
    c.RecognitionResult([SpeechResult("hello", true), SpeechResult("world", true)], 0);
    HelloWorld();
    c.StopRecording();
    c.DataAvailable(4096);
    c.RecorderStopped(fallback);
    ChosenTranscript("hello world ", fallback);
    sentForNotes := c.pendingNotes[0];
    c.NotesGenerated(0, remoteNotes);
    notes := app.notes;
    processing := c.isProcessing;
  }

  /**
   * Start, then pause before the 500 ms start timer fires: the timer starts
   * the recogniser anyway, so it listens while the recording is paused.
   */
  method PausedButListening() returns (paused: bool, listening: bool, restartFlag: bool)
    ensures paused && listening && !restartFlag
  {
    var app := new AppState();
    var c := new Coordinator(app, true, true);
    c.HandleRecording(0, true);
    c.PauseRecording();
    c.StartTimerFired();
    paused := app.isPaused;
    listening := c.recognizerListening;
    restartFlag := c.shouldRestartRecognition;
  }
}
