# Recording, transcription and notes-editing logic of Transcript-Notes, in Dafny

Transcript-Notes is a browser application. It records audio, transcribes it live with the browser's
speech recogniser or through an upload endpoint, and sends the transcript to a language model. The
model returns Markdown notes, which the user can edit. This project models the sequential logic inside
the React front end and proves properties of it:

- **RecordingControls** (`recording_controls.dfy`): the recording/transcription coordinator.
  - It is one `Coordinator` object. Its fields are the component's state, its refs, the two page-wide
    globals `window.recordedTranscript` and `window.shouldRestartRecognition`, and the state of the
    browser's `MediaRecorder`.
  - Each browser callback is an event method: button clicks, `onresult`, `onerror`, `onend`,
    `ondataavailable`, `onstop`, the file input, and the arrival of a `generateNotes` reply.
  - The 300 ms restart, the 500 ms start and the 30-minute auto-stop timers are counters. Arming one
    increments its counter, and each firing is its own event.
  - The 1000 ms stream clean-up is the boolean `cleanupArmed`. Re-running its effect clears the old
    timer and re-arms it, so at most one is pending.
  - A React effect re-runs only when one of its dependencies changed (`RunEffects`).
  - `Valid()` ties the recorder state, the stream and the restart flag to the `isRecording`/`isPaused`
    flags. Every event preserves it, except Pause fired while not recording: the Pause button is
    disabled in that state, and the model shows that the invariant would then break.
- **App** (`app.dfy`): the parent's `isRecording`/`isPaused`/`recordingStartTime`/`notes` state and its
  unguarded handlers.
- **TranscriptionService** (`transcription_service.dfy`):
  - `transcribeAudio` as a decision chain: validation, the `recording.wav` short-circuit, the response
    check, and the four-way error classification. The network outcome is an abstract datatype.
  - The recogniser's result loop, which both `onresult` handlers repeat (RecordingControls.js:134-159
    and transcriptionService.js:88-116); the model uses one `AccumulateResults` for both.
  - `setupLiveTranscription`. RecordingControls.js:4 imports it but never calls it, so
    `LiveTranscription` models code that the application never runs.
- **Timer** (`timer.dfy`): elapsed seconds, the `MM:SS` formatter and the four status lines.
- **NotesDisplay** (`notes_display.dfy`): the selection splice `formatText`, the toolbar table, the
  keyboard shortcuts and the editable copy of the notes.
- `js_string.dfy` states the JavaScript built-ins used (`substring`, `padStart`, `toString`, `%`, the
  whitespace set of `trim`). `wrappers.dfy` holds `Option` and `Result`.

Behaviour of the code that the proofs make explicit:

- Resuming after a pause discards the transcript captured before the pause. The recognition effect
  (RecordingControls.js:217-230) fires whenever the flags become recording-and-not-paused, on resume
  as on start. See `Coordinator.ResumeRecording` and the `ResumeAfterPause` scenario.
- At stop, the fallback `transcribeAudio` call is made on a file named `recording.wav`. So it never
  reaches the server and never throws. The chosen transcript is the recorded text when it is non-empty
  (even if blank), else "No transcript was recorded…", and the "No speech detected…" placeholder is
  never used (`ChosenTranscript`).
- The 500 ms start timer calls `recognition.start()` without checking the flags (`StartTimerFired`).
  The 300 ms restart timer does check the restart flag (`RestartTimerFired`).
- No 30-minute auto-stop timer is ever cleared. One fired after a manual stop changes nothing, because
  the recorder is inactive. But a timer left from an earlier recording stops whatever recorder is
  active when it fires (`AutoStopTimerFired`).
- The 500 ms start can fire after a pause and start the recogniser anyway. The recogniser then listens
  while the recording is paused and the restart flag is off (the `PausedButListening` scenario).
- The file input is rendered only while the microphone is reported supported
  (RecordingControls.js:430-465). Once the microphone is reported unsupported, there is no upload
  control, although the placeholder at lines 470-471 tells the user to "use the file upload option"
  (`Coordinator.Buttons`).
- The notes editor is overwritten only when the `notes` prop changes value (`NotesPropChanged`). New
  notes equal to the previous ones leave the user's edits in place.

Choices in the code that the model follows as written:
- The App handlers have no guards (App.js:17-34). Start, pause, resume and stop set the flags from any
  state, and only the disabled buttons keep them consistent.
- Pausing stops the recogniser (RecordingControls.js:272-281), but not consistently: a 500 ms start
  armed before the pause can still start it while paused (lines 233-241, `PausedButListening`).
- The transcript is cleared on resume as well as on start (lines 217-230, `ResumeAfterPause`).
- The no-speech placeholder is never shown, because the fallback transcription never throws
  (`ChosenTranscript`).

## Model

| member | source | states |
|---|---|---|
| `Timer.ElapsedSeconds` | react-transcript-notes/src/components/Timer.js:11-13 | elapsed is the floor of (now − start)/1000: 1000·r ≤ now − start < 1000·(r+1), and non-negative once now ≥ start |
| `Timer.ElapsedMonotone` | react-transcript-notes/src/components/Timer.js:12 | elapsed never decreases as `now` grows |
| `Timer.FormatTime` | react-transcript-notes/src/components/Timer.js:22-28 | `formatTime`; its contract is stated by `FormatTimeFields`, `ClockRoundTrip`, `FormatTimeInjective` and `HundredMinutes` |
| `JsString.NumberToString` | react-transcript-notes/src/components/Timer.js:24-27 | `toString` of an integer: it starts with "-" iff the number is negative, and the digits after any sign denote its absolute value |
| `Timer.FormatTimeFields` | react-transcript-notes/src/components/Timer.js:22-28 | for s ≥ 0: a minutes field of ≥ 2 digits, never shorter than the minutes' digits, denoting s div 60; a colon; exactly two digits denoting s mod 60 < 60 |
| `Timer.ClockRoundTrip` | react-transcript-notes/src/components/Timer.js:22-28 | reading the clock back gives 60·minutes + seconds = s |
| `Timer.FormatTimeInjective` | react-transcript-notes/src/components/Timer.js:22-28 | two non-negative durations with the same clock are equal |
| `Timer.HundredMinutes` | react-transcript-notes/src/components/Timer.js:23-25 | 6000 s is shown as "100:00": minutes are padded but never cut |
| `Timer.TimerDisplay` | react-transcript-notes/src/components/Timer.js:30-38 | `timerDisplay`; its contract is stated by `DisplayCases` |
| `Timer.DisplayCases` | react-transcript-notes/src/components/Timer.js:30-38 | exactly one status line: paused iff recording and paused, running iff recording and not paused, stopped iff not recording with elapsed > 0, else not recording; the first three are exactly their opening words followed by the clock, and the last is exactly "Not recording" |
| `Timer.TimerView.constructor` | react-transcript-notes/src/components/Timer.js:4 | the elapsed time starts at 0 |
| `Timer.TimerView.Tick` | react-transcript-notes/src/components/Timer.js:9-15 | a tick sets elapsed from the start time only while recording and not paused; otherwise elapsed is frozen |
| `NotesDisplay.SelectionOf` | react-transcript-notes/src/components/NotesDisplay.js:20-25 | the captured text is value[start..end] for bounds inside the value |
| `NotesDisplay.FormatText` | react-transcript-notes/src/components/NotesDisplay.js:28-35 | an empty selection (start = end) leaves the notes unchanged |
| `NotesDisplay.FormatPreserves` | react-transcript-notes/src/components/NotesDisplay.js:31-34 | the text before start and from end on is kept verbatim, with prefix, selected text and suffix between them, and the length adds up |
| `NotesDisplay.FormatRoundTrip` | react-transcript-notes/src/components/NotesDisplay.js:20-34 | with the selection captured from the notes, the length grows by exactly \|prefix\| + \|suffix\| and deleting the markers restores the notes |
| `NotesDisplay.FormatOperations` | react-transcript-notes/src/components/NotesDisplay.js:38-50 | eleven toolbar entries, none with an empty prefix; the suffix differs from the prefix only for Link |
| `NotesDisplay.Shortcut` | react-transcript-notes/src/components/NotesDisplay.js:53-79 | a key formats iff Ctrl or Meta is held and the key is b, i, k, ' or ` |
| `NotesDisplay.ShortcutsMatchToolbar` | react-transcript-notes/src/components/NotesDisplay.js:58-75 | b, i, k and ' / ` apply the markers of the Bold, Italic, Link and Code toolbar entries |
| `NotesDisplay.NotesEditor.constructor` | react-transcript-notes/src/components/NotesDisplay.js:6-17 | on mount the editable notes are the notes prop, and the selection is empty |
| `NotesDisplay.NotesEditor.NotesPropChanged` | react-transcript-notes/src/components/NotesDisplay.js:15-17 | a notes prop that differs from the last one seen overwrites the editable notes; an equal one leaves the edits |
| `NotesDisplay.NotesEditor.Edit` | react-transcript-notes/src/components/NotesDisplay.js:112 | typing replaces the editable notes |
| `NotesDisplay.NotesEditor.HandleSelection` | react-transcript-notes/src/components/NotesDisplay.js:20-25 | the selection state becomes the bounds and the substring between them |
| `NotesDisplay.NotesEditor.ApplyFormat` | react-transcript-notes/src/components/NotesDisplay.js:28-35 | the editable notes become the splice of the last captured selection |
| `NotesDisplay.NotesEditor.ClickOperation` | react-transcript-notes/src/components/NotesDisplay.js:38-50 | a toolbar button applies its entry's markers |
| `NotesDisplay.NotesEditor.HandleKeyDown` | react-transcript-notes/src/components/NotesDisplay.js:53-79 | a shortcut prevents the default and formats; any other key changes nothing |
| `TranscriptionService.Prepare` | react-transcript-notes/src/services/transcriptionService.js:5-15 | an upload is needed iff the input is a file not named recording.wav; a missing input or a non-File fails with "A valid audio file is required" |
| `TranscriptionService.TranscribeAudio` | react-transcript-notes/src/services/transcriptionService.js:5-55 | a returned transcript is never empty |
| `TranscriptionService.TranscribeAudioPaths` | react-transcript-notes/src/services/transcriptionService.js:6-15 | validation comes first; recording.wav yields the stored transcript or "No transcript was recorded…" whatever the network would do; any other file gets the upload's result |
| `TranscriptionService.UploadResult` | react-transcript-notes/src/services/transcriptionService.js:30-34 | the upload succeeds iff the server replied with a non-empty transcript, which is then the result; a rejected request fails with its classified message |
| `TranscriptionService.ClassifyError` | react-transcript-notes/src/services/transcriptionService.js:35-53 | the catch block's message; its contract is stated by `ClassifyErrorReports` and `MissingTranscriptReported` |
| `TranscriptionService.ClassifyErrorReports` | react-transcript-notes/src/services/transcriptionService.js:35-53 | the message identifies the failure in priority order (ECONNABORTED, response, request, other); a server error carries data.error or else statusText; any other error carries its message; the server-error and other-error messages are stated exactly as prefix plus detail |
| `TranscriptionService.MissingTranscriptReported` | react-transcript-notes/src/services/transcriptionService.js:30-34 | a reply without a transcript ends as "Transcription error: No transcript returned from server" |
| `TranscriptionService.LastInterimIndex` | react-transcript-notes/src/services/transcriptionService.js:96-107 | the interim text comes from a non-final result after which every result is final; with none, it is "" |
| `TranscriptionService.FinalText` | react-transcript-notes/src/services/transcriptionService.js:96-110 | what one pass appends; its contract is stated by `FinalTextIsSpacedFinals`, `FinalTextConcat`, `InterimOnlyAppendsNothing` and `HelloWorld` |
| `TranscriptionService.FinalTextIsSpacedFinals` | react-transcript-notes/src/services/transcriptionService.js:96-110 | the appended text is each final segment, in order, followed by one space |
| `TranscriptionService.FinalTextConcat` | react-transcript-notes/src/services/transcriptionService.js:96-110 | two batches append what their concatenation appends (order kept across batches) |
| `TranscriptionService.InterimOnlyAppendsNothing` | react-transcript-notes/src/services/transcriptionService.js:101-107 | non-final results never change the stored transcript |
| `TranscriptionService.HelloWorld` | react-transcript-notes/src/services/transcriptionService.js:96-110 | final segments "hello", "world" append "hello world " |
| `TranscriptionService.AccumulateResults` | react-transcript-notes/src/services/transcriptionService.js:92-110 | the loop from resultIndex yields the stored text followed by the final segments' text, and the last interim text |
| `TranscriptionService.LiveTranscription.Setup` | react-transcript-notes/src/services/transcriptionService.js:57-66 | the stored transcript is always reset to ""; without a recogniser the result is unsupported with its message |
| `TranscriptionService.LiveTranscription.OnResult` | react-transcript-notes/src/services/transcriptionService.js:88-115 | the stored transcript only grows, by the batch's final text; the reported interim is the last non-final text |
| `App.AppState.constructor` | react-transcript-notes/src/App.js:8-11 | empty notes, not recording, not paused, no start time |
| `App.AppState.HandleNotesGenerated` | react-transcript-notes/src/App.js:13-15 | the notes are replaced wholesale by the argument |
| `App.AppState.StartRecording` | react-transcript-notes/src/App.js:17-21 | from any state: recording, not paused, start time = now |
| `App.AppState.PauseRecording` | react-transcript-notes/src/App.js:23-25 | only isPaused changes, to true; paused ⇒ recording then holds iff recording |
| `App.AppState.ResumeRecording` | react-transcript-notes/src/App.js:27-29 | only isPaused changes, to false |
| `App.AppState.StopRecording` | react-transcript-notes/src/App.js:31-34 | both flags false whatever the prior state; the start time is kept |
| `RecordingControls.GenerateNotes` | react-transcript-notes/src/services/notesGenerationService.js:29-31 | an empty transcript gets "No transcript provided…"; `NotesGenerated` shows that under the invariant the reply is used instead |
| `RecordingControls.ChooseTranscript` | react-transcript-notes/src/components/RecordingControls.js:39-53 | the transcript `processRecordedAudio` settles on; its contract is stated by `ChosenTranscript` |
| `RecordingControls.ChosenTranscript` | react-transcript-notes/src/components/RecordingControls.js:34-53 | the fallback on "recording.wav" always succeeds; the chosen transcript is the recorded one if non-empty, else "No transcript was recorded…", and never empty |
| `RecordingControls.Coordinator.constructor` | react-transcript-notes/src/components/RecordingControls.js:18-26 | mounting: nothing recorded or pending, restart flag off, microphone supported iff a recogniser exists and the probe succeeded; the invariant holds |
| `RecordingControls.Coordinator.Buttons` | react-transcript-notes/src/components/RecordingControls.js:476-509 | Pause and Resume are never both enabled; Start excludes Pause, Resume and Stop and needs mic support; all are disabled while processing; the file input is enabled only with mic support, while neither recording nor processing |
| `RecordingControls.Coordinator.RecognitionEffect` | react-transcript-notes/src/components/RecordingControls.js:211-283 | recording unpaused: transcript and interim cleared, restart flag set, a start armed; otherwise restart flag cleared and recogniser stopped |
| `RecordingControls.Coordinator.RecorderEffect` | react-transcript-notes/src/components/RecordingControls.js:384-394 | the recorder is paused only from recording and resumed only from paused |
| `RecordingControls.Coordinator.CleanupEffect` | react-transcript-notes/src/components/RecordingControls.js:396-407 | a clean-up is armed exactly when not recording with a stream reference |
| `RecordingControls.Coordinator.RunEffects` | react-transcript-notes/src/components/RecordingControls.js:283 | the effects run only when their dependency flags changed |
| `RecordingControls.Coordinator.HandleRecording` | react-transcript-notes/src/components/RecordingControls.js:286-381 | no-op while recording; otherwise transcript cleared; a denied mic marks it unsupported and leaves the recorder, the recogniser, its pending starts, the clean-up and the flags as they were; a granted one starts a fresh recorder with empty chunks, arms one auto-stop and (with a recogniser) stops it and arms one start; the invariant is kept |
| `RecordingControls.Coordinator.PauseRecording` | react-transcript-notes/src/components/RecordingControls.js:483-488 | the transcript is kept; restart flag cleared when the flags change; the invariant is kept iff pause fires while recording |
| `RecordingControls.Coordinator.ResumeRecording` | react-transcript-notes/src/components/RecordingControls.js:489-494 | with a recogniser, resuming from a pause stops the recogniser and sets the restart flag iff recording; if recording it also discards the stored transcript and interim text and arms one start; the paused recorder resumes; without a change of flags nothing about recognition changes |
| `RecordingControls.Coordinator.StopRecording` | react-transcript-notes/src/components/RecordingControls.js:495-509 | restart flag cleared, flags false, recorder made inactive, recogniser stopped when the flags changed, clean-up armed when it was recording with a stream, transcript kept for onstop |
| `RecordingControls.Coordinator.AutoStopTimerFired` | react-transcript-notes/src/components/RecordingControls.js:357-373 | acts only when the recorder is not inactive, stopping as the Stop button does (recogniser stopped, clean-up re-armed) and also the stream's tracks; the transcript, interim text and pending starts are never touched |
| `RecordingControls.Coordinator.RecognitionResult` | react-transcript-notes/src/components/RecordingControls.js:134-159 | the stored transcript grows by the batch's final text; the interim slot is the last non-final text or "" |
| `RecordingControls.Coordinator.RecognitionError` | react-transcript-notes/src/components/RecordingControls.js:95-111 | "audio-capture" and "not-allowed" mark the microphone unsupported |
| `RecordingControls.Coordinator.RecognitionEnded` | react-transcript-notes/src/components/RecordingControls.js:113-132 | a restart is armed iff the restart flag is set when the recogniser ends |
| `RecordingControls.Coordinator.RestartTimerFired` | react-transcript-notes/src/components/RecordingControls.js:119-130 | the recogniser restarts iff the flag is still set, which under the invariant means recording and not paused |
| `RecordingControls.Coordinator.StartTimerFired` | react-transcript-notes/src/components/RecordingControls.js:233-241 | the delayed start always starts the recogniser |
| `RecordingControls.Coordinator.DataAvailable` | react-transcript-notes/src/components/RecordingControls.js:309-313 | only chunks of size > 0 are appended |
| `RecordingControls.Coordinator.RecorderStopped` | react-transcript-notes/src/components/RecordingControls.js:315-325 | zero chunks: "No audio data was recorded…" and no processing; otherwise busy, with the chosen transcript sent for notes |
| `RecordingControls.Coordinator.FileSelected` | react-transcript-notes/src/components/RecordingControls.js:409-425 | an uploaded file shows a processing message, then its transcript goes for notes or its error becomes the notes and processing ends |
| `RecordingControls.Coordinator.NotesGenerated` | react-transcript-notes/src/components/RecordingControls.js:55-63 | the reply becomes the notes and processing ends; pending transcripts are never empty, so the notes are the reply itself |
| `RecordingControls.Coordinator.CleanupTimerFired` | react-transcript-notes/src/components/RecordingControls.js:400-403 | the stream's tracks are stopped and the reference dropped |
| `RecordingControls.ResumeAfterPause` | react-transcript-notes/src/components/RecordingControls.js:217-230 | start, hear "hello", pause, resume: "hello " before the resume, "" after |
| `RecordingControls.PausedButListening` | react-transcript-notes/src/components/RecordingControls.js:233-241 | start, then pause before the 500 ms start fires: the recogniser listens while paused, with the restart flag off |
| `RecordingControls.StopDeliversLiveTranscript` | react-transcript-notes/src/components/RecordingControls.js:29-64 | start, hear "hello" and "world", stop, get audio: "hello world " goes to note generation and its reply becomes the notes |

## Left out

- Strings are sequences of Unicode code points. JavaScript string lengths, `substring` and the textarea's `selectionStart`/`selectionEnd` (NotesDisplay.js:21-23, 31-32) count UTF-16 code units instead. So the indices of `Substring`, `SelectionOf` and `FormatText` are code-point indices, and they agree with the browser's only on text without characters outside the Basic Multilingual Plane. A selection bound that falls inside a surrogate pair is not modelled. `trim` is not affected: every character it strips lies in the Basic Multilingual Plane, which has no surrogate pairs.
- Browser objects are reduced to the state the logic reads: `SpeechRecognition` becomes a listening bit, `MediaRecorder` its `state`, the stream a live/stopped reference, and audio chunks their sizes. `Blob`/`File` contents are not modelled.
- The microphone probe (RecordingControls.js:169-195) is the constructor parameter `micProbeOk`. Microphone permission in `handleRecording` is the parameter `micGranted`.
- Recreating the recogniser when `start()` throws (RecordingControls.js:242-269) is left out. The model has one recogniser and one listening bit. In the code, a second 500 ms start (Start, then Pause and Resume within 500 ms) throws on the already started instance. A second instance is then created and started, and later stops at lines 220 and 276 reach only that one. So the model does not capture a second instance that keeps listening and appending to `window.recordedTranscript`, nor the 300 ms restarts (line 122) aimed at the mount-time instance.
- The `recognitionStatus` strings, console logging, `alert` and the unmount clean-up are left out. None of them affects the modelled state.
- Durations are not modelled: each timer is an armed count that fires as an event. So the model cannot say which of several armed auto-stop timers fires first.
- `handleRecording` runs atomically across its only await, `getUserMedia` (the microphone permission). `processRecordedAudio` runs atomically up to its network awaits, and `handleFileSelect` across its `transcribeAudio` await (an upload of up to 120 s). Clicks and timer firings that arrive during those awaits are not modelled.
- `RunEffects`: every event runs its React effects before the next event arrives. That holds for click handlers, but state set after the `getUserMedia` await or inside the auto-stop timer re-renders later, and other callbacks can run in between. For instance, after Stop and then Start within a second, the Stop's 1000 ms clean-up timer (RecordingControls.js:396-406) can fire after the new stream is stored but before the clean-up effect clears it, stopping the new stream's tracks. The model does not capture that interleaving.
- `LiveTranscription.OnResult`: the interim text is reported only when a listener is registered; `RecordingControls` registers one when it mounts (RecordingControls.js:164), so the model always reports it.
- `processRecordedAudio`'s outer catch ("Error processing recording: …") and `handleFileSelect`'s catch around `generateNotes` are left out. Nothing inside either try can throw: `generateNotes` always returns a string and `transcribeAudio`'s errors are caught.
- `generateNotes` (notesGenerationService.js) is a remote string, except for its empty-transcript rule (`GenerateNotes`). The server and DeepSeek paths are out of scope.
- `TranscriptionService.TranscribeAudio`: a reply's transcript is a string, with "" standing for any falsy or missing value. Truthy non-string values, and an error response whose `data` is null (which would throw inside the catch), are not modelled.
- `JsString.IsWhitespace` covers the WhiteSpace and LineTerminator characters of ECMAScript. Other Unicode space separators than those listed are not covered.
- NotesDisplay's edit/preview toggle, ReactMarkdown rendering, AudioVisualizer, the Vosk server and transcriber scripts, and `notesGenerationService.js`'s network client are out of scope. They are rendering, I/O or process plumbing.
