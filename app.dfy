/** The top-level component's state: the generated notes and the recording flags. */
module App {
  import opened Wrappers

  class AppState {
    var notes: string
    var isRecording: bool
    var isPaused: bool
    var recordingStartTime: Option<int>

    constructor ()
      ensures notes == "" && !isRecording && !isPaused && recordingStartTime == None
    {
      notes := "";
      isRecording := false;
      isPaused := false;
      recordingStartTime := None;
    }

    /** Paused implies recording; it holds only while pause is fired from a recording state. */
    predicate FlagsConsistent()
      reads this
    {
      isPaused ==> isRecording
    }

    /** `handleNotesGenerated`: the notes are replaced wholesale. */
    method HandleNotesGenerated(generatedNotes: string)
      modifies this`notes
      ensures notes == generatedNotes
    {
      notes := generatedNotes;
    }

    /** `startRecording`, from any state: recording, not paused, started now. */
    method StartRecording(now: int)
      modifies this`isRecording, this`isPaused, this`recordingStartTime
      ensures isRecording && !isPaused && recordingStartTime == Some(now)
      ensures FlagsConsistent()
    {
      isRecording := true;
      isPaused := false;
      recordingStartTime := Some(now);
    }

    /** `pauseRecording` has no guard: only the paused flag is set. */
    method PauseRecording()
      modifies this`isPaused
      ensures isPaused
      ensures FlagsConsistent() <==> isRecording
    {
      isPaused := true;
    }

    /** `resumeRecording` has no guard: only the paused flag is cleared. */
    method ResumeRecording()
      modifies this`isPaused
      ensures !isPaused && FlagsConsistent()
    {
      isPaused := false;
    }

    /** `stopRecording`, from any state: both flags false, the start time kept. */
    method StopRecording()
      modifies this`isRecording, this`isPaused
      ensures !isRecording && !isPaused && FlagsConsistent()
    {
      isRecording := false;
      isPaused := false;
    }
  }
}
