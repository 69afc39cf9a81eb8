/**
 * The home screen's button logic: touches on the record button and clicks on
 * the play button call the AudioRecorder and then set the view model's
 * recording, has-recording and playing flags.
 */
module HomeScreen {
  import opened Wrappers
  import opened SessionSpec
  import opened AudioRecording

  datatype RecordingMode = HoldToRecord | ToggleRecord

  /** MotionEvent actions the record button distinguishes. */
  datatype TouchAction = ActionDown | ActionUp | OtherAction

  /** The platform outcomes a touch may need: for a start and for a stop. */
  datatype TouchOutcomes = TouchOutcomes(now: int, start: StartOutcomes, stop: StopOutcomes)

  class HomeFragment {
    const audioRecorder: AudioRecorder
    // the view model's flags and mode
    var isRecording: bool
    var hasRecording: bool
    var isPlaying: bool
    var recordingMode: Option<RecordingMode>

    ghost predicate Valid()
      reads this, audioRecorder
    {
      audioRecorder.Valid()
    }

    /** onCreateView: a new recorder with the AAC encoder and the playback listener set. */
    constructor (mode: Option<RecordingMode>)
      ensures Valid() && fresh(audioRecorder)
      ensures audioRecorder.Snapshot() == SetPlaybackListener(SetAudioEncoder(Initial(), AAC))
      ensures !isRecording && !hasRecording && !isPlaying && recordingMode == mode
    {
      audioRecorder := new AudioRecorder();
      isRecording, hasRecording, isPlaying := false, false, false;
      recordingMode := mode;
      new;
      audioRecorder.SetAudioEncoder(AAC);
      audioRecorder.SetPlaybackListener();
    }

    /** The recording-mode switch: checked means toggle mode. */
    method OnModeSwitched(isChecked: bool)
      modifies this
      ensures recordingMode == Some(if isChecked then ToggleRecord else HoldToRecord)
      ensures isRecording == old(isRecording) && hasRecording == old(hasRecording)
      ensures isPlaying == old(isPlaying)
    {
      recordingMode := Some(if isChecked then ToggleRecord else HoldToRecord);
    }

    /** The record button's touch listener: dispatch on the mode; no mode, not consumed. */
    method OnRecordTouch(action: TouchAction, o: TouchOutcomes) returns (consumed: bool)
      modifies this, audioRecorder
      ensures consumed <==> old(recordingMode).Some?
      ensures old(recordingMode).None? ==>
        && audioRecorder.Snapshot() == old(audioRecorder.Snapshot())
        && isRecording == old(isRecording) && hasRecording == old(hasRecording)
      // hold mode: a press starts recording, a release stops it
      ensures old(recordingMode) == Some(HoldToRecord) && action == ActionDown ==>
        var r := SessionSpec.StartRecording(old(audioRecorder.Snapshot()), o.now, o.start);
        && audioRecorder.Snapshot() == r.next
        && (r.out ==> isRecording && !hasRecording)
        && (!r.out ==> isRecording == old(isRecording) && hasRecording == old(hasRecording))
      ensures old(recordingMode) == Some(HoldToRecord) && action == ActionUp ==>
        var r := SessionSpec.StopRecording(old(audioRecorder.Snapshot()), o.now, o.stop);
        && audioRecorder.Snapshot() == r.next
        && !isRecording
        && hasRecording == (old(hasRecording) || r.out)
      // toggle mode: a release stops while recording and starts otherwise
      ensures old(recordingMode) == Some(ToggleRecord) && action == ActionUp && old(isRecording) ==>
        var r := SessionSpec.StopRecording(old(audioRecorder.Snapshot()), o.now, o.stop);
        && audioRecorder.Snapshot() == r.next
        && !isRecording
        && hasRecording == (old(hasRecording) || r.out)
      ensures old(recordingMode) == Some(ToggleRecord) && action == ActionUp && !old(isRecording) ==>
        var r := SessionSpec.StartRecording(old(audioRecorder.Snapshot()), o.now, o.start);
        && audioRecorder.Snapshot() == r.next
        && isRecording == r.out
        && hasRecording == old(hasRecording)
      // anything else leaves the recorder and the flags as they were
      ensures ((old(recordingMode) == Some(HoldToRecord) && action == OtherAction) ||
               (old(recordingMode) == Some(ToggleRecord) && action != ActionUp)) ==>
        && audioRecorder.Snapshot() == old(audioRecorder.Snapshot())
        && isRecording == old(isRecording) && hasRecording == old(hasRecording)
      ensures isPlaying == old(isPlaying) && recordingMode == old(recordingMode)
      ensures old(Valid()) ==> Valid()
    {
      match recordingMode
      case Some(HoldToRecord) => consumed := HandleHoldToRecord(action, o);
      case Some(ToggleRecord) => consumed := HandleToggleRecord(action, o);
      case None => consumed := false;
    }

    /**
     * Hold mode: press starts, release stops. Only a successful start sets
     * recording and clears has-recording; a release always clears recording
     * and sets has-recording only when the stop kept the recording.
     */
    method HandleHoldToRecord(action: TouchAction, o: TouchOutcomes) returns (consumed: bool)
      modifies this, audioRecorder
      ensures consumed
      ensures action == ActionDown ==>
        var r := SessionSpec.StartRecording(old(audioRecorder.Snapshot()), o.now, o.start);
        && audioRecorder.Snapshot() == r.next
        && (r.out ==> isRecording && !hasRecording)
        && (!r.out ==> isRecording == old(isRecording) && hasRecording == old(hasRecording))
      ensures action == ActionUp ==>
        var r := SessionSpec.StopRecording(old(audioRecorder.Snapshot()), o.now, o.stop);
        && audioRecorder.Snapshot() == r.next
        && !isRecording
        && hasRecording == (old(hasRecording) || r.out)
      ensures action == OtherAction ==>
        && audioRecorder.Snapshot() == old(audioRecorder.Snapshot())
        && isRecording == old(isRecording) && hasRecording == old(hasRecording)
      ensures isPlaying == old(isPlaying) && recordingMode == old(recordingMode)
      ensures old(Valid()) ==> Valid()
    {
      match action {
        case ActionDown =>
          var started := audioRecorder.StartRecording(o.now, o.start);
          if started {
            isRecording := true;
            hasRecording := false;
          }
        case ActionUp =>
          var kept := audioRecorder.StopRecording(o.now, o.stop);
          isRecording := false;
          if kept {
            hasRecording := true;
          }
        case OtherAction =>
      }
      return true;
    }

    /**
     * Toggle mode: only a release counts. While the flag says recording it
     * stops, clears recording and sets has-recording when the stop kept the
     * recording; otherwise it starts, and sets recording when the start worked.
     */
    method HandleToggleRecord(action: TouchAction, o: TouchOutcomes) returns (consumed: bool)
      modifies this, audioRecorder
      ensures consumed
      ensures action != ActionUp ==>
        && audioRecorder.Snapshot() == old(audioRecorder.Snapshot())
        && isRecording == old(isRecording) && hasRecording == old(hasRecording)
      ensures action == ActionUp && old(isRecording) ==>
        var r := SessionSpec.StopRecording(old(audioRecorder.Snapshot()), o.now, o.stop);
        && audioRecorder.Snapshot() == r.next
        && !isRecording
        && hasRecording == (old(hasRecording) || r.out)
      ensures action == ActionUp && !old(isRecording) ==>
        var r := SessionSpec.StartRecording(old(audioRecorder.Snapshot()), o.now, o.start);
        && audioRecorder.Snapshot() == r.next
        && isRecording == r.out
        && hasRecording == old(hasRecording)
      ensures isPlaying == old(isPlaying) && recordingMode == old(recordingMode)
      ensures old(Valid()) ==> Valid()
    {
      if action != ActionUp {
        return true;
      }
      if isRecording {
        var kept := audioRecorder.StopRecording(o.now, o.stop);
        isRecording := false;
        if kept {
          hasRecording := true;
        }
      } else {
        var started := audioRecorder.StartRecording(o.now, o.start);
        if started {
          isRecording := true;
        }
      }
      return true;
    }

    /**
     * The play button: while playing it stops playback and clears playing;
     * otherwise it starts playback and sets playing, whatever came of it.
     */
    method OnPlayClicked(reported: AudioFile, dataSource: Outcome)
      modifies this, audioRecorder
      ensures old(isPlaying) ==>
        audioRecorder.Snapshot() == SessionSpec.StopPlayback(old(audioRecorder.Snapshot())) && !isPlaying
      ensures !old(isPlaying) ==>
        audioRecorder.Snapshot() == SessionSpec.StartPlayback(old(audioRecorder.Snapshot()), reported, dataSource).next
        && isPlaying
      ensures isRecording == old(isRecording) && hasRecording == old(hasRecording)
      ensures recordingMode == old(recordingMode)
      ensures old(Valid()) ==> Valid()
    {
      if isPlaying {
        audioRecorder.StopPlayback();
        isPlaying := false;
      } else {
        var _ := audioRecorder.StartPlayback(reported, dataSource);
        isPlaying := true;
      }
    }

    /**
     * The player finished: the listener's onPlaybackCompleted and the
     * onComplete handed to startPlayback both clear playing.
     */
    method OnPlayerCompleted()
      requires audioRecorder.mediaPlayer == Some(PlayerHandle(Started))
      modifies this, audioRecorder
      ensures audioRecorder.Snapshot() == SessionSpec.OnCompletion(old(audioRecorder.Snapshot())).next
      ensures !isPlaying
      ensures isRecording == old(isRecording) && hasRecording == old(hasRecording)
      ensures recordingMode == old(recordingMode)
      ensures old(Valid()) ==> Valid()
    {
      var notices := audioRecorder.OnCompletion();
      if PlaybackCompleted in notices {
        isPlaying := false;
      }
      if CallerCompleted in notices {
        isPlaying := false;
      }
    }

    /** onDestroyView: the recorder gives everything back. */
    method OnDestroyView()
      modifies audioRecorder
      ensures audioRecorder.Snapshot() == SessionSpec.Release(old(audioRecorder.Snapshot()))
      ensures old(Valid()) ==> Valid() && audioRecorder.liveRecorders == 0 && audioRecorder.livePlayers == 0
    {
      audioRecorder.Release();
    }

    /** The player failed: only messages are shown; playing stays as it was. */
    method OnPlayerError(what: int)
      requires audioRecorder.mediaPlayer.Some?
      modifies audioRecorder
      ensures audioRecorder.Snapshot() == SessionSpec.OnError(old(audioRecorder.Snapshot()), what).next
      ensures old(Valid()) ==> Valid()
    {
      var _ := audioRecorder.OnError(what);
    }
  }
}
