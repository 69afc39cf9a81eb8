/**
 * The AudioRecorder object itself: its fields are updated step by step as
 * in the source, and every method is proved to produce the state that the
 * matching SessionSpec function describes.
 */
module AudioRecording {
  import opened Wrappers
  import opened SessionSpec

  class AudioRecorder {
    var mediaRecorder: Option<RecorderHandle>
    var mediaPlayer: Option<PlayerHandle>
    var tempAudioFile: Option<AudioFile>
    var recordingStartTime: int
    var isRecording: bool
    var currentEncoder: Encoder
    /** Whether a PlaybackListener has been set. */
    var hasListener: bool
    /** Whether progressUpdateRunnable is non-null. */
    var progressRunnable: bool
    /** Whether a run of that runnable is queued on the handler. */
    var tickPending: bool
    /**
     * The platform's accounting, not fields of the source: native recorders
     * and players handed out and not yet released.
     */
    ghost var liveRecorders: int
    ghost var livePlayers: int
    /** Temp files left on disk that no field refers to any more. */
    ghost var strayFiles: nat

    /** The fields as a SessionSpec value. */
    ghost function Snapshot(): Session
      reads this
    {
      Session(mediaRecorder, mediaPlayer, tempAudioFile, recordingStartTime, isRecording,
              currentEncoder, hasListener, progressRunnable, tickPending, liveRecorders, livePlayers,
              strayFiles)
    }

    ghost predicate Valid()
      reads this
    {
      SessionSpec.Valid(Snapshot())
    }

    constructor ()
      ensures Snapshot() == Initial() && Valid()
    {
      mediaRecorder, mediaPlayer, tempAudioFile := None, None, None;
      recordingStartTime, isRecording, currentEncoder := 0, false, AAC;
      hasListener, progressRunnable, tickPending := false, false, false;
      liveRecorders, livePlayers, strayFiles := 0, 0, 0;
    }

    method SetAudioEncoder(encoder: Encoder)
      modifies this
      ensures Snapshot() == SessionSpec.SetAudioEncoder(old(Snapshot()), encoder)
    {
      currentEncoder := encoder;
    }

    method SetPlaybackListener()
      modifies this
      ensures Snapshot() == SessionSpec.SetPlaybackListener(old(Snapshot()))
    {
      hasListener := true;
    }

    method StartRecording(now: int, o: StartOutcomes) returns (started: bool)
      modifies this
      ensures var r := SessionSpec.StartRecording(old(Snapshot()), now, o);
        Snapshot() == r.next && started == r.out
      ensures old(Valid()) ==> Valid()
    {
      if isRecording {
        return false;
      }
      CleanupMediaRecorder();
      if o.createFile.Fails? {
        CleanupMediaRecorder();
        return false;
      }
      // the previous file is not deleted: if still on disk, it is left behind
      if tempAudioFile.Some? && tempAudioFile.value.onDisk {
        strayFiles := strayFiles + 1;
      }
      tempAudioFile := Some(AudioFile(true, 0));
      // a new MediaRecorder, configured before it is stored in the field
      var recorder := RecorderHandle(currentEncoder);
      liveRecorders := liveRecorders + 1;
      if o.configure.Fails? || o.prepare.Fails? || o.start.Fails? {
        liveRecorders := liveRecorders - 1;
        CleanupMediaRecorder();
        return false;
      }
      mediaRecorder := Some(recorder);
      recordingStartTime := now;
      isRecording := true;
      return true;
    }

    method StopRecording(now: int, o: StopOutcomes) returns (kept: bool)
      modifies this
      ensures var r := SessionSpec.StopRecording(old(Snapshot()), now, o);
        Snapshot() == r.next && kept == r.out
      ensures old(Valid()) ==> Valid()
    {
      if !isRecording || mediaRecorder.None? {
        return false;
      }
      var duration := now - recordingStartTime;
      if duration < MinRecordingDurationMs {
        CleanupMediaRecorder();
        DeleteTempFile();
        return false;
      }
      // stop() and reset(); whatever happens, finally release()
      var stopped := o.stop.Succeeds?;
      if !stopped {
        DeleteTempFile();
      }
      mediaRecorder := None;
      liveRecorders := liveRecorders - 1;
      isRecording := false;
      if !stopped {
        return false;
      }
      if o.probe.Fails? {
        CleanupMediaRecorder();
        DeleteTempFile();
        return false;
      }
      if tempAudioFile.None? {
        return false;
      }
      tempAudioFile := Some(o.written);
      return o.written.onDisk && o.written.length > 0;
    }

    /** `reported` is what the file system says of the temp file at call time. */
    method StartPlayback(reported: AudioFile, dataSource: Outcome) returns (notices: seq<Notice>)
      modifies this
      ensures var r := SessionSpec.StartPlayback(old(Snapshot()), reported, dataSource);
        Snapshot() == r.next && notices == r.out
      ensures old(Valid()) ==> Valid()
    {
      if tempAudioFile.None? {
        return [CallerFailed];
      }
      var current := if tempAudioFile.value.onDisk then reported else tempAudioFile.value;
      if !current.onDisk || current.length == 0 {
        return [CallerFailed];
      }
      StopPlayback();
      // a new MediaPlayer, configured before it is stored in the field
      var player := PlayerHandle(Preparing);
      livePlayers := livePlayers + 1;
      if dataSource.Fails? {
        livePlayers := livePlayers - 1;
        return [CallerFailed];
      }
      mediaPlayer := Some(player);
      return [];
    }

    /** The prepared listener of the current player. */
    method OnPrepared()
      requires mediaPlayer == Some(PlayerHandle(Preparing))
      modifies this
      ensures Snapshot() == SessionSpec.OnPrepared(old(Snapshot()))
      ensures old(Valid()) ==> Valid()
    {
      mediaPlayer := Some(PlayerHandle(Started));
      StartProgressUpdates();
    }

    /** The error listener of the current player. */
    method OnError(what: int) returns (notices: seq<Notice>)
      requires mediaPlayer.Some?
      modifies this
      ensures var r := SessionSpec.OnError(old(Snapshot()), what);
        Snapshot() == r.next && notices == r.out
      ensures old(Valid()) ==> Valid()
    {
      mediaPlayer := Some(PlayerHandle(Errored));
      StopProgressUpdates();
      notices := if hasListener then [PlaybackError(what)] else [];
      notices := notices + [CallerFailed];
    }

    /** The completion listener of the current player. */
    method OnCompletion() returns (notices: seq<Notice>)
      requires mediaPlayer == Some(PlayerHandle(Started))
      modifies this
      ensures var r := SessionSpec.OnCompletion(old(Snapshot()));
        Snapshot() == r.next && notices == r.out
      ensures old(Valid()) ==> Valid()
    {
      StopProgressUpdates();
      notices := if hasListener then [PlaybackCompleted] else [];
      notices := notices + [CallerCompleted];
      livePlayers := livePlayers - 1;
      mediaPlayer := None;
    }

    /** One run of the progress runnable, as the handler would deliver it. */
    method Tick(devicePlaying: bool, position: int, duration: int) returns (notices: seq<Notice>)
      modifies this
      ensures var r := SessionSpec.Tick(old(Snapshot()), devicePlaying, position, duration);
        Snapshot() == r.next && notices == r.out
      ensures old(Valid()) ==> Valid()
    {
      if !tickPending {
        return [];
      }
      tickPending := false;
      notices := [];
      if mediaPlayer.Some? && devicePlaying {
        if hasListener {
          notices := [ProgressChanged(position, duration)];
        }
        tickPending := true;
      }
    }

    method StartProgressUpdates()
      modifies this
      ensures Snapshot() == SessionSpec.StartProgressUpdates(old(Snapshot()))
    {
      progressRunnable := true;
      tickPending := true;
    }

    method StopProgressUpdates()
      modifies this
      ensures Snapshot() == SessionSpec.StopProgressUpdates(old(Snapshot()))
    {
      tickPending := false;
      progressRunnable := false;
    }

    /** seekTo: passed on to the player when there is one; reports whether it was. */
    method SeekTo(position: int) returns (forwarded: bool)
      ensures forwarded <==> mediaPlayer.Some?
    {
      forwarded := mediaPlayer.Some?;
    }

    method StopPlayback()
      modifies this
      ensures Snapshot() == SessionSpec.StopPlayback(old(Snapshot()))
      ensures old(Valid()) ==> Valid()
    {
      StopProgressUpdates();
      if mediaPlayer.Some? {
        // stop() when playing, then release()
        livePlayers := livePlayers - 1;
      }
      mediaPlayer := None;
    }

    method CleanupMediaRecorder()
      modifies this
      ensures Snapshot() == SessionSpec.CleanupMediaRecorder(old(Snapshot()))
      ensures old(Valid()) ==> Valid()
    {
      if mediaRecorder.Some? {
        // stop() when recording, failure swallowed; then reset() and release()
        liveRecorders := liveRecorders - 1;
      }
      mediaRecorder := None;
      isRecording := false;
    }

    method DeleteTempFile()
      modifies this
      ensures Snapshot() == SessionSpec.DeleteTempFile(old(Snapshot()))
    {
      if tempAudioFile.Some? {
        tempAudioFile := Some(AudioFile(false, 0));
      }
    }

    method Release()
      modifies this
      ensures Snapshot() == SessionSpec.Release(old(Snapshot()))
      ensures old(Valid()) ==> Valid() && liveRecorders == 0 && livePlayers == 0
    {
      CleanupMediaRecorder();
      StopPlayback();
      DeleteTempFile();
      tempAudioFile := None;
    }
  }
}
