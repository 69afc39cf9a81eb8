# ShadowingReplayRecorder session controller in Dafny

A model of the recording/playback controller of ShadowingReplayRecorder, an
Android app for "record, then replay at once" practice, and of the home
screen's button logic built on it.

- `session_spec.dfy` (module `SessionSpec`) describes `AudioRecorder` as a
  state machine over values. `Session` holds the recorder's fields.
  Each operation and each player callback is a function from a `Session` to
  the next one and what it returned or notified. `Valid` is the controller's
  invariant: a recorder is held exactly while recording, every native handle
  is referenced by its field, and a progress runnable exists only for a
  started player. The invariant is proved for every sequence of calls and
  callbacks (`RunKeepsValid`). This holds for the start operations as
  corrected under "## Findings": the code as written leaks a recorder or a
  player on some failure paths (`StartRecordingAsWritten`,
  `StartPlaybackAsWritten`).
- `audio_recorder.dfy` (module `AudioRecording`) is the `AudioRecorder` class.
  Its methods update the fields step by step, as the Kotlin code does. Each
  is proved to reach the state its `SessionSpec` function gives.
- `time_format.dfy` (module `TimeFormat`) is `formatTime`, with Kotlin's
  truncating `/` and `%`, and a parser proving that the text reads back as
  the minutes and seconds.
- `home_screen.dfy` (module `HomeScreen`) is the fragment's button logic. It
  covers hold mode, toggle mode and the play button, which call the recorder
  and set the view model's recording, has-recording and playing flags.

The platform is abstract:
- The calls whose exceptions the code catches are `Outcome` parameters
  (`Succeeds` or `Fails`): temp-file creation, recorder configuration,
  `prepare`, `start`, `stop`/`reset`, the file-status query after a stop, and
  `setDataSource`. The other device calls are taken never to throw (see
  "## Left out").
- The temporary file is an `AudioFile(onDisk, length)` record: the status
  last observed by the controller. `startPlayback` asks the file system
  again (`exists()`, `length()`), and that answer is its `reported`
  parameter, so a file still being written can be played.
- The clock is a `now` parameter, in milliseconds.
- Native resources are counted: `liveRecorders` and `livePlayers` go up when a
  `MediaRecorder` or `MediaPlayer` is constructed and down when it is
  released.
- Player callbacks (prepared, error, completion) and the runs of the progress
  runnable are explicit operations. A callback needs the player it comes
  from, in the phase in which the platform delivers it. Callbacks come only
  from the player in the `mediaPlayer` field. A player whose `setDataSource`
  failed has no listeners, because they are set after `setDataSource`, so it
  calls nothing back; as written it is never released either (see
  "## Findings").

A stop under 500 ms returns at once (AudioRecorder.kt:103-108).
`setAudioEncoder` has no recording guard (AudioRecorder.kt:32-35).

## Model

| member | source | states |
|---|---|---|
| `SessionSpec.Initial` | app/src/main/java/net/jonnak/shadowingreplayrecorder/ui/home/AudioRecorder.kt:11-17 | a new controller is valid, holds no recorder or player, is not recording, has no playable file and uses AAC |
| `SessionSpec.SetAudioEncoder` | app/src/main/java/net/jonnak/shadowingreplayrecorder/ui/home/AudioRecorder.kt:32-35 | the encoder becomes the given one, nothing else changes, and no state guard applies |
| `SessionSpec.SetPlaybackListener` | app/src/main/java/net/jonnak/shadowingreplayrecorder/ui/home/AudioRecorder.kt:152-154 | a listener is set and nothing else changes |
| `SessionSpec.ReleaseRecorder` | app/src/main/java/net/jonnak/shadowingreplayrecorder/ui/home/AudioRecorder.kt:120-125 | the finally block releases the recorder once and clears the recorder and recording fields, with nothing else changed |
| `SessionSpec.CleanupMediaRecorder` | app/src/main/java/net/jonnak/shadowingreplayrecorder/ui/home/AudioRecorder.kt:239-260 | never fails; ends with no recorder and not recording; releases a held recorder exactly once; leaves an already clean state unchanged (idempotent); keeps the invariant |
| `SessionSpec.DeleteTempFile` | app/src/main/java/net/jonnak/shadowingreplayrecorder/ui/home/AudioRecorder.kt:106 | afterwards the file, if there is one, is no longer on disk and not playable; nothing else changes |
| `SessionSpec.DropTempFile` | app/src/main/java/net/jonnak/shadowingreplayrecorder/ui/home/AudioRecorder.kt:49 | dropping the reference to the temp file without deleting it leaves a file still on disk behind: the stray-file count goes up by one exactly then, and nothing else changes |
| `SessionSpec.AcquireRecorder` | app/src/main/java/net/jonnak/shadowingreplayrecorder/ui/home/AudioRecorder.kt:54 | constructing a recorder holds one more native recorder and changes nothing else |
| `SessionSpec.StartRecording` | app/src/main/java/net/jonnak/shadowingreplayrecorder/ui/home/AudioRecorder.kt:37-90 | while recording: returns false with every field unchanged. Otherwise: true exactly when every device call succeeds, and then it ends recording, holding a recorder with the current encoder, with the start time equal to now and a new empty file. Any failure ends with no recorder and not recording. Once the new file is created, the old one is dropped without being deleted, adding one stray file when it was still on disk. Playback is untouched and the invariant (no leaked recorder) is kept |
| `SessionSpec.StopRecording` | app/src/main/java/net/jonnak/shadowingreplayrecorder/ui/home/AudioRecorder.kt:92-140 | not recording or no recorder: false, nothing changes. Past that guard, on every path the recorder is released exactly once and recording ends, and the result is true exactly when the file left behind is playable. Under 500 ms, or after a failed stop or file query, it returns false and the file is deleted. After a good stop the result is exists && length > 0 of the reported file. Playback is untouched and the invariant is kept |
| `SessionSpec.StopProgressUpdates` | app/src/main/java/net/jonnak/shadowingreplayrecorder/ui/home/AudioRecorder.kt:216-219 | no runnable and no pending run remain; nothing else changes |
| `SessionSpec.StartProgressUpdates` | app/src/main/java/net/jonnak/shadowingreplayrecorder/ui/home/AudioRecorder.kt:199-214 | a runnable exists and one run is pending; nothing else changes |
| `SessionSpec.StopPlayback` | app/src/main/java/net/jonnak/shadowingreplayrecorder/ui/home/AudioRecorder.kt:225-237 | always ends with no player and no progress runnable; releases a held player exactly once; is idempotent; leaves capture untouched; keeps the invariant |
| `SessionSpec.Playable` | app/src/main/java/net/jonnak/shadowingreplayrecorder/ui/home/AudioRecorder.kt:157 | the playback guard accepts a file exactly when there is a file reference, the file is on disk and its length is greater than zero, the same test stopRecording's result uses (line 132) |
| `SessionSpec.CurrentFile` | app/src/main/java/net/jonnak/shadowingreplayrecorder/ui/home/AudioRecorder.kt:157 | the guard's exists()/length() answer: none without a file reference, a deleted file stays deleted and unplayable, otherwise what the file system reports |
| `SessionSpec.StartPlayback` | app/src/main/java/net/jonnak/shadowingreplayrecorder/ui/home/AudioRecorder.kt:156-197 | the guard uses the file status at call time. An absent, deleted or empty file: only onError, no player, nothing changes; no file reference or a deleted file is always refused. Otherwise any previous playback is torn down. A new player is preparing when setDataSource succeeds; when it fails there is no player and onError is called. Capture is untouched and the invariant is kept |
| `SessionSpec.OnPrepared` | app/src/main/java/net/jonnak/shadowingreplayrecorder/ui/home/AudioRecorder.kt:170-174 | the player is started, the progress runnable exists with one run pending, and nothing else changes |
| `SessionSpec.OnError` | app/src/main/java/net/jonnak/shadowingreplayrecorder/ui/home/AudioRecorder.kt:175-181 | progress is stopped; the listener's onError is called (when a listener is set) and then the caller's onError; the player is kept and not released |
| `SessionSpec.OnCompletion` | app/src/main/java/net/jonnak/shadowingreplayrecorder/ui/home/AudioRecorder.kt:182-189 | progress is stopped and the player released once and dropped (the same state as stopPlayback reaches); notifications are onPlaybackCompleted (when a listener is set) and then exactly one onComplete |
| `SessionSpec.Tick` | app/src/main/java/net/jonnak/shadowingreplayrecorder/ui/home/AudioRecorder.kt:200-212 | a cancelled run does nothing; a run reposts itself exactly when a player is held and playing; it reports (position, duration) only then and only to a set listener; nothing else changes |
| `SessionSpec.Release` | app/src/main/java/net/jonnak/shadowingreplayrecorder/ui/home/AudioRecorder.kt:262-269 | ends with no recorder, no player, no file and no progress; releases each held handle once; from a valid state nothing native stays held; the file is deleted before its reference is dropped, so the stray-file count is unchanged |
| `SessionSpec.ApplyKeepsValid` | app/src/main/java/net/jonnak/shadowingreplayrecorder/ui/home/AudioRecorder.kt:37-269 | every single call or callback keeps the invariant |
| `SessionSpec.RunKeepsValid` | app/src/main/java/net/jonnak/shadowingreplayrecorder/ui/home/AudioRecorder.kt:37-269 | every sequence of calls and callbacks keeps the invariant (with the corrected start operations; as written see Findings) |
| `SessionSpec.PlaybackDuringRecording` | app/src/main/java/net/jonnak/shadowingreplayrecorder/ui/home/AudioRecorder.kt:156-197 | nothing guards playback against a recording in progress: after a successful start and with bytes already written, startPlayback creates a preparing player while recording goes on |
| `SessionSpec.AtMostOneHandleEach` | app/src/main/java/net/jonnak/shadowingreplayrecorder/ui/home/AudioRecorder.kt:12-16 | from a new controller, whatever happens: at most one native recorder and at most one native player are held, each referenced by its field, and a recorder is held exactly while recording (with the corrected start operations; as written see Findings) |
| `SessionSpec.ReleaseFreesEverything` | app/src/main/java/net/jonnak/shadowingreplayrecorder/ui/home/AudioRecorder.kt:262-269 | after any history ending in release (with the corrected start operations): nothing is held, there is no file, playback is refused with onError whatever the file system reports, and a second release changes nothing |
| `SessionSpec.StartRecordingAsWritten` | app/src/main/java/net/jonnak/shadowingreplayrecorder/ui/home/AudioRecorder.kt:45-89 | startRecording as written: the same result and fields as StartRecording, and only the native-recorder count differs |
| `SessionSpec.StartRecordingAsWrittenLeaks` | app/src/main/java/net/jonnak/shadowingreplayrecorder/ui/home/AudioRecorder.kt:54-77 | as written, a configuration, prepare or start failure returns false with no recorder in the field while one native recorder stays held, which breaks the invariant |
| `SessionSpec.StartRecordingAsWrittenLeaksAccumulate` | app/src/main/java/net/jonnak/shadowingreplayrecorder/ui/home/AudioRecorder.kt:61-68 | as written, two failed prepares in a row leave two unreferenced native recorders |
| `SessionSpec.StartPlaybackAsWritten` | app/src/main/java/net/jonnak/shadowingreplayrecorder/ui/home/AudioRecorder.kt:156-197 | startPlayback as written: the same notifications and fields as StartPlayback, and only the native-player count differs |
| `SessionSpec.StartPlaybackAsWrittenLeaks` | app/src/main/java/net/jonnak/shadowingreplayrecorder/ui/home/AudioRecorder.kt:167-196 | as written, a failed setDataSource calls onError with no player in the field while one native player stays held |
| `AudioRecording.AudioRecorder.constructor` | app/src/main/java/net/jonnak/shadowingreplayrecorder/ui/home/AudioRecorder.kt:11-17 | the fields hold the initial session and satisfy the invariant |
| `AudioRecording.AudioRecorder.SetAudioEncoder` | app/src/main/java/net/jonnak/shadowingreplayrecorder/ui/home/AudioRecorder.kt:32-35 | the new fields are SetAudioEncoder of the old ones |
| `AudioRecording.AudioRecorder.SetPlaybackListener` | app/src/main/java/net/jonnak/shadowingreplayrecorder/ui/home/AudioRecorder.kt:152-154 | the new fields are SetPlaybackListener of the old ones |
| `AudioRecording.AudioRecorder.StartRecording` | app/src/main/java/net/jonnak/shadowingreplayrecorder/ui/home/AudioRecorder.kt:37-90 | the new fields and the result are those of SessionSpec.StartRecording (including the release of a recorder that failed to come up); the invariant is kept |
| `AudioRecording.AudioRecorder.StopRecording` | app/src/main/java/net/jonnak/shadowingreplayrecorder/ui/home/AudioRecorder.kt:92-140 | the new fields and the result are those of SessionSpec.StopRecording; the invariant is kept |
| `AudioRecording.AudioRecorder.StartPlayback` | app/src/main/java/net/jonnak/shadowingreplayrecorder/ui/home/AudioRecorder.kt:156-197 | given the file status reported at call time, the new fields and the callbacks called are those of SessionSpec.StartPlayback; the invariant is kept |
| `AudioRecording.AudioRecorder.OnPrepared` | app/src/main/java/net/jonnak/shadowingreplayrecorder/ui/home/AudioRecorder.kt:170-174 | the new fields are those of SessionSpec.OnPrepared; the invariant is kept |
| `AudioRecording.AudioRecorder.OnError` | app/src/main/java/net/jonnak/shadowingreplayrecorder/ui/home/AudioRecorder.kt:175-181 | the new fields and notifications are those of SessionSpec.OnError; the invariant is kept |
| `AudioRecording.AudioRecorder.OnCompletion` | app/src/main/java/net/jonnak/shadowingreplayrecorder/ui/home/AudioRecorder.kt:182-189 | the new fields and notifications are those of SessionSpec.OnCompletion; the invariant is kept |
| `AudioRecording.AudioRecorder.Tick` | app/src/main/java/net/jonnak/shadowingreplayrecorder/ui/home/AudioRecorder.kt:200-212 | the new fields and notifications are those of SessionSpec.Tick; the invariant is kept |
| `AudioRecording.AudioRecorder.StartProgressUpdates` | app/src/main/java/net/jonnak/shadowingreplayrecorder/ui/home/AudioRecorder.kt:199-214 | the new fields are SessionSpec.StartProgressUpdates of the old ones |
| `AudioRecording.AudioRecorder.StopProgressUpdates` | app/src/main/java/net/jonnak/shadowingreplayrecorder/ui/home/AudioRecorder.kt:216-219 | the new fields are SessionSpec.StopProgressUpdates of the old ones |
| `AudioRecording.AudioRecorder.SeekTo` | app/src/main/java/net/jonnak/shadowingreplayrecorder/ui/home/AudioRecorder.kt:221-223 | the seek reaches a player exactly when one is held; nothing changes |
| `AudioRecording.AudioRecorder.StopPlayback` | app/src/main/java/net/jonnak/shadowingreplayrecorder/ui/home/AudioRecorder.kt:225-237 | the new fields are SessionSpec.StopPlayback of the old ones; the invariant is kept |
| `AudioRecording.AudioRecorder.CleanupMediaRecorder` | app/src/main/java/net/jonnak/shadowingreplayrecorder/ui/home/AudioRecorder.kt:239-260 | the new fields are SessionSpec.CleanupMediaRecorder of the old ones; the invariant is kept |
| `AudioRecording.AudioRecorder.DeleteTempFile` | app/src/main/java/net/jonnak/shadowingreplayrecorder/ui/home/AudioRecorder.kt:106 | the new fields are SessionSpec.DeleteTempFile of the old ones |
| `AudioRecording.AudioRecorder.Release` | app/src/main/java/net/jonnak/shadowingreplayrecorder/ui/home/AudioRecorder.kt:262-269 | the new fields are SessionSpec.Release of the old ones (the file deleted, so no stray file is added); from a valid state no native handle stays held |
| `TimeFormat.Quot` | app/src/main/java/net/jonnak/shadowingreplayrecorder/ui/home/HomeFragment.kt:180-181 | Int division truncates toward zero: the leftover dividend - divisor * quotient lies in [0, divisor) for a non-negative dividend and in (-divisor, 0] for a negative one; for a non-negative dividend it is Euclidean division |
| `TimeFormat.Rem` | app/src/main/java/net/jonnak/shadowingreplayrecorder/ui/home/HomeFragment.kt:182 | Int remainder: the dividend equals divisor * quotient + remainder; the remainder is in [0, divisor) for a non-negative dividend and in (-divisor, 0] for a negative one |
| `TimeFormat.ClockFields` | app/src/main/java/net/jonnak/shadowingreplayrecorder/ui/home/HomeFragment.kt:180-182 | for millis >= 0: minutes = millis/1000/60, seconds = (millis/1000)%60 in 0..59, and minutes*60 + seconds = millis/1000. For negative millis: both are <= 0, seconds > -60, and together they give the truncated seconds |
| `TimeFormat.DigitChar` | app/src/main/java/net/jonnak/shadowingreplayrecorder/ui/home/HomeFragment.kt:183 | the character is a decimal digit whose value is the given digit |
| `TimeFormat.Decimal` | app/src/main/java/net/jonnak/shadowingreplayrecorder/ui/home/HomeFragment.kt:183 | "%d" of a non-negative number: at least one digit, only digits, no leading zero, one digit exactly below 10 |
| `TimeFormat.DecimalRoundTrip` | app/src/main/java/net/jonnak/shadowingreplayrecorder/ui/home/HomeFragment.kt:183 | reading the printed digits back gives the number |
| `TimeFormat.FormatD` | app/src/main/java/net/jonnak/shadowingreplayrecorder/ui/home/HomeFragment.kt:183 | "%d": for n >= 0 only digits, reading back as n; for n < 0 a minus sign followed by digits reading back as -n |
| `TimeFormat.Format02D` | app/src/main/java/net/jonnak/shadowingreplayrecorder/ui/home/HomeFragment.kt:183 | "%02d" is at least two characters; for n >= 0 only digits, reading back as n, and exactly two of them for 0..99; for n < 0 the same text as "%d", a minus sign and digits reading back as -n |
| `TimeFormat.FormatTime` | app/src/main/java/net/jonnak/shadowingreplayrecorder/ui/home/HomeFragment.kt:179-184 | for millis >= 0 the text is digits, a colon, then exactly two digits |
| `TimeFormat.FormatTimeRoundTrip` | app/src/main/java/net/jonnak/shadowingreplayrecorder/ui/home/HomeFragment.kt:179-184 | for millis >= 0 the text parses back to exactly (millis/1000/60, (millis/1000)%60) |
| `HomeScreen.HomeFragment.constructor` | app/src/main/java/net/jonnak/shadowingreplayrecorder/ui/home/HomeFragment.kt:38-62 | onCreateView's setup: a new valid recorder with the AAC encoder (setupUI, 58-62) and the playback listener set (setupPlaybackControls, 125-126); all flags false |
| `HomeScreen.HomeFragment.OnModeSwitched` | app/src/main/java/net/jonnak/shadowingreplayrecorder/ui/home/HomeFragment.kt:104-113 | checked selects toggle mode and unchecked selects hold mode; the flags are unchanged |
| `HomeScreen.HomeFragment.OnRecordTouch` | app/src/main/java/net/jonnak/shadowingreplayrecorder/ui/home/HomeFragment.kt:115-123 | the touch is consumed exactly when a mode is set; with no mode nothing changes. In hold mode the recorder and flags end as handleHoldToRecord leaves them, in toggle mode as handleToggleRecord does |
| `HomeScreen.HomeFragment.HandleHoldToRecord` | app/src/main/java/net/jonnak/shadowingreplayrecorder/ui/home/HomeFragment.kt:186-203 | always consumed. A press starts recording: on success recording becomes true and has-recording false; on failure no flag changes. A release stops recording: recording becomes false, and has-recording becomes true only when the stop succeeded. Other actions change nothing |
| `HomeScreen.HomeFragment.HandleToggleRecord` | app/src/main/java/net/jonnak/shadowingreplayrecorder/ui/home/HomeFragment.kt:205-224 | always consumed; anything but a release changes nothing. A release while recording stops, sets recording false, and sets has-recording true exactly when the stop succeeded. A release otherwise starts, and recording becomes the start's result |
| `HomeScreen.HomeFragment.OnPlayClicked` | app/src/main/java/net/jonnak/shadowingreplayrecorder/ui/home/HomeFragment.kt:155-173 | while playing: stopPlayback and playing false. Otherwise: startPlayback and playing true whatever the outcome. The recording flags are unchanged |
| `HomeScreen.HomeFragment.OnPlayerCompleted` | app/src/main/java/net/jonnak/shadowingreplayrecorder/ui/home/HomeFragment.kt:134-136 | the completion callback runs and playing becomes false |
| `HomeScreen.HomeFragment.OnPlayerError` | app/src/main/java/net/jonnak/shadowingreplayrecorder/ui/home/HomeFragment.kt:138-140 | the error callback runs and no flag changes |
| `HomeScreen.HomeFragment.OnDestroyView` | app/src/main/java/net/jonnak/shadowingreplayrecorder/ui/home/HomeFragment.kt:226-230 | the recorder is released; from a valid state (reached with the corrected start operations) nothing native stays held |

## Findings

| source | as written | input that shows it | evidently intended | confidence | as-written member | corrected member |
|---|---|---|---|---|---|---|
| app/src/main/java/net/jonnak/shadowingreplayrecorder/ui/home/AudioRecorder.kt:54-77 | the new `MediaRecorder` is stored in `mediaRecorder` only after its `apply` block. A failure of configuration, `prepare()` or `start()` inside that block calls `cleanupMediaRecorder()` on the field, which is still null, so the new recorder is never reset or released | a fresh controller, then `startRecording()` with `prepare()` throwing `IOException` | release the partially set-up recorder on every failure path | medium (not executed) | `SessionSpec.StartRecordingAsWrittenLeaks` | `SessionSpec.StartRecording` |
| app/src/main/java/net/jonnak/shadowingreplayrecorder/ui/home/AudioRecorder.kt:167-196 | the new `MediaPlayer` is stored in `mediaPlayer` only after its `apply` block. When `setDataSource` throws `IOException`, the catch calls `onError()` and the new player is never released | a playable file, then `startPlayback()` with `setDataSource` throwing `IOException` | release the player that failed to configure | medium (not executed) | `SessionSpec.StartPlaybackAsWrittenLeaks` | `SessionSpec.StartPlayback` |

## Left out

- SessionSpec.StartRecording: releases the recorder that fails to come up, which the code does not do. The as-written behaviour is `SessionSpec.StartRecordingAsWritten`.
- SessionSpec.StartPlayback: releases the player whose `setDataSource` fails, which the code does not do. The as-written behaviour is `SessionSpec.StartPlaybackAsWritten`. The guard reads the file status once, at the call; a file that changes between the guard and `setDataSource` is not modelled.
- AudioRecording.AudioRecorder.StartRecording: follows the corrected `SessionSpec.StartRecording`, so it releases a recorder that fails to come up; the code leaks it (see "## Findings").
- AudioRecording.AudioRecorder.StartPlayback: follows the corrected `SessionSpec.StartPlayback`, so it releases a player whose `setDataSource` fails; the code leaks it (see "## Findings").
- Device calls the code does not guard are taken never to throw: the player's `start()` in the prepared listener (AudioRecorder.kt:172), `isPlaying` and `stop()` in `stopPlayback` (229-230), `isPlaying`, `currentPosition` and `duration` in the progress runnable (203-206), and `seekTo` (222). An exception there would propagate to the caller or the `Looper`.
- Platform internals are not modelled: encoder ids, audio source, output format and codec behaviour. Constructing and configuring the recorder is one `configure` outcome. That outcome counts the recorder as already constructed, so a throwing constructor, which holds nothing, is not told apart.
- `reset()` and `release()` of a recorder or player are modelled as never failing. A `release()` that throws in `stopRecording`'s `finally` would reach the outer catch and clean up again; that path is not modelled.
- Exceptions the code does not catch are not modelled. These are `setDataSource` errors other than `IOException`, and `prepareAsync` errors, which propagate to the caller.
- The file system is abstract. `createTempFile` makes an empty file, `delete` always succeeds, and `exists`/`length` are one `probe` outcome plus the reported `AudioFile`. The previous temp file is dropped, not deleted, when a new recording starts; the model counts such files (`strayFiles`) but not their contents or names.
- Timing is not modelled: the 100 ms `Handler` delay, the `Looper`, and when callbacks arrive. A run of the progress runnable is the explicit `Tick` operation, with the device's `isPlaying`, position and duration as parameters.
- Late callbacks from a released player are not modelled; the platform does not deliver them, and the code has no handle versioning.
- `Long` overflow of `System.currentTimeMillis() - recordingStartTime` is not modelled; integers are unbounded.
- `String.format` uses the default locale, which may print non-ASCII digits. The model prints ASCII digits.
- The view model's flags are plain booleans, not `LiveData`, and a flag never set reads as false. The recording mode is optional, and "not set" makes the touch listener return false.
- Not modelled: logging, toasts, chronometer, seek-bar and text widgets, the listener's `onProgressChanged` rendering, the permission launcher, `MainActivity` navigation, and `HomeViewModel`'s text holder.
