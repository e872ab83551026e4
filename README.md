# VibraSafe core, modelled in Dafny

VibraSafe is an assistive app for deaf and hard-of-hearing users. The Android
client records a few seconds of sound and uploads it to a Flask server. The
server classifies it into one of ten UrbanSound8K classes and replies with a
prediction and a feedback description: alert level, colour, vibration pattern
and message. The client then flashes the screen, vibrates and shows the
message.

This project models five parts of that system and proves properties of them:

- **Alert-level parsing** (`ApiModels`, api_models.dfy). The client's wire
  records, and the total, case-insensitive `AlertLevel.fromString`, with its
  severity order.
- **The feedback engine** (`FeedbackEngine`, feedback_manager.dfy).
  - The per-level policy tables and the platform's colour parser.
  - A `FeedbackManager` class whose fields stand for the animator it holds
    and for the window, view and vibrator state it changes.
  - Every method is specified by a pure transition on a `FeedbackState`
    snapshot. The properties are proved as lemmas about those transitions.
- **The recorder** (`Recording`, audio_recorder.dfy).
  - An `AudioRecorder` class. Its three fields `mediaRecorder`, `outputFile`
    and `isRecording` change step by step.
  - The format distinguishes `AudioRecorder` from the otherwise identical
    `WAVAudioRecorder`.
  - Whether the device's prepare, start and stop succeed is an argument of
    each call.
- **The listening controller** (`Activity`, main_activity.dfy).
  - A `MainActivity` class with the flags `isRecording`, `isProcessing` and
    `continuousListening`, the views it writes (a `Ui` record), and its
    pending coroutines.
  - A coroutine's `delay` becomes a timer in `timers`, which the environment
    fires later through an `On…` method. The suspended classification
    request becomes `inFlight`.
  - The decision rule from HTTP result to feedback or error is the pure
    function `Dispatch`.
- **The server** (`Server`, server.dfy).
  - The class-label table, the `/health` reply and the ordered `/classify`
    validation chain.
  - The pad/truncate of the feature matrix, the minimum-sample guard, and the
    unknown-class default feedback.
  - The reply as a function, `Respond`. The `ClassifySound` method also
    tracks the temporary file it writes and removes.
- **End to end** (`EndToEnd`, end_to_end.dfy). What the client makes of
  every reply the server can send.

Supporting modules:

- `Wrappers` holds `Option`, which stands for Kotlin's nullable types and
  Python's `None`.
- `Text` holds the string functions the source takes from its standard
  library: `lowercase`, `uppercase`, `replace`, and decimal rendering.

Effects are modelled as follows:

- Platform effects are fields. Views, the status bar, the keep-screen-on flag
  and the vibrator become state, and posted callbacks become pending entries.
- The clock, the device's outcomes, the network's reply, the decoded audio
  features and the neural network's output are parameters.

Some behaviours of the code are stated as they are, including two a user
might not expect: a result that settles after continuous listening was turned
off is still shown and its feedback still given, and for a 4xx or 5xx reply
the client shows only the status code.

- `AudioRecorder.startRecording` points `outputFile` at the new file before
  `prepare()` can fail.
  - After a stop that failed, a following start whose prepare fails leaves
    the old device recording into the old file, while `outputFile` names the
    new one.
  - The next successful stop then returns the file that was never written.
  - `Recording.StaleOutputAfterFailedStop` exhibits this.
- `classify_sound` creates its temporary file with `delete=False`.
  - If `file.save` raises, the file stays on disk. The `finally` that removes
    it only covers what follows the save.
  - `Server.ClassifySound` states both cases.
- For a non-2xx reply the client shows only "Server error: <code>". The
  server's own error text is never shown (`EndToEnd.RefusalShowsOnlyTheStatus`).
- Stopping continuous listening does not cancel a request already in flight.
  - When it settles, its result is still shown and its feedback still given.
  - `Activity.MainActivity.OnClassificationSettled` has no guard on
    `continuousListening`, as the code has none.

## Model

| member | source | states |
|---|---|---|
| ApiModels.FromString | frontend/app/src/main/java/com/usiu/finalproject/data/ApiModels.kt:41-49 | total parse. MEDIUM, HIGH and CRITICAL each exactly when the lower-cased input is that keyword. LOW exactly when it is none of them, so "low" and every unrecognised string give LOW |
| ApiModels.KeywordsParse | frontend/app/src/main/java/com/usiu/finalproject/data/ApiModels.kt:43-46 | "low", "medium", "high" and "critical" parse to LOW, MEDIUM, HIGH and CRITICAL |
| ApiModels.FromStringIgnoresCase | frontend/app/src/main/java/com/usiu/finalproject/data/ApiModels.kt:42 | a string and its lower-case form parse to the same level |
| ApiModels.UnrecognisedIsLow | frontend/app/src/main/java/com/usiu/finalproject/data/ApiModels.kt:47 | "", " high", "critical " and "severe" all parse to LOW |
| ApiModels.NameRoundTrip | frontend/app/src/main/java/com/usiu/finalproject/data/ApiModels.kt:38-48 | every level's enum name parses back to that level, in upper case and in lower case |
| ApiModels.SeverityIsStrictTotalOrder | frontend/app/src/main/java/com/usiu/finalproject/data/ApiModels.kt:38 | declaration order is irreflexive, transitive, total and asymmetric. LOW is least and CRITICAL greatest |
| Text.Lower | frontend/app/src/main/java/com/usiu/finalproject/data/ApiModels.kt:42 | same length. Each character is lower-cased, and ASCII capitals are shifted by 32 |
| Text.LowerIdempotent | frontend/app/src/main/java/com/usiu/finalproject/data/ApiModels.kt:42 | lower-casing twice is lower-casing once |
| Text.Upper | frontend/app/src/main/java/com/usiu/finalproject/MainActivity.kt:205 | same length. Each character is upper-cased, so no lower-case ASCII letter remains |
| Text.Replace | frontend/app/src/main/java/com/usiu/finalproject/MainActivity.kt:205 | same length. Exactly the occurrences of the old character are replaced, so none remains when the two characters differ |
| Text.Decimal | frontend/app/src/main/java/com/usiu/finalproject/utilities/AudioRecorder.kt:22 | at least one character, all of them digits. A single digit exactly for n < 10, and no leading zero |
| Text.DecimalInjective | frontend/app/src/main/java/com/usiu/finalproject/utilities/AudioRecorder.kt:22 | different numbers render differently |
| FeedbackEngine.ParseColor | frontend/app/src/main/java/com/usiu/finalproject/utilities/FeedbackManager.kt:50 | "#RRGGBB" gives an opaque colour. "#AARRGGBB" gives its value. Any other "#" form fails. Anything else is looked up case-insensitively among the named colours |
| FeedbackEngine.HexDigitsRoundTrip | frontend/app/src/main/java/com/usiu/finalproject/utilities/FeedbackManager.kt:50 | k hex digits printed for a number below 16^k read back as that number |
| FeedbackEngine.ParseColorReadsPrintedHex | frontend/app/src/main/java/com/usiu/finalproject/utilities/FeedbackManager.kt:50 | "#" and six printed hex digits parse to that colour made opaque. "#" and eight printed digits parse to the colour itself |
| FeedbackEngine.TimingTable | frontend/app/src/main/java/com/usiu/finalproject/utilities/FeedbackManager.kt:57-62 | CRITICAL (300 ms, 6), HIGH (400, 4), MEDIUM (500, 3), LOW (600, 2) |
| FeedbackEngine.TimingStrictlyMonotone | frontend/app/src/main/java/com/usiu/finalproject/utilities/FeedbackManager.kt:57-62 | a more severe level has a strictly shorter duration and strictly more repeats |
| FeedbackEngine.FallbackVibrationMonotone | frontend/app/src/main/java/com/usiu/finalproject/utilities/FeedbackManager.kt:138-144 | a more severe level falls back to a strictly longer one-shot vibration |
| FeedbackEngine.FallbackPaletteParses | frontend/app/src/main/java/com/usiu/finalproject/utilities/FeedbackManager.kt:125-132 | the flash palette is what the parser gives for red, "#E91E63", "#FF9800" and "#4CAF50", and its four colours are distinct |
| FeedbackEngine.VisualLastResultWins | frontend/app/src/main/java/com/usiu/finalproject/utilities/FeedbackManager.kt:48-83 | a parsable colour cancels the previous animation, if any, and installs and runs the new one (white, colour, white, timed by level). Its first keyframe is painted at once: the background, and for CRITICAL and HIGH the status bar, turn white. Nothing else changes |
| FeedbackEngine.VisualFallbackKeepsAnimation | frontend/app/src/main/java/com/usiu/finalproject/utilities/FeedbackManager.kt:48-90 | an unparsable colour neither cancels nor replaces the animation. The background takes the level colour, and a callback restores white 500 ms later |
| FeedbackEngine.StatusBarOnlyForSevere | frontend/app/src/main/java/com/usiu/finalproject/utilities/FeedbackManager.kt:73-80 | the animation's frames recolour the status bar exactly for CRITICAL and HIGH |
| FeedbackEngine.HapticPassesPatternThrough | frontend/app/src/main/java/com/usiu/finalproject/utilities/FeedbackManager.kt:92-117 | no vibrator means no change. An accepted pattern goes out unmodified with repeat -1. A refused one becomes the level's one-shot fallback |
| FeedbackEngine.AmplitudeNeverApplied | frontend/app/src/main/java/com/usiu/finalproject/utilities/FeedbackManager.kt:99-107 | `AmplitudeFor` gives different levels different amplitudes, yet an accepted pattern vibrates identically whatever the level, so the amplitude has no effect |
| FeedbackEngine.KeepScreenOnOnlyForCritical | frontend/app/src/main/java/com/usiu/finalproject/utilities/FeedbackManager.kt:40-45 | CRITICAL sets keep-screen-on and posts a 10000 ms callback that clears it. Other levels neither set it nor post that callback |
| FeedbackEngine.CancelAllResets | frontend/app/src/main/java/com/usiu/finalproject/utilities/FeedbackManager.kt:162-172 | afterwards there is no animation, nothing runs, the status bar is black and keep-screen-on is cleared. Exactly the previous animation is cancelled |
| FeedbackEngine.CancelAllIdempotent | frontend/app/src/main/java/com/usiu/finalproject/utilities/FeedbackManager.kt:162-172 | calling it twice equals calling it once. It changes nothing when nothing is active |
| FeedbackEngine.FeedbackManager.constructor | frontend/app/src/main/java/com/usiu/finalproject/utilities/FeedbackManager.kt:18-29 | no current animation, keep-screen-on clear, nothing vibrated or posted |
| FeedbackEngine.FeedbackManager.ProvideFeedback | frontend/app/src/main/java/com/usiu/finalproject/utilities/FeedbackManager.kt:31-46 | the new state is the visual step, then the haptic step, then the CRITICAL keep-screen-on step, for the parsed level |
| FeedbackEngine.FeedbackManager.ProvideVisualFeedback | frontend/app/src/main/java/com/usiu/finalproject/utilities/FeedbackManager.kt:48-90 | the new state is the visual transition, including the white first frame painted on start, whose properties are the Visual… lemmas |
| FeedbackEngine.FeedbackManager.ProvideHapticFeedback | frontend/app/src/main/java/com/usiu/finalproject/utilities/FeedbackManager.kt:92-117 | the new state is the haptic transition |
| FeedbackEngine.FeedbackManager.FlashSimple | frontend/app/src/main/java/com/usiu/finalproject/utilities/FeedbackManager.kt:125-136 | the background takes the level's colour, and a white-restoring callback is posted for 500 ms later |
| FeedbackEngine.FeedbackManager.FallbackVibration | frontend/app/src/main/java/com/usiu/finalproject/utilities/FeedbackManager.kt:138-152 | one one-shot vibration of the level's duration at default amplitude is added |
| FeedbackEngine.FeedbackManager.KeepScreenOn | frontend/app/src/main/java/com/usiu/finalproject/utilities/FeedbackManager.kt:154-160 | only the keep-screen-on flag changes, to the argument |
| FeedbackEngine.FeedbackManager.CancelAllFeedback | frontend/app/src/main/java/com/usiu/finalproject/utilities/FeedbackManager.kt:162-172 | the new state is the cancel-all transition |
| FeedbackEngine.FeedbackManager.OnAnimationFrame | frontend/app/src/main/java/com/usiu/finalproject/utilities/FeedbackManager.kt:68-80 | a frame paints the background, and also the status bar if the animation tints it |
| FeedbackEngine.FeedbackManager.OnAnimationEnd | frontend/app/src/main/java/com/usiu/finalproject/utilities/FeedbackManager.kt:64-83 | the animator ends on its last keyframe, white, and stops running |
| FeedbackEngine.FeedbackManager.OnPendingDue | frontend/app/src/main/java/com/usiu/finalproject/utilities/FeedbackManager.kt:135 | the posted callback runs once, restoring the background or clearing keep-screen-on, and is removed |
| Recording.OutputFilesDistinct | frontend/app/src/main/java/com/usiu/finalproject/utilities/AudioRecorder.kt:22 | recordings started at different milliseconds get different files |
| Recording.RecordersNeverShareFiles | frontend/app/src/main/java/com/usiu/finalproject/utilities/AudioRecorder.kt:91 | a WAVAudioRecorder file never has the same name as an AudioRecorder file |
| Recording.AudioRecorder.constructor | frontend/app/src/main/java/com/usiu/finalproject/utilities/AudioRecorder.kt:9-13 | idle: no device, no output file, not recording |
| Recording.AudioRecorder.IsRecording | frontend/app/src/main/java/com/usiu/finalproject/utilities/AudioRecorder.kt:68 | true exactly while a device is held |
| Recording.AudioRecorder.StopRecording | frontend/app/src/main/java/com/usiu/finalproject/utilities/AudioRecorder.kt:49-66 | idle gives null with no change. A stop that succeeds returns the output file and clears the device and flag. A stop that fails returns null and leaves the recorder recording, unchanged |
| Recording.AudioRecorder.StartRecording | frontend/app/src/main/java/com/usiu/finalproject/utilities/AudioRecorder.kt:15-47 | it stops first if recording, then always reassigns `outputFile`. Only a started device returns that file and sets the flag. A prepare failure returns null, and a start failure escapes |
| Recording.AudioRecorder.Cleanup | frontend/app/src/main/java/com/usiu/finalproject/utilities/AudioRecorder.kt:70-75 | it stops if recording, then deletes whatever `outputFile` names. A failed stop keeps the device and the flag, a successful one releases both |
| Recording.StaleOutputAfterFailedStop | frontend/app/src/main/java/com/usiu/finalproject/utilities/AudioRecorder.kt:15-66 | a failed stop, then a start whose prepare fails, makes the next successful stop return a file that is not the one written and, when a failed prepare creates no file, is not on disk |
| Activity.Dispatch | frontend/app/src/main/java/com/usiu/finalproject/MainActivity.kt:177-190 | the result path is taken exactly for 2xx with success, prediction and feedback. Otherwise the error shown is body.error, or the generic error. A non-2xx code shows "Server error: <code>", and an exception shows the generic error |
| Activity.UnsuccessfulBodyShowsError | frontend/app/src/main/java/com/usiu/finalproject/MainActivity.kt:179-183 | a body with success false is never rendered, whatever else it holds |
| Activity.MessageBackgroundByLevel | frontend/app/src/main/java/com/usiu/finalproject/MainActivity.kt:211-217 | red exactly for CRITICAL, orange exactly for HIGH or MEDIUM, green exactly for LOW |
| Activity.DisplayLabel | frontend/app/src/main/java/com/usiu/finalproject/MainActivity.kt:205 | same length. No underscores and no lower-case ASCII letters remain. Spaces appear exactly where there were underscores or spaces |
| Activity.MainActivity.constructor | frontend/app/src/main/java/com/usiu/finalproject/MainActivity.kt:50-61 | a fresh 3GPP recorder and engine. No flag set, no timer, no error |
| Activity.MainActivity.ShowError | frontend/app/src/main/java/com/usiu/finalproject/MainActivity.kt:261-266 | the status shows the message, both buttons are disabled, and the message is logged. No flag changes |
| Activity.MainActivity.ResetUI | frontend/app/src/main/java/com/usiu/finalproject/MainActivity.kt:241-254 | "Start" label, both buttons enabled, loading hidden, and a 5000 ms message-hide timer armed |
| Activity.MainActivity.StartListening | frontend/app/src/main/java/com/usiu/finalproject/MainActivity.kt:118-141 | a no-op while recording or processing. `isRecording` is set and the 5000 ms auto-stop armed only when the recorder returns a file. Otherwise the recording error is shown and the flags stay. The new file is on disk unless prepare failed. Flags are never both set |
| Activity.MainActivity.StopListening | frontend/app/src/main/java/com/usiu/finalproject/MainActivity.kt:144-162 | a no-op when not recording. Otherwise it clears `isRecording`, and hands over to processing only a returned file that exists. Otherwise it shows the error and resets the UI |
| Activity.MainActivity.ProcessAudioFile | frontend/app/src/main/java/com/usiu/finalproject/MainActivity.kt:164-168 | sets `isProcessing`, shows the processing UI and sends the file |
| Activity.MainActivity.OnClassificationSettled | frontend/app/src/main/java/com/usiu/finalproject/MainActivity.kt:168-197 | it renders and gives feedback, or shows the dispatched error. On every path it clears `isProcessing`, re-enables the record button, arms the hide timer and deletes the file |
| Activity.MainActivity.HandleClassificationResult | frontend/app/src/main/java/com/usiu/finalproject/MainActivity.kt:200-225 | the labelled detection, confidence × 100, the message and the level's background are shown, and the engine's state is its provideFeedback transition |
| Activity.MainActivity.StartContinuousListening | frontend/app/src/main/java/com/usiu/finalproject/MainActivity.kt:270-278 | the flag is set and the loop's first startListening runs. While busy only the 6000 ms loop wait is armed. A started device sets `isRecording`, records into the file named by the clock, which is then on disk, shows the recording UI and arms the 5000 ms auto-stop and the loop wait. A failed start shows and logs the recording error and arms only the loop wait; only a failed prepare leaves no new file |
| Activity.MainActivity.StopContinuousListening | frontend/app/src/main/java/com/usiu/finalproject/MainActivity.kt:280-283 | the flag is cleared and nothing is recording. A returned file that exists is handed to processing with the processing UI. Otherwise the recording error is shown and the UI reset |
| Activity.MainActivity.OnRecordButtonClick | frontend/app/src/main/java/com/usiu/finalproject/MainActivity.kt:64-72 | a disabled button does nothing. Starting shows "Stop Listening" and gives startListening's outcome: recording into a file now on disk with both timers armed, or the recording error. Stopping clears the flag and stops recording, shows "Start", enables both buttons even while processing and hides loading. A stopped file on disk goes to processing with one hide timer; otherwise the error is logged and two hide timers are armed. The current file is unchanged |
| Activity.MainActivity.OnAutoStop | frontend/app/src/main/java/com/usiu/finalproject/MainActivity.kt:128-133 | the timer is removed. If still recording it gives stopListening's outcome: the file handed to processing, or the error shown and the UI reset. Afterwards nothing is recording |
| Activity.MainActivity.OnLoopTick | frontend/app/src/main/java/com/usiu/finalproject/MainActivity.kt:273-276 | the timer is removed. While the flag holds it gives startListening's outcome (recording into a file now on disk with the auto-stop armed, the error shown, or nothing while busy) and waits 6000 ms again. Otherwise the loop ends with no other change |
| Activity.MainActivity.OnHideMessage | frontend/app/src/main/java/com/usiu/finalproject/MainActivity.kt:250-253 | the timer is removed and the message view hidden. Flags, files, errors and the in-flight request are unchanged |
| Activity.MainActivity.OnHealthResult | frontend/app/src/main/java/com/usiu/finalproject/MainActivity.kt:98-116 | the buttons are enabled exactly for a 2xx reply with model_loaded. Otherwise the connection error is shown, logged, and the buttons disabled. Flags, timers, files and the in-flight request are unchanged |
| Activity.MainActivity.EnableUI | frontend/app/src/main/java/com/usiu/finalproject/MainActivity.kt:256-259 | both buttons take the argument, and nothing else changes |
| Activity.MainActivity.OnPause | frontend/app/src/main/java/com/usiu/finalproject/MainActivity.kt:284-288 | continuous listening stops and nothing is recording, with stopListening's outcome: a stopped file on disk goes to processing, otherwise the error is shown and the UI reset. All feedback is cancelled |
| Activity.MainActivity.OnDestroy | frontend/app/src/main/java/com/usiu/finalproject/MainActivity.kt:290-295 | as onPause, and the recorder's output file is then deleted, whichever file that is |
| Activity.PressTwiceSendsRecording | frontend/app/src/main/java/com/usiu/finalproject/MainActivity.kt:64-168 | on a fresh activity with the record button enabled, a press and a second press leave continuous listening off and exactly the recorded file in flight for processing |
| Server.StartUp | Server/app.py:173-178 | a classifier exists exactly when the model loads, and it then holds that model |
| Server.Health | Server/app.py:180-186 | model_loaded exactly when the classifier and its model are present. Status "healthy" exactly then, otherwise "unhealthy" |
| Server.HealthAfterStartUp | Server/app.py:173-186 | a started server reports model_loaded exactly when loading succeeded |
| Server.PadOrTruncate | Server/app.py:152-160 | exactly `expected` rows of the same width. Row i is input row i while one exists, and a zero row after that |
| Server.PadOrTruncateKeepsPrefix | Server/app.py:152-160 | shorter input is a prefix of the result. Longer input is cut to its first `expected` rows. The right length is unchanged |
| Server.PadOrTruncateIdempotent | Server/app.py:152-160 | padding twice to the same length equals padding once |
| Server.ProcessAudio | Server/app.py:60-73 | rejected exactly below 22050 samples. Otherwise MFCC at 22050 Hz with 40 coefficients and a window no longer than the audio |
| Server.FftWindowIsAlwaysFull | Server/app.py:62-66 | whenever the guard passes, `min(2048, len)` is 2048 |
| Server.Predict | Server/app.py:143-171 | a result needs features and a timestep count. It is then the label at the network's index over the padded matrix, and is always one of CLASS_LABELS. Conversely, features of width 40, a timestep count and an in-range index always give a result |
| Server.PredictNeedsMfccWidth | Server/app.py:162 | rows of a width other than 40 make the reshape fail when there are timesteps |
| Server.Validate | Server/app.py:192-210 | the first failing check decides: 500 "Model not loaded", then 400 for a missing audio field, an empty filename, an empty file, a file too large. It passes exactly when none fails |
| Server.SizeBoundIsStrict | Server/app.py:209 | exactly MAX_FILE_SIZE bytes pass, and one more byte gives "File too large" |
| Server.ModelCheckComesFirst | Server/app.py:192-196 | without a model, even an empty request gets the 500 |
| Server.FeedbackFor | Server/app.py:223-229 | the SOUND_FEEDBACK entry. For an unknown class: 'low', '#757575', [100], "Unknown sound: <class>", priority 1 |
| Server.Respond | Server/app.py:188-247 | a rejection is the validation reply. A failed save gives 500. Status 200 exactly with success; success exactly when the upload is valid, saved and predicted, and then the reply holds the predicted label, its confidence, the timestamp and that label's feedback. Every failure carries one of the server's error texts |
| Server.NoClassIsUnprocessable | Server/app.py:217-221 | a valid saved upload with no predicted class gets 422 "Unprocessable audio" |
| Server.ClassifySound | Server/app.py:212-247 | the reply is `Respond`'s. Disk afterwards is as before, except when the save raises, in which case the temporary file remains |
| EndToEnd.SuccessReachesFeedback | frontend/app/src/main/java/com/usiu/finalproject/MainActivity.kt:177-180 | every successful server reply takes the client's result path with exactly its prediction and feedback |
| EndToEnd.GoodUploadReachesFeedback | Server/app.py:212-240 | a valid, saved upload whose width-40 features the network classifies in range gets 200, and the client renders that label with its confidence, the timestamp and its feedback |
| EndToEnd.RefusalShowsOnlyTheStatus | frontend/app/src/main/java/com/usiu/finalproject/MainActivity.kt:184-186 | every server refusal is shown as "Server error: <status>", never as the server's own text |
| EndToEnd.DefaultFeedbackIsUsable | Server/app.py:223-229 | the default feedback parses on the client: level LOW, colour opaque #757575, and a waveform the vibrator accepts. Its only entry is an off duration, so it never runs the motor |

## Left out

These parts of the source are not modelled, or are modelled only in part.

**Platform APIs**

- Branches below API 26 are left out. The model takes the `Build.VERSION` branches for API 26 and later.
  - This covers `createWaveform`, `createOneShot` and the status bar.
  - The deprecated `vibrate(long[], int)` and the pre-Lollipop paths are left out.
- The engine's `vibrations` field records the requests made to the vibrator, not the vibration felt. `WaveformVibrates` says which accepted waveforms actually run the motor.
- The vibrator's acceptance rule is modelled as `WaveformAccepted`: no negative timing, and at least one positive one. Any other reason the platform could refuse a pattern is not modelled.
- `FeedbackEngine.ParseColor` handles "#RRGGBB", "#AARRGGBB" and Android's named colours. Two things differ from the platform:
  - A leading '+' or '-', which `Long.parseLong` accepts before the hex digits (as in "#-FFFFF"), is treated as a parse failure, and so are the non-ASCII digits and full-width A–F that `Character.digit` accepts.
  - The named-colour table follows the platform's list and is not read from it.
- Case mapping (`Text.Lower`, `Text.Upper`) covers ASCII letters only. `FromString` is not affected by this: the four keywords are ASCII, and no non-ASCII character lower-cases to an ASCII letter except the Kelvin sign and dotted capital I. Those two are not modelled.
- Colour interpolation is not modelled. `OnAnimationFrame` takes any colour as a frame, and the values the ArgbEvaluator produces are not computed.
- View, window, toast, logging and MediaRecorder calls are effects on fields. Their rendering is not modelled.
- The MediaRecorder is assumed to create its output file only when `prepare()` succeeds, so a start whose prepare fails leaves no file. The platform may open the path for writing before the native prepare; where it does, the stale file of `Recording.StaleOutputAfterFailedStop` exists but is empty. That method's "not on disk" rests on this assumption.

**Concurrency and lifecycle**

- Real time and coroutine scheduling are not modelled.
  - Timers fire in any order the environment chooses, through the `On…` methods.
  - Cancelling `lifecycleScope` coroutines on destroy is not modelled.
- The permission flow (MainActivity.kt:42-48, 80-96) is not modelled. `OnHealthResult` models the health check's UI gating.
- `Activity.MainActivity.StartListening` is required to run with `continuousListening` set. It is private, and the continuous loop is its only caller.
- `Activity.MainActivity.StartContinuousListening` is required to run with the button enabled. The click listener is its only caller.
- The settings button's toast is not modelled.
- The status text colour is not modelled.

**Number formatting**

- `Activity.MainActivity.HandleClassificationResult` keeps the confidence as `confidence * 100` as a real number. The `%` format string (a string resource) is not modelled, and floating-point rounding is not modelled.

**Server internals**

- The audio decoding fallbacks (soundfile, librosa, pydub, ffmpeg) and the MFCC computation and normalisation are not modelled. `Server.ProcessAudio` gives the parameters of the MFCC call, and the decoded features are a parameter of `Predict`.
- `model.predict` and `argmax` are a parameter, `net`: any function from the padded matrix to an optional index and confidence.
- Python truthiness of the classifier and model objects is modelled as "is not None".
- JSON serialisation is not modelled. A reply is a status and the client's record. The success reply has no `error` key, which becomes `None`.
- Exceptions raised by `jsonify` or `os.unlink` are not modelled.
- SOUND_FEEDBACK is empty in the source, so it is a parameter map.
- The `/feedback-config`, `/supported-classes` and `/batch-classify` endpoints are not part of this model. The source shows them only as a comment.

**Out of scope**

- SettingsActivity.kt is not part of this model. Its 4000 ms `recordDuration` is never read, and the controller uses RECORDING_DURATION = 5000 ms.
- ApiService.kt is not part of this model. The HTTP transport, multipart encoding and timeouts are replaced by the `HttpOutcome` and `HealthOutcome` values.
- train_model.py is not part of this model.
