/** The listening controller (MainActivity.kt). Its coroutines become explicit
    events: a `delay` or a `launch` that suspends leaves a timer in `timers`,
    and the environment later fires it; the suspended network call of
    processAudioFile leaves the file in `inFlight` until the response
    settles. Views, toasts and the logger are replaced by a `Ui` record and a
    log of the error messages shown. */
module Activity {
  import opened Wrappers
  import opened Text
  import opened ApiModels
  import opened FeedbackEngine
  import opened Recording

  /** RECORDING_DURATION: the auto-stop delay. */
  const RECORDING_DURATION: nat := 5000
  /** The continuous loop's pause after each startListening. */
  const LOOP_DELAY: nat := RECORDING_DURATION + 1000
  /** resetUI hides the message after this delay. */
  const MESSAGE_HIDE_DELAY: nat := 5000

  /** The messages showError is given: three string resources, or a
      literal text. */
  datatype ErrorMessage = RecordingError | ClassificationError | ConnectionFailed | Verbatim(text: string)

  /** The outcome of the suspended Retrofit call: an HTTP response with the
      converted body (`null` when there is none), or an exception. */
  datatype HttpOutcome = Response(code: int, body: Option<ClassificationResponse>) | Thrown

  /** Response.isSuccessful. */
  predicate IsSuccessful(code: int) {
    200 <= code < 300
  }

  function ServerErrorText(code: int): string {
    "Server error: " + IntString(code)
  }

  /** What processAudioFile does with a settled request. */
  datatype Decision = RenderResult(prediction: Prediction, feedback: Feedback) | ShowError(message: ErrorMessage)

  /** The result dispatch of processAudioFile. */
  function Dispatch(outcome: HttpOutcome): (d: Decision)
    ensures d.RenderResult? <==>
      && outcome.Response? && IsSuccessful(outcome.code)
      && outcome.body.Some? && outcome.body.value.success
      && outcome.body.value.prediction.Some? && outcome.body.value.feedback.Some?
    ensures d.RenderResult? ==>
      outcome.body.value.prediction == Some(d.prediction) && outcome.body.value.feedback == Some(d.feedback)
    ensures outcome.Thrown? ==> d == ShowError(ClassificationError)
    ensures outcome.Response? && !IsSuccessful(outcome.code) ==> d == ShowError(Verbatim(ServerErrorText(outcome.code)))
    ensures outcome.Response? && IsSuccessful(outcome.code) && d.ShowError? ==>
      d.message == (if outcome.body.Some? && outcome.body.value.error.Some?
                    then Verbatim(outcome.body.value.error.value) else ClassificationError)
  {
    match outcome
    case Thrown => ShowError(ClassificationError)
    case Response(code, body) =>
      if !IsSuccessful(code) then ShowError(Verbatim(ServerErrorText(code)))
      else if body.Some? && body.value.success && body.value.prediction.Some? && body.value.feedback.Some? then
        RenderResult(body.value.prediction.value, body.value.feedback.value)
      else ShowError(if body.Some? && body.value.error.Some? then Verbatim(body.value.error.value) else ClassificationError)
  }

  /** A reply that says `success: false` never reaches the feedback engine,
      whatever else it carries. */
  lemma UnsuccessfulBodyShowsError(code: int, body: ClassificationResponse)
    requires !body.success
    ensures Dispatch(Response(code, Some(body))).ShowError?
  {
  }

  /** The theme colours the controller uses. */
  datatype ThemeColor = DangerRed | WarningOrange | SuccessGreen

  /** The message background for a level. */
  function MessageBackground(level: AlertLevel): ThemeColor {
    match level
    case CRITICAL => DangerRed
    case HIGH => WarningOrange
    case MEDIUM => WarningOrange
    case LOW => SuccessGreen
  }

  /** Red is for CRITICAL only, orange for HIGH and MEDIUM, green for LOW. */
  lemma MessageBackgroundByLevel(level: AlertLevel)
    ensures MessageBackground(level) == DangerRed <==> level == CRITICAL
    ensures MessageBackground(level) == WarningOrange <==> level == HIGH || level == MEDIUM
    ensures MessageBackground(level) == SuccessGreen <==> level == LOW
  {
  }

  /** The detection text: underscores become spaces, then upper case. */
  function DisplayLabel(cls: string): (r: string)
    ensures |r| == |cls|
    ensures forall i :: 0 <= i < |r| ==> r[i] != '_' && !IsLowerAscii(r[i])
    ensures forall i :: 0 <= i < |r| ==> (r[i] == ' ' <==> cls[i] == '_' || cls[i] == ' ')
    ensures forall i :: 0 <= i < |r| && cls[i] != '_' ==> r[i] == UpperChar(cls[i])
  {
    Upper(Replace(cls, '_', ' '))
  }

  datatype ButtonLabel = StartListeningLabel | StopListeningLabel | ProcessingLabel

  datatype StatusLine = Initial | Connected | Error(message: ErrorMessage)

  /** The views the controller writes. */
  datatype Ui = Ui(
    recordEnabled: bool,
    settingsEnabled: bool,
    button: ButtonLabel,
    loadingVisible: bool,
    status: StatusLine,
    lastDetection: string,
    confidencePercent: real,
    message: string,
    messageVisible: bool,
    messageBackground: Option<ThemeColor>)

  function ErrorUi(ui: Ui, message: ErrorMessage): Ui {
    ui.(status := Error(message), recordEnabled := false, settingsEnabled := false)
  }

  function ResetUi(ui: Ui): Ui {
    ui.(button := StartListeningLabel, recordEnabled := true, settingsEnabled := true, loadingVisible := false)
  }

  function RecordingUi(ui: Ui): Ui {
    ui.(button := StopListeningLabel, settingsEnabled := false)
  }

  function ProcessingUi(ui: Ui): Ui {
    ui.(button := ProcessingLabel, recordEnabled := false, loadingVisible := true)
  }

  function ResultUi(ui: Ui, prediction: Prediction, feedback: Feedback): Ui {
    ui.(lastDetection := DisplayLabel(prediction.cls),
        confidencePercent := prediction.confidence * 100.0,
        message := feedback.message,
        messageVisible := true,
        messageBackground := Some(MessageBackground(FromString(feedback.alertLevel))))
  }

  /** A suspended coroutine waiting on a `delay`. */
  datatype Wakeup = AutoStop | LoopTick | HideMessage
  datatype Timer = Timer(delayMs: nat, wakeup: Wakeup)

  /** The health reply as the controller sees it. */
  datatype HealthOutcome = HealthReply(code: int, body: Option<HealthResponse>) | HealthThrown

  /** checkServerConnection's test: a 2xx reply whose body says the model is
      loaded. */
  predicate ServerReady(outcome: HealthOutcome) {
    outcome.HealthReply? && IsSuccessful(outcome.code) && outcome.body.Some? && outcome.body.value.modelLoaded
  }

  function Without(timers: seq<Timer>, i: nat): (r: seq<Timer>)
    requires i < |timers|
    ensures |r| == |timers| - 1
  {
    timers[..i] + timers[i + 1..]
  }

  class MainActivity {
    const recorder: AudioRecorder
    const feedbackManager: FeedbackManager
    const store: FileStore
    var isRecording: bool
    var isProcessing: bool
    var continuousListening: bool
    var currentRecordingFile: Option<File>
    /** The file held by the processing coroutine while its request is out. */
    var inFlight: Option<File>
    var ui: Ui
    /** Every message showError has displayed, oldest first. */
    var errors: seq<ErrorMessage>
    var timers: seq<Timer>
    /** Whether the record button has been enabled, by the layout or by a
        health reply that found the server ready. Nothing but the button
        starts listening. */
    ghost var unlocked: bool

    ghost predicate Valid()
      reads this, recorder, feedbackManager
    {
      && recorder.store == store && recorder.Valid() && feedbackManager.Valid()
      && !(isRecording && isProcessing)
      && (isProcessing <==> inFlight.Some?)
      && (isRecording ==> recorder.isRecording && currentRecordingFile.Some? && recorder.outputFile == currentRecordingFile)
      && (ui.recordEnabled ==> unlocked)
      && (!unlocked ==> !continuousListening && !isRecording && !isProcessing && timers == [])
    }

    /** onCreate: the activity with its recorder and feedback engine, the
        record button enabled or not as the layout has it. */
    constructor (store: FileStore, cacheDir: string, hasVibrator: bool, ui: Ui)
      ensures Valid() && fresh(recorder) && fresh(feedbackManager) && this.store == store
      ensures !isRecording && !isProcessing && !continuousListening && timers == [] && errors == []
      ensures this.ui == ui && recorder.format == ThreeGppAmrNb && recorder.cacheDir == cacheDir
    {
      this.store := store;
      recorder := new AudioRecorder(ThreeGppAmrNb, cacheDir, store);
      feedbackManager := new FeedbackManager(hasVibrator, WHITE, BLACK);
      isRecording, isProcessing, continuousListening := false, false, false;
      currentRecordingFile, inFlight := None, None;
      this.ui := ui;
      errors, timers := [], [];
      unlocked := ui.recordEnabled;
    }

    method ShowError(message: ErrorMessage)
      modifies this
      ensures ui == ErrorUi(old(ui), message) && errors == old(errors) + [message]
      ensures isRecording == old(isRecording) && isProcessing == old(isProcessing)
      ensures continuousListening == old(continuousListening) && currentRecordingFile == old(currentRecordingFile)
      ensures inFlight == old(inFlight) && timers == old(timers) && unlocked == old(unlocked)
    {
      ui := ErrorUi(ui, message);
      errors := errors + [message];
    }

    method ResetUI()
      modifies this
      ensures ui == ResetUi(old(ui)) && timers == old(timers) + [Timer(MESSAGE_HIDE_DELAY, HideMessage)]
      ensures isRecording == old(isRecording) && isProcessing == old(isProcessing)
      ensures continuousListening == old(continuousListening) && currentRecordingFile == old(currentRecordingFile)
      ensures inFlight == old(inFlight) && errors == old(errors) && unlocked == old(unlocked)
    {
      ui := ResetUi(ui);
      timers := timers + [Timer(MESSAGE_HIDE_DELAY, HideMessage)];
    }

    /** startListening, which only the continuous loop calls: a no-op while
        recording or processing; otherwise it asks the recorder for a file,
        and only a file marks the controller as recording and arms the
        auto-stop timer. */
    method StartListening(nowMs: nat, device: StartOutcome, priorStop: StopOutcome)
      requires Valid() && continuousListening
      modifies this, recorder, store
      ensures Valid()
      ensures old(isRecording || isProcessing) ==> unchanged(this, recorder, store)
      ensures !old(isRecording || isProcessing) ==>
        && isProcessing == old(isProcessing) && inFlight == old(inFlight)
        && continuousListening == old(continuousListening) && unlocked == old(unlocked)
        && store.files == old(store.files) + (if device == PrepareFails then {} else {OutputFileAt(recorder.format, recorder.cacheDir, nowMs)})
        && (device == Started ==>
              && isRecording
              && currentRecordingFile == Some(OutputFileAt(recorder.format, recorder.cacheDir, nowMs))
              && ui == RecordingUi(old(ui)) && errors == old(errors)
              && timers == old(timers) + [Timer(RECORDING_DURATION, AutoStop)])
        && (device != Started ==>
              && !isRecording
              && currentRecordingFile == (if device == PrepareFails then None else old(currentRecordingFile))
              && ui == ErrorUi(old(ui), RecordingError) && errors == old(errors) + [RecordingError]
              && timers == old(timers))
    {
      if isRecording || isProcessing {
        return;
      }
      var result := recorder.StartRecording(nowMs, device, priorStop);
      match result {
        case Began(file) =>
          currentRecordingFile := Some(file);
          isRecording := true;
          ui := RecordingUi(ui);
          timers := timers + [Timer(RECORDING_DURATION, AutoStop)];
        case Null =>
          currentRecordingFile := None;
          ShowError(RecordingError);
        case Threw =>
          ShowError(RecordingError);
      }
    }

    /** stopListening: a no-op when not recording; otherwise it clears the
        flag and hands the recorder's file to processing when there is one
        on disk, and shows the recording error and resets the UI when not. */
    method StopListening(device: StopOutcome)
      requires Valid()
      modifies this, recorder
      ensures Valid()
      ensures !old(isRecording) ==> unchanged(this, recorder)
      ensures old(isRecording) ==>
        var file := if device == Stopped then old(currentRecordingFile) else None;
        && !isRecording && continuousListening == old(continuousListening)
        && currentRecordingFile == old(currentRecordingFile) && unlocked == old(unlocked)
        && (file.Some? && file.value in store.files ==>
              && isProcessing && inFlight == file
              && ui == ProcessingUi(old(ui)) && errors == old(errors) && timers == old(timers))
        && (!(file.Some? && file.value in store.files) ==>
              && !isProcessing && inFlight == None
              && ui == ResetUi(ErrorUi(old(ui), RecordingError)) && errors == old(errors) + [RecordingError]
              && timers == old(timers) + [Timer(MESSAGE_HIDE_DELAY, HideMessage)])
    {
      if !isRecording {
        return;
      }
      var recordedFile := recorder.StopRecording(device);
      isRecording := false;
      if recordedFile.Some? && recordedFile.value in store.files {
        ProcessAudioFile(recordedFile.value);
      } else {
        ShowError(RecordingError);
        ResetUI();
      }
    }

    /** processAudioFile up to its network call: marks the controller as
        processing and parks the file with the suspended request. */
    method ProcessAudioFile(audioFile: File)
      requires !isRecording && !isProcessing && inFlight == None
      modifies this
      ensures isProcessing && inFlight == Some(audioFile) && ui == ProcessingUi(old(ui))
      ensures isRecording == old(isRecording) && continuousListening == old(continuousListening)
      ensures currentRecordingFile == old(currentRecordingFile) && errors == old(errors)
      ensures timers == old(timers) && unlocked == old(unlocked)
    {
      isProcessing := true;
      ui := ProcessingUi(ui);
      inFlight := Some(audioFile);
    }

    /** The rest of processAudioFile, once the request settles: render or
        report, then on every path clear `isProcessing`, reset the UI and
        delete the file. */
    method OnClassificationSettled(outcome: HttpOutcome)
      requires Valid() && inFlight.Some?
      modifies this, store, feedbackManager
      ensures Valid()
      ensures !isProcessing && inFlight == None && ui.recordEnabled
      ensures store.files == old(store.files) - {old(inFlight).value}
      ensures timers == old(timers) + [Timer(MESSAGE_HIDE_DELAY, HideMessage)]
      ensures isRecording == old(isRecording) && continuousListening == old(continuousListening)
      ensures currentRecordingFile == old(currentRecordingFile)
      ensures match Dispatch(outcome)
        case RenderResult(prediction, feedback) =>
          && ui == ResetUi(ResultUi(old(ui), prediction, feedback)) && errors == old(errors)
          && feedbackManager.Snapshot() == Provide(old(feedbackManager.Snapshot()), feedbackManager.hasVibrator, feedback)
        case ShowError(message) =>
          && ui == ResetUi(ErrorUi(old(ui), message)) && errors == old(errors) + [message]
          && feedbackManager.Snapshot() == old(feedbackManager.Snapshot())
    {
      var audioFile := inFlight.value;
      match Dispatch(outcome) {
        case RenderResult(prediction, feedback) =>
          HandleClassificationResult(prediction, feedback);
        case ShowError(message) =>
          ShowError(message);
      }
      isProcessing := false;
      inFlight := None;
      ResetUI();
      store.files := store.files - {audioFile};
    }

    /** handleClassificationResult: the detection, confidence and message
        views, the level's message colour, then the feedback engine. */
    method HandleClassificationResult(prediction: Prediction, feedback: Feedback)
      requires feedbackManager.Valid()
      modifies this, feedbackManager
      ensures feedbackManager.Valid()
      ensures ui == ResultUi(old(ui), prediction, feedback)
      ensures feedbackManager.Snapshot() == Provide(old(feedbackManager.Snapshot()), feedbackManager.hasVibrator, feedback)
      ensures isRecording == old(isRecording) && isProcessing == old(isProcessing)
      ensures continuousListening == old(continuousListening) && currentRecordingFile == old(currentRecordingFile)
      ensures inFlight == old(inFlight) && errors == old(errors) && timers == old(timers) && unlocked == old(unlocked)
    {
      ui := ResultUi(ui, prediction, feedback);
      feedbackManager.ProvideFeedback(feedback);
    }

    /** startContinuousListening: sets the flag, then the loop's first turn
        runs at once: startListening, then a LOOP_DELAY wait. */
    method StartContinuousListening(nowMs: nat, device: StartOutcome, priorStop: StopOutcome)
      requires Valid() && ui.recordEnabled
      modifies this, recorder, store
      ensures Valid() && continuousListening && unlocked == old(unlocked)
      ensures isProcessing == old(isProcessing) && inFlight == old(inFlight)
      ensures old(isRecording || isProcessing) ==>
        && unchanged(recorder, store) && isRecording == old(isRecording)
        && currentRecordingFile == old(currentRecordingFile) && ui == old(ui) && errors == old(errors)
        && timers == old(timers) + [Timer(LOOP_DELAY, LoopTick)]
      ensures !old(isRecording || isProcessing) ==>
        store.files == old(store.files) + (if device == PrepareFails then {} else {OutputFileAt(recorder.format, recorder.cacheDir, nowMs)})
      ensures !old(isRecording || isProcessing) && device == Started ==>
        && isRecording
        && currentRecordingFile == Some(OutputFileAt(recorder.format, recorder.cacheDir, nowMs))
        && ui == RecordingUi(old(ui)) && errors == old(errors)
        && timers == old(timers) + [Timer(RECORDING_DURATION, AutoStop), Timer(LOOP_DELAY, LoopTick)]
      ensures !old(isRecording || isProcessing) && device != Started ==>
        && !isRecording
        && currentRecordingFile == (if device == PrepareFails then None else old(currentRecordingFile))
        && ui == ErrorUi(old(ui), RecordingError) && errors == old(errors) + [RecordingError]
        && timers == old(timers) + [Timer(LOOP_DELAY, LoopTick)]
    {
      continuousListening := true;
      StartListening(nowMs, device, priorStop);
      timers := timers + [Timer(LOOP_DELAY, LoopTick)];
    }

    /** stopContinuousListening: clears the flag, then stopListening. */
    method StopContinuousListening(device: StopOutcome)
      requires Valid()
      modifies this, recorder
      ensures Valid() && !continuousListening && !isRecording && unlocked == old(unlocked)
      ensures currentRecordingFile == old(currentRecordingFile)
      ensures !old(isRecording) ==>
        && unchanged(recorder) && isProcessing == old(isProcessing) && inFlight == old(inFlight)
        && ui == old(ui) && errors == old(errors) && timers == old(timers)
      ensures old(isRecording) ==>
        var file := if device == Stopped then old(currentRecordingFile) else None;
        && (file.Some? && file.value in store.files ==>
              && isProcessing && inFlight == file
              && ui == ProcessingUi(old(ui)) && errors == old(errors) && timers == old(timers))
        && (!(file.Some? && file.value in store.files) ==>
              && !isProcessing && inFlight == None
              && ui == ResetUi(ErrorUi(old(ui), RecordingError)) && errors == old(errors) + [RecordingError]
              && timers == old(timers) + [Timer(MESSAGE_HIDE_DELAY, HideMessage)])
    {
      continuousListening := false;
      StopListening(device);
    }

    /** The record button's click listener; a disabled button delivers no
        click. Off, it starts continuous listening and labels the button
        "Stop"; on, it stops continuous listening and resets the UI, which
        re-enables the button even while a recording it handed over is being
        processed. */
    method OnRecordButtonClick(nowMs: nat, device: StartOutcome, priorStop: StopOutcome, stop: StopOutcome)
      requires Valid()
      modifies this, recorder, store
      ensures Valid()
      ensures !old(ui.recordEnabled) ==> unchanged(this, recorder, store)
      ensures old(ui.recordEnabled) ==> continuousListening == !old(continuousListening)
      ensures old(ui.recordEnabled && !continuousListening) ==>
        && ui.button == StopListeningLabel
        && isProcessing == old(isProcessing) && inFlight == old(inFlight)
        && (old(isRecording || isProcessing) ==>
              && unchanged(recorder, store) && isRecording == old(isRecording)
              && ui == old(ui).(button := StopListeningLabel) && errors == old(errors)
              && timers == old(timers) + [Timer(LOOP_DELAY, LoopTick)])
        && (!old(isRecording || isProcessing) ==>
              store.files == old(store.files) + (if device == PrepareFails then {} else {OutputFileAt(recorder.format, recorder.cacheDir, nowMs)}))
        && (!old(isRecording || isProcessing) && device == Started ==>
              && isRecording
              && currentRecordingFile == Some(OutputFileAt(recorder.format, recorder.cacheDir, nowMs))
              && ui == RecordingUi(old(ui)) && errors == old(errors)
              && timers == old(timers) + [Timer(RECORDING_DURATION, AutoStop), Timer(LOOP_DELAY, LoopTick)])
        && (!old(isRecording || isProcessing) && device != Started ==>
              && !isRecording
              && ui == ErrorUi(old(ui), RecordingError).(button := StopListeningLabel)
              && errors == old(errors) + [RecordingError]
              && timers == old(timers) + [Timer(LOOP_DELAY, LoopTick)])
      ensures old(ui.recordEnabled && continuousListening) ==>
        && !isRecording && unchanged(store) && currentRecordingFile == old(currentRecordingFile)
        && ui.button == StartListeningLabel && ui.recordEnabled && ui.settingsEnabled && !ui.loadingVisible
        && (!old(isRecording) ==>
              && unchanged(recorder) && isProcessing == old(isProcessing) && inFlight == old(inFlight)
              && ui == ResetUi(old(ui)) && errors == old(errors)
              && timers == old(timers) + [Timer(MESSAGE_HIDE_DELAY, HideMessage)])
        && (old(isRecording) ==>
              var file := if stop == Stopped then old(currentRecordingFile) else None;
              && (file.Some? && file.value in store.files ==>
                    && isProcessing && inFlight == file && ui == ResetUi(ProcessingUi(old(ui)))
                    && errors == old(errors) && timers == old(timers) + [Timer(MESSAGE_HIDE_DELAY, HideMessage)])
              && (!(file.Some? && file.value in store.files) ==>
                    && !isProcessing && inFlight == None && errors == old(errors) + [RecordingError]
                    && ui == ResetUi(ResetUi(ErrorUi(old(ui), RecordingError)))
                    && timers == old(timers) + [Timer(MESSAGE_HIDE_DELAY, HideMessage), Timer(MESSAGE_HIDE_DELAY, HideMessage)]))
    {
      if !ui.recordEnabled {
        return;
      }
      if !continuousListening {
        StartContinuousListening(nowMs, device, priorStop);
        ui := ui.(button := StopListeningLabel);
      } else {
        StopContinuousListening(stop);
        ResetUI();
      }
    }

    /** The auto-stop coroutine waking: it stops only if still recording. */
    method OnAutoStop(i: nat, device: StopOutcome)
      requires Valid() && i < |timers| && timers[i].wakeup == AutoStop
      modifies this, recorder
      ensures Valid() && !isRecording
      ensures continuousListening == old(continuousListening) && currentRecordingFile == old(currentRecordingFile)
      ensures !old(isRecording) ==>
        && unchanged(recorder) && timers == Without(old(timers), i) && ui == old(ui) && errors == old(errors)
        && isProcessing == old(isProcessing) && inFlight == old(inFlight)
      ensures old(isRecording) ==>
        var file := if device == Stopped then old(currentRecordingFile) else None;
        && (file.Some? && file.value in store.files ==>
              && isProcessing && inFlight == file
              && ui == ProcessingUi(old(ui)) && errors == old(errors) && timers == Without(old(timers), i))
        && (!(file.Some? && file.value in store.files) ==>
              && !isProcessing && inFlight == None
              && ui == ResetUi(ErrorUi(old(ui), RecordingError)) && errors == old(errors) + [RecordingError]
              && timers == Without(old(timers), i) + [Timer(MESSAGE_HIDE_DELAY, HideMessage)])
    {
      timers := Without(timers, i);
      if isRecording {
        StopListening(device);
      }
    }

    /** The continuous loop waking from its delay: while the flag holds it
        runs startListening and waits again; otherwise the loop ends. */
    method OnLoopTick(i: nat, nowMs: nat, device: StartOutcome, priorStop: StopOutcome)
      requires Valid() && i < |timers| && timers[i].wakeup == LoopTick
      modifies this, recorder, store
      ensures Valid() && continuousListening == old(continuousListening)
      ensures isProcessing == old(isProcessing) && inFlight == old(inFlight)
      ensures !old(continuousListening) ==>
        && unchanged(recorder, store) && timers == Without(old(timers), i)
        && ui == old(ui) && errors == old(errors) && isRecording == old(isRecording)
        && currentRecordingFile == old(currentRecordingFile)
      ensures old(continuousListening) && old(isRecording || isProcessing) ==>
        && unchanged(recorder, store) && isRecording == old(isRecording)
        && currentRecordingFile == old(currentRecordingFile) && ui == old(ui) && errors == old(errors)
        && timers == Without(old(timers), i) + [Timer(LOOP_DELAY, LoopTick)]
      ensures old(continuousListening) && !old(isRecording || isProcessing) ==>
        store.files == old(store.files) + (if device == PrepareFails then {} else {OutputFileAt(recorder.format, recorder.cacheDir, nowMs)})
      ensures old(continuousListening) && !old(isRecording || isProcessing) && device == Started ==>
        && isRecording
        && currentRecordingFile == Some(OutputFileAt(recorder.format, recorder.cacheDir, nowMs))
        && ui == RecordingUi(old(ui)) && errors == old(errors)
        && timers == Without(old(timers), i) + [Timer(RECORDING_DURATION, AutoStop), Timer(LOOP_DELAY, LoopTick)]
      ensures old(continuousListening) && !old(isRecording || isProcessing) && device != Started ==>
        && !isRecording
        && currentRecordingFile == (if device == PrepareFails then None else old(currentRecordingFile))
        && ui == ErrorUi(old(ui), RecordingError) && errors == old(errors) + [RecordingError]
        && timers == Without(old(timers), i) + [Timer(LOOP_DELAY, LoopTick)]
    {
      timers := Without(timers, i);
      if continuousListening {
        StartListening(nowMs, device, priorStop);
        timers := timers + [Timer(LOOP_DELAY, LoopTick)];
      }
    }

    /** resetUI's coroutine waking: the message view is hidden. */
    method OnHideMessage(i: nat)
      requires Valid() && i < |timers| && timers[i].wakeup == HideMessage
      modifies this
      ensures Valid() && ui == old(ui).(messageVisible := false) && timers == Without(old(timers), i)
      ensures isRecording == old(isRecording) && isProcessing == old(isProcessing)
      ensures continuousListening == old(continuousListening) && currentRecordingFile == old(currentRecordingFile)
      ensures inFlight == old(inFlight) && errors == old(errors) && unlocked == old(unlocked)
    {
      timers := Without(timers, i);
      ui := ui.(messageVisible := false);
    }

    /** checkServerConnection's coroutine settling: a ready server enables
        the UI, anything else shows the connection error and disables it. */
    method OnHealthResult(outcome: HealthOutcome)
      requires Valid()
      modifies this
      ensures Valid()
      ensures ServerReady(outcome) ==> ui == old(ui).(status := Connected, recordEnabled := true, settingsEnabled := true)
      ensures !ServerReady(outcome) ==> ui == ErrorUi(old(ui), ConnectionFailed) && !ui.recordEnabled
      ensures errors == old(errors) + (if ServerReady(outcome) then [] else [ConnectionFailed])
      ensures isRecording == old(isRecording) && isProcessing == old(isProcessing)
      ensures continuousListening == old(continuousListening) && timers == old(timers)
      ensures currentRecordingFile == old(currentRecordingFile) && inFlight == old(inFlight)
    {
      if ServerReady(outcome) {
        ui := ui.(status := Connected);
        EnableUI(true);
        unlocked := true;
      } else {
        ShowError(ConnectionFailed);
      }
    }

    method EnableUI(enabled: bool)
      modifies this
      ensures ui == old(ui).(recordEnabled := enabled, settingsEnabled := enabled)
      ensures isRecording == old(isRecording) && isProcessing == old(isProcessing)
      ensures continuousListening == old(continuousListening) && currentRecordingFile == old(currentRecordingFile)
      ensures inFlight == old(inFlight) && errors == old(errors) && timers == old(timers) && unlocked == old(unlocked)
    {
      ui := ui.(recordEnabled := enabled, settingsEnabled := enabled);
    }

    /** onPause: stops continuous listening and cancels all feedback. */
    method OnPause(device: StopOutcome)
      requires Valid()
      modifies this, recorder, feedbackManager
      ensures Valid() && !continuousListening && !isRecording
      ensures currentRecordingFile == old(currentRecordingFile)
      ensures !old(isRecording) ==>
        && isProcessing == old(isProcessing) && inFlight == old(inFlight)
        && ui == old(ui) && errors == old(errors) && timers == old(timers)
      ensures old(isRecording) ==>
        var file := if device == Stopped then old(currentRecordingFile) else None;
        && (file.Some? && file.value in old(store.files) ==>
              && isProcessing && inFlight == file
              && ui == ProcessingUi(old(ui)) && errors == old(errors) && timers == old(timers))
        && (!(file.Some? && file.value in old(store.files)) ==>
              && !isProcessing && inFlight == None
              && ui == ResetUi(ErrorUi(old(ui), RecordingError)) && errors == old(errors) + [RecordingError]
              && timers == old(timers) + [Timer(MESSAGE_HIDE_DELAY, HideMessage)])
      ensures feedbackManager.Snapshot() == CancelAll(old(feedbackManager.Snapshot()))
    {
      StopContinuousListening(device);
      feedbackManager.CancelAllFeedback();
    }

    /** onDestroy: stops continuous listening, cleans the recorder up and
        cancels all feedback. */
    method OnDestroy(device: StopOutcome, cleanupStop: StopOutcome)
      requires Valid()
      modifies this, recorder, store, feedbackManager
      ensures Valid() && !continuousListening && !isRecording
      ensures currentRecordingFile == old(currentRecordingFile)
      ensures !old(isRecording) ==>
        && isProcessing == old(isProcessing) && inFlight == old(inFlight)
        && ui == old(ui) && errors == old(errors) && timers == old(timers)
      ensures old(isRecording) ==>
        var file := if device == Stopped then old(currentRecordingFile) else None;
        && (file.Some? && file.value in old(store.files) ==>
              && isProcessing && inFlight == file
              && ui == ProcessingUi(old(ui)) && errors == old(errors) && timers == old(timers))
        && (!(file.Some? && file.value in old(store.files)) ==>
              && !isProcessing && inFlight == None
              && ui == ResetUi(ErrorUi(old(ui), RecordingError)) && errors == old(errors) + [RecordingError]
              && timers == old(timers) + [Timer(MESSAGE_HIDE_DELAY, HideMessage)])
      ensures store.files == old(store.files) - (if recorder.outputFile.Some? then {recorder.outputFile.value} else {})
      ensures feedbackManager.Snapshot() == CancelAll(old(feedbackManager.Snapshot()))
    {
      StopContinuousListening(device);
      recorder.Cleanup(cleanupStop);
      feedbackManager.CancelAllFeedback();
    }
  }

  /** The listening cycle through the button: on a fresh activity whose
      record button is enabled, a press starts continuous listening and a
      recording, and a second press stops it and hands exactly that
      recording's file to processing. */
  method PressTwiceSendsRecording(cacheDir: string, hasVibrator: bool, layout: Ui, nowMs: nat)
    returns (sent: Option<File>, processing: bool, listening: bool)
    requires layout.recordEnabled
    ensures processing && !listening
    ensures sent == Some(OutputFileAt(ThreeGppAmrNb, cacheDir, nowMs))
  {
    var store := new FileStore({});
    var activity := new MainActivity(store, cacheDir, hasVibrator, layout);
    activity.OnRecordButtonClick(nowMs, Started, Stopped, Stopped);
    activity.OnRecordButtonClick(nowMs + RECORDING_DURATION, Started, Stopped, Stopped);
    sent, processing, listening := activity.inFlight, activity.isProcessing, activity.continuousListening;
  }
}
