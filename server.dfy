/** The classification server (Server/app.py): the classifier's start-up,
    /health, the /classify validation chain and reply, and the feature
    padding inside `SoundClassifier.predict`. Audio decoding, the MFCC
    computation and the network are not modelled; their results are
    parameters. Replies use the same records the client decodes them into. */
module Server {
  import opened Wrappers
  import opened ApiModels

  const SAMPLE_RATE: nat := 22050
  const N_MFCC: nat := 40
  /** At least one second of audio. */
  const MIN_SAMPLES: nat := SAMPLE_RATE * 1
  /** 10 MB. */
  const MAX_FILE_SIZE: nat := 10 * 1024 * 1024
  /** The largest FFT window `_process_audio` uses. */
  const MAX_N_FFT: nat := 2048

  /** The UrbanSound8K labels, indexed by the network's output. */
  const CLASS_LABELS: seq<string> := [
    "air_conditioner", "car_horn", "children_playing", "dog_bark",
    "drilling", "engine_idling", "gun_shot", "jackhammer",
    "siren", "street_music"]

  // ---------------------------------------------------------------- start-up

  /** A loaded Keras model, reduced to `input_shape[1]`: its number of
      timesteps, which Keras leaves `None` for a variable-length input. */
  datatype Model = Model(inputTimesteps: Option<nat>)

  /** A `SoundClassifier` object and its `model` attribute. */
  datatype Classifier = Classifier(model: Option<Model>)

  /** The module-level start-up: the constructor loads the model and
      re-raises a failure, which leaves `classifier` as `None`. `load` is what
      `load_model` returns, `None` when it raises. */
  function StartUp(load: Option<Model>): (classifier: Option<Classifier>)
    ensures classifier.Some? <==> load.Some?
    ensures classifier.Some? ==> classifier.value.model == load
  {
    if load.Some? then Some(Classifier(load)) else None
  }

  /** `classifier and classifier.model`. */
  predicate ModelLoaded(classifier: Option<Classifier>) {
    classifier.Some? && classifier.value.model.Some?
  }

  /** health_check. */
  function Health(classifier: Option<Classifier>, now: string): (r: HealthResponse)
    ensures r.modelLoaded <==> classifier.Some? && classifier.value.model.Some?
    ensures r.status == "healthy" <==> r.modelLoaded
    ensures r.status == "healthy" || r.status == "unhealthy"
    ensures r.timestamp == now
  {
    HealthResponse(if ModelLoaded(classifier) then "healthy" else "unhealthy", now, ModelLoaded(classifier))
  }

  /** A server that starts reports itself healthy exactly when its model
      loaded. */
  lemma HealthAfterStartUp(load: Option<Model>, now: string)
    ensures Health(StartUp(load), now).modelLoaded <==> load.Some?
  {
  }

  // ---------------------------------------------------------------- features

  /** A matrix of `width` columns: every row has `width` entries. */
  predicate IsMatrix<T>(m: seq<seq<T>>, width: nat) {
    forall i :: 0 <= i < |m| ==> |m[i]| == width
  }

  function ZeroRow<T>(zero: T, width: nat): (r: seq<T>)
    ensures |r| == width && forall j :: 0 <= j < width ==> r[j] == zero
  {
    seq(width, _ => zero)
  }

  /** The pad/truncate of `predict`: `np.pad` with constant zero rows at the
      end, or the first `expected` rows. */
  function PadOrTruncate<T>(features: seq<seq<T>>, width: nat, zero: T, expected: nat): (r: seq<seq<T>>)
    requires IsMatrix(features, width)
    ensures |r| == expected && IsMatrix(r, width)
    ensures forall i :: 0 <= i < expected ==>
      r[i] == if i < |features| then features[i] else ZeroRow(zero, width)
  {
    if |features| < expected then
      features + seq(expected - |features|, _ => ZeroRow(zero, width))
    else
      features[..expected]
  }

  /** Shorter input keeps all its rows as a prefix; longer input keeps its
      first `expected` rows; input of the right length is unchanged. */
  lemma PadOrTruncateKeepsPrefix<T>(features: seq<seq<T>>, width: nat, zero: T, expected: nat)
    requires IsMatrix(features, width)
    ensures |features| <= expected ==> PadOrTruncate(features, width, zero, expected)[..|features|] == features
    ensures |features| >= expected ==> PadOrTruncate(features, width, zero, expected) == features[..expected]
    ensures |features| == expected ==> PadOrTruncate(features, width, zero, expected) == features
  {
    var r := PadOrTruncate(features, width, zero, expected);
    if |features| <= expected {
      assert r[..|features|] == features;
    } else {
      assert r == features[..expected];
    }
  }

  /** Padding twice to the same length is padding once. */
  lemma PadOrTruncateIdempotent<T>(features: seq<seq<T>>, width: nat, zero: T, expected: nat)
    requires IsMatrix(features, width)
    ensures PadOrTruncate(PadOrTruncate(features, width, zero, expected), width, zero, expected)
         == PadOrTruncate(features, width, zero, expected)
  {
    PadOrTruncateKeepsPrefix(PadOrTruncate(features, width, zero, expected), width, zero, expected);
  }

  /** The librosa MFCC call `_process_audio` makes. */
  datatype MfccCall = MfccCall(sampleRate: nat, nMfcc: nat, nFft: nat)

  function Min(a: nat, b: nat): nat {
    if a <= b then a else b
  }

  /** `_process_audio` on `sampleCount` samples: `None` for audio shorter
      than MIN_SAMPLES, otherwise the MFCC call with `n_fft = min(2048,
      len)`. */
  function ProcessAudio(sampleCount: nat): (r: Option<MfccCall>)
    ensures r.None? <==> sampleCount < MIN_SAMPLES
    ensures r.Some? ==> r.value.sampleRate == SAMPLE_RATE && r.value.nMfcc == N_MFCC
    ensures r.Some? ==> r.value.nFft <= sampleCount
  {
    if sampleCount < MIN_SAMPLES then None
    else Some(MfccCall(SAMPLE_RATE, N_MFCC, Min(MAX_N_FFT, sampleCount)))
  }

  /** Since the guard asks for more samples than the window, the `min`
      always yields the full 2048-sample window. */
  lemma FftWindowIsAlwaysFull(sampleCount: nat)
    requires ProcessAudio(sampleCount).Some?
    ensures ProcessAudio(sampleCount).value.nFft == MAX_N_FFT
  {
  }

  // ---------------------------------------------------------------- predict

  /** What `argmax` and the confidence lookup give for one input. */
  datatype Inference = Inference(index: nat, confidence: real)

  /** A predicted label and its confidence. */
  datatype Labelled = Labelled(cls: string, confidence: real)

  /** `SoundClassifier.predict`. `features` is what `extract_features`
      returns, a matrix of `width` columns or `None`; `net` is
      `model.predict` followed by `argmax`, `None` when it raises. Every
      exception, including the TypeError of a `None` timestep count, the
      failing reshape and an index past CLASS_LABELS, becomes `None`. */
  function Predict(model: Model, features: Option<seq<seq<real>>>, width: nat,
                   net: seq<seq<real>> -> Option<Inference>): (r: Option<Labelled>)
    requires features.Some? ==> IsMatrix(features.value, width)
    ensures r.Some? ==> r.value.cls in CLASS_LABELS
    ensures r.Some? ==>
      && features.Some? && model.inputTimesteps.Some?
      && var padded := PadOrTruncate(features.value, width, 0.0, model.inputTimesteps.value);
         && net(padded).Some? && net(padded).value.index < |CLASS_LABELS|
         && r.value == Labelled(CLASS_LABELS[net(padded).value.index], net(padded).value.confidence)
    ensures features.None? || model.inputTimesteps.None? ==> r.None?
    ensures
      (&& features.Some? && model.inputTimesteps.Some? && width == N_MFCC
       && var padded := PadOrTruncate(features.value, width, 0.0, model.inputTimesteps.value);
          net(padded).Some? && net(padded).value.index < |CLASS_LABELS|)
      ==> r.Some?
  {
    if features.None? || model.inputTimesteps.None? then None
    else
      var expected := model.inputTimesteps.value;
      var padded := PadOrTruncate(features.value, width, 0.0, expected);
      if expected * width != expected * N_MFCC then None
      else match net(padded)
        case None => None
        case Some(inference) =>
          if inference.index < |CLASS_LABELS| then
            Some(Labelled(CLASS_LABELS[inference.index], inference.confidence))
          else None
  }

  /** The reshape to `(1, expected_timesteps, N_MFCC)` fails on MFCC rows of
      any other width, unless there are no timesteps at all. */
  lemma PredictNeedsMfccWidth(model: Model, features: seq<seq<real>>, width: nat,
                              net: seq<seq<real>> -> Option<Inference>)
    requires IsMatrix(features, width) && width != N_MFCC
    requires model.inputTimesteps.Some? && model.inputTimesteps.value > 0
    ensures Predict(model, Some(features), width, net).None?
  {
    var e := model.inputTimesteps.value;
    if width < N_MFCC {
      assert e * width < e * N_MFCC;
    } else {
      assert e * width > e * N_MFCC;
    }
  }

  // ---------------------------------------------------------------- /classify

  /** An uploaded file: its client-given name and its size in bytes. */
  datatype Upload = Upload(filename: string, size: nat)

  /** The request as /classify reads it: its multipart files by field name. */
  datatype Request = Request(files: map<string, Upload>)

  /** A reply: the HTTP status and the JSON body. */
  datatype Reply = Reply(status: nat, body: ClassificationResponse)

  /** Every error text classify_sound sends. */
  const ERROR_MESSAGES: set<string> := {
    "Model not loaded", "No audio file", "Empty filename", "Empty file",
    "File too large", "Unprocessable audio", "Internal server error"}

  /** `{'error': message, 'success': False}`. */
  function Failure(status: nat, message: string): (r: Reply)
    ensures r.status == status && !r.body.success && r.body.error == Some(message)
    ensures r.body.prediction.None? && r.body.feedback.None?
  {
    Reply(status, ClassificationResponse(false, None, None, Some(message)))
  }

  /** The checks before the upload is saved, in order; the first that fails
      gives the reply, and `None` means all pass. */
  function Validate(classifier: Option<Classifier>, request: Request): (r: Option<Reply>)
    ensures !ModelLoaded(classifier) ==> r == Some(Failure(500, "Model not loaded"))
    ensures ModelLoaded(classifier) && "audio" !in request.files ==> r == Some(Failure(400, "No audio file"))
    ensures ModelLoaded(classifier) && "audio" in request.files ==>
      var file := request.files["audio"];
      && (file.filename == "" ==> r == Some(Failure(400, "Empty filename")))
      && (file.filename != "" && file.size == 0 ==> r == Some(Failure(400, "Empty file")))
      && (file.filename != "" && file.size > MAX_FILE_SIZE ==> r == Some(Failure(400, "File too large")))
    ensures r.None? <==>
      && ModelLoaded(classifier) && "audio" in request.files
      && request.files["audio"].filename != ""
      && 0 < request.files["audio"].size <= MAX_FILE_SIZE
  {
    if !ModelLoaded(classifier) then Some(Failure(500, "Model not loaded"))
    else if "audio" !in request.files then Some(Failure(400, "No audio file"))
    else
      var file := request.files["audio"];
      if file.filename == "" then Some(Failure(400, "Empty filename"))
      else if file.size == 0 then Some(Failure(400, "Empty file"))
      else if file.size > MAX_FILE_SIZE then Some(Failure(400, "File too large"))
      else None
  }

  /** The size bound is strict: exactly MAX_FILE_SIZE bytes pass, one more
      byte does not. */
  lemma SizeBoundIsStrict(classifier: Option<Classifier>, name: string)
    requires ModelLoaded(classifier) && name != ""
    ensures Validate(classifier, Request(map["audio" := Upload(name, MAX_FILE_SIZE)])).None?
    ensures Validate(classifier, Request(map["audio" := Upload(name, MAX_FILE_SIZE + 1)]))
         == Some(Failure(400, "File too large"))
  {
  }

  /** The first failing check wins: without a model, even an upload that
      fails every other check gets the 500. */
  lemma ModelCheckComesFirst(classifier: Option<Classifier>)
    requires !ModelLoaded(classifier)
    ensures Validate(classifier, Request(map[])) == Some(Failure(500, "Model not loaded"))
    ensures Validate(classifier, Request(map["audio" := Upload("", 0)])) == Some(Failure(500, "Model not loaded"))
  {
  }

  /** The feedback for a label: its SOUND_FEEDBACK entry, or the default for
      an unknown sound. */
  function FeedbackFor(soundFeedback: map<string, Feedback>, cls: string): (f: Feedback)
    ensures cls in soundFeedback ==> f == soundFeedback[cls]
    ensures cls !in soundFeedback ==>
      && f.alertLevel == "low" && f.color == "#757575" && f.vibrationPattern == [100]
      && f.message == "Unknown sound: " + cls && f.priority == 1
  {
    if cls in soundFeedback then soundFeedback[cls]
    else Feedback("low", "#757575", [100], "Unknown sound: " + cls, 1)
  }

  /** How saving the upload to its temporary file goes: the temporary file
      is created and written; it is created but `file.save` raises; or
      creating it raises. */
  datatype SaveOutcome = Saved | SaveRaises | CreateRaises

  /** classify_sound as a reply. The upload's decoded features and the
      network are parameters, as SOUND_FEEDBACK and the clock are. */
  function Respond(classifier: Option<Classifier>, request: Request, save: SaveOutcome,
                   features: Option<seq<seq<real>>>, width: nat,
                   net: seq<seq<real>> -> Option<Inference>,
                   soundFeedback: map<string, Feedback>, now: string): (r: Reply)
    requires features.Some? ==> IsMatrix(features.value, width)
    ensures Validate(classifier, request).Some? ==> r == Validate(classifier, request).value
    ensures Validate(classifier, request).None? && save != Saved ==> r == Failure(500, "Internal server error")
    ensures r.status == 200 <==> r.body.success
    ensures
      (&& Validate(classifier, request).None? && save == Saved
       && Predict(classifier.value.model.value, features, width, net).Some?)
      ==> r.body.success
    ensures r.body.success ==>
      && Validate(classifier, request).None? && save == Saved
      && var p := Predict(classifier.value.model.value, features, width, net);
         && p.Some?
         && r.body == ClassificationResponse(true, Some(Prediction(p.value.cls, p.value.confidence, now)),
                                             Some(FeedbackFor(soundFeedback, p.value.cls)), None)
    ensures !r.body.success ==> r.body.error.Some? && r.body.prediction.None? && r.body.feedback.None?
    ensures !r.body.success ==> r.status in {400, 422, 500} && r.body.error.value in ERROR_MESSAGES
  {
    match Validate(classifier, request)
    case Some(rejection) => rejection
    case None =>
      if save != Saved then Failure(500, "Internal server error")
      else match Predict(classifier.value.model.value, features, width, net)
        case None => Failure(422, "Unprocessable audio")
        case Some(labelled) =>
          Reply(200, ClassificationResponse(
            true,
            Some(Prediction(labelled.cls, labelled.confidence, now)),
            Some(FeedbackFor(soundFeedback, labelled.cls)),
            None))
  }

  /** A valid, saved upload whose prediction yields no class gets the 422. */
  lemma NoClassIsUnprocessable(classifier: Option<Classifier>, request: Request,
                               features: Option<seq<seq<real>>>, width: nat,
                               net: seq<seq<real>> -> Option<Inference>,
                               soundFeedback: map<string, Feedback>, now: string)
    requires features.Some? ==> IsMatrix(features.value, width)
    requires Validate(classifier, request).None?
    requires Predict(classifier.value.model.value, features, width, net).None?
    ensures Respond(classifier, request, Saved, features, width, net, soundFeedback, now) == Failure(422, "Unprocessable audio")
  {
  }

  /** The server's files. */
  class Disk {
    var files: set<string>

    constructor (files: set<string>)
      ensures this.files == files
    {
      this.files := files;
    }
  }

  /** classify_sound with its temporary file. `tempName` is the fresh name
      `NamedTemporaryFile` picks. Once `temp_path` is assigned the `finally`
      removes the file on every path; a `file.save` that raises comes
      before that assignment, and the file, created with `delete=False`,
      stays behind. */
  method ClassifySound(classifier: Option<Classifier>, request: Request, disk: Disk, tempName: string,
                       save: SaveOutcome, features: Option<seq<seq<real>>>, width: nat,
                       net: seq<seq<real>> -> Option<Inference>,
                       soundFeedback: map<string, Feedback>, now: string) returns (reply: Reply)
    requires tempName !in disk.files
    requires features.Some? ==> IsMatrix(features.value, width)
    modifies disk
    ensures reply == Respond(classifier, request, save, features, width, net, soundFeedback, now)
    ensures disk.files == old(disk.files) +
      (if Validate(classifier, request).None? && save == SaveRaises then {tempName} else {})
  {
    var rejection := Validate(classifier, request);
    if rejection.Some? {
      return rejection.value;
    }
    if save == CreateRaises {
      return Failure(500, "Internal server error");
    }
    disk.files := disk.files + {tempName};
    if save == SaveRaises {
      return Failure(500, "Internal server error");
    }
    var tempPath := tempName;
    var predicted := Predict(classifier.value.model.value, features, width, net);
    match predicted {
      case None =>
        reply := Failure(422, "Unprocessable audio");
      case Some(labelled) =>
        reply := Reply(200, ClassificationResponse(
          true,
          Some(Prediction(labelled.cls, labelled.confidence, now)),
          Some(FeedbackFor(soundFeedback, labelled.cls)),
          None));
    }
    if tempPath in disk.files {
      disk.files := disk.files - {tempPath};
    }
  }
}
