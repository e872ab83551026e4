/** What the client does with the replies the server sends: the server's
    /classify reply (Server/app.py) decoded and dispatched by the listening
    controller (MainActivity.kt), and the default feedback read by the
    feedback engine (FeedbackManager.kt). */
module EndToEnd {
  import opened Wrappers
  import opened Text
  import opened ApiModels
  import opened FeedbackEngine
  import opened Server
  import opened Activity

  /** A successful reply reaches the feedback path with exactly the
      prediction and feedback the server put in it. */
  lemma SuccessReachesFeedback(classifier: Option<Classifier>, request: Request, save: SaveOutcome,
                               features: Option<seq<seq<real>>>, width: nat,
                               net: seq<seq<real>> -> Option<Inference>,
                               soundFeedback: map<string, Feedback>, now: string)
    requires features.Some? ==> IsMatrix(features.value, width)
    requires Respond(classifier, request, save, features, width, net, soundFeedback, now).body.success
    ensures var r := Respond(classifier, request, save, features, width, net, soundFeedback, now);
      Dispatch(Response(r.status, Some(r.body))) == RenderResult(r.body.prediction.value, r.body.feedback.value)
  {
  }

  /** A valid, saved upload whose MFCC features the network classifies
      reaches the client's feedback path, with the label at the network's
      index and that label's feedback. */
  lemma GoodUploadReachesFeedback(classifier: Option<Classifier>, request: Request,
                                  features: seq<seq<real>>,
                                  net: seq<seq<real>> -> Option<Inference>,
                                  soundFeedback: map<string, Feedback>, now: string)
    requires IsMatrix(features, N_MFCC) && Validate(classifier, request).None?
    requires classifier.value.model.value.inputTimesteps.Some?
    requires var padded := PadOrTruncate(features, N_MFCC, 0.0, classifier.value.model.value.inputTimesteps.value);
      net(padded).Some? && net(padded).value.index < |CLASS_LABELS|
    ensures var r := Respond(classifier, request, Saved, Some(features), N_MFCC, net, soundFeedback, now);
      var inference := net(PadOrTruncate(features, N_MFCC, 0.0, classifier.value.model.value.inputTimesteps.value)).value;
      var cls := CLASS_LABELS[inference.index];
      && r.status == 200
      && Dispatch(Response(r.status, Some(r.body)))
         == RenderResult(Prediction(cls, inference.confidence, now), FeedbackFor(soundFeedback, cls))
  {
  }

  /** Every reply the server refuses with comes with an error text, but the
      client shows only "Server error: <status>", never that text. */
  lemma RefusalShowsOnlyTheStatus(classifier: Option<Classifier>, request: Request, save: SaveOutcome,
                                  features: Option<seq<seq<real>>>, width: nat,
                                  net: seq<seq<real>> -> Option<Inference>,
                                  soundFeedback: map<string, Feedback>, now: string)
    requires features.Some? ==> IsMatrix(features.value, width)
    requires !Respond(classifier, request, save, features, width, net, soundFeedback, now).body.success
    ensures var r := Respond(classifier, request, save, features, width, net, soundFeedback, now);
      && Dispatch(Response(r.status, Some(r.body))) == ShowError(Verbatim(ServerErrorText(r.status)))
      && Dispatch(Response(r.status, Some(r.body))) != ShowError(Verbatim(r.body.error.value))
  {
    var r := Respond(classifier, request, save, features, width, net, soundFeedback, now);
    var m := r.body.error.value;
    assert ServerErrorText(r.status)[0] == 'S';
    assert m[0] != 'S' by {
      ServerTextsDoNotStartWithS(m);
    }
  }

  lemma ServerTextsDoNotStartWithS(m: string)
    requires m in ERROR_MESSAGES
    ensures |m| > 0 && m[0] != 'S'
  {
  }

  /** The default feedback for an unknown sound is accepted by the client:
      its level parses to LOW, its colour to opaque #757575, and its
      one-entry pattern is a waveform the vibrator accepts, so the engine
      records a waveform request rather than a fallback. That request never
      runs the motor, though: its only entry, 100 ms, is an "off" duration. */
  lemma DefaultFeedbackIsUsable(soundFeedback: map<string, Feedback>, cls: string)
    requires cls !in soundFeedback
    ensures FromString(FeedbackFor(soundFeedback, cls).alertLevel) == LOW
    ensures ParseColor(FeedbackFor(soundFeedback, cls).color) == Some(0xFF75_7575)
    ensures WaveformAccepted(FeedbackFor(soundFeedback, cls).vibrationPattern)
    ensures !WaveformVibrates(FeedbackFor(soundFeedback, cls).vibrationPattern)
  {
    KeywordsParse();
    var s := "#757575";
    assert s[1..] == "757575" && AllHex(s[1..]);
    HexOfSix(s[1..]);
    assert HexValue('7') == 7 && HexValue('5') == 5;
    OpaqueHex(s);
    assert FeedbackFor(soundFeedback, cls).vibrationPattern[0] > 0;
  }
}
