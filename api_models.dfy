/** The client's wire records and the alert-level enumeration
    (data/ApiModels.kt). */
module ApiModels {
  import opened Wrappers
  import opened Text

  /** `data class Prediction`: the predicted class, the model's confidence
      and the server's timestamp. */
  datatype Prediction = Prediction(cls: string, confidence: real, timestamp: string)

  /** `data class Feedback`: the server's feedback for one detection. */
  datatype Feedback = Feedback(
    alertLevel: string,
    color: string,
    vibrationPattern: seq<int>,
    message: string,
    priority: int)

  /** `data class ClassificationResponse`: the body of a /classify reply. */
  datatype ClassificationResponse = ClassificationResponse(
    success: bool,
    prediction: Option<Prediction>,
    feedback: Option<Feedback>,
    error: Option<string>)

  /** `data class HealthResponse`: the body of a /health reply. */
  datatype HealthResponse = HealthResponse(status: string, timestamp: string, modelLoaded: bool)

  /** `enum class AlertLevel`, in declaration order. */
  datatype AlertLevel = LOW | MEDIUM | HIGH | CRITICAL

  /** The enum's `ordinal`: its position in the declaration. */
  function Ordinal(level: AlertLevel): (r: nat)
    ensures r < 4
  {
    match level
    case LOW => 0
    case MEDIUM => 1
    case HIGH => 2
    case CRITICAL => 3
  }

  /** The enum constant's `name`. */
  function Name(level: AlertLevel): string {
    match level
    case LOW => "LOW"
    case MEDIUM => "MEDIUM"
    case HIGH => "HIGH"
    case CRITICAL => "CRITICAL"
  }

  /** Severity as declaration order: `a` is less severe than `b`. */
  predicate LessSevere(a: AlertLevel, b: AlertLevel) {
    Ordinal(a) < Ordinal(b)
  }

  /** `AlertLevel.fromString`: a total, case-insensitive parse in which every
      string it does not recognise means LOW. */
  function FromString(level: string): (r: AlertLevel)
    ensures r == MEDIUM <==> Lower(level) == "medium"
    ensures r == HIGH <==> Lower(level) == "high"
    ensures r == CRITICAL <==> Lower(level) == "critical"
    ensures r == LOW <==> Lower(level) !in {"medium", "high", "critical"}
  {
    var key := Lower(level);
    if key == "low" then LOW
    else if key == "medium" then MEDIUM
    else if key == "high" then HIGH
    else if key == "critical" then CRITICAL
    else LOW
  }

  /** The four lower-case keywords name the four levels. */
  lemma KeywordsParse()
    ensures FromString("low") == LOW
    ensures FromString("medium") == MEDIUM
    ensures FromString("high") == HIGH
    ensures FromString("critical") == CRITICAL
  {
    assert Lower("medium") == "medium";
    assert Lower("high") == "high";
    assert Lower("critical") == "critical";
  }

  /** Parsing ignores case: a string and its lower-case form parse alike. */
  lemma FromStringIgnoresCase(s: string)
    ensures FromString(s) == FromString(Lower(s))
  {
    LowerIdempotent(s);
  }

  /** Strings outside the keywords, even padded ones, parse to LOW. */
  lemma UnrecognisedIsLow()
    ensures FromString("") == LOW
    ensures FromString(" high") == LOW
    ensures FromString("critical ") == LOW
    ensures FromString("severe") == LOW
  {
    assert Lower(" high")[0] == ' ';
    assert Lower("critical ")[8] == ' ';
    assert Lower("severe")[0] == 's';
  }

  /** Every level survives being printed by name and parsed back, both in
      upper case and in lower case. */
  lemma NameRoundTrip(level: AlertLevel)
    ensures FromString(Name(level)) == level
    ensures FromString(Lower(Name(level))) == level
  {
    FromStringIgnoresCase(Name(level));
    match level
    case LOW =>
      assert Lower("LOW") == "low";
    case MEDIUM =>
      assert Lower("MEDIUM") == "medium";
    case HIGH =>
      assert Lower("HIGH") == "high";
    case CRITICAL =>
      assert Lower("CRITICAL") == "critical";
  }

  /** Declaration order is a strict total order on the levels, with LOW the
      least and CRITICAL the most severe. */
  lemma SeverityIsStrictTotalOrder(a: AlertLevel, b: AlertLevel, c: AlertLevel)
    ensures !LessSevere(a, a)
    ensures LessSevere(a, b) && LessSevere(b, c) ==> LessSevere(a, c)
    ensures a == b || LessSevere(a, b) || LessSevere(b, a)
    ensures !(LessSevere(a, b) && LessSevere(b, a))
    ensures a != LOW ==> LessSevere(LOW, a)
    ensures a != CRITICAL ==> LessSevere(a, CRITICAL)
  {
  }
}
