/** The feedback engine (utilities/FeedbackManager.kt): the per-level policy
    tables, the platform's colour parser, the effect state as a record with
    one pure transition per operation, and the class whose methods carry out
    those transitions field by field. */
module FeedbackEngine {
  import opened Wrappers
  import opened Text
  import opened ApiModels

  /** An Android colour int, read as an unsigned 32-bit ARGB word. */
  type Color = c: nat | c < 0x1_0000_0000

  const WHITE: Color := 0xFFFF_FFFF
  const BLACK: Color := 0xFF00_0000
  const RED: Color := 0xFFFF_0000
  /** VibrationEffect.DEFAULT_AMPLITUDE. */
  const DEFAULT_AMPLITUDE: int := -1
  /** The `repeat` index that makes a waveform play once. */
  const NO_REPEAT: int := -1
  /** Delay after which a simple flash restores the background. */
  const FLASH_MS: nat := 500
  /** Delay after which a CRITICAL alert releases the screen. */
  const KEEP_SCREEN_ON_MS: nat := 10000

  // ---------------------------------------------------------------------
  // Color.parseColor

  predicate IsHexDigit(c: char) {
    IsDigit(c) || 'a' <= c <= 'f' || 'A' <= c <= 'F'
  }

  predicate AllHex(s: string) {
    forall i :: 0 <= i < |s| ==> IsHexDigit(s[i])
  }

  function HexValue(c: char): (v: nat)
    requires IsHexDigit(c)
    ensures v < 16
  {
    if IsDigit(c) then c as int - '0' as int
    else if 'a' <= c <= 'f' then c as int - 'a' as int + 10
    else c as int - 'A' as int + 10
  }

  function Pow16(k: nat): (p: nat)
    ensures p >= 1
  {
    if k == 0 then 1 else 16 * Pow16(k - 1)
  }

  /** The value of a string of hex digits, most significant first. */
  function HexNumber(s: string): (n: nat)
    requires AllHex(s)
    ensures n < Pow16(|s|)
  {
    if s == [] then 0 else HexNumber(s[..|s| - 1]) * 16 + HexValue(s[|s| - 1])
  }

  /** The colour names the platform's parser knows, keyed in lower case. */
  const NAMED_COLORS: map<string, Color> := map[
    "black" := 0xFF00_0000, "darkgray" := 0xFF44_4444, "gray" := 0xFF88_8888,
    "lightgray" := 0xFFCC_CCCC, "white" := 0xFFFF_FFFF, "red" := 0xFFFF_0000,
    "green" := 0xFF00_FF00, "blue" := 0xFF00_00FF, "yellow" := 0xFFFF_FF00,
    "cyan" := 0xFF00_FFFF, "magenta" := 0xFFFF_00FF, "aqua" := 0xFF00_FFFF,
    "fuchsia" := 0xFFFF_00FF, "darkgrey" := 0xFF44_4444, "grey" := 0xFF88_8888,
    "lightgrey" := 0xFFCC_CCCC, "lime" := 0xFF00_FF00, "maroon" := 0xFF80_0000,
    "navy" := 0xFF00_0080, "olive" := 0xFF80_8000, "purple" := 0xFF80_0080,
    "silver" := 0xFFC0_C0C0, "teal" := 0xFF00_8080]

  /** Color.parseColor: "#RRGGBB" (opaque), "#AARRGGBB", or a colour name;
      `None` where the platform throws. */
  function ParseColor(s: string): (r: Option<Color>)
    ensures |s| == 7 && s[0] == '#' && AllHex(s[1..]) ==> r == Some(0xFF00_0000 + HexNumber(s[1..]))
    ensures |s| == 9 && s[0] == '#' && AllHex(s[1..]) ==> r == Some(HexNumber(s[1..]))
    ensures |s| > 0 && s[0] == '#' && !(|s| in {7, 9} && AllHex(s[1..])) ==> r == None
    ensures (s == [] || s[0] != '#') ==> r == (if Lower(s) in NAMED_COLORS then Some(NAMED_COLORS[Lower(s)]) else None)
  {
    if |s| > 0 && s[0] == '#' then
      if |s| == 7 && AllHex(s[1..]) then Some(0xFF00_0000 + HexNumber(s[1..]))
      else if |s| == 9 && AllHex(s[1..]) then Some(HexNumber(s[1..]))
      else None
    else if Lower(s) in NAMED_COLORS then Some(NAMED_COLORS[Lower(s)])
    else None
  }

  // ---------------------------------------------------------------------
  // Per-level policy tables

  datatype AnimationTiming = AnimationTiming(durationMs: nat, repeatCount: nat)

  /** Duration of one flash cycle and the number of repeats. */
  function TimingFor(level: AlertLevel): AnimationTiming {
    match level
    case CRITICAL => AnimationTiming(300, 6)
    case HIGH => AnimationTiming(400, 4)
    case MEDIUM => AnimationTiming(500, 3)
    case LOW => AnimationTiming(600, 2)
  }

  /** The level colour of the simple flash used when the server's colour
      does not parse. */
  function FallbackFlashColor(level: AlertLevel): Color {
    match level
    case CRITICAL => RED
    case HIGH => 0xFFE9_1E63
    case MEDIUM => 0xFFFF_9800
    case LOW => 0xFF4C_AF50
  }

  /** The one-shot vibration used when the server's pattern is refused. */
  function FallbackVibrationMs(level: AlertLevel): nat {
    match level
    case CRITICAL => 1000
    case HIGH => 800
    case MEDIUM => 500
    case LOW => 300
  }

  /** The per-level amplitude that provideHapticFeedback computes and then
      never passes to the vibrator. */
  function AmplitudeFor(level: AlertLevel): int {
    match level
    case CRITICAL => DEFAULT_AMPLITUDE
    case HIGH => 200
    case MEDIUM => 150
    case LOW => 100
  }

  /** Whether a waveform actually runs the motor: createWaveform reads its
      timings as alternating off and on durations, starting with off, so
      only a positive entry at an odd position vibrates. */
  predicate WaveformVibrates(timings: seq<int>) {
    exists i :: 0 <= i < |timings| && i % 2 == 1 && timings[i] > 0
  }

  /** Whether VibrationEffect.createWaveform accepts a timing sequence: no
      negative entry and at least one that is not zero. */
  predicate WaveformAccepted(timings: seq<int>) {
    (forall i :: 0 <= i < |timings| ==> timings[i] >= 0) &&
    (exists i :: 0 <= i < |timings| && timings[i] > 0)
  }

  lemma TimingTable()
    ensures TimingFor(CRITICAL) == AnimationTiming(300, 6)
    ensures TimingFor(HIGH) == AnimationTiming(400, 4)
    ensures TimingFor(MEDIUM) == AnimationTiming(500, 3)
    ensures TimingFor(LOW) == AnimationTiming(600, 2)
  {
  }

  /** A more severe level flashes faster and more often. */
  lemma TimingStrictlyMonotone(a: AlertLevel, b: AlertLevel)
    requires LessSevere(a, b)
    ensures TimingFor(b).durationMs < TimingFor(a).durationMs
    ensures TimingFor(b).repeatCount > TimingFor(a).repeatCount
  {
  }

  /** A more severe level falls back to a longer vibration. */
  lemma FallbackVibrationMonotone(a: AlertLevel, b: AlertLevel)
    requires LessSevere(a, b)
    ensures FallbackVibrationMs(a) < FallbackVibrationMs(b)
  {
  }

  /** flashSimple's palette is what the platform parses from the source's
      literals (red, "#E91E63", "#FF9800", "#4CAF50"), and the four
      colours are distinct. */
  lemma FallbackPaletteParses()
    ensures ParseColor("#E91E63") == Some(FallbackFlashColor(HIGH))
    ensures ParseColor("#FF9800") == Some(FallbackFlashColor(MEDIUM))
    ensures ParseColor("#4CAF50") == Some(FallbackFlashColor(LOW))
    ensures ParseColor("red") == Some(FallbackFlashColor(CRITICAL))
    ensures forall a, b :: a != b ==> FallbackFlashColor(a) != FallbackFlashColor(b)
  {
    ParsesPink();
    ParsesOrange();
    ParsesGreen();
    NamedRed();
  }

  lemma ParsesPink()
    ensures ParseColor("#E91E63") == Some(0xFFE9_1E63)
  {
    var s := "#E91E63";
    assert s[1..] == "E91E63" && AllHex(s[1..]);
    HexOfSix(s[1..]);
    assert HexValue('E') == 14 && HexValue('9') == 9 && HexValue('1') == 1 && HexValue('6') == 6 && HexValue('3') == 3;
    OpaqueHex(s);
  }

  lemma ParsesOrange()
    ensures ParseColor("#FF9800") == Some(0xFFFF_9800)
  {
    var s := "#FF9800";
    assert s[1..] == "FF9800" && AllHex(s[1..]);
    HexOfSix(s[1..]);
    assert HexValue('F') == 15 && HexValue('9') == 9 && HexValue('8') == 8 && HexValue('0') == 0;
    OpaqueHex(s);
  }

  lemma ParsesGreen()
    ensures ParseColor("#4CAF50") == Some(0xFF4C_AF50)
  {
    var s := "#4CAF50";
    assert s[1..] == "4CAF50" && AllHex(s[1..]);
    HexOfSix(s[1..]);
    assert HexValue('4') == 4 && HexValue('C') == 12 && HexValue('A') == 10 && HexValue('F') == 15
      && HexValue('5') == 5 && HexValue('0') == 0;
    OpaqueHex(s);
  }

  lemma NamedRed()
    ensures ParseColor("red") == Some(RED)
  {
    assert Lower("red") == "red";
  }

  /** How ParseColor reads a "#" followed by six hex digits. */
  lemma OpaqueHex(s: string)
    requires |s| == 7 && s[0] == '#' && AllHex(s[1..])
    ensures ParseColor(s) == Some(0xFF00_0000 + HexNumber(s[1..]))
  {
  }

  /** The value of six hex digits, digit by digit. */
  lemma HexOfSix(s: string)
    requires |s| == 6 && AllHex(s)
    ensures HexNumber(s) == ((((HexValue(s[0]) * 16 + HexValue(s[1])) * 16 + HexValue(s[2])) * 16
                              + HexValue(s[3])) * 16 + HexValue(s[4])) * 16 + HexValue(s[5])
  {
    assert HexNumber(s[..1]) == HexValue(s[0]) by {
      assert s[..1][..0] == [];
    }
    assert HexNumber(s[..2]) == HexNumber(s[..1]) * 16 + HexValue(s[1]) by {
      assert s[..2][..1] == s[..1];
    }
    assert HexNumber(s[..3]) == HexNumber(s[..2]) * 16 + HexValue(s[2]) by {
      assert s[..3][..2] == s[..2];
    }
    assert HexNumber(s[..4]) == HexNumber(s[..3]) * 16 + HexValue(s[3]) by {
      assert s[..4][..3] == s[..3];
    }
    assert HexNumber(s[..5]) == HexNumber(s[..4]) * 16 + HexValue(s[4]) by {
      assert s[..5][..4] == s[..4];
    }
    assert HexNumber(s) == HexNumber(s[..5]) * 16 + HexValue(s[5]);
  }

  /** The upper-case hex digit for `d`. */
  function HexChar(d: nat): (c: char)
    requires d < 16
    ensures IsHexDigit(c) && HexValue(c) == d
  {
    if d < 10 then DigitChar(d) else ('A' as int + d - 10) as char
  }

  /** The last `k` hex digits of `n`, most significant first: how a server
      would print a colour as "%06X" or "%08X". */
  function HexDigits(n: nat, k: nat): (s: string)
    ensures |s| == k && AllHex(s)
  {
    if k == 0 then [] else HexDigits(n / 16, k - 1) + [HexChar(n % 16)]
  }

  /** Reading printed hex digits back gives the number printed, when the
      digits are enough to hold it. */
  lemma {:induction false} HexDigitsRoundTrip(n: nat, k: nat)
    requires n < Pow16(k)
    ensures HexNumber(HexDigits(n, k)) == n
  {
    if k > 0 {
      var s := HexDigits(n, k);
      assert s[..|s| - 1] == HexDigits(n / 16, k - 1);
      assert n / 16 < Pow16(k - 1);
      HexDigitsRoundTrip(n / 16, k - 1);
    }
  }

  lemma Pow16Values()
    ensures Pow16(6) == 0x100_0000 && Pow16(8) == 0x1_0000_0000
  {
    assert Pow16(2) == 0x100;
    assert Pow16(4) == 0x1_0000;
    assert Pow16(6) == 0x100_0000;
  }

  /** Colour parsing inverts hex printing: "#" and six digits give the opaque
      colour, "#" and eight digits give the colour itself. */
  lemma ParseColorReadsPrintedHex(rgb: nat, argb: Color)
    requires rgb < 0x100_0000
    ensures ParseColor("#" + HexDigits(rgb, 6)) == Some(0xFF00_0000 + rgb)
    ensures ParseColor("#" + HexDigits(argb, 8)) == Some(argb)
  {
    Pow16Values();
    var six, eight := HexDigits(rgb, 6), HexDigits(argb, 8);
    HexDigitsRoundTrip(rgb, 6);
    HexDigitsRoundTrip(argb, 8);
    assert ("#" + six)[1..] == six;
    assert ("#" + eight)[1..] == eight;
  }

  // ---------------------------------------------------------------------
  // Effect state and its transitions

  /** A started ValueAnimator: its colour keyframes, its timing, and whether
      its update listener also paints the status bar. */
  datatype Animation = Animation(
    keyframes: seq<Color>, durationMs: nat, repeatCount: nat, tintsStatusBar: bool)

  /** One request handed to the vibrator. */
  datatype Vibration = Waveform(timings: seq<int>, repeat: int) | OneShot(durationMs: nat, amplitude: int)

  /** A callback posted with `postDelayed`. */
  datatype Deferred = RestoreBackground(color: Color) | ReleaseScreen
  datatype Pending = Pending(delayMs: nat, action: Deferred)

  /** Everything the engine changes: the current animation and whether it is
      still running, the target view's background, the status bar, the
      keep-screen-on window flag, and logs of the animators cancelled, the
      vibrations requested and the callbacks posted but not yet run. */
  datatype FeedbackState = FeedbackState(
    currentAnimation: Option<Animation>,
    animationRunning: bool,
    background: Color,
    statusBarColor: Color,
    keepScreenOn: bool,
    cancelled: seq<Animation>,
    vibrations: seq<Vibration>,
    pending: seq<Pending>)

  /** Only the current animation can be running. */
  predicate Consistent(s: FeedbackState) {
    s.animationRunning ==> s.currentAnimation.Some?
  }

  /** The animator provideVisualFeedback builds: white, the alert colour,
      white again, timed by the level. */
  function NewAnimation(color: Color, level: AlertLevel): Animation {
    Animation([WHITE, color, WHITE], TimingFor(level).durationMs, TimingFor(level).repeatCount,
              level == CRITICAL || level == HIGH)
  }

  /** `currentAnimation?.cancel()`. */
  function CancelCurrent(s: FeedbackState): FeedbackState {
    match s.currentAnimation
    case None => s
    case Some(a) => s.(cancelled := s.cancelled + [a], animationRunning := false)
  }

  function SimpleFlash(s: FeedbackState, level: AlertLevel): FeedbackState {
    s.(background := FallbackFlashColor(level),
       pending := s.pending + [Pending(FLASH_MS, RestoreBackground(WHITE))])
  }

  /** provideVisualFeedback. A ValueAnimator started without a start delay
      delivers its first keyframe to the update listeners inside `start()`,
      so the new animation's white first frame is painted at once. */
  function Visual(s: FeedbackState, colorHex: string, level: AlertLevel): FeedbackState {
    match ParseColor(colorHex)
    case None => SimpleFlash(s, level)
    case Some(c) =>
      Frame(CancelCurrent(s).(currentAnimation := Some(NewAnimation(c, level)), animationRunning := true), WHITE)
  }

  function OneShotFallback(s: FeedbackState, level: AlertLevel): FeedbackState {
    s.(vibrations := s.vibrations + [OneShot(FallbackVibrationMs(level), DEFAULT_AMPLITUDE)])
  }

  function Haptic(s: FeedbackState, hasVibrator: bool, pattern: seq<int>, level: AlertLevel): FeedbackState {
    if !hasVibrator then s
    else if WaveformAccepted(pattern) then s.(vibrations := s.vibrations + [Waveform(pattern, NO_REPEAT)])
    else OneShotFallback(s, level)
  }

  function Provide(s: FeedbackState, hasVibrator: bool, feedback: Feedback): FeedbackState {
    var level := FromString(feedback.alertLevel);
    var s' := Haptic(Visual(s, feedback.color, level), hasVibrator, feedback.vibrationPattern, level);
    if level == CRITICAL then
      s'.(keepScreenOn := true, pending := s'.pending + [Pending(KEEP_SCREEN_ON_MS, ReleaseScreen)])
    else s'
  }

  function CancelAll(s: FeedbackState): FeedbackState {
    CancelCurrent(s).(currentAnimation := None, statusBarColor := BLACK, keepScreenOn := false)
  }

  /** One update of the running animator's listeners with colour `c`. */
  function Frame(s: FeedbackState, c: Color): FeedbackState
    requires s.currentAnimation.Some?
  {
    s.(background := c,
       statusBarColor := if s.currentAnimation.value.tintsStatusBar then c else s.statusBarColor)
  }

  /** The animator finishing on its last keyframe. */
  function AnimationEnd(s: FeedbackState): FeedbackState
    requires s.currentAnimation.Some?
  {
    Frame(s, WHITE).(animationRunning := false)
  }

  /** Running the `i`-th posted callback. */
  function RunPending(s: FeedbackState, i: nat): FeedbackState
    requires i < |s.pending|
  {
    var rest := s.pending[..i] + s.pending[i + 1..];
    match s.pending[i].action
    case RestoreBackground(c) => s.(background := c, pending := rest)
    case ReleaseScreen => s.(keepScreenOn := false, pending := rest)
  }

  // ---------------------------------------------------------------------
  // Properties of the transitions

  /** A parsable colour replaces the current animation, after cancelling the
      previous one; its first frame paints the background white, and the
      status bar too for CRITICAL and HIGH; nothing else changes. */
  lemma VisualLastResultWins(s: FeedbackState, colorHex: string, level: AlertLevel)
    requires ParseColor(colorHex).Some?
    ensures var r := Visual(s, colorHex, level);
      && r.currentAnimation == Some(NewAnimation(ParseColor(colorHex).value, level))
      && r.animationRunning
      && r.cancelled == s.cancelled + (if s.currentAnimation.Some? then [s.currentAnimation.value] else [])
      && r.background == WHITE
      && r.statusBarColor == (if level == CRITICAL || level == HIGH then WHITE else s.statusBarColor)
      && r.keepScreenOn == s.keepScreenOn && r.vibrations == s.vibrations && r.pending == s.pending
  {
  }

  /** An unparsable colour leaves the animation alone: nothing is cancelled
      or replaced; the background takes the level colour and a callback to
      restore white is posted for 500 ms later. */
  lemma VisualFallbackKeepsAnimation(s: FeedbackState, colorHex: string, level: AlertLevel)
    requires ParseColor(colorHex).None?
    ensures var r := Visual(s, colorHex, level);
      && r.currentAnimation == s.currentAnimation && r.animationRunning == s.animationRunning
      && r.cancelled == s.cancelled
      && r.background == FallbackFlashColor(level)
      && r.pending == s.pending + [Pending(FLASH_MS, RestoreBackground(WHITE))]
      && r.statusBarColor == s.statusBarColor && r.keepScreenOn == s.keepScreenOn
      && RunPending(r, |r.pending| - 1).background == WHITE
  {
  }

  /** The animation's frames reach the status bar only for CRITICAL and HIGH
      alerts. */
  lemma StatusBarOnlyForSevere(s: FeedbackState, colorHex: string, level: AlertLevel, c: Color)
    requires ParseColor(colorHex).Some?
    ensures var r := Visual(s, colorHex, level);
      Frame(r, c).statusBarColor == (if level == CRITICAL || level == HIGH then c else s.statusBarColor)
  {
  }

  /** Haptic feedback: nothing without a vibrator; otherwise an accepted
      pattern goes out unmodified and unrepeated, and a refused one becomes
      the level's one-shot fallback. */
  lemma HapticPassesPatternThrough(s: FeedbackState, hasVibrator: bool, pattern: seq<int>, level: AlertLevel)
    ensures !hasVibrator ==> Haptic(s, hasVibrator, pattern, level) == s
    ensures hasVibrator && WaveformAccepted(pattern) ==>
      Haptic(s, hasVibrator, pattern, level) == s.(vibrations := s.vibrations + [Waveform(pattern, NO_REPEAT)])
    ensures hasVibrator && !WaveformAccepted(pattern) ==>
      Haptic(s, hasVibrator, pattern, level) ==
        s.(vibrations := s.vibrations + [OneShot(FallbackVibrationMs(level), DEFAULT_AMPLITUDE)])
  {
  }

  /** The level's amplitude is never applied: an accepted pattern vibrates
      the same way whatever the level. */
  lemma AmplitudeNeverApplied(s: FeedbackState, hasVibrator: bool, pattern: seq<int>, a: AlertLevel, b: AlertLevel)
    requires WaveformAccepted(pattern)
    ensures a != b ==> AmplitudeFor(a) != AmplitudeFor(b)
    ensures Haptic(s, hasVibrator, pattern, a) == Haptic(s, hasVibrator, pattern, b)
  {
  }

  /** Keep-screen-on is switched on only by a CRITICAL alert, which also
      posts the callback that clears it 10000 ms later; running that
      callback clears the flag. */
  lemma KeepScreenOnOnlyForCritical(s: FeedbackState, hasVibrator: bool, feedback: Feedback)
    ensures var level := FromString(feedback.alertLevel);
      var r := Provide(s, hasVibrator, feedback);
      && (level == CRITICAL ==> r.keepScreenOn && r.pending[|r.pending| - 1] == Pending(KEEP_SCREEN_ON_MS, ReleaseScreen)
                                && !RunPending(r, |r.pending| - 1).keepScreenOn)
      && (level != CRITICAL ==> r.keepScreenOn == s.keepScreenOn
                                && (forall i :: |s.pending| <= i < |r.pending| ==> r.pending[i].action != ReleaseScreen))
  {
  }

  /** cancelAllFeedback: no current animation, nothing running, a black
      status bar and keep-screen-on cleared; the previous animation, if any,
      is the one cancelled. */
  lemma CancelAllResets(s: FeedbackState)
    requires Consistent(s)
    ensures var r := CancelAll(s);
      && r.currentAnimation.None? && !r.animationRunning
      && r.statusBarColor == BLACK && !r.keepScreenOn
      && r.cancelled == s.cancelled + (if s.currentAnimation.Some? then [s.currentAnimation.value] else [])
      && r.background == s.background && r.vibrations == s.vibrations && r.pending == s.pending
  {
  }

  /** cancelAllFeedback is safe when nothing is active and calling it twice
      is calling it once. */
  lemma CancelAllIdempotent(s: FeedbackState)
    requires Consistent(s)
    ensures CancelAll(CancelAll(s)) == CancelAll(s)
    ensures s.currentAnimation.None? && s.statusBarColor == BLACK && !s.keepScreenOn ==> CancelAll(s) == s
  {
  }

  // ---------------------------------------------------------------------
  // The engine object

  /** FeedbackManager: its fields stand for the animator it holds and the
      window, view and vibrator state it changes. */
  class FeedbackManager {
    const hasVibrator: bool
    var currentAnimation: Option<Animation>
    var animationRunning: bool
    var background: Color
    var statusBarColor: Color
    var keepScreenOn: bool
    var cancelled: seq<Animation>
    var vibrations: seq<Vibration>
    var pending: seq<Pending>

    function Snapshot(): FeedbackState
      reads this
    {
      FeedbackState(currentAnimation, animationRunning, background, statusBarColor,
                    keepScreenOn, cancelled, vibrations, pending)
    }

    ghost predicate Valid()
      reads this
    {
      Consistent(Snapshot())
    }

    constructor (hasVibrator: bool, background: Color, statusBarColor: Color)
      ensures Valid() && this.hasVibrator == hasVibrator
      ensures Snapshot() == FeedbackState(None, false, background, statusBarColor, false, [], [], [])
    {
      this.hasVibrator := hasVibrator;
      currentAnimation := None;
      animationRunning := false;
      this.background := background;
      this.statusBarColor := statusBarColor;
      keepScreenOn := false;
      cancelled, vibrations, pending := [], [], [];
    }

    method ProvideFeedback(feedback: Feedback)
      requires Valid()
      modifies this
      ensures Valid()
      ensures Snapshot() == Provide(old(Snapshot()), hasVibrator, feedback)
    {
      var alertLevel := FromString(feedback.alertLevel);
      ProvideVisualFeedback(feedback.color, alertLevel);
      ProvideHapticFeedback(feedback.vibrationPattern, alertLevel);
      if alertLevel == CRITICAL {
        KeepScreenOn(true);
        pending := pending + [Pending(KEEP_SCREEN_ON_MS, ReleaseScreen)];
      }
    }

    method ProvideVisualFeedback(colorHex: string, alertLevel: AlertLevel)
      requires Valid()
      modifies this
      ensures Valid()
      ensures Snapshot() == Visual(old(Snapshot()), colorHex, alertLevel)
    {
      var parsed := ParseColor(colorHex);
      if parsed.None? {
        FlashSimple(alertLevel);
        return;
      }
      if currentAnimation.Some? {
        cancelled := cancelled + [currentAnimation.value];
        animationRunning := false;
      }
      currentAnimation := Some(NewAnimation(parsed.value, alertLevel));
      animationRunning := true;
      OnAnimationFrame(WHITE);
    }

    method ProvideHapticFeedback(pattern: seq<int>, alertLevel: AlertLevel)
      requires Valid()
      modifies this
      ensures Valid()
      ensures Snapshot() == Haptic(old(Snapshot()), hasVibrator, pattern, alertLevel)
    {
      if !hasVibrator {
        return;
      }
      if WaveformAccepted(pattern) {
        vibrations := vibrations + [Waveform(pattern, NO_REPEAT)];
      } else {
        FallbackVibration(alertLevel);
      }
    }

    method FlashSimple(alertLevel: AlertLevel)
      requires Valid()
      modifies this
      ensures Valid()
      ensures Snapshot() == SimpleFlash(old(Snapshot()), alertLevel)
    {
      background := FallbackFlashColor(alertLevel);
      pending := pending + [Pending(FLASH_MS, RestoreBackground(WHITE))];
    }

    method FallbackVibration(alertLevel: AlertLevel)
      requires Valid()
      modifies this
      ensures Valid()
      ensures Snapshot() == OneShotFallback(old(Snapshot()), alertLevel)
    {
      vibrations := vibrations + [OneShot(FallbackVibrationMs(alertLevel), DEFAULT_AMPLITUDE)];
    }

    method KeepScreenOn(keepOn: bool)
      requires Valid()
      modifies this
      ensures Valid()
      ensures Snapshot() == old(Snapshot()).(keepScreenOn := keepOn)
    {
      keepScreenOn := keepOn;
    }

    method CancelAllFeedback()
      requires Valid()
      modifies this
      ensures Valid()
      ensures Snapshot() == CancelAll(old(Snapshot()))
    {
      if currentAnimation.Some? {
        cancelled := cancelled + [currentAnimation.value];
        animationRunning := false;
      }
      currentAnimation := None;
      statusBarColor := BLACK;
      KeepScreenOn(false);
    }

    /** The running animator delivering colour `c` to its listeners. */
    method OnAnimationFrame(c: Color)
      requires Valid() && animationRunning
      modifies this
      ensures Valid()
      ensures Snapshot() == Frame(old(Snapshot()), c)
    {
      background := c;
      if currentAnimation.value.tintsStatusBar {
        statusBarColor := c;
      }
    }

    method OnAnimationEnd()
      requires Valid() && animationRunning
      modifies this
      ensures Valid()
      ensures Snapshot() == AnimationEnd(old(Snapshot()))
    {
      OnAnimationFrame(WHITE);
      animationRunning := false;
    }

    /** The view's looper running the `i`-th posted callback. */
    method OnPendingDue(i: nat)
      requires Valid() && i < |pending|
      modifies this
      ensures Valid()
      ensures Snapshot() == RunPending(old(Snapshot()), i)
    {
      var action := pending[i].action;
      pending := pending[..i] + pending[i + 1..];
      match action
      case RestoreBackground(c) => background := c;
      case ReleaseScreen => KeepScreenOn(false);
    }
  }
}
