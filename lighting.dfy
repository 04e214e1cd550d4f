/**
 * The light modes of the two 12-LED rings (driver/src/lights.rs): the `Mode`
 * sum type, the pattern records with their constructors and builders, and the
 * preset patterns.
 */
module Lighting {
  import opened Base

  /** `smart_leds::RGB8`: three independent 8-bit channels. */
  datatype RGB = RGB(r: Byte, g: Byte, b: Byte)

  const Black := RGB(0, 0, 0)
  const Amber := RGB(255, 150, 0)

  /** Number of LEDs in each ear's ring. */
  const LED_COUNT := 12

  /** `[RGB8; 12]`: the colours of one ring. */
  type Ring = s: seq<RGB> | |s| == LED_COUNT witness seq(LED_COUNT, _ => Black)

  datatype ChasePattern = ChasePattern(
    color: RGB,
    background: RGB,
    /** documented range 1-12 */
    length: Byte,
    speedMs: U16,
    clockwise: bool)

  datatype PulsePattern = PulsePattern(
    color: RGB,
    minBrightness: Byte,
    maxBrightness: Byte,
    periodMs: U16)

  datatype RainbowPattern = RainbowPattern(speedMs: U16, spread: bool, brightness: Byte)

  datatype LedPattern = LedPattern(leds: Ring, looping: bool)

  /** `lights::Mode`; its derived `Default` is `Off`. */
  datatype Mode =
    | Off
    | Solid(color: RGB)
    | Gradient(start: RGB, end: RGB)
    | Chase(chase: ChasePattern)
    | Pulse(pulse: PulsePattern)
    | Rainbow(rainbow: RainbowPattern)
    | Custom(custom: LedPattern)

  /** `<Mode as Default>::default()` */
  function DefaultMode(): (m: Mode)
    ensures m.Off?
  {
    Off
  }

  /**
   * The ranges the pattern types document or need: a chase is 1-12 LEDs long,
   * a pulse has a non-zero period and a minimum no brighter than its maximum.
   * A chase also needs a frame count per step, `(speed_ms / 10).max(1)`, that
   * the LED task's `u8` cast does not truncate to 0 (2560-2569 ms, 5120-5129 ms, ...).
   */
  predicate WellFormed(m: Mode) {
    match m
    case Chase(p) => 1 <= p.length <= LED_COUNT && Max(p.speedMs / 10, 1) % 0x100 != 0
    case Pulse(p) => p.periodMs > 0 && p.minBrightness <= p.maxBrightness
    case _ => true
  }

  // ----- ChasePattern -----

  /** `ChasePattern::new`: black background, clockwise. */
  function NewChase(color: RGB, length: Byte, speedMs: U16): (p: ChasePattern)
    ensures p.background == Black && p.clockwise
    ensures p.color == color && p.length == length && p.speedMs == speedMs
  {
    ChasePattern(color, Black, length, speedMs, true)
  }

  /** `ChasePattern::with_background` */
  function WithBackground(p: ChasePattern, background: RGB): (q: ChasePattern)
    ensures q.background == background
    ensures q.color == p.color && q.length == p.length && q.speedMs == p.speedMs
    ensures q.clockwise == p.clockwise
  {
    p.(background := background)
  }

  /** `ChasePattern::counter_clockwise` */
  function CounterClockwise(p: ChasePattern): (q: ChasePattern)
    ensures !q.clockwise
    ensures q.color == p.color && q.background == p.background
    ensures q.length == p.length && q.speedMs == p.speedMs
  {
    p.(clockwise := false)
  }

  /** The two chase builders touch disjoint fields, so their order does not matter. */
  lemma ChaseBuildersCommute(p: ChasePattern, background: RGB)
    ensures CounterClockwise(WithBackground(p, background)) == WithBackground(CounterClockwise(p), background)
  {
  }

  // ----- PulsePattern -----

  /** `PulsePattern::new`: full brightness range. */
  function NewPulse(color: RGB, periodMs: U16): (p: PulsePattern)
    ensures p.minBrightness == 0 && p.maxBrightness == 255
    ensures p.color == color && p.periodMs == periodMs
  {
    PulsePattern(color, 0, 255, periodMs)
  }

  /** `PulsePattern::with_brightness_range`; the range is not checked. */
  function WithBrightnessRange(p: PulsePattern, min: Byte, max: Byte): (q: PulsePattern)
    ensures q.minBrightness == min && q.maxBrightness == max
    ensures q.color == p.color && q.periodMs == p.periodMs
  {
    p.(minBrightness := min, maxBrightness := max)
  }

  // ----- RainbowPattern -----

  /** `RainbowPattern::new`: spread over the ring, full brightness. */
  function NewRainbow(speedMs: U16): (p: RainbowPattern)
    ensures p.spread && p.brightness == 255 && p.speedMs == speedMs
  {
    RainbowPattern(speedMs, true, 255)
  }

  /** `RainbowPattern::unified` */
  function Unified(p: RainbowPattern): (q: RainbowPattern)
    ensures !q.spread && q.speedMs == p.speedMs && q.brightness == p.brightness
  {
    p.(spread := false)
  }

  /** `RainbowPattern::with_brightness` */
  function RainbowWithBrightness(p: RainbowPattern, brightness: Byte): (q: RainbowPattern)
    ensures q.brightness == brightness && q.speedMs == p.speedMs && q.spread == p.spread
  {
    p.(brightness := brightness)
  }

  // ----- LedPattern -----

  /** `LedPattern::new` (also its `Default`): every LED black, not looping. */
  function NewLedPattern(): (p: LedPattern)
    ensures forall i :: 0 <= i < LED_COUNT ==> p.leds[i] == Black
    ensures !p.looping
  {
    LedPattern(seq(LED_COUNT, _ => Black), false)
  }

  /** `LedPattern::with_loop` */
  function LedWithLoop(p: LedPattern): (q: LedPattern)
    ensures q.looping && q.leds == p.leds
  {
    p.(looping := true)
  }

  /**
   * `LedPattern::from_colors`: copies exactly 12 colours into a fresh pattern.
   * `from_colors` asserts the length; a wrong length is the caller's panic.
   */
  method FromColors(colors: seq<RGB>) returns (p: LedPattern)
    requires |colors| == LED_COUNT
    ensures forall i :: 0 <= i < LED_COUNT ==> p.leds[i] == colors[i]
    ensures !p.looping
  {
    var leds := new RGB[LED_COUNT](_ => Black);
    var i := 0;
    while i < |colors|
      invariant 0 <= i <= |colors|
      invariant forall k :: 0 <= k < i ==> leds[k] == colors[k]
    {
      leds[i] := colors[i];
      i := i + 1;
    }
    p := LedPattern(leds[..], false);
  }

  // ----- patterns::* presets -----

  /** `patterns::police`: a six-LED red chase on blue, clockwise, a step every 100 ms. */
  function Police(): (m: Mode)
    ensures m == Chase(ChasePattern(RGB(255, 0, 0), RGB(0, 0, 255), 6, 100, true))
  {
    Chase(WithBackground(NewChase(RGB(255, 0, 0), 6, 100), RGB(0, 0, 255)))
  }

  /** `patterns::breathing`: white breathing between 20 and 255 over 3 s. */
  function Breathing(): (m: Mode)
    ensures m == Pulse(PulsePattern(RGB(255, 255, 255), 20, 255, 3000))
  {
    Pulse(WithBrightnessRange(NewPulse(RGB(255, 255, 255), 3000), 20, 255))
  }

  /** `patterns::party`: a fast rainbow spread over the ring. */
  function Party(): (m: Mode)
    ensures m == Rainbow(RainbowPattern(50, true, 255))
  {
    Rainbow(NewRainbow(50))
  }

  /** `patterns::alert`: a full-range red pulse every 500 ms. */
  function Alert(): (m: Mode)
    ensures m == Pulse(PulsePattern(RGB(255, 0, 0), 0, 255, 500))
  {
    Pulse(NewPulse(RGB(255, 0, 0), 500))
  }

  /** `patterns::success`: a green pulse between 50 and 255 every second. */
  function Success(): (m: Mode)
    ensures m == Pulse(PulsePattern(RGB(0, 255, 0), 50, 255, 1000))
  {
    Pulse(WithBrightnessRange(NewPulse(RGB(0, 255, 0), 1000), 50, 255))
  }

  /** `patterns::loading`: a three-LED blue chase on black, a step every 150 ms. */
  function Loading(): (m: Mode)
    ensures m == Chase(ChasePattern(RGB(0, 100, 255), Black, 3, 150, true))
  {
    Chase(NewChase(RGB(0, 100, 255), 3, 150))
  }

  /** `patterns::notification`: a light-blue pulse between 30 and 200 over 2 s. */
  function Notification(): (m: Mode)
    ensures m == Pulse(PulsePattern(RGB(0, 150, 255), 30, 200, 2000))
  {
    Pulse(WithBrightnessRange(NewPulse(RGB(0, 150, 255), 2000), 30, 200))
  }

  /** `patterns::fire`: a red-to-orange gradient. */
  function Fire(): (m: Mode)
    ensures m == Gradient(RGB(255, 0, 0), RGB(255, 150, 0))
  {
    Gradient(RGB(255, 0, 0), RGB(255, 150, 0))
  }

  /** `patterns::ocean`: a blue-to-cyan gradient. */
  function Ocean(): (m: Mode)
    ensures m == Gradient(RGB(0, 0, 255), RGB(0, 255, 255))
  {
    Gradient(RGB(0, 0, 255), RGB(0, 255, 255))
  }

  /** `patterns::cat_eyes`: two amber LEDs on opposite sides of the ring (0 and 6). */
  method CatEyes() returns (m: Mode)
    ensures m.Custom? && !m.custom.looping
    ensures m.custom.leds[0] == Amber && m.custom.leds[6] == Amber
    ensures forall i :: 0 <= i < LED_COUNT && i != 0 && i != 6 ==> m.custom.leds[i] == Black
  {
    var leds := new RGB[LED_COUNT](_ => Black);
    leds[0] := Amber;
    leds[6] := Amber;
    m := Custom(LedPattern(leds[..], false));
  }

  /** Every preset stays inside the documented ranges of its pattern type. */
  lemma PresetsWellFormed()
    ensures WellFormed(Police()) && WellFormed(Breathing()) && WellFormed(Party())
    ensures WellFormed(Alert()) && WellFormed(Success()) && WellFormed(Loading())
    ensures WellFormed(Notification()) && WellFormed(Fire()) && WellFormed(Ocean())
  {
  }
}
