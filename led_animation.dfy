/**
 * One frame of a light ring (src/main.rs, `generate_pattern` and
 * `scale_brightness`): every 10 ms the LED task turns a ring's mode and the
 * shared brightness into 12 colours and advances that ring's animation
 * counters.
 *
 * The floating-point parts of a frame (the gradient's colour interpolation,
 * the sine-shaped pulse level and `hsv2rgb`) come in as the functions of a
 * `Numerics` value; everything else is the firmware's integer arithmetic.
 */
module LedAnimation {
  import opened Base
  import opened Lighting

  // ----- scale_brightness -----

  /** One channel of `scale_brightness`: `c * scale / 255`, rounded down. */
  function ScaleChannel(c: Byte, scale: Byte): (r: Byte)
    ensures r <= c
    ensures r * 255 <= c * scale < (r + 1) * 255
  {
    ScaleBound(c, scale);
    c * scale / 255
  }

  lemma ScaleBound(c: Byte, scale: Byte)
    ensures c * scale / 255 <= c
  {
    MulLeft(c, scale, 255);
  }

  lemma {:induction false} MulLeft(c: nat, x: nat, y: nat)
    requires x <= y
    ensures c * x <= c * y
    ensures c * x / 255 <= c * y / 255
  {
    if c > 0 {
      MulLeft(c - 1, x, y);
    }
  }

  /**
   * `scale_brightness`: each channel scaled by `scale / 255`, rounded down.
   * Scaling never brightens; 255 leaves the colour alone and 0 gives black.
   * The `u16` products are at most 255 * 255, so nothing overflows.
   */
  function ScaleBrightness(color: RGB, scale: Byte): (r: RGB)
    ensures r.r <= color.r && r.g <= color.g && r.b <= color.b
    ensures scale == 255 ==> r == color
    ensures scale == 0 ==> r == Black
    ensures r.r * 255 <= color.r * scale < (r.r + 1) * 255
    ensures r.g * 255 <= color.g * scale < (r.g + 1) * 255
    ensures r.b * 255 <= color.b * scale < (r.b + 1) * 255
  {
    RGB(ScaleChannel(color.r, scale), ScaleChannel(color.g, scale), ScaleChannel(color.b, scale))
  }

  /** A larger scale never gives a dimmer channel. */
  lemma ScaleMonotone(color: RGB, s1: Byte, s2: Byte)
    requires s1 <= s2
    ensures ScaleBrightness(color, s1).r <= ScaleBrightness(color, s2).r
    ensures ScaleBrightness(color, s1).g <= ScaleBrightness(color, s2).g
    ensures ScaleBrightness(color, s1).b <= ScaleBrightness(color, s2).b
  {
    MulLeft(color.r, s1, s2);
    MulLeft(color.g, s1, s2);
    MulLeft(color.b, s1, s2);
  }

  // ----- frame specification -----

  /** `PatternState`: the per-ring animation counters. */
  datatype Counters = Counters(position: Byte, hue: Byte, pulsePhase: U16)

  /** Why a frame panics. */
  datatype Panic =
    | DivideByZero   // `%` by a zero pulse period
    | Overflow       // checked `u8` arithmetic of the chase or the pulse range

  datatype Frame = Frame(colors: seq<RGB>, next: Counters) | Panicked(reason: Panic)

  /**
   * The floating-point computations of a frame, outside this model:
   * `interpolate_color(start, end, i / 11)`, the pulse brightness
   * `(min + (max - min) * (sin(2π phase / period) + 1) / 2) as u8`, and `hsv2rgb`.
   */
  datatype Numerics = Numerics(
    interpolate: (RGB, RGB, nat) -> RGB,
    pulseLevel: (U16, U16, Byte, Byte) -> Byte,
    hsv: (Byte, Byte, Byte) -> RGB)

  /** `(speed_ms / 10).max(1)`: frames per animation step at 10 ms per frame. */
  function FramesPerStep(speedMs: U16): (n: nat)
    ensures 1 <= n <= 6553
  {
    Max(speedMs / 10, 1)
  }

  /**
   * The chase's step on the ring, `(position / frames_per_step) % 12`, with the
   * division done in `u16` (see `ChaseStepAsWritten` for the firmware's `u8`
   * divisor).
   */
  function ChaseStep(position: Byte, speedMs: U16): (s: nat)
    ensures s < LED_COUNT
  {
    (position / FramesPerStep(speedMs)) % LED_COUNT
  }

  /**
   * The chase step as the firmware writes it: the divisor is cast to `u8`,
   * which truncates it modulo 256 and leaves 0 whenever `speed_ms / 10` is a
   * multiple of 256; `None` is the division-by-zero panic.
   */
  function ChaseStepAsWritten(position: Byte, speedMs: U16): (r: Option<nat>)
    ensures r.None? <==> FramesPerStep(speedMs) % 0x100 == 0
    ensures r.Some? ==> r.value < LED_COUNT
  {
    var divisor := FramesPerStep(speedMs) % 0x100;
    if divisor == 0 then None else Some((position / divisor) % LED_COUNT)
  }

  /**
   * A chase of documented length at 2560 ms per step divides by zero on every
   * frame, and so does every speed from 2560 ms on whose tenth is a multiple of 256.
   */
  lemma ChaseStepAsWrittenDividesByZero(position: Byte, speedMs: U16)
    ensures var p := NewChase(RGB(255, 0, 0), 6, 2560);
      1 <= p.length <= LED_COUNT && ChaseStepAsWritten(position, p.speedMs).None?
    ensures ChaseStepAsWritten(position, speedMs).None? <==> speedMs >= 2560 && (speedMs / 10) % 0x100 == 0
  {
  }

  /** Below 2560 ms per step the `u16` division agrees with the firmware's. */
  lemma ChaseStepAgrees(position: Byte, speedMs: U16)
    requires speedMs < 2560
    ensures ChaseStepAsWritten(position, speedMs) == Some(ChaseStep(position, speedMs))
  {
  }

  /**
   * How far LED `k` is from the head of the chase, counted in the direction
   * the chase paints: `k` is lit when this is below the chase length.
   */
  function ChaseOffset(clockwise: bool, step: nat, k: int): nat {
    if clockwise then (k - step) % LED_COUNT else (step - k) % LED_COUNT
  }

  /** The LED the firmware paints in iteration `i`: `(step + i) % 12` or `(12 + step - i) % 12`. */
  function ChasePosition(clockwise: bool, step: nat, i: nat): nat {
    if clockwise then (step + i) % LED_COUNT else (LED_COUNT + step - i) % LED_COUNT
  }

  /**
   * The chase loop's `u8` arithmetic fails: clockwise `step + i` exceeds 255, or
   * counter-clockwise `12 + step - i` drops below 0, for some `i < length`.
   */
  predicate ChaseOverflows(p: ChasePattern, step: nat) {
    p.length > 0
    && if p.clockwise then step + p.length - 1 > U8_MAX else p.length - 1 > LED_COUNT + step
  }

  /**
   * The chase part of `generate_pattern`: it panics exactly when the painting
   * loop's `u8` arithmetic overflows, and otherwise moves only `position`.
   */
  function ChaseFrame(p: ChasePattern, c: Counters, brightness: Byte): (f: Frame)
    ensures f.Panicked? <==> ChaseOverflows(p, ChaseStep((c.position + 1) % 0x100, p.speedMs))
    ensures f.Frame? ==> |f.colors| == LED_COUNT && f.next == c.(position := (c.position + 1) % 0x100)
  {
    var position := WrappingAddU8(c.position, 1);
    var step := ChaseStep(position, p.speedMs);
    if ChaseOverflows(p, step) then Panicked(Overflow)
    else
      var fg := ScaleBrightness(p.color, brightness);
      var bg := ScaleBrightness(p.background, brightness);
      Frame(seq(LED_COUNT, k => if ChaseOffset(p.clockwise, step, k) < p.length then fg else bg),
            c.(position := position))
  }

  /**
   * The pulse part of `generate_pattern`: it panics on a zero period (`%`) or an
   * inverted range (`max - min`), and otherwise moves only `pulse_phase`.
   */
  function PulseFrame(p: PulsePattern, c: Counters, brightness: Byte, ext: Numerics): (f: Frame)
    ensures p.periodMs == 0 ==> f == Panicked(DivideByZero)
    ensures p.periodMs > 0 && p.minBrightness > p.maxBrightness ==> f == Panicked(Overflow)
    ensures f.Frame? ==> |f.colors| == LED_COUNT && f.next == c.(pulsePhase := (c.pulsePhase + 10) % 0x1_0000)
  {
    var phase := WrappingAddU16(c.pulsePhase, 10);
    if p.periodMs == 0 then Panicked(DivideByZero)
    else if p.minBrightness > p.maxBrightness then Panicked(Overflow)
    else
      var level := ext.pulseLevel(phase % p.periodMs, p.periodMs, p.minBrightness, p.maxBrightness);
      var color := ScaleBrightness(ScaleBrightness(p.color, level), brightness);
      Frame(seq(LED_COUNT, _ => color), c.(pulsePhase := phase))
  }

  /** `255 / frames_per_step`: how far the hue moves each frame. */
  function HueStep(speedMs: U16): (h: Byte)
    ensures h * FramesPerStep(speedMs) <= 255 < (h + 1) * FramesPerStep(speedMs)
  {
    255 / FramesPerStep(speedMs)
  }

  /** The rainbow part of `generate_pattern`: it never panics and moves only `hue`. */
  function RainbowFrame(p: RainbowPattern, c: Counters, brightness: Byte, ext: Numerics): (f: Frame)
    ensures f.Frame? && |f.colors| == LED_COUNT
    ensures f.next == c.(hue := (c.hue + HueStep(p.speedMs)) % 0x100)
  {
    var hue := WrappingAddU8(c.hue, HueStep(p.speedMs));
    var colors :=
      if p.spread then seq(LED_COUNT, i => ScaleBrightness(ext.hsv(WrappingAddU8(hue, (i * 21) % 0x100), 255, p.brightness), brightness))
      else seq(LED_COUNT, _ => ScaleBrightness(ext.hsv(hue, 255, p.brightness), brightness));
    Frame(colors, c.(hue := hue))
  }

  /**
   * `generate_pattern`: the 12 colours of one frame and the counters after it.
   * Only a chase or a pulse can panic; the other modes leave the counters alone.
   */
  function Render(mode: Mode, c: Counters, brightness: Byte, ext: Numerics): (f: Frame)
    ensures f.Panicked? ==> mode.Chase? || mode.Pulse?
    ensures f.Frame? ==> |f.colors| == LED_COUNT
    ensures !(mode.Chase? || mode.Pulse? || mode.Rainbow?) ==> f.Frame? && f.next == c
  {
    match mode
    case Off => Frame(seq(LED_COUNT, _ => Black), c)
    case Solid(color) => Frame(seq(LED_COUNT, _ => ScaleBrightness(color, brightness)), c)
    case Gradient(start, end) =>
      Frame(seq(LED_COUNT, i requires 0 <= i < LED_COUNT => ScaleBrightness(ext.interpolate(start, end, i), brightness)), c)
    case Chase(p) => ChaseFrame(p, c, brightness)
    case Pulse(p) => PulseFrame(p, c, brightness, ext)
    case Rainbow(p) => RainbowFrame(p, c, brightness, ext)
    case Custom(p) =>
      Frame(seq(LED_COUNT, i requires 0 <= i < LED_COUNT => ScaleBrightness(p.leds[i], brightness)), c)
  }

  // ----- properties of a frame -----

  /** A frame always has 12 colours, and only the counter of the mode's own animation moves. */
  lemma FrameShape(mode: Mode, c: Counters, brightness: Byte, ext: Numerics)
    requires Render(mode, c, brightness, ext).Frame?
    ensures |Render(mode, c, brightness, ext).colors| == LED_COUNT
    ensures var n := Render(mode, c, brightness, ext).next;
      && (n.position != c.position ==> mode.Chase?)
      && (n.hue != c.hue ==> mode.Rainbow?)
      && (n.pulsePhase != c.pulsePhase ==> mode.Pulse?)
  {
  }

  /** Off is all black; Solid is the scaled colour on every LED; Custom scales each LED. */
  lemma StaticModes(c: Counters, brightness: Byte, ext: Numerics, color: RGB, p: LedPattern, i: nat)
    requires i < LED_COUNT
    ensures Render(Off, c, brightness, ext).colors[i] == Black
    ensures Render(Solid(color), c, brightness, ext).colors[i] == ScaleBrightness(color, brightness)
    ensures Render(Custom(p), c, brightness, ext).colors[i] == ScaleBrightness(p.leds[i], brightness)
    ensures Render(Custom(p), c, 255, ext).colors == p.leds
  {
    var custom := Render(Custom(p), c, 255, ext).colors;
    assert forall k :: 0 <= k < LED_COUNT ==> custom[k] == p.leds[k];
  }

  /**
   * A chase advances `position` by one (mod 256) each frame and, when it does
   * not overflow, lights exactly `min(length, 12)` LEDs: those within `length`
   * of the step, in the chase's direction.
   */
  lemma ChaseLightsRun(p: ChasePattern, c: Counters, brightness: Byte, k: nat)
    requires k < LED_COUNT
    requires ChaseFrame(p, c, brightness).Frame?
    ensures ChaseFrame(p, c, brightness).next.position == (c.position + 1) % 256
    ensures var step := ChaseStep((c.position + 1) % 256, p.speedMs);
      ChaseFrame(p, c, brightness).colors[k] ==
        if ChaseOffset(p.clockwise, step, k) < p.length then ScaleBrightness(p.color, brightness)
        else ScaleBrightness(p.background, brightness)
  {
  }

  /** The pulse phase moves by 10 (mod 65536); the ring is one colour, never brighter than the pattern's. */
  lemma PulseUniform(p: PulsePattern, c: Counters, brightness: Byte, ext: Numerics, i: nat)
    requires i < LED_COUNT
    requires PulseFrame(p, c, brightness, ext).Frame?
    ensures PulseFrame(p, c, brightness, ext).next.pulsePhase == (c.pulsePhase + 10) % 0x1_0000
    ensures var f := PulseFrame(p, c, brightness, ext).colors;
      f[i] == f[0] && f[i].r <= p.color.r && f[i].g <= p.color.g && f[i].b <= p.color.b
  {
  }

  /** A pulse panics exactly when its period is 0 or its range is inverted. */
  lemma PulsePanics(p: PulsePattern, c: Counters, brightness: Byte, ext: Numerics)
    ensures PulseFrame(p, c, brightness, ext).Panicked? <==> p.periodMs == 0 || p.minBrightness > p.maxBrightness
  {
  }

  /** The hue moves by `255 / frames_per_step`; it stands still once a step takes 2560 ms or more. */
  lemma RainbowHue(p: RainbowPattern, c: Counters, brightness: Byte, ext: Numerics)
    ensures RainbowFrame(p, c, brightness, ext).next.hue == (c.hue + HueStep(p.speedMs)) % 256
    ensures RainbowFrame(p, c, brightness, ext).next.hue == c.hue <==> p.speedMs >= 2560
  {
    var n := FramesPerStep(p.speedMs);
    if p.speedMs >= 2560 {
      assert n >= 256;
      assert HueStep(p.speedMs) == 0;
    } else {
      assert n <= 255;
      assert HueStep(p.speedMs) >= 1;
    }
  }

  /**
   * A well-formed mode renders a frame and never panics, and a well-formed
   * chase never divides by zero with the firmware's `u8` divisor either.
   */
  lemma WellFormedNeverPanics(mode: Mode, c: Counters, brightness: Byte, ext: Numerics)
    requires WellFormed(mode)
    ensures Render(mode, c, brightness, ext).Frame?
    ensures mode.Chase? ==> forall position: Byte :: ChaseStepAsWritten(position, mode.chase.speedMs).Some?
  {
  }

  /** A chase panics only when it is longer than the documented 12 LEDs. */
  lemma ChaseOverflowNeedsLongChase(p: ChasePattern, step: nat)
    requires step < LED_COUNT && ChaseOverflows(p, step)
    ensures p.length > LED_COUNT + 1
  {
  }

  // ----- ChaseOffset arithmetic -----

  /** `x % 12` is the remainder of any decomposition `12 * q + r`. */
  lemma ModOf(x: int, q: int, r: int)
    requires 0 <= r < LED_COUNT && x == LED_COUNT * q + r
    ensures x % LED_COUNT == r
  {
  }

  /** The LED painted in iteration `i` is at offset `i % 12` from the step. */
  lemma OffsetOfPosition(clockwise: bool, step: nat, i: nat)
    requires step < LED_COUNT
    ensures ChasePosition(clockwise, step, i) < LED_COUNT
    ensures ChaseOffset(clockwise, step, ChasePosition(clockwise, step, i)) == i % LED_COUNT
  {
    var q, r := i / LED_COUNT, i % LED_COUNT;
    var pos := ChasePosition(clockwise, step, i);
    if clockwise {
      if step + r < LED_COUNT {
        ModOf(step + i, q, step + r);
        ModOf(pos - step, 0, r);
      } else {
        ModOf(step + i, q + 1, step + r - LED_COUNT);
        ModOf(pos - step, -1, r);
      }
    } else {
      if r <= step {
        ModOf(LED_COUNT + step - i, 1 - q, step - r);
        ModOf(step - pos, 0, r);
      } else {
        ModOf(LED_COUNT + step - i, -q, LED_COUNT + step - r);
        ModOf(step - pos, -1, r);
      }
    }
  }

  /** The offset of an LED from the step, in either direction. */
  lemma OffsetValue(clockwise: bool, step: nat, k: nat)
    requires step < LED_COUNT && k < LED_COUNT
    ensures var d := if clockwise then k - step else step - k;
      ChaseOffset(clockwise, step, k) == if d >= 0 then d else d + LED_COUNT
  {
    var d := if clockwise then k - step else step - k;
    if d >= 0 {
      ModOf(d, 0, d);
    } else {
      ModOf(d, -1, d + LED_COUNT);
    }
  }

  /** Different LEDs are at different offsets from the step. */
  lemma OffsetInjective(clockwise: bool, step: nat, k1: nat, k2: nat)
    requires step < LED_COUNT && k1 < LED_COUNT && k2 < LED_COUNT
    requires ChaseOffset(clockwise, step, k1) == ChaseOffset(clockwise, step, k2)
    ensures k1 == k2
  {
    OffsetValue(clockwise, step, k1);
    OffsetValue(clockwise, step, k2);
  }

  // ----- the imperative frame -----

  /** `colors.fill(color)` */
  method Fill(colors: array<RGB>, color: RGB)
    modifies colors
    ensures forall k :: 0 <= k < colors.Length ==> colors[k] == color
  {
    for i := 0 to colors.Length
      invariant forall k :: 0 <= k < i ==> colors[k] == color
    {
      colors[i] := color;
    }
  }

  /** Painting the LED of iteration `i` extends the lit run to offset `i`. */
  lemma PaintedLed(clockwise: bool, step: nat, i: nat, k: nat)
    requires step < LED_COUNT && k < LED_COUNT
    ensures ChasePosition(clockwise, step, i) < LED_COUNT
    ensures ChaseOffset(clockwise, step, k) < i + 1 <==>
      ChaseOffset(clockwise, step, k) < i || k == ChasePosition(clockwise, step, i)
  {
    OffsetOfPosition(clockwise, step, i);
    if ChaseOffset(clockwise, step, k) == i {
      OffsetInjective(clockwise, step, k, ChasePosition(clockwise, step, i));
    }
  }

  /**
   * The LED of iteration `i`, in the firmware's `u8` arithmetic; the chase
   * never overflows, so neither does `step + i` or `12 + step - i`.
   */
  method ChaseLed(p: ChasePattern, step: nat, i: Byte) returns (pos: nat)
    requires step < LED_COUNT && i < p.length && !ChaseOverflows(p, step)
    ensures pos == ChasePosition(p.clockwise, step, i)
  {
    if p.clockwise {
      var sum: Byte := step + i;        // checked u8 addition
      pos := sum % LED_COUNT;
    } else {
      var diff: Byte := LED_COUNT + step - i;   // checked u8 subtraction
      pos := diff % LED_COUNT;
    }
  }

  /** The chase loop: paints `length` LEDs from the step on, in the chase's direction. */
  method PaintChase(colors: array<RGB>, p: ChasePattern, step: nat, fg: RGB, bg: RGB)
    requires colors.Length == LED_COUNT && step < LED_COUNT && !ChaseOverflows(p, step)
    requires forall k :: 0 <= k < LED_COUNT ==> colors[k] == bg
    modifies colors
    ensures forall k :: 0 <= k < LED_COUNT ==>
      colors[k] == if ChaseOffset(p.clockwise, step, k) < p.length then fg else bg
  {
    var i: Byte := 0;
    while i < p.length
      invariant i <= p.length
      invariant forall k :: 0 <= k < LED_COUNT ==>
        colors[k] == if ChaseOffset(p.clockwise, step, k) < i then fg else bg
    {
      var pos := ChaseLed(p, step, i);
      forall k | 0 <= k < LED_COUNT {
        PaintedLed(p.clockwise, step, i, k);
      }
      colors[pos] := fg;
      i := i + 1;
    }
  }

  /** `PatternState`: one ring's animation counters, updated in place by each frame. */
  class PatternState {
    var position: Byte
    var hue: Byte
    var pulsePhase: U16

    /** `PatternState::default()` */
    constructor ()
      ensures position == 0 && hue == 0 && pulsePhase == 0
    {
      position, hue, pulsePhase := 0, 0, 0;
    }

    function Snapshot(): Counters
      reads this
    {
      Counters(position, hue, pulsePhase)
    }

    /**
     * `generate_pattern`: fills a fresh 12-colour frame and advances the
     * counters. Modes that would panic are excluded; the firmware aborts on them.
     */
    method GeneratePattern(mode: Mode, brightness: Byte, ext: Numerics) returns (colors: array<RGB>)
      requires Render(mode, Snapshot(), brightness, ext).Frame?
      modifies this
      ensures fresh(colors) && colors.Length == LED_COUNT
      ensures colors[..] == Render(mode, old(Snapshot()), brightness, ext).colors
      ensures Snapshot() == Render(mode, old(Snapshot()), brightness, ext).next
    {
      ghost var f := Render(mode, Snapshot(), brightness, ext);
      colors := new RGB[LED_COUNT](_ => Black);
      match mode {
        case Off =>
          assert colors[..] == f.colors;
        case Solid(color) =>
          Fill(colors, ScaleBrightness(color, brightness));
          assert colors[..] == f.colors;
        case Gradient(start, end) =>
          for i := 0 to LED_COUNT
            modifies colors
            invariant forall k :: 0 <= k < i ==> colors[k] == ScaleBrightness(ext.interpolate(start, end, k), brightness)
          {
            colors[i] := ScaleBrightness(ext.interpolate(start, end, i), brightness);
          }
          assert colors[..] == f.colors;
        case Chase(p) =>
          position := WrappingAddU8(position, 1);
          var step := ChaseStep(position, p.speedMs);
          var bg := ScaleBrightness(p.background, brightness);
          Fill(colors, bg);
          PaintChase(colors, p, step, ScaleBrightness(p.color, brightness), bg);
          assert colors[..] == f.colors;
        case Pulse(p) =>
          pulsePhase := WrappingAddU16(pulsePhase, 10);
          var phase := pulsePhase % p.periodMs;
          var level := ext.pulseLevel(phase, p.periodMs, p.minBrightness, p.maxBrightness);
          var pulsed := ScaleBrightness(p.color, level);
          Fill(colors, ScaleBrightness(pulsed, brightness));
          assert colors[..] == f.colors;
        case Rainbow(p) =>
          hue := WrappingAddU8(hue, HueStep(p.speedMs));
          if p.spread {
            for i := 0 to LED_COUNT
              modifies colors
              invariant forall k :: 0 <= k < i ==>
                colors[k] == ScaleBrightness(ext.hsv(WrappingAddU8(hue, (k * 21) % 0x100), 255, p.brightness), brightness)
            {
              colors[i] := ScaleBrightness(ext.hsv(WrappingAddU8(hue, (i * 21) % 0x100), 255, p.brightness), brightness);
            }
          } else {
            Fill(colors, ScaleBrightness(ext.hsv(hue, 255, p.brightness), brightness));
          }
          assert colors[..] == f.colors;
        case Custom(p) =>
          for i := 0 to LED_COUNT
            modifies colors
            invariant forall k :: 0 <= k < i ==> colors[k] == ScaleBrightness(p.leds[k], brightness)
          {
            colors[i] := ScaleBrightness(p.leds[i], brightness);
          }
          assert colors[..] == f.colors;
      }
    }
  }
}
