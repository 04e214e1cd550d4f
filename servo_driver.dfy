/**
 * Servo pulse-width control (src/servo.rs): a rotation byte is mapped
 * linearly onto the configured pulse-width range, expressed in PWM ticks.
 */
module ServoDriver {
  import opened Base

  /** `servo::Config`, with every `Duration` in whole microseconds (`as_micros`). */
  datatype Config = Config(pwmPeriodUs: nat, minPulseUs: nat, maxPulseUs: nat)

  /** `Config::SG90`: 20 ms period, 0.5-2.5 ms pulses. */
  const SG90 := Config(20_000, 500, 2_500)

  /** `Config::MGG995`: 20 ms period, 0.5-2.5 ms pulses. */
  const MGG995 := Config(20_000, 500, 2_500)

  /** The timer period the firmware configures, so `max_duty_cycle()` is 19 999. */
  const FIRMWARE_MAX_DUTY_CYCLE: U16 := 19_999

  /** Why `set_rotation` panics. */
  datatype Panic =
    | TickOverflow     // `max_duty_cycle() + 1` overflows `u16`
    | ZeroTick         // the tick width is 0 µs, so the division by it fails
    | InvertedRange    // `max_duty - min_duty` underflows
    | DutyTooLarge     // `u16::try_from(desired_duty)` fails

  datatype DutyResult = Duty(value: U16) | Panicked(reason: Panic)

  /** Width of one PWM tick in microseconds: the period split into `max_duty_cycle + 1` ticks, rounded down. */
  function TickUs(config: Config, maxDutyCycle: U16): (t: nat)
    ensures t * (maxDutyCycle + 1) <= config.pwmPeriodUs < (t + 1) * (maxDutyCycle + 1)
  {
    config.pwmPeriodUs / (maxDutyCycle + 1)
  }

  /** The timing is usable: ticks fit, are at least a microsecond, and the range is not inverted. */
  predicate ValidTiming(config: Config, maxDutyCycle: U16) {
    maxDutyCycle < U16_MAX
    && TickUs(config, maxDutyCycle) > 0
    && config.minPulseUs / TickUs(config, maxDutyCycle) <= config.maxPulseUs / TickUs(config, maxDutyCycle)
  }

  /** `min_duty`: the shortest pulse in ticks. */
  function MinDuty(config: Config, maxDutyCycle: U16): (d: nat)
    requires ValidTiming(config, maxDutyCycle)
    ensures d * TickUs(config, maxDutyCycle) <= config.minPulseUs < (d + 1) * TickUs(config, maxDutyCycle)
    ensures d <= config.maxPulseUs / TickUs(config, maxDutyCycle)
  {
    config.minPulseUs / TickUs(config, maxDutyCycle)
  }

  /** `max_duty`: the longest pulse in ticks. */
  function MaxDuty(config: Config, maxDutyCycle: U16): (d: nat)
    requires ValidTiming(config, maxDutyCycle)
    ensures d * TickUs(config, maxDutyCycle) <= config.maxPulseUs < (d + 1) * TickUs(config, maxDutyCycle)
    ensures MinDuty(config, maxDutyCycle) <= d
  {
    config.maxPulseUs / TickUs(config, maxDutyCycle)
  }

  /** The interpolation step, `min + range * rotation / 255`. */
  function Interpolate(min: nat, max: nat, rotation: Byte): nat
    requires min <= max
  {
    min + (max - min) * rotation / U8_MAX
  }

  /**
   * The duty cycle `set_rotation` hands to the PWM, or the panic it hits first.
   */
  function DesiredDuty(config: Config, maxDutyCycle: U16, rotation: Byte): (r: DutyResult)
    ensures r.Duty? <==> ValidTiming(config, maxDutyCycle)
                         && Interpolate(MinDuty(config, maxDutyCycle), MaxDuty(config, maxDutyCycle), rotation) <= U16_MAX
    ensures r.Duty? ==> MinDuty(config, maxDutyCycle) <= r.value <= MaxDuty(config, maxDutyCycle)
  {
    if maxDutyCycle == U16_MAX then Panicked(TickOverflow)
    else
      var tick := TickUs(config, maxDutyCycle);
      if tick == 0 then Panicked(ZeroTick)
      else
        var minDuty := config.minPulseUs / tick;
        var maxDuty := config.maxPulseUs / tick;
        if maxDuty < minDuty then Panicked(InvertedRange)
        else
          InterpolateBounds(minDuty, maxDuty, rotation);
          var desired := Interpolate(minDuty, maxDuty, rotation);
          if desired > U16_MAX then Panicked(DutyTooLarge) else Duty(desired)
  }

  lemma InterpolateBounds(min: nat, max: nat, rotation: Byte)
    requires min <= max
    ensures min <= Interpolate(min, max, rotation) <= max
  {
    MulMonotone(max - min, rotation, U8_MAX);
    assert (max - min) * U8_MAX / U8_MAX == max - min;
  }

  /** `a * x <= a * y` for `x <= y`, and the same after dividing by 255. */
  lemma MulMonotone(a: nat, x: nat, y: nat)
    requires x <= y
    ensures a * x <= a * y
    ensures a * x / U8_MAX <= a * y / U8_MAX
  {
    if a > 0 {
      MulMonotone(a - 1, x, y);
    }
  }

  /** Rotation 0 gives the shortest pulse and rotation 255 the longest. */
  lemma DutyEndpoints(config: Config, maxDutyCycle: U16)
    requires ValidTiming(config, maxDutyCycle) && MaxDuty(config, maxDutyCycle) <= U16_MAX
    ensures DesiredDuty(config, maxDutyCycle, 0) == Duty(MinDuty(config, maxDutyCycle))
    ensures DesiredDuty(config, maxDutyCycle, 255) == Duty(MaxDuty(config, maxDutyCycle))
  {
    var lo, hi := MinDuty(config, maxDutyCycle), MaxDuty(config, maxDutyCycle);
    InterpolateBounds(lo, hi, 0);
    InterpolateBounds(lo, hi, 255);
    assert (hi - lo) * 255 / 255 == hi - lo;
  }

  /** The duty never decreases as the rotation grows. */
  lemma DutyMonotone(config: Config, maxDutyCycle: U16, r1: Byte, r2: Byte)
    requires r1 <= r2
    requires DesiredDuty(config, maxDutyCycle, r2).Duty?
    ensures DesiredDuty(config, maxDutyCycle, r1).Duty?
    ensures DesiredDuty(config, maxDutyCycle, r1).value <= DesiredDuty(config, maxDutyCycle, r2).value
  {
    var lo, hi := MinDuty(config, maxDutyCycle), MaxDuty(config, maxDutyCycle);
    MulMonotone(hi - lo, r1, r2);
  }

  /** A timing whose longest pulse fits in `u16` never panics, whatever the rotation. */
  lemma NoPanicWhenMaxFits(config: Config, maxDutyCycle: U16, rotation: Byte)
    requires ValidTiming(config, maxDutyCycle) && MaxDuty(config, maxDutyCycle) <= U16_MAX
    ensures DesiredDuty(config, maxDutyCycle, rotation).Duty?
  {
    InterpolateBounds(MinDuty(config, maxDutyCycle), MaxDuty(config, maxDutyCycle), rotation);
  }

  /**
   * With the firmware's 19 999 maximum duty cycle, a tick is 1 µs, so rotation
   * r becomes a pulse of 500 + 2000 * r / 255 µs on both servo models.
   */
  lemma FirmwareServoPulse(rotation: Byte)
    ensures TickUs(MGG995, FIRMWARE_MAX_DUTY_CYCLE) == 1
    ensures DesiredDuty(MGG995, FIRMWARE_MAX_DUTY_CYCLE, rotation) == Duty(500 + 2000 * rotation / 255)
    ensures DesiredDuty(SG90, FIRMWARE_MAX_DUTY_CYCLE, rotation) == Duty(500 + 2000 * rotation / 255)
  {
    NoPanicWhenMaxFits(MGG995, FIRMWARE_MAX_DUTY_CYCLE, rotation);
  }

  /** The centre position 125 becomes a 1480 µs pulse. */
  lemma CenterPulse()
    ensures DesiredDuty(MGG995, FIRMWARE_MAX_DUTY_CYCLE, 125) == Duty(1480)
  {
    FirmwareServoPulse(125);
  }

  /**
   * `Servo<P>`: a PWM channel and its timing. The channel is modelled by its
   * `max_duty_cycle()` and the last duty cycle written to it.
   */
  class Servo {
    const config: Config
    const maxDutyCycle: U16
    /** The last duty written by `set_duty_cycle`, `None` before the first write. */
    var duty: Option<U16>

    /** `Servo::new`: nothing is written to the PWM yet. */
    constructor (config: Config, maxDutyCycle: U16)
      ensures this.config == config && this.maxDutyCycle == maxDutyCycle && duty.None?
    {
      this.config := config;
      this.maxDutyCycle := maxDutyCycle;
      duty := None;
    }

    /**
     * `Servo::set_rotation`: computes the pulse in ticks and writes it to the
     * PWM. The panics of `DesiredDuty` are excluded; the firmware aborts on them.
     */
    method SetRotation(rotation: Byte)
      requires DesiredDuty(config, maxDutyCycle, rotation).Duty?
      modifies this
      ensures duty == Some(DesiredDuty(config, maxDutyCycle, rotation).value)
      ensures MinDuty(config, maxDutyCycle) <= duty.value <= MaxDuty(config, maxDutyCycle)
    {
      var tickWidthUs := config.pwmPeriodUs / (maxDutyCycle + 1);
      var minDuty := config.minPulseUs / tickWidthUs;
      var maxDuty := config.maxPulseUs / tickWidthUs;
      var dutyRange := maxDuty - minDuty;
      var desiredDuty := minDuty + dutyRange * rotation / U8_MAX;
      duty := Some(desiredDuty);
    }
  }
}
