/**
 * The device state record (driver/src/state.rs): servo positions, the two
 * light rings with a shared brightness, and the speaker mode with its volume.
 * There are two defaults: the hand-written `default_const`, which the firmware
 * boots with, and the derived `Default`, which zeroes everything.
 */
module DeviceState {
  import opened Base
  import Lighting
  import Audio

  /** Ear positions, 0-255 with 125 at the centre. */
  datatype Servos = Servos(left: Byte, right: Byte)

  datatype Lights = Lights(left: Lighting.Mode, right: Lighting.Mode, brightness: Byte)

  datatype Speakers = Speakers(mode: Audio.Mode, volume: Byte)

  datatype State = State(servos: Servos, lights: Lights, speakers: Speakers)

  /** The servo position of an upright, neutral ear. */
  const CENTER: Byte := 125

  /** Both ears look the same: same servo position and same light mode. */
  predicate Symmetric(s: State) {
    s.servos.left == s.servos.right && s.lights.left == s.lights.right
  }

  // ----- default_const -----

  /** `Servos::default_const`: both ears centred. */
  function ServosDefaultConst(): (s: Servos)
    ensures s.left == CENTER && s.right == CENTER
  {
    Servos(125, 125)
  }

  /** The pulse each ring starts with: red, full brightness range, 250 ms period. */
  function BootPulse(): Lighting.Mode {
    Lighting.Pulse(Lighting.NewPulse(Lighting.RGB(255, 0, 0), 250))
  }

  /** `Lights::default_const`: both rings pulse red from 0 to 255 every 250 ms, at full brightness. */
  function LightsDefaultConst(): (l: Lights)
    ensures l.left == l.right && l.brightness == 255
    ensures l.left.Pulse? && l.left.pulse.color == Lighting.RGB(255, 0, 0)
    ensures l.left.pulse.minBrightness == 0 && l.left.pulse.maxBrightness == 255
    ensures l.left.pulse.periodMs == 250
  {
    Lights(BootPulse(), BootPulse(), 255)
  }

  /** `Speakers::default_const`: silent at medium volume. */
  function SpeakersDefaultConst(): (s: Speakers)
    ensures s.mode.Silent? && s.volume == 128
  {
    Speakers(Audio.Silent, 128)
  }

  /** `State::default_const`: the three component defaults. */
  function StateDefaultConst(): (s: State)
    ensures s.servos == ServosDefaultConst() && s.lights == LightsDefaultConst()
    ensures s.speakers == SpeakersDefaultConst()
  {
    State(ServosDefaultConst(), LightsDefaultConst(), SpeakersDefaultConst())
  }

  // ----- derived Default -----

  /** The derived `Default` of `State`: every field at its type's default. */
  function StateDefault(): (s: State)
    ensures s.servos.left == 0 && s.servos.right == 0
    ensures s.lights.left.Off? && s.lights.right.Off? && s.lights.brightness == 0
    ensures s.speakers.mode.Silent? && s.speakers.volume == 0
  {
    State(Servos(0, 0), Lights(Lighting.DefaultMode(), Lighting.DefaultMode(), 0),
          Speakers(Audio.DefaultMode(), 0))
  }

  /**
   * The boot state is symmetric, its light modes render without panicking,
   * and it differs from the derived `Default` in every field but the audio mode.
   */
  lemma DefaultConstProperties()
    ensures Symmetric(StateDefaultConst())
    ensures Lighting.WellFormed(StateDefaultConst().lights.left)
    ensures Lighting.WellFormed(StateDefaultConst().lights.right)
    ensures StateDefaultConst() != StateDefault()
    ensures StateDefaultConst().servos != StateDefault().servos
    ensures StateDefaultConst().lights.left != StateDefault().lights.left
    ensures StateDefaultConst().lights.brightness != StateDefault().lights.brightness
    ensures StateDefaultConst().speakers.volume != StateDefault().speakers.volume
    ensures StateDefaultConst().speakers.mode == StateDefault().speakers.mode
  {
  }
}
