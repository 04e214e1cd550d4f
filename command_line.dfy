/**
 * The serial command line (driver/src/cmdline.rs): the argument parsers for a
 * side and a chiptune name, the commands, and the handler that applies a
 * command to a copy of the shared state and writes the copy back only when
 * it differs from the current state.
 */
module CommandLine {
  import opened Base
  import opened DeviceState
  import Lighting
  import Audio

  // ----- argument parsing -----

  /** `embedded_cli`'s `FromArgumentError`: the rejected text and what was expected. */
  datatype ArgError = ArgError(value: string, expected: string)

  datatype Parsed<T> = Ok(value: T) | Err(error: ArgError)

  datatype Side = Left | Right

  datatype ChiptuneName =
    | Coin | PowerUp | LevelComplete | GameOver | MenuSelect
    | Alert | Happy | Sad | Startup | Shutdown

  /** Lower case of one character, for the ASCII letters. */
  function LowerChar(c: char): (d: char)
    ensures 'A' <= c <= 'Z' ==> d as int == c as int + 32
    ensures !('A' <= c <= 'Z') ==> d == c
    ensures !('A' <= d <= 'Z')
  {
    if 'A' <= c <= 'Z' then (c as int + 32) as char else c
  }

  /** Upper case of one character, for the ASCII letters. */
  function UpperChar(c: char): (d: char)
    ensures 'a' <= c <= 'z' ==> d as int == c as int - 32
    ensures !('a' <= c <= 'z') ==> d == c
  {
    if 'a' <= c <= 'z' then (c as int - 32) as char else c
  }

  /**
   * `str::to_lowercase`, on ASCII letters. The only other character whose
   * lower case is ASCII is the Kelvin sign (to 'k'), and no accepted word has a 'k'.
   */
  function ToLower(s: string): (r: string)
    ensures |r| == |s|
    ensures forall i :: 0 <= i < |s| ==> r[i] == LowerChar(s[i])
  {
    if s == [] then [] else [LowerChar(s[0])] + ToLower(s[1..])
  }

  function ToUpper(s: string): (r: string)
    ensures |r| == |s|
    ensures forall i :: 0 <= i < |s| ==> r[i] == UpperChar(s[i])
  {
    if s == [] then [] else [UpperChar(s[0])] + ToUpper(s[1..])
  }

  /**
   * An argument holding a character outside ASCII parses as neither a side nor
   * a chiptune name. Rust's `to_lowercase` keeps every such character outside
   * ASCII except the Kelvin sign, which becomes 'k', a letter no accepted word
   * has; so folding ASCII only changes no parse result.
   */
  lemma NonAsciiRejected(arg: string, i: nat)
    requires i < |arg| && arg[i] as int > 127
    ensures ParseSide(arg).Err? && ParseChiptuneName(arg).Err?
    ensures forall n :: 'k' !in Word(n)
  {
    var w := ToLower(arg);
    assert !Ascii(w) by { assert w[i] == arg[i]; }
    assert Ascii("left") && Ascii("l") && Ascii("right") && Ascii("r");
    assert Ascii("level") && Ascii("menu");
    var r := ParseChiptuneName(arg);
    if r.Ok? {
      WordAscii(r.value);
    }
    forall n ensures 'k' !in Word(n) {
      WordAscii(n);
    }
  }

  /** Every character is ASCII. */
  predicate Ascii(w: string) {
    forall j :: 0 <= j < |w| ==> w[j] as int <= 127
  }

  /** Each chiptune word is ASCII and has no 'k'. */
  lemma WordAscii(n: ChiptuneName)
    ensures Ascii(Word(n)) && 'k' !in Word(n)
  {
  }

  /** Lower-casing twice is lower-casing once. */
  lemma ToLowerIdempotent(s: string)
    ensures ToLower(ToLower(s)) == ToLower(s)
  {
    var once := ToLower(s);
    assert forall i :: 0 <= i < |s| ==> ToLower(once)[i] == once[i];
  }

  /** Upper-casing first makes no difference to the lower case. */
  lemma LowerOfUpper(s: string)
    ensures ToLower(ToUpper(s)) == ToLower(s)
  {
    assert forall i :: 0 <= i < |s| ==> LowerChar(UpperChar(s[i])) == LowerChar(s[i]);
  }

  const SIDE_EXPECTED := "left (l) or right (r)"

  const CHIPTUNE_EXPECTED :=
    "coin, powerup, levelcomplete, gameover, menuselect, alert, happy, sad, startup, or shutdown"

  /** `Side::from_arg`: "left"/"l" or "right"/"r", in any case. */
  function ParseSide(arg: string): (r: Parsed<Side>)
    ensures r == Ok(Left) <==> ToLower(arg) == "left" || ToLower(arg) == "l"
    ensures r == Ok(Right) <==> ToLower(arg) == "right" || ToLower(arg) == "r"
    ensures r.Err? ==> r.error == ArgError(arg, SIDE_EXPECTED)
  {
    var word := ToLower(arg);
    if word == "left" || word == "l" then Ok(Left)
    else if word == "right" || word == "r" then Ok(Right)
    else Err(ArgError(arg, SIDE_EXPECTED))
  }

  /** The full name of a side. */
  function SideName(side: Side): string {
    match side
    case Left => "left"
    case Right => "right"
  }

  /** A side's name parses back to it, written in lower or upper case. */
  lemma SideRoundTrip(side: Side)
    ensures ParseSide(SideName(side)) == Ok(side)
    ensures ParseSide(ToUpper(SideName(side))) == Ok(side)
  {
    LowerOfUpper(SideName(side));
    assert ToLower("left") == "left";
    assert ToLower("right") == "right";
  }

  /** Arguments that differ only in letter case parse alike. */
  lemma ParseSideIgnoresCase(a: string, b: string)
    requires ToLower(a) == ToLower(b)
    ensures ParseSide(a).Ok? <==> ParseSide(b).Ok?
    ensures ParseSide(a).Ok? ==> ParseSide(a) == ParseSide(b)
  {
  }

  /** The canonical word of a chiptune name. */
  function Word(name: ChiptuneName): string {
    match name
    case Coin => "coin"
    case PowerUp => "powerup"
    case LevelComplete => "levelcomplete"
    case GameOver => "gameover"
    case MenuSelect => "menuselect"
    case Alert => "alert"
    case Happy => "happy"
    case Sad => "sad"
    case Startup => "startup"
    case Shutdown => "shutdown"
  }

  /** `ChiptuneName::from_arg`: the ten words plus the aliases "level" and "menu", in any case. */
  function ParseChiptuneName(arg: string): (r: Parsed<ChiptuneName>)
    ensures forall n :: ToLower(arg) == Word(n) ==> r == Ok(n)
    ensures ToLower(arg) == "level" ==> r == Ok(LevelComplete)
    ensures ToLower(arg) == "menu" ==> r == Ok(MenuSelect)
    ensures r.Ok? ==> ToLower(arg) == Word(r.value)
                      || (r.value == LevelComplete && ToLower(arg) == "level")
                      || (r.value == MenuSelect && ToLower(arg) == "menu")
    ensures r.Err? ==> r.error == ArgError(arg, CHIPTUNE_EXPECTED)
  {
    match ToLower(arg)
    case "coin" => Ok(Coin)
    case "powerup" => Ok(PowerUp)
    case "levelcomplete" => Ok(LevelComplete)
    case "level" => Ok(LevelComplete)
    case "gameover" => Ok(GameOver)
    case "menuselect" => Ok(MenuSelect)
    case "menu" => Ok(MenuSelect)
    case "alert" => Ok(Alert)
    case "happy" => Ok(Happy)
    case "sad" => Ok(Sad)
    case "startup" => Ok(Startup)
    case "shutdown" => Ok(Shutdown)
    case _ => Err(ArgError(arg, CHIPTUNE_EXPECTED))
  }

  /** A lower-case word is its own lower case. */
  lemma LowerWord(w: string)
    requires forall i :: 0 <= i < |w| ==> 'a' <= w[i] <= 'z'
    ensures ToLower(w) == w
  {
    assert forall i :: 0 <= i < |w| ==> ToLower(w)[i] == w[i];
  }

  /** Every name parses back from its word, written in lower or upper case. */
  lemma ChiptuneNameRoundTrip(name: ChiptuneName)
    ensures ParseChiptuneName(Word(name)) == Ok(name)
    ensures ParseChiptuneName(ToUpper(Word(name))) == Ok(name)
  {
    LowerWord(Word(name));
    LowerOfUpper(Word(name));
  }

  /** Arguments that differ only in letter case parse alike. */
  lemma ParseChiptuneNameIgnoresCase(a: string, b: string)
    requires ToLower(a) == ToLower(b)
    ensures ParseChiptuneName(a).Ok? <==> ParseChiptuneName(b).Ok?
    ensures ParseChiptuneName(a).Ok? ==> ParseChiptuneName(a) == ParseChiptuneName(b)
  {
  }

  /** The preset melody each name plays: a short, non-looping tune that fits its slots. */
  function Preset(name: ChiptuneName): (s: Audio.ChiptuneSequence)
    ensures 2 <= s.length <= 6 && !s.looping
  {
    match name
    case Coin => Audio.CoinCollect()
    case PowerUp => Audio.PowerUp()
    case LevelComplete => Audio.LevelComplete()
    case GameOver => Audio.GameOver()
    case MenuSelect => Audio.MenuSelect()
    case Alert => Audio.AlertTune()
    case Happy => Audio.Happy()
    case Sad => Audio.Sad()
    case Startup => Audio.Startup()
    case Shutdown => Audio.Shutdown()
  }

  // ----- commands -----

  datatype LightCommand =
    | LightGet(side: Side)
    | LightSolid(side: Side, r: Byte, g: Byte, b: Byte)
    | LightOff(side: Side)
    | LightRainbow(side: Side)
    | LightPulse(side: Side, r: Byte, g: Byte, b: Byte)
    | LightBrightness(value: Byte)

  datatype ServoCommand = ServoGet(side: Side) | ServoSet(side: Side, value: Byte)

  datatype AudioCommand =
    | AudioGet
    | AudioSilent
    | AudioTone(freq: U16, duration: U16)
    | AudioChiptune(name: ChiptuneName)
    | AudioVolume(value: Byte)

  datatype Command =
    | StatusGet
    | LightCmd(light: LightCommand)
    | ServoCmd(servo: ServoCommand)
    | AudioCmd(audio: AudioCommand)

  /** The fields of the state a command can write. */
  datatype Field = ServoLeft | ServoRight | LightLeft | LightRight | Brightness | SpeakerMode | Volume

  /** The one field a command writes, `None` for the commands that only display. */
  function Target(cmd: Command): Option<Field> {
    match cmd
    case StatusGet => None
    case LightCmd(LightGet(_)) => None
    case LightCmd(LightBrightness(_)) => Some(Brightness)
    case LightCmd(c) => if c.side == Left then Some(LightLeft) else Some(LightRight)
    case ServoCmd(ServoGet(_)) => None
    case ServoCmd(ServoSet(side, _)) => if side == Left then Some(ServoLeft) else Some(ServoRight)
    case AudioCmd(AudioGet) => None
    case AudioCmd(AudioVolume(_)) => Some(Volume)
    case AudioCmd(_) => Some(SpeakerMode)
  }

  /** `s` and `t` agree on every field except possibly `f`. */
  predicate SameExcept(s: State, t: State, f: Option<Field>) {
    && (f != Some(ServoLeft) ==> t.servos.left == s.servos.left)
    && (f != Some(ServoRight) ==> t.servos.right == s.servos.right)
    && (f != Some(LightLeft) ==> t.lights.left == s.lights.left)
    && (f != Some(LightRight) ==> t.lights.right == s.lights.right)
    && (f != Some(Brightness) ==> t.lights.brightness == s.lights.brightness)
    && (f != Some(SpeakerMode) ==> t.speakers.mode == s.speakers.mode)
    && (f != Some(Volume) ==> t.speakers.volume == s.speakers.volume)
  }

  function SetLight(s: State, side: Side, mode: Lighting.Mode): State {
    if side == Left then s.(lights := s.lights.(left := mode))
    else s.(lights := s.lights.(right := mode))
  }

  function SetServo(s: State, side: Side, value: Byte): State {
    if side == Left then s.(servos := s.servos.(left := value))
    else s.(servos := s.servos.(right := value))
  }

  /** The state after one command of the handler: only the command's target field can differ. */
  function Apply(cmd: Command, s: State): (t: State)
    ensures SameExcept(s, t, Target(cmd))
    ensures Target(cmd).None? ==> t == s
  {
    match cmd
    case StatusGet => s
    case LightCmd(c) =>
      (match c
       case LightGet(_) => s
       case LightSolid(side, r, g, b) => SetLight(s, side, Lighting.Solid(Lighting.RGB(r, g, b)))
       case LightOff(side) => SetLight(s, side, Lighting.Off)
       case LightRainbow(side) => SetLight(s, side, Lighting.Rainbow(Lighting.NewRainbow(500)))
       case LightPulse(side, r, g, b) => SetLight(s, side, Lighting.Pulse(Lighting.NewPulse(Lighting.RGB(r, g, b), 1000)))
       case LightBrightness(value) => s.(lights := s.lights.(brightness := value)))
    case ServoCmd(c) =>
      (match c
       case ServoGet(_) => s
       case ServoSet(side, value) => SetServo(s, side, value))
    case AudioCmd(c) =>
      match c
      case AudioGet => s
      case AudioSilent => s.(speakers := s.speakers.(mode := Audio.Silent))
      case AudioTone(freq, duration) => s.(speakers := s.speakers.(mode := Audio.Tone(Audio.NewNote(freq as real, duration))))
      case AudioChiptune(name) => s.(speakers := s.speakers.(mode := Audio.Chiptune(Preset(name))))
      case AudioVolume(value) => s.(speakers := s.speakers.(volume := value))
  }

  /** The value each writing command puts in its field. */
  lemma CommandEffects(s: State, side: Side, r: Byte, g: Byte, b: Byte, v: Byte, freq: U16, duration: U16, name: ChiptuneName)
    ensures var t := Apply(LightCmd(LightSolid(side, r, g, b)), s);
      (if side == Left then t.lights.left else t.lights.right) == Lighting.Solid(Lighting.RGB(r, g, b))
    ensures var t := Apply(LightCmd(LightOff(side)), s);
      (if side == Left then t.lights.left else t.lights.right) == Lighting.Off
    ensures var t := Apply(LightCmd(LightRainbow(side)), s);
      (if side == Left then t.lights.left else t.lights.right) == Lighting.Rainbow(Lighting.RainbowPattern(500, true, 255))
    ensures var t := Apply(LightCmd(LightPulse(side, r, g, b)), s);
      (if side == Left then t.lights.left else t.lights.right) == Lighting.Pulse(Lighting.PulsePattern(Lighting.RGB(r, g, b), 0, 255, 1000))
    ensures Apply(LightCmd(LightBrightness(v)), s).lights.brightness == v
    ensures var t := Apply(ServoCmd(ServoSet(side, v)), s);
      (if side == Left then t.servos.left else t.servos.right) == v
    ensures Apply(AudioCmd(AudioSilent), s).speakers.mode == Audio.Silent
    ensures Apply(AudioCmd(AudioTone(freq, duration)), s).speakers.mode == Audio.Tone(Audio.Note(freq as real, duration, None))
    ensures Apply(AudioCmd(AudioChiptune(name)), s).speakers.mode == Audio.Chiptune(Preset(name))
    ensures Apply(AudioCmd(AudioVolume(v)), s).speakers.volume == v
  {
  }

  /** Repeating a command changes nothing more. */
  lemma ApplyIdempotent(cmd: Command, s: State)
    ensures Apply(cmd, Apply(cmd, s)) == Apply(cmd, s)
  {
  }

  /** Of two commands writing the same field, the later one decides it. */
  lemma LastWriteWins(c1: Command, c2: Command, s: State)
    requires Target(c2).Some? && Target(c1) == Target(c2)
    ensures Apply(c2, Apply(c1, s)) == Apply(c2, s)
  {
  }

  /** Commands writing different fields can be applied in either order. */
  lemma IndependentCommute(c1: Command, c2: Command, s: State)
    requires Target(c1) != Target(c2)
    ensures Apply(c1, Apply(c2, s)) == Apply(c2, Apply(c1, s))
  {
  }

  /**
   * The light modes render without panicking, also with the LED task's `u8`
   * chase divisor, and any chiptune fits its 64 slots: the frame arithmetic
   * and the speaker task's slice cannot panic on it.
   */
  predicate StateWellFormed(s: State) {
    && Lighting.WellFormed(s.lights.left)
    && Lighting.WellFormed(s.lights.right)
    && (s.speakers.mode.Chiptune? ==> s.speakers.mode.sequence.length <= Audio.NOTE_CAPACITY)
  }

  /** The boot state is well formed, and every command keeps the state well formed. */
  lemma CommandsPreserveWellFormed(cmd: Command, s: State)
    requires StateWellFormed(s)
    ensures StateWellFormed(Apply(cmd, s))
    ensures StateWellFormed(StateDefaultConst())
  {
  }

  // ----- the handler -----

  /** The `RwLock<State>` shared with the other tasks. */
  class SharedState {
    var state: State

    /** The firmware's static state starts at `State::default_const()`. */
    constructor ()
      ensures state == StateDefaultConst()
    {
      state := StateDefaultConst();
    }

    /**
     * One command of `handler`: the state is copied, the copy is updated in
     * the command's field, and it replaces the shared state only when it
     * differs from it; `written` tells whether the write lock was taken.
     */
    method Handle(cmd: Command) returns (written: bool)
      modifies this
      ensures state == Apply(cmd, old(state))
      ensures written <==> Apply(cmd, old(state)) != old(state)
    {
      var copy := state;
      match cmd {
        case StatusGet =>
        case LightCmd(c) =>
          match c {
            case LightGet(_) =>
            case LightSolid(side, r, g, b) =>
              var color := Lighting.RGB(r, g, b);
              if side == Left {
                copy := copy.(lights := copy.lights.(left := Lighting.Solid(color)));
              } else {
                copy := copy.(lights := copy.lights.(right := Lighting.Solid(color)));
              }
            case LightOff(side) =>
              if side == Left {
                copy := copy.(lights := copy.lights.(left := Lighting.Off));
              } else {
                copy := copy.(lights := copy.lights.(right := Lighting.Off));
              }
            case LightRainbow(side) =>
              var pattern := Lighting.NewRainbow(500);
              if side == Left {
                copy := copy.(lights := copy.lights.(left := Lighting.Rainbow(pattern)));
              } else {
                copy := copy.(lights := copy.lights.(right := Lighting.Rainbow(pattern)));
              }
            case LightPulse(side, r, g, b) =>
              var pattern := Lighting.NewPulse(Lighting.RGB(r, g, b), 1000);
              if side == Left {
                copy := copy.(lights := copy.lights.(left := Lighting.Pulse(pattern)));
              } else {
                copy := copy.(lights := copy.lights.(right := Lighting.Pulse(pattern)));
              }
            case LightBrightness(value) =>
              copy := copy.(lights := copy.lights.(brightness := value));
          }
        case ServoCmd(c) =>
          match c {
            case ServoGet(_) =>
            case ServoSet(side, value) =>
              if side == Left {
                copy := copy.(servos := copy.servos.(left := value));
              } else {
                copy := copy.(servos := copy.servos.(right := value));
              }
          }
        case AudioCmd(c) =>
          match c {
            case AudioGet =>
            case AudioSilent =>
              copy := copy.(speakers := copy.speakers.(mode := Audio.Silent));
            case AudioTone(freq, duration) =>
              var note := Audio.NewNote(freq as real, duration);
              copy := copy.(speakers := copy.speakers.(mode := Audio.Tone(note)));
            case AudioChiptune(name) =>
              copy := copy.(speakers := copy.speakers.(mode := Audio.Chiptune(Preset(name))));
            case AudioVolume(value) =>
              copy := copy.(speakers := copy.speakers.(volume := value));
          }
      }
      var current := state;
      if current != copy {
        state := copy;
        written := true;
      } else {
        written := false;
      }
    }
  }
}
