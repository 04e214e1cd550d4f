/**
 * The speaker modes (driver/src/audio.rs): notes, the fixed 64-slot chiptune
 * buffer, raw PCM clips and the preset melodies.
 */
module Audio {
  import opened Base

  /** Capacity of a chiptune's note buffer. */
  const NOTE_CAPACITY := 64

  /**
   * `Note`. The `f32` frequency is kept as an exact real: every frequency the
   * firmware builds is an integer below 2^24, which an `f32` holds exactly.
   * A frequency of 0 is a rest.
   */
  datatype Note = Note(frequency: real, durationMs: U16, volume: Option<Byte>)

  /** `[Note; 64]`: always exactly 64 slots, whatever `length` says. */
  type NoteBuffer = s: seq<Note> | |s| == NOTE_CAPACITY witness seq(NOTE_CAPACITY, _ => Note(0.0, 0, None))

  /**
   * `ChiptuneSequence`. `length` counts the meaningful notes; it is a `u8` that
   * nothing bounds by 64 once a sequence arrives from outside `FromNotes`.
   */
  datatype ChiptuneSequence = ChiptuneSequence(
    notes: NoteBuffer,
    length: Byte,
    defaultVolume: Byte,
    looping: bool)

  /** `Clip`: raw PCM samples embedded in the binary. */
  datatype Clip = Clip(
    data: seq<Byte>,
    sampleRate: U32,
    bitsPerSample: Byte,
    isStereo: bool,
    looping: bool)

  /** `audio::Mode`; its derived `Default` is `Silent`. */
  datatype Mode =
    | Silent
    | Tone(note: Note)
    | Chiptune(sequence: ChiptuneSequence)
    | Audio(clip: Clip)

  /** `<Mode as Default>::default()` */
  function DefaultMode(): (m: Mode)
    ensures m.Silent?
  {
    Silent
  }

  // ----- Note -----

  /** `Note::new`: plays at the volume of whatever contains it. */
  function NewNote(frequency: real, durationMs: U16): (n: Note)
    ensures n.volume.None? && n.frequency == frequency && n.durationMs == durationMs
  {
    Note(frequency, durationMs, None)
  }

  /** `Note::with_volume` */
  function NoteWithVolume(frequency: real, durationMs: U16, volume: Byte): (n: Note)
    ensures n.volume == Some(volume) && n.frequency == frequency && n.durationMs == durationMs
  {
    Note(frequency, durationMs, Some(volume))
  }

  /** `Note::rest`: silence for the given time. */
  function Rest(durationMs: U16): (n: Note)
    ensures n.frequency == 0.0 && n.volume.None? && n.durationMs == durationMs
  {
    Note(0.0, durationMs, None)
  }

  // ----- ChiptuneSequence -----

  /** `ChiptuneSequence::new` (also its `Default`). */
  function NewSequence(): (s: ChiptuneSequence)
    ensures s.length == 0 && s.defaultVolume == 128 && !s.looping
    ensures forall i :: 0 <= i < NOTE_CAPACITY ==> s.notes[i] == Rest(0)
  {
    ChiptuneSequence(seq(NOTE_CAPACITY, _ => Rest(0)), 0, 128, false)
  }

  /**
   * The sequence `from_notes` builds: the given notes first, `Rest(0)` in the
   * remaining slots, and `length` counting the given notes.
   */
  function SequenceOf(notes: seq<Note>): (s: ChiptuneSequence)
    requires |notes| <= NOTE_CAPACITY
    ensures s.length == |notes| && s.notes[..|notes|] == notes
    ensures forall i :: |notes| <= i < NOTE_CAPACITY ==> s.notes[i] == Rest(0)
    ensures s.defaultVolume == 128 && !s.looping
  {
    NewSequence().(notes := notes + seq(NOTE_CAPACITY - |notes|, _ => Rest(0)), length := |notes|)
  }

  /**
   * `ChiptuneSequence::from_notes`: starts from `new()` and writes the notes
   * into the buffer one slot at a time. More than 64 notes is the caller's panic.
   */
  method FromNotes(notes: seq<Note>) returns (s: ChiptuneSequence)
    requires |notes| <= NOTE_CAPACITY
    ensures s == SequenceOf(notes)
  {
    var buffer := new Note[NOTE_CAPACITY](_ => Rest(0));
    var i := 0;
    while i < |notes|
      invariant 0 <= i <= |notes|
      invariant forall k :: 0 <= k < i ==> buffer[k] == notes[k]
      invariant forall k :: i <= k < NOTE_CAPACITY ==> buffer[k] == Rest(0)
    {
      buffer[i] := notes[i];
      i := i + 1;
    }
    s := NewSequence().(notes := buffer[..], length := |notes|);
    assert s.notes == SequenceOf(notes).notes;
  }

  /** `ChiptuneSequence::with_volume` */
  function WithVolume(s: ChiptuneSequence, volume: Byte): (t: ChiptuneSequence)
    ensures t.defaultVolume == volume
    ensures t.notes == s.notes && t.length == s.length && t.looping == s.looping
  {
    s.(defaultVolume := volume)
  }

  /** `ChiptuneSequence::with_loop` */
  function WithLoop(s: ChiptuneSequence): (t: ChiptuneSequence)
    ensures t.looping
    ensures t.notes == s.notes && t.length == s.length && t.defaultVolume == s.defaultVolume
  {
    s.(looping := true)
  }

  // ----- Clip -----

  /** `Clip::new`: not looping. */
  function NewClip(data: seq<Byte>, sampleRate: U32, bitsPerSample: Byte, isStereo: bool): (c: Clip)
    ensures !c.looping && c.data == data && c.sampleRate == sampleRate
    ensures c.bitsPerSample == bitsPerSample && c.isStereo == isStereo
  {
    Clip(data, sampleRate, bitsPerSample, isStereo, false)
  }

  /** `Clip::mono_8bit` */
  function Mono8Bit(data: seq<Byte>, sampleRate: U32): (c: Clip)
    ensures c == NewClip(data, sampleRate, 8, false)
  {
    Clip(data, sampleRate, 8, false, false)
  }

  /** `Clip::mono_16bit` */
  function Mono16Bit(data: seq<Byte>, sampleRate: U32): (c: Clip)
    ensures c == NewClip(data, sampleRate, 16, false)
  {
    Clip(data, sampleRate, 16, false, false)
  }

  /** `Clip::with_loop` */
  function ClipWithLoop(c: Clip): (d: Clip)
    ensures d.looping
    ensures d.data == c.data && d.sampleRate == c.sampleRate
    ensures d.bitsPerSample == c.bitsPerSample && d.isStereo == c.isStereo
  {
    c.(looping := true)
  }

  /** Bytes per frame: `(bits_per_sample / 8) * channels`. */
  function FrameBytes(c: Clip): nat {
    (c.bitsPerSample / 8) * (if c.isStereo then 2 else 1)
  }

  /**
   * `Clip::sample_count`: the number of whole frames in the data. `None` is a
   * panic: a division by zero when fewer than 8 bits per sample make the frame
   * zero bytes wide, or the assertion that the count fits in a `u32`.
   */
  function SampleCount(c: Clip): (r: Option<U32>)
    ensures c.bitsPerSample < 8 ==> r.None?
    ensures c.bitsPerSample >= 8 && |c.data| <= U32_MAX ==> r.Some?
    ensures r.Some? ==> FrameBytes(c) > 0
    ensures r.Some? ==> r.value * FrameBytes(c) <= |c.data| < (r.value + 1) * FrameBytes(c)
  {
    var frame := FrameBytes(c);
    if frame == 0 then None
    else
      var count := |c.data| / frame;
      if count > U32_MAX then None else Some(count)
  }

  /**
   * `Clip::duration_ms`: whole milliseconds of playback. `None` is a panic:
   * from `sample_count`, from the `u32` product `sample_count * 1000`
   * overflowing, or from a zero sample rate.
   */
  function DurationMs(c: Clip): (r: Option<U32>)
    ensures c.sampleRate == 0 || SampleCount(c).None? ==> r.None?
    ensures r.Some? ==> SampleCount(c).Some? && SampleCount(c).value * 1000 <= U32_MAX
    ensures r.Some? ==> r.value * c.sampleRate <= SampleCount(c).value * 1000 < (r.value + 1) * c.sampleRate
    ensures SampleCount(c).Some? && SampleCount(c).value * 1000 <= U32_MAX && c.sampleRate > 0 ==> r.Some?
  {
    match SampleCount(c)
    case None => None
    case Some(count) =>
      if count * 1000 > U32_MAX || c.sampleRate == 0 then None
      else Some(count * 1000 / c.sampleRate)
  }

  /** `clips::example`: a thousand bytes of 8-bit mono silence at 8 kHz. */
  function ExampleClip(): (c: Clip)
    ensures |c.data| == 1000 && forall i :: 0 <= i < |c.data| ==> c.data[i] == 128
    ensures c.sampleRate == 8000 && c.bitsPerSample == 8 && !c.isStereo && !c.looping
  {
    Mono8Bit(seq(1000, _ => 128), 8000)
  }

  /** The example clip holds 1000 samples, i.e. 125 ms. */
  lemma ExampleClipDuration()
    ensures SampleCount(ExampleClip()) == Some(1000)
    ensures DurationMs(ExampleClip()) == Some(125)
  {
  }

  // ----- chiptunes::* presets -----

  /** `chiptunes::coin_collect`: B5 then a long E6. */
  function CoinCollect(): (s: ChiptuneSequence)
    ensures s.length == 2 && !s.looping && s.defaultVolume == 128
    ensures s.notes[..2] == [NewNote(988.0, 100), NewNote(1319.0, 400)]
  {
    SequenceOf([NewNote(988.0, 100), NewNote(1319.0, 400)])
  }

  /** `chiptunes::power_up`: a rising C major arpeggio. */
  function PowerUp(): (s: ChiptuneSequence)
    ensures s.length == 4 && !s.looping && s.defaultVolume == 128
    ensures s.notes[..4] == [NewNote(523.0, 100), NewNote(659.0, 100), NewNote(784.0, 100), NewNote(1047.0, 200)]
  {
    SequenceOf([NewNote(523.0, 100), NewNote(659.0, 100), NewNote(784.0, 100), NewNote(1047.0, 200)])
  }

  /** `chiptunes::level_complete`: the arpeggio, then G5 and a long C6. */
  function LevelComplete(): (s: ChiptuneSequence)
    ensures s.length == 6 && !s.looping && s.defaultVolume == 128
    ensures s.notes[..6] == [NewNote(523.0, 150), NewNote(659.0, 150), NewNote(784.0, 150), NewNote(1047.0, 150), NewNote(784.0, 150), NewNote(1047.0, 400)]
  {
    SequenceOf([NewNote(523.0, 150), NewNote(659.0, 150), NewNote(784.0, 150),
                NewNote(1047.0, 150), NewNote(784.0, 150), NewNote(1047.0, 400)])
  }

  /** `chiptunes::game_over`: a falling chromatic line ending on a long A4. */
  function GameOver(): (s: ChiptuneSequence)
    ensures s.length == 4 && !s.looping && s.defaultVolume == 128
    ensures s.notes[..4] == [NewNote(523.0, 200), NewNote(494.0, 200), NewNote(466.0, 200), NewNote(440.0, 600)]
  {
    SequenceOf([NewNote(523.0, 200), NewNote(494.0, 200), NewNote(466.0, 200), NewNote(440.0, 600)])
  }

  /** `chiptunes::menu_select`: two short high beeps. */
  function MenuSelect(): (s: ChiptuneSequence)
    ensures s.length == 2 && !s.looping && s.defaultVolume == 128
    ensures s.notes[..2] == [NewNote(1047.0, 50), NewNote(1319.0, 50)]
  {
    SequenceOf([NewNote(1047.0, 50), NewNote(1319.0, 50)])
  }

  /** `chiptunes::alert`: two A5 beeps around a 50 ms rest. */
  function AlertTune(): (s: ChiptuneSequence)
    ensures s.length == 3 && !s.looping && s.defaultVolume == 128
    ensures s.notes[..3] == [NewNote(880.0, 100), Rest(50), NewNote(880.0, 100)]
  {
    SequenceOf([NewNote(880.0, 100), Rest(50), NewNote(880.0, 100)])
  }

  /** `chiptunes::happy`: up and back down the arpeggio to C6. */
  function Happy(): (s: ChiptuneSequence)
    ensures s.length == 5 && !s.looping && s.defaultVolume == 128
    ensures s.notes[..5] == [NewNote(523.0, 150), NewNote(659.0, 150), NewNote(784.0, 150), NewNote(659.0, 150), NewNote(1047.0, 300)]
  {
    SequenceOf([NewNote(523.0, 150), NewNote(659.0, 150), NewNote(784.0, 150),
                NewNote(659.0, 150), NewNote(1047.0, 300)])
  }

  /** `chiptunes::sad`: a falling minor line ending on a long F4. */
  function Sad(): (s: ChiptuneSequence)
    ensures s.length == 4 && !s.looping && s.defaultVolume == 128
    ensures s.notes[..4] == [NewNote(440.0, 300), NewNote(415.0, 300), NewNote(392.0, 300), NewNote(349.0, 600)]
  {
    SequenceOf([NewNote(440.0, 300), NewNote(415.0, 300), NewNote(392.0, 300), NewNote(349.0, 600)])
  }

  /** `chiptunes::startup`: rising from C4 to G5. */
  function Startup(): (s: ChiptuneSequence)
    ensures s.length == 5 && !s.looping && s.defaultVolume == 128
    ensures s.notes[..5] == [NewNote(262.0, 100), NewNote(392.0, 100), NewNote(523.0, 100), NewNote(659.0, 100), NewNote(784.0, 200)]
  {
    SequenceOf([NewNote(262.0, 100), NewNote(392.0, 100), NewNote(523.0, 100),
                NewNote(659.0, 100), NewNote(784.0, 200)])
  }

  /** `chiptunes::shutdown`: falling from G5 to C4. */
  function Shutdown(): (s: ChiptuneSequence)
    ensures s.length == 5 && !s.looping && s.defaultVolume == 128
    ensures s.notes[..5] == [NewNote(784.0, 100), NewNote(659.0, 100), NewNote(523.0, 100), NewNote(392.0, 100), NewNote(262.0, 200)]
  {
    SequenceOf([NewNote(784.0, 100), NewNote(659.0, 100), NewNote(523.0, 100),
                NewNote(392.0, 100), NewNote(262.0, 200)])
  }
}
