/**
 * What the speaker task plays for a speaker state (src/main.rs,
 * `control_speakers`): the volume each note is played at and the notes a
 * chiptune pass walks through. Sample synthesis, DMA writes and timers are
 * outside the model; a played note is described by a `ToneRequest`.
 */
module SpeakerPlayback {
  import opened Base
  import opened Audio
  import DeviceState

  /**
   * One call of `generate_tone_with_amplitude`: the note's frequency and
   * duration and the two volumes its amplitude is made of. A tone has no
   * master volume (`None`); a chiptune note is also scaled by the speaker volume.
   */
  datatype ToneRequest = ToneRequest(frequency: real, durationMs: U16, volume: Byte, master: Option<Byte>)

  /** What one turn of the speaker loop does for the current mode. */
  datatype Playback =
    | Silence                                                 // a buffer of zeros, then 100 ms
    | PlayTone(tone: ToneRequest)
    | PlayChiptune(tones: seq<ToneRequest>, looping: bool)
    | Unsupported                                             // raw clips are not played, 100 ms wait

  /** `note.volume.unwrap_or(fallback)`: a note's own volume wins. */
  function NoteVolume(note: Note, fallback: Byte): (v: Byte)
    ensures note.volume.Some? ==> v == note.volume.value
    ensures note.volume.None? ==> v == fallback
  {
    note.volume.GetOr(fallback)
  }

  // ----- the chiptune slice -----

  /**
   * `sequence.notes[..usize::from(sequence.length)]` as the firmware writes it:
   * `None` is the slice panic when `length` exceeds the 64 slots, which a
   * sequence parsed from the remote state can carry.
   */
  function PlayableNotesAsWritten(s: ChiptuneSequence): (r: Option<seq<Note>>)
    ensures r.None? <==> s.length > NOTE_CAPACITY
    ensures r.Some? ==> r.value == s.notes[..s.length]
  {
    if s.length > NOTE_CAPACITY then None else Some(s.notes[..s.length])
  }

  /** A remote sequence claiming 65 notes crashes the speaker task. */
  lemma SliceAsWrittenPanics()
    ensures PlayableNotesAsWritten(NewSequence().(length := 65)).None?
  {
  }

  /** How many notes a pass plays: `length`, clamped to the 64 slots. */
  function PlayableLength(s: ChiptuneSequence): (n: nat)
    ensures n <= NOTE_CAPACITY && n <= s.length
    ensures n == s.length || n == NOTE_CAPACITY
  {
    Min(s.length, NOTE_CAPACITY)
  }

  /** The notes a pass plays, with the length clamped instead of panicking. */
  function PlayableNotes(s: ChiptuneSequence): (ns: seq<Note>)
    ensures |ns| == PlayableLength(s)
    ensures forall i :: 0 <= i < |ns| ==> ns[i] == s.notes[i]
  {
    s.notes[..PlayableLength(s)]
  }

  /** Wherever the firmware's slice does not panic, the clamped slice is the same. */
  lemma PlayableNotesAgree(s: ChiptuneSequence)
    ensures s.length <= NOTE_CAPACITY <==> PlayableNotesAsWritten(s).Some?
    ensures s.length <= NOTE_CAPACITY ==> PlayableNotesAsWritten(s) == Some(PlayableNotes(s))
  {
  }

  /** A sequence built by `from_notes` plays back exactly the notes it was built from. */
  lemma {:induction false} FromNotesRoundTrip(notes: seq<Note>)
    requires |notes| <= NOTE_CAPACITY
    ensures PlayableNotes(SequenceOf(notes)) == notes
    ensures PlayableNotesAsWritten(SequenceOf(notes)) == Some(notes)
  {
    var s := SequenceOf(notes);
    assert s.notes[..|notes|] == notes;
  }

  // ----- the volume rules -----

  /** The note of a chiptune pass: the note's volume or the sequence default, and the speaker volume. */
  function ChiptuneTone(note: Note, defaultVolume: Byte, master: Byte): (t: ToneRequest)
    ensures t.frequency == note.frequency && t.durationMs == note.durationMs
    ensures t.volume == NoteVolume(note, defaultVolume) && t.master == Some(master)
  {
    ToneRequest(note.frequency, note.durationMs, NoteVolume(note, defaultVolume), Some(master))
  }

  /** Every request of one full chiptune pass, in order. */
  function ChiptuneTones(s: ChiptuneSequence, master: Byte): (ts: seq<ToneRequest>)
    ensures |ts| == PlayableLength(s)
    ensures forall i :: 0 <= i < |ts| ==> ts[i] == ChiptuneTone(s.notes[i], s.defaultVolume, master)
  {
    seq(PlayableLength(s), i requires 0 <= i < PlayableLength(s) => ChiptuneTone(s.notes[i], s.defaultVolume, master))
  }

  /** What the speaker loop does for a speaker state. */
  function Action(speakers: DeviceState.Speakers): (p: Playback)
    ensures speakers.mode.Silent? <==> p.Silence?
    ensures speakers.mode.Audio? <==> p.Unsupported?
    ensures speakers.mode.Tone? <==> p.PlayTone?
    ensures speakers.mode.Tone? ==>
      p.tone == ToneRequest(speakers.mode.note.frequency, speakers.mode.note.durationMs,
                            NoteVolume(speakers.mode.note, speakers.volume), None)
    ensures speakers.mode.Chiptune? <==> p.PlayChiptune?
    ensures speakers.mode.Chiptune? ==>
      p.tones == ChiptuneTones(speakers.mode.sequence, speakers.volume) && p.looping == speakers.mode.sequence.looping
  {
    match speakers.mode
    case Silent => Silence
    case Tone(note) => PlayTone(ToneRequest(note.frequency, note.durationMs, NoteVolume(note, speakers.volume), None))
    case Chiptune(s) => PlayChiptune(ChiptuneTones(s, speakers.volume), s.looping)
    case Audio(_) => Unsupported
  }

  /**
   * A tone without its own volume plays at the speaker volume, and then the
   * speaker volume is not applied a second time; a chiptune note without its
   * own volume plays at the sequence default, scaled by the speaker volume.
   */
  lemma VolumeFallbacks(speakers: DeviceState.Speakers, note: Note, s: ChiptuneSequence, i: nat)
    requires note.volume.None? && i < PlayableLength(s) && s.notes[i].volume.None?
    ensures Action(speakers.(mode := Tone(note))).tone.volume == speakers.volume
    ensures Action(speakers.(mode := Tone(note))).tone.master.None?
    ensures Action(speakers.(mode := Chiptune(s))).tones[i].volume == s.defaultVolume
    ensures Action(speakers.(mode := Chiptune(s))).tones[i].master == Some(speakers.volume)
  {
  }

  /** `with_volume` changes the volume of exactly the notes that have none of their own. */
  lemma WithVolumeTones(s: ChiptuneSequence, volume: Byte, master: Byte, i: nat)
    requires i < PlayableLength(s)
    ensures ChiptuneTones(WithVolume(s, volume), master)[i].volume ==
      if s.notes[i].volume.Some? then s.notes[i].volume.value else volume
    ensures |ChiptuneTones(WithVolume(s, volume), master)| == |ChiptuneTones(s, master)|
  {
  }

  // ----- one pass of the chiptune loop -----

  /**
   * One pass of the inner `for` loop. After each note the speaker loop reads the
   * state again; `modeChanged(k)` is what its k-th read of this pass finds.
   * The pass stops after the first note whose read sees another mode. `again`
   * says whether the inner `loop` starts another pass itself: only for a
   * looping sequence whose final read (number `|played|`) still sees the same
   * mode. Otherwise the chiptune arm ends and the outer loop reads the state
   * afresh (see `PlayedAsWritten`).
   */
  method ChiptunePass(s: ChiptuneSequence, master: Byte, modeChanged: nat -> bool)
    returns (played: seq<ToneRequest>, again: bool)
    ensures |played| <= PlayableLength(s) && played == ChiptuneTones(s, master)[..|played|]
    ensures forall k :: 0 <= k < |played| - 1 ==> !modeChanged(k)
    ensures |played| < PlayableLength(s) ==> |played| > 0 && modeChanged(|played| - 1)
    ensures again <==> s.looping && !modeChanged(|played|)
  {
    ghost var all := ChiptuneTones(s, master);
    var n := Min(s.length, NOTE_CAPACITY);
    played := [];
    var i := 0;
    var interrupted := false;
    while i < n && !interrupted
      invariant 0 <= i <= n && n == |all|
      invariant played == all[..i]
      invariant forall k :: 0 <= k < i - 1 ==> !modeChanged(k)
      invariant interrupted <==> i > 0 && modeChanged(i - 1)
    {
      var note := s.notes[i];
      var volume := note.volume.GetOr(s.defaultVolume);
      played := played + [ToneRequest(note.frequency, note.durationMs, volume, Some(master))];
      interrupted := modeChanged(i);
      i := i + 1;
    }
    again := s.looping && !modeChanged(i);
  }

  // ----- passes over an unchanged state -----

  /**
   * The notes the speaker task plays in `passes` passes' time while the speaker
   * mode stays `Chiptune(s)` at volume `master`, as the firmware's loops are
   * written; each pass plays the clamped slice of `PlayableNotes`, so a
   * sequence claiming more than 64 notes plays here where the firmware panics.
   * After a pass of a looping sequence the inner `loop` plays the next one;
   * after a pass of a non-looping one the chiptune arm ends, and the outer
   * `loop` reads the same state and starts the same chiptune again.
   */
  function PlayedAsWritten(s: ChiptuneSequence, master: Byte, passes: nat): (ts: seq<ToneRequest>)
    ensures |ts| == passes * PlayableLength(s)
    ensures passes > 0 ==> ts[..PlayableLength(s)] == ChiptuneTones(s, master)
  {
    if passes == 0 then []
    else
      var pass := ChiptuneTones(s, master);
      PassesLength(passes, |pass|);
      if s.looping then pass + PlayedAsWritten(s, master, passes - 1)   // the inner `loop`
      else pass + PlayedAsWritten(s, master, passes - 1)                // the outer `loop`, same mode again
  }

  /**
   * The same with the `looping` flag honoured: a non-looping sequence plays
   * once however long its mode stays, a looping one plays pass after pass.
   */
  function Played(s: ChiptuneSequence, master: Byte, passes: nat): (ts: seq<ToneRequest>)
    ensures s.looping ==> |ts| == passes * PlayableLength(s)
    ensures passes > 0 ==> |ts| >= PlayableLength(s) && ts[..PlayableLength(s)] == ChiptuneTones(s, master)
  {
    if passes == 0 then []
    else
      var pass := ChiptuneTones(s, master);
      PassesLength(passes, |pass|);
      if s.looping then pass + Played(s, master, passes - 1)
      else pass
  }

  /** One more pass adds one pass's length. */
  lemma PassesLength(passes: nat, length: nat)
    requires passes > 0
    ensures (passes - 1) * length + length == passes * length
  {
  }

  /** A non-looping chiptune of at least one note plays twice in two passes' time. */
  lemma NonLoopingReplaysAsWritten(s: ChiptuneSequence, master: Byte)
    requires !s.looping && PlayableLength(s) > 0
    ensures var once := ChiptuneTones(s, master);
      PlayedAsWritten(s, master, 2) == once + once && Played(s, master, 2) == once
    ensures PlayedAsWritten(s, master, 2) != Played(s, master, 2)
  {
    var once := ChiptuneTones(s, master);
    assert PlayedAsWritten(s, master, 1) == once + [];
    assert |once + once| > |once|;
  }

  /**
   * With `looping` honoured a non-looping sequence plays exactly one pass,
   * however many passes' time its mode stays, and a looping one plays as the
   * firmware plays it.
   */
  lemma {:induction false} PlayedOnce(s: ChiptuneSequence, master: Byte, passes: nat)
    requires passes > 0
    ensures !s.looping ==> Played(s, master, passes) == ChiptuneTones(s, master)
    ensures s.looping ==> Played(s, master, passes) == PlayedAsWritten(s, master, passes)
  {
    if s.looping && passes > 1 {
      PlayedOnce(s, master, passes - 1);
    }
  }
}
