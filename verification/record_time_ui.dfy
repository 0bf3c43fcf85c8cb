/** The "record time" display of main/tuning-ui/tuner_ui_record_time.cpp:
    a spinning record whose arm points at the cents, a slider, a title
    chosen at random and the timer that switches to the none glyph. */
module RecordTimeUi {
  import opened Notes
  import opened CMath

  const ArmMaxAngle: int := 30
  const ArmMinAngle: int := 14
  const ArmAngleRange: int := ArmMaxAngle - ArmMinAngle
  /** The arm's resting angle in degrees, parenthesised as intended. */
  const ArmZeroAngle: int := ArmAngleRange / 2 + ArmMinAngle
  const NumberOfTitles: int := 5
  /** Degrees the record turns per frame while a note is heard. */
  const SpinPerFrame: real := 25.0

  /** The display's state. Angles are LVGL transform angles in tenths of a
      degree; liveTimers counts the fade timers that exist, timer says
      whether the stored handle is set. */
  datatype Record = Record(
    titleIndex: int,
    lastNote: int,
    glyph: Glyph,
    sharpShown: bool,
    timer: bool,
    liveTimers: nat,
    borderOpaque: bool,
    amountToRotate: real,
    pos: real,
    arcsShifted: bool,
    armAngle: int,
    titleAngle: int,
    sliderY: int,
    muteShown: bool)

  /** The stored handle is the only fade timer in existence, if any, and a
      fade is pending only while no note is remembered. */
  predicate Valid(s: Record) {
    && s.liveTimers == (if s.timer then 1 else 0)
    && (s.timer ==> !IsNote(s.lastNote))
    && s.pos >= 0.0
  }

  /** The title picked from a random word: always one of the five images. */
  function TitleIndex(random: nat): (i: int)
    ensures 0 <= i < NumberOfTitles
    ensures random < NumberOfTitles ==> i == random
  {
    random % NumberOfTitles
  }

  /** The arm's transform angle for a reading: the resting angle plus half
      the range scaled by cents / 50, in tenths of a degree. */
  function ArmAngle(cents: real): int {
    Trunc((ArmZeroAngle as real + (ArmAngleRange / 2) as real * (cents / 50.0)) * 10.0)
  }

  /** The arm rests at 22 degrees, reaches the maximum angle at +50 cents
      and the minimum at -50, and stays between them for readings within
      half a semitone. */
  lemma ArmSpansItsRange(cents: real)
    ensures ArmAngle(0.0) == ArmZeroAngle * 10 == 220
    ensures ArmAngle(50.0) == ArmMaxAngle * 10 && ArmAngle(-50.0) == ArmMinAngle * 10
    ensures -50.0 <= cents <= 50.0 ==> ArmMinAngle * 10 <= ArmAngle(cents) <= ArmMaxAngle * 10
  {
    if -50.0 <= cents <= 50.0 {
      ArmMonotone(-50.0, cents);
      ArmMonotone(cents, 50.0);
    }
  }

  /** Sharper readings never turn the arm back. */
  lemma ArmMonotone(c1: real, c2: real)
    requires c1 <= c2
    ensures ArmAngle(c1) <= ArmAngle(c2)
  {
    var x := (ArmZeroAngle as real + (ArmAngleRange / 2) as real * (c1 / 50.0)) * 10.0;
    var y := (ArmZeroAngle as real + (ArmAngleRange / 2) as real * (c2 / 50.0)) * 10.0;
    assert (ArmAngleRange / 2) as real == 8.0;
    assert c1 / 50.0 <= c2 / 50.0;
    assert 8.0 * (c1 / 50.0) <= 8.0 * (c2 / 50.0);
    assert x <= y;
  }

  /** record_time_gui_init with its arm angle written as in the source:
      the zero-angle macro is not parenthesised, so multiplying it by ten
      scales only the minimum angle. */
  function InitAsWritten(s: Record, random: nat): (r: Record)
    ensures r.armAngle == ArmAngleRange / 2 + ArmMinAngle * 10
    ensures r.titleIndex == TitleIndex(random) && r.glyph == NoneGlyph && !r.sharpShown
    ensures r.titleAngle == 0 && r.lastNote == s.lastNote && r.timer == s.timer
  {
    Created(s, random, ArmAngleRange / 2 + ArmMinAngle * 10)
  }

  /** The freshly created screen starts 7.2 degrees away from where a
      reading of 0 cents puts the arm. */
  lemma InitialArmOffCentreAsWritten(s: Record, random: nat)
    ensures InitAsWritten(s, random).armAngle == 148
    ensures InitAsWritten(s, random).armAngle != ArmAngle(0.0)
  {
    ArmSpansItsRange(0.0);
  }

  /** record_time_gui_init as intended: the arm rests where a reading of
      0 cents puts it. */
  function Init(s: Record, random: nat): (r: Record)
    ensures r.armAngle == ArmAngle(0.0)
    ensures r.titleIndex == TitleIndex(random) && r.glyph == NoneGlyph && !r.sharpShown
    ensures !r.muteShown && !r.borderOpaque && !r.arcsShifted && r.sliderY == 0 && r.titleAngle == 0
    ensures r.lastNote == s.lastNote && r.pos == s.pos && r.timer == s.timer
  {
    ArmSpansItsRange(0.0);
    Created(s, random, ArmZeroAngle * 10)
  }

  /** The widgets as the create functions leave them (a new title image
      has no transform angle); the module-level note cache, rotation and
      timer handle keep their values. */
  function Created(s: Record, random: nat, armAngle: int): (r: Record)
    ensures r == s.(titleIndex := TitleIndex(random), glyph := NoneGlyph, sharpShown := false,
                    borderOpaque := false, arcsShifted := false, armAngle := armAngle,
                    titleAngle := 0, sliderY := 0, muteShown := false)
  {
    s.(titleIndex := TitleIndex(random), glyph := NoneGlyph, sharpShown := false,
       borderOpaque := false, arcsShifted := false, armAngle := armAngle,
       titleAngle := 0, sliderY := 0, muteShown := false)
  }

  /** Deletes the stored timer, if any. */
  function DeleteTimer(s: Record): (r: Record)
    ensures !r.timer && r == s.(timer := false, liveTimers := r.liveTimers)
    ensures s.liveTimers == (if s.timer then 1 else 0) ==> r.liveTimers == 0
  {
    if s.timer then s.(timer := false, liveTimers := if s.liveTimers > 0 then s.liveTimers - 1 else 0) else s
  }

  /** record_time_update_note_name: anything that is neither a note nor
      NONE returns at once; otherwise the pending timer goes first, then
      NONE creates a new timer and clears the in-tune border, and a note
      draws its spelling. */
  function UpdateNoteName(s: Record, note: int): (r: Record)
    ensures !IsNote(note) && note != NoteNone ==> r == s
    ensures note == NoteNone ==> r.timer && r.liveTimers >= 1 && !r.borderOpaque && r.glyph == s.glyph
    ensures IsNote(note) ==>
      && !r.timer && r.glyph == LetterGlyph(SpellingOf(note).value.letter)
      && r.sharpShown == SpellingOf(note).value.sharp
    ensures r.lastNote == s.lastNote && r.pos == s.pos && r.armAngle == s.armAngle
    ensures s.liveTimers == (if s.timer then 1 else 0) ==> r.liveTimers == (if r.timer then 1 else 0)
  {
    match NameUpdateFor(note)
    case Ignore => s
    case StartFade =>
      var d := DeleteTimer(s);
      d.(timer := true, liveTimers := d.liveTimers + 1, borderOpaque := false)
    case Draw(sp) =>
      DeleteTimer(s).(glyph := LetterGlyph(sp.letter), sharpShown := sp.sharp)
  }

  /** record_time_switch_to_none_note: the timer goes in any case; the
      glyph is cleared only when the display lock was obtained. */
  function TimerFired(s: Record, locked: bool): (r: Record)
    requires s.timer
    ensures !r.timer
    ensures locked ==> r.glyph == NoneGlyph && !r.sharpShown
    ensures !locked ==> r.glyph == s.glyph && r.sharpShown == s.sharpShown
    ensures Valid(s) ==> Valid(r)
  {
    var d := DeleteTimer(s);
    if locked then d.(glyph := NoneGlyph, sharpShown := false) else d
  }

  /** The arcs are nudged one pixel left during the first half of every
      turn. */
  function ArcsShifted(pos: real): bool {
    CRem(Trunc(pos), 360) < 180
  }

  /** The wobble repeats with every full turn of the record. */
  lemma WobbleRepeatsEachTurn(pos: real)
    requires pos >= 0.0
    ensures ArcsShifted(pos + 360.0) == ArcsShifted(pos)
    ensures ArcsShifted(pos) <==> Trunc(pos) % 360 < 180
  {
    assert Trunc(pos + 360.0) == Trunc(pos) + 360;
  }

  /** The moving parts for a frame in which the record turns. */
  function Spin(s: Record, cents: real, inTuneWidth: int): (r: Record)
    ensures r.pos == s.pos + s.amountToRotate
    ensures r.arcsShifted == ArcsShifted(r.pos)
    ensures r.armAngle == ArmAngle(cents) && r.titleAngle == Trunc(r.pos * 10.0)
    ensures r.sliderY == Trunc(-cents)
    ensures r.borderOpaque <==> Abs(cents) <= inTuneWidth as real
    ensures r == s.(pos := r.pos, arcsShifted := r.arcsShifted, armAngle := r.armAngle,
                    titleAngle := r.titleAngle, sliderY := r.sliderY, borderOpaque := r.borderOpaque)
  {
    var p := s.pos + s.amountToRotate;
    s.(pos := p, arcsShifted := ArcsShifted(p), armAngle := ArmAngle(cents),
       titleAngle := Trunc(p * 10.0), sliderY := Trunc(cents * -1.0),
       borderOpaque := Abs(cents) <= inTuneWidth as real)
  }

  /** The note branch: the glyph only for a new note, and the record keeps
      turning. */
  function ShowNote(s: Record, note: int): (r: Record)
    ensures r.lastNote == note && r.amountToRotate == SpinPerFrame && r.pos == s.pos
    ensures note == s.lastNote ==> r == s.(amountToRotate := SpinPerFrame)
    ensures IsNote(note) && note != s.lastNote ==>
      !r.timer && r.glyph == LetterGlyph(SpellingOf(note).value.letter)
    ensures IsNote(note) && (s.timer ==> !IsNote(s.lastNote)) ==> !r.timer
    ensures s.liveTimers == (if s.timer then 1 else 0) ==> r.liveTimers == (if r.timer then 1 else 0)
  {
    var named := if s.lastNote != note then UpdateNoteName(s, note).(lastNote := note) else s;
    named.(amountToRotate := SpinPerFrame)
  }

  /** The NONE branch: the record stops and a remembered note fades. */
  function HideNote(s: Record): (r: Record)
    ensures r.lastNote == NoteNone && r.amountToRotate == 0.0 && r.pos == s.pos
    ensures r.armAngle == s.armAngle && r.sliderY == s.sliderY
    ensures s.lastNote != NoteNone ==> r.timer && !r.borderOpaque
    ensures s.liveTimers == (if s.timer then 1 else 0) ==> r.liveTimers == (if r.timer then 1 else 0)
  {
    var z := s.(amountToRotate := 0.0);
    if z.lastNote != NoteNone then UpdateNoteName(z, NoteNone).(lastNote := NoteNone) else z
  }

  /** record_time_gui_display_frequency. */
  function Display(s: Record, note: int, cents: real, mute: bool, inTuneWidth: int): (r: Record)
    ensures note < 0 ==> r == s
    ensures note >= 0 ==> r.muteShown == mute && r.lastNote == note
    ensures note >= 0 && note != NoteNone ==>
      && r.pos == s.pos + SpinPerFrame && r.arcsShifted == ArcsShifted(r.pos)
      && r.armAngle == ArmAngle(cents) && r.titleAngle == Trunc(r.pos * 10.0)
      && r.sliderY == Trunc(-cents)
      && (r.borderOpaque <==> Abs(cents) <= inTuneWidth as real)
    ensures note == NoteNone ==>
      && r.pos == s.pos && r.armAngle == s.armAngle && r.sliderY == s.sliderY
      && r.titleAngle == s.titleAngle && r.arcsShifted == s.arcsShifted
    ensures Valid(s) ==> Valid(r)
  {
    if note < 0 then s
    else
      var m := if note != NoteNone then Spin(ShowNote(s, note), cents, inTuneWidth) else HideNote(s);
      m.(muteShown := mute)
  }

  /** A held note turns the record by 25 degrees a frame, the arm follows
      the cents and the glyph spells the note; silence freezes the record
      and fades the name. */
  lemma HeldNoteSpinsSilenceFreezes(s: Record, note: int, cents: real, mute: bool, inTuneWidth: int)
    requires Valid(s)
    ensures IsNote(note) ==>
      var r := Display(s, note, cents, mute, inTuneWidth);
      && r.pos > s.pos && !r.timer
      && (note != s.lastNote ==> r.glyph == LetterGlyph(SpellingOf(note).value.letter))
    ensures var r := Display(s, NoteNone, cents, mute, inTuneWidth);
      && r.pos == s.pos && r.armAngle == s.armAngle
      && (s.lastNote != NoteNone ==> r.timer && r.liveTimers == 1)
  {
  }
}
