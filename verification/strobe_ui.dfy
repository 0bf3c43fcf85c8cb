/** The strobe display of main/tuning-ui/tuner_ui_strobe.cpp: three arcs
    that turn by a tenth of the cents per frame, their colour, the labels
    and the timer that switches to the none glyph. */
module StrobeUi {
  import opened Notes
  import opened CMath
  import opened Palette

  /** The display's state. The label texts and how often each was written
      stand for the LVGL labels; liveTimers counts the fade timers that
      exist, timer says whether the stored handle is set. */
  datatype Strobe = Strobe(
    lastNote: int,
    lastFrequency: real,
    lastCents: real,
    pos: real,
    step: real,
    arcs: (int, int, int),
    arcColour: Colour,
    frequencyWrites: nat,
    centsWrites: nat,
    frequencyShown: bool,
    centsShown: bool,
    arcsShown: bool,
    glyph: Glyph,
    sharpShown: bool,
    timer: bool,
    liveTimers: nat,
    muteShown: bool)

  /** strobe_gui_init as written: labels and arcs are created anew (the
      none glyph, the sharp, labels and mute hidden, the arcs at 0 and
      white), while the module-level caches keep their values: the last
      note, frequency and cents, the rotation and its step, and the timer
      handle, which cleanup deals with. */
  function InitAsWritten(prev: Strobe): (s: Strobe)
    ensures s.lastNote == prev.lastNote && s.lastFrequency == prev.lastFrequency && s.lastCents == prev.lastCents
    ensures s.pos == prev.pos && s.step == prev.step
    ensures s.timer == prev.timer && s.liveTimers == prev.liveTimers
    ensures s.glyph == NoneGlyph && !s.sharpShown && !s.frequencyShown && !s.centsShown && !s.muteShown
    ensures s.arcs == (0, 0, 0) && s.arcColour == White && s.arcsShown
  {
    prev.(arcs := (0, 0, 0), arcColour := White, frequencyShown := false, centsShown := false,
          arcsShown := true, glyph := NoneGlyph, sharpShown := false, muteShown := false)
  }

  /** The first init after boot: the caches hold their static initial
      values; a second init straight after it would change nothing. */
  function Initial(): (s: Strobe)
    ensures s.lastNote == NoteNone && s.pos == 0.0 && !s.timer && TimerInvariant(s)
    ensures Consistent(s)
    ensures InitAsWritten(s) == s
  {
    Strobe(NoteNone, 0.0, 0.0, 0.0, 0.0, (0, 0, 0), White, 0, 0, false, false, true,
           NoneGlyph, false, false, 0, false)
  }

  /** strobe_gui_init as intended: the same widgets, with the note and the
      label caches forgotten along with the widgets they described. */
  function Init(prev: Strobe): (s: Strobe)
    ensures s.lastNote == NoteNone && s.lastFrequency == 0.0 && s.lastCents == 0.0
    ensures s.pos == prev.pos && s.timer == prev.timer && s.liveTimers == prev.liveTimers
    ensures s.frequencyWrites == prev.frequencyWrites && s.centsWrites == prev.centsWrites
    ensures InitAsWritten(s) == s
    ensures !prev.timer ==> Consistent(s)
  {
    InitAsWritten(prev).(lastNote := NoteNone, lastFrequency := 0.0, lastCents := 0.0)
  }

  /** The glyph spells the remembered note whenever that is a note, and
      no fade timer is pending then (one only exists after NONE). */
  predicate Consistent(s: Strobe) {
    IsNote(s.lastNote) ==>
      && s.glyph == LetterGlyph(SpellingOf(s.lastNote).value.letter)
      && s.sharpShown == SpellingOf(s.lastNote).value.sharp
      && !s.timer
  }

  /** The stored handle is the only fade timer in existence, if any. */
  predicate TimerInvariant(s: Strobe) {
    s.liveTimers == if s.timer then 1 else 0
  }

  /** Deletes the stored timer, if any. */
  function DeleteTimer(s: Strobe): (r: Strobe)
    ensures !r.timer && r == s.(timer := false, liveTimers := r.liveTimers)
    ensures TimerInvariant(s) ==> r.liveTimers == 0
  {
    if s.timer then s.(timer := false, liveTimers := if s.liveTimers > 0 then s.liveTimers - 1 else 0) else s
  }

  /** strobe_update_note_name: anything that is neither a note nor NONE
      returns at once; otherwise the pending timer goes first, then NONE
      creates a new 2000 ms timer and hides the arcs, and a note draws its
      spelling. */
  function UpdateNoteName(s: Strobe, note: int): (r: Strobe)
    ensures !IsNote(note) && note != NoteNone ==> r == s
    ensures note == NoteNone ==> r.timer && !r.arcsShown && r.glyph == s.glyph
    ensures IsNote(note) ==>
      && !r.timer && r.glyph == LetterGlyph(SpellingOf(note).value.letter)
      && r.sharpShown == SpellingOf(note).value.sharp
    ensures TimerInvariant(s) ==> TimerInvariant(r)
  {
    match NameUpdateFor(note)
    case Ignore => s
    case StartFade =>
      var d := DeleteTimer(s);
      d.(timer := true, liveTimers := d.liveTimers + 1, arcsShown := false)
    case Draw(sp) =>
      DeleteTimer(s).(glyph := LetterGlyph(sp.letter), sharpShown := sp.sharp)
  }

  /** strobe_switch_to_none_note, run by LVGL for the live timer. */
  function TimerFired(s: Strobe): (r: Strobe)
    requires s.timer
    ensures !r.timer && r.glyph == NoneGlyph && !r.sharpShown
    ensures r.lastNote == s.lastNote && r.arcs == s.arcs
    ensures TimerInvariant(s) ==> TimerInvariant(r)
  {
    DeleteTimer(s).(glyph := NoneGlyph, sharpShown := false)
  }

  /** strobe_gui_cleanup leaves no timer behind. */
  function Cleanup(s: Strobe): (r: Strobe)
    ensures !r.timer
    ensures TimerInvariant(s) ==> r.liveTimers == 0
  {
    DeleteTimer(s)
  }

  /** The arc colour: in tune means within the in-tune width either side;
      then the note palette, or blue when none is chosen; otherwise white. */
  function ArcColour(cents: real, inTuneWidth: int, palette: int): (c: Colour)
    ensures Abs(cents) > inTuneWidth as real ==> c == White
    ensures Abs(cents) <= inTuneWidth as real ==> c != White
    ensures Abs(cents) <= inTuneWidth as real && palette == PaletteNone ==> c == PaletteMain(Blue)
  {
    if Abs(cents) <= inTuneWidth as real then
      if palette == PaletteNone then PaletteMain(Blue) else PaletteMain(palette)
    else White
  }

  /** The three arc rotations for a position: the arcs sit a third and two
      thirds of a turn ahead of the first, each converted to an integer. */
  function ArcRotations(pos: real): (a: (int, int, int))
    ensures pos >= 0.0 ==> a.1 == a.0 + 120 && a.2 == a.0 + 240
  {
    ArcSpacing(pos);
    (Trunc(pos), Trunc(pos + 120.0), Trunc(pos + 240.0))
  }

  lemma ArcSpacing(pos: real)
    ensures pos >= 0.0 ==> Trunc(pos + 120.0) == Trunc(pos) + 120 && Trunc(pos + 240.0) == Trunc(pos) + 240
  {
  }

  /** The branch for a detected note: labels rewritten only on change,
      the glyph only for a new note, then the arc colour and the step. */
  function ShowNote(s: Strobe, frequency: real, note: int, cents: real, inTuneWidth: int, palette: int): (r: Strobe)
    ensures r.step == cents * 0.1 && r.lastNote == note && r.pos == s.pos && r.arcs == s.arcs
    ensures r.arcColour == ArcColour(cents, inTuneWidth, palette)
    ensures r.frequencyShown && r.centsShown && r.arcsShown
    ensures r.lastFrequency == frequency && r.lastCents == cents
    ensures r.frequencyWrites == s.frequencyWrites <==> frequency == s.lastFrequency
    ensures r.centsWrites == s.centsWrites <==> cents == s.lastCents
    ensures note == s.lastNote ==> r.glyph == s.glyph && r.sharpShown == s.sharpShown && r.timer == s.timer
    ensures TimerInvariant(s) ==> TimerInvariant(r)
  {
    var f := WriteFrequency(s, frequency);
    var named := if f.lastNote != note then UpdateNoteName(f, note).(lastNote := note) else f;
    var c := WriteCents(named, cents);
    c.(arcColour := ArcColour(cents, inTuneWidth, palette), step := cents * 0.1)
  }

  /** The frequency label: rewritten only when the value changed, then shown. */
  function WriteFrequency(s: Strobe, frequency: real): (r: Strobe)
    ensures r == s.(lastFrequency := frequency, frequencyShown := true, frequencyWrites := r.frequencyWrites)
    ensures r.frequencyWrites == s.frequencyWrites <==> frequency == s.lastFrequency
  {
    if s.lastFrequency != frequency then
      s.(frequencyWrites := s.frequencyWrites + 1, lastFrequency := frequency, frequencyShown := true)
    else s.(frequencyShown := true)
  }

  /** The arcs are shown, and the cents label is rewritten only when the
      value changed, then shown. */
  function WriteCents(s: Strobe, cents: real): (r: Strobe)
    ensures r == s.(lastCents := cents, centsShown := true, arcsShown := true, centsWrites := r.centsWrites)
    ensures r.centsWrites == s.centsWrites <==> cents == s.lastCents
  {
    if s.lastCents != cents then
      s.(centsWrites := s.centsWrites + 1, lastCents := cents, centsShown := true, arcsShown := true)
    else s.(centsShown := true, arcsShown := true)
  }

  /** The branch for no note: no step, the fade for a note that was
      showing, and both labels hidden. */
  function HideNote(s: Strobe): (r: Strobe)
    ensures r.step == 0.0 && r.lastNote == NoteNone && !r.frequencyShown && !r.centsShown
    ensures r.frequencyWrites == s.frequencyWrites && r.centsWrites == s.centsWrites
    ensures r.pos == s.pos && r.arcs == s.arcs
    ensures s.lastNote != NoteNone ==> r.timer && !r.arcsShown
    ensures TimerInvariant(s) ==> TimerInvariant(r)
  {
    var z := s.(step := 0.0);
    var named := if z.lastNote != NoteNone then UpdateNoteName(z, NoteNone).(lastNote := NoteNone) else z;
    named.(centsShown := false, frequencyShown := false)
  }

  /** The arcs turn only for a non-zero step. */
  function Turn(s: Strobe): (r: Strobe)
    ensures s.step == 0.0 ==> r == s
    ensures s.step != 0.0 ==> r == s.(pos := s.pos + s.step, arcs := ArcRotations(s.pos + s.step))
  {
    if s.step != 0.0 then s.(pos := s.pos + s.step, arcs := ArcRotations(s.pos + s.step)) else s
  }

  /** strobe_gui_display_frequency. */
  function Display(s: Strobe, frequency: real, note: int, cents: real, mute: bool,
                   inTuneWidth: int, palette: int): (r: Strobe)
    ensures note < 0 ==> r == s
    ensures note >= 0 ==> r.muteShown == mute
    ensures note >= 0 && note != NoteNone ==>
      && r.step == cents * 0.1 && r.lastNote == note
      && r.arcColour == ArcColour(cents, inTuneWidth, palette)
      && r.frequencyShown && r.centsShown && r.arcsShown
      && (r.frequencyWrites == s.frequencyWrites <==> frequency == s.lastFrequency)
      && (r.centsWrites == s.centsWrites <==> cents == s.lastCents)
    ensures note == NoteNone ==>
      && r.step == 0.0 && r.lastNote == NoteNone && !r.frequencyShown && !r.centsShown
      && r.frequencyWrites == s.frequencyWrites && r.centsWrites == s.centsWrites
    ensures note >= 0 && r.step == 0.0 ==> r.pos == s.pos && r.arcs == s.arcs
    ensures note >= 0 && r.step != 0.0 ==> r.pos == s.pos + r.step && r.arcs == ArcRotations(r.pos)
    ensures TimerInvariant(s) ==> TimerInvariant(r)
  {
    if note < 0 then s
    else
      var m := if note != NoteNone then ShowNote(s, frequency, note, cents, inTuneWidth, palette) else HideNote(s);
      Turn(m).(muteShown := mute)
  }

  /** However the calls interleave, at most one fade timer exists and it is
      the stored one. */
  lemma AtMostOneTimer(s: Strobe, frequency: real, note: int, cents: real, mute: bool, inTuneWidth: int, palette: int)
    requires TimerInvariant(s)
    ensures TimerInvariant(Display(s, frequency, note, cents, mute, inTuneWidth, palette))
    ensures s.timer ==> TimerInvariant(TimerFired(s))
    ensures TimerInvariant(Cleanup(s)) && Cleanup(s).liveTimers == 0
    ensures Display(s, frequency, note, cents, mute, inTuneWidth, palette).liveTimers <= 1
  {
  }

  /** A note held exactly in tune (0 cents) freezes the arcs; a sharp note
      turns them forward and a flat one backward. */
  lemma ArcsTurnWithCents(s: Strobe, frequency: real, note: int, cents: real, mute: bool, inTuneWidth: int, palette: int)
    requires IsNote(note)
    ensures var r := Display(s, frequency, note, cents, mute, inTuneWidth, palette);
      && (cents == 0.0 ==> r.pos == s.pos && r.arcs == s.arcs)
      && (cents > 0.0 ==> r.pos > s.pos)
      && (cents < 0.0 ==> r.pos < s.pos)
  {
  }

  /** Display calls, the timer and cleanup keep the glyph in step with the
      cache, so after a display call with a note its spelling is on screen. */
  lemma DisplayKeepsConsistent(s: Strobe, frequency: real, note: int, cents: real, mute: bool,
                               inTuneWidth: int, palette: int)
    requires Consistent(s)
    ensures Consistent(Display(s, frequency, note, cents, mute, inTuneWidth, palette))
    ensures s.timer ==> Consistent(TimerFired(s))
    ensures Consistent(Cleanup(s))
    ensures IsNote(note) ==>
      var r := Display(s, frequency, note, cents, mute, inTuneWidth, palette);
      r.glyph == LetterGlyph(SpellingOf(note).value.letter) && r.sharpShown == SpellingOf(note).value.sharp
  {
  }

  /** Coming back to the strobe with the note and frequency it showed
      before the settings: both caches match, so neither the glyph nor the
      frequency label is written, and the fresh none glyph stays,
      contradicting the cache. */
  lemma StaleGlyphAfterReinit(s: Strobe, frequency: real, note: int, cents: real, mute: bool,
                              inTuneWidth: int, palette: int)
    requires IsNote(note) && s.lastNote == note && !s.timer
    ensures var r := Display(InitAsWritten(s), frequency, note, cents, mute, inTuneWidth, palette);
      && r.lastNote == note && r.glyph == NoneGlyph && !Consistent(r)
      && (frequency == s.lastFrequency ==> r.frequencyWrites == s.frequencyWrites)
  {
  }

  /** After the intended init (once cleanup has removed the timer) the first
      note is drawn and a non-zero frequency is written to its label. */
  lemma ReinitDrawsNote(prev: Strobe, frequency: real, note: int, cents: real, mute: bool,
                        inTuneWidth: int, palette: int)
    requires IsNote(note)
    ensures var r := Display(Init(Cleanup(prev)), frequency, note, cents, mute, inTuneWidth, palette);
      && r.glyph == LetterGlyph(SpellingOf(note).value.letter) && r.sharpShown == SpellingOf(note).value.sharp
      && (frequency != 0.0 ==> r.frequencyWrites == prev.frequencyWrites + 1)
  {
    DisplayKeepsConsistent(Init(Cleanup(prev)), frequency, note, cents, mute, inTuneWidth, palette);
  }
}
