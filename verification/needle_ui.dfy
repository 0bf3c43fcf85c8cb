/** The needle display of main/tuning-ui/tuner_ui_needle.cpp, reduced to the
    values and flags its widgets show and the caches it keeps. */
module NeedleUi {
  import opened Notes
  import opened CMath
  import opened Defines

  /** The display's state: the note and indicator position it remembers,
      whether a fade animation is running, and what the widgets show. */
  datatype Needle = Needle(
    lastNote: int,
    lastPos: int,
    fading: bool,
    glyph: Glyph,
    sharpShown: bool,
    opacity: int,
    indicatorShown: bool,
    centerShown: bool,
    frequencyShown: bool,
    centsShown: bool,
    muteShown: bool,
    animation: (int, int))

  /** needle_gui_init as written: the ruler and labels are created anew,
      so the none glyph shows with the sharp, indicator, centre mark, cents
      and mute hidden; the module-level note cache and indicator position
      keep whatever the previous display left in them. */
  function InitAsWritten(prev: Needle): (n: Needle)
    ensures n.lastNote == prev.lastNote && n.lastPos == prev.lastPos
    ensures n.glyph == NoneGlyph && !n.sharpShown && !n.fading && n.opacity == 100
    ensures !n.indicatorShown && !n.centerShown && !n.centsShown && !n.muteShown
  {
    Needle(prev.lastNote, prev.lastPos, false, NoneGlyph, false, 100, false, false, true, false, false, (0, 0))
  }

  /** The first init after boot: the caches still hold their static
      initial values, so nothing is remembered and the indicator is at 0;
      a second init straight after it would change nothing. */
  function Initial(): (n: Needle)
    ensures n.lastNote == NoteNone && n.lastPos == 0 && !n.fading
    ensures Consistent(n)
    ensures InitAsWritten(n) == n
  {
    Needle(NoteNone, 0, false, NoneGlyph, false, 100, false, false, true, false, false, (0, 0))
  }

  /** needle_gui_init as intended: the same widgets, and caches that are
      forgotten along with the widgets they described, so that whatever
      the needle showed before, it is back in its power-on state. */
  function Init(prev: Needle): (n: Needle)
    ensures n.lastNote == NoteNone && n.lastPos == 0
    ensures n == Initial()
    ensures Consistent(n)
  {
    InitAsWritten(prev).(lastNote := NoteNone, lastPos := 0)
  }

  /** Coming back to the needle with the note it showed before the
      settings: the cache says that note is on screen, so the display call
      skips the redraw and the fresh none glyph stays, contradicting the
      cache. */
  lemma StaleGlyphAfterReinit(n: Needle, note: int, cents: real, mute: bool, inTuneWidth: int, screenWidth: int)
    requires IsNote(note) && n.lastNote == note
    ensures var r := Display(InitAsWritten(n), note, cents, mute, inTuneWidth, screenWidth);
      r.lastNote == note && r.glyph == NoneGlyph && !Consistent(r)
  {
  }

  /** With the caches forgotten, the first note after a re-init is drawn,
      whichever note the display showed before. */
  lemma ReinitDrawsNote(prev: Needle, note: int, cents: real, mute: bool, inTuneWidth: int, screenWidth: int)
    requires IsNote(note)
    ensures var r := Display(Init(prev), note, cents, mute, inTuneWidth, screenWidth);
      r.glyph == LetterGlyph(SpellingOf(note).value.letter) && r.sharpShown == SpellingOf(note).value.sharp
  {
    DisplayedNoteIsDrawn(Init(prev), note, cents, mute, inTuneWidth, screenWidth);
  }

  /** The glyph on screen spells the remembered note, whenever that is one
      of the twelve notes. */
  predicate Consistent(n: Needle) {
    IsNote(n.lastNote) ==>
      && n.glyph == LetterGlyph(SpellingOf(n.lastNote).value.letter)
      && n.sharpShown == SpellingOf(n.lastNote).value.sharp
  }

  /** needle_update_note_name: a note stops any fade, restores full opacity
      and draws its spelling; NONE starts the fade; anything else is
      ignored. */
  function UpdateNoteName(n: Needle, note: int): (r: Needle)
    ensures IsNote(note) ==>
      && r.glyph == LetterGlyph(SpellingOf(note).value.letter)
      && r.sharpShown == SpellingOf(note).value.sharp
      && r.opacity == 100 && !r.fading
    ensures note == NoteNone ==> r == n.(fading := true)
    ensures !IsNote(note) && note != NoteNone ==> r == n
    ensures r.lastNote == n.lastNote && r.lastPos == n.lastPos
  {
    match NameUpdateFor(note)
    case Draw(sp) => n.(glyph := LetterGlyph(sp.letter), sharpShown := sp.sharp, opacity := 100, fading := false)
    case StartFade => n.(fading := true)
    case Ignore => n
  }

  /** One frame of the fade animation sets the note's opacity. */
  function FadeTick(n: Needle, value: int): (r: Needle)
    ensures r == n.(opacity := value)
  {
    n.(opacity := value)
  }

  /** The fade's completion: no note remembered, the none glyph, sharp,
      indicator and centre mark hidden, full opacity, no fade running. */
  function FadeCompleted(n: Needle): (r: Needle)
    ensures r.lastNote == NoteNone && r.glyph == NoneGlyph && !r.sharpShown
    ensures !r.indicatorShown && !r.centerShown && r.opacity == 100 && !r.fading
    ensures r.lastPos == n.lastPos && r.frequencyShown == n.frequencyShown && r.centsShown == n.centsShown
  {
    n.(lastNote := NoteNone, glyph := NoneGlyph, sharpShown := false,
       indicatorShown := false, centerShown := false, opacity := 100, fading := false)
  }

  /** Where the indicator bar goes: the centre inside half the in-tune
      width (integer halving), otherwise one pixel segment per whole cent,
      a segment being screen_width / 100 pixels. */
  function IndicatorTarget(cents: real, inTuneWidth: int, screenWidth: int): (x: int)
    ensures Abs(cents) <= (inTuneWidth / 2) as real ==> x == 0
  {
    if Abs(cents) <= (inTuneWidth / 2) as real then 0
    else
      var segmentWidthCents := CentsPerSemitone / IndicatorSegments as real;
      Trunc(cents / segmentWidthCents) * (screenWidth / IndicatorSegments)
  }

  /** The indicator lies on the side of the centre the cents say, and
      within half the screen width for cents in [-50, 50]. */
  lemma IndicatorOnScreen(cents: real, inTuneWidth: int, screenWidth: int)
    requires -50.0 <= cents <= 50.0 && screenWidth >= 0 && inTuneWidth >= 0
    ensures var x := IndicatorTarget(cents, inTuneWidth, screenWidth);
      && (cents >= 0.0 ==> x >= 0) && (cents <= 0.0 ==> x <= 0)
      && -(screenWidth / 2) <= x <= screenWidth / 2
  {
    var w := screenWidth / IndicatorSegments;
    var t := Trunc(cents);
    assert -50 <= t <= 50;
    ScaledBound(t, w);
    assert 50 * w <= screenWidth / 2;
  }

  lemma ScaledBound(t: int, w: int)
    requires -50 <= t <= 50 && w >= 0
    ensures -50 * w <= t * w <= 50 * w
    ensures t >= 0 ==> t * w >= 0
    ensures t <= 0 ==> t * w <= 0
  {
  }

  /** More cents never move the indicator left. */
  lemma IndicatorMonotone(c1: real, c2: real, inTuneWidth: int, screenWidth: int)
    requires c1 <= c2 && screenWidth >= 0 && inTuneWidth >= 0
    ensures IndicatorTarget(c1, inTuneWidth, screenWidth) <= IndicatorTarget(c2, inTuneWidth, screenWidth)
  {
    var w := screenWidth / IndicatorSegments;
    var t1 := Trunc(c1);
    var t2 := Trunc(c2);
    assert t1 <= t2;
    MulMonotone(t1, t2, w);
  }

  lemma MulMonotone(a: int, b: int, w: int)
    requires a <= b && w >= 0
    ensures a * w <= b * w
    ensures a >= 0 ==> a * w >= 0
    ensures b <= 0 ==> b * w <= 0
  {
  }

  /** needle_gui_display_frequency. */
  function Display(n: Needle, note: int, cents: real, mute: bool, inTuneWidth: int, screenWidth: int): (r: Needle)
    ensures note < 0 ==> r == n
    ensures note >= 0 ==> r.muteShown == mute
    ensures note >= 0 && note != NoteNone ==>
      && r.lastNote == note && r.frequencyShown && r.centsShown && r.indicatorShown && r.centerShown
      && r.animation == (n.lastPos, IndicatorTarget(cents, inTuneWidth, screenWidth))
      && r.lastPos == IndicatorTarget(cents, inTuneWidth, screenWidth)
    ensures note >= 0 && note == n.lastNote ==>
      r.glyph == n.glyph && r.sharpShown == n.sharpShown && r.opacity == n.opacity && r.fading == n.fading
    ensures note == NoteNone ==>
      && r.lastNote == NoteNone && !r.frequencyShown && !r.centsShown && r.lastPos == n.lastPos
      && (r.fading <==> n.fading || n.lastNote != NoteNone)
  {
    if note < 0 then n
    else
      var m :=
        if note != NoteNone then
          var named := if n.lastNote != note then UpdateNoteName(n, note).(lastNote := note) else n;
          var x := IndicatorTarget(cents, inTuneWidth, screenWidth);
          named.(frequencyShown := true, animation := (n.lastPos, x), lastPos := x,
                 indicatorShown := true, centsShown := true, centerShown := true)
        else
          var named := if n.lastNote != NoteNone then UpdateNoteName(n, NoteNone).(lastNote := NoteNone) else n;
          named.(centsShown := false, frequencyShown := false);
      m.(muteShown := mute)
  }

  /** The cache never lets the screen disagree with the remembered note:
      display calls and fade events keep Consistent. */
  lemma DisplayKeepsConsistent(n: Needle, note: int, cents: real, mute: bool, inTuneWidth: int, screenWidth: int)
    requires Consistent(n)
    ensures Consistent(Display(n, note, cents, mute, inTuneWidth, screenWidth))
    ensures Consistent(FadeCompleted(n))
    ensures Consistent(FadeTick(n, cents.Floor))
  {
  }

  /** So after any display call with a note, that note's spelling is on
      screen, whether or not the glyph was redrawn. */
  lemma DisplayedNoteIsDrawn(n: Needle, note: int, cents: real, mute: bool, inTuneWidth: int, screenWidth: int)
    requires Consistent(n) && IsNote(note)
    ensures var r := Display(n, note, cents, mute, inTuneWidth, screenWidth);
      r.glyph == LetterGlyph(SpellingOf(note).value.letter) && r.sharpShown == SpellingOf(note).value.sharp
  {
    DisplayKeepsConsistent(n, note, cents, mute, inTuneWidth, screenWidth);
  }
}
