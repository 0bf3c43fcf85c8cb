/** The attitude-indicator display of main/tuning-ui/tuner_ui_attitude.cpp:
    a horizon that moves 2.5 pixels per cent, tick colours, a fixed ruler
    and the note-name cache with its fade. */
module AttitudeUi {
  import opened Notes
  import opened CMath
  import opened Palette
  import US = UserSettings

  const PortraitVerticalOffset: int := -30
  const LandscapeVerticalOffset: int := -10
  /** Pixels the horizon moves per cent. */
  const ResolutionFactor: real := 2.5

  datatype Attitude = Attitude(
    landscape: bool,
    lastNote: int,
    fading: bool,
    glyph: Glyph,
    sharpShown: bool,
    opacity: int,
    frequencyShown: bool,
    centsShown: bool,
    tickColour: Colour,
    sliderY: int,
    muteShown: bool)

  /** The landscape test of attitude_gui_init. */
  function IsLandscape(orientation: int): (b: bool)
    ensures b <==> orientation == US.OrientationLeft || orientation == US.OrientationRight
  {
    orientation == US.OrientationLeft || orientation == US.OrientationRight
  }

  function BaseOffset(landscape: bool): int {
    if landscape then LandscapeVerticalOffset else PortraitVerticalOffset
  }

  /** attitude_gui_init: the layout follows the orientation, the slider
      rests at the base offset, every widget is created afresh (labels
      hidden, white ticks, an opaque note container) and the note cache is
      left as it was. */
  function Init(a: Attitude, orientation: int): (r: Attitude)
    ensures r.landscape == IsLandscape(orientation) && r.sliderY == BaseOffset(r.landscape)
    ensures r.glyph == NoneGlyph && !r.sharpShown && r.lastNote == a.lastNote && r.fading == a.fading
    ensures !r.frequencyShown && !r.centsShown && !r.muteShown
    ensures r.tickColour == White && r.opacity == 100
  {
    var l := IsLandscape(orientation);
    a.(landscape := l, sliderY := BaseOffset(l), glyph := NoneGlyph, sharpShown := false,
       frequencyShown := false, centsShown := false, muteShown := false, tickColour := White, opacity := 100)
  }

  /** The slider's vertical offset: the base minus 2.5 pixels per cent,
      converted to an integer coordinate. */
  function SliderOffset(landscape: bool, cents: real): (y: int)
    ensures cents == 0.0 ==> y == BaseOffset(landscape)
  {
    Trunc(BaseOffset(landscape) as real + cents * ResolutionFactor * -1.0)
  }

  /** Sharper notes raise the horizon: the offset never grows with the
      cents, and whole steps of 0.4 cents move it exactly one pixel. */
  lemma SliderMovesAgainstCents(landscape: bool, c1: real, c2: real)
    requires c1 <= c2
    ensures SliderOffset(landscape, c2) <= SliderOffset(landscape, c1)
    ensures SliderOffset(landscape, 4.0) == BaseOffset(landscape) - 10
    ensures SliderOffset(landscape, -4.0) == BaseOffset(landscape) + 10
  {
    TruncMonotone(BaseOffset(landscape) as real - c2 * 2.5, BaseOffset(landscape) as real - c1 * 2.5);
  }

  lemma TruncMonotone(x: real, y: real)
    requires x <= y
    ensures Trunc(x) <= Trunc(y)
  {
  }

  /** Side ticks: orange within the in-tune width, white outside. */
  function TickColour(cents: real, inTuneWidth: int): (c: Colour)
    ensures c == PaletteMain(Orange) <==> Abs(cents) <= inTuneWidth as real
    ensures c == White <==> Abs(cents) > inTuneWidth as real
  {
    if Abs(cents) <= inTuneWidth as real then PaletteMain(Orange) else White
  }

  /** attitude_update_note_name, the shared switch with a fade animation. */
  function UpdateNoteName(a: Attitude, note: int): (r: Attitude)
    ensures IsNote(note) ==>
      && r.glyph == LetterGlyph(SpellingOf(note).value.letter)
      && r.sharpShown == SpellingOf(note).value.sharp && r.opacity == 100 && !r.fading
    ensures note == NoteNone ==> r == a.(fading := true)
    ensures !IsNote(note) && note != NoteNone ==> r == a
    ensures r.lastNote == a.lastNote
  {
    match NameUpdateFor(note)
    case Draw(sp) => a.(glyph := LetterGlyph(sp.letter), sharpShown := sp.sharp, opacity := 100, fading := false)
    case StartFade => a.(fading := true)
    case Ignore => a
  }

  /** Fade completion: the none glyph, no sharp, nothing remembered, full
      opacity. */
  function FadeCompleted(a: Attitude): (r: Attitude)
    ensures r.lastNote == NoteNone && r.glyph == NoneGlyph && !r.sharpShown && r.opacity == 100 && !r.fading
    ensures r.sliderY == a.sliderY && r.tickColour == a.tickColour
  {
    a.(sharpShown := false, glyph := NoneGlyph, lastNote := NoteNone, opacity := 100, fading := false)
  }

  /** attitude_gui_display_frequency. */
  function Display(a: Attitude, note: int, cents: real, mute: bool, inTuneWidth: int): (r: Attitude)
    ensures note < 0 ==> r == a
    ensures note >= 0 ==> r.muteShown == mute && r.landscape == a.landscape
    ensures note >= 0 && note != NoteNone ==>
      && r.lastNote == note && r.frequencyShown && r.centsShown
      && r.tickColour == TickColour(cents, inTuneWidth)
      && r.sliderY == SliderOffset(a.landscape, cents)
    ensures note >= 0 && note == a.lastNote ==>
      r.glyph == a.glyph && r.sharpShown == a.sharpShown && r.fading == a.fading
    ensures note == NoteNone ==>
      && r.lastNote == NoteNone && !r.frequencyShown && !r.centsShown
      && r.sliderY == a.sliderY && r.tickColour == a.tickColour
  {
    if note < 0 then a
    else
      var m :=
        if note != NoteNone then
          var named := if a.lastNote != note then UpdateNoteName(a, note).(lastNote := note) else a;
          named.(frequencyShown := true, centsShown := true, tickColour := TickColour(cents, inTuneWidth),
                 sliderY := SliderOffset(a.landscape, cents))
        else
          var named := if a.lastNote != NoteNone then UpdateNoteName(a, NoteNone).(lastNote := NoteNone) else a;
          named.(centsShown := false, frequencyShown := false);
      m.(muteShown := mute)
  }

  /** The glyph spells the remembered note whenever that is a note. */
  predicate Consistent(a: Attitude) {
    IsNote(a.lastNote) ==>
      && a.glyph == LetterGlyph(SpellingOf(a.lastNote).value.letter)
      && a.sharpShown == SpellingOf(a.lastNote).value.sharp
  }

  lemma DisplayKeepsConsistent(a: Attitude, note: int, cents: real, mute: bool, inTuneWidth: int)
    requires Consistent(a)
    ensures Consistent(Display(a, note, cents, mute, inTuneWidth))
    ensures Consistent(FadeCompleted(a))
    ensures IsNote(note) ==>
      Display(a, note, cents, mute, inTuneWidth).glyph == LetterGlyph(SpellingOf(note).value.letter)
  {
  }


  /** attitude_gui_init as intended: the note cache is forgotten along with
      the glyph it described. */
  function InitCorrected(a: Attitude, orientation: int): (r: Attitude)
    ensures r.landscape == IsLandscape(orientation) && r.sliderY == BaseOffset(r.landscape)
    ensures r.glyph == NoneGlyph && !r.sharpShown && r.lastNote == NoteNone && !r.fading
    ensures !r.frequencyShown && !r.centsShown && !r.muteShown
    ensures r.tickColour == White && r.opacity == 100
    ensures Init(r, orientation) == r
    ensures Consistent(r)
  {
    Init(a, orientation).(lastNote := NoteNone, fading := false)
  }

  /** Coming back to the attitude display with the note it showed before
      the settings leaves the fresh none glyph under a cache that names the
      note; after the intended init the note is drawn. */
  lemma StaleGlyphAfterReinit(a: Attitude, orientation: int, note: int, cents: real, mute: bool, inTuneWidth: int)
    requires IsNote(note) && a.lastNote == note
    ensures var r := Display(Init(a, orientation), note, cents, mute, inTuneWidth);
      r.lastNote == note && r.glyph == NoneGlyph && !Consistent(r)
    ensures Display(InitCorrected(a, orientation), note, cents, mute, inTuneWidth).glyph ==
      LetterGlyph(SpellingOf(note).value.letter)
  {
    DisplayKeepsConsistent(InitCorrected(a, orientation), note, cents, mute, inTuneWidth);
  }

  // ---------------------------------------------------------------------
  // The ruler
  // ---------------------------------------------------------------------

  /** One horizontal ruler line on the slider. */
  datatype Rung = Rung(y: int, width: int, labelled: bool)

  /** attitude_create_slider_ruler: for i = 10, 20, 30, 40 a line above and
      a line below the horizon at 2.5 * i pixels; lines with i % 20 == 0
      carry labels and are 20 + i wide, the rest are 20 wide. */
  method RulerRungs() returns (rungs: seq<Rung>)
    ensures |rungs| == 8
    ensures forall k :: 0 <= k < 4 ==>
      var i := 10 * (k + 1);
      && rungs[2 * k] == Rung(-(5 * i) / 2, if i % 20 == 0 then 20 + i else 20, i % 20 == 0)
      && rungs[2 * k + 1] == Rung((5 * i) / 2, if i % 20 == 0 then 20 + i else 20, i % 20 == 0)
  {
    rungs := [];
    var i := 10;
    while i < 50
      invariant i % 10 == 0 && 10 <= i <= 50
      invariant |rungs| == 2 * (i / 10 - 1)
      invariant forall k :: 0 <= k < i / 10 - 1 ==>
        var j := 10 * (k + 1);
        && rungs[2 * k] == Rung(-(5 * j) / 2, if j % 20 == 0 then 20 + j else 20, j % 20 == 0)
        && rungs[2 * k + 1] == Rung((5 * j) / 2, if j % 20 == 0 then 20 + j else 20, j % 20 == 0)
      decreases 50 - i
    {
      var isLabelLine := i % 20 == 0;
      var lineWidth := if isLabelLine then 20 + i else 20;
      var top := Rung(Trunc(i as real * -1.0 * ResolutionFactor), lineWidth, isLabelLine);
      var bottom := Rung(Trunc(i as real * ResolutionFactor), lineWidth, isLabelLine);
      assert top.y == -(5 * i) / 2 && bottom.y == (5 * i) / 2;
      rungs := rungs + [top, bottom];
      i := i + 10;
    }
  }
}
