/** The note quiz of main/tuning-ui/tuner_ui_note_quiz.cpp: a random
    target note and a preview of the next one; holding the target for
    100 ms advances the quiz. The hardware random number generator is a
    finite stream of 32-bit words held in the state. */
module NoteQuiz {
  import opened Wrappers
  import opened Notes
  import opened CMath
  import opened Palette

  /** How long the target must be held before the quiz moves on. */
  const TargetNoteDurationMs: int := 100
  const InTuneSliderOffset: int := 18

  datatype Quiz = Quiz(
    target: int,
    upcoming: int,
    lastNote: int,
    changeTimeMs: int,
    targetGlyph: Glyph,
    targetSharp: bool,
    nextGlyph: Glyph,
    nextSharp: bool,
    noteLabel: int,
    frequencyShown: bool,
    centsShown: bool,
    slidersShown: bool,
    leftColour: Colour,
    rightColour: Colour,
    leftX: int,
    rightX: int,
    muteShown: bool,
    userColour: Colour,
    draws: seq<nat>)

  /** Either no quiz has started, or the target and the preview are two
      different notes; and a change time is recorded exactly while a
      reading is remembered. */
  predicate Valid(q: Quiz) {
    && (q.target == NoteNone ==> q.upcoming == NoteNone)
    && (q.target != NoteNone ==> IsNote(q.target) && IsNote(q.upcoming) && q.upcoming != q.target)
    && (q.lastNote == NoteNone <==> q.changeTimeMs == -1)
    && q.changeTimeMs >= -1
  }

  /** quiz_gui_init: no target, no preview, no remembered reading, and a
      fresh note label showing "-"; the note colour comes from the palette
      setting. */
  function Init(q: Quiz, palette: int): (r: Quiz)
    ensures Valid(r) && r.target == NoteNone && r.draws == q.draws
    ensures r.userColour == NoteColour(palette)
    ensures r.targetGlyph == NoneGlyph && r.nextGlyph == NoneGlyph && r.slidersShown
    ensures r.noteLabel == NoteNone && r.lastNote == NoteNone
  {
    q.(target := NoteNone, upcoming := NoteNone, lastNote := NoteNone, changeTimeMs := -1, noteLabel := NoteNone,
       targetGlyph := NoneGlyph, targetSharp := false, nextGlyph := NoneGlyph, nextSharp := false,
       frequencyShown := false, centsShown := false, slidersShown := true, leftColour := PaletteMain(Grey),
       rightColour := PaletteMain(Grey), leftX := -InTuneSliderOffset, rightX := InTuneSliderOffset,
       muteShown := false, userColour := NoteColour(palette))
  }

  /** get_random_note: draws words until one, taken modulo 12, differs
      from the excluded note. The result is that note and how many words
      were used; None when the stream ends first. */
  function RandomNote(draws: seq<nat>, exclude: int): (r: Option<(int, nat)>)
    decreases |draws|
    ensures r.Some? ==>
      && IsNote(r.value.0) && r.value.0 != exclude
      && 1 <= r.value.1 <= |draws| && r.value.0 == draws[r.value.1 - 1] % NoteNone
      && forall k :: 0 <= k < r.value.1 - 1 ==> draws[k] % NoteNone == exclude
    ensures r.None? ==> forall k :: 0 <= k < |draws| ==> draws[k] % NoteNone == exclude
  {
    if |draws| == 0 then None
    else
      var n := draws[0] % NoteNone;
      if n == exclude then
        match RandomNote(draws[1..], exclude)
        case None => None
        case Some(found) => Some((found.0, found.1 + 1))
      else Some((n, 1))
  }

  /** The first draw already decides unless it repeats the excluded note. */
  lemma FirstDifferentDrawWins(draws: seq<nat>, exclude: int)
    requires |draws| > 0 && draws[0] % NoteNone != exclude
    ensures RandomNote(draws, exclude) == Some((draws[0] % NoteNone, 1))
  {
  }

  /** The image and sharp flag quiz_update_note_name shows for a note; the
      none glyph for NONE, nothing for anything else. */
  function QuizName(note: int): (r: Option<(Glyph, bool)>)
    ensures IsNote(note) ==> r == Some((LetterGlyph(SpellingOf(note).value.letter), SpellingOf(note).value.sharp))
    ensures note == NoteNone ==> r == Some((NoneGlyph, false))
    ensures r.None? <==> !IsNote(note) && note != NoteNone
  {
    match NameUpdateFor(note)
    case Draw(sp) => Some((LetterGlyph(sp.letter), sp.sharp))
    case StartFade => Some((NoneGlyph, false))
    case Ignore => None
  }

  /** Shows the target and the preview. */
  function ShowTargets(q: Quiz): (r: Quiz)
    requires IsNote(q.target) && IsNote(q.upcoming)
    ensures r.targetGlyph == LetterGlyph(SpellingOf(q.target).value.letter)
    ensures r.nextGlyph == LetterGlyph(SpellingOf(q.upcoming).value.letter)
    ensures r == q.(targetGlyph := r.targetGlyph, targetSharp := r.targetSharp,
                    nextGlyph := r.nextGlyph, nextSharp := r.nextSharp)
  {
    var t := QuizName(q.target).value;
    var u := QuizName(q.upcoming).value;
    q.(targetGlyph := t.0, targetSharp := t.1, nextGlyph := u.0, nextSharp := u.1)
  }

  /** The next target: the preview, or a random note the first time. */
  function PickTarget(q: Quiz): (r: Option<(int, seq<nat>)>)
    requires Valid(q)
    ensures r.Some? ==>
      && IsNote(r.value.0) && r.value.0 != q.target
      && (q.upcoming != NoteNone ==> r.value.0 == q.upcoming && r.value.1 == q.draws)
      && |r.value.1| <= |q.draws|
  {
    if q.upcoming == NoteNone then
      match RandomNote(q.draws, q.target)
      case None => None
      case Some(found) => Some((found.0, q.draws[found.1..]))
    else Some((q.upcoming, q.draws))
  }

  /** quiz_set_new_target_note: the preview becomes the target (a random
      note the first time), then a new preview different from it is
      drawn. */
  function SetNewTarget(q: Quiz): (r: Option<Quiz>)
    requires Valid(q)
    ensures r.Some? ==>
      && Valid(r.value) && r.value.target != q.target
      && (q.upcoming != NoteNone ==> r.value.target == q.upcoming)
      && r.value.targetGlyph == LetterGlyph(SpellingOf(r.value.target).value.letter)
      && r.value.nextGlyph == LetterGlyph(SpellingOf(r.value.upcoming).value.letter)
      && r.value.lastNote == q.lastNote && r.value.changeTimeMs == q.changeTimeMs
      && r.value.userColour == q.userColour && |r.value.draws| < |q.draws|
  {
    var first :- PickTarget(q);
    var next :- RandomNote(first.1, first.0);
    var chosen := q.(target := first.0, upcoming := next.0, draws := first.1[next.1..]);
    Some(ShowTargets(chosen))
  }

  /** Consecutive targets always differ, and the preview is the note that
      comes next. */
  lemma TargetsNeverRepeat(q: Quiz)
    requires Valid(q)
    ensures match SetNewTarget(q)
      case None => true
      case Some(r) =>
        && r.target != q.target && r.upcoming != r.target
        && match SetNewTarget(r)
           case None => true
           case Some(r2) => r2.target == r.upcoming && r2.target != r.target
  {
  }

  /** The slider colours: in tune lights both sides; otherwise only the
      side towards which the note must move is lit. */
  function SliderColours(cents: real, inTuneWidth: int, user: Colour): (c: (Colour, Colour))
    ensures Abs(cents) <= inTuneWidth as real ==> c == (user, user)
    ensures Abs(cents) > inTuneWidth as real && cents > 0.0 ==> c == (user, PaletteMain(Grey))
    ensures Abs(cents) > inTuneWidth as real && cents < 0.0 ==> c == (PaletteMain(Grey), user)
  {
    var inTune := Abs(cents) <= inTuneWidth as real;
    (if inTune || cents > 0.0 then user else PaletteMain(Grey),
     if inTune || cents < 0.0 then user else PaletteMain(Grey))
  }

  /** The slider offsets: the left half moves out for flat readings only,
      the right half for sharp readings only. */
  function SliderOffsets(cents: real): (x: (int, int))
    ensures cents >= 0.0 ==> x.0 == -InTuneSliderOffset
    ensures cents <= 0.0 ==> x.1 == InTuneSliderOffset
    ensures cents < 0.0 ==> x.0 <= -InTuneSliderOffset
    ensures cents > 0.0 ==> x.1 >= InTuneSliderOffset
  {
    (Trunc(cents * (if cents >= 0.0 then 0.0 else 1.0) - InTuneSliderOffset as real),
     Trunc(cents * (if cents <= 0.0 then 0.0 else 1.0) + InTuneSliderOffset as real))
  }

  /** The reading part for a detected note: labels and sliders shown, the
      change time recorded for a new reading. */
  function Heard(q: Quiz, note: int, nowMs: nat): (r: Quiz)
    ensures r.lastNote == note && r.noteLabel == (if q.lastNote != note then note else q.noteLabel)
    ensures r.changeTimeMs == (if q.lastNote != note then nowMs else q.changeTimeMs)
    ensures r.frequencyShown && r.centsShown && r.slidersShown
    ensures r == q.(lastNote := r.lastNote, noteLabel := r.noteLabel, changeTimeMs := r.changeTimeMs,
                    frequencyShown := true, centsShown := true, slidersShown := true)
  {
    var shown := q.(frequencyShown := true, centsShown := true, slidersShown := true);
    if q.lastNote != note then shown.(noteLabel := note, lastNote := note, changeTimeMs := nowMs)
    else shown
  }

  /** quiz_gui_display_frequency; now is the boot clock in milliseconds.
      None only when the random stream ran out. */
  function Display(q: Quiz, note: int, cents: real, mute: bool, inTuneWidth: int, nowMs: nat): (r: Option<Quiz>)
    requires Valid(q)
    ensures note < 0 ==> r == Some(q)
    ensures r.Some? ==> Valid(r.value)
    ensures r.Some? && note >= 0 ==> r.value.target != NoteNone && r.value.muteShown == mute
    ensures r.Some? && note >= 0 && note != NoteNone ==>
      && r.value.lastNote == note && r.value.slidersShown
      && (r.value.leftColour, r.value.rightColour) == SliderColours(cents, inTuneWidth, q.userColour)
      && (r.value.leftX, r.value.rightX) == SliderOffsets(cents)
    ensures r.Some? && note == NoteNone ==>
      && r.value.lastNote == NoteNone && r.value.changeTimeMs == -1
      && !r.value.slidersShown && !r.value.frequencyShown && !r.value.centsShown
  {
    if note < 0 then Some(q)
    else
      var started :- if q.target == NoteNone then SetNewTarget(q) else Some(q);
      var m :-
        if note != NoteNone then
          var h := Heard(started, note, nowMs);
          var elapsed := nowMs - h.changeTimeMs;
          var advanced :-
            if note == h.target && elapsed >= TargetNoteDurationMs then SetNewTarget(h) else Some(h);
          var colours := SliderColours(cents, inTuneWidth, q.userColour);
          var offsets := SliderOffsets(cents);
          Some(advanced.(leftColour := colours.0, rightColour := colours.1, leftX := offsets.0, rightX := offsets.1))
        else
          var cleared := if started.lastNote != NoteNone then started.(noteLabel := note, lastNote := NoteNone) else started;
          Some(cleared.(centsShown := false, frequencyShown := false, slidersShown := false, changeTimeMs := -1));
      Some(m.(muteShown := mute))
  }

  /** The quiz moves on only when the reading is the target and the same
      reading was already showing at least 100 ms earlier; a new reading
      never advances it in the frame it appears. */
  lemma AdvancesOnlyAfterHold(q: Quiz, note: int, cents: real, mute: bool, inTuneWidth: int, nowMs: nat)
    requires Valid(q) && q.target != NoteNone
    ensures match Display(q, note, cents, mute, inTuneWidth, nowMs)
      case None => true
      case Some(r) =>
        r.target != q.target ==>
          && note == q.target && q.lastNote == note
          && nowMs - q.changeTimeMs >= TargetNoteDurationMs
  {
  }

  /** A held target advances the quiz, to the note that was previewed. */
  lemma HeldTargetAdvances(q: Quiz, cents: real, mute: bool, inTuneWidth: int, nowMs: nat)
    requires Valid(q) && q.target != NoteNone && q.lastNote == q.target
    requires nowMs - q.changeTimeMs >= TargetNoteDurationMs
    ensures match Display(q, q.target, cents, mute, inTuneWidth, nowMs)
      case None => true
      case Some(r) => r.target == q.upcoming
  {
  }
}
