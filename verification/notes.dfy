/** Note indices and the note-name glyph mapping that every tuning display
    shares (the switch in needle_update_note_name and its copies). */
module Notes {
  import opened Wrappers

  /** TunerNoteName is a plain C enum: 0 = C, 1 = C#, ..., 11 = B, and 12
      means "no note". Negative values do reach the displays, so a note is
      modelled as an int. */
  const NoteNone: int := 12
  const NotesPerOctave: int := 12

  predicate IsNote(n: int) {
    0 <= n < NotesPerOctave
  }

  datatype Letter = C | D | E | F | G | A | B

  /** Position of a natural note within the octave. */
  function NaturalPitch(l: Letter): (p: int)
    ensures IsNote(p)
  {
    match l
    case C => 0
    case D => 2
    case E => 4
    case F => 5
    case G => 7
    case A => 9
    case B => 11
  }

  /** How a note is drawn: a letter glyph and whether the sharp sign shows. */
  datatype Spelling = Spelling(letter: Letter, sharp: bool)

  /** E and B have no sharp of their own in the firmware's note set. */
  predicate Spellable(s: Spelling) {
    s.sharp ==> s.letter != E && s.letter != B
  }

  function PitchOf(s: Spelling): int {
    NaturalPitch(s.letter) + (if s.sharp then 1 else 0)
  }

  /** The glyph and sharp visibility chosen for a note. NONE and every value
      outside 0..11 have no spelling (the displays treat those separately). */
  function SpellingOf(note: int): (r: Option<Spelling>)
    ensures r.Some? <==> IsNote(note)
    ensures r.Some? ==> PitchOf(r.value) == note && Spellable(r.value)
  {
    if note == 0 then Some(Spelling(C, false))
    else if note == 1 then Some(Spelling(C, true))
    else if note == 2 then Some(Spelling(D, false))
    else if note == 3 then Some(Spelling(D, true))
    else if note == 4 then Some(Spelling(E, false))
    else if note == 5 then Some(Spelling(F, false))
    else if note == 6 then Some(Spelling(F, true))
    else if note == 7 then Some(Spelling(G, false))
    else if note == 8 then Some(Spelling(G, true))
    else if note == 9 then Some(Spelling(A, false))
    else if note == 10 then Some(Spelling(A, true))
    else if note == 11 then Some(Spelling(B, false))
    else None
  }

  /** Every spelling the displays can draw is produced by exactly one note. */
  lemma SpellingRoundTrip(s: Spelling)
    requires Spellable(s)
    ensures IsNote(PitchOf(s))
    ensures SpellingOf(PitchOf(s)) == Some(s)
  {
    match s.letter
    case C =>
    case D =>
    case E =>
    case F =>
    case G =>
    case A =>
    case B =>
  }

  /** A note shows the sharp sign iff it is one of the five black keys. */
  lemma SharpIffBlackKey(note: int)
    requires IsNote(note)
    ensures SpellingOf(note).value.sharp <==> note in {1, 3, 6, 8, 10}
  {
  }

  /** The note-name image: a letter, or the "no note" glyph. */
  datatype Glyph = LetterGlyph(letter: Letter) | NoneGlyph

  /** What a display's update_note_name switch does with a note: draw its
      spelling, start the fade for NONE, or return at once for anything
      else (negative values and values above 12). */
  datatype NameUpdate = Draw(spelling: Spelling) | StartFade | Ignore

  function NameUpdateFor(note: int): (u: NameUpdate)
    ensures u.Draw? <==> IsNote(note)
    ensures u.Draw? ==> SpellingOf(note) == Some(u.spelling)
    ensures u.StartFade? <==> note == NoteNone
  {
    match SpellingOf(note)
    case Some(sp) => Draw(sp)
    case None => if note == NoteNone then StartFade else Ignore
  }
}
