/** The decisions of the GUI task in main/tuner_gui_task.cpp: folding a MIDI
    note number into a note and cents, choosing the tuner display, what the
    display loop hands to it, and what a state change tears down and builds. */
module GuiTask {
  import opened Wrappers
  import opened Defines
  import opened CMath
  import opened TunerControl
  import Notes
  import Lcd
  import SettingsMenu
  import US = UserSettings

  // ---------------------------------------------------------------------
  // Note and cents from a MIDI note number
  // ---------------------------------------------------------------------

  /** A note index (0 is C) with its offset in cents. */
  datatype Pitch = Pitch(note: int, cents: real)

  /** The reference answer: the nearest semitone (halves round up), its
      place in the octave, and how far the input lies from it. */
  function NearestNote(m: real): (p: Pitch)
    ensures 0 <= p.note < Notes.NotesPerOctave
    ensures -CentsPerSemitone / 2.0 <= p.cents < CentsPerSemitone / 2.0
  {
    var k := (m + 0.5).Floor;
    Pitch(k % 12, (m - k as real) * CentsPerSemitone)
  }

  /** fmod(m, 12): what is left of m after removing whole multiples of 12
      toward zero; it keeps the sign of m. */
  function FMod12(m: real): (r: real)
    ensures m >= 0.0 ==> 0.0 <= r < 12.0
    ensures m < 0.0 ==> -12.0 < r <= 0.0
    ensures (m - r) / 12.0 == Trunc(m / 12.0) as real
  {
    m - 12.0 * Trunc(m / 12.0) as real
  }

  /** (int)fmod(m, 12) is the C remainder of (int)m by 12. */
  lemma NoteIndexIsTruncRemainder(m: real)
    ensures Trunc(FMod12(m)) == CRem(Trunc(m), 12)
  {
    var n := Trunc(m / 12.0);
    var r := FMod12(m);
    assert m == 12.0 * n as real + r;
    if m >= 0.0 {
      assert n >= 0;
      FloorShift(r, 12 * n);
      assert Trunc(m) == 12 * n + Trunc(r);
    } else {
      assert n <= 0;
      FloorShift(-r, -12 * n);
      assert Trunc(m) == 12 * n + Trunc(r);
    }
  }

  /** Adding a whole number to a non-negative value adds it to the floor. */
  lemma FloorShift(x: real, k: int)
    requires x >= 0.0 && k >= 0
    ensures (x + k as real).Floor == x.Floor + k
  {
  }

  /** The round-up step: 50 cents or more counts toward the next note,
      wrapping from B to C. */
  function RoundUp(index: int, cents: real): (p: Pitch)
    ensures cents < CentsPerSemitone / 2.0 ==> p == Pitch(index, cents)
    ensures cents >= CentsPerSemitone / 2.0 ==> p.cents == cents - CentsPerSemitone
    ensures cents >= CentsPerSemitone / 2.0 && index + 1 < 12 ==> p.note == index + 1
    ensures cents >= CentsPerSemitone / 2.0 && index + 1 >= 12 ==> p.note == 0
  {
    if cents >= CentsPerSemitone / 2.0 then
      Pitch(if index + 1 >= 12 then 0 else index + 1, cents - CentsPerSemitone)
    else
      Pitch(index, cents)
  }

  /** The guard against an index above 12. */
  function Safeguard(p: Pitch): (q: Pitch)
    ensures p.note <= 12 ==> q == p
    ensures p.note > 12 ==> q == Pitch(0, p.cents)
  {
    if p.note > 12 then p.(note := 0) else p
  }

  /** get_pitch_name_and_cents_from_frequency, as written, from the MIDI
      note number: the index and the fraction both come from truncation. */
  function FoldAsWritten(m: real): (p: Pitch)
    ensures m >= 0.0 ==> 0 <= p.note < 12 && -50.0 <= p.cents < 50.0
    ensures m < 0.0 ==> -11 <= p.note <= 0 && -100.0 < p.cents <= 0.0
  {
    NearestAgreesForNonNegative(m);
    Safeguard(RoundUp(Trunc(FMod12(m)), (m - Trunc(m) as real) * CentsPerSemitone))
  }

  /** For m >= 0 the as-written folding is the nearest note, and the
      guard never fires. */
  lemma NearestAgreesForNonNegative(m: real)
    ensures m >= 0.0 ==> RoundUp(Trunc(FMod12(m)), (m - Trunc(m) as real) * CentsPerSemitone) == NearestNote(m)
  {
    if m >= 0.0 {
      NoteIndexIsTruncRemainder(m);
      var t := Trunc(m);
      assert 0 <= t && t as real <= m < t as real + 1.0;
      assert CRem(t, 12) == t % 12;
      var frac := m - t as real;
      var cents := frac * CentsPerSemitone;
      if frac >= 0.5 {
        assert cents >= CentsPerSemitone / 2.0;
        assert (t + 1) as real <= m + 0.5 < (t + 1) as real + 1.0;
        assert (m + 0.5).Floor == t + 1;
        assert (m - (t + 1) as real) * CentsPerSemitone == cents - CentsPerSemitone;
        NextNoteWraps(t);
      } else {
        assert cents < CentsPerSemitone / 2.0;
        assert t as real <= m + 0.5 < t as real + 1.0;
        assert (m + 0.5).Floor == t;
      }
    }
  }

  /** One semitone up from t lands on the next note class, B wrapping to C. */
  lemma NextNoteWraps(t: int)
    requires t >= 0
    ensures (t + 1) % 12 == if t % 12 + 1 >= 12 then 0 else t % 12 + 1
  {
  }

  lemma FoldAsWrittenIsNearest(m: real)
    requires m >= 0.0
    ensures FoldAsWritten(m) == NearestNote(m)
    ensures RoundUp(Trunc(FMod12(m)), (m - Trunc(m) as real) * CentsPerSemitone).note <= 12
  {
    NearestAgreesForNonNegative(m);
  }

  /** Below MIDI note 0 (under about 8.2 Hz) truncation runs the other way:
      -3.7 gives index -3 and -70 cents instead of G# (8) and +30 cents. */
  lemma NegativeMidiMisfolds()
    ensures FoldAsWritten(-3.7) == Pitch(-3, -70.0)
    ensures NearestNote(-3.7) == Pitch(8, 30.0)
  {
    assert Trunc(-3.7 / 12.0) == 0;
    assert FMod12(-3.7) == -3.7;
    assert Trunc(-3.7) == -3;
    assert (-3.7 + 0.5).Floor == -4;
  }

  /** The folding with floor in place of truncation; it is the nearest note
      for every input. */
  function Fold(m: real): (p: Pitch)
    ensures p == NearestNote(m)
    ensures 0 <= p.note < 12 && -50.0 <= p.cents < 50.0
  {
    FloorRoundsToNearest(m);
    Safeguard(RoundUp(m.Floor % 12, (m - m.Floor as real) * CentsPerSemitone))
  }

  lemma FloorRoundsToNearest(m: real)
    ensures RoundUp(m.Floor % 12, (m - m.Floor as real) * CentsPerSemitone) == NearestNote(m)
  {
    var f := m.Floor;
    if m - f as real >= 0.5 {
      assert (m + 0.5).Floor == f + 1;
      assert (f + 1) % 12 == if f % 12 + 1 >= 12 then 0 else f % 12 + 1;
    } else {
      assert (m + 0.5).Floor == f;
    }
  }

  lemma FoldMatchesAsWrittenForNonNegative(m: real)
    requires m >= 0.0
    ensures Fold(m) == FoldAsWritten(m)
  {
    FoldAsWrittenIsNearest(m);
  }

  // ---------------------------------------------------------------------
  // The tuner displays
  // ---------------------------------------------------------------------

  /** available_guis, in order. */
  datatype TunerGui = NeedleGui | StrobeGui | AttitudeGui | NoteQuizGui

  /** get_active_gui indexes the table with the stored byte unchecked; an
      index past the table has no display. */
  function ActiveGui(index: int): (g: Option<TunerGui>)
    ensures g.Some? <==> 0 <= index < SettingsMenu.AvailableGuis
    ensures index == 0 ==> g == Some(NeedleGui)
    ensures index == 3 ==> g == Some(NoteQuizGui)
  {
    if index == 0 then Some(NeedleGui)
    else if index == 1 then Some(StrobeGui)
    else if index == 2 then Some(AttitudeGui)
    else if index == 3 then Some(NoteQuizGui)
    else None
  }

  /** The default and every choice the settings list offers name a display. */
  lemma ChosenGuiExists(s: US.Settings, i: nat)
    requires i < SettingsMenu.AvailableGuis
    ensures ActiveGui(SettingsMenu.TunerModeSelected(s, SettingsMenu.OnItem(i)).tunerGuiIndex).Some?
    ensures ActiveGui(US.Defaults().tunerGuiIndex).Some?
  {
  }

  // ---------------------------------------------------------------------
  // The display loop
  // ---------------------------------------------------------------------

  /** What the loop passes to the active display's display_frequency. */
  datatype DisplayCall = DisplayCall(frequency: real, note: int, cents: real, showMute: bool)

  /** One pass of the display loop, where `state` is the GUI's own copy of
      the tuner state (current_ui_tuner_state, see CopyAfter): the display
      is fed in Tuning, or in
      Standby with monitoring on; the mute mark shows in Tuning with
      monitoring on; no positive frequency means no note. The note comes
      from the folding as written, so a frequency below MIDI note 0 reaches
      the display as an index in -11..0 with cents in (-100, 0]. */
  function DisplayLoop(state: TunerState, monitoringMode: int, frequency: real, midiOf: real -> real): (r: Option<DisplayCall>)
    ensures r.Some? <==> state == Tuning || (state == Standby && monitoringMode != 0)
    ensures r.Some? ==> r.value.showMute == (state == Tuning && monitoringMode != 0)
    ensures r.Some? && frequency <= 0.0 ==> r.value == DisplayCall(0.0, Notes.NoteNone, 0.0, r.value.showMute)
    ensures r.Some? && frequency > 0.0 ==>
      && r.value.frequency == frequency
      && Pitch(r.value.note, r.value.cents) == FoldAsWritten(midiOf(frequency))
    ensures r.Some? && frequency > 0.0 && midiOf(frequency) >= 0.0 ==>
      Pitch(r.value.note, r.value.cents) == NearestNote(midiOf(frequency))
    ensures r.Some? && frequency > 0.0 && midiOf(frequency) < 0.0 ==>
      -11 <= r.value.note <= 0 && -100.0 < r.value.cents <= 0.0
  {
    var monitoring := monitoringMode != 0 && state == Standby;
    if monitoring || state == Tuning then
      var mute := state == Tuning && monitoringMode != 0;
      if frequency > 0.0 then
        var m := midiOf(frequency);
        NearestAgreesForNonNegative(m);
        var p := FoldAsWritten(m);
        Some(DisplayCall(frequency, p.note, p.cents, mute))
      else
        Some(DisplayCall(0.0, Notes.NoteNone, 0.0, mute))
    else
      None
  }

  /** The -1 a quiet frame writes reaches the display as no note. */
  lemma QuietFrameShowsNoNote(state: TunerState, monitoringMode: int, midiOf: real -> real)
    requires state == Tuning
    ensures DisplayLoop(state, monitoringMode, -1.0, midiOf) ==
      Some(DisplayCall(0.0, Notes.NoteNone, 0.0, monitoringMode != 0))
  {
  }

  // ---------------------------------------------------------------------
  // update_ui
  // ---------------------------------------------------------------------

  /** What update_ui does for a change of state, in order: close the old
      UI, maybe clean the main screen, set the brightness, build the new UI. */
  datatype UiChange = UiChange(
    exitSettings: bool,
    standbyCleanup: bool,
    tunerCleanup: bool,
    cleanMainScreen: bool,
    brightness: Option<int>,
    showSettings: bool,
    standbyUi: bool,
    tuningUi: bool)

  /** update_ui for a change of the GUI's copy of the state from `from` to
      `to`. */
  function UpdateUi(from: TunerState, to: TunerState, monitoring: bool, displayBrightness: int): (u: UiChange)
    ensures u.exitSettings <==> from == Settings
    ensures u.standbyCleanup <==> from == Standby && !monitoring
    ensures u.tunerCleanup <==> from == Tuning && !monitoring
    ensures u.cleanMainScreen <==> !monitoring || from == Settings
    ensures u.showSettings <==> to == Settings
    ensures u.standbyUi <==> to == Standby && !monitoring
    ensures u.tuningUi <==> to == Tuning && !(monitoring && from == Standby)
    ensures u.standbyUi ==> u.brightness == Some(0)
    ensures u.tuningUi ==> u.brightness == Some(displayBrightness * 10 + 10)
    ensures !u.standbyUi && !u.tuningUi ==> u.brightness == None
  {
    var closeSettings := from == Settings;
    var closeStandby := from == Standby && !monitoring;
    var closeTuner := from == Tuning && !monitoring;
    var clean := (monitoring && from == Settings) || !monitoring;
    match to
    case Settings => UiChange(closeSettings, closeStandby, closeTuner, clean, None, true, false, false)
    case Standby =>
      if !monitoring then UiChange(closeSettings, closeStandby, closeTuner, clean, Some(0), false, true, false)
      else UiChange(closeSettings, closeStandby, closeTuner, clean, None, false, false, false)
    case Tuning =>
      if monitoring && from == Standby then UiChange(closeSettings, closeStandby, closeTuner, clean, None, false, false, false)
      else UiChange(closeSettings, closeStandby, closeTuner, clean, Some(displayBrightness * 10 + 10), false, false, true)
    case Booting => UiChange(closeSettings, closeStandby, closeTuner, clean, None, false, false, false)
  }

  /** Nothing happens at all. */
  predicate Untouched(u: UiChange) {
    u == UiChange(false, false, false, false, None, false, false, false)
  }

  /** With monitoring on, the tuning display survives a trip to Standby
      and back: neither change tears it down or rebuilds it. */
  lemma MonitoringKeepsTuningUi(b: int)
    ensures Untouched(UpdateUi(Tuning, Standby, true, b))
    ensures Untouched(UpdateUi(Standby, Tuning, true, b))
  {
  }

  /** With monitoring off, Standby darkens the panel and Tuning lights it
      again at the stored level, which for stored levels 0..9 is a
      non-zero duty. */
  lemma StandbyDarkensTuningRelights(b: int)
    requires US.IsByte(b)
    ensures Lcd.BrightnessSet(UpdateUi(Tuning, Standby, false, b).brightness.value).duty == 0
    ensures Lcd.BrightnessSet(UpdateUi(Standby, Tuning, false, b).brightness.value).duty > 0
    ensures UpdateUi(Standby, Tuning, false, b).tuningUi && UpdateUi(Tuning, Standby, false, b).tunerCleanup
  {
  }

  // ---------------------------------------------------------------------
  // The GUI's copy of the tuner state
  // ---------------------------------------------------------------------

  /** tuner_gui_task_tuner_state_changed: the GUI's copy of the state,
      current_ui_tuner_state, takes the new state whatever it held. */
  function StateChanged(copy: TunerState, from: TunerState, to: TunerState): (r: TunerState)
    ensures r == to
  {
    to
  }

  /** The GUI's copy after the controller's callbacks have seen `calls`.
      With `forwarding` the did-change callback passes each change on to
      StateChanged, as the comment on the GUI loop intends; without it, as
      main.cpp registers tuner_state_did_change_cb, nothing writes the copy. */
  function CopyAfter(copy: TunerState, calls: seq<Notification>, forwarding: bool): (r: TunerState)
    decreases |calls|
  {
    if |calls| == 0 then copy
    else
      var next := match calls[0]
        case DidChange(from, to) => if forwarding then StateChanged(copy, from, to) else copy
        case _ => copy;
      CopyAfter(next, calls[1..], forwarding)
  }

  /** What one pass of the GUI loop does: the state the screen was last
      built for, the update_ui call when the copy differs from it, and the
      display call. */
  datatype LoopPass = LoopPass(built: TunerState, change: Option<UiChange>, call: Option<DisplayCall>)

  /** One pass of the loop in tuner_gui_task: update_ui runs when the copy
      differs from the state last built, then the display is fed from the
      copy. */
  function GuiLoopPass(built: TunerState, copy: TunerState, monitoringMode: int, displayBrightness: int,
                       frequency: real, midiOf: real -> real): (p: LoopPass)
    ensures p.built == copy
    ensures p.change.Some? <==> built != copy
    ensures p.change.Some? ==> p.change.value == UpdateUi(built, copy, monitoringMode != 0, displayBrightness)
    ensures p.call.Some? <==> copy == Tuning || (copy == Standby && monitoringMode != 0)
  {
    var change := if built != copy then Some(UpdateUi(built, copy, monitoringMode != 0, displayBrightness)) else None;
    LoopPass(copy, change, DisplayLoop(copy, monitoringMode, frequency, midiOf))
  }

  /** Without forwarding, no sequence of notifications moves the copy. */
  lemma {:induction false} CopyFixedAsWritten(copy: TunerState, calls: seq<Notification>)
    ensures CopyAfter(copy, calls, false) == copy
    decreases |calls|
  {
    if |calls| > 0 {
      CopyFixedAsWritten(copy, calls[1..]);
    }
  }

  /** As the sources stand, the GUI never leaves Booting: the loop starts
      from the booting controller's state, the copy stays Booting whatever
      the controller does, so update_ui never runs and no display is fed,
      even after setState has put the controller in Tuning. */
  lemma {:induction false} GuiStaysBootingAsWritten(calls: seq<Notification>, monitoringMode: int, b: int, f: real, midiOf: real -> real)
    ensures GuiLoopPass(GetState(New()), CopyAfter(Booting, calls, false), monitoringMode, b, f, midiOf)
      == LoopPass(Booting, None, None)
    ensures var t := SetState(New(), Tuning);
      GetState(t.controller) == Tuning &&
      GuiLoopPass(GetState(New()), CopyAfter(Booting, t.calls, false), monitoringMode, b, f, midiOf).call == None
  {
    CopyFixedAsWritten(Booting, calls);
    CopyFixedAsWritten(Booting, SetState(New(), Tuning).calls);
  }

  /** With forwarding, the copy follows every setState: afterwards it is the
      controller's state, the next pass rebuilds the screen for it, and the
      display is fed exactly in Tuning or monitored Standby. */
  lemma CopyFollowsController(c: Controller, s: TunerState, built: TunerState, monitoringMode: int, b: int,
                              f: real, midiOf: real -> real)
    requires built != s
    ensures var t := SetState(c, s);
      var copy := CopyAfter(built, t.calls, true);
      var p := GuiLoopPass(built, copy, monitoringMode, b, f, midiOf);
      && copy == GetState(t.controller) == s
      && p.change == Some(UpdateUi(built, s, monitoringMode != 0, b))
      && (p.call.Some? <==> s == Tuning || (s == Standby && monitoringMode != 0))
  {
    var t := SetState(c, s);
    assert t.calls[1..][1..] == [];
  }

  /** The boot sequence with forwarding: setState(Tuning) on the booting
      controller builds the tuning screen and feeds the display. */
  lemma BootReachesTuningWithForwarding(monitoringMode: int, b: int, f: real, midiOf: real -> real)
    ensures var copy := CopyAfter(Booting, SetState(New(), Tuning).calls, true);
      var p := GuiLoopPass(GetState(New()), copy, monitoringMode, b, f, midiOf);
      p.change.Some? && p.change.value.tuningUi && p.call.Some?
  {
    CopyFollowsController(New(), Tuning, Booting, monitoringMode, b, f, midiOf);
  }
}
