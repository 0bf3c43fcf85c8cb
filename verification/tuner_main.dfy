/** The controller callbacks installed by main/main.cpp. */
module TunerMain {
  import opened TunerControl
  import SettingsMenu
  import opened Wrappers

  /** What tuner_state_did_change_cb does to the pitch-detector task. */
  datatype DetectorAction = Suspend | Resume | LeaveAlone

  /** tuner_state_did_change_cb: Settings suspends the detector, Standby
      suspends it only when monitoring mode is off, Tuning resumes it and
      Booting does nothing. */
  function DidChangeAction(to: TunerState, monitoringMode: bool): (a: DetectorAction)
    ensures a == Suspend <==> (to == Settings || (to == Standby && !monitoringMode))
    ensures a == Resume <==> to == Tuning
  {
    match to
    case Settings => Suspend
    case Standby => if monitoringMode then LeaveAlone else Suspend
    case Tuning => Resume
    case Booting => LeaveAlone
  }

  function Apply(running: bool, a: DetectorAction): bool {
    match a
    case Suspend => false
    case Resume => true
    case LeaveAlone => running
  }

  /** Whether the detector runs after the callbacks have seen the given
      calls; tuner_state_will_change_cb is empty and press notifications do
      not touch the detector. */
  function RunCallbacks(calls: seq<Notification>, monitoringMode: bool, running: bool): (r: bool)
    decreases |calls|
  {
    if |calls| == 0 then running
    else
      var next := match calls[0]
        case DidChange(_, to) => Apply(running, DidChangeAction(to, monitoringMode))
        case _ => running;
      RunCallbacks(calls[1..], monitoringMode, next)
  }

  /** Whatever the detector was doing before, a state change leaves it
      running in Tuning, suspended in Settings and suspended in Standby when
      monitoring is off; in Booting, or Standby with monitoring on, it keeps
      what it was doing. */
  lemma {:induction false} DetectorAfterSetState(c: Controller, s: TunerState, monitoringMode: bool, running: bool)
    ensures var r := RunCallbacks(SetState(c, s).calls, monitoringMode, running);
      (s == Tuning ==> r) &&
      (s == Settings ==> !r) &&
      (s == Standby && !monitoringMode ==> !r) &&
      (s == Booting || (s == Standby && monitoringMode) ==> r == running)
  {
    var t := SetState(c, s);
    assert t.calls[1..][1..] == [];
    assert RunCallbacks(t.calls[1..][1..], monitoringMode, Apply(running, DidChangeAction(s, monitoringMode)))
      == Apply(running, DidChangeAction(s, monitoringMode));
  }

  /** What footswitch_pressed_cb does with a press. */
  datatype PressAction = Ignore | EnterSettings | ForwardToSettings(press: Press)

  /** footswitch_pressed_cb: presses are ignored in Standby and Booting; in
      Tuning only a long press acts, and it opens the settings; in Settings
      every press goes to the settings screen. */
  function FootswitchAction(state: TunerState, press: Press): (a: PressAction)
    ensures (state == Standby || state == Booting) ==> a == Ignore
    ensures state == Tuning ==> (a == EnterSettings <==> press == LongPress)
    ensures state == Tuning && press != LongPress ==> a == Ignore
    ensures state == Settings ==> a == ForwardToSettings(press)
    ensures a == EnterSettings ==> state == Tuning
  {
    match state
    case Standby => Ignore
    case Tuning => if press == LongPress then EnterSettings else Ignore
    case Settings => ForwardToSettings(press)
    case Booting => Ignore
  }

  /** footswitch_pressed_cb with its effects: an ignored press changes
      nothing, a long press while tuning asks setState for the settings
      (the GUI task builds their screen only once its own copy of the state
      is told, see GuiTask.CopyAfter), and a press in the settings
      is UserSettings::footswitchPressed on the open menu stack. */
  function HandlePress(c: Controller, ss: SettingsMenu.Session, press: Press): (r: SettingsMenu.NavResult)
    ensures FootswitchAction(GetState(c), press) == Ignore ==> r == SettingsMenu.Stay(ss, c)
    ensures FootswitchAction(GetState(c), press) == EnterSettings ==>
      r.session == ss && GetState(r.controller) == Settings && !r.restart &&
      r.calls == [WillChange(Tuning, Settings), DidChange(Tuning, Settings)]
    ensures GetState(c) == Settings ==> r == SettingsMenu.FootswitchPressed(ss, c, press)
  {
    match FootswitchAction(GetState(c), press)
    case Ignore => SettingsMenu.Stay(ss, c)
    case EnterSettings =>
      var t := SetState(c, Settings);
      SettingsMenu.NavResult(ss, t.controller, t.calls, None, false)
    case ForwardToSettings(p) => SettingsMenu.FootswitchPressed(ss, c, p)
  }

  /** A long press while tuning opens the settings and suspends the pitch
      detector. */
  lemma TuningLongPressSuspendsDetector(c: Controller, ss: SettingsMenu.Session, monitoringMode: bool, running: bool)
    requires GetState(c) == Tuning
    ensures var r := HandlePress(c, ss, LongPress);
      GetState(r.controller) == Settings && !RunCallbacks(r.calls, monitoringMode, running)
  {
    DetectorAfterSetState(c, Settings, monitoringMode, running);
  }

  /** In the settings, a long press with only the top menu open leaves them:
      the controller goes back to tuning through setState, and the callbacks
      resume the pitch detector. */
  lemma TopMenuLongPressReturnsToTuning(c: Controller, ss: SettingsMenu.Session, monitoringMode: bool, running: bool)
    requires GetState(c) == Settings && |ss.stack| <= 2
    ensures var r := HandlePress(c, ss, LongPress);
      r.session == ss && GetState(r.controller) == Tuning &&
      r.calls == [WillChange(Settings, Tuning), DidChange(Settings, Tuning)] &&
      RunCallbacks(r.calls, monitoringMode, running)
  {
    assert HandlePress(c, ss, LongPress) == SettingsMenu.ExitClicked(ss, c);
    DetectorAfterSetState(c, Tuning, monitoringMode, running);
  }

  /** In the settings, a long press below the top menu is the Back button:
      the controller stays in Settings and the detector stays as it was. */
  lemma SubMenuLongPressStaysInSettings(c: Controller, ss: SettingsMenu.Session, monitoringMode: bool, running: bool)
    requires GetState(c) == Settings && |ss.stack| > 2
    ensures var r := HandlePress(c, ss, LongPress);
      r == SettingsMenu.BackClicked(ss, c) && r.controller == c &&
      RunCallbacks(r.calls, monitoringMode, running) == running
  {
  }
}
