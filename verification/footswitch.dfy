/** The footswitch press classifier and relay control of main/gpio_task.cpp.
    One call of HandleButtonPress is one pass of the GPIO task's loop with
    the switch level read and the millisecond clock sampled once. */
module Footswitch {
  import opened Defines
  import opened TunerControl

  /** The GPIO task's globals: the last level read (1 = open), the press count,
      when the current press started, when the last press happened, whether
      this press already fired its long press, and whether the single-press
      timer is armed. */
  datatype Footswitch = Footswitch(
    lastLevel: int,
    pressCount: int,
    startTime: int,
    lastPressTime: int,
    longPressTriggered: bool,
    timerPending: bool)

  /** The values the globals start with: the switch is assumed open. */
  function Initial(): (f: Footswitch)
    ensures f.lastLevel == 1 && f.pressCount == 0 && !f.longPressTriggered && !f.timerPending
  {
    Footswitch(1, 0, 0, 0, false, false)
  }

  /** The switch state after a handler pass, and the press handlers it
      queued on the GUI thread (SinglePress stands for handle_single_press,
      the other two for the footswitchPressed forwarders). */
  datatype ButtonStep = ButtonStep(sw: Footswitch, queued: seq<Press>)

  predicate Falling(f: Footswitch, level: int) { level == 0 && f.lastLevel == 1 }
  predicate Rising(f: Footswitch, level: int) { level == 1 && f.lastLevel == 0 }

  /** The press count after a new press: consecutive within the double-press
      window, otherwise a fresh first press. */
  function CountAfterPress(f: Footswitch, now: int): int {
    if now - f.lastPressTime <= DoublePressTimeMs then f.pressCount + 1 else 1
  }

  function OnPress(f: Footswitch, now: int): Footswitch {
    f.(startTime := now, pressCount := CountAfterPress(f, now),
       lastPressTime := now, longPressTriggered := false)
  }

  function OnHeld(f: Footswitch, now: int): ButtonStep {
    if now - f.startTime >= LongPressTimeMs && !f.longPressTriggered then
      ButtonStep(f.(longPressTriggered := true, pressCount := 0), [LongPress])
    else
      ButtonStep(f, [])
  }

  /** single_press_timer_callback: queues handle_single_press and clears
      the count. It does not touch the timer. */
  function SinglePressCallback(f: Footswitch): (r: ButtonStep)
    ensures r.queued == [SinglePress] && r.sw == f.(pressCount := 0)
  {
    ButtonStep(f.(pressCount := 0), [SinglePress])
  }

  function OnRelease(f: Footswitch, now: int, state: TunerState): ButtonStep {
    if f.longPressTriggered then
      ButtonStep(f, [])
    else if f.pressCount == 2 then
      ButtonStep(f.(timerPending := false, pressCount := 0), [DoublePress])
    else if now - f.startTime < LongPressTimeMs && f.pressCount == 1 then
      if state == Settings then ButtonStep(f.(timerPending := true), [])
      else SinglePressCallback(f)
    else
      ButtonStep(f.(pressCount := 0), [])
  }

  /** handle_button_press. */
  function HandleButtonPress(f: Footswitch, level: int, now: int, state: TunerState): (r: ButtonStep)
    // the last level always becomes the current reading
    ensures r.sw.lastLevel == level
    ensures |r.queued| <= 1
    // falling edge: new start time, fresh long-press flag, counted press
    ensures Falling(f, level) ==>
      r.sw.startTime == now && r.sw.lastPressTime == now && !r.sw.longPressTriggered &&
      r.sw.pressCount == (if now - f.lastPressTime <= DoublePressTimeMs then f.pressCount + 1 else 1) &&
      r.queued == []
    // a long press fires once the hold reaches the limit, once per press
    ensures LongPress in r.queued <==>
      level == 0 && f.lastLevel != 1 && now - f.startTime >= LongPressTimeMs && !f.longPressTriggered
    ensures LongPress in r.queued ==> r.sw.pressCount == 0 && r.sw.longPressTriggered
    // release after a long press: nothing is emitted
    ensures Rising(f, level) && f.longPressTriggered ==> r.queued == [] && r.sw == f.(lastLevel := level)
    // release of the second press: cancel the timer, emit a double press
    ensures Rising(f, level) && !f.longPressTriggered && f.pressCount == 2 ==>
      r.queued == [DoublePress] && !r.sw.timerPending && r.sw.pressCount == 0
    // release of a short first press: deferred in Settings, else immediate
    ensures Rising(f, level) && !f.longPressTriggered && f.pressCount == 1 && now - f.startTime < LongPressTimeMs ==>
      if state == Settings then
        r.queued == [] && r.sw.timerPending && r.sw.pressCount == 1
      else
        r.queued == [SinglePress] && r.sw.pressCount == 0 && r.sw.timerPending == f.timerPending
    // every other release clears the count
    ensures Rising(f, level) && !f.longPressTriggered && f.pressCount != 2 &&
            !(f.pressCount == 1 && now - f.startTime < LongPressTimeMs) ==>
              r.queued == [] && r.sw.pressCount == 0
    ensures DoublePress in r.queued ==> Rising(f, level) && f.pressCount == 2
    ensures SinglePress in r.queued ==> Rising(f, level) && f.pressCount == 1 && state != Settings
    // no edge and not held: only the last level changes
    ensures level != 0 && !Rising(f, level) ==> r == ButtonStep(f.(lastLevel := level), [])
  {
    var pressed := if Falling(f, level) then OnPress(f, now) else f;
    var held := if level == 0 then OnHeld(pressed, now) else ButtonStep(pressed, []);
    var released := if Rising(f, level) then OnRelease(held.sw, now, state) else ButtonStep(held.sw, []);
    ButtonStep(released.sw.(lastLevel := level), held.queued + released.queued)
  }

  /** The one-shot single-press timer expiring: if it is armed, it disarms
      and runs the single-press callback. */
  function TimerExpired(f: Footswitch): (r: ButtonStep)
    ensures f.timerPending ==> r.queued == [SinglePress] && r.sw.pressCount == 0 && !r.sw.timerPending
    ensures !f.timerPending ==> r == ButtonStep(f, [])
  {
    if f.timerPending then SinglePressCallback(f.(timerPending := false)) else ButtonStep(f, [])
  }

  /** One reading of the footswitch: its level and the clock. */
  datatype Reading = Reading(level: int, now: int)

  /** Successive passes of the handler with the tuner state held fixed; the
      queued handlers are collected in order. */
  function Run(f: Footswitch, rs: seq<Reading>, state: TunerState): (r: ButtonStep)
    decreases |rs|
  {
    if |rs| == 0 then ButtonStep(f, [])
    else
      var s := HandleButtonPress(f, rs[0].level, rs[0].now, state);
      var rest := Run(s.sw, rs[1..], state);
      ButtonStep(rest.sw, s.queued + rest.queued)
  }

  predicate AllHeld(rs: seq<Reading>) {
    forall i :: 0 <= i < |rs| ==> rs[i].level == 0
  }

  /** While the switch stays down, the handler queues nothing once the long
      press has fired, and keeps the flag set. */
  lemma {:induction false} HeldAfterLongIsQuiet(f: Footswitch, rs: seq<Reading>, state: TunerState)
    requires f.lastLevel == 0 && f.longPressTriggered && AllHeld(rs)
    ensures Run(f, rs, state).queued == []
    ensures Run(f, rs, state).sw.longPressTriggered
    decreases |rs|
  {
    if |rs| > 0 {
      var s := HandleButtonPress(f, rs[0].level, rs[0].now, state);
      assert s.queued == [] && s.sw.lastLevel == 0 && s.sw.longPressTriggered;
      assert AllHeld(rs[1..]) by {
        forall i | 0 <= i < |rs[1..]| ensures rs[1..][i].level == 0 {
          assert rs[1..][i] == rs[i + 1];
        }
      }
      HeldAfterLongIsQuiet(s.sw, rs[1..], state);
    }
  }

  /** A press held down over any number of readings fires at most one long
      press, and nothing else. */
  lemma {:induction false} OneLongPressPerHold(f: Footswitch, rs: seq<Reading>, state: TunerState)
    requires f.lastLevel == 0 && AllHeld(rs)
    ensures |Run(f, rs, state).queued| <= 1
    ensures forall i :: 0 <= i < |Run(f, rs, state).queued| ==> Run(f, rs, state).queued[i] == LongPress
    decreases |rs|
  {
    if |rs| > 0 {
      var s := HandleButtonPress(f, rs[0].level, rs[0].now, state);
      assert AllHeld(rs[1..]) by {
        forall i | 0 <= i < |rs[1..]| ensures rs[1..][i].level == 0 {
          assert rs[1..][i] == rs[i + 1];
        }
      }
      if s.queued == [] {
        OneLongPressPerHold(s.sw, rs[1..], state);
      } else {
        assert s.queued == [LongPress] && s.sw.longPressTriggered;
        HeldAfterLongIsQuiet(s.sw, rs[1..], state);
      }
    }
  }

  /** What holds between passes when the tuner is not in Settings: the level
      is a clean 0 or 1, an open switch has no press counted, and a fired
      long press has cleared the count. */
  predicate QuietOutsideSettings(f: Footswitch) {
    (f.lastLevel == 0 || f.lastLevel == 1) &&
    (f.pressCount == 0 || f.pressCount == 1) &&
    (f.lastLevel == 1 ==> f.pressCount == 0) &&
    (f.longPressTriggered ==> f.pressCount == 0)
  }

  predicate CleanLevels(rs: seq<Reading>) {
    forall i :: 0 <= i < |rs| ==> rs[i].level == 0 || rs[i].level == 1
  }

  /** Outside Settings the first release already fires the single press and
      clears the count, so a second tap within the window counts as a new
      first press: no double press is ever queued. */
  lemma {:induction false} NoDoublePressOutsideSettings(f: Footswitch, rs: seq<Reading>, state: TunerState)
    requires state != Settings && QuietOutsideSettings(f) && CleanLevels(rs)
    ensures DoublePress !in Run(f, rs, state).queued
    ensures QuietOutsideSettings(Run(f, rs, state).sw)
    decreases |rs|
  {
    if |rs| > 0 {
      var s := HandleButtonPress(f, rs[0].level, rs[0].now, state);
      assert QuietOutsideSettings(s.sw);
      assert CleanLevels(rs[1..]) by {
        forall i | 0 <= i < |rs[1..]| ensures rs[1..][i].level == 0 || rs[1..][i].level == 1 {
          assert rs[1..][i] == rs[i + 1];
        }
      }
      NoDoublePressOutsideSettings(s.sw, rs[1..], state);
    }
  }

  /** The relay level after ensure_relay_state, and whether the GPIO was
      written. */
  datatype RelayUpdate = RelayUpdate(level: int, wrote: bool)

  /** ensure_relay_state: off in Standby, on in Tuning, untouched otherwise;
      the pin is written only when the level differs. */
  function EnsureRelayState(state: TunerState, relay: int): (u: RelayUpdate)
    ensures state == Standby ==> u.level == 0
    ensures state == Tuning ==> u.level == 1
    ensures state != Standby && state != Tuning ==> u.level == relay
    ensures u.wrote <==> u.level != relay
  {
    if state == Standby && relay != 0 then RelayUpdate(0, true)
    else if state == Tuning && relay != 1 then RelayUpdate(1, true)
    else RelayUpdate(relay, false)
  }

  /** A second ensure_relay_state pass in the same state writes nothing. */
  lemma EnsureRelayIdempotent(state: TunerState, relay: int)
    ensures var u := EnsureRelayState(state, relay);
      EnsureRelayState(state, u.level) == RelayUpdate(u.level, false)
  {
  }

  /** handle_single_press: the controller after the press, the relay level
      and the controller callback calls made. */
  datatype SinglePressResult = SinglePressResult(controller: Controller, relay: int, calls: seq<Notification>)

  /** handle_single_press: Standby switches the relay on and goes to Tuning,
      Tuning switches it off and goes to Standby, Settings forwards the
      press, Booting does nothing. */
  function HandleSinglePress(c: Controller, relay: int): (r: SinglePressResult)
    ensures GetState(c) == Standby ==>
      r.relay == 1 && GetState(r.controller) == Tuning && r.calls == SetState(c, Tuning).calls
    ensures GetState(c) == Tuning ==>
      r.relay == 0 && GetState(r.controller) == Standby && r.calls == SetState(c, Standby).calls
    ensures GetState(c) == Settings ==>
      r.controller == c && r.relay == relay && r.calls == [FootswitchPressed(c, SinglePress)]
    ensures GetState(c) == Booting ==> r == SinglePressResult(c, relay, [])
  {
    match GetState(c)
    case Standby =>
      var t := SetState(c, Tuning);
      SinglePressResult(t.controller, 1, t.calls)
    case Tuning =>
      var t := SetState(c, Standby);
      SinglePressResult(t.controller, 0, t.calls)
    case Settings => SinglePressResult(c, relay, [FootswitchPressed(c, SinglePress)])
    case Booting => SinglePressResult(c, relay, [])
  }

  /** Two single presses from Standby or Tuning come back to the same state
      and relay level, and after each one ensure_relay_state has nothing to
      correct. */
  lemma SinglePressToggles(c: Controller, relay: int)
    requires GetState(c) == Standby || GetState(c) == Tuning
    ensures var r := HandleSinglePress(c, relay);
      !EnsureRelayState(GetState(r.controller), r.relay).wrote &&
      GetState(HandleSinglePress(r.controller, r.relay).controller) == GetState(c) &&
      !EnsureRelayState(GetState(c), HandleSinglePress(r.controller, r.relay).relay).wrote
  {
  }
}
