/** The tuner state holder of main/tuner_controller.cpp and
    main/tuner_controller.h. */
module TunerControl {
  import opened Wrappers

  datatype TunerState = Booting | Standby | Tuning | Settings

  datatype Press = SinglePress | DoublePress | LongPress

  /** The enum values of TunerState; the settings store them as a byte. */
  function StateCode(s: TunerState): (b: int)
    ensures 0 <= b < 4
    ensures s == Booting <==> b == 0
  {
    match s
    case Booting => 0
    case Standby => 1
    case Tuning => 2
    case Settings => 3
  }

  /** The state a stored byte names, if any. */
  function StateOfCode(b: int): (s: Option<TunerState>)
    ensures s.Some? <==> 0 <= b < 4
    ensures s.Some? ==> StateCode(s.value) == b
  {
    if b == 0 then Some(Booting)
    else if b == 1 then Some(Standby)
    else if b == 2 then Some(Tuning)
    else if b == 3 then Some(Settings)
    else None
  }

  lemma StateCodeRoundTrip(s: TunerState)
    ensures StateOfCode(StateCode(s)) == Some(s)
  {
  }

  /** A call the controller makes into the callbacks it was built with. */
  datatype Notification =
    | WillChange(from: TunerState, to: TunerState)
    | DidChange(from: TunerState, to: TunerState)
    | Pressed(press: Press)

  /** The one-slot state queue: None when nothing can be peeked from it. */
  datatype Controller = Controller(slot: Option<TunerState>)

  /** The result of setState: the updated controller and the callback calls
      made on the way, in order. */
  datatype Transition = Transition(controller: Controller, calls: seq<Notification>)

  /** getState: the stored state, or Standby when the queue is empty. */
  function GetState(c: Controller): (s: TunerState)
    ensures c.slot.Some? ==> s == c.slot.value
    ensures c.slot.None? ==> s == Standby
  {
    c.slot.GetOr(Standby)
  }

  /** The constructor overwrites the queue with Booting. */
  function New(): (c: Controller)
    ensures c.slot.Some? && GetState(c) == Booting
  {
    Controller(Some(Booting))
  }

  /** setState: reads the old state, calls the will-change callback, stores
      the new state and then calls the did-change callback with the same
      pair. Nothing compares the two states. */
  function SetState(c: Controller, s: TunerState): (t: Transition)
    ensures t.controller.slot == Some(s)
    ensures |t.calls| == 2
    ensures t.calls[0] == WillChange(GetState(c), s)
    ensures t.calls[1] == DidChange(GetState(c), s)
  {
    Transition(Controller(Some(s)), [WillChange(GetState(c), s), DidChange(GetState(c), s)])
  }

  /** footswitchPressed hands the press to its callback unchanged. */
  function FootswitchPressed(c: Controller, p: Press): (n: Notification)
    ensures n.Pressed? && n.press == p
  {
    Pressed(p)
  }

  /** The state read back after setState is the state that was set, and the
      queue can never again be empty. */
  lemma SetThenGet(c: Controller, s: TunerState)
    ensures GetState(SetState(c, s).controller) == s
    ensures SetState(c, s).controller.slot.Some?
  {
  }

  /** Setting the state the controller already holds still fires both
      callbacks, with old and new state equal. */
  lemma NoDeduplication(c: Controller)
    ensures var t := SetState(c, GetState(c));
      t.controller == Controller(Some(GetState(c))) &&
      t.calls == [WillChange(GetState(c), GetState(c)), DidChange(GetState(c), GetState(c))]
  {
  }
}
