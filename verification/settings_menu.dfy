/** The settings screens of main/user_settings.cpp: the screen stack with
    the LVGL focus group each screen navigates, the radio lists and their
    handlers, the LVGL lock the handlers take, and footswitch navigation.
    LVGL widgets are reduced to what the stack records about each screen. */
module SettingsMenu {
  import opened Wrappers
  import opened TunerControl
  import opened CMath
  import US = UserSettings
  import Lcd

  // ---------------------------------------------------------------------
  // Screens and focus groups
  // ---------------------------------------------------------------------

  /** The menus built with createMenu, named by the button that opens them. */
  datatype MenuId = TopMenu | TunerMenu | DisplayMenu | DebugMenu | AboutMenu

  /** The entries a menu lists above its Exit or Back button. */
  function Entries(m: MenuId): nat {
    match m
    case TopMenu => 4
    case TunerMenu => 3
    case DisplayMenu => 4
    case DebugMenu => 3
    case AboutMenu => 2
  }

  /** The radio handlers, one per radio list. */
  datatype RadioHandler =
    | TunerModeHandler | ThresholdHandler | MonitoringHandler | BrightnessHandler
    | NoteColorHandler | InitialStateHandler | RotationHandler

  /** The tuner displays on offer (num_of_available_guis). */
  const AvailableGuis: nat := 4

  const ThresholdItems: nat := 6
  const MonitoringItems: nat := 2
  const BrightnessItems: nat := 10
  const NoteColorItems: nat := 8
  const InitialScreenItems: nat := 2
  const RotationItems: nat := 4

  /** The items of each radio list. */
  function RadioItems(h: RadioHandler): nat {
    match h
    case TunerModeHandler => AvailableGuis
    case ThresholdHandler => ThresholdItems
    case MonitoringHandler => MonitoringItems
    case BrightnessHandler => BrightnessItems
    case NoteColorHandler => NoteColorItems
    case InitialStateHandler => InitialScreenItems
    case RotationHandler => RotationItems
  }

  /** The offset createRadioList takes off a stored value: the threshold
      and the initial screen are stored 1-based. */
  function RadioOffset(h: RadioHandler): nat {
    if h == ThresholdHandler || h == InitialStateHandler then 1 else 0
  }

  /** The widgets a spinbox screen adds to the focus group it joins: the
      spinbox, its plus and minus buttons and its Back button. */
  const SpinboxWidgets: nat := 4

  /** A screen on the stack. The main tuner screen sits at the bottom. A
      menu records which menu it is, whether its last button is Exit
      (otherwise Back), the focused position of its group, how many spinbox
      widgets have joined that group, and, while the factory-reset message
      box is open over it, the focused position of the box's own group
      (Cancel 0, Reset 1). A radio list records its handler, the checked
      item (-1 or out of range: none) and its focused position. */
  datatype Screen =
    | MainScreen
    | Menu(id: MenuId, exitButton: bool, focus: nat, widgets: nat, dialog: Option<nat>)
    | SliderScreen
    | RadioList(handler: RadioHandler, checked: int, focus: nat)
    | SpinboxScreen

  /** Menus and radio lists make a focus group of their own. */
  predicate HasGroup(s: Screen) {
    s.Menu? || s.RadioList?
  }

  /** The objects in the group the screen navigates: the entries, the Exit
      or Back button and any spinbox widgets of a menu, Cancel and Reset
      while the message box is open, the items and Back of a radio list. */
  function GroupSize(s: Screen): nat {
    match s
    case Menu(id, _, _, widgets, dialog) => if dialog.Some? then 2 else Entries(id) + 1 + widgets
    case RadioList(h, _, _) => RadioItems(h) + 1
    case _ => 0
  }

  /** The focused position of the group the screen navigates. */
  function Focus(s: Screen): nat
    requires HasGroup(s)
  {
    match s
    case Menu(_, _, f, _, d) => d.GetOr(f)
    case RadioList(_, _, f) => f
  }

  /** Every focused position names an object of its group. */
  predicate FocusInRange(s: Screen) {
    match s
    case Menu(id, _, f, w, d) => f < Entries(id) + 1 + w && (d.Some? ==> d.value < 2)
    case RadioList(h, _, f) => f < RadioItems(h) + 1
    case _ => true
  }

  /** The screen with its focus, spinbox widgets, message box and check
      mark forgotten: what navigation never changes about a screen. */
  function Kind(s: Screen): (k: Screen)
    ensures HasGroup(k) == HasGroup(s) && k.Menu? == s.Menu?
    ensures s.Menu? ==> k.id == s.id && k.exitButton == s.exitButton
  {
    match s
    case Menu(id, e, _, _, _) => Menu(id, e, 0, 0, None)
    case RadioList(h, _, _) => RadioList(h, 0, 0)
    case _ => s
  }

  /** The screen whose group is LVGL's default group: the topmost menu or
      radio list. A spinbox screen makes no group of its own, and
      removeCurrentMenu restores the group found on the new top screen. */
  function FocusOwner(st: seq<Screen>): (k: Option<nat>)
    ensures k.Some? ==> k.value < |st| && HasGroup(st[k.value])
    ensures k.Some? ==> forall j :: k.value < j < |st| ==> !HasGroup(st[j])
    ensures k.None? ==> forall j :: 0 <= j < |st| ==> !HasGroup(st[j])
    decreases |st|
  {
    if |st| == 0 then None
    else if HasGroup(st[|st| - 1]) then Some(|st| - 1)
    else FocusOwner(st[..|st| - 1])
  }

  /** Stacks whose screens have the same kinds have the same focus owner. */
  lemma {:induction false} SameKindsSameOwner(a: seq<Screen>, b: seq<Screen>)
    requires |a| == |b|
    requires forall j :: 0 <= j < |a| ==> Kind(a[j]) == Kind(b[j])
    ensures FocusOwner(a) == FocusOwner(b)
    decreases |a|
  {
    if |a| > 0 {
      var n := |a| - 1;
      assert HasGroup(a[n]) == HasGroup(Kind(a[n])) == HasGroup(b[n]);
      if !HasGroup(a[n]) {
        SameKindsSameOwner(a[..n], b[..n]);
      }
    }
  }

  /** A spinbox screen opened on top of these screens joins a Debug
      menu's group. */
  predicate JoinsDebugMenu(st: seq<Screen>) {
    var k := FocusOwner(st);
    k.Some? && st[k.value].Menu? && st[k.value].id == DebugMenu
  }

  /** The main screen is at the bottom and nowhere else; the menu directly
      above it is the top menu and the only one with the Exit button; a
      spinbox screen is only opened from a Debug menu's group; and every
      focus is on an object of its group. */
  predicate WellFormed(st: seq<Screen>) {
    |st| >= 1 && st[0] == MainScreen &&
    (forall i :: 1 <= i < |st| ==> st[i] != MainScreen) &&
    (forall i :: 1 <= i < |st| && st[i].Menu? ==>
      (st[i].exitButton <==> i == 1) && (st[i].id == TopMenu <==> i == 1)) &&
    (forall i :: 1 <= i < |st| && st[i] == SpinboxScreen ==> JoinsDebugMenu(st[..i])) &&
    (forall i :: 0 <= i < |st| ==> FocusInRange(st[i]))
  }

  /** Changing one screen's focus, widgets, message box or check mark keeps
      the stack well formed while the new focus stays in range. */
  lemma ReplaceKeepsWellFormed(st: seq<Screen>, k: nat, s: Screen)
    requires k < |st| && Kind(s) == Kind(st[k])
    ensures WellFormed(st) && FocusInRange(s) ==> WellFormed(st[k := s])
    ensures FocusOwner(st[k := s]) == FocusOwner(st)
  {
    var r := st[k := s];
    SameKindsSameOwner(st, r);
    if !WellFormed(st) || !FocusInRange(s) { return; }
    assert r[0] == MainScreen by {
      if k == 0 { assert Kind(s) == Kind(st[0]) == MainScreen; }
    }
    forall i | 1 <= i < |r| ensures r[i] != MainScreen {
      if i == k { assert Kind(s) != MainScreen; }
    }
    forall i | 1 <= i < |r| && r[i] == SpinboxScreen ensures JoinsDebugMenu(r[..i]) {
      if i == k { assert Kind(st[k]) == SpinboxScreen; }
      assert st[i] == SpinboxScreen;
      SameKindsSameOwner(st[..i], r[..i]);
    }
  }

  /** The bottom screens of a well-formed stack are a well-formed stack. */
  lemma PrefixKeepsWellFormed(st: seq<Screen>, n: nat)
    requires 1 <= n <= |st|
    ensures WellFormed(st) ==> WellFormed(st[..n])
  {
    var r := st[..n];
    if !WellFormed(st) { return; }
    forall i | 1 <= i < |r| && r[i] == SpinboxScreen ensures JoinsDebugMenu(r[..i]) {
      assert st[i] == SpinboxScreen;
      assert r[..i] == st[..i];
    }
  }

  /** Pushing one screen that is not the main screen keeps the stack well
      formed, provided a menu's Exit button and top-menu identity match its
      position and a spinbox screen joins a Debug menu. */
  lemma PushKeepsWellFormed(st: seq<Screen>, s: Screen)
    ensures (WellFormed(st) && s != MainScreen && FocusInRange(s) &&
             (s.Menu? ==> (s.exitButton <==> |st| == 1) && (s.id == TopMenu <==> |st| == 1)) &&
             (s == SpinboxScreen ==> JoinsDebugMenu(st))) ==> WellFormed(st + [s])
  {
    var r := st + [s];
    if !(WellFormed(st) && s != MainScreen && FocusInRange(s) &&
      (s.Menu? ==> (s.exitButton <==> |st| == 1) && (s.id == TopMenu <==> |st| == 1)) &&
      (s == SpinboxScreen ==> JoinsDebugMenu(st))) { return; }
    forall i | 1 <= i < |r| ensures r[i] != MainScreen {
      if i < |st| { assert r[i] == st[i]; }
    }
    forall i | 1 <= i < |r| && r[i].Menu? ensures (r[i].exitButton <==> i == 1) && (r[i].id == TopMenu <==> i == 1) {
      if i < |st| { assert r[i] == st[i]; }
    }
    forall i | 1 <= i < |r| && r[i] == SpinboxScreen ensures JoinsDebugMenu(r[..i]) {
      if i < |st| {
        assert r[i] == st[i];
        assert r[..i] == st[..i];
      } else {
        assert r[..i] == st;
      }
    }
    forall i | 0 <= i < |r| ensures FocusInRange(r[i]) {
      if i < |st| { assert r[i] == st[i]; }
    }
  }

  /** setDisplayAndScreen pushes the tuner's main screen. */
  function SetDisplayAndScreen(st: seq<Screen>): (r: seq<Screen>)
    ensures r == st + [MainScreen]
    ensures st == [] ==> WellFormed(r)
  {
    st + [MainScreen]
  }

  /** createMenu: pushes one menu with a new default group whose first
      entry has the focus; the menu gets the Exit button exactly when the
      stack held only the main screen, and a Back button otherwise. */
  function CreateMenu(st: seq<Screen>, id: MenuId): (r: seq<Screen>)
    ensures |r| == |st| + 1 && r[..|st|] == st
    ensures r[|st|] == Menu(id, |st| == 1, 0, 0, None)
    ensures FocusOwner(r) == Some(|st|) && Focus(r[|st|]) == 0
    ensures GroupSize(r[|st|]) == Entries(id) + 1
    ensures WellFormed(st) && (id == TopMenu <==> |st| == 1) ==> WellFormed(r)
  {
    var m := Menu(id, |st| == 1, 0, 0, None);
    PushKeepsWellFormed(st, m);
    assert (st + [m])[..|st|] == st;
    st + [m]
  }

  /** createSlider pushes one slider screen; nothing in the firmware calls
      it. */
  function CreateSlider(st: seq<Screen>): (r: seq<Screen>)
    ensures |r| == |st| + 1 && r[..|st|] == st && r[|st|] == SliderScreen
    ensures FocusOwner(r) == FocusOwner(st)
    ensures WellFormed(st) ==> WellFormed(r)
  {
    PushKeepsWellFormed(st, SliderScreen);
    assert (st + [SliderScreen])[..|st|] == st;
    st + [SliderScreen]
  }

  /** createSpinbox pushes one spinbox screen without a group of its own:
      its four widgets join the default group, which keeps its focus. */
  function CreateSpinbox(st: seq<Screen>): (r: seq<Screen>)
    ensures |r| == |st| + 1 && r[|st|] == SpinboxScreen
    ensures FocusOwner(r) == FocusOwner(st)
    ensures JoinsDebugMenu(st) ==> var k := FocusOwner(st).value;
      r[k] == st[k].(widgets := st[k].widgets + SpinboxWidgets) &&
      GroupSize(r[k]) == GroupSize(st[k]) + (if st[k].dialog.None? then SpinboxWidgets else 0) &&
      forall j :: 0 <= j < |st| && j != k ==> r[j] == st[j]
    ensures WellFormed(st) && JoinsDebugMenu(st) ==> WellFormed(r)
  {
    match FocusOwner(st)
    case None =>
      assert (st + [SpinboxScreen])[..|st|] == st;
      SameKindsSameOwner(st, (st + [SpinboxScreen])[..|st|]);
      st + [SpinboxScreen]
    case Some(k) =>
      var g := if st[k].Menu? then st[k].(widgets := st[k].widgets + SpinboxWidgets) else st[k];
      var t := st[k := g];
      ReplaceKeepsWellFormed(st, k, g);
      PushKeepsWellFormed(t, SpinboxScreen);
      assert (t + [SpinboxScreen])[..|st|] == t;
      t + [SpinboxScreen]
  }

  /** The item createRadioList checks for a stored byte: a value above the
      item count reads as 0, and a positive value is shifted down by the
      offset in uint8_t arithmetic. */
  function RadioCheckedIndex(value: int, items: int, offset: int): (k: int)
    requires US.IsByte(value)
    ensures US.IsByte(k)
    ensures value > items || value == 0 ==> k == 0
    ensures 0 < value <= items && 0 <= offset <= value ==> k == value - offset
  {
    var v := if value > items then 0 else value;
    if v > 0 then U8(v - offset) else v
  }

  /** The stored byte each radio list shows: the field the handler writes,
      or for the note colour the list index of the stored palette. */
  function RadioValue(h: RadioHandler, s: US.Settings): (v: int)
    ensures US.IsByte(v)
    ensures h == NoteColorHandler ==> v == US.SettingIndexForPalette(s.noteNamePalette)
    ensures US.ByteFields(s) && h == TunerModeHandler ==> v == s.tunerGuiIndex
    ensures US.ByteFields(s) && h == RotationHandler ==> v == s.displayOrientation
  {
    match h
    case TunerModeHandler => U8(s.tunerGuiIndex)
    case ThresholdHandler => U8(s.inTuneCentsWidth)
    case MonitoringHandler => U8(s.monitoringMode)
    case BrightnessHandler => U8(s.displayBrightness)
    case NoteColorHandler => US.SettingIndexForPalette(s.noteNamePalette)
    case InitialStateHandler => U8(s.initialState)
    case RotationHandler => U8(s.displayOrientation)
  }

  /** createRadioList pushes one radio list with a new default group whose
      first item has the focus, and checks the item the stored value
      names. */
  function CreateRadioList(st: seq<Screen>, h: RadioHandler, s: US.Settings): (r: seq<Screen>)
    ensures |r| == |st| + 1 && r[..|st|] == st
    ensures r[|st|] == RadioList(h, RadioCheckedIndex(RadioValue(h, s), RadioItems(h), RadioOffset(h)), 0)
    ensures FocusOwner(r) == Some(|st|) && Focus(r[|st|]) == 0
    ensures WellFormed(st) ==> WellFormed(r)
  {
    var l := RadioList(h, RadioCheckedIndex(RadioValue(h, s), RadioItems(h), RadioOffset(h)), 0);
    PushKeepsWellFormed(st, l);
    assert (st + [l])[..|st|] == st;
    st + [l]
  }

  /** What deleting a spinbox screen's widgets does to the menu whose group
      they had joined: the group loses them, and a focus that was on one of
      them moves back to the last object left. */
  function ReleaseSpinbox(s: Screen): (t: Screen)
    requires s.Menu?
    ensures t.Menu? && Kind(t) == Kind(s) && t.dialog == s.dialog
    ensures s.widgets >= SpinboxWidgets ==> t.widgets + SpinboxWidgets == s.widgets
    ensures t.focus < Entries(t.id) + 1 + t.widgets
    ensures s.focus < Entries(s.id) + 1 + t.widgets ==> t.focus == s.focus
    ensures s.focus >= Entries(s.id) + 1 + t.widgets ==> t.focus == Entries(s.id) + t.widgets
    ensures FocusInRange(s) ==> FocusInRange(t)
  {
    var w := if s.widgets >= SpinboxWidgets then s.widgets - SpinboxWidgets else 0;
    var size := Entries(s.id) + 1 + w;
    s.(widgets := w, focus := if s.focus < size then s.focus else size - 1)
  }

  /** removeCurrentMenu pops exactly one screen and makes the group found on
      the new top screen the default again; removing a spinbox screen takes
      its widgets out of the group they joined. It reads the new top
      afterwards, so the stack must hold at least two screens. */
  function RemoveCurrentMenu(st: seq<Screen>): (r: seq<Screen>)
    requires |st| >= 2
    ensures |r| == |st| - 1
    ensures st[|st| - 1] != SpinboxScreen ==> r == st[..|st| - 1]
    ensures FocusOwner(r) == FocusOwner(st[..|st| - 1])
    ensures st[|st| - 1] == SpinboxScreen && JoinsDebugMenu(st[..|st| - 1]) ==>
      var k := FocusOwner(r).value;
      r[k] == ReleaseSpinbox(st[k]) && forall j :: 0 <= j < |r| && j != k ==> r[j] == st[j]
    ensures WellFormed(st) ==> WellFormed(r)
    ensures WellFormed(st) && |st| > 2 ==> r[..2] == st[..2]
  {
    var p := st[..|st| - 1];
    PrefixKeepsWellFormed(st, |st| - 1);
    if st[|st| - 1] == SpinboxScreen && JoinsDebugMenu(p) then
      var k := FocusOwner(p).value;
      ReplaceKeepsWellFormed(p, k, ReleaseSpinbox(p[k]));
      assert WellFormed(st) ==> k != 0 && k != 1;
      p[k := ReleaseSpinbox(p[k])]
    else
      assert WellFormed(st) ==> st[|st| - 1] != SpinboxScreen;
      p
  }

  /** exitSettings pops screens until only the bottom one is left. */
  method ExitSettings(st: seq<Screen>) returns (r: seq<Screen>)
    requires |st| >= 1
    ensures r == st[..1]
    ensures WellFormed(st) ==> r == [MainScreen]
  {
    r := st;
    while |r| > 1
      invariant 1 <= |r| <= |st|
      invariant r == st[..|r|]
      decreases |r|
    {
      r := r[..|r| - 1];
    }
  }

  // ---------------------------------------------------------------------
  // Radio lists and their handlers
  // ---------------------------------------------------------------------

  /** Where a radio list was clicked: on the container itself, or on the
      item with the given index. */
  datatype Click = OnContainer | OnItem(index: nat)

  /** handleTunerModeSelected: the chosen display's index. */
  function TunerModeSelected(s: US.Settings, c: Click): (t: US.Settings)
    ensures c.OnContainer? ==> t == s
    ensures c.OnItem? ==> t == s.(tunerGuiIndex := U8(c.index))
  {
    match c
    case OnContainer => s
    case OnItem(i) => s.(tunerGuiIndex := U8(i))
  }

  /** handleInTuneThresholdRadio: the setting is 1-based, item index + 1. */
  function ThresholdSelected(s: US.Settings, c: Click): (t: US.Settings)
    ensures c.OnContainer? ==> t == s
    ensures c.OnItem? ==> t == s.(inTuneCentsWidth := U8(c.index + 1))
  {
    match c
    case OnContainer => s
    case OnItem(i) => s.(inTuneCentsWidth := U8(i + 1))
  }

  /** handleMonitoringModeRadio: the item index. */
  function MonitoringSelected(s: US.Settings, c: Click): (t: US.Settings)
    ensures c.OnContainer? ==> t == s
    ensures c.OnItem? ==> t == s.(monitoringMode := U8(c.index))
  {
    match c
    case OnContainer => s
    case OnItem(i) => s.(monitoringMode := U8(i))
  }

  /** handleBrightnessSelected: sets the backlight to index * 10 + 10
      percent and stores the index only if that reported success, which
      lcd_display_brightness_set always does. */
  function BrightnessSelected(s: US.Settings, c: Click): (r: (US.Settings, Option<Lcd.Backlight>))
    ensures c.OnContainer? ==> r == (s, None)
    ensures c.OnItem? ==> r.1 == Some(Lcd.BrightnessSet(c.index * 10 + 10))
    ensures c.OnItem? ==> r.0 == s.(displayBrightness := U8(c.index))
  {
    match c
    case OnContainer => (s, None)
    case OnItem(i) =>
      var b := Lcd.BrightnessSet(i * 10 + 10);
      (if b.status == Lcd.Ok then s.(displayBrightness := U8(i)) else s, Some(b))
  }

  /** handleNoteColorSelected: the palette for the item index. */
  function NoteColorSelected(s: US.Settings, c: Click): (t: US.Settings)
    ensures c.OnContainer? ==> t == s
    ensures c.OnItem? ==> t == s.(noteNamePalette := US.PaletteForSettingIndex(c.index))
  {
    match c
    case OnContainer => s
    case OnItem(i) => s.(noteNamePalette := US.PaletteForSettingIndex(i))
  }

  /** handleInitialStateSelected: 1-based, so Standby (1) or Tuning (2). */
  function InitialStateSelected(s: US.Settings, c: Click): (t: US.Settings)
    ensures c.OnContainer? ==> t == s
    ensures c.OnItem? ==> t == s.(initialState := U8(c.index + 1))
    ensures c == OnItem(0) ==> t.initialState == StateCode(Standby)
    ensures c == OnItem(1) ==> t.initialState == StateCode(Tuning)
  {
    match c
    case OnContainer => s
    case OnItem(i) => s.(initialState := U8(i + 1))
  }

  /** handleRotationSelected: stores the item index as the orientation and
      then asks rotateScreenTo for it, which saves only if the display
      actually turns. */
  function RotationSelected(s: US.Settings, nvs: US.Nvs, current: Lcd.Rotation, c: Click): (r: US.RotateResult)
    ensures c.OnContainer? ==> r == US.RotateResult(s, nvs, current, false)
    ensures c.OnItem? ==> r.settings.displayOrientation == U8(c.index)
    ensures c.OnItem? ==> r.rotation == US.GetDisplayOrientation(U8(c.index))
  {
    match c
    case OnContainer => US.RotateResult(s, nvs, current, false)
    case OnItem(i) => US.RotateScreenTo(s.(displayOrientation := U8(i)), nvs, current, U8(i))
  }

  /** Picking an item and opening the same list again shows that item
      checked, for every radio list in the settings. */
  lemma ReopenShowsSelection(s: US.Settings, nvs: US.Nvs, current: Lcd.Rotation, i: nat)
    ensures i < AvailableGuis ==>
      RadioCheckedIndex(RadioValue(TunerModeHandler, TunerModeSelected(s, OnItem(i))), AvailableGuis, 0) == i
    ensures i < ThresholdItems ==>
      RadioCheckedIndex(RadioValue(ThresholdHandler, ThresholdSelected(s, OnItem(i))), ThresholdItems, 1) == i
    ensures i < MonitoringItems ==>
      RadioCheckedIndex(RadioValue(MonitoringHandler, MonitoringSelected(s, OnItem(i))), MonitoringItems, 0) == i
    ensures i < BrightnessItems ==>
      RadioCheckedIndex(RadioValue(BrightnessHandler, BrightnessSelected(s, OnItem(i)).0), BrightnessItems, 0) == i
    ensures i < NoteColorItems ==>
      RadioCheckedIndex(RadioValue(NoteColorHandler, NoteColorSelected(s, OnItem(i))), NoteColorItems, 0) == i
    ensures i < InitialScreenItems ==>
      RadioCheckedIndex(RadioValue(InitialStateHandler, InitialStateSelected(s, OnItem(i))), InitialScreenItems, 1) == i
    ensures i < RotationItems ==>
      RadioCheckedIndex(RadioValue(RotationHandler, RotationSelected(s, nvs, current, OnItem(i)).settings), RotationItems, 0) == i
  {
    if i < NoteColorItems {
      US.PaletteTablesInverse(0, i);
    }
  }

  /** What a radio handler leaves behind: the settings, the storage, the
      display rotation and the backlight it set, if any. */
  datatype Outcome = Outcome(settings: US.Settings, nvs: US.Nvs, rotation: Lcd.Rotation, backlight: Option<Lcd.Backlight>)

  /** The click delivered to the container callback of the list with the
      given handler. */
  function Selected(h: RadioHandler, s: US.Settings, nvs: US.Nvs, current: Lcd.Rotation, c: Click): (o: Outcome)
    ensures c.OnContainer? ==> o == Outcome(s, nvs, current, None)
    ensures h != RotationHandler ==> o.nvs == nvs && o.rotation == current
    ensures h != BrightnessHandler ==> o.backlight == None
    ensures c.OnItem? && c.index < RadioItems(h) ==>
      RadioCheckedIndex(RadioValue(h, o.settings), RadioItems(h), RadioOffset(h)) == c.index
  {
    ReopenShowsSelection(s, nvs, current, if c.OnItem? then c.index else 0);
    match h
    case TunerModeHandler => Outcome(TunerModeSelected(s, c), nvs, current, None)
    case ThresholdHandler => Outcome(ThresholdSelected(s, c), nvs, current, None)
    case MonitoringHandler => Outcome(MonitoringSelected(s, c), nvs, current, None)
    case BrightnessHandler =>
      var b := BrightnessSelected(s, c);
      Outcome(b.0, nvs, current, b.1)
    case NoteColorHandler => Outcome(NoteColorSelected(s, c), nvs, current, None)
    case InitialStateHandler => Outcome(InitialStateSelected(s, c), nvs, current, None)
    case RotationHandler =>
      var r := RotationSelected(s, nvs, current, c);
      Outcome(r.settings, r.nvs, r.rotation, None)
  }

  // ---------------------------------------------------------------------
  // The LVGL lock in the radio handlers
  // ---------------------------------------------------------------------

  /** One lvgl_port_lock (Take) or lvgl_port_unlock (Give). The lock is a
      recursive mutex and the handlers wait for it without a timeout. */
  datatype LockOp = Take | Give

  /** How many times the calling task holds the lock after the operations,
      one more for every Take and one less for every Give. */
  function LockDepth(ops: seq<LockOp>, depth: int): int
    decreases |ops|
  {
    if |ops| == 0 then depth
    else LockDepth(ops[1..], if ops[0] == Take then depth + 1 else depth - 1)
  }

  /** Running two lists of operations one after the other changes the
      depth by what each changes it by: the depth after a list of
      operations is the starting depth plus a fixed amount. */
  lemma {:induction false} LockDepthAppend(a: seq<LockOp>, b: seq<LockOp>, depth: int)
    ensures LockDepth(a + b, depth) == LockDepth(b, LockDepth(a, depth))
    ensures LockDepth(a, depth) == depth + LockDepth(a, 0)
    decreases |a|
  {
    if |a| == 0 {
      assert a + b == b;
    } else {
      assert (a + b)[0] == a[0] && (a + b)[1..] == a[1..] + b;
      var next := if a[0] == Take then depth + 1 else depth - 1;
      LockDepthAppend(a[1..], b, next);
      LockDepthAppend(a[1..], b, if a[0] == Take then 1 else -1);
    }
  }

  /** One lock taken and given back. */
  const TakeGive: seq<LockOp> := [Take, Give]

  lemma TakeGiveBalanced(depth: int)
    ensures LockDepth(TakeGive, depth) == depth
    ensures LockDepth(TakeGive + TakeGive, depth) == depth
  {
    LockDepthAppend(TakeGive, TakeGive, depth);
  }

  /** The lock operations of one run of a radio handler, as written. The
      tuner-mode handler gives the lock back before its container check;
      every other handler takes it and returns on a container click while
      still holding it; the rotation handler gives it back before calling
      rotateScreenTo, which takes and gives it once more. */
  function HandlerLocksAsWritten(h: RadioHandler, c: Click): (ops: seq<LockOp>)
    ensures |ops| > 0 && ops[0] == Take
    ensures LockDepth(ops, 0) == 0 <==> c.OnItem? || h == TunerModeHandler
    ensures LockDepth(ops, 0) == 0 || LockDepth(ops, 0) == 1
  {
    TakeGiveBalanced(0);
    if h == TunerModeHandler then TakeGive
    else if c.OnContainer? then [Take]
    else if h == RotationHandler then TakeGive + TakeGive
    else TakeGive
  }

  /** The handlers with the lock also given back before the early return
      on a container click. */
  function HandlerLocks(h: RadioHandler, c: Click): (ops: seq<LockOp>)
    ensures |ops| > 0 && ops[0] == Take
    ensures LockDepth(ops, 0) == 0
    ensures c.OnItem? ==> ops == HandlerLocksAsWritten(h, c)
  {
    TakeGiveBalanced(0);
    if h == RotationHandler && c.OnItem? then TakeGive + TakeGive else TakeGive
  }

  /** How many times the calling task holds the lock after a radio handler
      returns, as written. */
  function LockDepthAfterAsWritten(h: RadioHandler, c: Click, depth: int): (d: int)
    ensures c.OnItem? || h == TunerModeHandler ==> d == depth
    ensures c.OnContainer? && h != TunerModeHandler ==> d == depth + 1
  {
    LockDepthAppend(HandlerLocksAsWritten(h, c), [], depth);
    LockDepth(HandlerLocksAsWritten(h, c), depth)
  }

  /** A single tap on the threshold list's background leaves the lock held. */
  lemma ContainerClickKeepsLock()
    ensures LockDepthAfterAsWritten(ThresholdHandler, OnContainer, 0) == 1
  {
  }

  /** How many times the calling task holds the lock after a corrected
      radio handler returns: as many as before. */
  function LockDepthAfter(h: RadioHandler, c: Click, depth: int): (d: int)
    ensures d == depth
    ensures c.OnItem? ==> d == LockDepthAfterAsWritten(h, c, depth)
  {
    LockDepthAppend(HandlerLocks(h, c), [], depth);
    LockDepth(HandlerLocks(h, c), depth)
  }

  /** The lock operations of a sequence of radio clicks, each with its
      handler, one handler run after the other. */
  function AllLocks(cs: seq<(RadioHandler, Click)>, asWritten: bool): (ops: seq<LockOp>)
    decreases |cs|
  {
    if |cs| == 0 then []
    else
      (if asWritten then HandlerLocksAsWritten(cs[0].0, cs[0].1) else HandlerLocks(cs[0].0, cs[0].1))
        + AllLocks(cs[1..], asWritten)
  }

  /** The clicks that, as written, leave the lock held. */
  function LeakingClicks(cs: seq<(RadioHandler, Click)>): (n: nat)
    ensures n <= |cs|
    decreases |cs|
  {
    if |cs| == 0 then 0
    else (if cs[0].1.OnContainer? && cs[0].0 != TunerModeHandler then 1 else 0) + LeakingClicks(cs[1..])
  }

  /** With the release on every path, any number of clicks leaves the lock
      as it found it. */
  lemma {:induction false} LockBalanced(cs: seq<(RadioHandler, Click)>, depth: int)
    ensures LockDepth(AllLocks(cs, false), depth) == depth
    decreases |cs|
  {
    if |cs| > 0 {
      var h := HandlerLocks(cs[0].0, cs[0].1);
      LockDepthAppend(h, AllLocks(cs[1..], false), depth);
      LockBalanced(cs[1..], LockDepth(h, depth));
    }
  }

  /** As written, every container click on a list other than the tuner
      mode leaves the lock held once more, and nothing gives it back. */
  lemma {:induction false} LockLeaksPerContainerClick(cs: seq<(RadioHandler, Click)>, depth: int)
    ensures LockDepth(AllLocks(cs, true), depth) == depth + LeakingClicks(cs)
    decreases |cs|
  {
    if |cs| > 0 {
      var h := HandlerLocksAsWritten(cs[0].0, cs[0].1);
      LockDepthAppend(h, AllLocks(cs[1..], true), depth);
      LockLeaksPerContainerClick(cs[1..], LockDepth(h, depth));
    }
  }

  // ---------------------------------------------------------------------
  // Buttons and footswitch navigation
  // ---------------------------------------------------------------------

  /** The state the settings screens work on: the screen stack, the
      settings object, the storage and the display rotation. */
  datatype Session = Session(stack: seq<Screen>, settings: US.Settings, nvs: US.Nvs, rotation: Lcd.Rotation)

  /** A session after a settings action, with the controller, the
      controller callbacks it caused, the backlight it set, if any, and
      whether it restarted the chip. */
  datatype NavResult = NavResult(session: Session, controller: Controller, calls: seq<Notification>,
                                 backlight: Option<Lcd.Backlight>, restart: bool)

  /** An action that only changes the session. */
  function Stay(ss: Session, c: Controller): (r: NavResult)
    ensures r.session == ss && r.controller == c && r.calls == [] && r.backlight.None? && !r.restart
  {
    NavResult(ss, c, [], None, false)
  }

  /** The object a sent click reaches in the screen's group. */
  datatype Target =
    | Entry(menu: MenuId, index: nat)
    | ExitButton
    | BackButton
    | SpinboxWidget
    | Item(handler: RadioHandler, index: nat)
    | CancelButton
    | ResetButton

  /** The focused object of the screen's group. Past a menu's Back button
      come the spinbox widgets, four per spinbox screen, the fourth of each
      being that screen's Back button. */
  function FocusedTarget(s: Screen): (t: Target)
    requires HasGroup(s)
    ensures t.Entry? ==> s.Menu? && s.dialog.None? && t.menu == s.id && t.index == s.focus < Entries(s.id)
    ensures t == ExitButton ==> s.Menu? && s.exitButton && s.focus == Entries(s.id)
    ensures t.Item? ==> s.RadioList? && t.handler == s.handler && t.index == s.focus < RadioItems(s.handler)
    ensures t == CancelButton || t == ResetButton <==> s.Menu? && s.dialog.Some?
    ensures s.RadioList? && s.focus == RadioItems(s.handler) ==> t == BackButton
    ensures s.Menu? && s.dialog.None? && !s.exitButton && s.focus == Entries(s.id) ==> t == BackButton
  {
    match s
    case Menu(id, exit, f, _, d) =>
      if d.Some? then (if d.value == 0 then CancelButton else ResetButton)
      else if f < Entries(id) then Entry(id, f)
      else if f == Entries(id) then (if exit then ExitButton else BackButton)
      else if (f - Entries(id) - 1) % SpinboxWidgets == SpinboxWidgets - 1 then BackButton
      else SpinboxWidget
    case RadioList(h, _, f) => if f < RadioItems(h) then Item(h, f) else BackButton
  }

  /** Loading nvs gives back every field of s that the menus edit. */
  predicate MenuFieldsStored(s: US.Settings, nvs: US.Nvs) {
    var t := US.Load(nvs);
    t.tunerGuiIndex == s.tunerGuiIndex && t.inTuneCentsWidth == s.inTuneCentsWidth &&
    t.monitoringMode == s.monitoringMode && t.displayBrightness == s.displayBrightness &&
    t.noteNamePalette == s.noteNamePalette && t.displayOrientation == s.displayOrientation
  }

  /** Saving and loading back gives every field the menus edit its value. */
  lemma SaveKeepsMenuFields(s: US.Settings, nvs: US.Nvs)
    ensures US.ByteFields(s) ==> MenuFieldsStored(s, US.Save(s, nvs))
  {
    if US.ByteFields(s) { US.SaveLoadRoundTrip(s, nvs); }
  }

  /** handleBackButtonClicked: saves, then pops the top screen, whichever
      screen's Back button it was. */
  function BackClicked(ss: Session, c: Controller): (r: NavResult)
    requires |ss.stack| >= 2
    ensures r.session.stack == RemoveCurrentMenu(ss.stack)
    ensures ss.stack[|ss.stack| - 1] != SpinboxScreen ==> r.session.stack == ss.stack[..|ss.stack| - 1]
    ensures r.session.settings == ss.settings && r.session.rotation == ss.rotation
    ensures r.session.nvs == US.Save(ss.settings, ss.nvs)
    ensures US.ByteFields(ss.settings) ==> MenuFieldsStored(ss.settings, r.session.nvs)
    ensures r.controller == c && r.calls == [] && r.backlight.None? && !r.restart
  {
    var popped := RemoveCurrentMenu(ss.stack);
    assert ss.stack[|ss.stack| - 1] != SpinboxScreen ==> popped == ss.stack[..|ss.stack| - 1];
    SaveKeepsMenuFields(ss.settings, ss.nvs);
    Stay(ss.(stack := popped, nvs := US.Save(ss.settings, ss.nvs)), c)
  }

  /** handleExitButtonClicked: back to tuning; nothing is popped here. */
  function ExitClicked(ss: Session, c: Controller): (r: NavResult)
    ensures r.session == ss && GetState(r.controller) == Tuning
    ensures r.calls == [WillChange(GetState(c), Tuning), DidChange(GetState(c), Tuning)]
    ensures r.backlight.None? && !r.restart
  {
    var t := SetState(c, Tuning);
    NavResult(ss, t.controller, t.calls, None, false)
  }

  /** The submenu behind each entry of the top menu. */
  function TopEntry(i: nat): (m: MenuId)
    ensures m != TopMenu
  {
    if i == 0 then TunerMenu else if i == 1 then DisplayMenu else if i == 2 then DebugMenu else AboutMenu
  }

  /** The radio list behind each entry of the Tuner and Display menus. */
  function ListEntry(m: MenuId, i: nat): RadioHandler {
    if m == TunerMenu then
      (if i == 0 then TunerModeHandler else if i == 1 then ThresholdHandler else MonitoringHandler)
    else
      (if i == 0 then BrightnessHandler else if i == 1 then NoteColorHandler
       else if i == 2 then InitialStateHandler else RotationHandler)
  }

  /** A click on entry i of menu m, the menu whose group is the default
      one sitting at position k of the stack: the top menu opens a submenu,
      the Tuner and Display menus open a radio list, the Debug menu opens a
      spinbox, and in the About menu the version entry acts as Back and the
      factory-reset entry opens its message box with Cancel focused. */
  function EntryClicked(ss: Session, c: Controller, k: nat, m: MenuId, i: nat): (r: NavResult)
    requires k < |ss.stack| && ss.stack[k].Menu?
    ensures r.controller == c && r.calls == [] && !r.restart && r.backlight.None?
    ensures m != AboutMenu ==> r.session.nvs == ss.nvs && r.session.settings == ss.settings
    ensures (m == TopMenu || m == TunerMenu || m == DisplayMenu) && i < Entries(m) ==>
      |r.session.stack| == |ss.stack| + 1 && r.session.stack[..|ss.stack|] == ss.stack
    ensures m == DebugMenu && i < Entries(m) ==> r.session.stack == CreateSpinbox(ss.stack)
    ensures m == AboutMenu && i == 0 && |ss.stack| >= 2 ==> r == BackClicked(ss, c)
    ensures m == AboutMenu && i == 1 ==>
      r.session == ss.(stack := ss.stack[k := ss.stack[k].(dialog := Some(0))])
  {
    var st := ss.stack;
    if i >= Entries(m) then Stay(ss, c)
    else
      match m
      case TopMenu => Stay(ss.(stack := CreateMenu(st, TopEntry(i))), c)
      case TunerMenu => Stay(ss.(stack := CreateRadioList(st, ListEntry(m, i), ss.settings)), c)
      case DisplayMenu => Stay(ss.(stack := CreateRadioList(st, ListEntry(m, i), ss.settings)), c)
      case DebugMenu => Stay(ss.(stack := CreateSpinbox(st)), c)
      case AboutMenu =>
        if i == 0 then (if |st| >= 2 then BackClicked(ss, c) else Stay(ss, c))
        else Stay(ss.(stack := st[k := st[k].(dialog := Some(0))]), c)
  }

  /** A click on item i of the radio list at position k: the list's handler
      runs and the item becomes the checked one. */
  function ItemClicked(ss: Session, c: Controller, k: nat, h: RadioHandler, i: nat): (r: NavResult)
    requires k < |ss.stack| && ss.stack[k].RadioList?
    ensures |r.session.stack| == |ss.stack|
    ensures r.session.stack[k] == ss.stack[k].(checked := i)
    ensures forall j :: 0 <= j < |ss.stack| && j != k ==> r.session.stack[j] == ss.stack[j]
    ensures var o := Selected(h, ss.settings, ss.nvs, ss.rotation, OnItem(i));
      r.session.settings == o.settings && r.session.nvs == o.nvs &&
      r.session.rotation == o.rotation && r.backlight == o.backlight
    ensures r.controller == c && r.calls == [] && !r.restart
  {
    var o := Selected(h, ss.settings, ss.nvs, ss.rotation, OnItem(i));
    NavResult(Session(ss.stack[k := ss.stack[k].(checked := i)], o.settings, o.nvs, o.rotation), c, [], o.backlight, false)
  }

  /** The click pressFocusedButton sends to the target, the focused object
      of the group of the screen at position k. A click on a spinbox or on
      its plus or minus button does nothing: their callbacks act only on
      short clicks and repeated long presses. Cancel closes the message
      box; Reset restores the defaults, saves and restarts the chip. */
  function Clicked(ss: Session, c: Controller, k: nat, t: Target): (r: NavResult)
    requires k < |ss.stack| && HasGroup(ss.stack[k])
    requires t.Entry? || t == CancelButton || t == ResetButton ==> ss.stack[k].Menu?
    requires t.Item? ==> ss.stack[k].RadioList?
  {
    var st := ss.stack;
    match t
    case ExitButton => ExitClicked(ss, c)
    case BackButton => if |st| >= 2 then BackClicked(ss, c) else Stay(ss, c)
    case SpinboxWidget => Stay(ss, c)
    case Entry(m, i) => EntryClicked(ss, c, k, m, i)
    case Item(h, i) => ItemClicked(ss, c, k, h, i)
    case CancelButton => Stay(ss.(stack := st[k := st[k].(dialog := None)]), c)
    case ResetButton =>
      var d := US.RestoreDefaults(ss.settings, ss.nvs);
      NavResult(ss.(settings := d.0, nvs := d.1), c, [], None, true)
  }

  /** The group's focus moved to its next object, wrapping after the last. */
  function FocusNext(s: Screen): (t: Screen)
    requires HasGroup(s)
    ensures HasGroup(t) && Kind(t) == Kind(s) && GroupSize(t) == GroupSize(s)
    ensures Focus(t) == (Focus(s) + 1) % GroupSize(s)
    ensures FocusInRange(s) ==> FocusInRange(t)
  {
    match s
    case Menu(id, e, f, w, d) =>
      if d.Some? then Menu(id, e, f, w, Some((d.value + 1) % 2)) else Menu(id, e, (f + 1) % GroupSize(s), w, d)
    case RadioList(h, x, f) => RadioList(h, x, (f + 1) % GroupSize(s))
  }

  /** advanceToNextButton: the default group's focus moves on, wrapping;
      without a default group nothing happens. */
  function AdvanceFocus(ss: Session): (r: Session)
    ensures r.settings == ss.settings && r.nvs == ss.nvs && r.rotation == ss.rotation
    ensures |r.stack| == |ss.stack| && FocusOwner(r.stack) == FocusOwner(ss.stack)
    ensures FocusOwner(ss.stack).None? ==> r == ss
    ensures FocusOwner(ss.stack).Some? ==> var k := FocusOwner(ss.stack).value;
      r.stack == ss.stack[k := FocusNext(ss.stack[k])]
  {
    match FocusOwner(ss.stack)
    case None => ss
    case Some(k) =>
      ReplaceKeepsWellFormed(ss.stack, k, FocusNext(ss.stack[k]));
      ss.(stack := ss.stack[k := FocusNext(ss.stack[k])])
  }

  /** Moving the focus keeps the stack well formed. */
  lemma AdvanceFocusKeepsWellFormed(ss: Session)
    ensures WellFormed(ss.stack) ==> WellFormed(AdvanceFocus(ss).stack)
  {
    if FocusOwner(ss.stack).Some? {
      var k := FocusOwner(ss.stack).value;
      ReplaceKeepsWellFormed(ss.stack, k, FocusNext(ss.stack[k]));
    }
  }

  /** pressFocusedButton: the default group's focused object gets a click;
      without a default group nothing happens. */
  function PressFocused(ss: Session, c: Controller): (r: NavResult)
    ensures FocusOwner(ss.stack).None? ==> r == Stay(ss, c)
    ensures FocusOwner(ss.stack).Some? ==> var k := FocusOwner(ss.stack).value;
      r == Clicked(ss, c, k, FocusedTarget(ss.stack[k]))
    ensures WellFormed(ss.stack) ==> WellFormed(r.session.stack)
  {
    match FocusOwner(ss.stack)
    case None => Stay(ss, c)
    case Some(k) =>
      DoublePressKeepsWellFormed(ss, c, k);
      Clicked(ss, c, k, FocusedTarget(ss.stack[k]))
  }

  /** UserSettings::footswitchPressed. A single press moves the default
      group's focus on, a double press clicks the focused object, and a
      long press below the top menu acts as the Back button while at the
      top menu it acts as Exit. */
  function FootswitchPressed(ss: Session, c: Controller, p: Press): (r: NavResult)
    ensures p == SinglePress ==> r == Stay(AdvanceFocus(ss), c)
    ensures p == DoublePress ==> r == PressFocused(ss, c)
    ensures p == LongPress && |ss.stack| > 2 ==> r == BackClicked(ss, c)
    ensures p == LongPress && |ss.stack| <= 2 ==> r == ExitClicked(ss, c)
    ensures WellFormed(ss.stack) ==> WellFormed(r.session.stack)
  {
    match p
    case SinglePress => AdvanceFocusKeepsWellFormed(ss); Stay(AdvanceFocus(ss), c)
    case DoublePress => PressFocused(ss, c)
    case LongPress => if |ss.stack| > 2 then BackClicked(ss, c) else ExitClicked(ss, c)
  }

  /** Every press leaves the controller alone or sends it to tuning, and
      only the Reset button of the factory-reset box restarts the chip,
      with the defaults saved. */
  lemma PressEffects(ss: Session, c: Controller, p: Press)
    ensures var r := FootswitchPressed(ss, c, p);
      (r.controller == c || GetState(r.controller) == Tuning) &&
      (r.restart ==> p == DoublePress && (r.session.settings, r.session.nvs) == US.RestoreDefaults(ss.settings, ss.nvs))
  {
  }

  /** Every click a double press can send keeps the stack well formed. */
  lemma DoublePressKeepsWellFormed(ss: Session, c: Controller, k: nat)
    requires FocusOwner(ss.stack) == Some(k)
    ensures WellFormed(ss.stack) ==> WellFormed(Clicked(ss, c, k, FocusedTarget(ss.stack[k])).session.stack)
  {
    var st := ss.stack;
    if !WellFormed(st) { return; }
    var s := st[k];
    var t := FocusedTarget(s);
    assert k >= 1 by { assert st[0] == MainScreen; }
    match t
    case Entry(m, i) =>
      if m == TopMenu {
        assert k == 1 && (TopEntry(i) == TopMenu <==> |st| == 1);
      } else if m == DebugMenu {
        assert JoinsDebugMenu(st);
      } else if m == AboutMenu && i == 1 {
        ReplaceKeepsWellFormed(st, k, s.(dialog := Some(0)));
      }
    case Item(h, i) =>
      ReplaceKeepsWellFormed(st, k, s.(checked := i));
    case CancelButton =>
      ReplaceKeepsWellFormed(st, k, s.(dialog := None));
    case _ =>
  }

  // ---------------------------------------------------------------------
  // What the presses add up to
  // ---------------------------------------------------------------------

  /** The session after n single presses in a row; FootswitchPressed's
      contract makes each of them an AdvanceFocus that leaves the
      controller alone and calls nothing. */
  function SinglePresses(ss: Session, n: nat): Session
    decreases n
  {
    if n == 0 then ss else SinglePresses(AdvanceFocus(ss), n - 1)
  }

  /** The screen with the focus of its group set to position f. */
  function WithFocus(s: Screen, f: nat): Screen
    requires HasGroup(s)
  {
    match s
    case Menu(id, e, g, w, d) => if d.Some? then Menu(id, e, g, w, Some(f)) else Menu(id, e, f, w, d)
    case RadioList(h, x, _) => RadioList(h, x, f)
  }

  /** Setting the focus forgets where a single press had moved it. */
  lemma WithFocusAfterNext(s: Screen, f: nat)
    requires HasGroup(s)
    ensures WithFocus(FocusNext(s), f) == WithFocus(s, f)
    ensures FocusInRange(s) ==> WithFocus(s, Focus(s)) == s
  {
  }

  /** A position already inside the group is its own wrap. */
  lemma WrapSmall(f: nat, size: nat)
    requires f < size
    ensures f % size == f
  {
  }

  /** The only multiple of size strictly between -size and size is 0. */
  lemma OnlyZeroMultiple(d: int, size: int)
    requires size > 0 && -size < d * size < size
    ensures d == 0
  {
  }

  /** Going once round the group does not change where a count lands. */
  lemma WrapShift(x: nat, size: nat)
    requires size > 0
    ensures (x + size) % size == x % size
  {
    var q, r := x / size, x % size;
    var q', r' := (x + size) / size, (x + size) % size;
    assert (q + 1 - q') * size == r' - r;
    OnlyZeroMultiple(q + 1 - q', size);
  }

  /** A full turn of the group comes back to the same position. */
  lemma WrapFull(f: nat, size: nat)
    requires f < size
    ensures (f + size) % size == f
  {
    WrapShift(f, size);
    WrapSmall(f, size);
  }

  /** One step and then n - 1 more, modulo the group size, is n steps. */
  lemma WrapStep(f: nat, n: nat, size: nat)
    requires f < size && n > 0
    ensures ((f + 1) % size + (n - 1)) % size == (f + n) % size
  {
    if f + 1 < size {
      WrapSmall(f + 1, size);
    } else {
      assert (f + 1) % size == 0;
      WrapShift(n - 1, size);
      assert f + n == (n - 1) + size;
    }
  }

  /** One single press, seen from the default group's owner at k: its focus
      steps on by one, wrapping, and setting the focus afterwards is the
      same as setting it before. */
  lemma AdvanceFocusAt(ss: Session, k: nat, m: nat)
    requires FocusOwner(ss.stack) == Some(k) && FocusInRange(ss.stack[k])
    ensures var s := ss.stack[k];
      AdvanceFocus(ss) == ss.(stack := ss.stack[k := FocusNext(s)]) &&
      FocusOwner(AdvanceFocus(ss).stack) == Some(k) &&
      FocusInRange(FocusNext(s)) && GroupSize(FocusNext(s)) == GroupSize(s) &&
      Focus(FocusNext(s)) == (Focus(s) + 1) % GroupSize(s) &&
      ss.stack[k := FocusNext(s)][k := WithFocus(FocusNext(s), m)] == ss.stack[k := WithFocus(s, m)]
  {
    var s := ss.stack[k];
    WithFocusAfterNext(s, m);
    assert ss.stack[k := FocusNext(s)][k := WithFocus(FocusNext(s), m)] == ss.stack[k := WithFocus(s, m)];
  }

  /** n single presses move the focus of the default group, whose owner is
      the screen at k, on n places, wrapping, and change nothing else. */
  lemma {:induction false} SinglePressesAdvance(ss: Session, n: nat, k: nat)
    requires FocusOwner(ss.stack) == Some(k) && FocusInRange(ss.stack[k])
    ensures SinglePresses(ss, n) ==
      ss.(stack := ss.stack[k := WithFocus(ss.stack[k], (Focus(ss.stack[k]) + n) % GroupSize(ss.stack[k]))])
    decreases n
  {
    var s := ss.stack[k];
    var size := GroupSize(s);
    var f := Focus(s);
    assert f < size;
    if n == 0 {
      WrapSmall(f, size);
      WithFocusAfterNext(s, f);
      assert ss.stack[k := s] == ss.stack;
    } else {
      var m := (f + n) % size;
      AdvanceFocusAt(ss, k, m);
      var ss1 := AdvanceFocus(ss);
      SinglePressesAdvance(ss1, n - 1, k);
      WrapStep(f, n, size);
      assert SinglePresses(ss, n) == SinglePresses(ss1, n - 1);
    }
  }

  /** Setting a group's focus to where a full turn lands changes nothing. */
  lemma FullTurnKeepsStack(ss: Session, k: nat)
    requires k < |ss.stack| && HasGroup(ss.stack[k]) && FocusInRange(ss.stack[k])
    ensures var s := ss.stack[k];
      ss.(stack := ss.stack[k := WithFocus(s, (Focus(s) + GroupSize(s)) % GroupSize(s))]) == ss
  {
    var s := ss.stack[k];
    WrapFull(Focus(s), GroupSize(s));
    WithFocusAfterNext(s, Focus(s));
    assert ss.stack[k := s] == ss.stack;
  }

  /** As many single presses as the default group has objects bring its
      focus back where it started: the group wraps. */
  lemma SinglePressesCycle(ss: Session, k: nat, n: nat)
    requires FocusOwner(ss.stack) == Some(k) && FocusInRange(ss.stack[k])
    requires n == GroupSize(ss.stack[k])
    ensures SinglePresses(ss, n) == ss
  {
    SinglePressesAdvance(ss, n, k);
    FullTurnKeepsStack(ss, k);
  }

  /** A double press on a menu entry is a click on that entry. */
  lemma DoublePressOnEntry(ss: Session, c: Controller, k: nat)
    requires FocusOwner(ss.stack) == Some(k) && FocusedTarget(ss.stack[k]).Entry?
    ensures var t := FocusedTarget(ss.stack[k]);
      FootswitchPressed(ss, c, DoublePress) == EntryClicked(ss, c, k, t.menu, t.index)
  {
  }

  /** A double press on the Reset button of the factory-reset box restores
      and saves the defaults and restarts. */
  lemma DoublePressOnReset(ss: Session, c: Controller, k: nat)
    requires FocusOwner(ss.stack) == Some(k) && FocusedTarget(ss.stack[k]) == ResetButton
    ensures var r := FootswitchPressed(ss, c, DoublePress);
      r.restart && (r.session.settings, r.session.nvs) == US.RestoreDefaults(ss.settings, ss.nvs)
  {
  }

  /** A double press on About's Factory Reset entry opens the box with
      Cancel focused, and nothing else changes. */
  lemma OpenResetBox(ss: Session, c: Controller, k: nat)
    requires FocusOwner(ss.stack) == Some(k) && FocusedTarget(ss.stack[k]) == Entry(AboutMenu, 1)
    ensures var st1 := ss.stack[k := ss.stack[k].(dialog := Some(0))];
      var r1 := FootswitchPressed(ss, c, DoublePress);
      r1.session == ss.(stack := st1) && r1.controller == c && !r1.restart &&
      FocusOwner(st1) == Some(k) && FocusedTarget(st1[k]) == CancelButton
  {
    DoublePressOnEntry(ss, c, k);
    ReplaceKeepsWellFormed(ss.stack, k, ss.stack[k].(dialog := Some(0)));
  }

  /** A double press on the top menu's Exit button is a click on it. */
  lemma DoublePressOnExit(ss: Session, c: Controller)
    requires FocusOwner(ss.stack).Some? && FocusedTarget(ss.stack[FocusOwner(ss.stack).value]) == ExitButton
    ensures FootswitchPressed(ss, c, DoublePress) == ExitClicked(ss, c)
    ensures GetState(FootswitchPressed(ss, c, DoublePress).controller) == Tuning
  {
  }

  /** A double press on any Back button is a click on it: it saves and pops
      the top screen. */
  lemma DoublePressOnBack(ss: Session, c: Controller)
    requires |ss.stack| >= 2
    requires FocusOwner(ss.stack).Some? && FocusedTarget(ss.stack[FocusOwner(ss.stack).value]) == BackButton
    ensures FootswitchPressed(ss, c, DoublePress) == BackClicked(ss, c)
  {
  }

  /** A double press on a radio item selects it: the item is checked, and
      the stored setting is one the same list, opened again, shows
      checked. */
  lemma DoublePressSelectsItem(ss: Session, c: Controller)
    requires FocusOwner(ss.stack).Some?
    requires var s := ss.stack[FocusOwner(ss.stack).value];
      s.RadioList? && s.focus < RadioItems(s.handler)
    ensures var k := FocusOwner(ss.stack).value;
      var s := ss.stack[k];
      var r := FootswitchPressed(ss, c, DoublePress);
      r.session.stack[k].checked == s.focus &&
      RadioCheckedIndex(RadioValue(s.handler, r.session.settings), RadioItems(s.handler), RadioOffset(s.handler)) == s.focus &&
      CreateRadioList(r.session.stack, s.handler, r.session.settings)[|ss.stack|].checked == s.focus
  {
  }

  /** Opening the spinbox screen from the debug menu and popping it gives
      the debug menu back its widgets and its focus. */
  lemma SpinboxThenBack(st: seq<Screen>)
    requires WellFormed(st) && JoinsDebugMenu(st)
    ensures RemoveCurrentMenu(CreateSpinbox(st)) == st
  {
    var k := FocusOwner(st).value;
    var st1 := CreateSpinbox(st);
    assert st1[..|st|][k] == st[k].(widgets := st[k].widgets + SpinboxWidgets);
    assert JoinsDebugMenu(st1[..|st|]) by {
      assert FocusOwner(st1[..|st|]) == Some(k) by {
        assert forall j :: 0 <= j < |st| ==> Kind(st1[..|st|][j]) == Kind(st[j]);
        SameKindsSameOwner(st1[..|st|], st);
      }
    }
    var r := RemoveCurrentMenu(st1);
    assert r[k] == ReleaseSpinbox(st1[k]);
    assert r[k] == st[k];
    assert r == st;
  }

  /** Opening a sub-screen from an entry other than About's and popping it
      again gives back the stack it was opened from. */
  lemma EntryThenBack(ss: Session, c: Controller, k: nat)
    requires WellFormed(ss.stack) && FocusOwner(ss.stack) == Some(k)
    requires var t := FocusedTarget(ss.stack[k]); t.Entry? && t.menu != AboutMenu
    ensures var t := FocusedTarget(ss.stack[k]);
      var r1 := EntryClicked(ss, c, k, t.menu, t.index);
      |r1.session.stack| > 2 && RemoveCurrentMenu(r1.session.stack) == ss.stack &&
      r1.session.settings == ss.settings && r1.session.nvs == ss.nvs && r1.controller == c
  {
    var st := ss.stack;
    var t := FocusedTarget(st[k]);
    assert k >= 1 by { assert st[0] == MainScreen; }
    var st1 := EntryClicked(ss, c, k, t.menu, t.index).session.stack;
    if t.menu == DebugMenu {
      assert JoinsDebugMenu(st);
      SpinboxThenBack(st);
    } else {
      assert st1[|st|] != SpinboxScreen;
      assert st1[..|st|] == st;
    }
  }

  /** Opening a submenu, radio list or spinbox with a double press and
      leaving it with a long press restores the screen stack, focus
      included, and leaves the settings saved. */
  lemma OpenThenLongPressRestores(ss: Session, c: Controller)
    requires WellFormed(ss.stack) && FocusOwner(ss.stack).Some?
    requires var t := FocusedTarget(ss.stack[FocusOwner(ss.stack).value]);
      t.Entry? && t.menu != AboutMenu
    ensures var r1 := FootswitchPressed(ss, c, DoublePress);
      var r2 := FootswitchPressed(r1.session, r1.controller, LongPress);
      r2.session.stack == ss.stack && r2.session.settings == ss.settings &&
      r2.session.nvs == US.Save(ss.settings, ss.nvs) && r2.controller == c
  {
    var k := FocusOwner(ss.stack).value;
    var t := FocusedTarget(ss.stack[k]);
    var r1 := FootswitchPressed(ss, c, DoublePress);
    DoublePressOnEntry(ss, c, k);
    EntryThenBack(ss, c, k);
    assert FootswitchPressed(r1.session, r1.controller, LongPress) == BackClicked(r1.session, r1.controller);
  }

  /** Opening the factory-reset message box and pressing its focused
      Cancel button gives back the About menu as it was. */
  lemma FactoryResetCancelRestores(ss: Session, c: Controller)
    requires FocusOwner(ss.stack).Some?
    requires FocusedTarget(ss.stack[FocusOwner(ss.stack).value]) == Entry(AboutMenu, 1)
    ensures var r1 := FootswitchPressed(ss, c, DoublePress);
      FootswitchPressed(r1.session, r1.controller, DoublePress) == Stay(ss, c)
  {
    var st := ss.stack;
    var k := FocusOwner(st).value;
    OpenResetBox(ss, c, k);
    var r1 := FootswitchPressed(ss, c, DoublePress);
    var st1 := st[k := st[k].(dialog := Some(0))];
    assert FocusedTarget(st1[k]) == CancelButton;
    assert st1[k := st1[k].(dialog := None)] == st;
  }

  /** Opening the message box, moving to Reset and pressing it restores
      the defaults, saves them and restarts. */
  lemma FactoryResetConfirmed(ss: Session, c: Controller)
    requires FocusOwner(ss.stack).Some?
    requires FocusedTarget(ss.stack[FocusOwner(ss.stack).value]) == Entry(AboutMenu, 1)
    ensures var r1 := FootswitchPressed(ss, c, DoublePress);
      var r2 := FootswitchPressed(r1.session, r1.controller, SinglePress);
      var r3 := FootswitchPressed(r2.session, r2.controller, DoublePress);
      r3.restart && (r3.session.settings, r3.session.nvs) == US.RestoreDefaults(ss.settings, ss.nvs)
  {
    var st := ss.stack;
    var k := FocusOwner(st).value;
    OpenResetBox(ss, c, k);
    var r1 := FootswitchPressed(ss, c, DoublePress);
    var st1 := st[k := st[k].(dialog := Some(0))];
    var r2 := FootswitchPressed(r1.session, c, SinglePress);
    var st2 := st1[k := FocusNext(st1[k])];
    assert r2.session == ss.(stack := st2) && r2.controller == c;
    assert st2[k] == st1[k].(dialog := Some(1));
    ReplaceKeepsWellFormed(st1, k, st1[k].(dialog := Some(1)));
    assert FocusedTarget(st2[k]) == ResetButton;
    DoublePressOnReset(r2.session, c, k);
  }

  /** n long presses in a row; FootswitchPressed's contract makes each of
      them the Back button below the top menu and Exit at it. */
  function LongPresses(ss: Session, c: Controller, n: nat): (r: NavResult)
    decreases n
  {
    if n == 0 then Stay(ss, c)
    else
      var r1 := if |ss.stack| > 2 then BackClicked(ss, c) else ExitClicked(ss, c);
      LongPresses(r1.session, r1.controller, n - 1)
  }

  /** Climbing back: |stack| - 2 long presses leave only the top menu
      over the main screen, with the controller and the settings as they
      were, and one more long press returns to tuning. */
  predicate ClimbsToTopMenu(ss: Session, c: Controller)
    requires |ss.stack| >= 2
  {
    var r := LongPresses(ss, c, |ss.stack| - 2);
    r.session.stack == ss.stack[..2] && r.controller == c && r.session.settings == ss.settings &&
    GetState(LongPresses(ss, c, |ss.stack| - 1).controller) == Tuning
  }

  /** At the top menu no long press is needed to be there, and one long
      press returns to tuning. */
  lemma LongPressAtTop(ss: Session, c: Controller)
    requires |ss.stack| == 2
    ensures ClimbsToTopMenu(ss, c)
  {
    var r1 := ExitClicked(ss, c);
    assert LongPresses(ss, c, 1) == LongPresses(r1.session, r1.controller, 0);
    assert ss.stack[..2] == ss.stack;
  }

  /** A long press below the top menu is the Back button: it pops one
      screen, keeps the bottom two and the settings, and leaves the
      controller alone. */
  lemma LongPressBelowTop(ss: Session, c: Controller, n: nat)
    requires WellFormed(ss.stack) && |ss.stack| > 2 && n > 0
    ensures var ss1 := BackClicked(ss, c).session;
      LongPresses(ss, c, n) == LongPresses(ss1, c, n - 1) &&
      WellFormed(ss1.stack) && (|ss1.stack| == |ss.stack| - 1) &&
      ss1.stack[..2] == ss.stack[..2] && ss1.settings == ss.settings
  {
  }

  /** If the climb works from the screen Back leaves, it works from here. */
  lemma ClimbAfterBack(ss: Session, c: Controller)
    requires WellFormed(ss.stack) && |ss.stack| > 2
    requires ClimbsToTopMenu(BackClicked(ss, c).session, c)
    ensures ClimbsToTopMenu(ss, c)
  {
    LongPressBelowTop(ss, c, |ss.stack| - 2);
    LongPressBelowTop(ss, c, |ss.stack| - 1);
  }

  /** Long presses pop one sub-screen each and never the top menu; once
      only the top menu is left, the next long press returns to tuning. */
  lemma {:induction false} LongPressesClimbToTopMenu(ss: Session, c: Controller)
    requires WellFormed(ss.stack) && |ss.stack| >= 2
    ensures ClimbsToTopMenu(ss, c)
    decreases |ss.stack|
  {
    if |ss.stack| == 2 {
      LongPressAtTop(ss, c);
    } else {
      LongPressBelowTop(ss, c, 1);
      LongPressesClimbToTopMenu(BackClicked(ss, c).session, c);
      ClimbAfterBack(ss, c);
    }
  }
}
