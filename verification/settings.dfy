/** The persisted user settings of main/user_settings.cpp: the settings
    record, its NVS encoding, the factory reset, and the orientation and
    palette tables. */
module UserSettings {
  import opened Wrappers
  import opened Defines
  import opened CMath
  import opened Palette
  import TunerControl
  import Lcd

  /** The stored bytes of the two initial states that matter here. */
  const BootingCode: int := TunerControl.StateCode(TunerControl.Booting)
  const TuningCode: int := TunerControl.StateCode(TunerControl.Tuning)

  /** TunerOrientation (main/user_settings.h). */
  const OrientationNormal: int := 0
  const OrientationLeft: int := 1
  const OrientationRight: int := 2
  const OrientationUpsideDown: int := 3

  /** The settings fields that loadSettings and saveSettings handle. The
      enum and uint8_t fields hold their byte value. */
  datatype Settings = Settings(
    initialState: int,
    standbyGuiIndex: int,
    tunerGuiIndex: int,
    inTuneCentsWidth: int,
    monitoringMode: int,
    noteNamePalette: int,
    displayOrientation: int,
    expSmoothing: real,
    oneEuBeta: real,
    noteDebounceInterval: real,
    use1EuFilterFirst: bool,
    displayBrightness: int)

  predicate IsByte(x: int) { 0 <= x < 256 }

  /** Every byte-sized field holds a byte, as its C type guarantees. */
  predicate ByteFields(s: Settings) {
    IsByte(s.initialState) && IsByte(s.standbyGuiIndex) && IsByte(s.tunerGuiIndex) &&
    IsByte(s.inTuneCentsWidth) && IsByte(s.monitoringMode) && IsByte(s.noteNamePalette) &&
    IsByte(s.displayOrientation) && IsByte(s.displayBrightness)
  }

  /** The field initialisers of the class (the DEFAULT_* constants). */
  function Defaults(): (s: Settings)
    ensures ByteFields(s)
    ensures s.initialState == TuningCode
  {
    Settings(TuningCode, DefaultStandbyGuiIndex, DefaultTunerGuiIndex,
      DefaultInTuneCentsWidth, DefaultMonitoringMode, PaletteNone, OrientationNormal,
      DefaultExpSmoothing, DefaultOneEuBeta, DefaultNoteDebounceInterval,
      DefaultUseOneEuFilterFirst, DefaultDisplayBrightness)
  }

  // ---------------------------------------------------------------------
  // Non-volatile storage
  // ---------------------------------------------------------------------

  /** An NVS entry: a u8 or a u32 value. */
  datatype NvsValue = U8Value(b: int) | U32Value(w: int)

  /** The "settings" namespace as a key-to-value map. */
  type Nvs = map<string, NvsValue>

  const KeyInitialScreen: string := "initial_screen"
  const KeyStandbyGuiIndex: string := "standby_gui_idx"
  const KeyTunerGuiIndex: string := "tuner_gui_index"
  const KeyInTuneWidth: string := "in_tune_width"
  const KeyMonitoringMode: string := "monitoring_mode"
  const KeyNoteNamePalette: string := "note_nm_palette"
  const KeyDisplayOrientation: string := "display_orient"
  const KeyExpSmoothing: string := "exp_smoothing"
  const KeyOneEuBeta: string := "one_eu_beta"
  const KeyNoteDebounce: string := "note_debounce"
  const KeyUseOneEuFirst: string := "oneEUFilter1st"
  const KeyDisplayBrightness: string := "dsp_brightness"

  function SettingKeys(): set<string> {
    {KeyInitialScreen, KeyStandbyGuiIndex, KeyTunerGuiIndex, KeyInTuneWidth,
     KeyMonitoringMode, KeyNoteNamePalette, KeyDisplayOrientation, KeyExpSmoothing,
     KeyOneEuBeta, KeyNoteDebounce, KeyUseOneEuFirst, KeyDisplayBrightness}
  }

  /** NVS keys are at most 15 characters. */
  lemma KeysFitNvs()
    ensures forall k :: k in SettingKeys() ==> |k| <= 15
  {
  }

  /** nvs_get_u8: present only when the key holds a u8 entry. */
  function GetU8(nvs: Nvs, key: string): (r: Option<int>)
    ensures r.Some? <==> key in nvs && nvs[key].U8Value?
    ensures r.Some? ==> r.value == nvs[key].b
  {
    if key in nvs && nvs[key].U8Value? then Some(nvs[key].b) else None
  }

  /** nvs_get_u32: present only when the key holds a u32 entry. */
  function GetU32(nvs: Nvs, key: string): (r: Option<int>)
    ensures r.Some? <==> key in nvs && nvs[key].U32Value?
    ensures r.Some? ==> r.value == nvs[key].w
  {
    if key in nvs && nvs[key].U32Value? then Some(nvs[key].w) else None
  }

  /** Entries written by nvs_set_u8 and nvs_set_u32 hold values of their
      width. */
  predicate WellTyped(nvs: Nvs) {
    forall k :: k in nvs ==>
      (nvs[k].U8Value? ==> IsByte(nvs[k].b)) &&
      (nvs[k].U32Value? ==> 0 <= nvs[k].w < 0x1_0000_0000)
  }

  /** One u8 field: the stored byte, or the default. */
  function LoadU8(nvs: Nvs, key: string, default: int): (b: int)
    ensures GetU8(nvs, key).Some? ==> b == GetU8(nvs, key).value
    ensures GetU8(nvs, key).None? ==> b == default
    ensures WellTyped(nvs) && IsByte(default) ==> IsByte(b)
  {
    GetU8(nvs, key).GetOr(default)
  }

  /** The initial state loadSettings settles on: the stored value, unless it
      is missing or is Booting, in which case Tuning. */
  function LoadInitialState(nvs: Nvs): (b: int)
    ensures GetU8(nvs, KeyInitialScreen).None? ==> b == TuningCode
    ensures GetU8(nvs, KeyInitialScreen) == Some(BootingCode) ==> b == TuningCode
    ensures b != BootingCode
    ensures WellTyped(nvs) ==> IsByte(b)
    ensures GetU8(nvs, KeyInitialScreen).Some? && GetU8(nvs, KeyInitialScreen).value != BootingCode ==>
      b == GetU8(nvs, KeyInitialScreen).value
  {
    var v := LoadU8(nvs, KeyInitialScreen, TuningCode);
    if v == BootingCode then TuningCode else v
  }

  /** loadSettings: each field from its key, or its default when the key is
      missing or has another type. The stored numbers are decoded as written:
      hundredths for the smoothing, thousandths for the 1EU beta. */
  function Load(nvs: Nvs): (s: Settings)
    ensures s.initialState != BootingCode
    ensures WellTyped(nvs) ==> ByteFields(s)
  {
    var d := Defaults();
    Settings(
      LoadInitialState(nvs),
      LoadU8(nvs, KeyStandbyGuiIndex, d.standbyGuiIndex),
      LoadU8(nvs, KeyTunerGuiIndex, d.tunerGuiIndex),
      LoadU8(nvs, KeyInTuneWidth, d.inTuneCentsWidth),
      LoadU8(nvs, KeyMonitoringMode, d.monitoringMode),
      LoadU8(nvs, KeyNoteNamePalette, d.noteNamePalette),
      LoadU8(nvs, KeyDisplayOrientation, d.displayOrientation),
      match GetU8(nvs, KeyExpSmoothing)
        case Some(v) => v as real * 0.01
        case None => d.expSmoothing,
      match GetU32(nvs, KeyOneEuBeta)
        case Some(v) => v as real * 0.001
        case None => d.oneEuBeta,
      match GetU8(nvs, KeyNoteDebounce)
        case Some(v) => v as real
        case None => d.noteDebounceInterval,
      match GetU8(nvs, KeyUseOneEuFirst)
        case Some(v) => v != 0
        case None => d.use1EuFilterFirst,
      LoadU8(nvs, KeyDisplayBrightness, d.displayBrightness))
  }

  /** A blank namespace loads the defaults. */
  lemma LoadEmptyGivesDefaults()
    ensures Load(map[]) == Defaults()
  {
  }

  /** A float stored through a uint8_t or uint32_t cast: truncated toward
      zero and, outside the type's range, wrapped (the cast is undefined
      there in C). */
  function FloatToU8(x: real): (b: int)
    ensures IsByte(b)
    ensures 0.0 <= x < 256.0 ==> b == Trunc(x)
  {
    U8(Trunc(x))
  }

  function FloatToU32(x: real): (w: int)
    ensures 0 <= w < 0x1_0000_0000
    ensures 0.0 <= x < 4294967296.0 ==> w == Trunc(x)
  {
    U32(Trunc(x))
  }

  /** The entries saveSettings writes, one per settings key. */
  function SaveEntries(s: Settings): (m: Nvs)
    ensures m.Keys == SettingKeys()
    ensures ByteFields(s) ==> WellTyped(m)
  {
    map[KeyInitialScreen := U8Value(s.initialState),
        KeyStandbyGuiIndex := U8Value(s.standbyGuiIndex),
        KeyTunerGuiIndex := U8Value(s.tunerGuiIndex),
        KeyInTuneWidth := U8Value(s.inTuneCentsWidth),
        KeyMonitoringMode := U8Value(s.monitoringMode),
        KeyNoteNamePalette := U8Value(s.noteNamePalette),
        KeyDisplayOrientation := U8Value(s.displayOrientation),
        KeyExpSmoothing := U8Value(FloatToU8(s.expSmoothing * 100.0)),
        KeyOneEuBeta := U32Value(FloatToU32(s.oneEuBeta * 1000.0)),
        KeyNoteDebounce := U8Value(FloatToU8(s.noteDebounceInterval)),
        KeyUseOneEuFirst := U8Value(if s.use1EuFilterFirst then 1 else 0),
        KeyDisplayBrightness := U8Value(s.displayBrightness)]
  }

  /** saveSettings: every field under its key; keys of other settings stay
      as they were. */
  function Save(s: Settings, nvs: Nvs): (r: Nvs)
    ensures SettingKeys() <= r.Keys
    ensures forall k :: k in nvs && k !in SettingKeys() ==> k in r && r[k] == nvs[k]
    ensures forall k :: k in r ==> k in nvs || k in SettingKeys()
    ensures ByteFields(s) && WellTyped(nvs) ==> WellTyped(r)
  {
    nvs + SaveEntries(s)
  }

  /** Saving and loading back gives every byte field and the filter-order
      flag unchanged, except that a stored Booting comes back as Tuning; the
      two floats stored as a byte come back truncated to their stored
      resolution. */
  lemma SaveLoadRoundTrip(s: Settings, nvs: Nvs)
    requires ByteFields(s)
    ensures var t := Load(Save(s, nvs));
      t.initialState == (if s.initialState == BootingCode then TuningCode else s.initialState) &&
      t.standbyGuiIndex == s.standbyGuiIndex &&
      t.tunerGuiIndex == s.tunerGuiIndex &&
      t.inTuneCentsWidth == s.inTuneCentsWidth &&
      t.monitoringMode == s.monitoringMode &&
      t.noteNamePalette == s.noteNamePalette &&
      t.displayOrientation == s.displayOrientation &&
      t.use1EuFilterFirst == s.use1EuFilterFirst &&
      t.displayBrightness == s.displayBrightness &&
      (0.0 <= s.noteDebounceInterval < 256.0 ==> t.noteDebounceInterval == Trunc(s.noteDebounceInterval) as real) &&
      (0.0 <= s.expSmoothing * 100.0 < 256.0 ==> t.expSmoothing == Trunc(s.expSmoothing * 100.0) as real * 0.01)
  {
    SavedBytes(s, nvs);
    SavedFloats(s, nvs);
  }

  /** The byte-valued keys read back what saveSettings wrote. */
  lemma SavedBytes(s: Settings, nvs: Nvs)
    requires ByteFields(s)
    ensures var r := Save(s, nvs);
      GetU8(r, KeyInitialScreen) == Some(s.initialState) &&
      GetU8(r, KeyStandbyGuiIndex) == Some(s.standbyGuiIndex) &&
      GetU8(r, KeyTunerGuiIndex) == Some(s.tunerGuiIndex) &&
      GetU8(r, KeyInTuneWidth) == Some(s.inTuneCentsWidth) &&
      GetU8(r, KeyMonitoringMode) == Some(s.monitoringMode) &&
      GetU8(r, KeyNoteNamePalette) == Some(s.noteNamePalette) &&
      GetU8(r, KeyDisplayOrientation) == Some(s.displayOrientation) &&
      GetU8(r, KeyUseOneEuFirst) == Some(if s.use1EuFilterFirst then 1 else 0) &&
      GetU8(r, KeyDisplayBrightness) == Some(s.displayBrightness)
  {
  }

  /** The two floats saved as a byte read back as that byte. */
  lemma SavedFloats(s: Settings, nvs: Nvs)
    ensures var r := Save(s, nvs);
      GetU8(r, KeyNoteDebounce) == Some(FloatToU8(s.noteDebounceInterval)) &&
      GetU8(r, KeyExpSmoothing) == Some(FloatToU8(s.expSmoothing * 100.0))
  {
  }

  /** restoreDefaultSettings: the ten listed fields go back to their
      defaults, the initial state and monitoring mode are kept, and the
      result is saved. The reboot that follows is left out. */
  function RestoreDefaults(s: Settings, nvs: Nvs): (r: (Settings, Nvs))
    // kept
    ensures r.0.initialState == s.initialState && r.0.monitoringMode == s.monitoringMode
    // reset
    ensures r.0.standbyGuiIndex == DefaultStandbyGuiIndex && r.0.tunerGuiIndex == DefaultTunerGuiIndex
    ensures r.0.inTuneCentsWidth == DefaultInTuneCentsWidth && r.0.noteNamePalette == PaletteNone
    ensures r.0.displayOrientation == OrientationNormal && r.0.expSmoothing == DefaultExpSmoothing
    ensures r.0.oneEuBeta == DefaultOneEuBeta && r.0.noteDebounceInterval == DefaultNoteDebounceInterval
    ensures r.0.use1EuFilterFirst == DefaultUseOneEuFilterFirst
    ensures r.0.displayBrightness == DefaultDisplayBrightness
    // saved
    ensures r.1 == Save(r.0, nvs)
    ensures ByteFields(s) ==> ByteFields(r.0)
  {
    var t := Defaults().(initialState := s.initialState, monitoringMode := s.monitoringMode);
    (t, Save(t, nvs))
  }

  /** A factory reset forgets every choice but the two kept fields, so two
      settings that agree on those reset to the same thing, and a second
      reset changes nothing more. */
  lemma RestoreDefaultsForgets(s: Settings, s2: Settings, nvs: Nvs, nvs2: Nvs)
    ensures s.initialState == s2.initialState && s.monitoringMode == s2.monitoringMode ==>
      RestoreDefaults(s, nvs).0 == RestoreDefaults(s2, nvs2).0
    ensures RestoreDefaults(RestoreDefaults(s, nvs).0, nvs2).0 == RestoreDefaults(s, nvs).0
  {
  }

  /** After a factory reset and the reboot, loading gives the defaults with
      the old initial state (Booting read as Tuning) and monitoring mode. */
  lemma FactoryResetSurvivesReboot(s: Settings, nvs: Nvs)
    requires ByteFields(s)
    ensures var t := Load(RestoreDefaults(s, nvs).1);
      t.initialState == (if s.initialState == BootingCode then TuningCode else s.initialState) &&
      t.monitoringMode == s.monitoringMode &&
      t.standbyGuiIndex == DefaultStandbyGuiIndex &&
      t.tunerGuiIndex == DefaultTunerGuiIndex &&
      t.inTuneCentsWidth == DefaultInTuneCentsWidth &&
      t.noteNamePalette == PaletteNone &&
      t.displayOrientation == OrientationNormal &&
      t.use1EuFilterFirst == DefaultUseOneEuFilterFirst &&
      t.displayBrightness == DefaultDisplayBrightness &&
      t.noteDebounceInterval == DefaultNoteDebounceInterval &&
      t.expSmoothing == DefaultExpSmoothing
  {
    var t := RestoreDefaults(s, nvs).0;
    assert t == Defaults().(initialState := s.initialState, monitoringMode := s.monitoringMode);
    assert ByteFields(t);
    SaveLoadRoundTrip(t, nvs);
    assert Trunc(DefaultNoteDebounceInterval) == 115;
    assert Trunc(DefaultExpSmoothing * 100.0) == 9;
  }

  // ---------------------------------------------------------------------
  // Orientation and palette tables
  // ---------------------------------------------------------------------

  /** getDisplayOrientation: the panel is mounted upside down, so Normal is
      a 180 degree rotation; Left is 90, Right is 270, anything else 0. */
  function GetDisplayOrientation(o: int): (r: Lcd.Rotation)
    ensures o == OrientationNormal ==> r == Lcd.Rot180
    ensures o == OrientationLeft ==> r == Lcd.Rot90
    ensures o == OrientationRight ==> r == Lcd.Rot270
    ensures o !in {OrientationNormal, OrientationLeft, OrientationRight} ==> r == Lcd.Rot0
  {
    if o == OrientationNormal then Lcd.Rot180
    else if o == OrientationLeft then Lcd.Rot90
    else if o == OrientationRight then Lcd.Rot270
    else Lcd.Rot0
  }

  /** The four orientations map to four different rotations. */
  lemma OrientationsDistinct(o1: int, o2: int)
    requires 0 <= o1 < 4 && 0 <= o2 < 4 && o1 != o2
    ensures GetDisplayOrientation(o1) != GetDisplayOrientation(o2)
  {
  }

  /** What rotateScreenTo leaves behind: settings, storage, the display's
      rotation, and whether it saved. */
  datatype RotateResult = RotateResult(settings: Settings, nvs: Nvs, rotation: Lcd.Rotation, saved: bool)

  /** rotateScreenTo: picks the rotation for the orientation with its own
      switch and, only if the display is not already at it, rotates, stores
      the orientation and saves. */
  function RotateScreenTo(s: Settings, nvs: Nvs, current: Lcd.Rotation, o: int): (r: RotateResult)
    ensures r.rotation == GetDisplayOrientation(o)
    ensures r.saved <==> current != GetDisplayOrientation(o)
    ensures r.saved ==> r.settings == s.(displayOrientation := o) && r.nvs == Save(r.settings, nvs)
    ensures !r.saved ==> r.settings == s && r.nvs == nvs
  {
    var target := match o
      case 0 => Lcd.Rot180
      case 1 => Lcd.Rot90
      case 2 => Lcd.Rot270
      case _ => Lcd.Rot0;
    if current != target then
      var shown := Lcd.Rotate(true, current, target);
      var t := s.(displayOrientation := o);
      RotateResult(t, Save(t, nvs), shown.rotation, true)
    else
      RotateResult(s, nvs, current, false)
  }

  /** Rotating to the same orientation a second time saves nothing. */
  lemma RotateTwiceSavesOnce(s: Settings, nvs: Nvs, current: Lcd.Rotation, o: int)
    ensures var r := RotateScreenTo(s, nvs, current, o);
      !RotateScreenTo(r.settings, r.nvs, r.rotation, o).saved
  {
  }

  /** paletteForSettingIndex: the radio-list index of a note colour. */
  function PaletteForSettingIndex(i: int): (p: int)
    ensures !(0 <= i < 8) ==> p == PaletteNone
  {
    if i == 0 then PaletteNone
    else if i == 1 then Red
    else if i == 2 then Pink
    else if i == 3 then Purple
    else if i == 4 then LightBlue
    else if i == 5 then LightGreen
    else if i == 6 then Orange
    else if i == 7 then Yellow
    else PaletteNone
  }

  /** settingIndexForPalette: the inverse table; unlisted palettes give 0. */
  function SettingIndexForPalette(p: int): (i: int)
    ensures 0 <= i < 8
  {
    if p == PaletteNone then 0
    else if p == Red then 1
    else if p == Pink then 2
    else if p == Purple then 3
    else if p == LightBlue then 4
    else if p == LightGreen then 5
    else if p == Orange then 6
    else if p == Yellow then 7
    else 0
  }

  /** The eight palettes the settings offer. */
  predicate ListedPalette(p: int) {
    p in {PaletteNone, Red, Pink, Purple, LightBlue, LightGreen, Orange, Yellow}
  }

  /** The two tables are inverse on the eight listed palettes and on the
      indices 0 to 7; any other palette reads as index 0 (White). */
  lemma PaletteTablesInverse(p: int, i: int)
    ensures ListedPalette(p) ==> PaletteForSettingIndex(SettingIndexForPalette(p)) == p
    ensures 0 <= i < 8 ==> SettingIndexForPalette(PaletteForSettingIndex(i)) == i
    ensures 0 <= i < 8 ==> ListedPalette(PaletteForSettingIndex(i))
    ensures !ListedPalette(p) ==> SettingIndexForPalette(p) == 0
  {
  }
}
