# q-tune chromatic tuner: a Dafny model of the firmware core

q-tune is firmware for an ESP32 guitar pedal tuner. A pitch-detector task reads
the ADC one frame at a time. Quiet frames are gated out and the rest are
normalised to [-1, 1]. The detected frequency then passes through a One Euro
filter, an exponential smoother and a median filter, and lands in a one-slot
frequency queue. A GUI task turns the frequency into a note and a cents offset
and, while its own copy of the tuner state says Tuning (or Standby with
monitoring on), feeds the active tuning display: needle, strobe, attitude or note quiz
(the record-time display exists in the sources but is not in the display
table, so the settings cannot select it). Nothing in these sources updates
that copy after a state change; the Findings record it. A GPIO task classifies footswitch presses and drives the mute relay.
A small controller holds the tuner state (Booting, Standby, Tuning, Settings)
and calls back on every change. The user settings live in NVS and are edited
through a stack of menu screens navigated with the footswitch. Drivers for the
TCA9554 I/O expander, the CST328 touch panel, touch calibration and the
backlights sit underneath.

The model is functional throughout:
- Every piece of state is an immutable datatype, and every operation is a pure
  function from the old state (plus its inputs) to the new one.
- LVGL effects are recorded as fields: what is hidden or shown, which glyph is
  drawn, which colour is set, which offset is applied.
- Time, random numbers and hardware reads are inputs.
- C arithmetic is written out: truncating casts (`CMath.Trunc`), truncating
  division and remainder (`CDiv`, `CRem`), unsigned wrap-around (`U8`, `U16`,
  `U32`).

One module per source file:

| module | models |
|---|---|
| `MedianFilter` | main/utils/MedianFilter.hpp |
| `Smoother` | main/utils/exponential_smoother.hpp |
| `PitchFrame` | the frame loop of main/pitch_detector_task.cpp |
| `TunerControl` | main/tuner_controller.cpp |
| `TunerMain` | the callbacks in main/main.cpp |
| `Footswitch` | main/gpio_task.cpp |
| `UserSettings` | the persistence half of main/user_settings.cpp |
| `SettingsMenu` | the screen stack and handlers of main/user_settings.cpp |
| `GuiTask` | main/tuner_gui_task.cpp |
| `NeedleUi`, `StrobeUi`, `AttitudeUi`, `RecordTimeUi`, `NoteQuiz` | the five tuning displays |
| `Tca9554` | main/hardware/TCA9554PWR.c |
| `Cst328` | main/waveshare/CST328.c |
| `Touch` | main/utils/touch.c |
| `Lcd` | main/utils/lcd.c |
| `St7789` | main/waveshare/ST7789.c |

Shared modules:
- `Defines` holds the constants of main/defines.h.
- `Notes` holds the note indices and the note-name glyph switch that every
  display repeats.
- `Palette` holds the LVGL palette numbers.
- `CMath` holds the C arithmetic.
- `Wrappers` holds `Option`.

The `TunerNoteName` enum is not part of the sources. As the code implies, notes
are ints 0..11 (C .. B) with `NOTE_NONE` = 12. Negative values reach the
displays, and each display guards against them.

## Model

| member | source | states |
|---|---|---|
| CMath.Trunc | main/tuner_gui_task.cpp:396-397 | a C float-to-int conversion rounds toward zero: the result is the integer at most 1 away from x on the side of zero |
| CMath.CDiv | main/utils/touch.c:134 | C integer division truncates toward zero: the quotient's size is the floor of abs(a) / abs(b) and its sign is the product of the operands' signs, so it is fixed for every operand; for non-negative operands it is Euclidean division |
| CMath.QuotientTimesDivisor | main/utils/touch.c:134 | the truncating quotient times the divisor is abs(a) rounded down to a multiple of abs(b), carrying the sign of a |
| CMath.CRem | main/tuner_gui_task.cpp:396 | the C remainder rebuilds the dividend with the truncating quotient (a == CDiv(a, b) * b + r), is smaller than the divisor in magnitude and takes the sign of the dividend |
| CMath.U8 | main/user_settings.cpp:326 | a conversion to uint8_t keeps the low 8 bits: the result is the value in [0, 256) that differs from x by a multiple of 256, so in-range values are kept |
| CMath.U16 | main/utils/touch.c:134 | a conversion to uint16_t is the value in [0, 65536) that differs from x by a multiple of 65536 |
| CMath.U32 | main/user_settings.cpp:329 | a conversion to uint32_t is the value in [0, 2^32) that differs from x by a multiple of 2^32 |
| Notes.SpellingOf | main/tuning-ui/tuner_ui_needle.cpp:325-362 | a note index has a glyph-and-sharp spelling iff it is 0..11, and the spelling names that same pitch with a letter that may carry a sharp |
| Notes.SpellingRoundTrip | main/tuning-ui/tuner_ui_needle.cpp:325-356 | every drawable spelling comes from exactly one note index: spelling its pitch gives it back |
| Notes.SharpIffBlackKey | main/tuning-ui/tuner_ui_needle.cpp:326-353 | the sharp sign is shown exactly for C#, D#, F#, G# and A# (indices 1, 3, 6, 8, 10) |
| Notes.NameUpdateFor | main/tuning-ui/tuner_ui_needle.cpp:325-376 | a note 0..11 is drawn with its spelling, NONE starts the fade, and anything else is ignored |
| Palette.NoteColour | main/tuning-ui/tuner_ui_needle.cpp:288-295 | the note colour is white iff no palette is chosen, and the palette's main shade otherwise |
| MedianFilter.WindowSizeFor | main/utils/MedianFilter.hpp:18-26 | the stored window size is odd and within [3, 21]; an odd in-range request is kept, an even one is bumped by one, and out-of-range requests clamp to the nearer bound |
| MedianFilter.SetWindowSize | main/utils/MedianFilter.hpp:18-26 | setWindowSize changes only the size and middle index, keeps middleIndex == windowSize / 2, and keeps a sorted buffer well formed |
| MedianFilter.New | main/utils/MedianFilter.hpp:12-14 | a new filter has an empty buffer, the "not ready" value -1 and the requested mode |
| MedianFilter.UpperBound | main/utils/MedianFilter.hpp:33 | the split point of a sorted buffer: everything before it is at most v and everything from it on is greater |
| MedianFilter.UpperBoundSearch | main/utils/MedianFilter.hpp:33 | std::upper_bound's binary search finds that same split point |
| MedianFilter.Insert | main/utils/MedianFilter.hpp:33-34 | the insertion keeps the buffer sorted, adds exactly v to its contents as a multiset, and places v after every equal element |
| MedianFilter.MovingAdd | main/utils/MedianFilter.hpp:36-51 | in moving mode the value joins the buffer; a full buffer loses one smallest element, not the oldest; the answer is the middle element of the buffer and is cached |
| MedianFilter.BatchAdd | main/utils/MedianFilter.hpp:52-62 | in batch mode the answer is -1 until the window fills; the value that fills it returns the middle of the sorted window and empties the buffer |
| MedianFilter.AddValue | main/utils/MedianFilter.hpp:31-63 | addValue keeps the filter well formed, never lets the buffer outgrow the window, and keeps the size and mode |
| MedianFilter.Reset | main/utils/MedianFilter.hpp:66-69 | reset empties the buffer, sets the cached value to -1 and keeps the window |
| MedianFilter.Feed | main/utils/MedianFilter.hpp:31-63 | feeding values one by one keeps the filter well formed and gives one answer per value |
| MedianFilter.SortedUnique | main/utils/MedianFilter.hpp:33-34 | two sorted arrangements of the same values are equal, so "the middle of the sorted window" is well defined |
| MedianFilter.MiddleIsUnique | main/utils/MedianFilter.hpp:57 | the batch answer is the middle of any sorted arrangement of the window |
| MedianFilter.BatchFilling | main/utils/MedianFilter.hpp:52-60 | while a batch window fills, the buffer holds exactly the values fed so far |
| MedianFilter.BatchFillingSilent | main/utils/MedianFilter.hpp:52-62 | while a batch window fills, every answer is -1 |
| MedianFilter.BatchCompletes | main/utils/MedianFilter.hpp:52-60 | the value that fills a batch window returns the middle of any sorted arrangement of the window and empties the buffer |
| MedianFilter.BatchWindow | main/utils/MedianFilter.hpp:52-62 | a whole window fed to an empty batch filter answers -1 windowSize-1 times, then the median of the window, and leaves the buffer empty |
| MedianFilter.FeedSplit | main/utils/MedianFilter.hpp:31-63 | feeding a sequence and then one more value is the same as feeding the longer sequence |
| MedianFilter.MovingBufferFills | main/utils/MedianFilter.hpp:36-51 | in moving mode the buffer grows by one per value up to windowSize and then stays at windowSize |
| MedianFilter.ResetRestartsWindow | main/utils/MedianFilter.hpp:66-69 | after reset a batch filter needs a whole window again before it answers |
| Smoother.StoredAlphaAsWritten | main/utils/exponential_smoother.hpp:10-11 | as written the stored alpha is max(alpha, 0): the upper clamp is overwritten, so an alpha above 1 is kept |
| Smoother.ClampAlpha | main/utils/exponential_smoother.hpp:10-11 | the evidently intended clamp keeps alpha within [0, 1] and leaves in-range values alone |
| Smoother.NewAsWritten | main/utils/exponential_smoother.hpp:9-12 | the constructor as written stores the max(alpha, 0) value and starts uninitialised at 0 |
| Smoother.New | main/utils/exponential_smoother.hpp:9-12 | the corrected constructor stores an alpha within [0, 1] and starts uninitialised |
| Smoother.SetAlpha | main/utils/exponential_smoother.hpp:24-27 | setAlpha with the intended clamp stores exactly the clamped alpha, within [0, 1], and leaves the value and the initialised flag alone |
| Smoother.SetAlphaAsWritten | main/utils/exponential_smoother.hpp:24-27 | as written setAlpha has the constructor's overwritten clamp: the stored alpha is never negative and any non-negative alpha, above 1 included, is kept; the value and the initialised flag are untouched |
| Smoother.SetAlphaAgreesWithConstructor | main/utils/exponential_smoother.hpp:9-27 | setAlpha on a fresh smoother gives the smoother constructed with the new alpha, and of two setAlpha calls the later wins, both as written and corrected |
| Smoother.Smooth | main/utils/exponential_smoother.hpp:14-22 | the first call passes its input through; later calls move the value by alpha times the gap to the input, which for alpha in [0, 1] stays between the old value and the input |
| Smoother.Reset | main/utils/exponential_smoother.hpp:29-32 | reset makes the smoother uninitialised and keeps alpha |
| Smoother.ResetPassesThrough | main/utils/exponential_smoother.hpp:15-18 | the first value after reset comes out unchanged |
| Smoother.SmoothAll | main/utils/exponential_smoother.hpp:14-22 | smoothing a sequence keeps alpha and initialises the smoother iff the sequence is non-empty |
| Smoother.ConstantInputConverges | main/utils/exponential_smoother.hpp:19-20 | under a constant input the distance to it shrinks by (1 - alpha) per step |
| Smoother.OutputWithinInputs | main/utils/exponential_smoother.hpp:19 | for alpha in [0, 1] the output never leaves the range of the inputs and the starting value |
| Smoother.AlphaAboveOneOvershoots | main/utils/exponential_smoother.hpp:10-11 | as written, alpha 2 is kept, and smoothing 0 then 1 gives 2, outside the inputs |
| Smoother.ClampedAlphaStaysWithin | main/utils/exponential_smoother.hpp:10-11 | with the clamp, the same inputs give 1 |
| PitchFrame.ScanFrame | main/pitch_detector_task.cpp:242-269 | one sample is stored per result-size step of the bytes read; maxVal (starting at 0) and minVal (starting at MAXFLOAT) bound every sample and are each a sample unless no sample moved them |
| PitchFrame.NormaliseBounds | main/pitch_detector_task.cpp:292-297 | the normalisation maps min to -1 and max to 1, and a value lands in [-1, 1] iff it lies in [min, max] |
| PitchFrame.FrameNormalised | main/pitch_detector_task.cpp:292-297 | in a loud frame every sample normalises into [-1, 1] |
| PitchFrame.Start | main/pitch_detector_task.cpp:78-82 | the detector task starts with a batch median filter of window 5 and a smoother at the default alpha |
| PitchFrame.Restart | main/pitch_detector_task.cpp:277-282 | a quiet frame resets the One Euro filter, the smoother, the median filter and the pitch detector, and nothing else |
| PitchFrame.Seconds | main/pitch_detector_task.cpp:335 | the 1EU time stamp is the microsecond clock divided by 10^6 |
| PitchFrame.ProcessSample | main/pitch_detector_task.cpp:296-372 | every sample passes the conditioner and the detector; without a pitch the frequency filters are untouched and nothing is published; with one, the One Euro output is smoothed, the smoothed value enters the median filter, and the filter's answer is published unless it is -1 |
| PitchFrame.ProcessSamples | main/pitch_detector_task.cpp:294-374 | the samples of a frame publish at most one value each and never -1, keep the median filter well formed with its size and mode, and leave its cache holding the last value published (or -1 after a clear) |
| PitchFrame.ProcessFrame | main/pitch_detector_task.cpp:272-374 | a quiet frame publishes exactly -1 and restarts the pipeline; a loud frame never publishes -1 and sets the smoother alpha from the stored smoothing amount through setAlpha's clamp as written |
| PitchFrame.SmootherAlphaKept | main/pitch_detector_task.cpp:288-289 | alpha changes only once per frame, never while its samples are processed |
| PitchFrame.FilterOrderSettingIgnored | main/pitch_detector_task.cpp:344-357 | the stored filter-order setting has no effect: the hard-coded true is always used |
| PitchFrame.FixFactorIsIdentity | main/pitch_detector_task.cpp:361 | dividing by the frequency fix factor leaves the frequency unchanged |
| PitchFrame.QueueLastWriteWins | main/pitch_detector_task.cpp:364-366 | writes to the one-slot queue compose: two batches of writes leave what both together leave, the last write wins over anything written before, and a queue that changed holds one of the values written |
| PitchFrame.LoudFrameNeverClearsQueue | main/pitch_detector_task.cpp:364-366 | after a loud frame the queue holds -1 only if it already did |
| PitchFrame.TaskStep | main/pitch_detector_task.cpp:228-393 | without settings or a successful read nothing changes; a quiet frame leaves -1 in the queue |
| TunerControl.StateCode | main/tuner_controller.h:25-30 | the TunerState enum values are 0..3, with Booting 0 |
| TunerControl.StateOfCode | main/tuner_controller.h:25-30 | a byte names a state iff it is 0..3, and decoding is inverse to encoding |
| TunerControl.StateCodeRoundTrip | main/tuner_controller.h:25-30 | every state survives being stored as its byte |
| TunerControl.GetState | main/tuner_controller.cpp:38-44 | getState returns the stored state, or Standby when nothing can be peeked |
| TunerControl.New | main/tuner_controller.cpp:26-36 | a new controller reports Booting |
| TunerControl.SetState | main/tuner_controller.cpp:46-56 | setState stores the new state and calls will-change, then did-change, both with the same (old, new) pair |
| TunerControl.FootswitchPressed | main/tuner_controller.cpp:58-60 | a press is forwarded unchanged |
| TunerControl.SetThenGet | main/tuner_controller.cpp:52 | after setState(s), getState() is s |
| TunerControl.NoDeduplication | main/tuner_controller.cpp:46-56 | setting the current state again still fires both callbacks |
| TunerMain.DidChangeAction | main/main.cpp:77-94 | the detector is suspended iff the new state is Settings, or Standby with monitoring off; it is resumed iff the new state is Tuning |
| TunerMain.DetectorAfterSetState | main/main.cpp:77-94 | after setState the detector runs in Tuning, is stopped in Settings and in unmonitored Standby, and is left alone otherwise |
| TunerMain.FootswitchAction | main/main.cpp:96-112 | presses are ignored in Standby and Booting, only a long press acts in Tuning (it enters Settings), and in Settings every press is forwarded |
| TunerMain.HandlePress | main/main.cpp:96-112 | in Standby and Booting a press changes nothing; in Tuning only a long press acts, entering Settings with both callbacks; in Settings the press is exactly the settings screens' own footswitch handling |
| TunerMain.TuningLongPressSuspendsDetector | main/main.cpp:77-103 | a long press in Tuning moves the controller to Settings, and the did-change callback suspends the detector |
| TunerMain.TopMenuLongPressReturnsToTuning | main/main.cpp:96-112 | in Settings with only the top menu open, a long press keeps the session, returns to Tuning with both callbacks, and the detector runs again |
| TunerMain.SubMenuLongPressStaysInSettings | main/main.cpp:96-112 | in Settings below the top menu, a long press is the Back button: the controller stays in Settings and the detector stays as it was |
| Footswitch.Initial | main/gpio_task.cpp:38-44 | the switch starts open (level 1) with no press counted, no long press and no timer |
| Footswitch.SinglePressCallback | main/gpio_task.cpp:222-226 | the single-press callback emits one single press and zeroes the count |
| Footswitch.HandleButtonPress | main/gpio_task.cpp:105-160 | a falling edge counts presses within the double-press time; a held press emits one long press once; a release emits a double press on count 2 or a short single press; the last level always becomes the reading |
| Footswitch.TimerExpired | main/gpio_task.cpp:222-241 | a pending single-press timer fires one single press; with no timer nothing happens |
| Footswitch.HeldAfterLongIsQuiet | main/gpio_task.cpp:128-138 | once the long press has fired, holding the switch emits nothing more |
| Footswitch.OneLongPressPerHold | main/gpio_task.cpp:124-134 | one hold emits at most one press, and it is a long press |
| Footswitch.NoDoublePressOutsideSettings | main/gpio_task.cpp:141-152 | outside Settings a single press is emitted on release, so a clean sequence of edges never builds up a double press |
| Footswitch.EnsureRelayState | main/gpio_task.cpp:167-176 | the relay is driven to 0 in Standby and 1 in Tuning, is kept otherwise, and is written only when its level changes |
| Footswitch.EnsureRelayIdempotent | main/gpio_task.cpp:167-176 | a second call writes nothing |
| Footswitch.HandleSinglePress | main/gpio_task.cpp:179-208 | a single press turns the relay on and enters Tuning from Standby, turns it off and enters Standby from Tuning, is forwarded in Settings and ignored in Booting |
| Footswitch.SinglePressToggles | main/gpio_task.cpp:182-201 | two single presses bring Standby or Tuning back to where it started, relay included |
| Lcd.ClampPercent | main/utils/lcd.c:62-67 | the brightness percent is clamped to [0, 100] |
| Lcd.DutyAsWritten | main/utils/lcd.c:71 | as written the duty is 81 times the clamped percent, up to 8100 |
| Lcd.DutyAsWrittenExceedsTimer | main/utils/lcd.c:71 | from 13 % up, the duty as written exceeds 1023, the maximum of the timer that line 48 configures for 10 bits |
| Lcd.Duty | main/utils/lcd.c:71 | the corrected duty fits the 10-bit timer, is 0 iff the percent is 0, and is full iff it is 100 |
| Lcd.DutyStrictlyIncreasing | main/utils/lcd.c:71 | a brighter percent gives a strictly larger corrected duty |
| Lcd.BrightnessSet | main/utils/lcd.c:60-77 | as written, setting the brightness succeeds and writes a duty within [0, 8100]: dark at or below 0 %, 8100 at or above 100 %, and above the 10-bit timer's 1023 from 13 % up |
| Lcd.BrightnessSetCorrected | main/utils/lcd.c:60-77 | with the duty scaled to the timer, the duty lies within [0, 1023], dark at or below 0 % and full at or above 100 % |
| Lcd.BrightnessMonotone | main/utils/lcd.c:60-77 | a larger percent never gives a dimmer backlight, as written and corrected |
| Lcd.BacklightOff | main/utils/lcd.c:79-82 | backlight off is brightness 0, with duty 0 |
| Lcd.BacklightOn | main/utils/lcd.c:84-87 | backlight on is brightness 100, which as written writes the duty 8100, beyond the 10-bit timer's maximum |
| Lcd.Rotate | main/utils/lcd.c:89-98 | rotation fails iff there is no display, and then the rotation is unchanged |
| UserSettings.Defaults | main/defines.h:62-74 | the defaults fit their byte fields and start in Tuning |
| UserSettings.KeysFitNvs | main/user_settings.cpp:68-80 | every settings key fits NVS's 15-character limit |
| UserSettings.GetU8 | main/user_settings.cpp:163 | a u8 read succeeds iff the key holds a u8 entry, and yields its value |
| UserSettings.GetU32 | main/user_settings.cpp:221 | a u32 read succeeds iff the key holds a u32 entry, and yields its value |
| UserSettings.LoadU8 | main/user_settings.cpp:173-177 | a byte field loads the stored value when present and the default otherwise |
| UserSettings.LoadInitialState | main/user_settings.cpp:163-170 | a missing key or a stored Booting gives Tuning, any other stored value is kept, and the result is never Booting |
| UserSettings.Load | main/user_settings.cpp:155-251 | loading never yields Booting as initial state and, from a well-typed store, fills every byte field with a byte |
| UserSettings.LoadEmptyGivesDefaults | main/user_settings.cpp:155-251 | loading from an empty namespace gives exactly the defaults |
| UserSettings.FloatToU8 | main/user_settings.cpp:326-332 | the float-to-uint8_t cast gives a byte, and truncates in-range values |
| UserSettings.FloatToU32 | main/user_settings.cpp:329 | the float-to-uint32_t cast gives a 32-bit value, and truncates in-range values toward zero |
| UserSettings.SaveEntries | main/user_settings.cpp:298-343 | saveSettings writes exactly the twelve settings keys, each holding a well-typed value when the fields are bytes |
| UserSettings.Save | main/user_settings.cpp:293-350 | saving writes every settings key, keeps every other key, adds nothing else, and keeps the store well typed |
| UserSettings.SaveLoadRoundTrip | main/user_settings.cpp:293-350 | loading (lines 155-251) what was saved gives back every byte field and the filter flag (Booting reads back as Tuning), and the byte-encoded floats truncated to their resolution |
| UserSettings.RestoreDefaults | main/user_settings.cpp:352-365 | a factory reset sets the ten listed fields to their defaults, keeps the initial state and monitoring mode, and saves |
| UserSettings.RestoreDefaultsForgets | main/user_settings.cpp:352-365 | the reset forgets everything but the initial state and monitoring mode: two settings that agree on those reset to the same settings, and a second reset changes nothing |
| UserSettings.FactoryResetSurvivesReboot | main/user_settings.cpp:352-368 | after the reset and reboot, loading gives the defaults together with the old initial state and monitoring mode |
| UserSettings.GetDisplayOrientation | main/user_settings.cpp:371-382 | Normal is a 180 degree rotation, Left 90, Right 270, anything else 0 |
| UserSettings.OrientationsDistinct | main/user_settings.cpp:371-382 | the four orientations give four different rotations |
| UserSettings.RotateScreenTo | main/user_settings.cpp:827-862 | the rotation follows the orientation table, and the orientation is stored and saved iff the rotation changes |
| UserSettings.RotateTwiceSavesOnce | main/user_settings.cpp:853-859 | rotating to the same orientation again saves nothing |
| UserSettings.PaletteForSettingIndex | main/user_settings.cpp:1163-1184 | indices outside 0..7 give no palette |
| UserSettings.SettingIndexForPalette | main/user_settings.cpp:1186-1207 | every palette gets an index 0..7 |
| UserSettings.PaletteTablesInverse | main/user_settings.cpp:1163-1207 | the two tables invert each other on the 8 listed palettes and indices 0..7, and an unlisted palette maps to index 0 |
| SettingsMenu.SetDisplayAndScreen | main/user_settings.cpp:384-387 | the main screen is pushed, and on an empty stack that gives a well-formed stack |
| SettingsMenu.FocusOwner | main/user_settings.cpp:553-557 | the screen owning LVGL's default group is the topmost menu or radio list, and none exists iff no screen has a group |
| SettingsMenu.PushKeepsWellFormed | main/user_settings.cpp:508-534 | pushing a screen keeps the stack well formed when an Exit button appears iff the stack held one screen |
| SettingsMenu.CreateMenu | main/user_settings.cpp:445-537 | a menu pushes exactly one screen on top of the others, with an Exit button iff the stack held one screen, a group of its entries plus one button, and the focus on its first entry |
| SettingsMenu.CreateSlider | main/user_settings.cpp:562-614 | a slider pushes exactly one screen |
| SettingsMenu.CreateSpinbox | main/user_settings.cpp:755-809 | a spinbox pushes one screen without a group of its own: its four widgets join the Debug menu's group, which keeps its focus, and no other screen changes |
| SettingsMenu.RadioCheckedIndex | main/user_settings.cpp:628-635 | the checked index is 0 for a value of 0 or above the item count, and value minus offset otherwise |
| SettingsMenu.CreateRadioList | main/user_settings.cpp:616-703 | a radio list pushes exactly one screen with its own focused group, checked at the item the stored value names |
| SettingsMenu.RadioValue | main/user_settings.cpp:616-703 | each radio list reads the byte of the field its handler writes, and the note-colour list the index of the stored palette |
| SettingsMenu.RemoveCurrentMenu | main/user_settings.cpp:539-560 | removing the current menu pops exactly one screen, takes a spinbox's widgets back out of the group they joined, keeps the stack well formed and never touches the bottom two screens |
| SettingsMenu.ReleaseSpinbox | main/user_settings.cpp:539-560 | deleting a spinbox's four widgets takes them out of the group they joined; a focus on one of them moves back to the last object left, and any other focus is kept |
| SettingsMenu.ExitSettings | main/user_settings.cpp:811-825 | leaving the settings pops down to the single base screen |
| SettingsMenu.TunerModeSelected | main/user_settings.cpp:916-943 | a container click changes nothing; an item click stores its index as the tuner display |
| SettingsMenu.ThresholdSelected | main/user_settings.cpp:991-1016 | a container click changes nothing; an item click stores index + 1 as the in-tune width |
| SettingsMenu.MonitoringSelected | main/user_settings.cpp:1018-1040 | a container click changes nothing; an item click stores its index as the monitoring mode |
| SettingsMenu.BrightnessSelected | main/user_settings.cpp:1095-1124 | a container click changes nothing; an item click sets index*10+10 percent and stores the index |
| SettingsMenu.NoteColorSelected | main/user_settings.cpp:1209-1237 | a container click changes nothing; an item click stores that index's palette |
| SettingsMenu.InitialStateSelected | main/user_settings.cpp:1261-1287 | a container click changes nothing; an item click stores index + 1, so item 0 is Standby and item 1 Tuning |
| SettingsMenu.RotationSelected | main/user_settings.cpp:1313-1343 | a container click changes nothing; an item click rotates to that orientation |
| SettingsMenu.ReopenShowsSelection | main/user_settings.cpp:616-703 | reopening any radio list after selecting item i shows item i checked |
| SettingsMenu.Selected | main/user_settings.cpp:916-1343 | a container click changes nothing; only the rotation handler touches the store and the rotation, only the brightness handler the backlight; an item click stores a value the same list, opened again, shows checked |
| SettingsMenu.LockDepthAfterAsWritten | main/user_settings.cpp:991-1016 | as written, a container click returns with the display lock held once more; the same early return sits at lines 1031, 1110, 1227, 1278 and 1332, and only the tuner-mode handler unlocks first |
| SettingsMenu.ContainerClickKeepsLock | main/user_settings.cpp:991-1007 | one container click in the threshold list leaves the lock held once |
| SettingsMenu.HandlerLocksAsWritten | main/user_settings.cpp:916-1343 | each handler run as written starts by taking the lock, and ends with it given back iff the click is on an item or the handler is the tuner-mode one |
| SettingsMenu.LockLeaksPerContainerClick | main/user_settings.cpp:991-1343 | as written, a sequence of radio clicks leaves the lock held once more for every container click outside the tuner-mode list |
| SettingsMenu.HandlerLocks | main/user_settings.cpp:918-930 | a corrected handler starts by taking the lock and always gives it back, doing as written on item clicks |
| SettingsMenu.LockDepthAppend | main/user_settings.cpp:916-1343 | lock operations run one after the other add up: the depth after a list of them is the starting depth plus a fixed change, and two lists compose |
| SettingsMenu.LockDepthAfter | main/user_settings.cpp:918-930 | a corrected handler returns with the lock held as often as before, and agrees with the handler as written on every item click |
| SettingsMenu.LockBalanced | main/user_settings.cpp:918-930 | any sequence of corrected radio clicks, run one handler after the other, leaves the lock depth where it was |
| SettingsMenu.BackClicked | main/user_settings.cpp:1502-1512 | Back pops one screen (just the top one unless it is a spinbox), keeps the settings, and stores them so that loading gives back every field the menus edit |
| SettingsMenu.ExitClicked | main/user_settings.cpp:864-867 | Exit switches the tuner to Tuning with both callbacks, keeping stack and store |
| SettingsMenu.SaveKeepsMenuFields | main/user_settings.cpp:293-350 | saving and loading back gives every field the menus edit its value |
| SettingsMenu.TopEntry | main/user_settings.cpp:397-409 | the top menu's entries open Tuner, Display, Debug and About, never the top menu again |
| SettingsMenu.EntryClicked | main/user_settings.cpp:869-1437 | an entry click leaves controller and settings alone: the top, Tuner and Display entries push one screen over the stack, the Debug entries push the spinbox, the About version entry acts as Back, and Factory Reset opens its message box on Cancel |
| SettingsMenu.ItemClicked | main/user_settings.cpp:916-1343 | an item click checks that item on its list, changes no other screen, and runs the list's handler |
| SettingsMenu.FocusedTarget | main/user_settings.cpp:262-279 | the focused object of a group: a menu entry below the entry count, then Exit on the top menu or Back, then spinbox widgets; items then Back on a radio list; Cancel or Reset exactly while the message box is open |
| SettingsMenu.FocusNext | main/user_settings.cpp:253-260 | moving to the next object keeps the screen's kind and group size and steps the focus by one, wrapping after the last |
| SettingsMenu.AdvanceFocus | main/user_settings.cpp:253-260 | advanceToNextButton moves only the default group's owner to its next object, keeps settings, store and rotation, and does nothing without a default group |
| SettingsMenu.AdvanceFocusKeepsWellFormed | main/user_settings.cpp:253-260 | moving the focus keeps the stack well formed |
| SettingsMenu.PressFocused | main/user_settings.cpp:262-279 | pressFocusedButton sends the click to the focused object of the default group, does nothing without one, and keeps the stack well formed |
| SettingsMenu.FootswitchPressed | main/user_settings.cpp:1514-1537 | a single press moves the default group's focus, a double press clicks the focused object, and a long press is Back with more than two screens and Exit otherwise; every press keeps the stack well formed |
| SettingsMenu.PressEffects | main/user_settings.cpp:1514-1537 | a press leaves the controller alone or sends it to Tuning, and only a double press on Reset restarts, with the defaults saved |
| SettingsMenu.DoublePressKeepsWellFormed | main/user_settings.cpp:262-279 | every click a double press can send keeps the stack well formed |
| SettingsMenu.SinglePressesAdvance | main/user_settings.cpp:1516-1519 | n single presses move the default group's focus on n places, wrapping, and change nothing else |
| SettingsMenu.SinglePressesCycle | main/user_settings.cpp:1516-1519 | as many single presses as the group has objects bring the focus back where it started |
| SettingsMenu.DoublePressOnExit | main/user_settings.cpp:1520-1523 | a double press on the top menu's Exit button is a click on it and returns to Tuning |
| SettingsMenu.DoublePressOnBack | main/user_settings.cpp:1520-1523 | a double press on any Back button saves and pops the top screen, as the button does |
| SettingsMenu.DoublePressOnEntry | main/user_settings.cpp:1520-1523 | a double press on a menu entry is a click on that entry |
| SettingsMenu.DoublePressSelectsItem | main/user_settings.cpp:1520-1523 | a double press on a radio item checks it and stores a value that the same list, opened again, shows checked |
| SettingsMenu.DoublePressOnReset | main/user_settings.cpp:1439-1455 | a double press on the message box's Reset button restores and saves the defaults and restarts |
| SettingsMenu.OpenResetBox | main/user_settings.cpp:1457-1500 | a double press on Factory Reset opens the message box over the About menu with Cancel focused, leaving all else alone |
| SettingsMenu.FactoryResetCancelRestores | main/user_settings.cpp:1475-1489 | opening the factory-reset box and pressing its focused Cancel gives back the session exactly as it was |
| SettingsMenu.FactoryResetConfirmed | main/user_settings.cpp:1439-1500 | opening the box, moving to Reset and pressing it restores the defaults, saves them and restarts |
| SettingsMenu.SpinboxThenBack | main/user_settings.cpp:539-809 | opening the spinbox from the Debug menu and removing it gives back the stack, the Debug menu's focus and group included |
| SettingsMenu.EntryThenBack | main/user_settings.cpp:445-809 | opening any sub-screen from an entry other than About's and removing it gives back the stack it was opened from, with settings and store untouched |
| SettingsMenu.OpenThenLongPressRestores | main/user_settings.cpp:1514-1537 | opening a submenu, radio list or spinbox with a double press and leaving it with a long press restores the screen stack, focus included, and leaves the settings saved |
| SettingsMenu.LongPressesClimbToTopMenu | main/user_settings.cpp:1526-1534 | from any well-formed stack of n screens, n - 2 long presses leave the top menu over the main screen with the controller and settings unchanged, and one more returns to Tuning |
| SettingsMenu.LongPressAtTop | main/user_settings.cpp:1531-1534 | at the top menu one long press returns to Tuning and keeps the session |
| SettingsMenu.LongPressBelowTop | main/user_settings.cpp:1526-1530 | a long press below the top menu pops one screen, keeps the bottom two and the settings, and leaves the controller alone |
| SettingsMenu.ClimbAfterBack | main/user_settings.cpp:1526-1534 | if the climb works from the screen Back leaves, it works from here |
| GuiTask.NearestNote | main/tuner_gui_task.cpp:394-413 | the reference fold: the nearest note class 0..11 with cents in [-50, 50) |
| GuiTask.FMod12 | main/tuner_gui_task.cpp:396 | fmod(m, 12) takes the sign of m, is smaller than 12 in magnitude, and differs from m by a truncated multiple of 12 |
| GuiTask.NoteIndexIsTruncRemainder | main/tuner_gui_task.cpp:396 | (int)fmod(m, 12) equals the C remainder of (int)m by 12 |
| GuiTask.RoundUp | main/tuner_gui_task.cpp:399-407 | cents of 50 or more move to the next note, wrapping 11 to 0, and lose 100 cents |
| GuiTask.Safeguard | main/tuner_gui_task.cpp:409-411 | an index above 12 becomes 0, and any other index is kept |
| GuiTask.FoldAsWritten | main/tuner_gui_task.cpp:394-413 | for a MIDI number of at least 0 the function as written gives a note 0..11 and cents in [-50, 50) |
| GuiTask.NearestAgreesForNonNegative | main/tuner_gui_task.cpp:394-407 | for m at least 0 the rounding steps reach the nearest note |
| GuiTask.FoldAsWrittenIsNearest | main/tuner_gui_task.cpp:394-413 | for m at least 0 the function is the nearest-note fold, and the safeguard is unreachable |
| GuiTask.NegativeMidiMisfolds | main/tuner_gui_task.cpp:396-397 | for MIDI -3.7 the function as written gives note -3 and -70 cents instead of G# at +30 |
| GuiTask.Fold | main/tuner_gui_task.cpp:394-413 | the corrected fold is the nearest-note fold for every MIDI number |
| GuiTask.FloorRoundsToNearest | main/tuner_gui_task.cpp:396-407 | using floor instead of truncation gives the nearest note for every MIDI number |
| GuiTask.FoldMatchesAsWrittenForNonNegative | main/tuner_gui_task.cpp:394-413 | the correction changes nothing for m at least 0 |
| GuiTask.ActiveGui | main/tuner_gui_task.cpp:157-183 | the display table has four entries, needle first and note quiz last |
| GuiTask.ChosenGuiExists | main/tuner_gui_task.cpp:157-183 | any display picked in the menu, and the default one, is in the table |
| GuiTask.DisplayLoop | main/tuner_gui_task.cpp:272-285 | for the GUI's copy of the state, the display is fed iff it is Tuning, or Standby with monitoring on; mute shows iff Tuning with monitoring on; a non-positive frequency is shown as NONE with zero frequency and cents; a positive one is folded as written, which is the nearest note for MIDI numbers of at least 0 and a note in -11..0 below that |
| GuiTask.QuietFrameShowsNoNote | main/tuner_gui_task.cpp:276-282 | the -1 of a quiet frame reaches the display as NONE |
| GuiTask.UpdateUi | main/tuner_gui_task.cpp:294-351 | which teardown, clean, build and brightness steps a change of the GUI's copy of the state triggers, each as an iff of the old and new state and monitoring mode |
| GuiTask.StateChanged | main/tuner_gui_task.cpp:353-359 | the hook sets the GUI's copy to the new state, whatever it held |
| GuiTask.GuiLoopPass | main/tuner_gui_task.cpp:261-285 | a loop pass runs update_ui iff the copy differs from the state last built, and feeds the display iff the copy is Tuning or monitored Standby |
| GuiTask.CopyFixedAsWritten | main/main.cpp:77-94 | the did-change callback main.cpp registers never writes the GUI's copy, so no notifications move it |
| GuiTask.GuiStaysBootingAsWritten | main/tuner_gui_task.cpp:257-285 | as written, the GUI loop starts and stays at Booting: no update_ui and no display call, even after setState(Tuning) |
| GuiTask.CopyFollowsController | main/tuner_gui_task.cpp:253-256 | with the did-change callback forwarding to the hook, the copy equals the controller's state after setState, the next pass rebuilds for it, and the display is fed iff Tuning or monitored Standby |
| GuiTask.BootReachesTuningWithForwarding | main/tuner_gui_task.cpp:257-270 | with forwarding, the boot's setState(Tuning) builds the tuning screen and feeds the display |
| GuiTask.MonitoringKeepsTuningUi | main/tuner_gui_task.cpp:304-342 | with monitoring on, Tuning to Standby and back rebuilds nothing |
| GuiTask.StandbyDarkensTuningRelights | main/tuner_gui_task.cpp:331-345 | without monitoring, Standby darkens the display and Tuning lights it again |
| NeedleUi.Initial | main/tuning-ui/tuner_ui_needle.cpp:95-99 | the needle starts with no note cached, at position 0, not fading, and consistent |
| NeedleUi.InitAsWritten | main/tuning-ui/tuner_ui_needle.cpp:95-99 | needle_gui_init rebuilds the labels with the none glyph and everything hidden, but keeps the note and position caches of lines 66 and 73 |
| NeedleUi.Init | main/tuning-ui/tuner_ui_needle.cpp:95-99 | the intended init also forgets the caches, so whatever the needle showed before it is back in its power-on state and consistent |
| NeedleUi.StaleGlyphAfterReinit | main/tuning-ui/tuner_ui_needle.cpp:101-110 | as written, playing the note shown before the settings after the re-init skips the redraw: the cache names the note while the none glyph stays |
| NeedleUi.ReinitDrawsNote | main/tuning-ui/tuner_ui_needle.cpp:101-110 | after the intended init the first note is drawn, whichever note was shown before |
| NeedleUi.UpdateNoteName | main/tuning-ui/tuner_ui_needle.cpp:318-377 | a note 0..11 draws its glyph and sharp and stops the fade; NONE starts the fade; anything else changes nothing |
| NeedleUi.FadeTick | main/tuning-ui/tuner_ui_needle.cpp:400-408 | an animation step sets only the opacity |
| NeedleUi.FadeCompleted | main/tuning-ui/tuner_ui_needle.cpp:410-427 | the end of the fade clears the cache to NONE, shows the none glyph, hides the sharp, indicator and centre, and restores full opacity |
| NeedleUi.IndicatorTarget | main/tuning-ui/tuner_ui_needle.cpp:113-124 | within half the in-tune width (integer halving) the target is 0 |
| NeedleUi.IndicatorOnScreen | main/tuning-ui/tuner_ui_needle.cpp:119-123 | within ±50 cents the target stays within half the screen and on the side of the cents |
| NeedleUi.IndicatorMonotone | main/tuning-ui/tuner_ui_needle.cpp:113-124 | more cents never move the needle left |
| NeedleUi.Display | main/tuning-ui/tuner_ui_needle.cpp:101-154 | negative notes change nothing; a note redraws only when it differs from the cache and moves the needle from the previous target; NONE hides the labels |
| NeedleUi.DisplayKeepsConsistent | main/tuning-ui/tuner_ui_needle.cpp:101-154 | display, fade steps and fade completion keep the glyph in step with the cached note |
| NeedleUi.DisplayedNoteIsDrawn | main/tuning-ui/tuner_ui_needle.cpp:107-110 | after a note is displayed, its glyph is the one drawn |
| StrobeUi.Initial | main/tuning-ui/tuner_ui_strobe.cpp:97-101 | the strobe starts at position 0 with no note and no timer |
| StrobeUi.InitAsWritten | main/tuning-ui/tuner_ui_strobe.cpp:97-101 | strobe_gui_init rebuilds labels and arcs with the none glyph, but keeps the note, position, frequency and cents caches and the fade timer |
| StrobeUi.Init | main/tuning-ui/tuner_ui_strobe.cpp:97-101 | the intended init forgets the note and label caches, keeps position and timer, is a state a second init leaves alone, and is consistent when no timer is pending |
| StrobeUi.StaleGlyphAfterReinit | main/tuning-ui/tuner_ui_strobe.cpp:106-137 | as written, the note shown before the settings is not redrawn after the re-init, and an unchanged frequency is not rewritten |
| StrobeUi.ReinitDrawsNote | main/tuning-ui/tuner_ui_strobe.cpp:106-137 | after cleanup and the intended init the first note is drawn and a non-zero frequency written |
| StrobeUi.DeleteTimer | main/tuning-ui/tuner_ui_strobe.cpp:368-371 | deleting the timer leaves none live and changes nothing else |
| StrobeUi.UpdateNoteName | main/tuning-ui/tuner_ui_strobe.cpp:323-388 | NONE replaces any timer with a new one and hides the arcs; a note draws its glyph; anything else changes nothing; at most one timer is live |
| StrobeUi.TimerFired | main/tuning-ui/tuner_ui_strobe.cpp:439-452 | the fade timer deletes itself, shows the none glyph and hides the sharp |
| StrobeUi.Cleanup | main/tuning-ui/tuner_ui_strobe.cpp:194-200 | cleanup leaves no timer live |
| StrobeUi.ArcColour | main/tuning-ui/tuner_ui_strobe.cpp:142-158 | out of tune the arcs are white; in tune they take the palette, or blue when there is none |
| StrobeUi.ArcRotations | main/tuning-ui/tuner_ui_strobe.cpp:177-180 | the arcs sit a third and two thirds of a turn apart |
| StrobeUi.ShowNote | main/tuning-ui/tuner_ui_strobe.cpp:108-160 | a note sets the step to cents/10, shows the labels and arcs, rewrites each label only when its value changes, and keeps the glyph when the note is cached |
| StrobeUi.WriteFrequency | main/tuning-ui/tuner_ui_strobe.cpp:109-115 | the frequency label is rewritten iff the frequency changed |
| StrobeUi.WriteCents | main/tuning-ui/tuner_ui_strobe.cpp:127-137 | the cents label is rewritten iff the cents changed |
| StrobeUi.HideNote | main/tuning-ui/tuner_ui_strobe.cpp:161-172 | no note stops the rotation, hides the labels and, when a note was cached, starts the fade timer |
| StrobeUi.Turn | main/tuning-ui/tuner_ui_strobe.cpp:174-185 | the arcs turn by the step, and only when it is non-zero |
| StrobeUi.Display | main/tuning-ui/tuner_ui_strobe.cpp:106-192 | negative notes change nothing; otherwise the note or no-note branch runs, the position advances by the step and the mute flag follows its input |
| StrobeUi.AtMostOneTimer | main/tuning-ui/tuner_ui_strobe.cpp:368-376 | display, timer and cleanup keep at most one fade timer live |
| StrobeUi.DisplayKeepsConsistent | main/tuning-ui/tuner_ui_strobe.cpp:106-192 | display, the fade timer and cleanup keep the glyph in step with the cached note, and a displayed note is drawn |
| StrobeUi.ArcsTurnWithCents | main/tuning-ui/tuner_ui_strobe.cpp:160-180 | a sharp note turns the arcs forward and a flat one backward |
| AttitudeUi.IsLandscape | main/tuning-ui/tuner_ui_attitude.cpp:111-119 | the display is landscape iff the orientation is Left or Right |
| AttitudeUi.Init | main/tuning-ui/tuner_ui_attitude.cpp:110-124 | init decides landscape, centres the slider at the base offset, shows the none glyph without a sharp, creates the mute, frequency and cents labels hidden, both ticks white and the note container opaque, and keeps the note cache |
| AttitudeUi.SliderOffset | main/tuning-ui/tuner_ui_attitude.cpp:151-155 | at 0 cents the slider sits at the base offset |
| AttitudeUi.SliderMovesAgainstCents | main/tuning-ui/tuner_ui_attitude.cpp:151-155 | the slider moves up as cents rise, 10 px for 4 cents |
| AttitudeUi.TickColour | main/tuning-ui/tuner_ui_attitude.cpp:140-148 | the ticks are orange iff in tune and white iff not |
| AttitudeUi.UpdateNoteName | main/tuning-ui/tuner_ui_attitude.cpp:392-451 | a note 0..11 draws its glyph and sharp; NONE starts the fade; anything else changes nothing |
| AttitudeUi.FadeCompleted | main/tuning-ui/tuner_ui_attitude.cpp:484-497 | the end of the fade clears the cache to NONE, shows the none glyph, hides the sharp and restores opacity |
| AttitudeUi.Display | main/tuning-ui/tuner_ui_attitude.cpp:126-173 | negative notes change nothing; a note shows the labels, colours the ticks and moves the slider, redrawing only on a change; NONE hides the labels and keeps the slider |
| AttitudeUi.DisplayKeepsConsistent | main/tuning-ui/tuner_ui_attitude.cpp:126-173 | display and fade completion keep the glyph in step with the cached note |
| AttitudeUi.InitCorrected | main/tuning-ui/tuner_ui_attitude.cpp:110-124 | the intended init rebuilds every widget as init does (hidden labels, white ticks, full opacity), forgets the note cache and the fade, and is consistent |
| AttitudeUi.StaleGlyphAfterReinit | main/tuning-ui/tuner_ui_attitude.cpp:126-138 | as written, the note shown before the settings is not redrawn after the re-init; after the intended init it is |
| AttitudeUi.RulerRungs | main/tuning-ui/tuner_ui_attitude.cpp:224-274 | the ruler has four mirrored pairs of rungs 25 px apart per 10 cents; the 20 and 40 rungs are labelled and 20 px wider |
| RecordTimeUi.TitleIndex | main/tuning-ui/tuner_ui_record_time.cpp:147-148 | the random title index is within [0, 5) |
| RecordTimeUi.ArmSpansItsRange | main/tuning-ui/tuner_ui_record_time.cpp:222-226 | the arm is at 22 degrees for 0 cents, 30 at +50 and 14 at -50, and stays within that range |
| RecordTimeUi.ArmMonotone | main/tuning-ui/tuner_ui_record_time.cpp:222-226 | more cents never swing the arm back |
| RecordTimeUi.InitAsWritten | main/tuning-ui/tuner_ui_record_time.cpp:441-449 | as written the initial arm angle expands to 16/2 + 14*10 tenths of a degree; the new title image has no rotation and the note cache and timer are kept |
| RecordTimeUi.InitialArmOffCentreAsWritten | main/tuning-ui/tuner_ui_record_time.cpp:448 | that is 14.8 degrees, not the 22 degrees the arm shows for 0 cents |
| RecordTimeUi.Init | main/tuning-ui/tuner_ui_record_time.cpp:143-155 | the corrected init puts the arm where 0 cents puts it, picks a title from the random draw, shows the none glyph and an unrotated title |
| RecordTimeUi.Created | main/tuning-ui/tuner_ui_record_time.cpp:143-155 | the widgets are rebuilt, the new title image with no rotation, and the caches and timer are kept |
| RecordTimeUi.DeleteTimer | main/tuning-ui/tuner_ui_record_time.cpp:554-557 | deleting the timer leaves none live and changes nothing else |
| RecordTimeUi.UpdateNoteName | main/tuning-ui/tuner_ui_record_time.cpp:509-572 | NONE replaces any timer with a new one and clears the border; a note draws its glyph; anything else changes nothing; at most one timer is live |
| RecordTimeUi.TimerFired | main/tuning-ui/tuner_ui_record_time.cpp:574-593 | the timer deletes itself in any case, and clears the glyph only when the lock is taken |
| RecordTimeUi.WobbleRepeatsEachTurn | main/tuning-ui/tuner_ui_record_time.cpp:203-216 | the arc shift depends on the truncated position modulo 360 and so repeats every turn |
| RecordTimeUi.Spin | main/tuning-ui/tuner_ui_record_time.cpp:198-243 | a spin advances the position, shifts the arcs by the rule, sets arm and title angles, moves the slider by -cents and makes the border opaque iff in tune |
| RecordTimeUi.ShowNote | main/tuning-ui/tuner_ui_record_time.cpp:162-184 | a note sets the spin to 25 per frame and redraws only when it differs from the cache |
| RecordTimeUi.HideNote | main/tuning-ui/tuner_ui_record_time.cpp:185-196 | no note stops the spin, keeps arm and slider, and starts the fade timer when a note was cached |
| RecordTimeUi.Display | main/tuning-ui/tuner_ui_record_time.cpp:160-250 | negative notes change nothing; otherwise the note or no-note branch runs, then a spin if the step is non-zero; the state stays valid |
| RecordTimeUi.HeldNoteSpinsSilenceFreezes | main/tuning-ui/tuner_ui_record_time.cpp:184-243 | a held note advances the record by 25 each frame, while silence freezes arm, slider and border |
| NoteQuiz.Init | main/tuning-ui/tuner_ui_note_quiz.cpp:126-146 | init clears target, upcoming and cache, shows "-" in the new note label, resets the change time to -1 and picks the user colour from the palette |
| NoteQuiz.RandomNote | main/tuning-ui/tuner_ui_note_quiz.cpp:217-224 | the draw is the first random number whose value mod 12 differs from the excluded note, so the result is 0..11 and not that note; None only when no draw differs |
| NoteQuiz.FirstDifferentDrawWins | main/tuning-ui/tuner_ui_note_quiz.cpp:218-223 | a first draw that differs is taken at once |
| NoteQuiz.QuizName | main/tuning-ui/tuner_ui_note_quiz.cpp:362-422 | notes 0..11 get their glyph and sharp, NONE the none glyph, anything else is ignored |
| NoteQuiz.ShowTargets | main/tuning-ui/tuner_ui_note_quiz.cpp:432-433 | the target and upcoming glyphs show their notes |
| NoteQuiz.PickTarget | main/tuning-ui/tuner_ui_note_quiz.cpp:425-429 | the new target is the upcoming note, or a fresh draw when there is none |
| NoteQuiz.SetNewTarget | main/tuning-ui/tuner_ui_note_quiz.cpp:424-434 | the target advances to the upcoming note and a new upcoming note differing from it is drawn |
| NoteQuiz.TargetsNeverRepeat | main/tuning-ui/tuner_ui_note_quiz.cpp:424-434 | consecutive targets differ, and the upcoming note never equals the target |
| NoteQuiz.SliderColours | main/tuning-ui/tuner_ui_note_quiz.cpp:182-187 | in tune both sliders take the note colour; sharp greys the right one and flat the left one |
| NoteQuiz.SliderOffsets | main/tuning-ui/tuner_ui_note_quiz.cpp:189-190 | the left slider stays at -18 unless flat and moves further left when flat; the right stays at +18 unless sharp and moves further right when sharp |
| NoteQuiz.Heard | main/tuning-ui/tuner_ui_note_quiz.cpp:156-169 | a heard note shows the labels and sliders, and updates the name and change time only when it differs from the last note |
| NoteQuiz.Display | main/tuning-ui/tuner_ui_note_quiz.cpp:148-212 | negative notes change nothing; the first call picks a target; a held target advances; no note hides everything and resets the change time |
| NoteQuiz.AdvancesOnlyAfterHold | main/tuning-ui/tuner_ui_note_quiz.cpp:171-176 | the target changes only when it is the heard note and has been held 100 ms |
| NoteQuiz.HeldTargetAdvances | main/tuning-ui/tuner_ui_note_quiz.cpp:171-176 | holding the target 100 ms moves to the next target |
| Tca9554.Mask | main/hardware/TCA9554PWR.c:29 | the pin mask has exactly bit pin-1 set for pins 1..8 and is 0 for higher pins once cut to a byte |
| Tca9554.WriteReg | main/hardware/TCA9554PWR.c:20-24 | a register write changes that register only and is logged |
| Tca9554.ModeExioAsWritten | main/hardware/TCA9554PWR.c:26-31 | as written Mode_EXIO always sets the pin's config bit |
| Tca9554.ModeIgnoresStateAsWritten | main/hardware/TCA9554PWR.c:26-31 | after init, Mode_EXIO(3, 0) makes pin 3 an input, exactly as Mode_EXIO(3, 1) does |
| Tca9554.ModeExio | main/hardware/TCA9554PWR.c:26-31 | the corrected Mode_EXIO sets the config bit to the state and keeps the other bits, and ignores invalid pins and states |
| Tca9554.WithBit | main/hardware/TCA9554PWR.c:55-59 | the OR with the pin mask and the AND with its complement set or clear bit k and keep the other seven bits |
| Tca9554.ModeExios | main/hardware/TCA9554PWR.c:32-35 | Mode_EXIOS overwrites the whole config register |
| Tca9554.ReadExio | main/hardware/TCA9554PWR.c:38-43 | Read_EXIO returns bit pin-1 of the input register, and 0 above pin 8 |
| Tca9554.ReadExios | main/hardware/TCA9554PWR.c:44-48 | Read_EXIOS returns the input register, bit for bit |
| Tca9554.SetExio | main/hardware/TCA9554PWR.c:51-65 | Set_EXIO sets or clears output bit pin-1 and keeps the other 7; an invalid pin or state writes nothing |
| Tca9554.SetExios | main/hardware/TCA9554PWR.c:66-69 | Set_EXIOS overwrites the whole output register |
| Tca9554.SetToggle | main/hardware/TCA9554PWR.c:72-76 | Set_Toggle writes the negation of the input bit into the output bit and keeps the others |
| Tca9554.ToggleTwiceRestores | main/hardware/TCA9554PWR.c:72-76 | when the input register follows the output, toggling twice restores the output |
| Tca9554.ExioInit | main/hardware/TCA9554PWR.c:80-99 | init makes every pin an output and keeps the output register |
| Cst328.PointBase | main/waveshare/CST328.c:147-148 | point i starts at byte 5i, plus 2 after the first point |
| Cst328.DecodePoint | main/waveshare/CST328.c:148-150 | x and y are 12-bit values whose high byte and low nibble come from the report bytes |
| Cst328.PointsFitBuffer | main/waveshare/CST328.c:146-151 | for at most 5 points every decoded byte lies within the 27 bytes read |
| Cst328.FillCoords | main/waveshare/CST328.c:146-151 | the first count coordinates are decoded from the buffer and the rest are kept |
| Cst328.ReadData | main/waveshare/CST328.c:103-157 | a failed read changes nothing; a count of 0 or above 5 clears the register and keeps the points; otherwise min(count, max) points are decoded |
| Cst328.GetXy | main/waveshare/CST328.c:159-188 | get_xy hands over min(points, max) points, reports success iff there are any, and invalidates the store |
| Cst328.SecondGetFindsNothing | main/waveshare/CST328.c:181-187 | a second call before a new read finds nothing |
| Touch.Map | main/utils/touch.c:133-136 | map always returns a value in [out_min, out_max], and an in-range quotient passes through |
| Touch.BelowMinimumLandsOnFarEdge | main/utils/touch.c:133-136 | a reading just below in_min wraps around in 16 bits and is clamped to out_max, the far edge |
| Touch.ZeroReadingExample | main/utils/touch.c:133-136 | a raw 0 mapped from [100, 3900] to [0, 240] lands on 240 |
| Touch.ToScreen | main/utils/touch.c:302-320 | the rotation table: 0 keeps (x, y), 90 gives (H-y-1, x), 180 gives (H-x-1, V-y-1), 270 gives (y, V-x-1), and a raw point on the panel lands on the screen |
| Touch.ToScreenInjective | main/utils/touch.c:302-320 | no two raw points land on the same screen point, and 180 degrees undoes itself |
| Touch.ToScreenRoundTrip | main/utils/touch.c:302-320 | each rotation has an inverse: mapping a raw touch and mapping back gives it again, and the other way round |
| Touch.StartCalibration | main/utils/touch.c:349-378 | starting calibration resets the index to 0 and the done flag, unless the display lock is not taken |
| Touch.Accept | main/utils/touch.c:322-341 | a reading is taken iff it has nonzero raw x and y and lands within 50 px of the target on both axes; it is stored at the index, the index advances, and the third point finishes |
| Touch.TouchCb | main/utils/touch.c:277-347 | touch_cb takes the first acceptable reading and skips the others |
| Touch.ThreeTouchesCalibrate | main/utils/touch.c:330-341 | three acceptable touches after starting fill the three points and finish calibration |
| St7789.SetBacklight | main/waveshare/ST7789.c:91-99 | level 0 gives duty 0 and levels of 100 or more give the maximum duty, always within 16 bits |
| St7789.BacklightSteps | main/waveshare/ST7789.c:93-96 | from level 1 to 100 the duty rises by 81 per level and reaches the maximum at 100 |
| St7789.BacklightInit | main/waveshare/ST7789.c:61-90 | initialisation applies level 70, 30 steps below the maximum |

## Left out

- LVGL itself: widget creation, layout, styling and animation timing. The
  effects the logic decides are kept as fields.
- The display lock. `lvgl_port_lock(0)` waits without a timeout, and the
  lock is assumed taken, except in touch calibration and the record-time
  timer, where the model has a `locked` input. The radio handlers' takes
  and gives are modelled as a list of lock operations
  (`SettingsMenu.HandlerLocksAsWritten`). In the other handlers, a failed
  lock returns before any change.
- FreeRTOS tasks, queues, critical sections and delays. The frequency queue
  is a single `Option<real>` cell, and each handler runs with one clock
  reading.
- The concurrency between the GPIO, GUI and detector tasks. Each step is
  modelled alone.
- The DSP: the q pitch detector, the signal conditioner and the One Euro
  filter. They are parameters of `PitchFrame`, and `log2` is left out because
  the fold takes the MIDI note number as its input.
- Floating point. Cents, filters and positions are `real`. Float rounding,
  `%.2f` label formatting and the ×100 / ×1000 NVS encodings of the
  smoothing and 1EU beta settings are left out. Their truncation to a byte is
  modelled in `UserSettings.FloatToU8`.
- The touch affine calibration matrix and its ×100000 storage in NVS. This is
  float arithmetic. `Touch.Accept` models only the acceptance of the points.
- `esp_random`. It is a finite stream of draws passed in. `NoteQuiz.RandomNote`
  returns `None` when the stream runs out before a usable draw. The source
  retries without bound.
- Bus and panel bring-up: `app_lcd_init`, `app_lvgl_init`, `LCD_Init`, the
  I2C driver, the touch and expander device registration, and the buzzer
  call in `EXIO_Init`.
- The pytest stub, the blank standby display (empty bodies) and the GUI
  interface header (declarations only).
- `record_time_gui_cleanup` is empty in the source, so it has no model. A
  fade timer that is pending when the record-time display is torn down
  stays live.
- `LEDC_MAX_Duty` is not defined in these sources, so it is the `maxDuty`
  parameter of `St7789.SetBacklight`.
- `smoother.setAmount` is called by the detector loop but is not in the
  smoother's header. The detector's model uses `Smoother.SetAlphaAsWritten`, which
  keeps the constructor's overwritten clamp; `Smoother.SetAlpha` is the corrected setter.
- `Touch.Accept` requires the index to be below 3. If `finish_calibration`
  cannot take the lock, the index stays at 3, and the next callback reads
  `screen_points[3]`, which is out of bounds.
- Touch.Map: requires a non-zero input range and a product that fits a C
  `int`. Both are undefined behaviour otherwise.
- Tca9554.Mask: requires pins 1..32. Larger shifts are undefined behaviour.
  Pin 32 itself shifts into the sign bit, which the model treats as giving
  0.
- Pitch-frame input: the ADC output fields are a function `data` from byte
  offset to sample value. How a value is taken out of the DMA buffer is not
  modelled.
- GuiTask.FoldAsWritten: states only the m ≥ 0 range. For negative MIDI
  numbers, see Findings.
- NoteQuiz.Display: requires the quiz's own invariant (target and upcoming
  differ, or both are NONE). The display's own functions keep that
  invariant.
- Footswitch.TimerExpired: the single-press timer is a pending flag. The
  200 ms visual-feedback delays are left out.
- The display-frequency argument order. `tuner_gui_task.cpp` calls each
  display with four arguments, but most displays declare six. The model
  uses the four values the caller passes.
- The settings callbacks. `will show` and `will exit` are empty in main.cpp.
  `changed` runs at the end of every save and calls `user_settings_updated`,
  which, when the GUI is loaded and the lock is taken, reads the main
  screen's width and height back from LVGL. That object geometry is not
  modelled; the displays take the screen width as an input.
- LVGL's focus groups are modelled by what the settings code relies on: a
  new group is made the default and the objects created after it join it;
  the first object added gets the focus; `lv_group_focus_next` wraps; and
  deleting the focused object moves the focus back to the previous one
  (`SettingsMenu.ReleaseSpinbox`). A sent click does nothing on the spinbox
  and its plus and minus buttons, whose callbacks act on short clicks and
  long-press repeats only.
- `createSlider` is modelled (`SettingsMenu.CreateSlider`) but no menu calls
  it.
- The Debug menu's spinbox editing (increment, decrement and the
  conversion factor) is not modelled; only the screen and its widgets'
  place in the focus group are.
- A radio list's screen records one checked item. The note-colour handler
  unchecks the item at `currentSettingIndex`, which is set when the list
  opens and not updated by a selection, so a second selection on the same
  open list leaves two items checked on screen. Only the clicked item's
  check mark is modelled (`SettingsMenu.ItemClicked`).
- `SettingsMenu.SinglePresses` and `SettingsMenu.LongPresses` repeat the step
  that `SettingsMenu.FootswitchPressed`'s contract equates with a single and
  a long press (`AdvanceFocus`, and `BackClicked` or `ExitClicked`).

## Findings

| source | as written | input that shows it | evidently intended | confidence | as-written member | corrected member |
|---|---|---|---|---|---|---|
| main/tuning-ui/tuner_ui_record_time.cpp:448 | the unparenthesised `RECORD_TIME_ARM_ZERO_ANGLE * 10` expands to 16/2 + 14*10 = 148 | creating the record-time display | the arm starts at 22 degrees (220), where 0 cents puts it | not executed; high | RecordTimeUi.InitialArmOffCentreAsWritten | RecordTimeUi.Init |
| main/utils/exponential_smoother.hpp:10-11 | the `min(alpha, 1)` result is overwritten by `max(alpha, 0)`, so alpha above 1 is kept | alpha 2, inputs 0 then 1: output 2 | alpha clamped to [0, 1], so the output stays between the inputs | not executed; high | Smoother.AlphaAboveOneOvershoots | Smoother.ClampedAlphaStaysWithin |
| main/hardware/TCA9554PWR.c:26-31 | `Mode_EXIO` ORs the pin bit into the config register whatever `State` is | `Mode_EXIO(3, 0)` after init gives config 0x04, the same as `Mode_EXIO(3, 1)` | the config bit set to `State`, as `Set_EXIO` does for outputs | not executed; medium | Tca9554.ModeIgnoresStateAsWritten | Tca9554.ModeExio |
| main/utils/lcd.c:71 | duty = percent * 81, up to 8100, on a timer configured for 10 bits (max 1023) | 13 % gives 1053 > 1023 | the duty scaled to the 10-bit range | not executed; medium | Lcd.DutyAsWrittenExceedsTimer | Lcd.Duty |
| main/main.cpp:77-94 | `tuner_state_did_change_cb` only suspends or resumes the detector; nothing calls `tuner_gui_task_tuner_state_changed` (tuner_gui_task.cpp:353-359), so `current_ui_tuner_state` stays Booting | boot with initial state Tuning: the controller is in Tuning, but the GUI loop never runs update_ui or feeds a display | the did-change callback forwards each change to the GUI hook, as the comment at tuner_gui_task.cpp:253-256 says | not executed; medium (the caller may live in a file outside these sources) | GuiTask.GuiStaysBootingAsWritten | GuiTask.CopyFollowsController |
| main/tuner_gui_task.cpp:394-413 | `(int)fmod(m, 12)` and `m - (int)m` truncate toward zero, so a negative MIDI number gives a negative note and cents below -50 | m = -3.7 gives note -3 and -70 cents | note G# (8) at +30 cents | not executed; low (needs a frequency below 8.2 Hz) | GuiTask.NegativeMidiMisfolds | GuiTask.Fold |
| main/user_settings.cpp:1006-1007 | this radio handler and five others (lines 1031, 1110, 1227, 1278, 1332) return on a container click while still holding the display lock | one click on the threshold list's container | every path releases the lock, as in the tuner-mode handler | not executed; medium | SettingsMenu.ContainerClickKeepsLock | SettingsMenu.LockBalanced |
| main/tuning-ui/tuner_ui_needle.cpp:95-99 | `needle_gui_init` rebuilds the note glyph as the none glyph but keeps `needle_last_displayed_note` (line 66) | tune an A, open the settings, return to Tuning and play A: the redraw is skipped and the glyph stays blank | the cache forgotten with the glyph, so the note is drawn again | not executed; medium | NeedleUi.StaleGlyphAfterReinit | NeedleUi.ReinitDrawsNote |
| main/tuning-ui/tuner_ui_strobe.cpp:97-101 | `strobe_gui_init` rebuilds the glyph and labels but keeps `strobe_last_displayed_note` and the frequency and cents caches (lines 66, 103-104) | the same A before and after the settings: no glyph, and an unchanged frequency is not rewritten | the caches forgotten with the widgets | not executed; medium | StrobeUi.StaleGlyphAfterReinit | StrobeUi.ReinitDrawsNote |
| main/tuning-ui/tuner_ui_attitude.cpp:110-124 | `attitude_gui_init` rebuilds the glyph but keeps `attitude_last_displayed_note` | the same A before and after the settings leaves the glyph blank | the cache forgotten with the glyph | not executed; medium | AttitudeUi.StaleGlyphAfterReinit | AttitudeUi.InitCorrected |
