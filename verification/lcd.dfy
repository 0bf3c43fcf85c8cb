/** Backlight and rotation control of main/utils/lcd.c. */
module Lcd {

  /** The backlight LEDC timer runs with a 10-bit duty resolution, so its
      full-scale duty is 2^10 - 1. */
  const DutyResolutionBits: nat := 10
  const MaxTimerDuty: int := 1023

  datatype Status = Ok | Fail

  /** lv_display_rotation_t. */
  datatype Rotation = Rot0 | Rot90 | Rot180 | Rot270

  /** The brightness percent after the two clamps. */
  function ClampPercent(p: int): (c: int)
    ensures 0 <= c <= 100
    ensures 0 <= p <= 100 ==> c == p
    ensures p > 100 ==> c == 100
    ensures p < 0 ==> c == 0
  {
    if p > 100 then 100 else if p < 0 then 0 else p
  }

  /** The duty lcd_display_brightness_set writes, as written: 8192 / 100 is
      integer division, so the percent is scaled by 81, a 13-bit scale. */
  function DutyAsWritten(p: int): (d: int)
    ensures 0 <= d <= 8100
    ensures d % 81 == 0 && d / 81 == ClampPercent(p)
  {
    ClampPercent(p) * (8192 / 100)
  }

  /** From 13 % up, the as-written duty is beyond the full scale of the
      10-bit timer, so all of those brightness steps ask for more than
      100 % on-time. */
  lemma DutyAsWrittenExceedsTimer(p: int)
    requires p >= 13
    ensures DutyAsWritten(p) > MaxTimerDuty
    ensures DutyAsWritten(13) == 1053
  {
  }

  /** The duty the percent evidently stands for: that fraction of the
      10-bit full scale. */
  function Duty(p: int): (d: int)
    ensures 0 <= d <= MaxTimerDuty
    ensures d == 0 <==> ClampPercent(p) == 0
    ensures d == MaxTimerDuty <==> ClampPercent(p) == 100
  {
    ClampPercent(p) * MaxTimerDuty / 100
  }

  /** Every percent step gives a distinct, larger duty. */
  lemma DutyStrictlyIncreasing(p: int, q: int)
    requires 0 <= p < q <= 100
    ensures Duty(p) < Duty(q)
  {
    assert q * MaxTimerDuty >= p * MaxTimerDuty + MaxTimerDuty;
  }

  /** What lcd_display_brightness_set leaves behind: the duty written and
      the status returned. A failing LEDC call aborts through
      ESP_ERROR_CHECK, so a returning call always reports success. */
  datatype Backlight = Backlight(duty: int, status: Status)

  /** lcd_display_brightness_set as written: the duty is the 13-bit
      scale of DutyAsWritten, so from 13 % up it asks for more than the
      10-bit timer's full scale. */
  function BrightnessSet(p: int): (b: Backlight)
    ensures b.status == Ok
    ensures 0 <= b.duty <= 8100
    ensures p <= 0 ==> b.duty == 0
    ensures p >= 100 ==> b.duty == 8100
    ensures p >= 13 ==> b.duty > MaxTimerDuty
  {
    Backlight(DutyAsWritten(p), Ok)
  }

  /** lcd_display_brightness_set with the duty scaled to the timer. */
  function BrightnessSetCorrected(p: int): (b: Backlight)
    ensures b.status == Ok
    ensures 0 <= b.duty <= MaxTimerDuty
    ensures p <= 0 ==> b.duty == 0
    ensures p >= 100 ==> b.duty == MaxTimerDuty
  {
    Backlight(Duty(p), Ok)
  }

  /** Brightness is monotone in the requested percent, clamps included,
      both as written and corrected. */
  lemma BrightnessMonotone(p: int, q: int)
    requires p <= q
    ensures BrightnessSet(p).duty <= BrightnessSet(q).duty
    ensures BrightnessSetCorrected(p).duty <= BrightnessSetCorrected(q).duty
  {
    if ClampPercent(p) < ClampPercent(q) {
      DutyStrictlyIncreasing(ClampPercent(p), ClampPercent(q));
    }
  }

  /** lcd_display_backlight_off: brightness 0, a dark backlight. */
  function BacklightOff(): (b: Backlight)
    ensures b == BrightnessSet(0) && b.duty == 0
  {
    BrightnessSet(0)
  }

  /** lcd_display_backlight_on: brightness 100, which as written writes
      the 13-bit full duty 8100 to the 10-bit timer. */
  function BacklightOn(): (b: Backlight)
    ensures b == BrightnessSet(100) && b.duty == 8100 && b.duty > MaxTimerDuty
  {
    BrightnessSet(100)
  }

  /** The display rotation after lcd_display_rotate and the status it
      returns. */
  datatype RotateOutcome = RotateOutcome(rotation: Rotation, status: Status)

  /** lcd_display_rotate: fails exactly when there is no display, and
      otherwise applies the requested rotation. */
  function Rotate(displayPresent: bool, current: Rotation, dir: Rotation): (r: RotateOutcome)
    ensures r.status == Fail <==> !displayPresent
    ensures displayPresent ==> r.rotation == dir
    ensures !displayPresent ==> r.rotation == current
  {
    if displayPresent then RotateOutcome(dir, Ok) else RotateOutcome(current, Fail)
  }
}
