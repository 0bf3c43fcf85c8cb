/** The backlight arithmetic of main/waveshare/ST7789.c. The LEDC full
    scale LEDC_MAX_Duty is defined in a header that is not part of this
    model, so it is a parameter; the duty is stored in a uint16. */
module St7789 {
  import opened CMath

  const BacklightMax: int := 100
  /** The level Backlight_Init applies. */
  const DefaultBacklight: int := 70
  /** Duty steps per light level. */
  const DutyStep: int := 81

  /** Set_Backlight: levels above the maximum are clamped, level 0 turns
      the light off, otherwise each level below the maximum takes 81 off
      the full scale. */
  function SetBacklight(light: int, maxDuty: int): (duty: int)
    requires 0 <= light < 256
    ensures 0 <= duty < 65536
    ensures light == 0 ==> duty == 0
    ensures light >= BacklightMax ==> duty == U16(maxDuty)
  {
    var level := if light > BacklightMax then BacklightMax else light;
    var d := U16(maxDuty - DutyStep * (BacklightMax - level));
    if level == 0 then 0 else d
  }

  /** With a full scale of at least 8100 no level wraps: each level up to
      the maximum adds exactly 81, and level 1 is the dimmest lit level. */
  lemma BacklightSteps(light: int, maxDuty: int)
    requires 1 <= light < BacklightMax && 8100 <= maxDuty < 65536
    ensures SetBacklight(light + 1, maxDuty) == SetBacklight(light, maxDuty) + DutyStep
    ensures SetBacklight(light, maxDuty) >= SetBacklight(1, maxDuty) == maxDuty - 8019
    ensures SetBacklight(BacklightMax, maxDuty) == maxDuty
  {
  }

  /** Backlight_Init: the stored default level, applied. */
  function BacklightInit(maxDuty: int): (r: (int, int))
    ensures r.0 == DefaultBacklight && r.1 == SetBacklight(DefaultBacklight, maxDuty)
    ensures 8100 <= maxDuty < 65536 ==> r.1 == maxDuty - 30 * DutyStep
  {
    (DefaultBacklight, SetBacklight(DefaultBacklight, maxDuty))
  }
}
