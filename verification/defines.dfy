/** Build-time constants of the tuner (main/defines.h). */
module Defines {

  const LongPressTimeMs: int := 1000
  const DoublePressTimeMs: int := 250

  const LcdHorizontalRes: int := 240
  const LcdVerticalRes: int := 320

  const DefaultStandbyGuiIndex: int := 0
  const DefaultTunerGuiIndex: int := 0
  const DefaultInTuneCentsWidth: int := 2
  const DefaultMonitoringMode: int := 0
  const DefaultExpSmoothing: real := 0.09
  const DefaultOneEuBeta: real := 0.003
  const DefaultNoteDebounceInterval: real := 115.0
  const DefaultUseOneEuFilterFirst: bool := true
  /** Stored as a 0-based step: 7 stands for 80 % brightness. */
  const DefaultDisplayBrightness: int := 7

  /** The frequency correction factor; 1 on the ESP32-S3. */
  const FreqFixFactor: real := 1.0
  /** Minimum peak-to-peak ADC range for a frame to be analysed. */
  const ReadingDiffMinimum: real := 50.0

  const A4Freq: real := 440.0
  const CentsPerSemitone: real := 100.0
  /** Visual segments the needle's range is divided into. */
  const IndicatorSegments: int := 100

  const LastNoteFadeIntervalMs: int := 2000
}
