/** The touch-screen helpers of main/utils/touch.c: the clamped coordinate
    mapping, the rotation of a raw touch into screen coordinates and the
    three-point calibration walk. The affine matrix computed at the end of
    the walk, its NVS encoding and the LVGL screens are not part of this
    model. */
module Touch {
  import opened Wrappers
  import opened CMath
  import Lcd

  /** How far, in pixels on either axis, a touch may land from the
      crosshair and still count. */
  const MaxTouchDiffAllowed: int := 50
  const CalibrationPoints: int := 3
  /** The crosshairs, in screen coordinates. */
  const ScreenPoints: seq<(int, int)> := [(50, 50), (220, 50), (120, 180)]

  predicate IsU16(x: int) { 0 <= x < 65536 }
  predicate IsI32(x: int) { -0x8000_0000 <= x < 0x8000_0000 }

  /** map: the scaling is C int arithmetic with truncating division, the
      result is stored in a uint16 and then clamped. The caller must not
      pass an empty input range (a division by zero) nor a product that
      overflows an int. */
  function Map(n: int, inMin: int, inMax: int, outMin: int, outMax: int): (r: int)
    requires IsU16(n) && IsU16(inMin) && IsU16(inMax) && IsU16(outMin) && IsU16(outMax)
    requires inMax != inMin
    requires IsI32((n - inMin) * (outMax - outMin))
    ensures outMin <= outMax ==> outMin <= r <= outMax
    ensures var q := CDiv((n - inMin) * (outMax - outMin), inMax - inMin);
      0 <= q && outMin <= q <= outMax ==> r == q
  {
    var value := U16(CDiv((n - inMin) * (outMax - outMin), inMax - inMin));
    if value < outMin then outMin else if value > outMax then outMax else value
  }

  /** Because the quotient is stored in a uint16 before the clamp, a
      reading below the input minimum (by less than the input range)
      wraps around and lands on the far edge, not the near one. */
  lemma BelowMinimumLandsOnFarEdge(n: int, inMin: int, inMax: int, outMin: int, outMax: int)
    requires IsU16(n) && IsU16(inMin) && IsU16(inMax) && IsU16(outMin) && IsU16(outMax)
    requires n < inMin < inMax && inMin - n <= inMax - inMin && outMin < outMax < 32768
    requires IsI32((n - inMin) * (outMax - outMin))
    requires CDiv((n - inMin) * (outMax - outMin), inMax - inMin) < 0
    ensures Map(n, inMin, inMax, outMin, outMax) == outMax
  {
    var d := inMin - n;
    var w := outMax - outMin;
    var b := inMax - inMin;
    var q := CDiv((n - inMin) * w, b);
    assert AbsInt(q * b) <= AbsInt((n - inMin) * w);
    QuotientWithinWidth(d, w, b, q);
    assert U16(q) == q + 65536;
  }

  /** A truncated quotient of at most one range's worth of input is at
      most one range's worth of output. */
  lemma QuotientWithinWidth(d: int, w: int, b: int, q: int)
    requires 0 < d <= b && w > 0 && q < 0
    requires AbsInt(q * b) <= AbsInt(-d * w)
    ensures -q <= w
  {
    assert AbsInt(-d * w) == d * w;
    assert AbsInt(q * b) == -q * b;
    MulMono(d, b, w);
    if -q > w {
      MulStrict(w, -q, b);
    }
  }

  /** A raw reading of 0 against a minimum of 100 lands on the far edge. */
  lemma ZeroReadingExample()
    ensures Map(0, 100, 3900, 0, 240) == 240
  {
    BelowMinimumLandsOnFarEdge(0, 100, 3900, 0, 240);
  }

  lemma MulStrict(x: int, y: int, k: int)
    requires 0 <= x < y && k > 0
    ensures x * k < y * k
  {
  }

  lemma MulMono(x: int, y: int, k: int)
    requires x <= y && k > 0
    ensures x * k <= y * k
  {
  }

  /** The switch in touch_cb turning a raw touch into screen coordinates;
      h and v are the display's current horizontal and vertical sizes. */
  function ToScreen(rotation: Lcd.Rotation, rawX: int, rawY: int, h: int, v: int): (p: (int, int))
    ensures rotation == Lcd.Rot0 ==> p == (rawX, rawY)
    ensures rotation == Lcd.Rot90 ==> p.1 == rawX && p.0 + rawY == h - 1
    ensures rotation == Lcd.Rot180 ==> p.0 + rawX == h - 1 && p.1 + rawY == v - 1
    ensures rotation == Lcd.Rot270 ==> p.0 == rawY && p.1 + rawX == v - 1
    ensures rotation.Rot90? || rotation.Rot270? ==>
      (0 <= rawX < v && 0 <= rawY < h ==> 0 <= p.0 < h && 0 <= p.1 < v)
    ensures rotation.Rot0? || rotation.Rot180? ==>
      (0 <= rawX < h && 0 <= rawY < v ==> 0 <= p.0 < h && 0 <= p.1 < v)
  {
    match rotation
    case Rot0 => (rawX, rawY)
    case Rot90 => (h - rawY - 1, rawX)
    case Rot180 => (h - rawX - 1, v - rawY - 1)
    case Rot270 => (rawY, v - rawX - 1)
  }

  /** Distinct raw touches give distinct screen points, whatever the
      rotation, and a half turn applied twice gives the raw touch back. */
  lemma ToScreenInjective(rotation: Lcd.Rotation, a: (int, int), b: (int, int), h: int, v: int)
    ensures ToScreen(rotation, a.0, a.1, h, v) == ToScreen(rotation, b.0, b.1, h, v) ==> a == b
    ensures var p := ToScreen(Lcd.Rot180, a.0, a.1, h, v); ToScreen(Lcd.Rot180, p.0, p.1, h, v) == a
  {
  }

  /** The raw touch a screen point came from: the inverse of each
      rotation's mapping. */
  function FromScreen(rotation: Lcd.Rotation, x: int, y: int, h: int, v: int): (raw: (int, int))
  {
    match rotation
    case Rot0 => (x, y)
    case Rot90 => (y, h - x - 1)
    case Rot180 => (h - x - 1, v - y - 1)
    case Rot270 => (v - y - 1, x)
  }

  /** Undoing the rotation recovers the raw touch, and rotating an undone
      screen point gives that point back. */
  lemma ToScreenRoundTrip(rotation: Lcd.Rotation, rawX: int, rawY: int, h: int, v: int)
    ensures var p := ToScreen(rotation, rawX, rawY, h, v); FromScreen(rotation, p.0, p.1, h, v) == (rawX, rawY)
    ensures var raw := FromScreen(rotation, rawX, rawY, h, v); ToScreen(rotation, raw.0, raw.1, h, v) == (rawX, rawY)
  {
  }

  /** The calibration walk: the crosshair being asked for, the touches
      recorded so far and whether the walk is complete. */
  datatype Calibration = Calibration(index: int, touchPoints: seq<(int, int)>, done: bool)

  predicate Valid(c: Calibration) {
    |c.touchPoints| == CalibrationPoints && 0 <= c.index <= CalibrationPoints
  }

  /** calibrate_touch_screen: when the display lock is obtained the walk
      starts again at the first crosshair; otherwise nothing happens. */
  function StartCalibration(c: Calibration, locked: bool): (r: Calibration)
    ensures locked ==> r.index == 0 && !r.done && r.touchPoints == c.touchPoints
    ensures !locked ==> r == c
  {
    if locked then c.(index := 0, done := false) else c
  }

  /** One reading from the touch controller: whether a point was reported,
      and its raw coordinates. */
  datatype Reading = Reading(found: bool, x: int, y: int)

  /** One pass of the polling loop in touch_cb. The debounce compares
      against last_x and last_y, which are never updated from 0, so only
      readings off both axes get through; a touch too far from the
      crosshair is skipped. None: keep polling. */
  function Accept(c: Calibration, reading: Reading, rotation: Lcd.Rotation, h: int, v: int): (r: Option<Calibration>)
    requires Valid(c) && c.index < CalibrationPoints
    ensures r.Some? <==>
      && reading.found && reading.x != 0 && reading.y != 0
      && var p := ToScreen(rotation, reading.x, reading.y, h, v);
         AbsInt(p.0 - ScreenPoints[c.index].0) <= MaxTouchDiffAllowed
         && AbsInt(p.1 - ScreenPoints[c.index].1) <= MaxTouchDiffAllowed
    ensures r.Some? ==>
      && Valid(r.value) && r.value.index == c.index + 1
      && r.value.touchPoints == c.touchPoints[c.index := ToScreen(rotation, reading.x, reading.y, h, v)]
      && (r.value.index == CalibrationPoints ==> r.value.done)
      && (r.value.index < CalibrationPoints ==> r.value.done == c.done)
  {
    if !(reading.found && reading.x != 0 && reading.y != 0) then None
    else
      var p := ToScreen(rotation, reading.x, reading.y, h, v);
      var target := ScreenPoints[c.index];
      if AbsInt(p.0 - target.0) > MaxTouchDiffAllowed || AbsInt(p.1 - target.1) > MaxTouchDiffAllowed then None
      else
        var stored := c.(touchPoints := c.touchPoints[c.index := p], index := c.index + 1);
        if stored.index >= CalibrationPoints then Some(stored.(done := true)) else Some(stored)
  }

  /** touch_cb: polls until one reading is accepted. The readings are a
      finite stream; None when it ends first. The number returned is how
      many readings were used. */
  function TouchCb(c: Calibration, readings: seq<Reading>, rotation: Lcd.Rotation, h: int, v: int): (r: Option<(Calibration, nat)>)
    requires Valid(c) && c.index < CalibrationPoints
    decreases |readings|
    ensures r.Some? ==>
      && 1 <= r.value.1 <= |readings|
      && Accept(c, readings[r.value.1 - 1], rotation, h, v) == Some(r.value.0)
      && forall k :: 0 <= k < r.value.1 - 1 ==> Accept(c, readings[k], rotation, h, v).None?
    ensures r.None? ==> forall k :: 0 <= k < |readings| ==> Accept(c, readings[k], rotation, h, v).None?
  {
    if |readings| == 0 then None
    else
      match Accept(c, readings[0], rotation, h, v)
      case Some(next) => Some((next, 1))
      case None =>
        match TouchCb(c, readings[1..], rotation, h, v)
        case None => None
        case Some(found) => Some((found.0, found.1 + 1))
  }

  /** Three accepted touches after a start complete the calibration, each
      recorded point within 50 pixels of its crosshair on both axes. */
  lemma ThreeTouchesCalibrate(c: Calibration, r0: Reading, r1: Reading, r2: Reading,
                              rotation: Lcd.Rotation, h: int, v: int)
    requires Valid(c)
    requires var c0 := StartCalibration(c, true);
      && Accept(c0, r0, rotation, h, v).Some?
      && Accept(Accept(c0, r0, rotation, h, v).value, r1, rotation, h, v).Some?
      && Accept(Accept(Accept(c0, r0, rotation, h, v).value, r1, rotation, h, v).value, r2, rotation, h, v).Some?
    ensures var c0 := StartCalibration(c, true);
      var c3 := Accept(Accept(Accept(c0, r0, rotation, h, v).value, r1, rotation, h, v).value, r2, rotation, h, v).value;
      && c3.done && c3.index == CalibrationPoints
      && forall k :: 0 <= k < CalibrationPoints ==>
           AbsInt(c3.touchPoints[k].0 - ScreenPoints[k].0) <= MaxTouchDiffAllowed
           && AbsInt(c3.touchPoints[k].1 - ScreenPoints[k].1) <= MaxTouchDiffAllowed
  {
    var c0 := StartCalibration(c, true);
    var c1 := Accept(c0, r0, rotation, h, v).value;
    var c2 := Accept(c1, r1, rotation, h, v).value;
    var c3 := Accept(c2, r2, rotation, h, v).value;
    assert c3.touchPoints[0] == c1.touchPoints[0];
    assert c3.touchPoints[1] == c2.touchPoints[1];
  }
}
