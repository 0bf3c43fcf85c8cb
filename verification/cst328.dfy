/** The decoding half of the CST328 touch driver in
    main/waveshare/CST328.c: the touch count and the points read from the
    controller's registers, and the hand-over of the points to LVGL. The
    I2C transfers are parameters: the bytes they return, and whether they
    failed. */
module Cst328 {
  import opened Wrappers

  type Byte = x: int | 0 <= x < 256

  /** The most points the controller reports. */
  const MaxReportedPoints: int := 5
  /** Bytes read from the coordinate registers into buf[1..27]. */
  const XyBytes: int := 27

  datatype Coord = Coord(x: int, y: int, strength: int)

  /** The driver's point store; coords has room for the configured
      maximum number of points. */
  datatype Touch = Touch(points: nat, coords: seq<Coord>)

  predicate Valid(t: Touch, maxPoints: nat) {
    |t.coords| == maxPoints && t.points <= maxPoints
  }

  /** Where point i starts in the buffer: the first point is packed right
      after the count, the others leave a two-byte gap. */
  function PointBase(i: nat): (b: nat)
    ensures b == 5 * i + (if i > 0 then 2 else 0)
  {
    5 * i + (if i > 0 then 2 else 0)
  }

  /** Point i of the buffer: 12-bit x and y sharing the middle nibble byte,
      then the strength byte. */
  function DecodePoint(buf: seq<Byte>, i: nat): (c: Coord)
    requires PointBase(i) + 5 < |buf|
    ensures 0 <= c.x < 4096 && 0 <= c.y < 4096 && 0 <= c.strength < 256
    ensures c.x / 16 == buf[PointBase(i) + 2] && c.x % 16 == buf[PointBase(i) + 4] / 16
    ensures c.y / 16 == buf[PointBase(i) + 3] && c.y % 16 == buf[PointBase(i) + 4] % 16
  {
    var b := PointBase(i);
    Coord(buf[b + 2] as int * 16 + buf[b + 4] / 16, buf[b + 3] as int * 16 + buf[b + 4] % 16, buf[b + 5])
  }

  /** Up to five points fit in the 28 bytes the driver reads. */
  lemma PointsFitBuffer(i: nat)
    requires i < MaxReportedPoints
    ensures 2 <= PointBase(i) + 2 && PointBase(i) + 5 <= XyBytes
  {
  }

  /** The fill loop of esp_lcd_touch_cst328_read_data: the first count
      slots are overwritten with the decoded points, the rest are kept. */
  method FillCoords(buf: seq<Byte>, count: nat, coords: seq<Coord>) returns (r: seq<Coord>)
    requires |buf| == XyBytes + 1 && count <= MaxReportedPoints && count <= |coords|
    ensures |r| == |coords|
    ensures forall i :: 0 <= i < count ==> PointBase(i) + 5 < |buf| && r[i] == DecodePoint(buf, i)
    ensures forall i :: count <= i < |coords| ==> r[i] == coords[i]
  {
    r := coords;
    var num := 0;
    var i := 0;
    while i < count
      invariant 0 <= i <= count && |r| == |coords|
      invariant num == (if i > 1 then 2 else 0)
      invariant forall k :: 0 <= k < i ==> PointBase(k) + 5 < |buf| && r[k] == DecodePoint(buf, k)
      invariant forall k :: i <= k < |coords| ==> r[k] == coords[k]
    {
      if i > 0 {
        num := 2;
      }
      PointsFitBuffer(i);
      var x := buf[i * 5 + 2 + num] as int * 16 + buf[i * 5 + 4 + num] / 16;
      var y := buf[i * 5 + 3 + num] as int * 16 + buf[i * 5 + 4 + num] % 16;
      var strength := buf[i * 5 + 5 + num];
      r := r[i := Coord(x, y, strength)];
      i := i + 1;
    }
  }

  /** What a read leaves: the store, how many times the status register
      was cleared, and whether the call reported success. */
  datatype ReadResult = ReadResult(touch: Touch, clears: nat, ok: bool)

  /** esp_lcd_touch_cst328_read_data. read is the count register, None when
      that first read failed; xy the 27 coordinate bytes, None when that read
      failed; clearOk whether the clearing write after it succeeded. */
  method ReadData(t: Touch, maxPoints: nat, read: Option<Byte>, xy: Option<seq<Byte>>, clearOk: bool)
    returns (r: ReadResult)
    requires Valid(t, maxPoints)
    requires xy.Some? ==> |xy.value| == XyBytes
    ensures Valid(r.touch, maxPoints)
    ensures read.None? ==> r == ReadResult(t, 0, false)
    ensures read.Some? ==> var status := read.value;
      status % 16 == 0 || status % 16 > MaxReportedPoints ==> r == ReadResult(t, 1, true)
    ensures read.Some? ==> var status := read.value;
      0 < status % 16 <= MaxReportedPoints && xy.None? ==> r == ReadResult(t, 0, false)
    ensures read.Some? ==> var status := read.value;
      0 < status % 16 <= MaxReportedPoints && xy.Some? && !clearOk ==> r == ReadResult(t, 1, false)
    ensures read.Some? ==> var status := read.value;
      0 < status % 16 <= MaxReportedPoints && xy.Some? && clearOk ==>
      var count := if status % 16 > maxPoints then maxPoints else status % 16;
      var buf := [status] + xy.value;
      && r.ok && r.clears == 1 && r.touch.points == count
      && (forall i :: 0 <= i < count ==> PointBase(i) + 5 < |buf| && r.touch.coords[i] == DecodePoint(buf, i))
      && (forall i :: count <= i < maxPoints ==> r.touch.coords[i] == t.coords[i])
  {
    if read.None? {
      return ReadResult(t, 0, false);
    }
    var status := read.value;
    var touchCount := status % 16;
    if touchCount == 0 {
      return ReadResult(t, 1, true);
    }
    if touchCount > MaxReportedPoints {
      return ReadResult(t, 1, true);
    }
    if xy.None? {
      return ReadResult(t, 0, false);
    }
    if !clearOk {
      return ReadResult(t, 1, false);
    }
    var count := if touchCount > maxPoints then maxPoints else touchCount;
    var coords := FillCoords([status] + xy.value, count, t.coords);
    return ReadResult(Touch(count, coords), 1, true);
  }

  /** What esp_lcd_touch_cst328_get_xy hands over. */
  datatype XyResult = XyResult(touch: Touch, points: seq<Coord>, pointNum: int, found: bool)

  /** esp_lcd_touch_cst328_get_xy: copies at most maxPointNum points and
      invalidates the store. */
  function GetXy(t: Touch, maxPoints: nat, maxPointNum: nat): (r: XyResult)
    requires Valid(t, maxPoints) && maxPointNum > 0
    ensures r.pointNum == (if t.points > maxPointNum then maxPointNum else t.points)
    ensures |r.points| == r.pointNum && r.points == t.coords[..r.pointNum]
    ensures r.found <==> r.pointNum > 0
    ensures r.touch.points == 0 && r.touch.coords == t.coords && Valid(r.touch, maxPoints)
  {
    var n := if t.points > maxPointNum then maxPointNum else t.points;
    XyResult(t.(points := 0), t.coords[..n], n, n > 0)
  }

  /** The points are handed over once: asking again before the next read
      finds nothing. */
  lemma SecondGetFindsNothing(t: Touch, maxPoints: nat, maxPointNum: nat)
    requires Valid(t, maxPoints) && maxPointNum > 0
    ensures !GetXy(GetXy(t, maxPoints, maxPointNum).touch, maxPoints, maxPointNum).found
  {
  }
}
