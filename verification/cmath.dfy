/** C arithmetic the firmware relies on, written out over Dafny's unbounded
    numbers: conversion of a floating value to an integer truncates toward
    zero, integer division and remainder truncate, and unsigned stores
    wrap. */
module CMath {

  /** (int)x: the integer part of x, rounding toward zero. */
  function Trunc(x: real): (n: int)
    ensures x >= 0.0 ==> n as real <= x < n as real + 1.0
    ensures x < 0.0 ==> n as real - 1.0 < x <= n as real
  {
    if x >= 0.0 then x.Floor else -((-x).Floor)
  }

  function Abs(x: real): (a: real)
    ensures a >= 0.0 && (a == x || a == -x)
  {
    if x < 0.0 then -x else x
  }

  function AbsInt(x: int): (a: int)
    ensures a >= 0 && (a == x || a == -x)
  {
    if x < 0 then -x else x
  }

  /** Integer division as C performs it: the quotient truncates toward
      zero, so its size is the floor of |a| / |b| and its sign is the
      product of the operands' signs. */
  function CDiv(a: int, b: int): (q: int)
    requires b != 0
    ensures AbsInt(q) == AbsInt(a) / AbsInt(b)
    ensures q > 0 ==> (a < 0) == (b < 0)
    ensures q < 0 ==> (a < 0) != (b < 0)
    ensures AbsInt(q * b) <= AbsInt(a)
    ensures a >= 0 && b > 0 ==> q == a / b
  {
    var mag := AbsInt(a) / AbsInt(b);
    DivBound(AbsInt(a), AbsInt(b));
    var q := if (a < 0) == (b < 0) then mag else -mag;
    SignedProduct(q, b, mag);
    q
  }

  lemma DivBound(a: int, b: int)
    requires a >= 0 && b > 0
    ensures 0 <= (a / b) * AbsInt(b) <= a
  {
  }

  /** The size of a product is the product of the sizes. */
  lemma SignedProduct(q: int, b: int, mag: int)
    requires mag >= 0 && (q == mag || q == -mag)
    ensures AbsInt(q * b) == mag * AbsInt(b)
  {
    if q == -mag {
      assert q * b == -(mag * b);
    }
    if b < 0 {
      assert mag * b == -(mag * AbsInt(b));
    }
  }

  /** The quotient times the divisor is |a| rounded down to a multiple of
      |b|, carrying the sign of a. */
  lemma QuotientTimesDivisor(a: int, b: int)
    requires b != 0
    ensures var m := (AbsInt(a) / AbsInt(b)) * AbsInt(b);
      CDiv(a, b) * b == (if a < 0 then -m else m)
  {
    var mag := AbsInt(a) / AbsInt(b);
    if b < 0 {
      assert mag * b == -(mag * AbsInt(b));
    }
    if (a < 0) != (b < 0) {
      assert CDiv(a, b) * b == -(mag * b);
    }
  }

  /** a % b as C computes it: the remainder takes the sign of a, and with
      the truncating quotient it rebuilds a. */
  function CRem(a: int, b: int): (r: int)
    requires b != 0
    ensures a == CDiv(a, b) * b + r
    ensures AbsInt(r) < AbsInt(b)
    ensures a >= 0 ==> r >= 0
    ensures a < 0 ==> r <= 0
    ensures a >= 0 && b > 0 ==> r == a % b
  {
    var m := AbsInt(a) % AbsInt(b);
    QuotientTimesDivisor(a, b);
    if a < 0 then -m else m
  }

  /** Storing an int into a uint8_t, uint16_t or uint32_t keeps the low
      bits: the stored value is the one in range that differs from x by a
      multiple of the type's modulus. */
  function U8(x: int): (b: int)
    ensures 0 <= b < 256
    ensures (x - b) % 256 == 0
    ensures 0 <= x < 256 ==> b == x
  {
    x % 256
  }

  function U16(x: int): (w: int)
    ensures 0 <= w < 65536
    ensures (x - w) % 65536 == 0
    ensures 0 <= x < 65536 ==> w == x
  {
    x % 65536
  }

  function U32(x: int): (w: int)
    ensures 0 <= w < 0x1_0000_0000
    ensures (x - w) % 0x1_0000_0000 == 0
    ensures 0 <= x < 0x1_0000_0000 ==> w == x
  {
    x % 0x1_0000_0000
  }
}
