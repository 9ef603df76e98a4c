/// The Q15 sample type: a 16-bit signed integer read as a fraction value / 2^15.
/// Addition and subtraction saturate; multiplication keeps the integer
/// part of the product shifted right by 15 and converts it to int16 WITHOUT
/// saturating.
module FixedPoint {
  import opened Ints

  datatype Q15 = Q15(value: Int16)

  const Zero: Q15 := Q15(0)

  /// Q15::from_raw: the sample whose raw representation is v.
  function FromRaw(v: Int16): (q: Q15)
    ensures Raw(q) == v
  {
    Q15(v)
  }

  /// Q15::raw
  function Raw(q: Q15): Int16
  {
    q.value
  }

  lemma RawFromRawRoundTrip(v: Int16, q: Q15)
    ensures Raw(FromRaw(v)) == v
    ensures FromRaw(Raw(q)) == q
  {
  }

  /// Q15::saturate: clamp a 32-bit intermediate into the int16 range.
  function Saturate(v: int): (r: Int16)
    ensures InInt16(v) <==> r == v
    ensures v > Int16Max ==> r == Int16Max
    ensures v < Int16Min ==> r == Int16Min
  {
    if v > Int16Max then Int16Max
    else if v < Int16Min then Int16Min
    else v
  }

  /// No int16 value lies closer to v than Saturate(v).
  lemma SaturateIsNearest(v: int, y: Int16)
    ensures Abs(Saturate(v) - v) <= Abs(y - v)
  {
  }

  lemma SaturateMonotonic(a: int, b: int)
    requires a <= b
    ensures Saturate(a) <= Saturate(b)
  {
  }

  /// Q15::operator+: exact whenever the sum is representable, otherwise the
  /// bound on the side of the overflow; it never wraps.
  function Add(a: Q15, b: Q15): (r: Q15)
    ensures InInt16(a.value + b.value) ==> r.value == a.value + b.value
    ensures a.value + b.value > Int16Max ==> r.value == Int16Max
    ensures a.value + b.value < Int16Min ==> r.value == Int16Min
  {
    FromRaw(Saturate(a.value + b.value))
  }

  lemma AddCommutative(a: Q15, b: Q15)
    ensures Add(a, b) == Add(b, a)
  {
  }

  lemma AddZeroIdentity(a: Q15)
    ensures Add(a, Zero) == a && Add(Zero, a) == a
  {
  }

  /// Q15::operator-: exact whenever the difference is representable,
  /// otherwise the bound on the side of the overflow.
  function Sub(a: Q15, b: Q15): (r: Q15)
    ensures InInt16(a.value - b.value) ==> r.value == a.value - b.value
    ensures a.value - b.value > Int16Max ==> r.value == Int16Max
    ensures a.value - b.value < Int16Min ==> r.value == Int16Min
  {
    FromRaw(Saturate(a.value - b.value))
  }

  lemma SubZeroIdentity(a: Q15)
    ensures Sub(a, Zero) == a
  {
  }

  /// The product of two int16 values lies in [-2^30 + 2^15, 2^30 - 2^15],
  /// except for (-2^15) * (-2^15) = 2^30.
  lemma ProductBounds(a: int, b: int)
    requires InInt16(a) && InInt16(b) && !(a == Int16Min && b == Int16Min)
    ensures -0x3FFF_8000 <= a * b <= 0x3FFF_8000
  {
    if a >= 0 && b >= 0 {
      MulMonotonic(a, b, 0x7FFF, 0x7FFF);
    } else if a < 0 && b < 0 {
      if a == Int16Min {
        MulMonotonic(-a, -b, 0x8000, 0x7FFF);
      } else {
        MulMonotonic(-a, -b, 0x7FFF, 0x8000);
      }
      assert a * b == (-a) * (-b);
    } else if a < 0 {
      MulMonotonic(-a, b, 0x8000, 0x7FFF);
      assert a * b == -((-a) * b);
    } else {
      MulMonotonic(a, -b, 0x7FFF, 0x8000);
      assert a * b == -(a * (-b));
    }
  }

  lemma MulMonotonic(a: nat, b: nat, c: nat, d: nat)
    requires a <= c && b <= d
    ensures a * b <= c * d
  {
    assert a * b <= c * b;
    assert c * b <= c * d;
  }

  /// Q15::operator*: the 32-bit product shifted right by 15 (an arithmetic
  /// shift, which floors) and converted to int16. For every pair except
  /// (-1.0) * (-1.0) the shifted product already fits, so the result is the
  /// floor of a*b / 2^15; for that one pair it wraps to -32768.
  function Mul(a: Q15, b: Q15): (r: Q15)
    ensures !(a.value == Int16Min && b.value == Int16Min) ==>
              r.value * 0x8000 <= a.value * b.value < r.value * 0x8000 + 0x8000
    ensures a.value == Int16Min && b.value == Int16Min ==> r.value == Int16Min
  {
    var p := a.value * b.value;
    if !(a.value == Int16Min && b.value == Int16Min) then
      ProductBounds(a.value, b.value);
      FromRaw(Wrap16(p / 0x8000))
    else
      FromRaw(Wrap16(p / 0x8000))
  }

  lemma MulCommutative(a: Q15, b: Q15)
    ensures Mul(a, b) == Mul(b, a)
  {
  }

  lemma MulByZero(a: Q15)
    ensures Mul(a, Zero) == Zero && Mul(Zero, a) == Zero
  {
  }

  /// (-1.0) * (-1.0) gives -1.0: the raw product 2^30 >> 15 = 32768 wraps,
  /// where saturation would have given 32767.
  lemma MulMinByMinWraps()
    ensures Mul(Q15(Int16Min), Q15(Int16Min)) == Q15(Int16Min)
    ensures Saturate(Int16Min * Int16Min / 0x8000) == Int16Max
  {
  }

  /// The shift floors rather than truncating toward zero: raw 1 times raw -1
  /// is -1, not 0.
  lemma MulSmallNegativeFloors()
    ensures Mul(Q15(1), Q15(-1)) == Q15(-1)
  {
  }

  /// Truncation toward zero, as a float-to-integer conversion performs it.
  function Truncate(x: real): (n: int)
    ensures Abs(n) as real <= (if x < 0.0 then -x else x) < Abs(n) as real + 1.0
    ensures n != 0 ==> (n < 0 <==> x < 0.0)
  {
    if x >= 0.0 then x.Floor else -((-x).Floor)
  }

  /// The float constructor Q15(f): f scaled by 2^15 and truncated toward
  /// zero. The conversion is defined only when the truncated value fits int16
  /// ([conv.fpint] of C++20), hence the precondition.
  function FromReal(f: real): (q: Q15)
    requires -32769.0 < f * 32768.0 < 32768.0
    ensures f >= 0.0 ==> q.value as real <= f * 32768.0 < q.value as real + 1.0
    ensures f < 0.0 ==> q.value as real - 1.0 < f * 32768.0 <= q.value as real
  {
    Q15(Truncate(f * 32768.0))
  }

  /// Q15::to_float
  function ToReal(q: Q15): (r: real)
    ensures -1.0 <= r < 1.0
    ensures r * 32768.0 == q.value as real
  {
    q.value as real / 32768.0
  }

  /// Converting a real in range to Q15 and back loses less than one unit of
  /// 2^-15.
  lemma FromRealToReal(f: real)
    requires -32769.0 < f * 32768.0 < 32768.0
    ensures -1.0 / 32768.0 < ToReal(FromReal(f)) - f < 1.0 / 32768.0
  {
    var q := FromReal(f);
    assert ToReal(q) * 32768.0 == q.value as real;
    assert -1.0 < q.value as real - f * 32768.0 < 1.0;
  }

  /// The values used by the fixed-point unit test: 0.5 and 0.25 become raw
  /// 16384 and 8192, whose sum, difference and product are 24576 (0.75),
  /// 8192 (0.25) and 4096 (0.125).
  lemma ArithmeticExamples()
    ensures FromReal(0.5) == Q15(16384) && FromReal(0.25) == Q15(8192)
    ensures FromReal(-0.5) == Q15(-16384)
    ensures Add(Q15(16384), Q15(8192)) == Q15(24576)
    ensures Sub(Q15(16384), Q15(8192)) == Q15(8192)
    ensures Mul(Q15(16384), Q15(8192)) == Q15(4096)
  {
  }
}
