/// Integer widths used by the C++ source. The model computes on unbounded
/// integers and writes every narrowing conversion out explicitly, so that a
/// wrap-around in the source is a visible function here.
module Ints {

  const Int16Min: int := -0x8000
  const Int16Max: int := 0x7FFF

  /// int16_t
  type Int16 = v: int | -0x8000 <= v <= 0x7FFF

  /// uint8_t, uint16_t, uint32_t
  type Byte = v: int | 0 <= v < 0x100
  type U16 = v: int | 0 <= v < 0x1_0000
  type U32 = v: int | 0 <= v < 0x1_0000_0000

  predicate InInt16(v: int) { Int16Min <= v <= Int16Max }

  predicate InInt32(v: int) { -0x8000_0000 <= v < 0x8000_0000 }

  function Abs(v: int): (r: nat)
    ensures r == v || r == -v
  {
    if v < 0 then -v else v
  }

  /// The conversion static_cast<int16_t>(v) of an integer that may be out of
  /// range: the int16 value congruent to v modulo 2^16 ([conv.integral] of C++20).
  function Wrap16(v: int): (r: Int16)
    ensures (r - v) % 0x1_0000 == 0
    ensures InInt16(v) ==> r == v
  {
    (v + 0x8000) % 0x1_0000 - 0x8000
  }

  /// The int16 value congruent to v modulo 2^16 is unique, so Wrap16 is the
  /// only conversion with the two properties above.
  lemma Wrap16Unique(v: int, r: int)
    requires InInt16(r) && (r - v) % 0x1_0000 == 0
    ensures r == Wrap16(v)
  {
    var k := (r - v) / 0x1_0000;
    assert r - v == 0x1_0000 * k;
    var k' := (Wrap16(v) - v) / 0x1_0000;
    assert Wrap16(v) - v == 0x1_0000 * k';
    assert r - Wrap16(v) == 0x1_0000 * (k - k');
  }

  /// Two's-complement wrap to the int32 range: what a 32-bit signed
  /// accumulator holds after an addition that leaves that range.
  function Wrap32(v: int): (r: int)
    ensures InInt32(r)
    ensures (r - v) % 0x1_0000_0000 == 0
    ensures InInt32(v) ==> r == v
  {
    (v + 0x8000_0000) % 0x1_0000_0000 - 0x8000_0000
  }

  /// Wrapping after every addition gives the same value as wrapping once at
  /// the end, so a wrapping accumulator holds the wrapped exact sum.
  lemma Wrap32Add(a: int, b: int)
    ensures Wrap32(Wrap32(a) + b) == Wrap32(a + b)
  {
    var m := 0x1_0000_0000;
    var x, y := Wrap32(Wrap32(a) + b), Wrap32(a + b);
    var i := (Wrap32(a) - a) / m;
    assert Wrap32(a) - a == m * i;
    var j := (x - (Wrap32(a) + b)) / m;
    assert x - (Wrap32(a) + b) == m * j;
    var k := (y - (a + b)) / m;
    assert y - (a + b) == m * k;
    assert x - y == m * (i + j - k);
    assert -m < x - y < m;
  }
}
