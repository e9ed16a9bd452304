/**
 * Java's `String.hashCode`: the polynomial `s[0]*31^(n-1) + ... + s[n-1]`
 * over the string's UTF-16 code units, computed in 32-bit two's-complement
 * arithmetic that wraps around.
 */
module JavaString {

  const TWO_32: int := 0x1_0000_0000
  const TWO_31: int := 0x8000_0000

  /** Wraps an integer into the range of a Java `int`. */
  function ToInt32(x: int): (r: int)
    ensures -TWO_31 <= r < TWO_31
    ensures (r - x) % TWO_32 == 0
  {
    var m := x % TWO_32;
    if m >= TWO_31 then m - TWO_32 else m
  }

  /** The UTF-16 code units of one character: a surrogate pair above U+FFFF. */
  function CodeUnits(c: char): (u: seq<int>)
    ensures 1 <= |u| <= 2 && forall i :: 0 <= i < |u| ==> 0 <= u[i] < 0x1_0000
  {
    var v := c as int;
    if v < 0x1_0000 then [v]
    else [0xD800 + (v - 0x1_0000) / 0x400, 0xDC00 + (v - 0x1_0000) % 0x400]
  }

  function Utf16(s: string): (u: seq<int>)
    ensures |u| >= |s|
  {
    if s == [] then [] else Utf16(s[..|s| - 1]) + CodeUnits(s[|s| - 1])
  }

  /** `h = 31 * h + unit` over the code units, each step wrapped to 32 bits. */
  function HashUnits(u: seq<int>): int
  {
    if u == [] then 0 else ToInt32(31 * HashUnits(u[..|u| - 1]) + u[|u| - 1])
  }

  /** The same polynomial in unbounded integers. */
  function Polynomial(u: seq<int>): int
  {
    if u == [] then 0 else 31 * Polynomial(u[..|u| - 1]) + u[|u| - 1]
  }

  /** `s.hashCode()`. */
  function HashCode(s: string): (h: int)
    ensures -TWO_31 <= h < TWO_31
  {
    if s == [] then 0 else HashUnits(Utf16(s))
  }

  lemma WrapCongruent(x: int, y: int)
    requires (x - y) % TWO_32 == 0
    ensures ToInt32(x) == ToInt32(y)
  {
    var k := (x - y) / TWO_32;
    assert x == y + TWO_32 * k;
    assert x % TWO_32 == y % TWO_32;
  }

  /** Wrapping after every step gives the unbounded polynomial wrapped once. */
  lemma {:induction false} HashIsWrappedPolynomial(u: seq<int>)
    ensures HashUnits(u) == ToInt32(Polynomial(u))
  {
    if u != [] {
      var p := u[..|u| - 1];
      HashIsWrappedPolynomial(p);
      var h := HashUnits(p);
      var q := Polynomial(p);
      var d := (h - q) / TWO_32;
      assert h - q == TWO_32 * d;
      assert (31 * h + u[|u| - 1]) - (31 * q + u[|u| - 1]) == TWO_32 * (31 * d);
      WrapCongruent(31 * h + u[|u| - 1], 31 * q + u[|u| - 1]);
    }
  }

  lemma HashOfPair(a: int, b: int)
    requires 0 <= a < 0x1_0000 && 0 <= b < 0x1_0000
    ensures HashUnits([a, b]) == 31 * a + b
  {
    assert [a, b][..1] == [a];
    assert [a][..0] == [];
    assert HashUnits([a]) == ToInt32(a);
    assert ToInt32(a) == a;
    assert ToInt32(31 * a + b) == 31 * a + b;
  }

  /** Two different names can share a hash code, the classic pair being "Aa" and "BB". */
  lemma Collision()
    ensures "Aa" != "BB" && HashCode("Aa") == HashCode("BB") == 2112
  {
    assert Utf16("Aa") == [65, 97] by { assert "Aa"[..1] == "A"; assert "A"[..0] == ""; }
    assert Utf16("BB") == [66, 66] by { assert "BB"[..1] == "B"; assert "B"[..0] == ""; }
    HashOfPair(65, 97);
    HashOfPair(66, 66);
  }
}
