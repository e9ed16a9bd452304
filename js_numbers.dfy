/**
 * Integer arithmetic as JavaScript performs it where it differs from Dafny's:
 * `%` truncates toward zero, `Math.round` rounds halves up, and `Array.slice`
 * counts a negative end from the back of the array.
 */
module JsNumbers {

  /** `Math.floor(a / b)` for a positive divisor. */
  function FloorDiv(a: int, b: int): (q: int)
    requires b > 0
    ensures b * q <= a < b * q + b
  {
    a / b
  }

  /** `Math.ceil(a / b)` for a positive divisor. */
  function CeilDiv(a: int, b: int): (q: int)
    requires b > 0
    ensures b * q - b < a <= b * q
  {
    -((-a) / b)
  }

  /** `Math.trunc(a / b)`: the quotient rounded toward zero. */
  function TruncDiv(a: int, b: int): (q: int)
    requires b > 0
    ensures a >= 0 ==> q == a / b
    ensures a < 0 ==> q == -((-a) / b)
  {
    if a >= 0 then a / b else -((-a) / b)
  }

  /** JavaScript's `a % b` on integers: the remainder takes the sign of `a`. */
  function TruncMod(a: int, b: int): (r: int)
    requires b > 0
    ensures a == b * TruncDiv(a, b) + r
    ensures a >= 0 ==> 0 <= r < b
    ensures a < 0 ==> -b < r <= 0
  {
    a - b * TruncDiv(a, b)
  }

  /** `Math.round(x)`: the nearest integer, halves rounded toward positive infinity. */
  function Round(x: real): (n: int)
    ensures x - 0.5 < n as real <= x + 0.5
  {
    (x + 0.5).Floor
  }

  lemma PositiveProduct(a: real, b: real)
    requires a > 0.0 && b > 0.0
    ensures a * b > 0.0
  {
  }

  /** A quotient `total / n` whose numerator lies between `n * lo` and `n * hi` rounds into [lo, hi]. */
  lemma RoundedQuotientBounds(total: int, n: int, lo: int, hi: int)
    requires n > 0 && n * lo <= total <= n * hi
    ensures lo as real <= total as real / n as real <= hi as real
    ensures lo <= Round(total as real / n as real) <= hi
  {
    var x := total as real / n as real;
    var m := n as real;
    assert x * m == total as real;
    assert (n * lo) as real == m * lo as real;
    assert (n * hi) as real == m * hi as real;
    if x < lo as real {
      PositiveProduct(lo as real - x, m);
    }
    if x > hi as real {
      PositiveProduct(x - hi as real, m);
    }
  }

  /** `Math.floor(random * n)` for a `Math.random()` reading `random`: an index below `n`. */
  function RandomIndex(random: real, n: nat): (k: nat)
    requires 0.0 <= random < 1.0 && n > 0
    ensures k < n
  {
    var m := n as real;
    PositiveProduct(1.0 - random, m);
    assert random * m >= 0.0 by {
      if random > 0.0 {
        PositiveProduct(random, m);
      }
    }
    (random * m).Floor
  }

  /** The end index at which `slice(0, end)` stops on an array of length `len`. */
  function SliceEnd(len: nat, end: int): (e: nat)
    ensures e <= len
    ensures 0 <= end <= len ==> e == end
    ensures end > len ==> e == len
    ensures end < 0 ==> e == if len + end < 0 then 0 else len + end
  {
    if end < 0 then (if len + end < 0 then 0 else len + end)
    else if end > len then len
    else end
  }

  /** The start index of `slice(-k)` for `k > 0` on an array of length `len`: the last `k` items. */
  function LastStart(len: nat, k: nat): (s: nat)
    requires k > 0
    ensures s <= len
    ensures len - s == if len < k then len else k
  {
    if len < k then 0 else len - k
  }
}
