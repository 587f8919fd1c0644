/** Shared vocabulary: an optional value and the Java numeric conversions the synthesizer relies on. */
module Base {

  datatype Option<T> = None | Some(value: T) {
    function GetOr(default: T): T {
      match this
      case Some(v) => v
      case None => default
    }
  }

  /** Java's `(int)` cast of a double: rounds toward zero. */
  function Trunc(x: real): (r: int)
    ensures 0.0 <= x ==> 0 <= r && r as real <= x < r as real + 1.0
    ensures x < 0.0 ==> r <= 0 && r as real - 1.0 < x <= r as real
  {
    if x >= 0.0 then x.Floor else -((-x).Floor)
  }

  /** Java's `%` on doubles for a positive divisor: the remainder keeps the sign of the dividend. */
  function FMod(x: real, y: real): (r: real)
    requires y > 0.0
    ensures 0.0 <= x ==> 0.0 <= r < y
    ensures x < 0.0 ==> -y < r <= 0.0
    ensures ((x - r) / y).Floor as real == (x - r) / y
  {
    var q := Trunc(x / y) as real;
    assert (x - (x - q * y)) / y == q by {
      assert x - (x - q * y) == q * y;
    }
    if x >= 0.0 then
      assert 0.0 <= x / y;
      QuotientBounds(x, y, q, q + 1.0);
      x - q * y
    else
      QuotientBounds(x, y, q - 1.0, q);
      x - q * y
  }

  /** Bounds on a quotient, multiplied back by the (positive) divisor. */
  lemma QuotientBounds(x: real, y: real, lo: real, hi: real)
    requires y > 0.0
    ensures lo <= x / y ==> lo * y <= x
    ensures lo < x / y ==> lo * y < x
    ensures x / y < hi ==> x < hi * y
    ensures x / y <= hi ==> x <= hi * y
  {
    var d := x / y;
    assert d * y == x;
    assert (d - lo) * y == x - lo * y;
    assert (hi - d) * y == hi * y - x;
    if lo <= d { assert (d - lo) * y >= 0.0; }
    if lo < d { assert (d - lo) * y > 0.0; }
    if d <= hi { assert (hi - d) * y >= 0.0; }
    if d < hi { assert (hi - d) * y > 0.0; }
  }

  const INT_MIN: int := -0x8000_0000
  const INT_MAX: int := 0x7FFF_FFFF

  /** Java `int` arithmetic: the mathematical result reduced into 32-bit two's complement. */
  function Wrap32(x: int): (r: int)
    ensures INT_MIN <= r <= INT_MAX
    ensures INT_MIN <= x <= INT_MAX ==> r == x
  {
    (x - INT_MIN) % 0x1_0000_0000 + INT_MIN
  }

  /** The wrapped value differs from the mathematical one by a multiple of 2^32. */
  lemma Wrap32Congruent(x: int)
    ensures (Wrap32(x) - x) % 0x1_0000_0000 == 0
  {
    var q := (x - INT_MIN) / 0x1_0000_0000;
    assert Wrap32(x) - x == -q * 0x1_0000_0000;
    ModUnique(Wrap32(x) - x, 0x1_0000_0000, -q, 0);
  }

  /** Java's `(byte)` narrowing: keeps the low eight bits as a signed value. */
  function ToByte(v: int): (r: int)
    ensures -128 <= r <= 127
    ensures -128 <= v <= 127 ==> r == v
  {
    (v + 128) % 256 - 128
  }

  /** The narrowed value differs from the original by a multiple of 256. */
  lemma ToByteCongruent(v: int)
    ensures (ToByte(v) - v) % 256 == 0
  {
    var q := (v + 128) / 256;
    assert ToByte(v) - v == -q * 256;
    ModUnique(ToByte(v) - v, 256, -q, 0);
  }

  /** `n` forced into [lo, hi]. */
  function Clamp(n: int, lo: int, hi: int): (r: int)
    requires lo <= hi
    ensures lo <= r <= hi
    ensures lo <= n <= hi ==> r == n
    ensures n < lo ==> r == lo
    ensures hi < n ==> r == hi
  {
    if n < lo then lo else if n > hi then hi else n
  }

  lemma MulNonneg(a: int, b: int)
    requires a >= 0 && b >= 0
    ensures a * b >= 0
  {
  }

  /** Euclidean division is unique: any decomposition x == q*m + r with 0 <= r < m is Dafny's. */
  lemma ModUnique(x: int, m: int, q: int, r: int)
    requires m > 0 && 0 <= r < m && x == q * m + r
    ensures x % m == r && x / m == q
  {
    var q' := x / m;
    var r' := x % m;
    assert x == q' * m + r';
    if q > q' {
      MulNonneg(q - q' - 1, m);
      assert false;
    } else if q < q' {
      MulNonneg(q' - q - 1, m);
      assert false;
    }
  }

  /** Stepping a residue forward by one is stepping the number forward by one. */
  lemma ModSucc(a: int, m: int)
    requires m > 0
    ensures (a % m + 1) % m == (a + 1) % m
  {
    var q := a / m;
    var r := a % m;
    assert a == q * m + r;
    if r + 1 < m {
      ModUnique(r + 1, m, 0, r + 1);
      ModUnique(a + 1, m, q, r + 1);
    } else {
      ModUnique(r + 1, m, 1, 0);
      ModUnique(a + 1, m, q + 1, 0);
    }
  }

  function Min(a: int, b: int): int { if a <= b then a else b }
  function Max(a: int, b: int): int { if a >= b then a else b }
  function MinReal(a: real, b: real): real { if a <= b then a else b }
  function MaxReal(a: real, b: real): real { if a >= b then a else b }

  lemma MulNonnegReal(x: real, y: real)
    requires x >= 0.0 && y >= 0.0
    ensures x * y >= 0.0
  {
  }

  /** A convex combination (1 - t) * x + t * y with t in [0, 1] lies between x and y. */
  lemma ConvexBetween(x: real, y: real, t: real)
    requires 0.0 <= t <= 1.0
    ensures MinReal(x, y) <= (1.0 - t) * x + t * y <= MaxReal(x, y)
  {
    var m := (1.0 - t) * x + t * y;
    assert m - x == t * (y - x);
    assert y - m == (1.0 - t) * (y - x);
    if x <= y {
      MulNonnegReal(t, y - x);
      MulNonnegReal(1.0 - t, y - x);
    } else {
      MulNonnegReal(t, x - y);
      MulNonnegReal(1.0 - t, x - y);
    }
  }

  /** The integers lo, lo+1, ..., hi-1 in increasing order. */
  function Range(lo: int, hi: int): (r: seq<int>)
    requires lo <= hi
    ensures |r| == hi - lo
    ensures forall k :: 0 <= k < |r| ==> r[k] == lo + k
    decreases hi - lo
  {
    if lo == hi then [] else [lo] + Range(lo + 1, hi)
  }
}
