/** Integer and rounding behaviour of C++ and Qt that the generators rely on. */
module CppSemantics {

  /** std::numeric_limits<qint32>::max() */
  const INT32_MAX: int := 0x7fff_ffff

  function Abs(a: int): int
  {
    if a < 0 then -a else a
  }

  /** Dafny's `%` is Euclidean; this is the uniqueness of its remainder. */
  lemma ModUnique(a: int, m: int, q: int, r: int)
    requires m > 0 && 0 <= r < m && a == q * m + r
    ensures a % m == r
  {
    var d := q - a / m;
    assert d * m == a % m - r;
  }

  /**
   * C++ `a % b` on integers: the quotient truncates toward zero, so a
   * non-zero remainder takes the sign of `a` (C++11, [expr.mul]).
   */
  function Rem(a: int, b: int): (r: int)
    requires b != 0
    ensures a >= 0 ==> 0 <= r < Abs(b)
    ensures a < 0 ==> -Abs(b) < r <= 0
    ensures (a - r) % Abs(b) == 0
  {
    var m := Abs(b);
    var r := if a >= 0 then a % m else -((-a) % m);
    RemDivides(a, m, r);
    r
  }

  lemma RemDivides(a: int, m: int, r: int)
    requires m > 0 && r == if a >= 0 then a % m else -((-a) % m)
    ensures (a - r) % m == 0
  {
    if a >= 0 {
      ModUnique(a - r, m, a / m, 0);
    } else {
      ModUnique(a - r, m, -((-a) / m), 0);
    }
  }

  /** How the C++ remainder relates to Dafny's Euclidean one for a positive modulus. */
  lemma RemMatchesEuclidean(a: int, m: int)
    requires m > 0
    ensures Rem(a, m) == if a >= 0 || a % m == 0 then a % m else a % m - m
  {
    if a < 0 {
      var q, s := (-a) / m, (-a) % m;
      assert -a == q * m + s;
      assert Rem(a, m) == -s;
      if s == 0 {
        ModUnique(a, m, -q, 0);
      } else {
        assert a == (-q - 1) * m + (m - s);
        ModUnique(a, m, -q - 1, m - s);
      }
    }
  }

  /** Qt's qBound(min, val, max), that is qMax(min, qMin(max, val)). */
  function Bound(lo: real, v: real, hi: real): (r: real)
    requires lo <= hi
    ensures lo <= r <= hi
    ensures lo <= v <= hi ==> r == v
    ensures v < lo ==> r == lo
    ensures hi < v ==> r == hi
  {
    var upper := if hi < v then hi else v;
    if lo < upper then upper else lo
  }
}
