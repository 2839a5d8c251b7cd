/** Arithmetic the analysis code does with Python floats, stated over `real`:
    sums from the left, means with a 0.0 default, clamping, Python's
    `round(x, d)` (round half to even) and `max`/`min` with a key, which
    return the first element attaining the extreme. */
module Numeric {

  /** `sum(s)`, accumulated from the left as Python does. */
  function Sum(s: seq<real>): real
    decreases |s|
  {
    if s == [] then 0.0 else Sum(s[..|s| - 1]) + s[|s| - 1]
  }

  lemma {:induction false} SumBounds(s: seq<real>, lo: real, hi: real)
    requires forall i :: 0 <= i < |s| ==> lo <= s[i] <= hi
    ensures |s| as real * lo <= Sum(s) <= |s| as real * hi
    decreases |s|
  {
    if s != [] {
      SumBounds(s[..|s| - 1], lo, hi);
    }
  }

  lemma {:induction false} SumConstant(s: seq<real>, c: real)
    requires forall i :: 0 <= i < |s| ==> s[i] == c
    ensures Sum(s) == |s| as real * c
    decreases |s|
  {
    if s != [] {
      SumConstant(s[..|s| - 1], c);
    }
  }

  lemma {:induction false} SumNonNegative(s: seq<real>)
    requires forall i :: 0 <= i < |s| ==> 0.0 <= s[i]
    ensures 0.0 <= Sum(s)
    decreases |s|
  {
    if s != [] {
      SumNonNegative(s[..|s| - 1]);
    }
  }

  /** `sum(s) / len(s) if s else 0.0`. */
  function Mean(s: seq<real>): (m: real)
    ensures s == [] ==> m == 0.0
    ensures s != [] ==> m * |s| as real == Sum(s)
  {
    if s == [] then 0.0 else Sum(s) / |s| as real
  }

  /** A mean never leaves the range of the values it averages. */
  lemma MeanWithin(s: seq<real>, lo: real, hi: real)
    requires s != []
    requires forall i :: 0 <= i < |s| ==> lo <= s[i] <= hi
    ensures lo <= Mean(s) <= hi
  {
    SumBounds(s, lo, hi);
    var n, m := |s| as real, Mean(s);
    assert m * n == Sum(s);
    if m < lo {
      ScaleStrict(m, lo, n);
    }
    if m > hi {
      ScaleStrict(hi, m, n);
    }
  }

  /** A total bounded by k per unit of weight, divided by the weight, is
      bounded by k. */
  lemma QuotientWithin(w: real, n: real, k: real)
    requires n > 0.0
    requires -k * n <= w <= k * n
    ensures -k <= w / n <= k
  {
    var q := w / n;
    assert q * n == w;
    if q > k {
      ScaleStrict(k, q, n);
    }
    if q < -k {
      ScaleStrict(q, -k, n);
    }
  }

  lemma ScaleStrict(a: real, b: real, c: real)
    requires a < b && c > 0.0
    ensures a * c < b * c
  {
  }

  /** The mean of a constant series is that constant. */
  lemma MeanConstant(s: seq<real>, c: real)
    requires s != []
    requires forall i :: 0 <= i < |s| ==> s[i] == c
    ensures Mean(s) == c
  {
    SumConstant(s, c);
  }

  function Min(a: real, b: real): real { if a <= b then a else b }

  function Max(a: real, b: real): real { if a >= b then a else b }

  /** `max(lo, min(hi, x))`, the bounding idiom of both analyzers. */
  function Clamp(x: real, lo: real, hi: real): (r: real)
    ensures lo <= hi ==> lo <= r <= hi
    ensures lo <= x <= hi ==> r == x
    ensures hi < x && lo <= hi ==> r == hi
    ensures x < lo ==> r == lo
  {
    Max(lo, Min(hi, x))
  }

  function Pow10(d: nat): (p: nat)
    ensures p >= 1
  {
    if d == 0 then 1 else 10 * Pow10(d - 1)
  }

  /** The integer nearest to y, ties going to the even one. */
  function RoundHalfEven(y: real): (n: int)
    ensures -0.5 <= n as real - y <= 0.5
  {
    var f := y.Floor;
    var frac := y - f as real;
    if frac > 0.5 || (frac == 0.5 && f % 2 != 0) then f + 1 else f
  }

  /** Python's `round(x, digits)`: the nearest multiple of 10^-digits, ties
      going to the even neighbour, applied here to the exact real value. */
  function Round(x: real, digits: nat): (r: real)
    ensures x - 0.5 / Pow10(digits) as real <= r <= x + 0.5 / Pow10(digits) as real
    ensures 0.0 <= x <= 1.0 ==> 0.0 <= r <= 1.0
  {
    RoundToWithin(x, Pow10(digits), 0, 1);
    RoundTo(x, Pow10(digits) as real)
  }

  /** The nearest multiple of 1/p, ties to the even multiple. */
  function RoundTo(x: real, p: real): (r: real)
    requires p >= 1.0
    ensures x - 0.5 / p <= r <= x + 0.5 / p
  {
    RoundedNear(x, p, RoundHalfEven(x * p));
    RoundHalfEven(x * p) as real / p
  }

  /** Rounding never leaves an interval with whole-number ends. */
  lemma RoundWithin(x: real, digits: nat, lo: int, hi: int)
    requires lo as real <= x <= hi as real
    ensures lo as real <= Round(x, digits) <= hi as real
  {
    RoundToWithin(x, Pow10(digits), lo, hi);
  }

  lemma RoundToWithin(x: real, q: nat, lo: int, hi: int)
    requires q >= 1
    ensures lo as real <= x <= hi as real ==> lo as real <= RoundTo(x, q as real) <= hi as real
  {
    RoundedWithin(x, q as real, q, RoundHalfEven(x * q as real), lo, hi);
  }

  /** A whole number rounds to itself. */
  lemma RoundWhole(k: int, digits: nat)
    ensures Round(k as real, digits) == k as real
  {
    var q := Pow10(digits);
    RoundToWhole(k, q, q as real);
  }

  lemma RoundToWhole(k: int, q: nat, p: real)
    requires q >= 1 && p == q as real
    ensures RoundTo(k as real, p) == k as real
  {
    var m := k * q;
    var x := k as real;
    CastProduct(k, q, p);
    assert (m as real).Floor == m;
    var n := RoundHalfEven(x * p);
    assert n == m;
    RoundToIs(x, p);
    assert RoundTo(x, p) == n as real / p;
    CancelScale(x, p);
    assert n as real == x * p;
  }

  lemma RoundToIs(x: real, p: real)
    requires p >= 1.0
    ensures RoundTo(x, p) == RoundHalfEven(x * p) as real / p
  {
  }

  /** Rounding never reverses an order. */
  lemma RoundMonotone(x: real, y: real, digits: nat)
    requires x <= y
    ensures Round(x, digits) <= Round(y, digits)
  {
    RoundToMonotone(x, y, Pow10(digits) as real);
  }

  lemma RoundToMonotone(x: real, y: real, p: real)
    requires p >= 1.0 && x <= y
    ensures RoundTo(x, p) <= RoundTo(y, p)
  {
    ScaleMonotone(x, y, p);
    RoundHalfEvenMonotone(x * p, y * p);
    QuotientMonotone(RoundHalfEven(x * p) as real, RoundHalfEven(y * p) as real, p);
    RoundToIs(x, p);
    RoundToIs(y, p);
  }

  lemma RoundHalfEvenMonotone(x: real, y: real)
    requires x <= y
    ensures RoundHalfEven(x) <= RoundHalfEven(y)
  {
    var fx, fy := x.Floor, y.Floor;
    assert fx <= fy;
    if fx == fy {
      assert x - fx as real <= y - fy as real;
    }
  }

  /** An integer within 1/2 of x*p, divided by p > 0, is within 1/(2p) of x. */
  lemma RoundedNear(x: real, p: real, n: int)
    requires p >= 1.0
    requires -0.5 <= n as real - x * p <= 0.5
    ensures x - 0.5 / p <= n as real / p <= x + 0.5 / p
  {
    assert n as real / p - x == (n as real - x * p) / p;
    QuotientMonotone(-0.5, n as real - x * p, p);
    QuotientMonotone(n as real - x * p, 0.5, p);
  }

  /** ... and, when p is the whole number q, stays between the whole numbers
      that bound x. */
  lemma RoundedWithin(x: real, p: real, q: nat, n: int, lo: int, hi: int)
    requires q >= 1 && p == q as real
    requires -0.5 <= n as real - x * p <= 0.5
    ensures lo as real <= x <= hi as real ==> lo as real <= n as real / p <= hi as real
  {
    if lo as real <= x <= hi as real {
      RoundedAbove(x, p, q, n, lo);
      RoundedBelow(x, p, q, n, hi);
    }
  }

  lemma RoundedAbove(x: real, p: real, q: nat, n: int, lo: int)
    requires q >= 1 && p == q as real
    requires -0.5 <= n as real - x * p && lo as real <= x
    ensures lo as real <= n as real / p
  {
    ScaleMonotone(lo as real, x, p);
    CastProduct(lo, q, p);
    assert (lo * q) as real - 0.5 <= n as real;
    assert lo * q <= n;
    QuotientMonotone((lo * q) as real, n as real, p);
    CancelScale(lo as real, p);
  }

  lemma RoundedBelow(x: real, p: real, q: nat, n: int, hi: int)
    requires q >= 1 && p == q as real
    requires n as real - x * p <= 0.5 && x <= hi as real
    ensures n as real / p <= hi as real
  {
    ScaleMonotone(x, hi as real, p);
    CastProduct(hi, q, p);
    assert n as real <= (hi * q) as real + 0.5;
    assert n <= hi * q;
    QuotientMonotone(n as real, (hi * q) as real, p);
    CancelScale(hi as real, p);
  }

  lemma CastProduct(a: int, q: nat, p: real)
    requires p == q as real
    ensures (a * q) as real == a as real * p
  {
  }

  lemma SelfQuotient(d: real)
    requires d > 0.0
    ensures d / d == 1.0
  {
  }

  lemma CancelScale(a: real, p: real)
    requires p > 0.0
    ensures a * p / p == a
  {
  }

  lemma QuotientMonotone(a: real, b: real, c: real)
    requires a <= b && c > 0.0
    ensures a / c <= b / c
  {
  }

  lemma SquareNonNegative(d: real)
    ensures d * d >= 0.0
  {
    if d < 0.0 {
      assert d * d == (-d) * (-d);
      ScaleMonotone(0.0, -d, -d);
    } else {
      ScaleMonotone(0.0, d, d);
    }
  }

  lemma SquarePositive(d: real)
    requires d != 0.0
    ensures d * d > 0.0
  {
    if d < 0.0 {
      assert d * d == (-d) * (-d);
      StrictScale(-d, -d);
    } else {
      StrictScale(d, d);
    }
  }

  lemma StrictScale(a: real, b: real)
    requires a > 0.0 && b > 0.0
    ensures a * b > 0.0
  {
  }

  lemma ScaleMonotone(a: real, b: real, c: real)
    requires a <= b && 0.0 <= c
    ensures a * c <= b * c
  {
  }

  lemma IntWithinHalf(n: int, lo: int, hi: int)
    requires lo as real - 0.5 <= n as real <= hi as real + 0.5
    ensures lo <= n <= hi
  {
  }

  /** Index of the first element attaining the maximum, as Python's
      `max(range(len(s)), key=s.__getitem__)` and `s.index(max(s))` pick it. */
  function FirstMaxIndex(s: seq<real>): (k: nat)
    requires s != []
    ensures k < |s|
    ensures forall j :: 0 <= j < |s| ==> s[j] <= s[k]
    ensures forall j :: 0 <= j < k ==> s[j] < s[k]
    decreases |s|
  {
    if |s| == 1 then 0
    else
      var k := FirstMaxIndex(s[..|s| - 1]);
      if s[|s| - 1] > s[k] then |s| - 1 else k
  }

  /** Index of the first element attaining the minimum. */
  function FirstMinIndex(s: seq<real>): (k: nat)
    requires s != []
    ensures k < |s|
    ensures forall j :: 0 <= j < |s| ==> s[k] <= s[j]
    ensures forall j :: 0 <= j < k ==> s[k] < s[j]
    decreases |s|
  {
    if |s| == 1 then 0
    else
      var k := FirstMinIndex(s[..|s| - 1]);
      if s[|s| - 1] < s[k] then |s| - 1 else k
  }

  /** A mean lies between the least and the greatest of its values. */
  lemma MeanBetweenExtremes(s: seq<real>)
    requires s != []
    ensures s[FirstMinIndex(s)] <= Mean(s) <= s[FirstMaxIndex(s)]
  {
    MeanWithin(s, s[FirstMinIndex(s)], s[FirstMaxIndex(s)]);
  }
}
