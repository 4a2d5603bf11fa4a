/** Python's `min`, `max` and `abs` on numbers, as used throughout the model. */
module Numbers {

  function Min(a: real, b: real): (r: real)
    ensures r <= a && r <= b && (r == a || r == b)
  {
    if a <= b then a else b
  }

  function Max(a: real, b: real): (r: real)
    ensures r >= a && r >= b && (r == a || r == b)
  {
    if a >= b then a else b
  }

  function Abs(a: real): (r: real)
    ensures r >= 0.0 && (r == a || r == -a)
  {
    if a < 0.0 then -a else a
  }

  function MinInt(a: int, b: int): (r: int)
    ensures r <= a && r <= b && (r == a || r == b)
  {
    if a <= b then a else b
  }

  function MaxInt(a: int, b: int): (r: int)
    ensures r >= a && r >= b && (r == a || r == b)
  {
    if a >= b then a else b
  }

  /** `max(lo, min(hi, x))` */
  function ClampInt(x: int, lo: int, hi: int): (r: int)
    requires lo <= hi
    ensures lo <= r <= hi
    ensures lo <= x <= hi ==> r == x
  {
    MaxInt(lo, MinInt(hi, x))
  }

  /** Python's `sum` over a list of numbers. */
  function Sum(xs: seq<real>): real {
    if xs == [] then 0.0 else Sum(xs[..|xs| - 1]) + xs[|xs| - 1]
  }

  /** `sum` taken from the front. */
  lemma {:induction false} SumFront(xs: seq<real>)
    requires xs != []
    ensures Sum(xs) == xs[0] + Sum(xs[1..])
  {
    if |xs| > 1 {
      var init := xs[..|xs| - 1];
      SumFront(init);
      assert init[1..] == xs[1..][..|xs[1..]| - 1];
    }
  }

  /** A sum of non-negative numbers is non-negative. */
  lemma {:induction false} SumNonNegative(xs: seq<real>)
    requires forall i :: 0 <= i < |xs| ==> xs[i] >= 0.0
    ensures Sum(xs) >= 0.0
  {
    if xs != [] {
      SumNonNegative(xs[..|xs| - 1]);
    }
  }

  /** Extending a slice by one element at the end adds that element. */
  lemma SumExtend(xs: seq<real>, lo: nat, hi: nat)
    requires lo <= hi < |xs|
    ensures Sum(xs[lo..hi + 1]) == Sum(xs[lo..hi]) + xs[hi]
  {
    assert xs[lo..hi + 1][..hi - lo] == xs[lo..hi];
  }

  /** Dropping the first element of a slice subtracts it. */
  lemma SumDropFirst(xs: seq<real>, lo: nat, hi: nat)
    requires lo < hi <= |xs|
    ensures Sum(xs[lo + 1..hi]) == Sum(xs[lo..hi]) - xs[lo]
  {
    SumFront(xs[lo..hi]);
    assert xs[lo..hi][1..] == xs[lo + 1..hi];
  }

  /** Multiplying by a non-negative factor keeps the order. */
  lemma MulMonotone(k: real, a: real, b: real)
    requires 0.0 <= k && a <= b
    ensures k * a <= k * b
  {
    assert k * b - k * a == k * (b - a);
  }

  lemma ProductNonNegative(a: real, b: real)
    requires 0.0 <= a && 0.0 <= b
    ensures 0.0 <= a * b
  {
    MulMonotone(a, 0.0, b);
  }

  /** Dividing a positive number by one at least 1 leaves a positive number no larger. */
  lemma QuotientBelow(a: real, b: real)
    requires 0.0 < a && 1.0 <= b
    ensures 0.0 < a / b <= a
  {
    var q := a / b;
    assert q * b == a;
    if q > a {
      MulMonotone(q, 1.0, b);
    }
  }

  /** A sum of zeros is zero. */
  lemma {:induction false} SumZero(xs: seq<real>)
    requires forall i :: 0 <= i < |xs| ==> xs[i] == 0.0
    ensures Sum(xs) == 0.0
  {
    if xs != [] {
      SumZero(xs[..|xs| - 1]);
    }
  }

  lemma QuotientNonNegative(a: real, b: real)
    requires 0.0 <= a && 0.0 < b
    ensures 0.0 <= a / b
  {
    var q := a / b;
    assert q * b == a;
    if q < 0.0 {
      MulMonotone(b, q, 0.0);
    }
  }

  /** A part of a positive whole is a fraction between 0 and 1. */
  lemma FractionOfWhole(a: real, b: real)
    requires 0.0 <= a <= b && 0.0 < b
    ensures 0.0 <= a / b <= 1.0
  {
    QuotientNonNegative(a, b);
    var q := a / b;
    assert q * b == a;
    if q > 1.0 {
      MulMonotone(b, 1.0, q);
    }
  }
}
