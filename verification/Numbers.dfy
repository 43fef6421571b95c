/** Exact-arithmetic counterparts of Python's `round`, used wherever the services turn a
    price computation into an integer or a fixed number of decimals. */
module Numbers {

  datatype Option<+T> = None | Some(value: T)

  function Max(a: int, b: int): int { if a >= b then a else b }

  function Min(a: int, b: int): int { if a <= b then a else b }

  /** Python's round(x): the nearest integer, ties to the even one. */
  function Round(x: real): int {
    var f := x.Floor;
    var d := x - f as real;
    if d < 0.5 then f
    else if d > 0.5 then f + 1
    else if f % 2 == 0 then f
    else f + 1
  }

  /** Round is pinned down by "nearest integer, even on a tie". */
  lemma RoundIsNearestEven(x: real, n: int)
    ensures n == Round(x) <==>
            -0.5 <= x - n as real <= 0.5 && ((x - n as real == 0.5 || x - n as real == -0.5) ==> n % 2 == 0)
  {
    var f := x.Floor;
    if -0.5 <= x - n as real <= 0.5 {
      assert n == f || n == f + 1;
    }
  }

  lemma RoundMonotone(x: real, y: real)
    requires x <= y
    ensures Round(x) <= Round(y)
  {
    if x.Floor == y.Floor {
    } else {
      assert x.Floor < y.Floor;
    }
  }

  /** An integer bound on the exact value bounds the rounded value, from either side. */
  lemma RoundWithin(x: real, n: int)
    ensures x <= n as real ==> Round(x) <= n
    ensures n as real <= x ==> n <= Round(x)
  {
    assert Round(n as real) == n;
    if x <= n as real {
      RoundMonotone(x, n as real);
    }
    if n as real <= x {
      RoundMonotone(n as real, x);
    }
  }

  /** Python's round(x, k) with `scale` = 10^k. */
  function RoundTo(x: real, scale: real): real
    requires scale > 0.0
  {
    var n := Round(x * scale);
    n as real / scale
  }

  lemma RoundToMonotone(x: real, y: real, scale: real)
    requires scale > 0.0 && x <= y
    ensures RoundTo(x, scale) <= RoundTo(y, scale)
  {
    MulMonotone(x, y, scale);
    RoundMonotone(x * scale, y * scale);
    var a, b := Round(x * scale) as real, Round(y * scale) as real;
    DivMonotone(a, b, scale);
  }

  lemma MulMonotone(x: real, y: real, k: real)
    requires x <= y && 0.0 <= k
    ensures x * k <= y * k
  {
    assert (y - x) * k >= 0.0;
  }

  lemma DivMonotone(x: real, y: real, k: real)
    requires x <= y && 0.0 < k
    ensures x / k <= y / k
  {
    assert (y - x) / k >= 0.0;
    assert (y - x) / k == y / k - x / k;
  }

  lemma DivBelowOne(x: real, k: real)
    requires x < k && 0.0 < k
    ensures x / k < 1.0
  {
    var q := x / k;
    QuotientTimes(x, k);
    if q >= 1.0 {
      MulMonotone(1.0, q, k);
    }
  }

  /** Python's x // k on floats, read exactly. */
  function FloorDiv(x: real, k: real): int
    requires k != 0.0
  {
    (x / k).Floor
  }

  /** Division by a positive number, as a bound on the product. */
  lemma FloorDivBound(x: real, k: real, n: int)
    requires 0.0 < k
    ensures n <= FloorDiv(x, k) <==> n as real * k <= x
  {
    QuotientBound(x, k, n as real);
    FloorBound(x / k, n);
  }

  lemma FloorBound(q: real, n: int)
    ensures n <= q.Floor <==> n as real <= q
  {
  }

  lemma QuotientBound(x: real, k: real, r: real)
    requires 0.0 < k
    ensures r <= x / k <==> r * k <= x
  {
    var q := x / k;
    QuotientTimes(x, k);
    if r <= q {
      MulMonotone(r, q, k);
    } else {
      MulStrict(q, r, k);
    }
  }

  lemma QuotientTimes(x: real, k: real)
    requires k != 0.0
    ensures (x / k) * k == x
  {
  }

  lemma MulStrict(x: real, y: real, k: real)
    requires x < y && 0.0 < k
    ensures x * k < y * k
  {
    assert (y - x) * k > 0.0;
  }

  lemma DivSelf(x: real)
    requires x > 0.0
    ensures x / x == 1.0 && 0.0 / x == 0.0
  {
    var q := x / x;
    QuotientTimes(x, x);
    assert 1.0 * x == x;
    if q < 1.0 {
      MulStrict(q, 1.0, x);
    } else if q > 1.0 {
      MulStrict(1.0, q, x);
    }
    var z := 0.0 / x;
    QuotientTimes(0.0, x);
    assert 0.0 * x == 0.0;
    if z < 0.0 {
      MulStrict(z, 0.0, x);
    } else if z > 0.0 {
      MulStrict(0.0, z, x);
    }
  }
}
