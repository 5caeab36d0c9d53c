/** Laws of real arithmetic that the solver needs spelled out. */
module Arithmetic {
  lemma Scale(x: real, y: real, k: real)
    requires x <= y && k >= 0.0
    ensures k * x <= k * y
  {}

  lemma TimesZero(x: real, d: real)
    requires d == 0.0
    ensures x * d == 0.0
  {}

  lemma ScaleStrict(x: real, y: real, k: real)
    requires x < y && k > 0.0
    ensures k * x < k * y
  {}

  lemma Cancel(x: real, y: real, k: real)
    requires k > 0.0 && k * x <= k * y
    ensures x <= y
  {
    if y < x { ScaleStrict(y, x, k); }
  }

  lemma AtMostProduct(x: real, d: real, r: real)
    requires d > 0.0 && x / d <= r
    ensures x <= d * r
  {
    var q := x / d;
    assert x == d * q;
    Scale(q, r, d);
  }

  lemma AtMostQuotient(x: real, d: real, r: real)
    requires d > 0.0 && x <= d * r
    ensures x / d <= r
  {
    var q := x / d;
    assert x == d * q;
    Cancel(q, r, d);
  }

  lemma Shrink(n: real, m: real, x: real, y: real, cap: real)
    requires 0.0 <= m <= n && (y <= x || y <= 0.0) && cap >= 0.0 && n * x <= cap
    ensures m * y <= cap
  {
    if y > 0.0 {
      Scale(y, x, m);
      Scale(m, n, x);
      assert x * m == m * x && x * n == n * x;
    } else {
      Scale(y, 0.0, m);
    }
  }

  lemma ProductSign(x: real, y: real)
    requires x >= 0.0 && y >= 0.0
    ensures x * y >= 0.0
  {}

  /** Running at no less than the required rate does not raise the required rate. */
  lemma RateNeverRises(left: real, perf: real, d: real, dt: real, m: real, n: real)
    requires left <= perf * d && perf > 0.0 && dt >= 0.0 && left - perf * dt >= 0.0
    requires n >= 0.0 && m >= 0.0 && n * left <= m * d
    ensures dt <= d
    ensures n * (left - perf * dt) <= m * (d - dt)
    ensures left - perf * dt <= perf * (d - dt)
  {
    assert perf * (d - dt) == perf * d - perf * dt;
    Cancel(dt, d, perf);
    if d == 0.0 {
      assert left == 0.0 && dt == 0.0;
    } else {
      var q := left / d;
      assert left == d * q && d * perf == perf * d;
      Cancel(q, perf, d);
      Scale(q, perf, dt);
      assert (d - dt) * q == left - dt * q && perf * dt == dt * perf;
      Scale(left - perf * dt, (d - dt) * q, n);
      assert n * left == d * (n * q) && m * d == d * m;
      Cancel(n * q, m, d);
      Scale(n * q, m, d - dt);
      assert n * ((d - dt) * q) == (d - dt) * (n * q);
    }
  }

  /** An equal share of m among n covers work x due in d, if even load shares of it would. */
  lemma EqualShare(load: real, n: real, m: real, d: real, x: real)
    requires load >= n > 0.0 && x > 0.0 && m >= 0.0 && d >= 0.0 && load * x <= m * d
    ensures m / n > 0.0 && x <= m / n * d
  {
    var r := m / n;
    assert m == n * r;
    ProductSign(m, d);
    Shrink(load, n, x, x, m * d);
    assert m * d == n * (r * d);
    Cancel(x, r * d, n);
    if r <= 0.0 {
      Scale(r, 0.0, d);
    }
  }

  /** A rate no lower than x / d covers x in d. */
  lemma EnoughRate(x: real, d: real, r: real)
    requires d > 0.0 && x > 0.0 && x / d <= r
    ensures r > 0.0 && x <= r * d
  {
    AtMostProduct(x, d, r);
    assert d * r == r * d;
    if r <= 0.0 {
      Scale(r, 0.0, d);
    }
  }

  lemma ShareOfTotal(u: real, n: real)
    requires n > 0.0
    ensures u * n / n == u
  {}

  /** The time x / r work x takes at rate r. */
  lemma FinishTime(x: real, r: real, d: real)
    requires r > 0.0 && x > 0.0
    ensures x / r > 0.0
    ensures d <= x / r ==> r * d <= x
  {
    var q := x / r;
    assert x == r * q;
    if q <= 0.0 {
      Scale(q, 0.0, r);
    }
    if d <= q {
      Scale(d, q, r);
    }
  }

  /** n jobs at a common rate within m: a job x that the rate finishes in d takes its share of m. */
  lemma AdmissionTest(x: real, d: real, rate: real, n: real, m: real)
    requires d > 0.0 && n > 0.0 && m >= 0.0 && rate * n <= m
    requires x <= 0.0 || x / d <= rate
    ensures n * x <= m * d
  {
    ProductSign(m, d);
    if x <= 0.0 {
      Scale(x, 0.0, n);
    } else {
      AtMostProduct(x, d, rate);
      Scale(x, d * rate, n);
      Scale(rate * n, m, d);
      assert n * (d * rate) == d * (rate * n) && m * d == d * m;
    }
  }
}
