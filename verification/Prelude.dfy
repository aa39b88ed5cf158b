/** Small vocabulary shared by the whole model: optional values and Go's integer division. */
module Prelude {

  datatype Option<+T> = None | Some(value: T)

  /** Go's `/` on integers truncates toward zero. */
  function GoDiv(a: int, b: int): (q: int)
    requires b > 0
  {
    if a >= 0 then a / b else -((-a) / b)
  }

  /** Truncated division never reverses the order of two quotients over different divisors. */
  lemma GoDivMonotone(a: int, m: int, b: int, n: int)
    requires m > 0 && n > 0
    requires a * n <= b * m
    ensures GoDiv(a, m) <= GoDiv(b, n)
  {
    if a >= 0 {
      NonNegativeTimes(a, n);
      if b < 0 { NegativeTimes(b, m); }
      QuotientMonotone(a, m, b, n);
    } else if b < 0 {
      NegatedTimes(a, n);
      NegatedTimes(b, m);
      QuotientMonotone(-b, n, -a, m);
    } else {
      QuotientSign(-a, m);
      QuotientSign(b, n);
    }
  }

  lemma NegatedTimes(a: int, n: int)
    ensures (-a) * n == -(a * n)
  {}

  lemma QuotientSign(a: int, n: int)
    requires a >= 0 && n > 0
    ensures a / n >= 0
  {}

  lemma QuotientMonotone(a: int, m: int, b: int, n: int)
    requires a >= 0 && b >= 0 && m > 0 && n > 0
    requires a * n <= b * m
    ensures a / m <= b / n
  {
    var p, q := a / m, b / n;
    if p > q {
      // a >= p*m and b < (q+1)*n <= p*n, so b*m < p*n*m <= a*n
      assert p * m * n == p * n * m;
      TimesMonotone(p * m, a, n);
      TimesMonotone(q + 1, p, n);
      TimesStrict(b, p * n, m);
      assert false;
    }
  }

  lemma TimesMonotone(a: int, b: int, n: int)
    requires a <= b && n > 0
    ensures a * n <= b * n
  {
    assert (b - a) * n >= 0 by { NonNegativeTimes(b - a, n); }
  }

  lemma TimesStrict(a: int, b: int, n: int)
    requires a < b && n > 0
    ensures a * n < b * n
  {
    TimesMonotone(a + 1, b, n);
  }

  lemma NonNegativeTimes(a: int, n: int)
    requires a >= 0 && n >= 0
    ensures a * n >= 0
  {}

  lemma NegativeTimes(a: int, n: int)
    requires a < 0 && n > 0
    ensures a * n < 0
  {
    TimesMonotone(a, -1, n);
  }

  /** Truncating first by `m` and then by `n` is truncating once by `m * n`. */
  lemma GoDivGoDiv(a: int, m: int, n: int)
    requires m > 0 && n > 0
    ensures m * n > 0
    ensures GoDiv(GoDiv(a, m), n) == GoDiv(a, m * n)
  {
    TimesStrict(0, m, n);
    if a >= 0 {
      DivDiv(a, m, n);
    } else {
      DivDiv(-a, m, n);
      var p := (-a) / m;
      if p == 0 {
        assert 0 / n == 0;
      }
    }
  }

  lemma DivDiv(a: int, m: int, n: int)
    requires a >= 0 && m > 0 && n > 0
    requires m * n > 0
    ensures a / m / n == a / (m * n)
  {
    var p := a / m;
    var q := p / n;
    // q*n <= p < (q+1)*n and p*m <= a < (p+1)*m
    assert q * n <= p && p + 1 <= (q + 1) * n;
    TimesMonotone(q * n, p, m);
    TimesMonotone(p + 1, (q + 1) * n, m);
    assert q * n * m == q * (m * n) && (q + 1) * n * m == (q + 1) * (m * n);
    QuotientUnique(a, m * n, q);
  }

  lemma QuotientUnique(a: int, d: int, q: int)
    requires d > 0 && q * d <= a < (q + 1) * d
    ensures a / d == q
  {
    var r := a / d;
    if r < q {
      TimesMonotone(r + 1, q, d);
      assert false;
    } else if q < r {
      TimesMonotone(q + 1, r, d);
      assert false;
    }
  }
}
