/**
 * The strike-from-delta estimate shared by both scripts: a lognormal
 * quantile around the spot price at a fixed same-day time to expiry.
 * The scripts differ only in how the volatility is derived from the index
 * (see App.GetDeltaStrike and App1.GetDeltaStrike).
 */
module Strike {
  import opened Numerics

  datatype OptionKind = Call | Put

  /** Time to expiry of every estimate: 0.7 of a day, as a fraction of a 365-day year. */
  const YearFraction: real := 0.7 / 365.0

  /** The level at which the normal quantile is taken: delta for a call, 1 - |delta| for a put. */
  function QuantileLevel(delta: real, kind: OptionKind): real {
    if kind == Call then delta else 1.0 - Abs(delta)
  }

  /**
   * The exponent of the estimate at decimal volatility sigma: z sigma sqrt(t)
   * for a call and -z sigma sqrt(t) for a put, z the quantile of the level.
   */
  function Exponent(m: MathLib, sigma: real, delta: real, kind: OptionKind): real {
    var z := m.ppf(QuantileLevel(delta, kind));
    var drift := z * sigma * m.sqrt(YearFraction);
    if kind == Call then drift else -drift
  }

  /**
   * The estimate itself: the spot scaled by exp of the exponent. It is
   * positive for a positive spot.
   */
  function Lognormal(m: MathLib, price: real, sigma: real, delta: real, kind: OptionKind): (r: real)
    ensures Lawful(m) && price > 0.0 ==> r > 0.0
  {
    price * m.exp(Exponent(m, sigma, delta, kind))
  }

  /** Scaling a positive price by exp(x) moves it up, down or not at all as x is positive, negative or zero. */
  lemma ScaledByExp(m: MathLib, price: real, x: real)
    requires Lawful(m) && price > 0.0
    ensures x < 0.0 ==> price * m.exp(x) < price
    ensures x == 0.0 ==> price * m.exp(x) == price
    ensures x > 0.0 ==> price * m.exp(x) > price
  {
    if x < 0.0 {
      assert m.exp(x) < m.exp(0.0);
      assert price * m.exp(x) < price * 1.0;
    } else if x > 0.0 {
      assert m.exp(0.0) < m.exp(x);
      assert price * 1.0 < price * m.exp(x);
    }
  }

  /** The sign of the drift is the sign of z when sigma and the time factor are positive. */
  lemma DriftSign(z: real, sigma: real, s: real)
    requires sigma > 0.0 && s > 0.0
    ensures z < 0.0 ==> z * sigma * s < 0.0
    ensures z > 0.0 ==> z * sigma * s > 0.0
  {
    if z < 0.0 {
      assert z * sigma < 0.0;
    } else if z > 0.0 {
      assert z * sigma > 0.0;
    }
  }

  /** At delta 0.5 the quantile is 0, so the estimate is the spot itself, for calls and puts alike. */
  lemma AtTheMoney(m: MathLib, price: real, sigma: real, kind: OptionKind)
    requires Lawful(m)
    ensures Lognormal(m, price, sigma, 0.5, kind) == price
  {
    assert QuantileLevel(0.5, kind) == 0.5;
  }

  /** With zero volatility the estimate is the spot itself whatever the delta. */
  lemma ZeroVolatility(m: MathLib, price: real, delta: real, kind: OptionKind)
    requires Lawful(m)
    ensures Lognormal(m, price, 0.0, delta, kind) == price
  {
  }

  /** A put strike depends only on the magnitude of delta. */
  lemma PutUsesMagnitude(m: MathLib, price: real, sigma: real, delta: real)
    ensures Lognormal(m, price, sigma, -delta, Put) == Lognormal(m, price, sigma, delta, Put)
  {
    var level := QuantileLevel(delta, Put);
    assert Abs(-delta) == Abs(delta);
    assert m.ppf(QuantileLevel(-delta, Put)) == m.ppf(level);
    assert Exponent(m, sigma, -delta, Put) == Exponent(m, sigma, delta, Put);
  }

  /**
   * Which side of spot a put estimate lies on: below spot when |delta| < 0.5
   * (out of the money), above when |delta| > 0.5.
   */
  lemma PutSide(m: MathLib, price: real, sigma: real, delta: real)
    requires Lawful(m) && price > 0.0 && sigma > 0.0
    requires 0.0 < Abs(delta) < 1.0
    ensures Abs(delta) < 0.5 ==> Lognormal(m, price, sigma, delta, Put) < price
    ensures Abs(delta) > 0.5 ==> Lognormal(m, price, sigma, delta, Put) > price
  {
    var level := 1.0 - Abs(delta);
    var z := m.ppf(level);
    var s := m.sqrt(YearFraction);
    assert s > 0.0;
    if Abs(delta) < 0.5 {
      assert 0.5 < level < 1.0;
      assert m.ppf(0.5) < z;
    } else if Abs(delta) > 0.5 {
      assert 0.0 < level < 0.5;
      assert z < m.ppf(0.5);
    }
    DriftSign(z, sigma, s);
    ScaledByExp(m, price, -(z * sigma * s));
  }

  /**
   * Which side of spot a call estimate lies on, as the formula is written:
   * below spot when delta < 0.5 and above when delta > 0.5. A 0.10-delta
   * call therefore lands below spot.
   */
  lemma CallSide(m: MathLib, price: real, sigma: real, delta: real)
    requires Lawful(m) && price > 0.0 && sigma > 0.0
    requires 0.0 < delta < 1.0
    ensures delta < 0.5 ==> Lognormal(m, price, sigma, delta, Call) < price
    ensures delta > 0.5 ==> Lognormal(m, price, sigma, delta, Call) > price
  {
    var z := m.ppf(delta);
    var s := m.sqrt(YearFraction);
    assert s > 0.0;
    if delta < 0.5 {
      assert z < m.ppf(0.5);
    } else if delta > 0.5 {
      assert m.ppf(0.5) < z;
    }
    DriftSign(z, sigma, s);
    ScaledByExp(m, price, z * sigma * s);
  }

  /** Scaling a positive price by exp is strictly increasing in the exponent. */
  lemma ScaledByExpIncreasing(m: MathLib, price: real, x1: real, x2: real)
    requires Lawful(m) && price > 0.0 && x1 < x2
    ensures price * m.exp(x1) < price * m.exp(x2)
  {
    assert m.exp(x1) < m.exp(x2);
  }

  /** The drift z sigma sqrt(t) grows with sigma when z > 0 and shrinks when z < 0. */
  lemma DriftInSigma(z: real, s1: real, s2: real, s: real)
    requires s1 < s2 && s > 0.0
    ensures z > 0.0 ==> z * s1 * s < z * s2 * s
    ensures z < 0.0 ==> z * s1 * s > z * s2 * s
  {
    if z > 0.0 {
      assert z * s > 0.0;
      assert (z * s) * s1 < (z * s) * s2;
    } else if z < 0.0 {
      assert z * s < 0.0;
      assert (z * s) * s1 > (z * s) * s2;
    }
  }

  /** The normal quantile is positive above 0.5 and negative below it. */
  lemma QuantileSign(m: MathLib, p: real)
    requires Lawful(m) && 0.0 < p < 1.0
    ensures p > 0.5 ==> m.ppf(p) > 0.0
    ensures p < 0.5 ==> m.ppf(p) < 0.0
  {
    if p > 0.5 {
      assert m.ppf(0.5) < m.ppf(p);
    } else if p < 0.5 {
      assert m.ppf(p) < m.ppf(0.5);
    }
  }

  /**
   * The exponent grows with sigma when the call quantile is positive or
   * the put quantile negative, and shrinks in the opposite cases.
   */
  lemma ExponentInSigma(m: MathLib, s1: real, s2: real, delta: real, kind: OptionKind)
    requires s1 < s2 && m.sqrt(YearFraction) > 0.0
    ensures var z := m.ppf(QuantileLevel(delta, kind));
      (kind == Call && z > 0.0) || (kind == Put && z < 0.0) ==> Exponent(m, s1, delta, kind) < Exponent(m, s2, delta, kind)
    ensures var z := m.ppf(QuantileLevel(delta, kind));
      (kind == Call && z < 0.0) || (kind == Put && z > 0.0) ==> Exponent(m, s1, delta, kind) > Exponent(m, s2, delta, kind)
  {
    var z := m.ppf(QuantileLevel(delta, kind));
    DriftInSigma(z, s1, s2, m.sqrt(YearFraction));
  }

  /**
   * A call estimate rises with volatility when its quantile is positive
   * (delta above 0.5) and falls when it is negative (delta below 0.5).
   */
  lemma CallMonotoneInSigma(m: MathLib, price: real, s1: real, s2: real, delta: real)
    requires Lawful(m) && price > 0.0 && s1 < s2
    requires 0.0 < delta < 1.0
    ensures delta > 0.5 ==> Lognormal(m, price, s1, delta, Call) < Lognormal(m, price, s2, delta, Call)
    ensures delta < 0.5 ==> Lognormal(m, price, s1, delta, Call) > Lognormal(m, price, s2, delta, Call)
  {
    var e1, e2 := Exponent(m, s1, delta, Call), Exponent(m, s2, delta, Call);
    QuantileSign(m, delta);
    ExponentInSigma(m, s1, s2, delta, Call);
    if delta > 0.5 {
      ScaledByExpIncreasing(m, price, e1, e2);
    } else if delta < 0.5 {
      ScaledByExpIncreasing(m, price, e2, e1);
    }
  }

  /** The mirror for puts: an out-of-the-money put (|delta| < 0.5) falls with volatility, an in-the-money one rises. */
  lemma PutMonotoneInSigma(m: MathLib, price: real, s1: real, s2: real, delta: real)
    requires Lawful(m) && price > 0.0 && s1 < s2
    requires 0.0 < Abs(delta) < 1.0
    ensures Abs(delta) < 0.5 ==> Lognormal(m, price, s1, delta, Put) > Lognormal(m, price, s2, delta, Put)
    ensures Abs(delta) > 0.5 ==> Lognormal(m, price, s1, delta, Put) < Lognormal(m, price, s2, delta, Put)
  {
    var e1, e2 := Exponent(m, s1, delta, Put), Exponent(m, s2, delta, Put);
    QuantileSign(m, QuantileLevel(delta, Put));
    ExponentInSigma(m, s1, s2, delta, Put);
    if Abs(delta) < 0.5 {
      ScaledByExpIncreasing(m, price, e2, e1);
    } else if Abs(delta) > 0.5 {
      ScaledByExpIncreasing(m, price, e1, e2);
    }
  }

  /**
   * The call estimate under the usual market convention: a call of delta d
   * sits at spot * exp(-ppf(d) sigma sqrt(t)), so a low-delta call lies above spot.
   */
  function IntendedCall(m: MathLib, price: real, sigma: real, delta: real): real {
    price * m.exp(-(m.ppf(delta) * sigma * m.sqrt(YearFraction)))
  }

  /**
   * Under the market convention a call with delta below 0.5 is out of the
   * money (above spot), one above 0.5 in the money (below spot), and the
   * call and the put of the same low delta bracket the spot.
   */
  lemma IntendedCallSide(m: MathLib, price: real, sigma: real, delta: real)
    requires Lawful(m) && price > 0.0 && sigma > 0.0
    requires 0.0 < delta < 1.0
    ensures delta < 0.5 ==> IntendedCall(m, price, sigma, delta) > price
    ensures delta > 0.5 ==> IntendedCall(m, price, sigma, delta) < price
    ensures delta < 0.5 ==> Lognormal(m, price, sigma, delta, Put) < price < IntendedCall(m, price, sigma, delta)
  {
    var z := m.ppf(delta);
    var s := m.sqrt(YearFraction);
    assert s > 0.0;
    if delta < 0.5 {
      assert z < m.ppf(0.5);
    } else if delta > 0.5 {
      assert m.ppf(0.5) < z;
    }
    DriftSign(z, sigma, s);
    ScaledByExp(m, price, -(z * sigma * s));
    PutSide(m, price, sigma, delta);
  }
}
