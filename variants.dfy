/**
 * Where the two copies of the script agree and where they part: on every
 * snapshot away from the zero readings they reach the same decision; the
 * zero readings (TRIN, VIX, SPY, VIX1D) and the bearish debit line are
 * where they differ.
 */
module Variants {
  import opened Numerics
  import opened Strike
  import opened Policy
  import App
  import App1

  /**
   * With non-zero SPY, anchor, VIX and VIX1D readings and a TRIN that is
   * missing or non-zero, both copies complete and compute the same
   * decision record.
   */
  lemma SameDecisionAwayFromZeros(m: MathLib, s: Snapshot, balance: real)
    requires s.lp != 0.0 && s.op != 0.0 && s.vix != 0.0 && s.vix1d != 0.0 && s.trin != Some(0.0)
    ensures App.Decide(m, s, balance).Done? && App1.Decide(m, s, balance).Done?
    ensures App.Decide(m, s, balance).decision == App1.Decide(m, s, balance).decision
  {
    assert App.Sigma(s.vix1d) == s.vix1d / 100.0;
    assert App.Trin(s.trin) == App1.Trin(s.trin);
    assert App.VixRatio(s.vix1d, s.vix) == s.vix1d / s.vix;
    var score := RiskScore(s.vix1d / s.vix, s.vvix, s.skew, s.lp, s.op);
    var combo := ChooseCombo(score, BiasOf(s.lp, s.op, App1.Trin(s.trin)));
    forall delta, kind ensures App.GetDeltaStrike(m, s.lp, s.vix1d, delta, kind) == App1.GetDeltaStrike(m, s.lp, s.vix1d, delta, kind) {
    }
    App1.NegativePutDelta(m, s.lp, s.vix1d);
    assert App.Strikes(m, combo, s.lp, s.vix1d) == App1.Strikes(m, combo, s.lp, s.vix1d);
  }

  /**
   * A TRIN reading of exactly 0 on a 1.1% rally: streamlit_app.py reads it
   * as 1.0 and builds a neutral iron condor, streamlit_app1.py takes it as
   * a low TRIN and sells a bullish credit spread.
   */
  lemma ZeroTrinReading(m: MathLib)
    ensures var s := Snapshot(450.0, 445.0, 12.0, 15.0, 90.0, 120.0, Some(0.0));
      && App.Decide(m, s, 28630.0).Done? && App1.Decide(m, s, 28630.0).Done?
      && App.Decide(m, s, 28630.0).decision.combo == IronCondor
      && App1.Decide(m, s, 28630.0).decision.combo == CreditSpread(Bullish)
  {
  }

  /**
   * Zero readings: a zero VIX is the explicit missing-data stop in
   * streamlit_app.py and a division by zero in streamlit_app1.py; a zero
   * SPY price stops streamlit_app.py, while streamlit_app1.py completes
   * and shows the do-not-trade warning.
   */
  lemma ZeroReadings(m: MathLib, s: Snapshot, balance: real)
    ensures s.vix == 0.0 ==>
      App.Decide(m, s, balance) == Failed(MissingCriticalData) && App1.Decide(m, s, balance) == Failed(DivisionByZero)
    ensures s.lp == 0.0 && s.vix != 0.0 && s.op != 0.0 ==>
      && App.Decide(m, s, balance) == Failed(MissingCriticalData)
      && App1.Decide(m, s, balance).Done? && App1.Decide(m, s, balance).advice == NoTradeNotice
  {
    if s.lp == 0.0 && s.vix != 0.0 && s.op != 0.0 {
      App1.ZeroSpotShowsWarning(m, s, balance);
    }
  }

  /**
   * A zero VIX1D: streamlit_app.py estimates the 0.10 put at a 15%
   * volatility, below the spot, while streamlit_app1.py puts it on the spot.
   */
  lemma ZeroVolatilityPut(m: MathLib, price: real)
    requires Lawful(m) && price > 0.0
    ensures App.GetDeltaStrike(m, price, 0.0, 0.10, Put) < price
    ensures App1.GetDeltaStrike(m, price, 0.0, 0.10, Put) == price
  {
    App.StrikeSides(m, price, 0.0, 0.10);
    App1.StrikeWithoutFallback(m, price, 0.10, Put);
  }

  /** The bearish debit line: streamlit_app.py sells at s_c - 2, streamlit_app1.py at s_p - 2. */
  lemma BearishDebitLine(d: Decision)
    requires d.combo == DebitSpread(Bearish) && d.bias == Bearish && d.sc != 0
    ensures App.Legs(d) == [DebitLeg(d.sc, d.sc - 2)]
    ensures App1.Legs(d) == [DebitLeg(d.sc, d.sp - 2)]
  {
  }
}
