/**
 * streamlit_app.py: one analysis run of the script, from the downloaded
 * market snapshot and the balance to the decision and what the result
 * panel shows. This copy guards against a missing SPY or VIX reading,
 * reads a zero or missing TRIN as 1.0 and falls back to a 15% volatility
 * in the strike estimate.
 */
module App {
  import opened Numerics
  import opened Strike
  import opened Policy

  /** The volatility get_delta_strike uses: the index over 100, or 0.15 when that is zero. */
  function Sigma(iv: real): (sigma: real)
    ensures sigma != 0.0
    ensures iv != 0.0 ==> sigma * 100.0 == iv
    ensures iv == 0.0 ==> sigma == 0.15
    ensures iv >= 0.0 ==> sigma > 0.0
  {
    var sigma := iv / 100.0;
    if sigma == 0.0 then 0.15 else sigma
  }

  /**
   * get_delta_strike(price, iv, delta, option_type): the lognormal estimate
   * at the index over 100, or at 15% for a zero index; positive for a
   * positive spot and the spot itself at delta 0.5.
   */
  function GetDeltaStrike(m: MathLib, price: real, iv: real, delta: real, kind: OptionKind): (r: real)
    ensures iv == 0.0 ==> r == Lognormal(m, price, 0.15, delta, kind)
    ensures Lawful(m) && price > 0.0 ==> r > 0.0
    ensures Lawful(m) && delta == 0.5 ==> r == price
  {
    Lognormal(m, price, Sigma(iv), delta, kind)
  }

  /** A zero volatility index is estimated as if it read 15. */
  lemma SigmaFallback(m: MathLib, price: real, delta: real, kind: OptionKind)
    ensures GetDeltaStrike(m, price, 0.0, delta, kind) == GetDeltaStrike(m, price, 15.0, delta, kind)
  {
    assert Sigma(0.0) == Sigma(15.0);
  }

  /**
   * Where the estimate lies: at delta 0.5 on the spot for calls and puts;
   * a put of delta magnitude below 0.5 below the spot; a call of delta
   * below 0.5 also below the spot, and one above 0.5 above it.
   */
  lemma StrikeSides(m: MathLib, price: real, iv: real, delta: real)
    requires Lawful(m) && price > 0.0 && iv >= 0.0
    ensures GetDeltaStrike(m, price, iv, 0.5, Call) == price == GetDeltaStrike(m, price, iv, 0.5, Put)
    ensures 0.0 < Abs(delta) < 0.5 ==> GetDeltaStrike(m, price, iv, delta, Put) < price
    ensures 0.0 < delta < 0.5 ==> GetDeltaStrike(m, price, iv, delta, Call) < price
    ensures 0.5 < delta < 1.0 ==> GetDeltaStrike(m, price, iv, delta, Call) > price
  {
    AtTheMoney(m, price, Sigma(iv), Call);
    AtTheMoney(m, price, Sigma(iv), Put);
    if 0.0 < Abs(delta) < 1.0 {
      PutSide(m, price, Sigma(iv), delta);
    }
    if 0.0 < delta < 1.0 {
      CallSide(m, price, Sigma(iv), delta);
    }
  }

  /** `get_last_valid('^TRIN') or 1.0`: a missing series reads 0.0, and a 0.0 reading becomes 1.0. */
  function Trin(reading: Option<real>): (trin: real)
    ensures trin != 0.0
    ensures reading.None? || reading == Some(0.0) ==> trin == 1.0
    ensures reading.Some? && reading.value != 0.0 ==> trin == reading.value
  {
    var raw := if reading.Some? then reading.value else 0.0;
    if raw == 0.0 then 1.0 else raw
  }

  /** vix1d / vix, or 1 when vix is zero. */
  function VixRatio(vix1d: real, vix: real): (ratio: real)
    ensures vix == 0.0 ==> ratio <= 1.10
    ensures vix != 0.0 ==> ratio * vix == vix1d
  {
    if vix != 0.0 then vix1d / vix else 1.0
  }

  /**
   * The short strikes (s_c, s_p) of the chosen strategy, 0 on a side that
   * is not used; a short put is never above the 1% floor under spot and a
   * short call never below the 1% cap over it.
   */
  function Strikes(m: MathLib, combo: Combo, lp: real, vix1d: real): (r: (int, int))
    ensures combo == NoTrade ==> r == (0, 0)
    ensures combo == CreditSpread(Bullish) ==> r.0 == 0 && r.1 <= Round(lp * 0.99)
    ensures combo == CreditSpread(Bearish) ==> r.1 == 0 && r.0 >= Round(lp * 1.01)
    ensures combo == IronCondor ==> r.1 <= Round(lp * 0.99) && r.0 >= Round(lp * 1.01)
  {
    var put := Min(lp * 0.99, GetDeltaStrike(m, lp, vix1d, 0.10, Put));
    var call := Max(lp * 1.01, GetDeltaStrike(m, lp, vix1d, 0.10, Call));
    RoundMonotone(put, lp * 0.99);
    RoundMonotone(lp * 1.01, call);
    match combo
    case DebitSpread(b) =>
      var kind := if b == Bullish then Call else Put;
      (Round(GetDeltaStrike(m, lp, vix1d, 0.70, kind)), Round(GetDeltaStrike(m, lp, vix1d, 0.50, kind)))
    case NoTrade => (0, 0)
    case CreditSpread(b) =>
      if b == Bullish then (0, Round(put))
      else (Round(call), 0)
    case IronCondor => (Round(call), Round(put))
  }

  /**
   * The legs the panel lists: for a debit spread, buy s_c and sell two
   * points further in the bias direction; otherwise a call spread for a
   * non-zero s_c and a put spread for a non-zero s_p, each protected one
   * wing further out.
   */
  function Legs(d: Decision): (legs: seq<Leg>)
    ensures d.combo.DebitSpread? ==> legs == [DebitLeg(d.sc, if d.bias == Bullish then d.sc + 2 else d.sc - 2)]
    ensures !d.combo.DebitSpread? ==>
      && (CallSpread(d.sc, d.sc + d.wingWidth) in legs <==> d.sc != 0)
      && (PutSpread(d.sp, d.sp - d.wingWidth) in legs <==> d.sp != 0)
      && forall leg :: leg in legs ==> leg == CallSpread(d.sc, d.sc + d.wingWidth) || leg == PutSpread(d.sp, d.sp - d.wingWidth)
    ensures !d.combo.DebitSpread? ==>
      && |legs| == (if d.sc != 0 then 1 else 0) + (if d.sp != 0 then 1 else 0)
      && (d.sc != 0 ==> legs[0] == CallSpread(d.sc, d.sc + d.wingWidth))
  {
    if d.combo.DebitSpread? then
      [DebitLeg(d.sc, if d.bias == Bullish then d.sc + 2 else d.sc - 2)]
    else
      (if d.sc != 0 then [CallSpread(d.sc, d.sc + d.wingWidth)] else [])
        + (if d.sp != 0 then [PutSpread(d.sp, d.sp - d.wingWidth)] else [])
  }

  /** The panel: lots and legs unless the strategy is NO OPERAR. */
  function Advise(d: Decision): (a: Advice)
    ensures a == NoTradeNotice <==> d.combo == NoTrade
    ensures a.Order? ==> a.lots >= 1 && a.lots >= d.contracts && a.targetProfit == d.targetProfit
    ensures a.Order? ==> a.lots == DisplayedLots(d.contracts) && a.legs == Legs(d)
  {
    if d.combo != NoTrade then Order(DisplayedLots(d.contracts), d.targetProfit, Legs(d))
    else NoTradeNotice
  }

  /**
   * The analysis run as a function of the snapshot: the missing-data stop,
   * the division by the anchor price, then score, bias, strategy, strikes
   * and sizing.
   */
  function Decide(m: MathLib, s: Snapshot, balance: real): (r: Run)
    ensures r == Failed(MissingCriticalData) <==> s.lp == 0.0 || s.vix == 0.0
    ensures r == Failed(DivisionByZero) <==> s.lp != 0.0 && s.vix != 0.0 && s.op == 0.0
    ensures r.Done? ==> 0 <= r.decision.riskScore <= 100 && r.decision.riskScore % 5 == 0
    ensures r.Done? ==> (r.advice == NoTradeNotice <==> r.decision.combo == NoTrade)
  {
    if s.lp == 0.0 || s.vix == 0.0 then Failed(MissingCriticalData)
    else if s.op == 0.0 then Failed(DivisionByZero)
    else
      var score := RiskScore(VixRatio(s.vix1d, s.vix), s.vvix, s.skew, s.lp, s.op);
      var bias := BiasOf(s.lp, s.op, Trin(s.trin));
      var combo := ChooseCombo(score, bias);
      var (sc, sp) := Strikes(m, combo, s.lp, s.vix1d);
      var wingWidth := WingWidth(s.vix1d);
      var d := Decision(score, bias, combo, sc, sp, wingWidth, Contracts(balance, wingWidth), TargetProfit(balance));
      Done(d, Advise(d))
  }

  /** The button handler's body, step by step as the script runs it. */
  method RunAnalysis(m: MathLib, s: Snapshot, balance: real) returns (r: Run)
    ensures r == Decide(m, s, balance)
  {
    var trin := Trin(s.trin);
    if s.lp == 0.0 || s.vix == 0.0 {
      return Failed(MissingCriticalData);
    }
    var vixRatio := if s.vix != 0.0 then s.vix1d / s.vix else 1.0;
    var riskScore := 0;
    if vixRatio > 1.10 { riskScore := riskScore + 40; }
    if s.vvix > 115.0 { riskScore := riskScore + 30; }
    if s.skew > 145.0 { riskScore := riskScore + 15; }
    if s.op == 0.0 {
      return Failed(DivisionByZero);
    }
    if Abs(s.lp - s.op) / s.op > 0.008 { riskScore := riskScore + 15; }
    assert riskScore == RiskScore(VixRatio(s.vix1d, s.vix), s.vvix, s.skew, s.lp, s.op);

    var bias := Neutral;
    if s.lp > s.op * 1.004 && trin < 0.85 {
      bias := Bullish;
    } else if s.lp < s.op * 0.996 && trin > 1.15 {
      bias := Bearish;
    }
    assert bias == BiasOf(s.lp, s.op, Trin(s.trin));

    var wingWidth := if s.vix1d > 18.0 then 5 else 2;
    var targetProfit := balance * 0.005;
    var riskBudget := balance * 0.02;
    var contracts := Trunc(riskBudget / (wingWidth * 100) as real);
    assert wingWidth == WingWidth(s.vix1d) && contracts == Contracts(balance, wingWidth);

    var combo: Combo;
    var sc: int, sp: int;
    if riskScore >= 75 && bias != Neutral {
      combo := DebitSpread(bias);
      var kind := if bias == Bullish then Call else Put;
      var sLong := GetDeltaStrike(m, s.lp, s.vix1d, 0.70, kind);
      var sShort := GetDeltaStrike(m, s.lp, s.vix1d, 0.50, kind);
      sc, sp := Round(sLong), Round(sShort);
    } else if riskScore >= 75 {
      combo := NoTrade;
      sc, sp := 0, 0;
    } else if bias != Neutral {
      combo := CreditSpread(bias);
      if bias == Bullish {
        var sRef := Round(Min(s.lp * 0.99, GetDeltaStrike(m, s.lp, s.vix1d, 0.10, Put)));
        sc, sp := 0, sRef;
      } else {
        var sRef := Round(Max(s.lp * 1.01, GetDeltaStrike(m, s.lp, s.vix1d, 0.10, Call)));
        sc, sp := sRef, 0;
      }
    } else {
      combo := IronCondor;
      sc := Round(Max(s.lp * 1.01, GetDeltaStrike(m, s.lp, s.vix1d, 0.10, Call)));
      sp := Round(Min(s.lp * 0.99, GetDeltaStrike(m, s.lp, s.vix1d, 0.10, Put)));
    }

    assert combo == ChooseCombo(riskScore, bias);
    assert (sc, sp) == Strikes(m, combo, s.lp, s.vix1d);
    var d := Decision(riskScore, bias, combo, sc, sp, wingWidth, contracts, targetProfit);
    var advice := Display(d);
    r := Done(d, advice);
  }

  /** The result panel of the handler: lot floor, profit target and the legs of the strategy. */
  method Display(d: Decision) returns (advice: Advice)
    ensures advice == Advise(d)
  {
    advice := NoTradeNotice;
    if d.combo != NoTrade {
      var legs: seq<Leg> := [];
      if d.combo.DebitSpread? {
        var sell := if d.bias == Bullish then d.sc + 2 else d.sc - 2;
        legs := [DebitLeg(d.sc, sell)];
      } else {
        if d.sc != 0 { legs := legs + [CallSpread(d.sc, d.sc + d.wingWidth)]; }
        if d.sp != 0 { legs := legs + [PutSpread(d.sp, d.sp - d.wingWidth)]; }
      }
      advice := Order(if d.contracts > 1 then d.contracts else 1, d.targetProfit, legs);
    }
  }

  /**
   * The bias of a completed run: neutral whenever the effective TRIN is in
   * [0.85, 1.15], in particular when TRIN is missing or reads 0; bullish
   * and bearish each need both the price move and the TRIN reading.
   */
  lemma BiasRules(m: MathLib, s: Snapshot, balance: real)
    requires Decide(m, s, balance).Done?
    ensures var b := Decide(m, s, balance).decision.bias;
      && (s.trin.None? || s.trin == Some(0.0) ==> b == Neutral)
      && (s.trin.Some? && 0.85 <= s.trin.value <= 1.15 ==> b == Neutral)
      && (b == Bullish <==> s.lp > s.op * 1.004 && s.trin.Some? && s.trin.value != 0.0 && s.trin.value < 0.85)
      && (b == Bearish <==> s.lp < s.op * 0.996 && s.trin.Some? && s.trin.value > 1.15)
  {
  }

  /**
   * NO OPERAR is chosen exactly when the score reaches 75 with a neutral
   * bias; then both strikes are 0 and the panel shows the warning.
   */
  lemma NoTradeExactly(m: MathLib, s: Snapshot, balance: real)
    requires Decide(m, s, balance).Done?
    ensures var d := Decide(m, s, balance).decision;
      && (d.combo == NoTrade <==> d.riskScore >= 75 && d.bias == Neutral)
      && (d.combo == NoTrade ==> d.sc == 0 && d.sp == 0 && Decide(m, s, balance).advice == NoTradeNotice)
  {
  }

  /**
   * A bullish credit spread sells only a put, at or below the 1% floor
   * under spot; a bearish one sells only a call, at or above the 1% cap
   * over spot.
   */
  lemma CreditSpreadStrikes(m: MathLib, s: Snapshot, balance: real)
    requires Decide(m, s, balance).Done?
    ensures var d := Decide(m, s, balance).decision;
      && (d.combo == CreditSpread(Bullish) ==> d.sc == 0 && d.sp <= Round(s.lp * 0.99))
      && (d.combo == CreditSpread(Bearish) ==> d.sp == 0 && d.sc >= Round(s.lp * 1.01))
  {
    var d := Decide(m, s, balance).decision;
    if d.combo == CreditSpread(Bullish) {
      var put := GetDeltaStrike(m, s.lp, s.vix1d, 0.10, Put);
      RoundMonotone(Min(s.lp * 0.99, put), s.lp * 0.99);
    } else if d.combo == CreditSpread(Bearish) {
      var call := GetDeltaStrike(m, s.lp, s.vix1d, 0.10, Call);
      RoundMonotone(s.lp * 1.01, Max(s.lp * 1.01, call));
    }
  }

  /**
   * The iron condor's strikes straddle the spot at least 1% out on each
   * side; and because the 0.10-delta call estimate lies below the spot,
   * the call strike is always the 1% cap itself.
   */
  lemma CondorStrikes(m: MathLib, s: Snapshot, balance: real)
    requires Lawful(m) && s.lp > 0.0 && s.vix1d >= 0.0
    requires Decide(m, s, balance).Done? && Decide(m, s, balance).decision.combo == IronCondor
    ensures var d := Decide(m, s, balance).decision;
      d.sp <= Round(s.lp * 0.99) <= Round(s.lp * 1.01) == d.sc
  {
    var call := GetDeltaStrike(m, s.lp, s.vix1d, 0.10, Call);
    var put := GetDeltaStrike(m, s.lp, s.vix1d, 0.10, Put);
    StrikeSides(m, s.lp, s.vix1d, 0.10);
    assert Max(s.lp * 1.01, call) == s.lp * 1.01;
    RoundMonotone(Min(s.lp * 0.99, put), s.lp * 0.99);
    RoundMonotone(s.lp * 0.99, s.lp * 1.01);
  }

  /**
   * The condor's call strike with the call estimate under the market
   * convention (Strike.IntendedCall): the larger of the 1% cap and the
   * 0.10-delta call, rounded.
   */
  function IntendedCondorCall(m: MathLib, lp: real, vix1d: real): int {
    Round(Max(lp * 1.01, IntendedCall(m, lp, Sigma(vix1d), 0.10)))
  }

  /**
   * With the corrected estimate the 0.10-delta call lies above the spot,
   * mirroring the 0.10-delta put below it, and the call strike is at or
   * above both the 1% cap and that estimate.
   */
  lemma IntendedCondorStrikes(m: MathLib, lp: real, vix1d: real)
    requires Lawful(m) && lp > 0.0 && vix1d >= 0.0
    ensures GetDeltaStrike(m, lp, vix1d, 0.10, Put) < lp < IntendedCall(m, lp, Sigma(vix1d), 0.10)
    ensures IntendedCondorCall(m, lp, vix1d) >= Round(lp * 1.01)
    ensures IntendedCondorCall(m, lp, vix1d) >= Round(IntendedCall(m, lp, Sigma(vix1d), 0.10))
    ensures Round(Min(lp * 0.99, GetDeltaStrike(m, lp, vix1d, 0.10, Put))) <= Round(lp) <= IntendedCondorCall(m, lp, vix1d)
  {
    var call := IntendedCall(m, lp, Sigma(vix1d), 0.10);
    var put := GetDeltaStrike(m, lp, vix1d, 0.10, Put);
    IntendedCallSide(m, lp, Sigma(vix1d), 0.10);
    RoundMonotone(lp * 1.01, Max(lp * 1.01, call));
    RoundMonotone(call, Max(lp * 1.01, call));
    RoundMonotone(Min(lp * 0.99, put), lp);
    RoundMonotone(lp, Max(lp * 1.01, call));
  }

  /**
   * A debit spread's short strike is the spot rounded (delta 0.5), and its
   * long strike, at delta 0.70, is on or above it for calls and puts alike.
   */
  lemma DebitSpreadStrikes(m: MathLib, s: Snapshot, balance: real)
    requires Lawful(m) && s.lp > 0.0 && s.vix1d >= 0.0
    requires Decide(m, s, balance).Done? && Decide(m, s, balance).decision.combo.DebitSpread?
    ensures var d := Decide(m, s, balance).decision;
      d.sp == Round(s.lp) && d.sc >= d.sp
  {
    var d := Decide(m, s, balance).decision;
    var kind := if d.bias == Bullish then Call else Put;
    assert (d.sc, d.sp) == (Round(GetDeltaStrike(m, s.lp, s.vix1d, 0.70, kind)), Round(GetDeltaStrike(m, s.lp, s.vix1d, 0.50, kind)));
    StrikeSides(m, s.lp, s.vix1d, 0.70);
    PutSide(m, s.lp, Sigma(s.vix1d), 0.70);
    assert s.lp <= GetDeltaStrike(m, s.lp, s.vix1d, 0.70, kind);
    RoundMonotone(s.lp, GetDeltaStrike(m, s.lp, s.vix1d, 0.70, kind));
  }

  /**
   * Sizing of a completed run: the wing is 2 or 5 points, 5 exactly when
   * VIX1D is above 18; the lots shown are at least one and are the
   * truncated risk budget over the wing loss whenever that is at least one;
   * the profit target is a quarter of the risk budget.
   */
  lemma Sizing(m: MathLib, s: Snapshot, balance: real)
    requires Decide(m, s, balance).Done?
    ensures var r := Decide(m, s, balance);
      && (r.decision.wingWidth == 2 || r.decision.wingWidth == 5)
      && (r.decision.wingWidth == 5 <==> s.vix1d > 18.0)
      && 4.0 * r.decision.targetProfit == balance * 0.02
      && (balance >= 0.0 ==> (r.decision.contracts * r.decision.wingWidth * 100) as real <= balance * 0.02)
      && (r.advice.Order? ==> r.advice.lots >= 1 && (r.decision.contracts >= 1 ==> r.advice.lots == r.decision.contracts))
      && (r.advice.Order? && r.decision.contracts < 1 ==> r.advice.lots == 1)
  {
  }

  /** With the default balance of 28630 a 5-point wing gives one lot and a 2-point wing two. */
  lemma DefaultBalanceLots()
    ensures Contracts(28630.0, 5) == 1 && DisplayedLots(Contracts(28630.0, 5)) == 1
    ensures Contracts(28630.0, 2) == 2
  {
  }

  /**
   * A rally of 1.1% on an inverted term structure with high VVIX and SKEW
   * and a low TRIN scores 100 and picks a bullish debit spread.
   */
  lemma HighRiskRally(m: MathLib)
    ensures var r := Decide(m, Snapshot(450.0, 445.0, 20.0, 15.0, 120.0, 150.0, Some(0.80)), 28630.0);
      && r.Done? && r.decision.riskScore == 100 && r.decision.bias == Bullish
      && r.decision.combo == DebitSpread(Bullish) && r.decision.wingWidth == 5 && r.advice.Order?
      && r.advice.lots == 1
  {
  }

  /** A flat, calm session scores 0 and picks an iron condor around the spot. */
  lemma CalmSession(m: MathLib)
    requires Lawful(m)
    ensures var r := Decide(m, Snapshot(450.0, 450.0, 12.0, 15.0, 90.0, 120.0, Some(1.0)), 28630.0);
      && r.Done? && r.decision.riskScore == 0 && r.decision.bias == Neutral
      && r.decision.combo == IronCondor && r.decision.sc == 454 && r.decision.sp <= 446
      && r.decision.wingWidth == 2
  {
    var s := Snapshot(450.0, 450.0, 12.0, 15.0, 90.0, 120.0, Some(1.0));
    CondorStrikes(m, s, 28630.0);
  }
}
