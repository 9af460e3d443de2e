/**
 * streamlit_app1.py: the other copy of the analysis run. It has no
 * missing-data stop (a zero VIX fails as a division by zero), keeps a
 * TRIN reading of 0 as it is, has no volatility fallback in the strike
 * estimate, passes -0.10 for the put side, and decides whether to show an
 * order from the strikes rather than from the strategy name.
 */
module App1 {
  import opened Numerics
  import opened Strike
  import opened Policy

  /**
   * get_delta_strike(price, iv, delta, option_type), with the index over 100
   * as the volatility: positive for a positive spot, and the spot itself at
   * delta 0.5 or for a zero index.
   */
  function GetDeltaStrike(m: MathLib, price: real, iv: real, delta: real, kind: OptionKind): (r: real)
    ensures Lawful(m) && price > 0.0 ==> r > 0.0
    ensures Lawful(m) && (delta == 0.5 || iv == 0.0) ==> r == price
  {
    Lognormal(m, price, iv / 100.0, delta, kind)
  }

  /** Without a fallback a zero volatility index puts every strike on the spot, calls and puts alike. */
  lemma StrikeWithoutFallback(m: MathLib, price: real, delta: real, kind: OptionKind)
    requires Lawful(m)
    ensures GetDeltaStrike(m, price, 0.0, delta, kind) == price
  {
    ZeroVolatility(m, price, delta, kind);
  }

  /** The put estimate sees only the magnitude of delta: -0.10 gives the 0.10 strike. */
  lemma NegativePutDelta(m: MathLib, price: real, iv: real)
    ensures GetDeltaStrike(m, price, iv, -0.10, Put) == GetDeltaStrike(m, price, iv, 0.10, Put)
  {
    PutUsesMagnitude(m, price, iv / 100.0, 0.10);
  }

  /**
   * Where the estimate lies for a non-negative index: the put at delta
   * -0.10 on or below the spot, the call at 0.10 on or below it too, and
   * the 0.70 estimates on or above it.
   */
  lemma StrikeSides(m: MathLib, price: real, iv: real)
    requires Lawful(m) && price > 0.0 && iv >= 0.0
    ensures GetDeltaStrike(m, price, iv, -0.10, Put) <= price
    ensures GetDeltaStrike(m, price, iv, 0.10, Call) <= price
    ensures GetDeltaStrike(m, price, iv, 0.70, Call) >= price
    ensures GetDeltaStrike(m, price, iv, 0.70, Put) >= price
    ensures GetDeltaStrike(m, price, iv, 0.50, Call) == price == GetDeltaStrike(m, price, iv, 0.50, Put)
  {
    AtTheMoney(m, price, iv / 100.0, Call);
    AtTheMoney(m, price, iv / 100.0, Put);
    NegativePutDelta(m, price, iv);
    if iv == 0.0 {
      ZeroVolatility(m, price, 0.10, Put);
      ZeroVolatility(m, price, 0.10, Call);
      ZeroVolatility(m, price, 0.70, Call);
      ZeroVolatility(m, price, 0.70, Put);
    } else {
      PutSide(m, price, iv / 100.0, 0.10);
      PutSide(m, price, iv / 100.0, 0.70);
      CallSide(m, price, iv / 100.0, 0.10);
      CallSide(m, price, iv / 100.0, 0.70);
    }
  }

  /** A TRIN series with no data fails the inner lookup and reads 1.0; any reading, 0 included, is kept. */
  function Trin(reading: Option<real>): (trin: real)
    ensures reading.None? ==> trin == 1.0
    ensures reading.Some? ==> trin == reading.value
  {
    if reading.Some? then reading.value else 1.0
  }

  /**
   * The short strikes (s_c, s_p) of the chosen strategy, 0 on a side that
   * is not used; a short put is never above the 1% floor under spot and a
   * short call never below the 1% cap over it.
   */
  function Strikes(m: MathLib, combo: Combo, lp: real, vix1d: real): (r: (int, int))
    ensures combo == NoTrade ==> r == (0, 0)
    ensures combo == CreditSpread(Bullish) ==> r.0 == 0 && r.1 <= Round(lp * 0.99)
    ensures combo == CreditSpread(Bearish) ==> r.1 == 0 && r.0 >= Round(lp * 1.01)
    ensures combo == IronCondor ==> r.1 <= Round(lp * 0.99) && r.0 >= Round(lp * 1.01)
  {
    RoundMonotone(Min(lp * 0.99, GetDeltaStrike(m, lp, vix1d, -0.10, Put)), lp * 0.99);
    RoundMonotone(lp * 1.01, Max(lp * 1.01, GetDeltaStrike(m, lp, vix1d, 0.10, Call)));
    match combo
    case DebitSpread(b) =>
      var kind := if b == Bullish then Call else Put;
      (Round(GetDeltaStrike(m, lp, vix1d, 0.70, kind)), Round(GetDeltaStrike(m, lp, vix1d, 0.50, kind)))
    case NoTrade => (0, 0)
    case CreditSpread(b) =>
      var sRef := if b == Bullish then Round(Min(lp * 0.99, GetDeltaStrike(m, lp, vix1d, -0.10, Put)))
                  else Round(Max(lp * 1.01, GetDeltaStrike(m, lp, vix1d, 0.10, Call)));
      if b == Bullish then (0, sRef) else (sRef, 0)
    case IronCondor =>
      (Round(Max(lp * 1.01, GetDeltaStrike(m, lp, vix1d, 0.10, Call))),
       Round(Min(lp * 0.99, GetDeltaStrike(m, lp, vix1d, -0.10, Put))))
  }

  /**
   * The legs the panel lists: for a debit spread, buy s_c (or s_p when s_c
   * is 0) and sell s_c + 2 for a bullish bias, s_p - 2 otherwise; else a
   * call spread for a non-zero s_c and a put spread for a non-zero s_p,
   * each protected one wing further out.
   */
  function Legs(d: Decision): (legs: seq<Leg>)
    ensures d.combo.DebitSpread? ==>
      legs == [DebitLeg(if d.sc != 0 then d.sc else d.sp, if d.bias == Bullish then d.sc + 2 else d.sp - 2)]
    ensures !d.combo.DebitSpread? ==>
      && (CallSpread(d.sc, d.sc + d.wingWidth) in legs <==> d.sc != 0)
      && (PutSpread(d.sp, d.sp - d.wingWidth) in legs <==> d.sp != 0)
      && forall leg :: leg in legs ==> leg == CallSpread(d.sc, d.sc + d.wingWidth) || leg == PutSpread(d.sp, d.sp - d.wingWidth)
    ensures !d.combo.DebitSpread? ==>
      && |legs| == (if d.sc != 0 then 1 else 0) + (if d.sp != 0 then 1 else 0)
      && (d.sc != 0 ==> legs[0] == CallSpread(d.sc, d.sc + d.wingWidth))
  {
    if d.combo.DebitSpread? then
      [DebitLeg(if d.sc != 0 then d.sc else d.sp, if d.bias == Bullish then d.sc + 2 else d.sp - 2)]
    else
      (if d.sc != 0 then [CallSpread(d.sc, d.sc + d.wingWidth)] else [])
        + (if d.sp != 0 then [PutSpread(d.sp, d.sp - d.wingWidth)] else [])
  }

  /** The panel: lots and legs when some strike is non-zero, the warning otherwise. */
  function Advise(d: Decision): (a: Advice)
    ensures a == NoTradeNotice <==> d.sc == 0 && d.sp == 0
    ensures a.Order? ==> a.lots >= 1 && a.lots >= d.contracts && a.targetProfit == d.targetProfit
    ensures a.Order? ==> a.lots == DisplayedLots(d.contracts) && a.legs == Legs(d)
  {
    if d.sc != 0 || d.sp != 0 then Order(DisplayedLots(d.contracts), d.targetProfit, Legs(d))
    else NoTradeNotice
  }

  /**
   * The analysis run as a function of the snapshot: a zero VIX or a zero
   * anchor price fails as a division by zero; otherwise score, bias,
   * strategy, strikes and sizing.
   */
  function Decide(m: MathLib, s: Snapshot, balance: real): (r: Run)
    ensures r.Failed? <==> s.vix == 0.0 || s.op == 0.0
    ensures r.Failed? ==> r.failure == DivisionByZero
    ensures r.Done? ==> 0 <= r.decision.riskScore <= 100 && r.decision.riskScore % 5 == 0
    ensures r.Done? && r.decision.combo == NoTrade ==> r.advice == NoTradeNotice
  {
    if s.vix == 0.0 || s.op == 0.0 then Failed(DivisionByZero)
    else
      var score := RiskScore(s.vix1d / s.vix, s.vvix, s.skew, s.lp, s.op);
      var bias := BiasOf(s.lp, s.op, Trin(s.trin));
      var combo := ChooseCombo(score, bias);
      var (sc, sp) := Strikes(m, combo, s.lp, s.vix1d);
      var wingWidth := WingWidth(s.vix1d);
      var d := Decision(score, bias, combo, sc, sp, wingWidth, Contracts(balance, wingWidth), TargetProfit(balance));
      Done(d, Advise(d))
  }

  /** The button handler's body, step by step as the script runs it. */
  method RunAnalysis(m: MathLib, s: Snapshot, balance: real) returns (r: Run)
    ensures r == Decide(m, s, balance)
  {
    var trin := 1.0;
    if s.trin.Some? {
      trin := s.trin.value;
    }
    if s.vix == 0.0 {
      return Failed(DivisionByZero);
    }
    var vixRatio := s.vix1d / s.vix;
    var riskScore := 0;
    if vixRatio > 1.10 { riskScore := riskScore + 40; }
    if s.vvix > 115.0 { riskScore := riskScore + 30; }
    if s.skew > 145.0 { riskScore := riskScore + 15; }
    if s.op == 0.0 {
      return Failed(DivisionByZero);
    }
    if Abs(s.lp - s.op) / s.op > 0.008 { riskScore := riskScore + 15; }
    assert riskScore == RiskScore(vixRatio, s.vvix, s.skew, s.lp, s.op);

    var bias := Neutral;
    if s.lp > s.op * 1.004 && trin < 0.85 {
      bias := Bullish;
    } else if s.lp < s.op * 0.996 && trin > 1.15 {
      bias := Bearish;
    }
    assert bias == BiasOf(s.lp, s.op, Trin(s.trin));

    var wingWidth := if s.vix1d > 18.0 then 5 else 2;
    var targetProfit := balance * 0.005;
    var riskBudget := balance * 0.02;
    var contracts := Trunc(riskBudget / (wingWidth * 100) as real);
    assert wingWidth == WingWidth(s.vix1d) && contracts == Contracts(balance, wingWidth);

    var combo: Combo;
    var sc: int, sp: int;
    if riskScore >= 75 && bias != Neutral {
      combo := DebitSpread(bias);
      var kind := if bias == Bullish then Call else Put;
      var sLong := GetDeltaStrike(m, s.lp, s.vix1d, 0.70, kind);
      var sShort := GetDeltaStrike(m, s.lp, s.vix1d, 0.50, kind);
      sc, sp := Round(sLong), Round(sShort);
    } else if riskScore >= 75 {
      combo := NoTrade;
      sc, sp := 0, 0;
    } else if bias != Neutral {
      combo := CreditSpread(bias);
      var sRef := if bias == Bullish then Round(Min(s.lp * 0.99, GetDeltaStrike(m, s.lp, s.vix1d, -0.10, Put)))
                  else Round(Max(s.lp * 1.01, GetDeltaStrike(m, s.lp, s.vix1d, 0.10, Call)));
      sc, sp := if bias == Bullish then 0 else sRef, if bias == Bullish then sRef else 0;
    } else {
      combo := IronCondor;
      sc := Round(Max(s.lp * 1.01, GetDeltaStrike(m, s.lp, s.vix1d, 0.10, Call)));
      sp := Round(Min(s.lp * 0.99, GetDeltaStrike(m, s.lp, s.vix1d, -0.10, Put)));
    }

    assert combo == ChooseCombo(riskScore, bias);
    assert (sc, sp) == Strikes(m, combo, s.lp, s.vix1d);
    var d := Decision(riskScore, bias, combo, sc, sp, wingWidth, contracts, targetProfit);
    var advice := Display(d);
    r := Done(d, advice);
  }

  /** The result panel of the handler: shown only when some strike is non-zero. */
  method Display(d: Decision) returns (advice: Advice)
    ensures advice == Advise(d)
  {
    advice := NoTradeNotice;
    if d.sc != 0 || d.sp != 0 {
      var legs: seq<Leg> := [];
      if d.combo.DebitSpread? {
        var buy := if d.sc != 0 then d.sc else d.sp;
        var sell := Round(if d.bias == Bullish then (d.sc + 2) as real else (d.sp - 2) as real);
        RoundOfWhole(if d.bias == Bullish then d.sc + 2 else d.sp - 2);
        legs := [DebitLeg(buy, sell)];
      } else {
        if d.sc != 0 { legs := legs + [CallSpread(d.sc, d.sc + d.wingWidth)]; }
        if d.sp != 0 { legs := legs + [PutSpread(d.sp, d.sp - d.wingWidth)]; }
      }
      advice := Order(if d.contracts > 1 then d.contracts else 1, d.targetProfit, legs);
    }
  }

  /**
   * The bias of a completed run: neutral when TRIN is missing or reads in
   * [0.85, 1.15]; bullish and bearish each need both the price move and
   * the TRIN reading, and a reading of 0 counts as a low TRIN.
   */
  lemma BiasRules(m: MathLib, s: Snapshot, balance: real)
    requires Decide(m, s, balance).Done?
    ensures var b := Decide(m, s, balance).decision.bias;
      && (s.trin.None? ==> b == Neutral)
      && (s.trin.Some? && 0.85 <= s.trin.value <= 1.15 ==> b == Neutral)
      && (b == Bullish <==> s.lp > s.op * 1.004 && s.trin.Some? && s.trin.value < 0.85)
      && (b == Bearish <==> s.lp < s.op * 0.996 && s.trin.Some? && s.trin.value > 1.15)
  {
  }

  /**
   * NO OPERAR is chosen exactly when the score reaches 75 with a neutral
   * bias; both strikes are then 0, which is what makes the panel show the
   * warning.
   */
  lemma NoTradeExactly(m: MathLib, s: Snapshot, balance: real)
    requires Decide(m, s, balance).Done?
    ensures var d := Decide(m, s, balance).decision;
      && (d.combo == NoTrade <==> d.riskScore >= 75 && d.bias == Neutral)
      && (d.combo == NoTrade ==> d.sc == 0 && d.sp == 0 && Decide(m, s, balance).advice == NoTradeNotice)
  {
  }

  /**
   * A credit spread is one-sided: a bullish one sells only the put, at or
   * below the 1% floor under spot, using the 0.10 put estimate; a bearish
   * one sells only the call, at or above the 1% cap over spot.
   */
  lemma CreditSpreadStrikes(m: MathLib, s: Snapshot, balance: real)
    requires Decide(m, s, balance).Done?
    ensures var d := Decide(m, s, balance).decision;
      && (d.combo == CreditSpread(Bullish) ==>
            d.sc == 0 && d.sp == Round(Min(s.lp * 0.99, GetDeltaStrike(m, s.lp, s.vix1d, 0.10, Put)))
            && d.sp <= Round(s.lp * 0.99))
      && (d.combo == CreditSpread(Bearish) ==>
            d.sp == 0 && d.sc == Round(Max(s.lp * 1.01, GetDeltaStrike(m, s.lp, s.vix1d, 0.10, Call)))
            && d.sc >= Round(s.lp * 1.01))
  {
    var d := Decide(m, s, balance).decision;
    if d.combo == CreditSpread(Bullish) {
      NegativePutDelta(m, s.lp, s.vix1d);
      var put := GetDeltaStrike(m, s.lp, s.vix1d, 0.10, Put);
      RoundMonotone(Min(s.lp * 0.99, put), s.lp * 0.99);
    } else if d.combo == CreditSpread(Bearish) {
      var call := GetDeltaStrike(m, s.lp, s.vix1d, 0.10, Call);
      RoundMonotone(s.lp * 1.01, Max(s.lp * 1.01, call));
    }
  }

  /**
   * The iron condor's strikes straddle the spot at least 1% out on each
   * side, and the call strike is always the 1% cap itself.
   */
  lemma CondorStrikes(m: MathLib, s: Snapshot, balance: real)
    requires Lawful(m) && s.lp > 0.0 && s.vix1d >= 0.0
    requires Decide(m, s, balance).Done? && Decide(m, s, balance).decision.combo == IronCondor
    ensures var d := Decide(m, s, balance).decision;
      d.sp <= Round(s.lp * 0.99) <= Round(s.lp * 1.01) == d.sc
  {
    var call := GetDeltaStrike(m, s.lp, s.vix1d, 0.10, Call);
    var put := GetDeltaStrike(m, s.lp, s.vix1d, -0.10, Put);
    StrikeSides(m, s.lp, s.vix1d);
    assert Max(s.lp * 1.01, call) == s.lp * 1.01;
    RoundMonotone(Min(s.lp * 0.99, put), s.lp * 0.99);
    RoundMonotone(s.lp * 0.99, s.lp * 1.01);
  }

  /**
   * The debit line buys the long strike and sells s_c + 2 for a bullish
   * spread and s_p - 2 (two below the rounded spot) for a bearish one.
   */
  lemma DebitSpreadDisplay(m: MathLib, s: Snapshot, balance: real)
    requires Lawful(m) && s.lp > 0.0 && s.vix1d >= 0.0
    requires Decide(m, s, balance).Done? && Decide(m, s, balance).decision.combo.DebitSpread?
    ensures var r := Decide(m, s, balance);
      && r.decision.sp == Round(s.lp) <= r.decision.sc
      && (r.decision.sc != 0 && r.decision.bias == Bullish ==>
            r.advice.Order? && r.advice.legs == [DebitLeg(r.decision.sc, r.decision.sc + 2)])
      && (r.decision.sc != 0 && r.decision.bias == Bearish ==>
            r.advice.Order? && r.advice.legs == [DebitLeg(r.decision.sc, Round(s.lp) - 2)])
  {
    var r := Decide(m, s, balance);
    var d := r.decision;
    var kind := if d.bias == Bullish then Call else Put;
    assert (d.sc, d.sp) == (Round(GetDeltaStrike(m, s.lp, s.vix1d, 0.70, kind)), Round(GetDeltaStrike(m, s.lp, s.vix1d, 0.50, kind)));
    StrikeSides(m, s.lp, s.vix1d);
    RoundMonotone(s.lp, GetDeltaStrike(m, s.lp, s.vix1d, 0.70, kind));
    if d.sc != 0 {
      assert r.advice == Order(DisplayedLots(d.contracts), d.targetProfit, Legs(d));
    }
  }

  /**
   * A run whose last SPY price is 0 is not stopped: every strike is 0, so
   * whatever the strategy the panel shows the do-not-trade warning.
   */
  lemma ZeroSpotShowsWarning(m: MathLib, s: Snapshot, balance: real)
    requires s.lp == 0.0 && Decide(m, s, balance).Done?
    ensures Decide(m, s, balance).advice == NoTradeNotice
  {
    assert Min(0.0, 0.0) == 0.0 && Max(0.0, 0.0) == 0.0;
  }

  /**
   * Sizing of a completed run: the wing is 2 or 5 points, 5 exactly when
   * VIX1D is above 18, and the lots shown are at least one, equal to the
   * truncated risk budget over the wing loss whenever that is at least one.
   */
  lemma Sizing(m: MathLib, s: Snapshot, balance: real)
    requires Decide(m, s, balance).Done?
    ensures var r := Decide(m, s, balance);
      && (r.decision.wingWidth == 2 || r.decision.wingWidth == 5)
      && (r.decision.wingWidth == 5 <==> s.vix1d > 18.0)
      && (balance >= 0.0 ==> (r.decision.contracts * r.decision.wingWidth * 100) as real <= balance * 0.02)
      && (r.advice.Order? ==> r.advice.lots >= 1 && (r.decision.contracts >= 1 ==> r.advice.lots == r.decision.contracts))
      && (r.advice.Order? && r.decision.contracts < 1 ==> r.advice.lots == 1)
  {
  }
}
