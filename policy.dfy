/**
 * The decision rules the two scripts share: the additive risk score, the
 * two-factor bias, the priority order of the four strategies, the wing
 * width and the position sizing, and the records a run produces.
 */
module Policy {
  import opened Numerics

  /** A market snapshot as the data download leaves it; TRIN may be missing. */
  datatype Snapshot = Snapshot(
    lp: real,           // last SPY price
    op: real,           // SPY anchor (open) price
    vix1d: real,
    vix: real,
    vvix: real,
    skew: real,
    trin: Option<real>)

  /** NEUTRAL, ALCISTA (bullish) and BAJISTA (bearish). */
  datatype Bias = Neutral | Bullish | Bearish

  /** The strategy named by `combo`; debit and credit spreads carry the bias they follow. */
  datatype Combo = DebitSpread(direction: Bias) | NoTrade | CreditSpread(direction: Bias) | IronCondor

  /**
   * The decision of one run: `sc` and `sp` are the script's `s_c` and `s_p`
   * (0 where a side is not used), `contracts` the raw `num_contratos`.
   */
  datatype Decision = Decision(
    riskScore: int,
    bias: Bias,
    combo: Combo,
    sc: int,
    sp: int,
    wingWidth: int,
    contracts: int,
    targetProfit: real)

  /** A displayed leg: the debit line "buy / sell", or one short spread "sell / buy". */
  datatype Leg = DebitLeg(buy: int, sell: int) | CallSpread(sell: int, buy: int) | PutSpread(sell: int, buy: int)

  /** What the result panel shows: the do-not-trade message, or lots, profit target and legs. */
  datatype Advice = NoTradeNotice | Order(lots: int, targetProfit: real, legs: seq<Leg>)

  /**
   * Why a run shows an error instead of a recommendation: the explicit
   * missing-data stop, or a float division by zero caught by the handler.
   */
  datatype Failure = MissingCriticalData | DivisionByZero

  datatype Run = Failed(failure: Failure) | Done(decision: Decision, advice: Advice)

  /** The risk score at or above which the scripts call the day high risk. */
  const HighRisk: int := 75

  function Points(triggered: bool, weight: int): int {
    if triggered then weight else 0
  }

  /** The relative move of the last price away from the anchor, |lp - op| / op. */
  function Move(lp: real, op: real): real
    requires op != 0.0
  {
    Abs(lp - op) / op
  }

  /**
   * The additive risk score: 40 for an inverted VIX term structure, 30 for
   * a high VVIX, 15 for a high SKEW and 15 for a move of more than 0.8%.
   */
  function RiskScore(vixRatio: real, vvix: real, skew: real, lp: real, op: real): (score: int)
    requires op != 0.0
    ensures 0 <= score <= 100 && score % 5 == 0
    ensures score in {0, 15, 30, 40, 45, 55, 60, 70, 85, 100}
    ensures score >= HighRisk <==> vixRatio > 1.10 && vvix > 115.0 && (skew > 145.0 || Move(lp, op) > 0.008)
  {
    Points(vixRatio > 1.10, 40) + Points(vvix > 115.0, 30) + Points(skew > 145.0, 15)
      + Points(Move(lp, op) > 0.008, 15)
  }

  /**
   * The bias needs the price move and the breadth reading to agree:
   * bullish above +0.4% with TRIN below 0.85, bearish below -0.4% with
   * TRIN above 1.15, neutral otherwise.
   */
  function BiasOf(lp: real, op: real, trin: real): (b: Bias)
    ensures 0.85 <= trin <= 1.15 ==> b == Neutral
    ensures b == Bullish <==> lp > op * 1.004 && trin < 0.85
    ensures b == Bearish <==> lp < op * 0.996 && trin > 1.15
  {
    if lp > op * 1.004 && trin < 0.85 then Bullish
    else if lp < op * 0.996 && trin > 1.15 then Bearish
    else Neutral
  }

  /**
   * The strategy, first match wins: debit spread, no trade, credit spread,
   * iron condor. Exactly one of the four regimes of (high risk, has a bias)
   * leads to each.
   */
  function ChooseCombo(score: int, bias: Bias): (c: Combo)
    ensures c == NoTrade <==> score >= HighRisk && bias == Neutral
    ensures c == IronCondor <==> score < HighRisk && bias == Neutral
    ensures c.DebitSpread? <==> score >= HighRisk && bias != Neutral
    ensures c.CreditSpread? <==> score < HighRisk && bias != Neutral
    ensures (c.DebitSpread? || c.CreditSpread?) ==> c.direction == bias
  {
    if score >= HighRisk && bias != Neutral then DebitSpread(bias)
    else if score >= HighRisk then NoTrade
    else if bias != Neutral then CreditSpread(bias)
    else IronCondor
  }

  /** Wider wings (5 points) when the one-day volatility index is above 18, 2 points otherwise. */
  function WingWidth(vix1d: real): (w: int)
    ensures w == 2 || w == 5
    ensures w == 5 <==> vix1d > 18.0
  {
    if vix1d > 18.0 then 5 else 2
  }

  /** The risk budget of a run: 2% of the balance. */
  function MaxRisk(balance: real): real {
    balance * 0.02
  }

  /** The profit target: 0.5% of the balance, a quarter of the risk budget. */
  function TargetProfit(balance: real): (target: real)
    ensures 4.0 * target == MaxRisk(balance)
    ensures balance > 0.0 ==> 0.0 < target < balance
  {
    balance * 0.005
  }

  /** The raw contract count: the risk budget over the loss of one wing, int()-truncated. */
  function Contracts(balance: real, wingWidth: int): (n: int)
    requires wingWidth > 0
    ensures balance >= 0.0 ==> n >= 0 && (n * wingWidth * 100) as real <= MaxRisk(balance)
    ensures balance >= 0.0 ==> MaxRisk(balance) < ((n + 1) * wingWidth * 100) as real
  {
    var perContract := (wingWidth * 100) as real;
    var n := Trunc(MaxRisk(balance) / perContract);
    assert balance >= 0.0 ==> n as real * perContract <= MaxRisk(balance) < (n as real + 1.0) * perContract by {
      if balance >= 0.0 {
        assert n as real <= MaxRisk(balance) / perContract < n as real + 1.0;
        DivBounds(MaxRisk(balance), perContract, n);
      }
    }
    n
  }

  lemma DivBounds(x: real, d: real, n: int)
    requires d > 0.0 && n as real <= x / d < n as real + 1.0
    ensures n as real * d <= x < (n as real + 1.0) * d
  {
    var q, k := x / d, n as real + 1.0;
    assert q * d == x;
    MulMonotone(n as real, q, d);
    MulMonotone(q, k, d);
    assert x < k * d;
  }

  lemma MulMonotone(a: real, b: real, d: real)
    requires d > 0.0
    ensures a <= b ==> a * d <= b * d
    ensures a < b ==> a * d < b * d
  {
    if a < b {
      assert (b - a) * d > 0.0;
    }
  }

  /** The lots shown: max(1, contracts), so always at least one. */
  function DisplayedLots(contracts: int): (lots: int)
    ensures lots >= 1 && lots >= contracts
    ensures contracts >= 1 ==> lots == contracts
    ensures contracts < 1 ==> lots == 1
  {
    if contracts > 1 then contracts else 1
  }

  /** More balance never means fewer contracts. */
  lemma ContractsMonotoneInBalance(b1: real, b2: real, wingWidth: int)
    requires wingWidth > 0 && b1 <= b2
    ensures Contracts(b1, wingWidth) <= Contracts(b2, wingWidth)
    ensures DisplayedLots(Contracts(b1, wingWidth)) <= DisplayedLots(Contracts(b2, wingWidth))
  {
    var perContract := (wingWidth * 100) as real;
    assert MaxRisk(b1) <= MaxRisk(b2);
    assert MaxRisk(b1) / perContract <= MaxRisk(b2) / perContract;
    TruncMonotone(MaxRisk(b1) / perContract, MaxRisk(b2) / perContract);
  }

  /** Wider wings never mean more contracts for a non-negative balance. */
  lemma ContractsAntitoneInWing(balance: real, w1: int, w2: int)
    requires 0 < w1 <= w2 && balance >= 0.0
    ensures Contracts(balance, w2) <= Contracts(balance, w1)
  {
    var p1, p2 := (w1 * 100) as real, (w2 * 100) as real;
    var r := MaxRisk(balance);
    var q1, q2 := r / p1, r / p2;
    assert q2 <= q1 by {
      assert q2 * p2 == r && q1 * p1 == r;
      assert q2 >= 0.0;
      assert q2 * p1 <= q2 * p2;
      if q1 < q2 {
        MulMonotone(q1, q2, p1);
        assert false;
      }
    }
    TruncMonotone(q2, q1);
  }
}
