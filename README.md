# SPY 0DTE Maestro: the strategy decision

"SPY 0DTE Maestro" is a Streamlit dashboard. On a button press it reads a
market snapshot and recommends one same-day (0DTE) SPY options strategy. The
snapshot holds the last and anchor SPY prices, VIX1D, VIX, VVIX, SKEW and NYSE
TRIN. The recommended strategy is one of:

- a vertical debit spread;
- "NO OPERAR" (do not trade);
- a vertical credit spread;
- an iron condor.

The recommendation comes with short strikes, a wing width, a lot count and a
profit target. The repository holds two near-identical copies of the script:
`streamlit_app.py` and `streamlit_app1.py`. This project models the decision
logic of both copies and the strike-from-delta estimate `get_delta_strike`
they share, and proves what each promises and where the two differ.

Modules:

- `Numerics`:
  - Python's `round` (ties to even) and `int()` (truncation toward zero), both written out concretely;
  - `min`, `max` and `abs`;
  - `MathLib`, the library calls of the estimate (`norm.ppf`, `np.exp`, `np.sqrt`). These are passed in as values. Nothing is assumed about them beyond the laws of `Lawful`, and `LawfulIsSatisfiable` shows those laws are consistent.
- `Strike`: the lognormal estimate `price * exp(±z * sigma * sqrt(0.7/365))`, and on which side of the spot it lands.
- `Policy`: the rules both copies share:
  - the additive risk score;
  - the two-factor bias;
  - the priority order of the strategies;
  - the wing width;
  - the position sizing.
- `App` (`streamlit_app.py`) and `App1` (`streamlit_app1.py`). Each has:
  - `Decide`, the handler body as a function of the snapshot;
  - `RunAnalysis`, the same body written step by step as the script runs it (score accumulation, bias reassignment, per-branch strikes) and proved equal to `Decide`;
  - `Display`, the result panel, proved equal to `Advise`.
- `Variants`: where the two copies agree and where they part.

A run that the script ends with an error message is `Failed(...)`. There are
two causes:

- `MissingCriticalData`: the explicit stop in `streamlit_app.py`;
- `DivisionByZero`: a float division by zero caught by the broad exception handler.

## Model

| member | source | states |
|---|---|---|
| Numerics.Round | streamlit_app.py:89 | Python `round`: within 0.5 of its argument, and even on an exact tie |
| Numerics.RoundMonotone | streamlit_app.py:96-104 | rounding never reverses an order, so a strike guard survives rounding |
| Numerics.RoundOfWhole | streamlit_app1.py:96 | rounding a whole number gives it back |
| Numerics.Trunc | streamlit_app.py:83 | `int()` of a float: the largest integer not above it for non-negative input, the smallest not below it for negative input |
| Numerics.TruncMonotone | streamlit_app.py:83 | truncation is monotone |
| Strike.Lognormal | streamlit_app.py:18 | the estimate is positive for a positive spot; its side of the spot and its dependence on sigma are `AtTheMoney`, `ZeroVolatility`, `PutSide`, `CallSide` and the two `MonotoneInSigma` lemmas |
| Strike.AtTheMoney | streamlit_app.py:15-18 | at delta 0.5 the quantile is 0 and the estimate is the spot, for calls and puts |
| Strike.ZeroVolatility | streamlit_app1.py:14-16 | with sigma 0 the estimate is the spot whatever the delta |
| Strike.PutUsesMagnitude | streamlit_app.py:15 | a put estimate depends only on the magnitude of delta |
| Strike.PutSide | streamlit_app.py:15-18 | a put of delta magnitude below 0.5 lies below the spot, and one above 0.5 lies above it |
| Strike.CallSide | streamlit_app.py:15-18 | as written, a call of delta below 0.5 lies below the spot and one above 0.5 lies above it |
| Strike.CallMonotoneInSigma | streamlit_app.py:14-18 | a call estimate rises with volatility for delta above 0.5 and falls for delta below 0.5 |
| Strike.PutMonotoneInSigma | streamlit_app.py:14-18 | an out-of-the-money put estimate falls with volatility and an in-the-money one rises |
| Strike.IntendedCallSide | streamlit_app.py:18 | under the market convention a low-delta call lies above the spot, and the put and call of the same low delta bracket it |
| Policy.RiskScore | streamlit_app.py:69-73 | the score is in [0, 100], a multiple of 5 and one of the ten reachable sums; it is at least 75 exactly when the ratio is above 1.10 and VVIX is above 115 and (SKEW is above 145 or the move is above 0.8%) |
| Policy.BiasOf | streamlit_app.py:75-77 | neutral whenever TRIN is in [0.85, 1.15]; bullish exactly when the price is up more than 0.4% and TRIN is below 0.85; bearish exactly when the price is down more than 0.4% and TRIN is above 1.15 |
| Policy.ChooseCombo | streamlit_app.py:85-104 | each strategy corresponds to exactly one (high risk, has bias) regime; the spreads follow the bias |
| Policy.WingWidth | streamlit_app.py:80 | the wing is 2 or 5, and 5 exactly when VIX1D is above 18 |
| Policy.TargetProfit | streamlit_app.py:81-82 | the target is a quarter of the 2% risk budget and lies strictly between 0 and a positive balance |
| Policy.Contracts | streamlit_app.py:82-83 | the contract count is the largest n whose wing loss n * wing * 100 fits in the risk budget |
| Policy.DisplayedLots | streamlit_app.py:116 | the lots shown are max(1, contracts): equal to the count when it is at least 1, and 1 otherwise |
| Policy.ContractsMonotoneInBalance | streamlit_app.py:82-83 | a larger balance never gives fewer contracts or lots |
| Policy.ContractsAntitoneInWing | streamlit_app.py:80-83 | a wider wing never gives more contracts |
| App.Sigma | streamlit_app.py:14-17 | sigma is never 0: it is the index over 100, and exactly 0.15 when the index is 0 |
| App.GetDeltaStrike | streamlit_app.py:12-18 | a zero index is estimated at sigma 0.15; the estimate is positive for a positive spot and the spot itself at delta 0.5; its sides are `App.StrikeSides` |
| App.SigmaFallback | streamlit_app.py:16-17 | a zero index is estimated as if it read 15 |
| App.StrikeSides | streamlit_app.py:12-18 | on which side of the spot each estimate lies, for any non-negative index |
| App.Trin | streamlit_app.py:47-60 | a missing series or a 0 reading becomes 1.0; any other reading is kept |
| App.VixRatio | streamlit_app.py:68 | vix1d / vix, and 1 (no points) when VIX is 0 |
| App.Strikes | streamlit_app.py:85-104 | NO OPERAR has both strikes 0; a bullish credit spread has s_c = 0 and s_p at or below round(lp*0.99); a bearish one s_p = 0 and s_c at or above round(lp*1.01); the condor has both bounds. The debit strikes are `App.DebitSpreadStrikes` |
| App.Legs | streamlit_app.py:117-123 | the debit line buys s_c and sells s_c ± 2; otherwise a call spread appears exactly when s_c is non-zero and a put spread exactly when s_p is non-zero, each one wing further out, the call spread first, one leg per non-zero strike and nothing else |
| App.Advise | streamlit_app.py:115-125 | the warning is shown exactly for NO OPERAR; otherwise max(1, contracts) lots, the profit target and the legs of `Legs` |
| App.Decide | streamlit_app.py:60-104 | stops on missing data exactly when SPY or VIX reads 0; fails by division exactly when only the anchor is 0; the score is bounded; the warning is shown exactly for NO OPERAR |
| App.RunAnalysis | streamlit_app.py:60-125 | the step-by-step handler gives the same run as `Decide` |
| App.Display | streamlit_app.py:115-125 | the result panel shows `Advise` of the decision |
| App.BiasRules | streamlit_app.py:60-77 | neutral when TRIN is missing, 0 or in the band; bullish and bearish need both conditions |
| App.NoTradeExactly | streamlit_app.py:90-92 | NO OPERAR exactly when the score is at least 75 with a neutral bias, and then both strikes are 0 and the warning is shown |
| App.CreditSpreadStrikes | streamlit_app.py:93-100 | a bullish credit spread sells only a put at or below round(lp*0.99); a bearish one sells only a call at or above round(lp*1.01) |
| App.CondorStrikes | streamlit_app.py:101-104 | s_p <= round(lp*0.99) <= round(lp*1.01) == s_c, so the call strike is always the 1% cap |
| App.IntendedCondorStrikes | streamlit_app.py:103 | with the corrected call estimate, the 0.10 put and call bracket the spot and the call strike is at or above both the cap and the estimate |
| App.DebitSpreadStrikes | streamlit_app.py:85-89 | the short strike is the rounded spot and the long strike (delta 0.70) is at or beyond it |
| App.Sizing | streamlit_app.py:80-83 | wing 2 or 5 (5 iff VIX1D > 18), target a quarter of the budget, contracts within budget, lots equal to the count when it is at least 1 and 1 otherwise |
| App.DefaultBalanceLots | streamlit_app.py:80-83 | with the default balance of 28630, a 5-point wing gives 1 lot and a 2-point wing 2 contracts |
| App.HighRiskRally | streamlit_app.py:63-104 | a 1.1% rally on an inverted term structure with high VVIX and SKEW and a low TRIN scores 100 and buys a bullish debit spread of 1 lot |
| App.CalmSession | streamlit_app.py:63-104 | a flat calm session scores 0 and builds an iron condor with call 454 and put at most 446 around 450 |
| App1.GetDeltaStrike | streamlit_app1.py:12-16 | the estimate is positive for a positive spot, and the spot itself at delta 0.5 or for a zero index; its sides are `App1.StrikeSides` |
| App1.StrikeWithoutFallback | streamlit_app1.py:12-16 | with a zero index every estimate is the spot |
| App1.NegativePutDelta | streamlit_app1.py:77-82 | the -0.10 put gives the same strike as 0.10 |
| App1.StrikeSides | streamlit_app1.py:12-16 | the -0.10 put and the 0.10 call lie on or below the spot, the 0.70 estimates on or above it, and delta 0.5 on it |
| App1.Trin | streamlit_app1.py:44-47 | a missing series becomes 1.0; every reading, 0 included, is kept |
| App1.Strikes | streamlit_app1.py:67-82 | NO OPERAR has both strikes 0; a bullish credit spread has s_c = 0 and s_p at or below round(lp*0.99); a bearish one s_p = 0 and s_c at or above round(lp*1.01); the condor has both bounds. The debit strikes are `App1.DebitSpreadDisplay` |
| App1.Legs | streamlit_app1.py:95-99 | the debit line buys s_c (s_p when s_c is 0) and sells s_c + 2 (bullish) or s_p - 2; otherwise the same spreads as in streamlit_app.py, call spread first, one leg per non-zero strike |
| App1.Advise | streamlit_app1.py:93-101 | the warning is shown exactly when both strikes are 0; otherwise max(1, contracts) lots, the profit target and the legs of `Legs` |
| App1.Decide | streamlit_app1.py:44-82 | fails, always by division, exactly when VIX or the anchor is 0; the score is bounded; NO OPERAR shows the warning |
| App1.RunAnalysis | streamlit_app1.py:44-101 | the step-by-step handler gives the same run as `Decide` |
| App1.Display | streamlit_app1.py:93-101 | the result panel shows `Advise` of the decision |
| App1.BiasRules | streamlit_app1.py:44-58 | neutral when TRIN is missing or in the band; bullish and bearish need both conditions, and a 0 reading counts as a low TRIN |
| App1.NoTradeExactly | streamlit_app1.py:72-74 | NO OPERAR exactly when the score is at least 75 with a neutral bias, and then both strikes are 0 and the warning is shown |
| App1.CreditSpreadStrikes | streamlit_app1.py:75-78 | the credit spread is one-sided: the put at or below round(lp*0.99) from the 0.10 put estimate, or the call at or above round(lp*1.01) |
| App1.CondorStrikes | streamlit_app1.py:79-82 | s_p <= round(lp*0.99) <= round(lp*1.01) == s_c |
| App1.DebitSpreadDisplay | streamlit_app1.py:96 | s_p is the rounded spot and s_c is at or above it; the line sells s_c + 2 when bullish and the rounded spot minus 2 when bearish |
| App1.ZeroSpotShowsWarning | streamlit_app1.py:93-101 | with a last price of 0 every strike is 0, so the warning is shown whatever the strategy |
| App1.Sizing | streamlit_app1.py:61-64 | wing 2 or 5 (5 iff VIX1D > 18), contracts within budget, lots equal to the count when it is at least 1 and 1 otherwise |
| Variants.SameDecisionAwayFromZeros | streamlit_app1.py:44-82 | with non-zero prices, indices and VIX1D and a TRIN that is not 0, both copies complete with the same decision |
| Variants.ZeroTrinReading | streamlit_app.py:60 | a 0 TRIN on a rally gives an iron condor in one copy and a bullish credit spread in the other |
| Variants.ZeroReadings | streamlit_app.py:63-65 | a zero VIX is a missing-data stop in one copy and a division failure in the other; a zero SPY stops one copy while the other shows the warning |
| Variants.ZeroVolatilityPut | streamlit_app.py:17 | with a zero VIX1D the 0.10 put is below the spot in one copy and on it in the other |
| Variants.BearishDebitLine | streamlit_app.py:119 | the bearish debit line sells s_c - 2 in one copy and s_p - 2 in the other |

Two facts about the code that the contracts make visible:

- No run scores 75: the weights 40, 30, 15 and 15 never sum to it. `Policy.RiskScore` lists the ten reachable values.
- In `streamlit_app.py` the stop at line 63 ends any run with a zero VIX before the guarded division at line 68 could use its fallback. In `streamlit_app1.py` a zero VIX raises at line 49.

## Left out

- All Streamlit presentation: page setup, inputs, metrics, messages, number formatting. Only the strategy, the lots, the profit target and the legs shown are modelled.
- The market-data download and the pandas extraction. The snapshot is an input:
  - TRIN is an `Option` (`None` for an empty series);
  - every other series is taken as read.
- Missing series other than TRIN are not modelled. In `streamlit_app.py`, an empty SPY series fails at the anchor lookup (line 54) before the stop at line 63, so `lp == 0` there means a reading of 0. In `streamlit_app1.py`, any empty series other than TRIN raises at lines 37-42.
- The anchor price: it is the first SPY close in one copy and the first SPY open in the other. Both are the snapshot's `op`.
- The clock display (New York and Madrid time): wall-clock I/O.
- The closed forms of `norm.ppf`, `np.exp` and `np.sqrt`. They are abstract arrows with the laws in `Numerics.Lawful` (ppf(0.5) = 0 and increasing; exp(0) = 1, positive and increasing; sqrt positive on positive input), so no concrete strike value is computed.
- IEEE floating point: the prices are unbounded reals, so there is no NaN (the `np.isnan` half of the sigma fallback), no overflow and no binary rounding of products such as `op*1.004`.
- Exception handling in general: only the division by a zero VIX or anchor and the explicit missing-data stop are modelled, as `Failed` runs.
- App1.Decide: states that a NO OPERAR run shows the warning, not the converse. That copy also shows the warning for any other strategy whose strikes are both 0.

## Findings

| source | as written | input that shows it | evidently intended | confidence | as-written member | corrected member |
|---|---|---|---|---|---|---|
| streamlit_app.py:15-18, 103 (and streamlit_app1.py:15-16, 81) | the call estimate is `price * exp(ppf(delta) * sigma * sqrt(t))`. Since ppf(0.10) < 0, the 0.10-delta call lies below the spot, so `max(lp*1.01, call)` is always `lp*1.01` and the delta estimate never matters | lp = 450, VIX1D = 12: the call estimate is about 447.0, below the spot. The condor call is round(454.5) = 454 whatever the volatility | a 0.10-delta call lies above the spot (`exp(-ppf(delta) * sigma * sqrt(t))`), so in a high-volatility session the call strike widens beyond the 1% cap, as the put strike does below the floor | medium, not executed | App.CondorStrikes | App.IntendedCondorStrikes |

The `App` and `App1` decision functions keep the estimate as written, since
they model what the scripts do. The corrected estimate is
`Strike.IntendedCall`, with `Strike.IntendedCallSide`. `App.IntendedCondorCall`
builds the condor call strike from it, and `App.IntendedCondorStrikes` states
its properties.
