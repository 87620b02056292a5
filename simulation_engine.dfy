/**
 * The signal evaluator and the trade-plan builder (services/simulationEngine.ts).
 *
 * Both are pure. The two inputs the source takes from its environment are
 * parameters here: `random`, the value `Math.random()` returned when the
 * premium is drawn, and `entryTime`, the clock text stamped on the plan.
 */
module SimulationEngine {
  import opened Wrappers
  import opened JsNumber
  import opened Types
  import opened Constants

  // ---------------------------------------------------------------------------
  // Signal evaluation
  // ---------------------------------------------------------------------------

  const CallReasons: seq<string> := [
    "Above VWAP & EMA20 rising",
    "Breadth strong",
    "FII flows positive or OI supp",
    "Global cues not adverse"]

  const PutReasons: seq<string> := [
    "Below VWAP & EMA20 falling",
    "Breadth weak",
    "FII flows negative",
    "Global risk-off"]

  const NoSignalReasons: seq<string> := ["Filters not met"]

  /** The six-part bullish conjunction; flows confirm through FII or open interest. */
  predicate CallRule(f: FeatureSet, t: CallThresholds)
  {
    && f.vwapDist > t.vwapDist
    && f.ema20Slope > t.ema20Slope
    && f.breadth > t.breadth
    && (f.fii5d > t.fii5d || f.futOiChg > t.futOiChg)
    && f.usfut > t.usfut
    && f.dxyChg <= t.dxyChg
  }

  /** The five-part bearish conjunction; the dollar index plays no part. */
  predicate PutRule(f: FeatureSet, t: PutThresholds)
  {
    && f.vwapDist < t.vwapDist
    && f.ema20Slope < t.ema20Slope
    && f.breadth < t.breadth
    && (f.fii5d < t.fii5d || f.futOiChg < t.futOiChg)
    && f.usfut < t.usfut
  }

  /** `decideSignal` against an arbitrary threshold configuration: call first, then put. */
  function DecideSignalWith(f: FeatureSet, t: SignalThresholds): (r: Signal)
    ensures r.grade == (if r.side == NoTrade then C else A)
    ensures r.reason == match r.side
                        case BuyCall => CallReasons
                        case BuyPut => PutReasons
                        case NoTrade => NoSignalReasons
  {
    if CallRule(f, t.longCall) then Signal(BuyCall, A, CallReasons)
    else if PutRule(f, t.longPut) then Signal(BuyPut, A, PutReasons)
    else Signal(NoTrade, C, NoSignalReasons)
  }

  /**
   * `decideSignal` as shipped. Because the shipped VWAP bounds exclude each
   * other, each side is taken exactly when its own conjunction holds.
   */
  function DecideSignal(f: FeatureSet): (r: Signal)
    ensures r.side == BuyCall <==> CallRule(f, ShippedThresholds.longCall)
    ensures r.side == BuyPut <==> PutRule(f, ShippedThresholds.longPut)
  {
    RulesExclusive(f, ShippedThresholds);
    DecideSignalWith(f, ShippedThresholds)
  }

  lemma CallOutcome(f: FeatureSet, t: SignalThresholds)
    ensures DecideSignalWith(f, t).side == BuyCall <==> CallRule(f, t.longCall)
    ensures CallRule(f, t.longCall) ==> DecideSignalWith(f, t) == Signal(BuyCall, A, CallReasons)
  {
  }

  lemma PutOutcome(f: FeatureSet, t: SignalThresholds)
    ensures DecideSignalWith(f, t).side == BuyPut <==> !CallRule(f, t.longCall) && PutRule(f, t.longPut)
    ensures !CallRule(f, t.longCall) && PutRule(f, t.longPut) ==>
              DecideSignalWith(f, t) == Signal(BuyPut, A, PutReasons)
  {
  }

  lemma NoSignalOutcome(f: FeatureSet, t: SignalThresholds)
    ensures DecideSignalWith(f, t).side == NoTrade <==> !CallRule(f, t.longCall) && !PutRule(f, t.longPut)
    ensures !CallRule(f, t.longCall) && !PutRule(f, t.longPut) ==>
              DecideSignalWith(f, t) == Signal(NoTrade, C, ["Filters not met"])
  {
  }

  /** The grade carries no information beyond the side, and B is never produced. */
  lemma GradeFollowsSide(f: FeatureSet, t: SignalThresholds)
    ensures DecideSignalWith(f, t).grade != B
    ensures DecideSignalWith(f, t).grade == A <==> DecideSignalWith(f, t).side != NoTrade
    ensures DecideSignalWith(f, t).grade == C <==> DecideSignalWith(f, t).side == NoTrade
    ensures |DecideSignalWith(f, t).reason| == if DecideSignalWith(f, t).side == NoTrade then 1 else 4
  {
  }

  /** Some configurations let both conjunctions hold at once; then the call wins. */
  lemma CallTakesPriority(f: FeatureSet, t: SignalThresholds)
    requires CallRule(f, t.longCall) && PutRule(f, t.longPut)
    ensures DecideSignalWith(f, t).side == BuyCall
  {
  }

  /** A configuration and a snapshot for which both conjunctions hold. */
  lemma BothRulesCanHold()
    ensures var t := SignalThresholds(
              CallThresholds(0.0, 0.0, 0.0, 0.0, 0.0, 0.0, 0.0),
              PutThresholds(1.0, 1.0, 1.0, 1.0, 1.0, 1.0));
            var f := FeatureSet(0.5, 0.5, 0.5, 0.5, 0.5, 0.0, 0.5, 0.0, 0.0);
            CallRule(f, t.longCall) && PutRule(f, t.longPut) && DecideSignalWith(f, t).side == BuyCall
  {
  }

  /** The conjunctions exclude each other as soon as the put's VWAP bound does not exceed the call's. */
  lemma RulesExclusive(f: FeatureSet, t: SignalThresholds)
    requires t.longPut.vwapDist <= t.longCall.vwapDist
    ensures !(CallRule(f, t.longCall) && PutRule(f, t.longPut))
  {
  }

  /**
   * With the shipped thresholds each side is decided by its own conjunction
   * alone, written out with the shipped numbers.
   */
  lemma {:induction false} ShippedDecision(f: FeatureSet)
    ensures DecideSignal(f).side == BuyCall <==>
              f.vwapDist > 0.0 && f.ema20Slope > 0.0 && f.breadth > 1.2 &&
              (f.fii5d > 0.0 || f.futOiChg > 0.0) && f.usfut > -0.3 && f.dxyChg <= 0.2
    ensures DecideSignal(f).side == BuyPut <==>
              f.vwapDist < 0.0 && f.ema20Slope < 0.0 && f.breadth < 0.9 &&
              (f.fii5d < 0.0 || f.futOiChg < 0.0) && f.usfut < 0.0
  {
    RulesExclusive(f, ShippedThresholds);
  }

  /** `g` is at least as bullish as `f` in every feature the rules read. */
  predicate AtLeastAsBullish(g: FeatureSet, f: FeatureSet)
  {
    && g.vwapDist >= f.vwapDist
    && g.ema20Slope >= f.ema20Slope
    && g.breadth >= f.breadth
    && g.fii5d >= f.fii5d
    && g.futOiChg >= f.futOiChg
    && g.usfut >= f.usfut
    && g.dxyChg <= f.dxyChg
  }

  /** Moving every feature in the bullish direction keeps a call signal a call signal. */
  lemma CallMonotone(f: FeatureSet, g: FeatureSet, t: SignalThresholds)
    requires DecideSignalWith(f, t).side == BuyCall && AtLeastAsBullish(g, f)
    ensures DecideSignalWith(g, t).side == BuyCall
  {
  }

  /** Moving every feature in the bearish direction keeps a put signal a put signal. */
  lemma {:induction false} PutMonotone(f: FeatureSet, g: FeatureSet, t: SignalThresholds)
    requires DecideSignalWith(f, t).side == BuyPut && AtLeastAsBullish(f, g)
    ensures DecideSignalWith(g, t).side == BuyPut
  {
    if CallRule(g, t.longCall) {
      CallMonotone(g, f, t);
    }
  }

  /** `iv_rank` and `sent` are read by nothing: snapshots that differ only there get the same signal. */
  lemma IgnoresIvRankAndSentiment(f: FeatureSet, ivRank: real, sent: real, t: SignalThresholds)
    ensures DecideSignalWith(f.(ivRank := ivRank, sent := sent), t) == DecideSignalWith(f, t)
  {
  }

  // ---------------------------------------------------------------------------
  // Trade-plan construction
  // ---------------------------------------------------------------------------

  const Expiry: string := "WEEKLY"
  const LotSize: int := 50
  const StrikeStep: int := 50

  /** The at-the-money strike: the multiple of 50 nearest the spot, halves rounded up. */
  function AtmStrike(spot: real): (strike: int)
    ensures strike % StrikeStep == 0
    ensures spot - 25.0 < strike as real <= spot + 25.0
  {
    Round(spot / 50.0) * StrikeStep
  }

  /** No multiple of 50 lies nearer the spot than the chosen strike. */
  lemma AtmStrikeNearest(spot: real, m: int)
    ensures Abs(spot - AtmStrike(spot) as real) <= Abs(spot - (m * StrikeStep) as real)
  {
    var k := AtmStrike(spot) / StrikeStep;
    assert AtmStrike(spot) == k * StrikeStep;
    if m < k {
      assert (m * StrikeStep) as real <= AtmStrike(spot) as real - 50.0;
    } else if m > k {
      assert (m * StrikeStep) as real >= AtmStrike(spot) as real + 50.0;
    }
  }

  /** The strike is the only multiple of 50 in the half-open window (spot - 25, spot + 25]. */
  lemma AtmStrikeUnique(spot: real, strike: int)
    requires strike % StrikeStep == 0 && spot - 25.0 < strike as real <= spot + 25.0
    ensures AtmStrike(spot) == strike
  {
    var k := strike / StrikeStep;
    assert strike == k * StrikeStep;
    RoundUnique(spot / 50.0, k);
  }

  /** CE for a call signal; every other side gets PE. */
  function OptionTypeFor(side: Side): (t: OptionType)
    ensures t == CE <==> side == BuyCall
  {
    if side == BuyCall then CE else PE
  }

  function OptionCode(t: OptionType): string
  {
    match t
    case CE => "CE"
    case PE => "PE"
  }

  /** Root, expiry tag, strike and option type, run together. */
  function Symbol(root: string, strike: int, t: OptionType): (s: string)
    ensures |s| > |root| + |Expiry| + 2
    ensures s[..|root|] == root && s[|root|..|root| + |Expiry|] == Expiry
    ensures s[|s| - 2..] == OptionCode(t)
  {
    root + Expiry + IntToString(strike) + OptionCode(t)
  }

  /** Reads a symbol built on `root` back into its strike and option type. */
  function ParseSymbol(root: string, s: string): Option<(int, OptionType)>
  {
    var head := root + Expiry;
    if |s| < |head| + 2 || s[..|head|] != head then None
    else
      var code := s[|s| - 2..];
      match ParseInt(s[|head|..|s| - 2])
      case None => None
      case Some(k) =>
        if code == "CE" then Some((k, CE))
        else if code == "PE" then Some((k, PE))
        else None
  }

  lemma SymbolRoundTrip(root: string, strike: int, t: OptionType)
    ensures ParseSymbol(root, Symbol(root, strike, t)) == Some((strike, t))
  {
    var head := root + Expiry;
    var digits := IntToString(strike);
    var s := Symbol(root, strike, t);
    assert s == head + digits + OptionCode(t);
    assert s[..|head|] == head;
    assert s[|s| - 2..] == OptionCode(t);
    assert s[|head|..|s| - 2] == digits;
  }

  /** Two plans on the same root share a symbol only if strike and option type agree. */
  lemma SymbolInjective(root: string, k1: int, t1: OptionType, k2: int, t2: OptionType)
    requires Symbol(root, k1, t1) == Symbol(root, k2, t2)
    ensures k1 == k2 && t1 == t2
  {
    SymbolRoundTrip(root, k1, t1);
    SymbolRoundTrip(root, k2, t2);
  }

  /**
   * The premium drawn at random: `Math.random() * 50 + 100`, rounded to
   * cents. A draw in [0, 1) gives a premium in [100, 150].
   */
  function DrawPremium(random: real): (premium: real)
    ensures IsCents(premium)
    ensures 0.0 <= random < 1.0 ==> 100.0 <= premium <= 150.0
  {
    var x := random * 50.0 + 100.0;
    if 0.0 <= random < 1.0 then
      ToFixed2Monotone(100.0, x);
      ToFixed2Monotone(x, 150.0);
      ToFixed2OfCents(100.0);
      ToFixed2OfCents(150.0);
      ToFixed2(x)
    else
      ToFixed2(x)
  }

  /** The stop distance: 35% of the premium, but never less than 15 points. */
  function StopWidth(premium: real): (w: real)
    ensures w >= 15.0 && w >= 0.35 * premium
    ensures w == 15.0 || w == 0.35 * premium
  {
    Max(0.35 * premium, 15.0)
  }

  /** The stop price: premium less the width, rounded to cents; always below the premium. */
  function StopLevel(premium: real): (level: real)
    ensures IsCents(level)
    ensures Abs(level - (premium - StopWidth(premium))) <= 0.005
    ensures level <= premium - 14.995
  {
    ToFixed2(premium - StopWidth(premium))
  }

  /**
   * The risk per unit used for sizing, recomputed from the rounded stop: it
   * is within half a cent of the width, hence positive.
   */
  function RiskPerShare(premium: real): (risk: real)
    ensures Abs(risk - StopWidth(premium)) <= 0.005
    ensures risk >= 14.995
  {
    premium - StopLevel(premium)
  }

  /** The two are not always equal: for a premium of 100.01 they differ by 0.0035. */
  lemma RiskPerShareDiffersFromWidth()
    ensures StopWidth(100.01) == 35.0035
    ensures RiskPerShare(100.01) == 35.0
  {
    assert 100.01 - StopWidth(100.01) == 65.0065;
    assert Round(65.0065 * 100.0) == 6501;
  }

  /** Whole lots affordable within the per-trade risk, clamped to [1, max_open_positions]. */
  function LotCount(maxTradeRisk: real, maxOpenPositions: int, riskPerShare: real): (lots: int)
    requires riskPerShare > 0.0
    ensures lots >= 1
    ensures maxOpenPositions >= 1 ==> lots <= maxOpenPositions
    ensures maxOpenPositions < 1 ==> lots == 1
  {
    var raw := (maxTradeRisk / (riskPerShare * LotSize as real)).Floor;
    MaxInt(1, MinInt(raw, maxOpenPositions))
  }

  lemma DivisionTimes(a: real, d: real)
    requires d > 0.0
    ensures (a / d) * d == a
  {
  }

  lemma TimesMonotone(x: real, y: real, d: real)
    requires x <= y && d > 0.0
    ensures x * d <= y * d
  {
  }

  /** Beyond the forced minimum lot, the position's risk stays within max_trade_risk. */
  lemma {:induction false} LotCountWithinBudget(maxTradeRisk: real, maxOpenPositions: int, riskPerShare: real)
    requires riskPerShare > 0.0
    ensures var lots := LotCount(maxTradeRisk, maxOpenPositions, riskPerShare);
            lots == 1 || (lots * LotSize) as real * riskPerShare <= maxTradeRisk
  {
    var d := riskPerShare * LotSize as real;
    var q := maxTradeRisk / d;
    var lots := LotCount(maxTradeRisk, maxOpenPositions, riskPerShare);
    if lots != 1 {
      assert lots as real <= q;
      TimesMonotone(lots as real, q, d);
      DivisionTimes(maxTradeRisk, d);
      assert (lots * LotSize) as real * riskPerShare == lots as real * d;
    }
  }

  /** Below the position cap, one more lot would exceed max_trade_risk. */
  lemma {:induction false} LotCountLargest(maxTradeRisk: real, maxOpenPositions: int, riskPerShare: real)
    requires riskPerShare > 0.0
    requires LotCount(maxTradeRisk, maxOpenPositions, riskPerShare) < maxOpenPositions
    ensures var lots := LotCount(maxTradeRisk, maxOpenPositions, riskPerShare);
            ((lots + 1) * LotSize) as real * riskPerShare > maxTradeRisk
  {
    var d := riskPerShare * LotSize as real;
    var q := maxTradeRisk / d;
    var lots := LotCount(maxTradeRisk, maxOpenPositions, riskPerShare);
    assert q < (lots + 1) as real;
    TimesMonotone(q, (lots + 1) as real, d);
    DivisionTimes(maxTradeRisk, d);
    assert ((lots + 1) * LotSize) as real * riskPerShare == (lots + 1) as real * d;
    assert q * d < (lots + 1) as real * d;
  }

  /**
   * `createTradePlan` with the premium, the clock text and the configuration
   * as parameters. No plan for a neutral signal.
   */
  function BuildPlan(signal: Signal, spot: real, premium: real, entryTime: string,
                     market: MarketConfig, risk: RiskLimits): (r: Option<TradePlan>)
    ensures r.None? <==> signal.side == NoTrade
    ensures r.Some? ==>
              && r.value.status == Planned
              && r.value.reason == signal.reason
              && r.value.entryPrice == premium
              && r.value.entryTime == entryTime
  {
    if signal.side == NoTrade then None
    else
      var symbol := Symbol(market.symbolRoot, AtmStrike(spot), OptionTypeFor(signal.side));
      var lots := LotCount(risk.maxTradeRisk, risk.maxOpenPositions, RiskPerShare(premium));
      Some(TradePlan(
        symbol,
        entryTime,
        premium,
        StopLevel(premium),
        ToFixed2(premium * 1.30),
        ToFixed2(premium * 1.60),
        lots * LotSize,
        signal.reason,
        Planned))
  }

  /**
   * `createTradePlan` as shipped: the premium comes from the random draw, and
   * with the shipped limits every plan is a single lot.
   */
  function CreateTradePlan(signal: Signal, currentSpot: real, random: real, entryTime: string): (r: Option<TradePlan>)
    ensures r.None? <==> signal.side == NoTrade
    ensures r.Some? && 0.0 <= random < 1.0 ==>
              && 100.0 <= r.value.entryPrice <= 150.0
              && IsCents(r.value.entryPrice)
              && r.value.qty == LotSize
  {
    var premium := DrawPremium(random);
    if 0.0 <= random < 1.0 then
      ShippedQtyIsOneLot(premium);
      BuildPlan(signal, currentSpot, premium, entryTime, ShippedMarketConfig, ShippedRiskLimits)
    else
      BuildPlan(signal, currentSpot, premium, entryTime, ShippedMarketConfig, ShippedRiskLimits)
  }

  /** The symbol reads back as the nearest strike and the option type of the signal's side. */
  lemma PlanSymbol(signal: Signal, spot: real, premium: real, entryTime: string,
                   market: MarketConfig, risk: RiskLimits)
    requires signal.side != NoTrade
    ensures var plan := BuildPlan(signal, spot, premium, entryTime, market, risk).value;
            ParseSymbol(market.symbolRoot, plan.symbol)
              == Some((AtmStrike(spot), if signal.side == BuyCall then CE else PE))
  {
    SymbolRoundTrip(market.symbolRoot, AtmStrike(spot), OptionTypeFor(signal.side));
  }

  /** The two symbols on strike 24350 of the shipped root, written out. */
  lemma StrikeSymbols()
    ensures Symbol(ShippedMarketConfig.symbolRoot, 24350, CE) == "NIFTYWEEKLY24350CE"
    ensures Symbol(ShippedMarketConfig.symbolRoot, 24350, PE) == "NIFTYWEEKLY24350PE"
  {
    assert NatToString(24350) == "24350" by {
      assert NatToString(2) == "2";
      assert NatToString(24) == "24";
      assert NatToString(243) == "243";
      assert NatToString(2435) == "2435";
    }
  }

  /** Spot 24350 gives the symbols NIFTYWEEKLY24350CE and NIFTYWEEKLY24350PE. */
  lemma SymbolExample(grade: Grade, reason: seq<string>, random: real, entryTime: string)
    ensures CreateTradePlan(Signal(BuyCall, grade, reason), 24350.0, random, entryTime).value.symbol
              == "NIFTYWEEKLY24350CE"
    ensures CreateTradePlan(Signal(BuyPut, grade, reason), 24350.0, random, entryTime).value.symbol
              == "NIFTYWEEKLY24350PE"
  {
    AtmStrikeUnique(24350.0, 24350);
    StrikeSymbols();
    var premium := DrawPremium(random);
    var call := Signal(BuyCall, grade, reason);
    var put := Signal(BuyPut, grade, reason);
    assert CreateTradePlan(call, 24350.0, random, entryTime)
        == BuildPlan(call, 24350.0, premium, entryTime, ShippedMarketConfig, ShippedRiskLimits);
    assert CreateTradePlan(put, 24350.0, random, entryTime)
        == BuildPlan(put, 24350.0, premium, entryTime, ShippedMarketConfig, ShippedRiskLimits);
  }

  /**
   * Stop and targets are whole cents, each within half a cent of its exact
   * value: premium less the width, 1.30 times and 1.60 times the premium.
   */
  lemma PlanPrices(signal: Signal, spot: real, premium: real, entryTime: string,
                   market: MarketConfig, risk: RiskLimits)
    requires signal.side != NoTrade
    ensures var plan := BuildPlan(signal, spot, premium, entryTime, market, risk).value;
            && IsCents(plan.stopLoss) && Abs(plan.stopLoss - (premium - StopWidth(premium))) <= 0.005
            && IsCents(plan.target1) && Abs(plan.target1 - 1.30 * premium) <= 0.005
            && IsCents(plan.target2) && Abs(plan.target2 - 1.60 * premium) <= 0.005
  {
  }

  /**
   * stop_loss < entry_price < target_1 < target_2 for every premium of at
   * least 1/30, which includes every premium the draw can produce.
   */
  lemma {:induction false} PlanPriceOrdering(signal: Signal, spot: real, premium: real, entryTime: string,
                                             market: MarketConfig, risk: RiskLimits)
    requires signal.side != NoTrade
    requires premium >= 1.0 / 30.0
    ensures var plan := BuildPlan(signal, spot, premium, entryTime, market, risk).value;
            plan.stopLoss < plan.entryPrice < plan.target1 < plan.target2
  {
    ToFixed2Separates(premium * 1.30, premium * 1.60);
  }

  /** Below that bound the ordering can fail: premium 0.01 meets target 1, premium 0.02 has equal targets. */
  lemma TinyPremiumBreaksOrdering(signal: Signal, spot: real, entryTime: string,
                                  market: MarketConfig, risk: RiskLimits)
    requires signal.side != NoTrade
    ensures BuildPlan(signal, spot, 0.01, entryTime, market, risk).value.target1 == 0.01
    ensures var plan := BuildPlan(signal, spot, 0.02, entryTime, market, risk).value;
            plan.target1 == plan.target2 == 0.03
  {
    assert Round(0.013 * 100.0) == 1;
    assert Round(0.026 * 100.0) == 3;
    assert Round(0.032 * 100.0) == 3;
  }

  /** The quantity is a whole number of lots, at least one and at most max_open_positions. */
  lemma PlanQtyBounds(signal: Signal, spot: real, premium: real, entryTime: string,
                      market: MarketConfig, risk: RiskLimits)
    requires signal.side != NoTrade
    ensures var plan := BuildPlan(signal, spot, premium, entryTime, market, risk).value;
            && plan.qty % LotSize == 0
            && plan.qty >= LotSize
            && (risk.maxOpenPositions >= 1 ==> plan.qty <= LotSize * risk.maxOpenPositions)
            && (risk.maxOpenPositions < 1 ==> plan.qty == LotSize)
  {
  }

  /**
   * The sizing rule in full: a whole number of lots, at least one and at most
   * max_open_positions when that cap is positive; the risk of the position
   * stays within max_trade_risk unless a single lot already exceeds it; and
   * below the cap one more lot would exceed it.
   */
  predicate SizedToRisk(qty: int, unitRisk: real, maxTradeRisk: real, maxOpenPositions: int)
  {
    && qty % LotSize == 0
    && qty >= LotSize
    && (maxOpenPositions >= 1 ==> qty <= LotSize * maxOpenPositions)
    && (qty == LotSize || qty as real * unitRisk <= maxTradeRisk)
    && (qty < LotSize * maxOpenPositions ==> (qty + LotSize) as real * unitRisk > maxTradeRisk)
  }

  lemma {:induction false} QtySizing(maxTradeRisk: real, maxOpenPositions: int, riskPerShare: real)
    requires riskPerShare > 0.0
    ensures SizedToRisk(LotCount(maxTradeRisk, maxOpenPositions, riskPerShare) * LotSize,
                        riskPerShare, maxTradeRisk, maxOpenPositions)
  {
    var lots := LotCount(maxTradeRisk, maxOpenPositions, riskPerShare);
    LotCountWithinBudget(maxTradeRisk, maxOpenPositions, riskPerShare);
    if lots < maxOpenPositions {
      LotCountLargest(maxTradeRisk, maxOpenPositions, riskPerShare);
      assert lots * LotSize + LotSize == (lots + 1) * LotSize;
    }
  }

  /** The sizing rule read off a plan, with entry less stop as the risk per unit. */
  lemma PlanQtySizing(signal: Signal, spot: real, premium: real, entryTime: string,
                      market: MarketConfig, risk: RiskLimits)
    requires signal.side != NoTrade
    ensures var plan := BuildPlan(signal, spot, premium, entryTime, market, risk).value;
            SizedToRisk(plan.qty, plan.entryPrice - plan.stopLoss, risk.maxTradeRisk, risk.maxOpenPositions)
  {
    var plan := BuildPlan(signal, spot, premium, entryTime, market, risk).value;
    QtySizing(risk.maxTradeRisk, risk.maxOpenPositions, RiskPerShare(premium));
    assert plan.entryPrice - plan.stopLoss == RiskPerShare(premium);
  }

  /**
   * For a premium in [100, 150] the 35% width is above the floor, and with
   * the shipped limits a single lot already risks more than max_trade_risk:
   * the lot count rounds down to 0 and is clamped to one lot, so qty is 50.
   */
  lemma {:induction false} ShippedQtyIsOneLot(premium: real)
    requires 100.0 <= premium <= 150.0
    ensures StopWidth(premium) == 0.35 * premium
    ensures LotSize as real * RiskPerShare(premium) > ShippedRiskLimits.maxTradeRisk
    ensures (ShippedRiskLimits.maxTradeRisk / (RiskPerShare(premium) * LotSize as real)).Floor == 0
    ensures LotCount(ShippedRiskLimits.maxTradeRisk, ShippedRiskLimits.maxOpenPositions,
                     RiskPerShare(premium)) == 1
  {
    var d := RiskPerShare(premium) * LotSize as real;
    assert d > 200.0;
    var q := 200.0 / d;
    DivisionTimes(200.0, d);
    if q >= 1.0 {
      TimesMonotone(1.0, q, d);
    }
    assert q.Floor == 0;
  }

  /** The worked example: premium 120 gives stop 78, targets 156 and 192, and one lot. */
  lemma PremiumExample(signal: Signal, spot: real, entryTime: string)
    requires signal.side != NoTrade
    ensures var plan := BuildPlan(signal, spot, 120.0, entryTime, ShippedMarketConfig, ShippedRiskLimits).value;
            plan.stopLoss == 78.0 && plan.target1 == 156.0 && plan.target2 == 192.0 && plan.qty == 50
  {
    ShippedQtyIsOneLot(120.0);
    assert Round(78.0 * 100.0) == 7800;
    assert Round(156.0 * 100.0) == 15600;
    assert Round(192.0 * 100.0) == 19200;
  }

  /** Everything the shipped builder promises about a plan for a non-neutral signal. */
  lemma {:induction false} ShippedPlan(signal: Signal, currentSpot: real, random: real, entryTime: string)
    requires signal.side != NoTrade
    requires 0.0 <= random < 1.0
    ensures CreateTradePlan(signal, currentSpot, random, entryTime).Some?
    ensures var plan := CreateTradePlan(signal, currentSpot, random, entryTime).value;
            && 100.0 <= plan.entryPrice <= 150.0 && IsCents(plan.entryPrice)
            && plan.stopLoss < plan.entryPrice < plan.target1 < plan.target2
            && plan.qty == 50
  {
    var premium := DrawPremium(random);
    ShippedQtyIsOneLot(premium);
    PlanPriceOrdering(signal, currentSpot, premium, entryTime, ShippedMarketConfig, ShippedRiskLimits);
  }
}
