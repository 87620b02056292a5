/** The records the engine reads and builds (types.ts). */
module Types {

  /** One snapshot of market features; every field is a plain number. */
  datatype FeatureSet = FeatureSet(
    vwapDist: real,
    ema20Slope: real,
    breadth: real,
    fii5d: real,
    futOiChg: real,
    dxyChg: real,
    usfut: real,
    ivRank: real,
    sent: real)

  /** `'BUY_CALL' | 'BUY_PUT' | 'NONE'`; `NoTrade` is the source's `NONE`. */
  datatype Side = BuyCall | BuyPut | NoTrade

  datatype Grade = A | B | C

  datatype Signal = Signal(side: Side, grade: Grade, reason: seq<string>)

  datatype PlanStatus = Planned | Active | Closed

  /** The option kind written at the end of a symbol: call (CE) or put (PE). */
  datatype OptionType = CE | PE

  /** A trade plan; `pnl`, which only the driver sets, is not part of it. */
  datatype TradePlan = TradePlan(
    symbol: string,
    entryTime: string,
    entryPrice: real,
    stopLoss: real,
    target1: real,
    target2: real,
    qty: int,
    reason: seq<string>,
    status: PlanStatus)

  datatype MarketConfig = MarketConfig(symbolRoot: string, entryNotBefore: string, squareOffTime: string)

  datatype RiskLimits = RiskLimits(
    dailyCapital: real,
    maxDayLoss: real,
    maxTradeRisk: real,
    maxOpenPositions: int,
    disableOnVixAbove: real)

  /** The LONG_CALL bundle: each field is compared with the feature of the same name. */
  datatype CallThresholds = CallThresholds(
    vwapDist: real,
    ema20Slope: real,
    breadth: real,
    fii5d: real,
    futOiChg: real,
    usfut: real,
    dxyChg: real)

  /** The LONG_PUT bundle; it has no dollar-index threshold. */
  datatype PutThresholds = PutThresholds(
    vwapDist: real,
    ema20Slope: real,
    breadth: real,
    fii5d: real,
    futOiChg: real,
    usfut: real)

  datatype SignalThresholds = SignalThresholds(longCall: CallThresholds, longPut: PutThresholds)
}
