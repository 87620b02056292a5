# AI-Trader signal engine, modelled in Dafny

This project models the decision core of the AI-Trader dashboard, which is
`services/simulationEngine.ts`. The core has two pure functions:

- `decideSignal` compares a `FeatureSet` snapshot with the `LONG_CALL` and
  `LONG_PUT` threshold bundles. It returns a `Signal`: `BUY_CALL` if the call
  rule holds, else `BUY_PUT` if the put rule holds, else `NONE`.
- `createTradePlan` turns a non-neutral signal and a spot price into a
  `TradePlan`. It picks the at-the-money strike and builds a symbol such as
  `NIFTYWEEKLY24350CE`. It draws a premium, puts the stop at
  `max(0.35·premium, 15)` below the entry, sets targets at 1.30× and 1.60×,
  and sizes the position in lots of 50.

Files:

- `types.dfy` (module `Types`): the records of `types.ts` as datatypes. The
  `NONE` side is called `NoTrade`.
- `constants.dfy` (module `Constants`): the shipped configuration from
  `constants.ts`, namely the symbol root `NIFTY`, the risk limits and the two
  threshold bundles.
- `js_number.dfy` (module `JsNumber`): the JavaScript number operations the
  builder uses, all over exact reals:
  - `Math.round` rounds to the nearest integer, with halves going up.
  - `parseFloat(x.toFixed(2))` rounds to the nearest cent, with halves going
    away from zero, as `toFixed` does once it has set the sign aside.
  - Integer interpolation gives decimal text, with a parser that reads it back.
- `simulation_engine.dfy` (module `SimulationEngine`): the evaluator and the
  builder, and the lemmas about them.

Each function has a general version and a shipped version:

- `DecideSignalWith` takes any threshold bundle. `DecideSignal` uses the shipped
  thresholds.
- `BuildPlan` takes the premium, the clock text and the configuration as
  parameters. `CreateTradePlan` is the shipped builder. It takes the number
  `Math.random()` returned, and derives the premium from it as
  `services/simulationEngine.ts:87` does.

Both functions have no error path in the source, and the model has none
either: `BuildPlan` accepts every premium and every spot price. Two places
where the function does not quite match what its own comments suggest:

- The value `sl` computed at `services/simulationEngine.ts:90` is never used.
  The stop width is recomputed at line 122. The targets of lines 91-92 are
  used at lines 137-138.
- The risk per share from line 126 is said to equal the stop width. It does
  only up to the cent rounding of the stop level.
  `RiskPerShareDiffersFromWidth` shows a premium where the two differ.

## Model

| member | source | states |
|---|---|---|
| `JsNumber.Round` | services/simulationEngine.ts:82 | `Math.round` returns the integer within half of its argument, with ties going up. `RoundUnique` shows that integer is unique. |
| `JsNumber.RoundUnique` | services/simulationEngine.ts:82 | Any integer within the half-open window around `x` is `Round(x)`. |
| `JsNumber.ToFixed2` | services/simulationEngine.ts:123 | Rounding to two decimals gives a whole number of cents. The result is at most half a cent from the input, and only a negative input can lose a tie downwards. |
| `JsNumber.ToFixed2OfCents` | services/simulationEngine.ts:87 | A value already in cents is left unchanged. |
| `JsNumber.ToFixed2Monotone` | services/simulationEngine.ts:87 | Rounding to cents preserves order, on either side of zero. |
| `JsNumber.ToFixed2Separates` | services/simulationEngine.ts:137-138 | Two non-negative values at least a cent apart stay at least a cent apart after rounding. |
| `JsNumber.NatToString` | services/simulationEngine.ts:84 | The text of a natural number is a non-empty string of digits. Its first digit is `0` only for zero, and it has one digit exactly below 10. |
| `JsNumber.NatToStringValue` | services/simulationEngine.ts:84 | The digits of `n` denote `n`. |
| `JsNumber.IntToString` | services/simulationEngine.ts:84 | The interpolated text of an integer parses back to that integer. It starts with a minus sign exactly when the integer is negative. |
| `JsNumber.IntToStringInjective` | services/simulationEngine.ts:84 | Different strikes give different text. |
| `SimulationEngine.CallRule` | services/simulationEngine.ts:26-33 | The six-part call conjunction: VWAP distance, EMA slope and breadth above their bounds, FII flow or OI change above its bound, US futures above their bound, and the dollar index change at most its bound. |
| `SimulationEngine.PutRule` | services/simulationEngine.ts:48-54 | The five-part put conjunction: VWAP distance, EMA slope and breadth below their bounds, FII flow or OI change below its bound, and US futures below their bound. The dollar index is not read. |
| `SimulationEngine.DecideSignalWith` | services/simulationEngine.ts:23-74 | `decideSignal` for any threshold bundle. The grade and the reasons depend on the side alone: grade C and the single reason for `NONE`, and grade A with that side's four reasons otherwise. |
| `SimulationEngine.DecideSignal` | services/simulationEngine.ts:23-74 | `decideSignal` with the shipped thresholds. Each side is taken exactly when its own conjunction holds, because the shipped VWAP bounds exclude each other. |
| `SimulationEngine.CallOutcome` | services/simulationEngine.ts:26-46 | The result is `BUY_CALL` if and only if the six-part call conjunction holds. It is then grade A with exactly the four call reasons. |
| `SimulationEngine.PutOutcome` | services/simulationEngine.ts:48-67 | The result is `BUY_PUT` if and only if the call conjunction fails and the five-part put conjunction holds. It is then grade A with exactly the four put reasons. |
| `SimulationEngine.NoSignalOutcome` | services/simulationEngine.ts:69-73 | The result is `NONE` if and only if neither conjunction holds. It is then grade C with the single reason "Filters not met". |
| `SimulationEngine.GradeFollowsSide` | services/simulationEngine.ts:35-73 | Grade B is never produced. The grade is A if and only if the side is not `NONE`, and C if and only if it is. There are four reasons for a side and one for `NONE`. |
| `SimulationEngine.CallTakesPriority` | services/simulationEngine.ts:35-56 | When both conjunctions hold, the call wins. |
| `SimulationEngine.BothRulesCanHold` | services/simulationEngine.ts:26-54 | A threshold bundle and a snapshot exist under which both conjunctions hold, so the priority order matters. |
| `SimulationEngine.RulesExclusive` | services/simulationEngine.ts:27-49 | If the put's VWAP bound is at most the call's, the two conjunctions never hold together. |
| `SimulationEngine.ShippedDecision` | services/simulationEngine.ts:24-67 | With the shipped thresholds, the side is `BUY_CALL` exactly when the call conditions hold with the numbers 0, 0, 1.2, 0, 0, -0.3 and 0.2. It is `BUY_PUT` exactly when the put conditions hold with 0, 0, 0.9, 0, 0 and 0, and the call rule need not be checked for that. |
| `SimulationEngine.CallMonotone` | services/simulationEngine.ts:26-46 | A snapshot at least as bullish in every feature read as a call snapshot is a call too. |
| `SimulationEngine.PutMonotone` | services/simulationEngine.ts:48-67 | A snapshot at least as bearish in every feature read as a put snapshot is a put too. |
| `SimulationEngine.IgnoresIvRankAndSentiment` | services/simulationEngine.ts:23-74 | Changing `iv_rank` and `sent` never changes the signal. |
| `SimulationEngine.AtmStrike` | services/simulationEngine.ts:82 | The strike is a multiple of 50 in the window (spot − 25, spot + 25]. |
| `SimulationEngine.AtmStrikeNearest` | services/simulationEngine.ts:82 | No multiple of 50 is nearer the spot than the strike. |
| `SimulationEngine.AtmStrikeUnique` | services/simulationEngine.ts:82 | Any multiple of 50 in that window is the strike. |
| `SimulationEngine.OptionTypeFor` | services/simulationEngine.ts:83 | The option type is `CE` exactly for a call signal, and `PE` otherwise. |
| `SimulationEngine.Symbol` | services/simulationEngine.ts:80-84 | A symbol starts with the root followed by `WEEKLY`, and ends with the two-letter option code. |
| `SimulationEngine.SymbolRoundTrip` | services/simulationEngine.ts:80-84 | Reading a symbol back gives its strike and option type. |
| `SimulationEngine.SymbolInjective` | services/simulationEngine.ts:84 | On one root, different strikes or option types give different symbols. |
| `SimulationEngine.DrawPremium` | services/simulationEngine.ts:87 | The drawn premium is a whole number of cents. For a draw in [0, 1), it lies in [100, 150]. |
| `SimulationEngine.StopWidth` | services/simulationEngine.ts:122 | The stop width is the larger of 15 and 35% of the premium. |
| `SimulationEngine.StopLevel` | services/simulationEngine.ts:122-123 | The stop level is a whole number of cents, within half a cent of premium minus width. It is therefore at least 14.995 below the premium. |
| `SimulationEngine.RiskPerShare` | services/simulationEngine.ts:126 | The recomputed risk per share is within half a cent of the width. It is therefore at least 14.995, so the sizing division is defined. |
| `SimulationEngine.RiskPerShareDiffersFromWidth` | services/simulationEngine.ts:126 | At a premium of 100.01, the width is 35.0035 but the risk per share is 35.00. |
| `SimulationEngine.LotCount` | services/simulationEngine.ts:128-129 | There is at least one lot. There are at most `max_open_positions` lots when that cap is positive, and exactly one lot otherwise. |
| `SimulationEngine.LotCountWithinBudget` | services/simulationEngine.ts:128-129 | Unless the count was forced up to one lot, the position's risk is at most `max_trade_risk`. |
| `SimulationEngine.LotCountLargest` | services/simulationEngine.ts:128-129 | Below the cap, one more lot would exceed `max_trade_risk`. |
| `SimulationEngine.QtySizing` | services/simulationEngine.ts:128-130 | The quantity is a whole number of lots. It is at least one lot, and at most `max_open_positions` lots when that cap is positive. Unless it is the forced single lot, its risk is within `max_trade_risk`. Below the cap, one more lot would exceed that budget. |
| `SimulationEngine.BuildPlan` | services/simulationEngine.ts:77-142 | There is no plan if and only if the side is `NONE`. Every plan has status `PLANNED`, the signal's reasons unchanged, the premium as entry price and the given entry time. |
| `SimulationEngine.CreateTradePlan` | services/simulationEngine.ts:77-143 | The shipped builder returns no plan exactly when the side is `NONE`. For a draw in [0, 1), every plan has an entry in [100, 150], in cents, and quantity 50. |
| `SimulationEngine.PlanSymbol` | services/simulationEngine.ts:80-84 | A plan's symbol reads back as the root, the nearest strike, and `CE` for a call or `PE` for a put. |
| `SimulationEngine.StrikeSymbols` | services/simulationEngine.ts:84 | Strike 24350 on the root `NIFTY` spells `NIFTYWEEKLY24350CE` and `NIFTYWEEKLY24350PE`. |
| `SimulationEngine.SymbolExample` | services/simulationEngine.ts:80-84 | Spot 24350 gives `NIFTYWEEKLY24350CE` for a call and `NIFTYWEEKLY24350PE` for a put. |
| `SimulationEngine.PlanPrices` | services/simulationEngine.ts:122-138 | The stop and both targets are whole numbers of cents. Each is within half a cent of its exact value: premium minus width, 1.30 × premium and 1.60 × premium. |
| `SimulationEngine.PlanPriceOrdering` | services/simulationEngine.ts:122-138 | `stop_loss < entry_price < target_1 < target_2` holds for every premium of at least 1/30. |
| `SimulationEngine.TinyPremiumBreaksOrdering` | services/simulationEngine.ts:135-138 | At premium 0.01, target 1 equals the entry. At premium 0.02, the two targets are equal. |
| `SimulationEngine.PlanQtyBounds` | services/simulationEngine.ts:128-130 | The quantity is a multiple of 50 and at least 50. It is at most 50·`max_open_positions` when that cap is positive, and exactly 50 otherwise. |
| `SimulationEngine.PlanQtySizing` | services/simulationEngine.ts:122-130 | The sizing rule of `QtySizing` holds for the plan, with entry minus stop as the risk per unit. |
| `SimulationEngine.ShippedQtyIsOneLot` | services/simulationEngine.ts:122-130 | For a premium in [100, 150], the width is exactly 35% of the premium. With the shipped limits, a single lot already risks more than `max_trade_risk`. So the raw lot count is zero, and the clamp raises it to one lot. |
| `SimulationEngine.PremiumExample` | services/simulationEngine.ts:122-138 | Premium 120 gives stop 78, targets 156 and 192, and quantity 50. |
| `SimulationEngine.ShippedPlan` | services/simulationEngine.ts:77-142 | With a draw in [0, 1) and a non-neutral signal, the shipped builder always yields a plan. Its entry is in [100, 150] in cents, its prices are strictly ordered, and its quantity is 50. |

## Left out

- `PlanPriceOrdering`: the ordering is proved only for premiums of at least 1/30, not for every positive premium, because it fails below that (`TinyPremiumBreaksOrdering`). Every premium the source can draw is at least 100.
- `generateFeatureSet` is not modelled. It only synthesises data, from the clock, `Math.sin`/`Math.cos`, `Math.random` and `toFixed`, and the evaluator takes any `FeatureSet`.
- The `Math.random()` draw and the formatted clock text are not modelled. `CreateTradePlan` takes them as parameters (`random`, `entryTime`), and `HH:MM` formatting by `toLocaleTimeString` is not modelled.
- `App.tsx` is not modelled. It holds the timer loop, the entry delay, the random exits, the P&L noise and the log buffer. It also moves a plan to `ACTIVE` (App.tsx:75) and later drops it (App.tsx:89). Nothing in the source ever assigns `CLOSED`.
- The components under `components/` display values only and are not modelled.
- `TradePlan.pnl` is not modelled. Nothing in the source sets it; the driver keeps P&L in its own state (App.tsx:18).
- The strategy configuration is not modelled. No core function reads it.
- IEEE-754 doubles are not modelled. Every number is an exact real, so binary rounding error, `NaN` and infinities are absent. In the source, a `NaN` fails every comparison that reads it. In `vwap_dist`, `ema20_slope`, `breadth` or `usfut` that gives `NONE`. In `fii_5d` or `fut_oi_chg` the other half of the OR can still decide. In `dxy_chg` only the call is ruled out, and the put can still fire.
- `IntToString` models the decimal text of integers below 10^21 in magnitude. JavaScript writes larger numbers in exponent notation, and the model does not capture that.
- `max_open_positions` is modelled as an integer. The source would accept any number there, and a fractional cap would give a fractional lot count.
