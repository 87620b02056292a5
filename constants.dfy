/** The configuration the application ships with (constants.ts). */
module Constants {
  import opened Types

  const ShippedMarketConfig: MarketConfig := MarketConfig("NIFTY", "09:25", "15:15")

  const ShippedRiskLimits: RiskLimits := RiskLimits(20000.0, 400.0, 200.0, 2, 22.0)

  const ShippedThresholds: SignalThresholds := SignalThresholds(
    CallThresholds(0.0, 0.0, 1.2, 0.0, 0.0, -0.3, 0.2),
    PutThresholds(0.0, 0.0, 0.9, 0.0, 0.0, 0.0))
}
