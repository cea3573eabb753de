/** The versioned limits of the risk constitution, v1.0.0. */
module RiskConstitution {
  /** The risk per trade: 1% of equity. */
  function BaseRisk(equity: real): real { equity * 0.01 }

  /** The largest position: 10% of equity. */
  function NotionalCeiling(equity: real): real { equity * 0.10 }

  function MaxGrossExposure(equity: real): real { equity * 1.00 }

  function MaxNetExposure(equity: real): real { equity * 0.50 }

  const MIN_COMMITTEE_CONFIDENCE: real := 0.60
  const DAILY_LOSS_LIMIT: real := 0.03
  const MAX_DRAWDOWN: real := 0.10
  const MAX_SPREAD: real := 0.05

  const VOLATILITY_THRESHOLD: real := 0.03
  const VOLATILITY_FACTOR: real := 0.5
  const VOLATILITY_SLOPE: real := 0.5
  const LIQUIDITY_THRESHOLD: real := 1000000.0
  const LIQUIDITY_FACTOR: real := 0.5
  const CONFIDENCE_THRESHOLD: real := 0.80
  const CONFIDENCE_FACTOR: real := 0.75
  const CONCENTRATION_THRESHOLD: real := 0.025
  const CONCENTRATION_FACTOR: real := 0.5
  const EXPOSURE_FACTOR: real := 0.5
  const POSITIONS_THRESHOLD: int := 8
  const POSITIONS_FACTOR: real := 0.5
  const REDUCTION_FLOOR: real := 0.1

  const ATR_STOP_MULTIPLIER: real := 2.0
  const MIN_STOP_DISTANCE_PCT: real := 0.02

  /** Where exposure starts to reduce the budget: 80% of its limit. */
  function ExposureStart(limit: real): real { limit * 0.80 }

  function MinStop(price: real): real { price * 0.02 }

  function MaxStop(price: real): real { price * 0.10 }
}
