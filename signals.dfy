/** The evolution signals an evaluation is translated into
    (policy_evolution/signals.py). */
module Signals {

  datatype EvolutionSignal =
    | Healthy | Risky | Degrading
    | AlarmFatigue | TrustCollapse | OverEnforcement | UnderEnforcement | StrategyStagnation
  {
    /** The enum's string value. */
    function Value(): string {
      match this
      case Healthy => "healthy"
      case Risky => "risky"
      case Degrading => "degrading"
      case AlarmFatigue => "alarm_fatigue"
      case TrustCollapse => "trust_collapse"
      case OverEnforcement => "over_enforcement"
      case UnderEnforcement => "under_enforcement"
      case StrategyStagnation => "strategy_stagnation"
    }
  }
}
