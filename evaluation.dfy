/** The aggregate record a policy evaluation produces
    (policy_evolution/evaluation.py). */
module Evaluation {

  /** Governance performance over a window of simulated days. The health
      verdict is a free string: the evaluator only ever writes "healthy",
      "risky" or "degrading", but the record itself does not restrict it. */
  datatype PolicyEvaluation = PolicyEvaluation(
    windowDays: int,
    alarmTriggerRate: real,
    successRate: real,
    falseAlarmRate: real,
    trustDelta: real,
    fatigueDelta: real,
    enforcementRatio: real,
    supportRatio: real,
    stabilizationRatio: real,
    governanceHealth: string)
}
