/** Early support, for strain short of burnout
    (governing_brain/policies/support.py). */
module SupportPolicy {
  import opened Common
  import opened Strategies
  import opened StateModel

  /** Moderate risk and moderate fatigue (upper bounds exclusive), discipline
      still present, avoidance not dominant. */
  predicate PreBurnout(s: BehavioralState) {
    && 0.45 <= s.failureRisk < 0.6
    && 0.45 <= s.fatigueIndex < 0.6
    && s.disciplineLevel >= 0.4
    && s.avoidanceTendency <= 0.5
  }

  /** Negative momentum with recoverable capacity. */
  predicate NegativeMomentumWithCapacity(s: BehavioralState) {
    && s.momentumTrend <= -0.2
    && s.fatigueIndex >= 0.45
    && s.disciplineLevel >= 0.35
    && s.avoidanceTendency <= 0.5
  }

  /** `early_support_policy`: SUPPORT when either clause holds, otherwise no opinion. */
  function EarlySupport(s: BehavioralState): (r: Option<Strategy>)
    ensures r == None || r == Some(Support)
    ensures r == Some(Support) <==> PreBurnout(s) || NegativeMomentumWithCapacity(s)
  {
    if PreBurnout(s) then Some(Support)
    else if NegativeMomentumWithCapacity(s) then Some(Support)
    else None
  }

  /** Both clauses bound avoidance by 0.5 and discipline from below by 0.35,
      so the policy stays silent outside those bounds. */
  lemma EarlySupportNeedsCapacity(s: BehavioralState)
    requires s.avoidanceTendency > 0.5 || s.disciplineLevel < 0.35
    ensures EarlySupport(s) == None
  {
  }
}
