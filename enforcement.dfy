/** Context-aware enforcement (governing_brain/policies/enforcement.py). */
module EnforcementPolicy {
  import opened Common
  import opened Strategies
  import opened StateModel

  /** Intentional resistance, a high-stakes context, spare capacity, working
      discipline, no downward spiral and an existing risk pattern; all six
      bounds inclusive. */
  predicate JustifiedEnforcement(s: BehavioralState) {
    && s.avoidanceTendency >= 0.65
    && s.contextImportance >= 0.6
    && s.fatigueIndex <= 0.45
    && s.disciplineLevel >= 0.4
    && s.momentumTrend >= -0.15
    && s.failureRisk >= 0.4
  }

  /** `enforcement_policy`: ENFORCEMENT exactly when all six conjuncts hold. */
  function Enforce(s: BehavioralState): (r: Option<Strategy>)
    ensures r == None || r == Some(Enforcement)
    ensures r == Some(Enforcement) <==> JustifiedEnforcement(s)
  {
    if JustifiedEnforcement(s) then Some(Enforcement) else None
  }

  /** Enforcement never fires on a tired user, nor without strong avoidance in
      an important context. */
  lemma EnforceNeedsCapacityAndCause(s: BehavioralState)
    requires s.fatigueIndex > 0.45 || s.avoidanceTendency < 0.65 || s.contextImportance < 0.6
    ensures Enforce(s) == None
  {
  }
}
