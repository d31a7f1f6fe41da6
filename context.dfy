/** The context guard for low-stakes days
    (governing_brain/policies/context.py). */
module ContextPolicy {
  import opened Common
  import opened Strategies
  import opened StateModel

  /** Low-stakes day and no acute risk; all four bounds inclusive. */
  predicate LowStakesAndStable(s: BehavioralState) {
    && s.contextImportance <= 0.4
    && s.failureRisk <= 0.5
    && s.fatigueIndex <= 0.6
    && s.avoidanceTendency <= 0.5
  }

  /** `context_guard_policy`: STABILIZATION exactly on a stable low-stakes day. */
  function ContextGuard(s: BehavioralState): (r: Option<Strategy>)
    ensures r == None || r == Some(Stabilization)
    ensures r == Some(Stabilization) <==> LowStakesAndStable(s)
  {
    if LowStakesAndStable(s) then Some(Stabilization) else None
  }

  /** Important days and dominant avoidance both silence the guard. */
  lemma ContextGuardSilentWhenImportantOrAvoidant(s: BehavioralState)
    requires s.contextImportance > 0.4 || s.avoidanceTendency > 0.5
    ensures ContextGuard(s) == None
  {
  }
}
