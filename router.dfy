/** The priority-ordered policy pipeline: first match wins, STABILIZATION as
    the fallback (governing_brain/policies/router.py). */
module Router {
  import opened Common
  import opened Strategies
  import opened StateModel
  import BurnoutPolicy
  import SupportPolicy
  import ContextPolicy
  import EnforcementPolicy

  /** The four policy functions, named. */
  datatype Policy = BurnoutRule | EarlySupportRule | ContextGuardRule | EnforcementRule

  /** `POLICY_PIPELINE`, highest priority first. */
  const Pipeline: seq<Policy> := [BurnoutRule, EarlySupportRule, ContextGuardRule, EnforcementRule]

  /** Calls one policy on a state. */
  function Evaluate(p: Policy, s: BehavioralState): Option<Strategy> {
    match p
    case BurnoutRule => BurnoutPolicy.Burnout(s)
    case EarlySupportRule => SupportPolicy.EarlySupport(s)
    case ContextGuardRule => ContextPolicy.ContextGuard(s)
    case EnforcementRule => EnforcementPolicy.Enforce(s)
  }

  /** The loop of `select_strategy` before its fallback: the decision of the
      first policy in `policies` that has one, or none when every policy
      abstains. */
  function FirstMatch(policies: seq<Policy>, s: BehavioralState): (r: Option<Strategy>)
    ensures r.None? <==> forall i :: 0 <= i < |policies| ==> Evaluate(policies[i], s).None?
    ensures r.Some? ==> exists i :: (0 <= i < |policies| && Evaluate(policies[i], s) == r
      && forall j :: 0 <= j < i ==> Evaluate(policies[j], s).None?)
  {
    if policies == [] then None
    else
      match Evaluate(policies[0], s)
      case Some(decision) => Some(decision)
      case None =>
        var r := FirstMatch(policies[1..], s);
        assert forall i :: 1 <= i < |policies| ==> policies[i] == policies[1..][i - 1];
        if r.Some? then
          var i :| (0 <= i < |policies[1..]| && Evaluate(policies[1..][i], s) == r
            && forall j :: 0 <= j < i ==> Evaluate(policies[1..][j], s).None?);
          assert Evaluate(policies[i + 1], s) == r;
          r
        else r
  }

  /** When the enforcement rule holds, every earlier policy abstains: its
      fatigue bound rules out each burnout clause, and its avoidance bound
      rules out early support and the context guard. */
  lemma EnforcementExcludesEarlierPolicies(s: BehavioralState)
    ensures EnforcementPolicy.JustifiedEnforcement(s) ==>
      && BurnoutPolicy.Burnout(s) == None
      && SupportPolicy.EarlySupport(s) == None
      && ContextPolicy.ContextGuard(s) == None
  {
  }

  /** `select_strategy`: the decision of the first policy in priority order
      that has one. The result is always SUPPORT, STABILIZATION or
      ENFORCEMENT; burnout protection overrides everything; early support
      overrides the context guard; the fallback is STABILIZATION; and the
      result is ENFORCEMENT exactly when the enforcement policy fires. */
  function SelectStrategy(s: BehavioralState): (r: Strategy)
    ensures r == Support || r == Stabilization || r == Strategy.Enforcement
    ensures BurnoutPolicy.Burnout(s).Some? ==> r == Support
    ensures BurnoutPolicy.Burnout(s).None? && SupportPolicy.EarlySupport(s).Some? ==> r == Support
    ensures (BurnoutPolicy.Burnout(s).None? && SupportPolicy.EarlySupport(s).None?
             && ContextPolicy.ContextGuard(s).Some?) ==> r == Stabilization
    ensures (forall p :: p in Pipeline ==> Evaluate(p, s).None?) ==> r == Stabilization
    ensures r == Strategy.Enforcement <==> EnforcementPolicy.Enforce(s).Some?
  {
    EnforcementExcludesEarlierPolicies(s);
    assert Evaluate(Pipeline[0], s) == BurnoutPolicy.Burnout(s);
    assert Evaluate(Pipeline[1], s) == SupportPolicy.EarlySupport(s);
    assert Evaluate(Pipeline[2], s) == ContextPolicy.ContextGuard(s);
    match FirstMatch(Pipeline, s)
    case Some(decision) => decision
    case None =>
      assert Evaluate(Pipeline[3], s).None?;
      Stabilization
  }
}
