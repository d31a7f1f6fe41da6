/** One governance decision cycle: route the state to a strategy, look the
    strategy up in the fixed directive table, and record an explanation
    (governing_brain/brain.py). `GoverningBrain` has no fields, so its methods
    are functions here. */
module Brain {
  import opened Common
  import opened Strategies
  import opened StateModel
  import opened Outputs
  import opened Explanations
  import Router

  /** `_build_directive`: the fixed strategy-to-directive table. Each entry
      is the record the validating constructor yields for the arguments
      `_build_directive` passes it (`ConstructorBuildsTable`), so building a
      directive never fails and every directive is well formed. */
  function BuildDirective(strategy: Strategy): (r: Result<GovernanceDirective, DirectiveError>)
    ensures r.Success? && r.value.strategy == strategy && WellFormed(r.value)
    ensures strategy == Enforcement ==>
      r.value == GovernanceDirective(Enforcement, 0.9, ["alarm_enforcement"], 1.0, false, true)
    ensures strategy == Support ==>
      r.value == GovernanceDirective(Support, 0.3, ["coaching"], 0.2, true, true)
    ensures strategy != Enforcement && strategy != Support ==>
      r.value == GovernanceDirective(strategy, 0.5, [], 0.5, true, false)
  {
    if strategy == Enforcement then
      AlreadyNormal("alarm_enforcement");
      Success(GovernanceDirective(strategy, 0.9, ["alarm_enforcement"], 1.0, false, true))
    else if strategy == Support then
      AlreadyNormal("coaching");
      Success(GovernanceDirective(strategy, 0.3, ["coaching"], 0.2, true, true))
    else
      Success(GovernanceDirective(strategy, 0.5, [], 0.5, true, false))
  }

  /** The arguments `_build_directive` hands the constructor pass all of its
      checks, and the record it then builds is the table entry. */
  lemma ConstructorBuildsTable(strategy: Strategy)
    ensures strategy == Enforcement ==>
      NewDirective(strategy, 0.9, [Text("alarm_enforcement")], 1.0, false, true) == BuildDirective(strategy)
    ensures strategy == Support ==>
      NewDirective(strategy, 0.3, [Text("coaching")], 0.2, true, true) == BuildDirective(strategy)
    ensures strategy != Enforcement && strategy != Support ==>
      NewDirective(strategy, 0.5, [], 0.5, true, false) == BuildDirective(strategy)
  {
    if strategy == Enforcement {
      OneNormalCapability(strategy, 0.9, "alarm_enforcement", 1.0, false, true);
    } else if strategy == Support {
      OneNormalCapability(strategy, 0.3, "coaching", 0.2, true, true);
    }
  }

  /** In-range bounds and a single capability already in normal form pass
      every check of the constructor, which then keeps that capability. */
  lemma OneNormalCapability(strategy: Strategy, strictness: real, cap: string, escalation: real,
                            recovery: bool, explanation: bool)
    requires InUnitInterval(strictness) && InUnitInterval(escalation)
    requires cap != [] && forall i :: 0 <= i < |cap| ==> 'a' <= cap[i] <= 'z' || cap[i] == '_'
    ensures NewDirective(strategy, strictness, [Text(cap)], escalation, recovery, explanation)
         == Success(GovernanceDirective(strategy, strictness, [cap], escalation, recovery, explanation))
  {
    AlreadyNormal(cap);
    var caps := [Text(cap)];
    assert ValidCapability(caps[0]);
    var r := NewDirective(strategy, strictness, caps, escalation, recovery, explanation);
    assert r.Success?;
    assert r.value.allowedCapabilities == [cap] by {
      assert r.value.allowedCapabilities[0] == NormalizeCapability(caps[0]);
    }
  }

  /** A non-empty string of lower-case letters and underscores is its own
      normal form. */
  lemma AlreadyNormal(s: string)
    requires s != [] && forall i :: 0 <= i < |s| ==> 'a' <= s[i] <= 'z' || s[i] == '_'
    ensures Strip(s) == s && Lower(Strip(s)) == s
  {
    StripTrimmed(s);
  }

  /** The six scalars of a state, keyed by their field names. */
  function Snapshot(s: BehavioralState): (m: map<string, real>)
    ensures m.Keys == {"discipline_level", "failure_risk", "fatigue_index",
                       "avoidance_tendency", "context_importance", "momentum_trend"}
    ensures m["discipline_level"] == s.disciplineLevel && m["failure_risk"] == s.failureRisk
    ensures m["fatigue_index"] == s.fatigueIndex && m["avoidance_tendency"] == s.avoidanceTendency
    ensures m["context_importance"] == s.contextImportance && m["momentum_trend"] == s.momentumTrend
  {
    map[
      "discipline_level" := s.disciplineLevel,
      "failure_risk" := s.failureRisk,
      "fatigue_index" := s.fatigueIndex,
      "avoidance_tendency" := s.avoidanceTendency,
      "context_importance" := s.contextImportance,
      "momentum_trend" := s.momentumTrend]
  }

  /** `_build_explanation`, without the numeric `state_summary` text: the
      record names the strategy, snapshots exactly the six state fields with
      the state's values, and carries full confidence. */
  function BuildExplanation(strategy: Strategy, s: BehavioralState, decisionId: string, timestamp: Timestamp)
    : (e: ExplanationRecord)
    ensures e.strategySelected == strategy
    ensures e.stateSnapshot.Keys == {"discipline_level", "failure_risk", "fatigue_index",
                                     "avoidance_tendency", "context_importance", "momentum_trend"}
    ensures e.stateSnapshot["fatigue_index"] == s.fatigueIndex
    ensures e.stateSnapshot["failure_risk"] == s.failureRisk
    ensures e.stateSnapshot["discipline_level"] == s.disciplineLevel
    ensures e.stateSnapshot["avoidance_tendency"] == s.avoidanceTendency
    ensures e.stateSnapshot["context_importance"] == s.contextImportance
    ensures e.stateSnapshot["momentum_trend"] == s.momentumTrend
    ensures e.decisionConfidence == 1.0
    ensures e.decisionId == decisionId && e.timestamp == timestamp
  {
    ExplanationRecord(
      trigger := "Policy evaluation based on behavioral state",
      strategySelected := strategy,
      stateSnapshot := Snapshot(s),
      actionSummary := "Selected " + Value(strategy) + " strategy",
      expectedOutcome := "Improved long-term behavioral stability",
      reversalCondition := "State variables return to safe ranges",
      decisionConfidence := 1.0,
      decisionId := decisionId,
      timestamp := timestamp)
  }

  /** `decide`: never fails; the directive is the table entry of the
      router's strategy and the explanation is the record built for that
      strategy, the state, and the supplied identifier and time. */
  function Decide(s: BehavioralState, decisionId: string, timestamp: Timestamp)
    : (r: Result<(GovernanceDirective, ExplanationRecord), DirectiveError>)
    ensures r.Success?
    ensures r.value.0.strategy == Router.SelectStrategy(s)
    ensures r.value.1.strategySelected == r.value.0.strategy
    ensures WellFormed(r.value.0)
    ensures r.value.1.stateSnapshot == Snapshot(s) && r.value.1.decisionConfidence == 1.0
    ensures r.value.0 == BuildDirective(Router.SelectStrategy(s)).value
    ensures r.value.1 == BuildExplanation(Router.SelectStrategy(s), s, decisionId, timestamp)
  {
    var strategy := Router.SelectStrategy(s);
    var directive := BuildDirective(strategy);
    Success((directive.value, BuildExplanation(strategy, s, decisionId, timestamp)))
  }

  /** The directive depends on the strategy alone: two states routed to the
      same strategy get the same directive. */
  lemma DirectiveDependsOnlyOnStrategy(s1: BehavioralState, s2: BehavioralState,
                                       id1: string, id2: string, t1: Timestamp, t2: Timestamp)
    requires Router.SelectStrategy(s1) == Router.SelectStrategy(s2)
    ensures Decide(s1, id1, t1).value.0 == Decide(s2, id2, t2).value.0
  {
  }

  /** The directive's recovery flag agrees with the strategy's
      allows-recovery tag, except for STABILIZATION, whose directive allows
      recovery although the tag does not. */
  lemma RecoveryFlagVersusTag(strategy: Strategy)
    ensures strategy != Stabilization ==> BuildDirective(strategy).value.recoveryAllowed == AllowsRecovery(strategy)
    ensures strategy == Stabilization ==>
      BuildDirective(strategy).value.recoveryAllowed && !AllowsRecovery(strategy)
  {
  }
}
