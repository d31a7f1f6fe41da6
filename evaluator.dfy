/** The read-only policy evaluator (policy_evolution/evaluator.py): counts,
    rates and ratios over a window of simulation logs, and a three-way
    health verdict. */
module Evaluator {
  import opened Common
  import opened Strategies
  import opened Metrics
  import opened Evaluation

  /** An evaluator holds the logs it was built from, never empty. */
  datatype PolicyEvaluator = PolicyEvaluator(logs: seq<SimulationLog>)

  /** The ValueError raised for an empty window. */
  datatype EvaluatorError = EmptyLogs

  /** `PolicyEvaluator(logs)`: refuses exactly the empty window. */
  function NewEvaluator(logs: seq<SimulationLog>): (r: Result<PolicyEvaluator, EvaluatorError>)
    ensures r.Success? <==> |logs| > 0
    ensures r.Success? ==> r.value.logs == logs
    ensures r.Failure? ==> r.error == EmptyLogs
  {
    if |logs| == 0 then Failure(EmptyLogs) else Success(PolicyEvaluator(logs))
  }

  /** Days on which an alarm fired. */
  function Triggered(logs: seq<SimulationLog>): (n: nat)
    ensures n <= |logs|
  {
    if logs == [] then 0
    else Triggered(logs[..|logs| - 1]) + (if logs[|logs| - 1].alarmTriggered then 1 else 0)
  }

  /** Days on which an alarm fired and the outcome is recorded as `outcome`
      (`is True` / `is False`: an unrecorded outcome counts as neither). */
  function TriggeredWith(logs: seq<SimulationLog>, outcome: bool): nat {
    if logs == [] then 0
    else
      var last := logs[|logs| - 1];
      TriggeredWith(logs[..|logs| - 1], outcome)
      + (if last.alarmTriggered && last.outcomeSuccess == Some(outcome) then 1 else 0)
  }

  /** Sum of the logged trust changes: never negative when no change is,
      and negative when every change is. */
  function TotalTrust(logs: seq<SimulationLog>): (t: real)
    ensures (forall i :: 0 <= i < |logs| ==> logs[i].trustDelta >= 0.0) ==> t >= 0.0
    ensures |logs| > 0 && (forall i :: 0 <= i < |logs| ==> logs[i].trustDelta < 0.0) ==> t < 0.0
  {
    if logs == [] then 0.0
    else
      var init := logs[..|logs| - 1];
      assert forall i :: 0 <= i < |init| ==> init[i] == logs[i];
      TotalTrust(init) + logs[|logs| - 1].trustDelta
  }

  /** Days whose directive used strategy `s` (the Counter entry, 0 when absent). */
  function Uses(logs: seq<SimulationLog>, s: Strategy): (n: nat)
    ensures n <= |logs|
  {
    if logs == [] then 0
    else Uses(logs[..|logs| - 1], s) + (if logs[|logs| - 1].LoggedStrategy() == s then 1 else 0)
  }

  /** `Triggered` counts exactly the positions of the window whose log
      records a fired alarm. */
  lemma {:induction false} TriggeredCountsDays(logs: seq<SimulationLog>)
    ensures Triggered(logs) == |set i | 0 <= i < |logs| && logs[i].alarmTriggered|
  {
    if logs != [] {
      var init, last := logs[..|logs| - 1], |logs| - 1;
      TriggeredCountsDays(init);
      assert (set i | 0 <= i < |logs| && logs[i].alarmTriggered)
        == (set i | 0 <= i < |init| && init[i].alarmTriggered)
           + (if logs[last].alarmTriggered then {last} else {});
    }
  }

  /** `TriggeredWith` counts exactly the positions of the window whose alarm
      fired with the outcome recorded as `outcome`. */
  lemma {:induction false} TriggeredWithCountsDays(logs: seq<SimulationLog>, outcome: bool)
    ensures TriggeredWith(logs, outcome)
      == |set i | 0 <= i < |logs| && logs[i].alarmTriggered && logs[i].outcomeSuccess == Some(outcome)|
  {
    if logs != [] {
      var init, last := logs[..|logs| - 1], |logs| - 1;
      TriggeredWithCountsDays(init, outcome);
      var hit := logs[last].alarmTriggered && logs[last].outcomeSuccess == Some(outcome);
      assert (set i | 0 <= i < |logs| && logs[i].alarmTriggered && logs[i].outcomeSuccess == Some(outcome))
        == (set i | 0 <= i < |init| && init[i].alarmTriggered && init[i].outcomeSuccess == Some(outcome))
           + (if hit then {last} else {});
    }
  }

  /** `Uses` counts exactly the positions of the window logged with strategy
      `s`, as the `Counter` over the logged strategies does. */
  lemma {:induction false} UsesCountsDays(logs: seq<SimulationLog>, s: Strategy)
    ensures Uses(logs, s) == |set i | 0 <= i < |logs| && logs[i].LoggedStrategy() == s|
  {
    if logs != [] {
      var init, last := logs[..|logs| - 1], |logs| - 1;
      UsesCountsDays(init, s);
      assert (set i | 0 <= i < |logs| && logs[i].LoggedStrategy() == s)
        == (set i | 0 <= i < |init| && init[i].LoggedStrategy() == s)
           + (if logs[last].LoggedStrategy() == s then {last} else {});
    }
  }

  /** Successful and failed alarms together never exceed the alarms fired. */
  lemma {:induction false} OutcomesWithinTriggered(logs: seq<SimulationLog>)
    ensures TriggeredWith(logs, true) + TriggeredWith(logs, false) <= Triggered(logs)
  {
    if logs != [] {
      OutcomesWithinTriggered(logs[..|logs| - 1]);
    }
  }

  /** When every day records its outcome, each fired alarm is either a
      success or a false alarm. */
  lemma {:induction false} RecordedOutcomesAreCounted(logs: seq<SimulationLog>)
    requires forall i :: 0 <= i < |logs| ==> logs[i].outcomeSuccess.Some?
    ensures TriggeredWith(logs, true) + TriggeredWith(logs, false) == Triggered(logs)
  {
    if logs != [] {
      var init := logs[..|logs| - 1];
      assert forall i :: 0 <= i < |init| ==> init[i] == logs[i];
      RecordedOutcomesAreCounted(init);
      var last := logs[|logs| - 1];
      assert last.outcomeSuccess.Some?;
      assert TriggeredWith(logs, true)
        == TriggeredWith(init, true) + (if last.alarmTriggered && last.outcomeSuccess == Some(true) then 1 else 0);
      assert TriggeredWith(logs, false)
        == TriggeredWith(init, false) + (if last.alarmTriggered && last.outcomeSuccess == Some(false) then 1 else 0);
      if last.outcomeSuccess.value {
        assert last.outcomeSuccess == Some(true);
      } else {
        assert last.outcomeSuccess == Some(false);
      }
    }
  }

  /** The days on which ENFORCEMENT, SUPPORT and STABILIZATION were used are
      disjoint, so together they are at most the window. */
  lemma {:induction false} UsesWithinWindow(logs: seq<SimulationLog>)
    ensures Uses(logs, Enforcement) + Uses(logs, Support) + Uses(logs, Stabilization) <= |logs|
  {
    if logs != [] {
      UsesWithinWindow(logs[..|logs| - 1]);
    }
  }

  /** A window in which every day used `s` counts every day for `s` and no
      day for any other strategy. */
  lemma {:induction false} UniformUses(logs: seq<SimulationLog>, s: Strategy, other: Strategy)
    requires forall i :: 0 <= i < |logs| ==> logs[i].LoggedStrategy() == s
    requires other != s
    ensures Uses(logs, s) == |logs| && Uses(logs, other) == 0
  {
    if logs != [] {
      var init := logs[..|logs| - 1];
      assert forall i :: 0 <= i < |init| ==> init[i] == logs[i];
      UniformUses(init, s, other);
    }
  }

  /** `a / b` as Python's true division of two counts. */
  function Ratio(a: nat, b: nat): (r: real)
    requires b > 0
    ensures a <= b ==> 0.0 <= r <= 1.0
    ensures r * b as real == a as real
  {
    a as real / b as real
  }

  /** Ratios over one denominator add up as their numerators do. */
  lemma RatioSum(a: nat, b: nat, d: nat)
    requires d > 0
    ensures Ratio(a, d) + Ratio(b, d) == Ratio(a + b, d)
  {
  }

  /** A count over itself is 1. */
  lemma RatioWhole(d: nat)
    requires d > 0
    ensures Ratio(d, d) == 1.0
  {
  }

  /** Share of the days on which an alarm fired. */
  function TriggerRate(logs: seq<SimulationLog>): (r: real)
    requires |logs| > 0
    ensures 0.0 <= r <= 1.0
    ensures r * |logs| as real == Triggered(logs) as real
  {
    Ratio(Triggered(logs), |logs|)
  }

  /** Share of the fired alarms whose outcome is `outcome`; 0 when no alarm fired. */
  function OutcomeRate(logs: seq<SimulationLog>, outcome: bool): (r: real)
    ensures 0.0 <= r <= 1.0
    ensures Triggered(logs) == 0 ==> r == 0.0
    ensures Triggered(logs) > 0 ==> r * Triggered(logs) as real == TriggeredWith(logs, outcome) as real
  {
    OutcomesWithinTriggered(logs);
    var fired := Triggered(logs);
    if fired > 0 then Ratio(TriggeredWith(logs, outcome), fired) else 0.0
  }

  /** Share of the days whose directive used strategy `s`. */
  function UsageRatio(logs: seq<SimulationLog>, s: Strategy): (r: real)
    requires |logs| > 0
    ensures 0.0 <= r <= 1.0
    ensures r * |logs| as real == Uses(logs, s) as real
  {
    Ratio(Uses(logs, s), |logs|)
  }

  /** The success and false-alarm rates together never exceed 1. */
  lemma OutcomeRatesSum(logs: seq<SimulationLog>)
    ensures OutcomeRate(logs, true) + OutcomeRate(logs, false) <= 1.0
  {
    if Triggered(logs) > 0 {
      OutcomesWithinTriggered(logs);
      RatioSum(TriggeredWith(logs, true), TriggeredWith(logs, false), Triggered(logs));
    }
  }

  /** When every fired alarm is a success or a false alarm, the two rates add to 1. */
  lemma CountedOutcomeRatesSum(logs: seq<SimulationLog>)
    requires Triggered(logs) > 0
    requires TriggeredWith(logs, true) + TriggeredWith(logs, false) == Triggered(logs)
    ensures OutcomeRate(logs, true) + OutcomeRate(logs, false) == 1.0
  {
    var t, ok, bad := Triggered(logs), TriggeredWith(logs, true), TriggeredWith(logs, false);
    RatioSum(ok, bad, t);
    RatioWhole(t);
    assert Ratio(ok + bad, t) == Ratio(t, t);
  }

  /** When every day records its outcome and some alarm fired, every fired
      alarm is a success or a false alarm, so the two rates add to 1. */
  lemma RecordedOutcomeRatesSum(logs: seq<SimulationLog>)
    requires Triggered(logs) > 0
    requires forall i :: 0 <= i < |logs| ==> logs[i].outcomeSuccess.Some?
    ensures OutcomeRate(logs, true) + OutcomeRate(logs, false) == 1.0
  {
    RecordedOutcomesAreCounted(logs);
    CountedOutcomeRatesSum(logs);
  }

  /** The three strategy ratios together never exceed 1. */
  lemma UsageRatiosSum(logs: seq<SimulationLog>)
    requires |logs| > 0
    ensures UsageRatio(logs, Enforcement) + UsageRatio(logs, Support) + UsageRatio(logs, Stabilization) <= 1.0
  {
    var d := |logs|;
    UsesWithinWindow(logs);
    RatioSum(Uses(logs, Enforcement), Uses(logs, Support), d);
    RatioSum(Uses(logs, Enforcement) + Uses(logs, Support), Uses(logs, Stabilization), d);
  }

  /** The verdict: "risky" above 30% false alarms, else "degrading" when
      trust fell, else "healthy". */
  function Health(falseAlarmRate: real, trustDelta: real): (h: string)
    ensures h in {"healthy", "risky", "degrading"}
    ensures h == "risky" <==> falseAlarmRate > 0.3
    ensures h == "degrading" <==> falseAlarmRate <= 0.3 && trustDelta < 0.0
    ensures h == "healthy" <==> falseAlarmRate <= 0.3 && trustDelta >= 0.0
  {
    if falseAlarmRate > 0.3 then "risky"
    else if trustDelta < 0.0 then "degrading"
    else "healthy"
  }

  /** `evaluate`: the window is the number of logs; the rates and ratios
      are the shares above, so each lies in [0,1], the success and
      false-alarm rates together are at most 1 and the three strategy ratios
      together at most 1; trust is the sum of the logged changes and fatigue
      the change from the first to the last day; the verdict follows the
      false-alarm rate, then the trust. */
  function Evaluate(ev: PolicyEvaluator): (e: PolicyEvaluation)
    requires |ev.logs| > 0
    ensures e.windowDays == |ev.logs|
    ensures e.alarmTriggerRate == TriggerRate(ev.logs)
    ensures e.successRate == OutcomeRate(ev.logs, true) && e.falseAlarmRate == OutcomeRate(ev.logs, false)
    ensures e.successRate + e.falseAlarmRate <= 1.0
    ensures e.trustDelta == TotalTrust(ev.logs)
    ensures e.fatigueDelta == ev.logs[|ev.logs| - 1].Fatigue() - ev.logs[0].Fatigue()
    ensures e.enforcementRatio == UsageRatio(ev.logs, Enforcement)
    ensures e.supportRatio == UsageRatio(ev.logs, Support)
    ensures e.stabilizationRatio == UsageRatio(ev.logs, Stabilization)
    ensures e.enforcementRatio + e.supportRatio + e.stabilizationRatio <= 1.0
    ensures e.governanceHealth == Health(e.falseAlarmRate, e.trustDelta)
  {
    var logs := ev.logs;
    var days := |logs|;
    OutcomeRatesSum(logs);
    UsageRatiosSum(logs);
    var falseAlarmRate := OutcomeRate(logs, false);
    var trust := TotalTrust(logs);
    PolicyEvaluation(
      windowDays := days,
      alarmTriggerRate := TriggerRate(logs),
      successRate := OutcomeRate(logs, true),
      falseAlarmRate := falseAlarmRate,
      trustDelta := trust,
      fatigueDelta := logs[days - 1].Fatigue() - logs[0].Fatigue(),
      enforcementRatio := UsageRatio(logs, Enforcement),
      supportRatio := UsageRatio(logs, Support),
      stabilizationRatio := UsageRatio(logs, Stabilization),
      governanceHealth := Health(falseAlarmRate, trust))
  }

  /** A window governed by ENFORCEMENT alone has enforcement ratio 1 and
      the other two ratios 0. */
  lemma AllEnforcementWindow(ev: PolicyEvaluator)
    requires |ev.logs| > 0
    requires forall i :: 0 <= i < |ev.logs| ==> ev.logs[i].LoggedStrategy() == Enforcement
    ensures Evaluate(ev).enforcementRatio == 1.0
    ensures Evaluate(ev).supportRatio == 0.0 && Evaluate(ev).stabilizationRatio == 0.0
  {
    var d := |ev.logs|;
    UniformUses(ev.logs, Enforcement, Support);
    UniformUses(ev.logs, Enforcement, Stabilization);
    RatioWhole(d);
    assert UsageRatio(ev.logs, Enforcement) == Ratio(d, d);
    assert UsageRatio(ev.logs, Support) == Ratio(0, d);
    assert UsageRatio(ev.logs, Stabilization) == Ratio(0, d);
  }
}
