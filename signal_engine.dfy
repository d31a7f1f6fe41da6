/** The evolution signal engine (policy_evolution/signal_engine.py): turns
    an evaluation into a set of flags, short-circuiting on a healthy one. */
module SignalEngine {
  import opened Common
  import opened Evaluation
  import opened Signals

  /** What reading the under-enforcement condition raises: the evaluation
      record has no `failure_risk` attribute. */
  const FailureRiskMissing := MissingAttribute("PolicyEvaluation", "failure_risk")

  predicate Fatigued(e: PolicyEvaluation) {
    e.alarmTriggerRate > 0.6 && e.falseAlarmRate > 0.25
  }

  predicate Stagnant(e: PolicyEvaluation) {
    e.supportRatio > 0.8 || e.stabilizationRatio > 0.8 || e.enforcementRatio > 0.8
  }

  /** The warnings a non-healthy evaluation raises, `underEnforced` standing
      for the under-enforcement condition: each flag exactly when its
      condition holds, and never HEALTHY. */
  function Warnings(e: PolicyEvaluation, underEnforced: bool): (r: set<EvolutionSignal>)
    ensures Healthy !in r
    ensures Risky in r <==> e.governanceHealth == "risky"
    ensures Degrading in r <==> e.governanceHealth == "degrading"
    ensures AlarmFatigue in r <==> e.alarmTriggerRate > 0.6 && e.falseAlarmRate > 0.25
    ensures TrustCollapse in r <==> e.trustDelta < 0.0
    ensures OverEnforcement in r <==> e.enforcementRatio > 0.6
    ensures UnderEnforcement in r <==> underEnforced
    ensures StrategyStagnation in r <==>
      e.supportRatio > 0.8 || e.stabilizationRatio > 0.8 || e.enforcementRatio > 0.8
  {
    (if e.governanceHealth == "risky" then {Risky} else {})
    + (if e.governanceHealth == "degrading" then {Degrading} else {})
    + (if Fatigued(e) then {AlarmFatigue} else {})
    + (if e.trustDelta < 0.0 then {TrustCollapse} else {})
    + (if e.enforcementRatio > 0.6 then {OverEnforcement} else {})
    + (if underEnforced then {UnderEnforcement} else {})
    + (if Stagnant(e) then {StrategyStagnation} else {})
  }

  /** `derive` as written. A healthy evaluation yields exactly {HEALTHY}.
      Any other evaluation with enforcement ratio below 0.1 reaches the read
      of the missing `failure_risk` attribute and raises; the rest yield
      their warnings, which therefore never include UNDER_ENFORCEMENT. */
  function Derive(e: PolicyEvaluation): (r: Result<set<EvolutionSignal>, AttributeError>)
    ensures e.governanceHealth == "healthy" ==> r == Success({Healthy})
    ensures r.Failure? <==> e.governanceHealth != "healthy" && e.enforcementRatio < 0.1
    ensures r.Failure? ==> r.error == FailureRiskMissing
    ensures r.Success? && e.governanceHealth != "healthy" ==>
      && Healthy !in r.value
      && (Risky in r.value <==> e.governanceHealth == "risky")
      && (Degrading in r.value <==> e.governanceHealth == "degrading")
      && (AlarmFatigue in r.value <==> e.alarmTriggerRate > 0.6 && e.falseAlarmRate > 0.25)
      && (TrustCollapse in r.value <==> e.trustDelta < 0.0)
      && (OverEnforcement in r.value <==> e.enforcementRatio > 0.6)
      && UnderEnforcement !in r.value
      && (StrategyStagnation in r.value <==>
            e.supportRatio > 0.8 || e.stabilizationRatio > 0.8 || e.enforcementRatio > 0.8)
  {
    if e.governanceHealth == "healthy" then Success({Healthy})
    else if e.enforcementRatio < 0.1 then Failure(FailureRiskMissing)
    else Success(Warnings(e, false))
  }

  /** `derive` step by step: the set grows one `add` at a time, with the
      early return on a healthy evaluation and the raise at the
      under-enforcement check. */
  method DeriveSignals(e: PolicyEvaluation) returns (r: Result<set<EvolutionSignal>, AttributeError>)
    ensures r == Derive(e)
  {
    var signals: set<EvolutionSignal> := {};

    if e.governanceHealth == "healthy" {
      signals := signals + {Healthy};
      assert signals == {Healthy};
      return Success(signals);
    }
    if e.governanceHealth == "risky" {
      signals := signals + {Risky};
    }
    if e.governanceHealth == "degrading" {
      signals := signals + {Degrading};
    }

    if e.alarmTriggerRate > 0.6 && e.falseAlarmRate > 0.25 {
      signals := signals + {AlarmFatigue};
    }
    if e.trustDelta < 0.0 {
      signals := signals + {TrustCollapse};
    }
    if e.enforcementRatio > 0.6 {
      signals := signals + {OverEnforcement};
    }
    if e.enforcementRatio < 0.1 {
      return Failure(FailureRiskMissing);
    }
    if e.supportRatio > 0.8 || e.stabilizationRatio > 0.8 || e.enforcementRatio > 0.8 {
      signals := signals + {StrategyStagnation};
    }
    forall x: EvolutionSignal
      ensures x in signals <==> x in Warnings(e, false)
    {
    }
    assert signals == Warnings(e, false);
    assert Derive(e) == Success(Warnings(e, false));
    return Success(signals);
  }

  /** A concrete evaluation the as-written engine cannot translate: degrading
      trust under a mostly supportive regime. */
  lemma DeriveRaisesOnSupportiveDegradingWindow()
    ensures Derive(PolicyEvaluation(7, 0.3, 0.5, 0.2, -0.1, 0.1, 0.0, 0.7, 0.3, "degrading"))
            == Failure(FailureRiskMissing)
  {
  }

  /** The engine with the evidently intended under-enforcement check, given
      the failure risk it meant to read: never raises, and flags
      UNDER_ENFORCEMENT exactly for a non-healthy window with enforcement
      below 10% and failure risk above 0.7. Everything else is as written. */
  function DeriveWithFailureRisk(e: PolicyEvaluation, failureRisk: real): (r: set<EvolutionSignal>)
    ensures e.governanceHealth == "healthy" ==> r == {Healthy}
    ensures e.governanceHealth != "healthy" ==>
      (UnderEnforcement in r <==> e.enforcementRatio < 0.1 && failureRisk > 0.7)
    ensures e.governanceHealth != "healthy" && e.enforcementRatio >= 0.1 ==> Derive(e) == Success(r)
  {
    if e.governanceHealth == "healthy" then {Healthy}
    else Warnings(e, e.enforcementRatio < 0.1 && failureRisk > 0.7)
  }

  /** Stagnation caused by enforcement above 80% always comes with
      over-enforcement. */
  lemma EnforcementStagnationIsOverEnforcement(e: PolicyEvaluation)
    requires e.governanceHealth != "healthy" && e.enforcementRatio > 0.8
    ensures Derive(e).Success?
    ensures StrategyStagnation in Derive(e).value && OverEnforcement in Derive(e).value
  {
  }

  /** Every recognised verdict yields at least one signal, with the as-written
      engine whenever it does not raise and always with the corrected one. */
  lemma RecognisedHealthNeverSilent(e: PolicyEvaluation, failureRisk: real)
    requires e.governanceHealth in {"healthy", "risky", "degrading"}
    ensures Derive(e).Success? ==> Derive(e).value != {}
    ensures DeriveWithFailureRisk(e, failureRisk) != {}
  {
    if e.governanceHealth == "risky" {
      assert Risky in DeriveWithFailureRisk(e, failureRisk);
    } else if e.governanceHealth == "degrading" {
      assert Degrading in DeriveWithFailureRisk(e, failureRisk);
    }
  }
}
