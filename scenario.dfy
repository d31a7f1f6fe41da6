/** The basic simulation scenario (simulation/run_simulation.py): one
    burnout-prone student driven through a fresh engine, whose logs then
    feed the policy evaluator. The printed daily summary is not modelled. */
module Scenario {
  import opened Common
  import opened SyntheticUsers
  import opened Metrics
  import opened TimeEngine
  import opened Evaluator
  import opened Evaluation
  import opened Strategies
  import opened SignalEngine
  import Brain

  /** The profile the basic scenario runs against. */
  const Student: UserProfile := UserProfile("Burnout-Prone Student", 0.65, 0.6, 0.35)

  /** `run_basic_simulation(days)`: a fresh user and engine, run once; the
      logs are the specified simulation of `days` cycles from the empty
      world, one per day. */
  method BasicSimulation(days: nat, draws: nat -> real, signalClock: nat -> Timestamp,
                         decisionClock: nat -> Timestamp, decisionIds: nat -> string)
    returns (logs: seq<SimulationLog>)
    ensures logs == Simulate(Setting(Student, draws, signalClock, decisionClock, decisionIds),
                             World(None, 0, None, 0), days).logs
    ensures |logs| == days
  {
    logs := RunFresh(Student, draws, days, signalClock, decisionClock, decisionIds);
  }

  /** `run_basic_simulation` as written: the engine's run completes, but the
      daily summary that follows reads `explanation.summary`, an attribute
      `ExplanationRecord` does not have, so the first logged day raises and
      no logs are returned; only an empty run gets through. */
  method BasicSimulationAsWritten(days: nat, draws: nat -> real, signalClock: nat -> Timestamp,
                                  decisionClock: nat -> Timestamp, decisionIds: nat -> string)
    returns (r: Result<seq<SimulationLog>, AttributeError>)
    ensures r.Failure? <==> days > 0
    ensures r.Failure? ==> r.error == MissingAttribute("ExplanationRecord", "summary")
    ensures r.Success? ==> r.value == []
  {
    var logs := RunFresh(Student, draws, days, signalClock, decisionClock, decisionIds);
    if |logs| > 0 {
      return Failure(MissingAttribute("ExplanationRecord", "summary"));
    }
    return Success(logs);
  }

  /** Any non-empty simulated window from a fresh world can be evaluated:
      the window spans the simulated days, the verdict is one of the three,
      and since every cycle records an outcome, the success and false-alarm
      rates split the triggered alarms exactly whenever any alarm fired. */
  lemma {:induction false} SimulatedWindowEvaluates(st: Setting, days: nat)
    requires days > 0
    ensures var logs := Simulate(st, World(None, 0, None, 0), days).logs;
      && NewEvaluator(logs).Success?
      && Evaluate(NewEvaluator(logs).value).windowDays == days
      && Evaluate(NewEvaluator(logs).value).governanceHealth in {"healthy", "risky", "degrading"}
      && (Triggered(logs) > 0 ==>
            Evaluate(NewEvaluator(logs).value).successRate
            + Evaluate(NewEvaluator(logs).value).falseAlarmRate == 1.0)
  {
    var logs := Simulate(st, World(None, 0, None, 0), days).logs;
    SimulateCycles(st, World(None, 0, None, 0), days);
    assert forall i :: 0 <= i < |logs| ==> logs[i].outcomeSuccess.Some? by {
      forall i | 0 <= i < |logs|
        ensures logs[i].outcomeSuccess.Some?
      {
        assert FullCycle(logs[i], PriorState(World(None, 0, None, 0), logs, i));
      }
    }
    if Triggered(logs) > 0 {
      RecordedOutcomeRatesSum(logs);
    }
  }

  /** A simulated window evaluates to a verdict the signal engine always
      answers: the intended engine, reading the failure risk of the last
      logged day, flags at least one signal, and the engine as written flags
      at least one whenever it does not raise. */
  lemma SimulatedWindowSignals(st: Setting, days: nat)
    requires days > 0
    ensures var logs := Simulate(st, World(None, 0, None, 0), days).logs;
      var e := Evaluate(NewEvaluator(logs).value);
      && DeriveWithFailureRisk(e, logs[days - 1].FailureRisk()) != {}
      && (Derive(e).Success? ==> Derive(e).value != {})
  {
    var logs := Simulate(st, World(None, 0, None, 0), days).logs;
    SimulatedWindowEvaluates(st, days);
    RecognisedHealthNeverSilent(Evaluate(NewEvaluator(logs).value), logs[days - 1].FailureRisk());
  }

  /** Against the brain's directives, the alarm fires for every strategy but
      SUPPORT, whose strictness 0.3 stays at the threshold; a SUPPORT day
      therefore never succeeds and always earns the calm-day trust. */
  lemma AlarmFollowsStrategy(p: UserProfile, strategy: Strategy, u: real)
    ensures var r := Reaction(p, Brain.BuildDirective(strategy).value, u);
      && (r.alarmTriggered <==> strategy != Support)
      && (strategy == Support ==> !r.outcomeSuccess && r.trustDelta == 0.01)
  {
  }
}
