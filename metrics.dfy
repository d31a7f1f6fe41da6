/** The immutable record of one simulated day and its flat rendering
    (simulation/metrics.py). */
module Metrics {
  import opened Common
  import opened Strategies
  import opened Inputs
  import opened StateModel
  import opened Outputs
  import opened Explanations

  datatype SimulationLog = SimulationLog(
    day: int,
    state: BehavioralState,
    signals: SignalBatch,
    directive: GovernanceDirective,
    explanation: ExplanationRecord,
    alarmTriggered: bool,
    outcomeSuccess: Option<bool>,
    trustDelta: real)
  {
    // Convenience accessors: the directive's strategy and the logged state's six scalars.
    function LoggedStrategy(): Strategy { directive.strategy }
    function Fatigue(): real { state.fatigueIndex }
    function FailureRisk(): real { state.failureRisk }
    function Discipline(): real { state.disciplineLevel }
    function Avoidance(): real { state.avoidanceTendency }
    function Context(): real { state.contextImportance }
    function Momentum(): real { state.momentumTrend }
  }

  /** A log built with the two optional fields left at their defaults: no
      recorded outcome and a zero trust change. */
  function NewLog(day: int, state: BehavioralState, signals: SignalBatch, directive: GovernanceDirective,
                  explanation: ExplanationRecord, alarmTriggered: bool): (log: SimulationLog)
    ensures log.outcomeSuccess == None && log.trustDelta == 0.0
    ensures log.day == day && log.state == state && log.signals == signals
    ensures log.directive == directive && log.explanation == explanation && log.alarmTriggered == alarmTriggered
  {
    SimulationLog(day, state, signals, directive, explanation, alarmTriggered, None, 0.0)
  }

  /** The accessors read the directive's strategy and the logged state's fields. */
  lemma AccessorsProjectState(log: SimulationLog)
    ensures log.LoggedStrategy() == log.directive.strategy
    ensures log.Fatigue() == log.state.fatigueIndex && log.FailureRisk() == log.state.failureRisk
    ensures log.Discipline() == log.state.disciplineLevel && log.Avoidance() == log.state.avoidanceTendency
    ensures log.Context() == log.state.contextImportance && log.Momentum() == log.state.momentumTrend
  {
  }

  /** The dictionary `to_dict` returns, one field per key. */
  datatype LogDict = LogDict(
    day: int,
    strategy: string,
    discipline: real,
    failureRisk: real,
    fatigue: real,
    avoidance: real,
    context: real,
    momentum: real,
    signalNames: seq<string>,
    requiredStrictness: real,
    recoveryAllowed: bool,
    alarmTriggered: bool,
    outcomeSuccess: Option<bool>,
    trustDelta: real,
    explanation: string)

  /** `to_dict` as written: its last entry reads `self.explanation.summary`,
      an attribute `ExplanationRecord` does not have, so every call raises. */
  function ToDictAsWritten(log: SimulationLog): (r: Result<LogDict, AttributeError>)
    ensures r.Failure? && r.error.attribute == "summary"
  {
    Failure(MissingAttribute("ExplanationRecord", "summary"))
  }

  /** No log can be rendered by `to_dict` as written. */
  lemma ToDictAsWrittenAlwaysFails(log: SimulationLog)
    ensures ToDictAsWritten(log) == Failure(MissingAttribute("ExplanationRecord", "summary"))
  {
  }

  /** `to_dict` with the explanation entry read from the record's action
      summary: the strategy is rendered as its string value, the numeric
      entries are the logged state's and directive's, and the signal names
      keep batch order. */
  function ToDict(log: SimulationLog): (d: LogDict)
    ensures d.day == log.day && d.strategy == Value(log.directive.strategy)
    ensures d.discipline == log.state.disciplineLevel && d.failureRisk == log.state.failureRisk
    ensures d.fatigue == log.state.fatigueIndex && d.avoidance == log.state.avoidanceTendency
    ensures d.context == log.state.contextImportance && d.momentum == log.state.momentumTrend
    ensures |d.signalNames| == |log.signals.signals|
    ensures forall i :: 0 <= i < |d.signalNames| ==> d.signalNames[i] == log.signals.signals[i].name
    ensures d.requiredStrictness == log.directive.requiredStrictness
    ensures d.recoveryAllowed == log.directive.recoveryAllowed
    ensures d.alarmTriggered == log.alarmTriggered && d.outcomeSuccess == log.outcomeSuccess
    ensures d.trustDelta == log.trustDelta
    ensures d.explanation == log.explanation.actionSummary
  {
    LogDict(
      day := log.day,
      strategy := Value(log.LoggedStrategy()),
      discipline := log.Discipline(),
      failureRisk := log.FailureRisk(),
      fatigue := log.Fatigue(),
      avoidance := log.Avoidance(),
      context := log.Context(),
      momentum := log.Momentum(),
      signalNames := Names(log.signals.signals),
      requiredStrictness := log.directive.requiredStrictness,
      recoveryAllowed := log.directive.recoveryAllowed,
      alarmTriggered := log.alarmTriggered,
      outcomeSuccess := log.outcomeSuccess,
      trustDelta := log.trustDelta,
      explanation := log.explanation.actionSummary)
  }

  /** The rendered strategy string identifies the logged strategy. */
  lemma ToDictStrategyDeterminesStrategy(a: SimulationLog, b: SimulationLog)
    ensures ToDict(a).strategy == ToDict(b).strategy ==> a.LoggedStrategy() == b.LoggedStrategy()
  {
    ValueInjective(a.directive.strategy, b.directive.strategy);
  }
}
