/** The audit record kept for every governance decision
    (governing_brain/explanations.py). The identifier and the time stamp,
    which the Python record draws from uuid4 and the clock, are supplied by
    the caller here. */
module Explanations {
  import opened Common
  import opened Strategies

  datatype ExplanationRecord = ExplanationRecord(
    trigger: string,
    strategySelected: Strategy,
    stateSnapshot: map<string, real>,
    actionSummary: string,
    expectedOutcome: string,
    reversalCondition: string,
    decisionConfidence: real,
    decisionId: string,
    timestamp: Timestamp)
}
