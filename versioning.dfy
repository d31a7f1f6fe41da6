/** Immutable policy versions and the recommendations that evolve them
    (policy_evolution/versioning.py, policy_evolution/recommendation.py). */
module Versioning {
  import opened Common

  /** A policy configuration. The identifier and time stamp are drawn from
      a UUID generator and the clock when a version is created; here the
      creator supplies them. */
  datatype PolicyVersion = PolicyVersion(
    parameters: map<string, real>,
    reason: string,
    versionId: string,
    timestamp: Timestamp)

  /** A non-binding proposal for new parameters. */
  datatype PolicyRecommendation = PolicyRecommendation(
    suggestedParameters: map<string, real>,
    rationale: string,
    triggeringSignals: seq<string>)
}
