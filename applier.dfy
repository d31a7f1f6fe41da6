/** The offline version applier (policy_evolution/applier.py). */
module Applier {
  import opened Common
  import opened Versioning

  const ReasonPrefix: string := "Evolved from version "

  /** `apply`: a new version carrying the recommended parameters, whose
      reason names the version it evolved from and ends with the
      recommendation's rationale, under the fresh identifier and time the
      creator supplies. The current version is a value and stays as it is. */
  function Apply(current: PolicyVersion, rec: PolicyRecommendation, freshId: string, now: Timestamp)
    : (v: PolicyVersion)
    requires freshId != current.versionId
    ensures v.parameters == rec.suggestedParameters
    ensures v.reason == ReasonPrefix + current.versionId + ": " + rec.rationale
    ensures v.versionId != current.versionId && v.versionId == freshId && v.timestamp == now
  {
    PolicyVersion(rec.suggestedParameters, ReasonPrefix + current.versionId + ": " + rec.rationale, freshId, now)
  }

  /** The rationale can be read back from the reason: it is the suffix that
      follows the prefix, the parent's identifier and the separator. */
  lemma ReasonEndsWithRationale(current: PolicyVersion, rec: PolicyRecommendation, freshId: string, now: Timestamp)
    requires freshId != current.versionId
    ensures var reason := Apply(current, rec, freshId, now).reason;
      var k := |ReasonPrefix| + |current.versionId| + 2;
      && |reason| == k + |rec.rationale|
      && reason[k..] == rec.rationale
      && reason[..|ReasonPrefix|] == ReasonPrefix
      && reason[|ReasonPrefix|..|ReasonPrefix| + |current.versionId|] == current.versionId
  {
    var reason := Apply(current, rec, freshId, now).reason;
    var k := |ReasonPrefix| + |current.versionId| + 2;
    assert reason == ReasonPrefix + current.versionId + ": " + rec.rationale;
    assert reason[k..] == rec.rationale;
  }

  /** A version differs from its parent in parameters exactly when the
      recommendation suggests different ones. */
  lemma ParametersChangeIffSuggested(current: PolicyVersion, rec: PolicyRecommendation, freshId: string, now: Timestamp)
    requires freshId != current.versionId
    ensures Apply(current, rec, freshId, now).parameters != current.parameters
            <==> rec.suggestedParameters != current.parameters
  {
  }

  /** Two versions evolved from different parents under the same
      recommendation give different reasons, so the reason records the
      lineage. */
  lemma ReasonIdentifiesParent(a: PolicyVersion, b: PolicyVersion, rec: PolicyRecommendation,
                               idA: string, idB: string, now: Timestamp)
    requires idA != a.versionId && idB != b.versionId
    requires |a.versionId| == |b.versionId| && a.versionId != b.versionId
    ensures Apply(a, rec, idA, now).reason != Apply(b, rec, idB, now).reason
  {
    var ra, rb := Apply(a, rec, idA, now).reason, Apply(b, rec, idB, now).reason;
    var p := |ReasonPrefix|;
    assert ra[p..p + |a.versionId|] == a.versionId;
    assert rb[p..p + |b.versionId|] == b.versionId;
  }
}
