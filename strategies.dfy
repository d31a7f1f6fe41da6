/** The closed set of governance strategies and their presentation tags
    (governing_brain/strategies.py). */
module Strategies {

  datatype Strategy = Enforcement | Compensation | Stabilization | Support | StrategicPause

  /** The enum member's string value: a non-empty lower-case identifier. */
  function Value(s: Strategy): (v: string)
    ensures v != [] && forall i :: 0 <= i < |v| ==> 'a' <= v[i] <= 'z' || v[i] == '_'
  {
    match s
    case Enforcement => "enforcement"
    case Compensation => "compensation"
    case Stabilization => "stabilization"
    case Support => "support"
    case StrategicPause => "strategic_pause"
  }

  /** `allows_recovery`: every strategy except ENFORCEMENT and STABILIZATION. */
  predicate AllowsRecovery(s: Strategy): (b: bool)
    ensures b <==> s != Enforcement && s != Stabilization
  {
    match s
    case Support | Compensation | StrategicPause => true
    case Enforcement | Stabilization => false
  }

  /** `is_neutral`: a neutral strategy does not allow recovery. */
  predicate IsNeutral(s: Strategy): (b: bool)
    ensures b ==> !AllowsRecovery(s)
  {
    s in {Stabilization}
  }

  /** `is_supportive`: a supportive strategy allows recovery and is not neutral. */
  predicate IsSupportive(s: Strategy): (b: bool)
    ensures b ==> AllowsRecovery(s) && !IsNeutral(s)
  {
    s in {Support, Compensation}
  }

  /** `is_restrictive`: a restrictive strategy is neither supportive nor
      neutral and does not allow recovery. */
  predicate IsRestrictive(s: Strategy): (b: bool)
    ensures b ==> !IsSupportive(s) && !IsNeutral(s) && !AllowsRecovery(s)
  {
    s in {Enforcement}
  }

  /** Each tag picks out exactly the members listed for it; restrictive,
      supportive and neutral never overlap, a strategic pause carries none of
      the three, and nothing restrictive allows recovery. */
  lemma TagsPartition(s: Strategy)
    ensures IsRestrictive(s) <==> s == Enforcement
    ensures IsSupportive(s) <==> s == Support || s == Compensation
    ensures IsNeutral(s) <==> s == Stabilization
    ensures AllowsRecovery(s) <==> s == Support || s == Compensation || s == StrategicPause
    ensures !(IsRestrictive(s) && IsSupportive(s))
    ensures !(IsRestrictive(s) && IsNeutral(s))
    ensures !(IsSupportive(s) && IsNeutral(s))
    ensures s == StrategicPause ==> !IsRestrictive(s) && !IsSupportive(s) && !IsNeutral(s)
    ensures IsRestrictive(s) ==> !AllowsRecovery(s)
  {
  }

  /** Distinct strategies have distinct string values, so the value names the strategy. */
  lemma ValueInjective(a: Strategy, b: Strategy)
    ensures Value(a) == Value(b) ==> a == b
  {
  }
}
