/** Burnout protection, the highest-priority policy
    (governing_brain/policies/burnout.py). */
module BurnoutPolicy {
  import opened Common
  import opened Strategies
  import opened StateModel

  /** Acute overload: high failure risk under high fatigue. */
  predicate AcuteOverload(s: BehavioralState) { s.failureRisk >= 0.6 && s.fatigueIndex >= 0.6 }

  /** Downward spiral: heavy fatigue with clearly negative momentum. */
  predicate DownwardSpiral(s: BehavioralState) { s.fatigueIndex >= 0.7 && s.momentumTrend <= -0.3 }

  /** Discipline eroding under fatigue. */
  predicate DisciplineErosion(s: BehavioralState) { s.disciplineLevel <= 0.3 && s.fatigueIndex >= 0.6 }

  /** Silent burnout: avoidance under load. */
  predicate SilentBurnout(s: BehavioralState) { s.avoidanceTendency >= 0.6 && s.fatigueIndex >= 0.5 }

  /** `burnout_policy`: SUPPORT when any of the four clauses holds, in order,
      otherwise no opinion. */
  function Burnout(s: BehavioralState): (r: Option<Strategy>)
    ensures r == None || r == Some(Support)
    ensures r == Some(Support) <==>
      AcuteOverload(s) || DownwardSpiral(s) || DisciplineErosion(s) || SilentBurnout(s)
  {
    if AcuteOverload(s) then Some(Support)
    else if DownwardSpiral(s) then Some(Support)
    else if DisciplineErosion(s) then Some(Support)
    else if SilentBurnout(s) then Some(Support)
    else None
  }

  /** Every clause needs fatigue of at least 0.5, so below that the policy never fires. */
  lemma BurnoutNeedsFatigue(s: BehavioralState)
    requires s.fatigueIndex < 0.5
    ensures Burnout(s) == None
  {
  }
}
