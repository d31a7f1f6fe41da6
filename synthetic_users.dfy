/** The synthetic user the simulation runs against: it produces each day's
    signals and reacts to each directive (simulation/synthetic_users.py).
    The user's pseudo-random generator is modelled as the infinite stream of
    values it would return, `draws`, together with the count of values
    consumed so far. */
module SyntheticUsers {
  import opened Common
  import opened Strategies
  import opened Inputs
  import opened StateModel
  import opened Outputs

  /** Observable outcome of one directive. */
  datatype UserReaction = UserReaction(
    alarmTriggered: bool,
    complied: bool,
    outcomeSuccess: bool,
    trustDelta: real)

  /** The parameters fixed when a synthetic user is created. */
  datatype UserProfile = UserProfile(
    name: string,
    complianceBias: real,
    fatigueSensitivity: real,
    avoidanceTendency: real)

  const Minute: int := 60
  const Hour: int := 3600

  /** The fatigue the user feels: the state's, or 0.5 before any state exists. */
  function FatigueOf(state: Option<BehavioralState>): real {
    match state
    case Some(s) => s.fatigueIndex
    case None => 0.5
  }

  predicate WasEnforced(last: Option<GovernanceDirective>) {
    last.Some? && last.value.strategy == Enforcement
  }

  /** The chance of a clean wake-up: the bias, eroded by fatigue times
      sensitivity, raised by 0.15 right after an ENFORCEMENT directive,
      clamped to [0,1]. */
  function WakeCompliance(p: UserProfile, fatigue: real, last: Option<GovernanceDirective>): (r: real)
    ensures 0.0 <= r <= 1.0
  {
    Clamp(0.0, 1.0, p.complianceBias - fatigue * p.fatigueSensitivity + (if WasEnforced(last) then 0.15 else 0.0))
  }

  /** With non-negative sensitivity, more fatigue never raises the chance of
      a clean wake-up. */
  lemma FatigueLowersWakeCompliance(p: UserProfile, f1: real, f2: real, last: Option<GovernanceDirective>)
    requires p.fatigueSensitivity >= 0.0 && f1 <= f2
    ensures WakeCompliance(p, f2, last) <= WakeCompliance(p, f1, last)
  {
    ErosionMonotone(p.complianceBias, p.fatigueSensitivity, f1, f2, if WasEnforced(last) then 0.15 else 0.0);
  }

  /** A preceding ENFORCEMENT never lowers the chance of a clean wake-up. */
  lemma EnforcementRaisesWakeCompliance(p: UserProfile, fatigue: real, enforced: GovernanceDirective)
    requires enforced.strategy == Enforcement
    ensures WakeCompliance(p, fatigue, None) <= WakeCompliance(p, fatigue, Some(enforced))
  {
    var x := p.complianceBias - fatigue * p.fatigueSensitivity;
    ClampMonotone(0.0, 1.0, x, x + 0.15);
  }

  /** Clamping `b - f * k + boost` to [0,1] is non-increasing in `f` for
      non-negative `k`. */
  lemma ErosionMonotone(b: real, k: real, f1: real, f2: real, boost: real)
    requires 0.0 <= k && f1 <= f2
    ensures Clamp(0.0, 1.0, b - f2 * k + boost) <= Clamp(0.0, 1.0, b - f1 * k + boost)
  {
    var d := f2 - f1;
    assert d * k >= 0.0;
    assert f2 * k == f1 * k + d * k;
    ClampMonotone(0.0, 1.0, b - f2 * k + boost, b - f1 * k + boost);
  }

  /** The batch `generate_signals` returns for the three draws `u0`, `u1`,
      `u2`: `u0` decides success, `u1` the optional follow-up signal, `u2`
      the optional late-night signal. */
  function PlannedSignals(p: UserProfile, last: Option<GovernanceDirective>, state: Option<BehavioralState>,
                          now: Timestamp, u0: real, u1: real, u2: real): (b: SignalBatch)
    ensures b.windowStart == now - 8 * Hour && b.windowEnd == now
    ensures 1 <= |b.signals| <= 3
  {
    var fatigue := FatigueOf(state);
    var success := u0 < WakeCompliance(p, fatigue, last);
    var morning :=
      if success then
        [Signal("clean_alarm_dismissal", 1.0, 1.0, now - 5 * Minute, None)]
        + (if u1 < 0.4 then [Signal("early_wake_success", 1.0, 0.8, now - 10 * Minute, None)] else [])
      else
        [Signal("alarm_failure", 1.0, 1.0, now - Minute, None)]
        + (if u1 < p.avoidanceTendency then [Signal("excessive_snooze", 1.0, 0.7, now - 2 * Minute, None)] else []);
    var night := if u2 < fatigue then [Signal("late_night_usage", 1.0, 0.8, now - 6 * Hour, None)] else [];
    SignalBatch(morning + night, now - 8 * Hour, now)
  }

  /** The shape of every generated batch: one to three signals; the first is
      a clean dismissal exactly when the first draw falls under the wake-up
      chance and an alarm failure otherwise; an early wake-up only follows a
      clean dismissal and an excessive snooze only an alarm failure, each in
      second place; a late-night signal, present exactly when the third draw
      falls under the fatigue, comes last; every confidence lies in [0,1] and
      every time stamp inside the batch window. */
  lemma {:induction false} PlannedSignalsShape(p: UserProfile, last: Option<GovernanceDirective>,
                                               state: Option<BehavioralState>, now: Timestamp,
                                               u0: real, u1: real, u2: real)
    ensures var b := PlannedSignals(p, last, state, now, u0, u1, u2).signals;
      && 1 <= |b| <= 3
      && (b[0].name == "clean_alarm_dismissal" <==> u0 < WakeCompliance(p, FatigueOf(state), last))
      && (b[0].name == "alarm_failure" <==> !(u0 < WakeCompliance(p, FatigueOf(state), last)))
      && (forall i :: 0 <= i < |b| && b[i].name == "early_wake_success" ==>
            i == 1 && b[0].name == "clean_alarm_dismissal")
      && (forall i :: 0 <= i < |b| && b[i].name == "excessive_snooze" ==>
            i == 1 && b[0].name == "alarm_failure")
      && (b[|b| - 1].name == "late_night_usage" <==> u2 < FatigueOf(state))
      && (forall i :: 0 <= i < |b| - 1 ==> b[i].name != "late_night_usage")
      && (forall i :: 0 <= i < |b| ==> 0.0 <= b[i].confidence <= 1.0)
      && (forall i :: 0 <= i < |b| ==> now - 8 * Hour <= b[i].timestamp <= now)
  {
  }

  /** The chance of complying with a directive: the bias, raised by 0.10 for
      ENFORCEMENT or 0.05 for SUPPORT, clamped to [0,1]. */
  function ReactCompliance(p: UserProfile, directive: GovernanceDirective): (r: real)
    ensures 0.0 <= r <= 1.0
  {
    var boost :=
      if directive.strategy == Enforcement then 0.10
      else if directive.strategy == Support then 0.05
      else 0.0;
    Clamp(0.0, 1.0, p.complianceBias + boost)
  }

  /** The reaction `react` reports for the draw `u`. An alarm fires exactly
      when the directive's strictness exceeds 0.3; success needs both the
      alarm and compliance; trust falls exactly on an ignored alarm, by 0.05,
      rises by 0.02 on a heeded one and by 0.01 on a calm day. */
  function Reaction(p: UserProfile, directive: GovernanceDirective, u: real): (r: UserReaction)
    ensures r.alarmTriggered <==> directive.requiredStrictness > 0.3
    ensures r.complied <==> u < ReactCompliance(p, directive)
    ensures r.outcomeSuccess <==> r.alarmTriggered && r.complied
    ensures r.trustDelta < 0.0 <==> r.alarmTriggered && !r.complied
    ensures r.trustDelta in {-0.05, 0.02, 0.01}
    ensures !r.alarmTriggered ==> r.trustDelta == 0.01
  {
    var alarmTriggered := directive.requiredStrictness > 0.3;
    var complied := u < ReactCompliance(p, directive);
    var trustDelta :=
      if alarmTriggered && !complied then -0.05
      else if alarmTriggered && complied then 0.02
      else 0.01;
    UserReaction(alarmTriggered, complied, alarmTriggered && complied, trustDelta)
  }

  class SyntheticUser {
    const profile: UserProfile
    /** The values the user's random generator returns, in order. */
    const draws: nat -> real
    /** How many of them have been consumed. */
    var drawn: nat
    /** Internal memory: the last directive reacted to. */
    var lastDirective: Option<GovernanceDirective>

    constructor (profile: UserProfile, draws: nat -> real)
      ensures this.profile == profile && this.draws == draws
      ensures drawn == 0 && lastDirective == None
    {
      this.profile := profile;
      this.draws := draws;
      drawn := 0;
      lastDirective := None;
    }

    /** `self.random.random()`. */
    method NextDraw() returns (u: real)
      modifies this`drawn
      ensures u == draws(old(drawn)) && drawn == old(drawn) + 1
    {
      u := draws(drawn);
      drawn := drawn + 1;
    }

    /** `generate_signals`: consumes exactly three draws and returns the
      planned batch for them; the user's memory is left alone. */
    method GenerateSignals(day: int, state: Option<BehavioralState>, now: Timestamp) returns (batch: SignalBatch)
      modifies this`drawn
      ensures drawn == old(drawn) + 3
      ensures batch == PlannedSignals(profile, lastDirective, state, now,
                                      draws(old(drawn)), draws(old(drawn) + 1), draws(old(drawn) + 2))
    {
      var signals: seq<Signal> := [];
      var fatigue := if state.Some? then state.value.fatigueIndex else 0.5;

      var complianceProb := profile.complianceBias;
      complianceProb := complianceProb - fatigue * profile.fatigueSensitivity;
      if lastDirective.Some? && lastDirective.value.strategy == Enforcement {
        complianceProb := complianceProb + 0.15;
      }
      complianceProb := Clamp(0.0, 1.0, complianceProb);

      var u := NextDraw();
      var success := u < complianceProb;
      if success {
        signals := signals + [Signal("clean_alarm_dismissal", 1.0, 1.0, now - 5 * Minute, None)];
        u := NextDraw();
        if u < 0.4 {
          signals := signals + [Signal("early_wake_success", 1.0, 0.8, now - 10 * Minute, None)];
        }
      } else {
        signals := signals + [Signal("alarm_failure", 1.0, 1.0, now - Minute, None)];
        u := NextDraw();
        if u < profile.avoidanceTendency {
          signals := signals + [Signal("excessive_snooze", 1.0, 0.7, now - 2 * Minute, None)];
        }
      }

      u := NextDraw();
      if u < fatigue {
        signals := signals + [Signal("late_night_usage", 1.0, 0.8, now - 6 * Hour, None)];
      }

      batch := SignalBatch(signals, now - 8 * Hour, now);
    }

    /** `react`: remembers the directive, consumes exactly one draw and
      returns the reaction for it. */
    method React(directive: GovernanceDirective) returns (reaction: UserReaction)
      modifies this`drawn, this`lastDirective
      ensures lastDirective == Some(directive) && drawn == old(drawn) + 1
      ensures reaction == Reaction(profile, directive, draws(old(drawn)))
    {
      lastDirective := Some(directive);

      var alarmTriggered := directive.requiredStrictness > 0.3;

      var complianceProb := profile.complianceBias;
      if directive.strategy == Enforcement {
        complianceProb := complianceProb + 0.10;
      } else if directive.strategy == Support {
        complianceProb := complianceProb + 0.05;
      }
      complianceProb := Clamp(0.0, 1.0, complianceProb);
      var u := NextDraw();
      var complied := u < complianceProb;

      var outcomeSuccess := alarmTriggered && complied;

      var trustDelta: real;
      if alarmTriggered && !complied {
        trustDelta := -0.05;
      } else if alarmTriggered && complied {
        trustDelta := 0.02;
      } else {
        trustDelta := 0.01;
      }

      reaction := UserReaction(alarmTriggered, complied, outcomeSuccess, trustDelta);
    }
  }
}
