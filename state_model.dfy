/** The bounded behavioural belief state and its single update path
    (governing_brain/state_model.py). */
module StateModel {
  import opened Common
  import opened Inputs

  datatype BehavioralState = BehavioralState(
    disciplineLevel: real,
    failureRisk: real,
    avoidanceTendency: real,
    fatigueIndex: real,
    contextImportance: real,
    momentumTrend: real)

  /** Five scalars in [0,1] and momentum in [-1,1]. */
  predicate InRange(s: BehavioralState) {
    && 0.0 <= s.disciplineLevel <= 1.0
    && 0.0 <= s.failureRisk <= 1.0
    && 0.0 <= s.avoidanceTendency <= 1.0
    && 0.0 <= s.fatigueIndex <= 1.0
    && 0.0 <= s.contextImportance <= 1.0
    && -1.0 <= s.momentumTrend <= 1.0
  }

  // ----- Update coefficients -----

  const FailureRiskInc: real := 0.10
  const FailureRiskDec: real := 0.10
  const FatigueInc: real := 0.05
  const FatigueDec: real := 0.05
  const AvoidanceInc: real := 0.05
  const AvoidanceDec: real := 0.03
  const DisciplineInc: real := 0.04
  const DisciplineDec: real := 0.04
  const MomentumStep: real := 0.03
  const MomentumDecay: real := 0.95
  const ContextStrongShift: real := 0.20

  // ----- Signal categories -----

  const FailureSignals: set<string> := {"alarm_failure", "excessive_snooze", "late_night_usage"}
  const SuccessSignals: set<string> := {"clean_alarm_dismissal", "early_wake_success"}
  const FatigueSignals: set<string> :=
    {"sleep_debt", "late_night_usage", "repeated_enforcement", "short_sleep_duration"}
  const RecoverySignals: set<string> := {"adequate_sleep", "recovery_day", "low_enforcement_day"}
  const AvoidanceSignals: set<string> :=
    {"volume_evasion", "power_off_attempt", "fake_dismissal", "dismissal_latency_spike"}
  const ComplianceSignals: set<string> := {"clean_compliance_streak", "no_avoidance_detected"}
  const DisciplinePositive: set<string> :=
    {"early_wake_success", "clean_alarm_dismissal", "consistent_sleep_routine"}
  const DisciplineNegative: set<string> := {"alarm_failure", "excessive_snooze", "routine_break"}
  const MomentumPositive: set<string> :=
    {"early_wake_success", "clean_alarm_dismissal", "consistent_sleep_routine", "adequate_sleep"}
  const MomentumNegative: set<string> :=
    {"alarm_failure", "excessive_snooze", "late_night_usage", "routine_break"}
  const HighStakesContext: set<string> := {"exam_day", "important_meeting", "deadline_day", "travel_day"}
  const LowStakesContext: set<string> := {"weekend", "holiday", "recovery_day"}

  /** One linear accumulator: signals named in `rising` add `inc * confidence`,
      otherwise signals named in `falling` subtract `dec * confidence`. */
  datatype Accumulator = Accumulator(rising: set<string>, falling: set<string>, inc: real, dec: real)

  const FailureRiskAcc := Accumulator(FailureSignals, SuccessSignals, FailureRiskInc, FailureRiskDec)
  const FatigueAcc := Accumulator(FatigueSignals, RecoverySignals, FatigueInc, FatigueDec)
  const AvoidanceAcc := Accumulator(AvoidanceSignals, ComplianceSignals, AvoidanceInc, AvoidanceDec)
  const DisciplineAcc := Accumulator(DisciplinePositive, DisciplineNegative, DisciplineInc, DisciplineDec)
  const MomentumAcc := Accumulator(MomentumPositive, MomentumNegative, MomentumStep, MomentumStep)
  const ContextAcc := Accumulator(HighStakesContext, LowStakesContext, ContextStrongShift, ContextStrongShift)

  /** What one signal adds to an accumulator (the if/elif of one loop body):
      nothing for a signal in neither set; for non-negative coefficients and
      confidence, a raise for a rising signal and a fall for a falling one. */
  function Contribution(acc: Accumulator, s: Signal): (c: real)
    ensures s.name !in acc.rising && s.name !in acc.falling ==> c == 0.0
    ensures acc.inc >= 0.0 && s.confidence >= 0.0 && s.name in acc.rising ==> c >= 0.0
    ensures acc.dec >= 0.0 && s.confidence >= 0.0 && s.name !in acc.rising && s.name in acc.falling ==> c <= 0.0
  {
    if s.name in acc.rising then acc.inc * s.confidence
    else if s.name in acc.falling then -(acc.dec * s.confidence)
    else 0.0
  }

  /** The total an accumulator gains over a sequence of signals: nothing
      when no signal is in either of its sets. */
  function Shift(acc: Accumulator, signals: seq<Signal>): (t: real)
    ensures (forall i :: 0 <= i < |signals| ==> signals[i].name !in acc.rising && signals[i].name !in acc.falling)
      ==> t == 0.0
  {
    if signals == [] then 0.0
    else
      var init := signals[..|signals| - 1];
      assert forall i :: 0 <= i < |init| ==> init[i] == signals[i];
      Shift(acc, init) + Contribution(acc, signals[|signals| - 1])
  }

  /** The fixed neutral prior returned when there is no previous state. */
  const ColdStart := BehavioralState(0.5, 0.5, 0.3, 0.5, 0.5, 0.0)

  /** The state `update_state` returns: the cold-start prior when there is no
      previous state; otherwise each scalar is its previous value plus its
      accumulator's total over the batch, clamped once, with momentum decayed
      before its clamp. The result is in range whatever the previous state and
      whatever the confidences. */
  function Updated(previous: Option<BehavioralState>, batch: SignalBatch): (r: BehavioralState)
    ensures InRange(r)
    ensures previous.None? ==> r == ColdStart
  {
    match previous
    case None => ColdStart
    case Some(p) =>
      var signals := batch.signals;
      BehavioralState(
        disciplineLevel := Clamp(0.0, 1.0, p.disciplineLevel + Shift(DisciplineAcc, signals)),
        failureRisk := Clamp(0.0, 1.0, p.failureRisk + Shift(FailureRiskAcc, signals)),
        avoidanceTendency := Clamp(0.0, 1.0, p.avoidanceTendency + Shift(AvoidanceAcc, signals)),
        fatigueIndex := Clamp(0.0, 1.0, p.fatigueIndex + Shift(FatigueAcc, signals)),
        contextImportance := Clamp(0.0, 1.0, p.contextImportance + Shift(ContextAcc, signals)),
        momentumTrend := Clamp(-1.0, 1.0, (p.momentumTrend + Shift(MomentumAcc, signals)) * MomentumDecay))
  }

  /** One accumulation loop: starting from `start`, fold every signal of the
      batch through the accumulator's if/elif. */
  method Accumulate(start: real, acc: Accumulator, signals: seq<Signal>) returns (total: real)
    ensures total == start + Shift(acc, signals)
  {
    total := start;
    for i := 0 to |signals|
      invariant total == start + Shift(acc, signals[..i])
    {
      var signal := signals[i];
      assert signals[..i + 1][..i] == signals[..i];
      if signal.name in acc.rising {
        total := total + acc.inc * signal.confidence;
      } else if signal.name in acc.falling {
        total := total - acc.dec * signal.confidence;
      }
    }
    assert signals[..|signals|] == signals;
  }

  /** `update_state`: six accumulation loops over the batch, each clamped once
      after its loop; it computes exactly `Updated`. */
  method UpdateState(previous: Option<BehavioralState>, batch: SignalBatch) returns (r: BehavioralState)
    ensures r == Updated(previous, batch)
    ensures InRange(r)
  {
    if previous.None? {
      return ColdStart;
    }
    var p := previous.value;
    var signals := batch.signals;

    var failureRisk := Accumulate(p.failureRisk, FailureRiskAcc, signals);
    failureRisk := Clamp(0.0, 1.0, failureRisk);

    var fatigueIndex := Accumulate(p.fatigueIndex, FatigueAcc, signals);
    fatigueIndex := Clamp(0.0, 1.0, fatigueIndex);

    var avoidanceTendency := Accumulate(p.avoidanceTendency, AvoidanceAcc, signals);
    avoidanceTendency := Clamp(0.0, 1.0, avoidanceTendency);

    var disciplineLevel := Accumulate(p.disciplineLevel, DisciplineAcc, signals);
    disciplineLevel := Clamp(0.0, 1.0, disciplineLevel);

    var momentumTrend := Accumulate(p.momentumTrend, MomentumAcc, signals);
    momentumTrend := momentumTrend * MomentumDecay;
    momentumTrend := Clamp(-1.0, 1.0, momentumTrend);

    var contextImportance := Accumulate(p.contextImportance, ContextAcc, signals);
    contextImportance := Clamp(0.0, 1.0, contextImportance);

    r := BehavioralState(disciplineLevel, failureRisk, avoidanceTendency,
                         fatigueIndex, contextImportance, momentumTrend);
  }

  // ----- Properties of the update -----

  /** Within every accumulator the rising and the falling categories share no
      name, so the elif never hides a signal from the second test. */
  lemma CategoriesDisjoint()
    ensures FailureSignals !! SuccessSignals
    ensures FatigueSignals !! RecoverySignals
    ensures AvoidanceSignals !! ComplianceSignals
    ensures DisciplinePositive !! DisciplineNegative
    ensures MomentumPositive !! MomentumNegative
    ensures HighStakesContext !! LowStakesContext
  {
  }

  /** Accumulating over two consecutive stretches of a batch is the sum of
      accumulating over each. */
  lemma {:induction false} ShiftAppend(acc: Accumulator, s: seq<Signal>, t: seq<Signal>)
    ensures Shift(acc, s + t) == Shift(acc, s) + Shift(acc, t)
  {
    if t == [] {
      assert s + t == s;
    } else {
      var t' := t[..|t| - 1];
      assert (s + t)[..|s + t| - 1] == s + t';
      ShiftAppend(acc, s, t');
    }
  }

  /** The accumulated total does not depend on the order of the signals: any
      rearrangement of a batch yields the same total. */
  lemma {:induction false} ShiftPermutation(acc: Accumulator, s: seq<Signal>, t: seq<Signal>)
    requires multiset(s) == multiset(t)
    ensures Shift(acc, s) == Shift(acc, t)
  {
    if s == [] {
      assert |t| == |multiset(t)| == 0;
    } else {
      var x := s[|s| - 1];
      var s' := s[..|s| - 1];
      assert s == s' + [x];
      assert x in multiset(t);
      var j :| 0 <= j < |t| && t[j] == x;
      var t' := t[..j] + t[j + 1..];
      assert t == t[..j] + [x] + t[j + 1..];
      assert multiset(t) == multiset(t[..j]) + multiset{x} + multiset(t[j + 1..]);
      assert multiset(s) == multiset(s') + multiset{x};
      assert multiset(t') == multiset(t[..j]) + multiset(t[j + 1..]);
      assert multiset(s') == multiset(s) - multiset{x};
      assert multiset(t') == multiset(t) - multiset{x};
      ShiftPermutation(acc, s', t');
      ShiftAppend(acc, t[..j] + [x], t[j + 1..]);
      ShiftAppend(acc, t[..j], [x]);
      ShiftAppend(acc, t[..j], t[j + 1..]);
      assert [x][..0] == [];
    }
  }

  /** `update_state` does not depend on the order of the signals in the batch. */
  lemma UpdatedIgnoresOrder(previous: Option<BehavioralState>, b1: SignalBatch, b2: SignalBatch)
    requires multiset(b1.signals) == multiset(b2.signals)
    ensures Updated(previous, b1) == Updated(previous, b2)
  {
    var accs := [FailureRiskAcc, FatigueAcc, AvoidanceAcc, DisciplineAcc, MomentumAcc, ContextAcc];
    forall acc | acc in accs
      ensures Shift(acc, b1.signals) == Shift(acc, b2.signals)
    {
      ShiftPermutation(acc, b1.signals, b2.signals);
    }
  }

  /** With no previous state, the result is the neutral prior whatever the batch. */
  lemma ColdStartIgnoresBatch(batch: SignalBatch)
    ensures Updated(None, batch) == BehavioralState(0.5, 0.5, 0.3, 0.5, 0.5, 0.0)
  {
  }

  /** An empty batch leaves an in-range state's five bounded scalars unchanged
      and scales its momentum by the decay factor. */
  lemma EmptyBatchDecaysMomentum(p: BehavioralState, batch: SignalBatch)
    requires InRange(p) && batch.signals == []
    ensures var r := Updated(Some(p), batch);
      && r.disciplineLevel == p.disciplineLevel
      && r.failureRisk == p.failureRisk
      && r.avoidanceTendency == p.avoidanceTendency
      && r.fatigueIndex == p.fatigueIndex
      && r.contextImportance == p.contextImportance
      && r.momentumTrend == 0.95 * p.momentumTrend
  {
  }

  /** A name in no category of any accumulator. */
  predicate Uncategorised(name: string) {
    && name !in FailureSignals && name !in SuccessSignals
    && name !in FatigueSignals && name !in RecoverySignals
    && name !in AvoidanceSignals && name !in ComplianceSignals
    && name !in DisciplinePositive && name !in DisciplineNegative
    && name !in MomentumPositive && name !in MomentumNegative
    && name !in HighStakesContext && name !in LowStakesContext
  }

  /** Inserting a signal whose name is in no category anywhere in a batch does
      not change the updated state. */
  lemma UncategorisedSignalIgnored(previous: Option<BehavioralState>, signals: seq<Signal>,
                                   k: nat, x: Signal, w1: Timestamp, w2: Timestamp)
    requires k <= |signals| && Uncategorised(x.name)
    ensures Updated(previous, SignalBatch(signals[..k] + [x] + signals[k..], w1, w2))
         == Updated(previous, SignalBatch(signals, w1, w2))
  {
    var longer := signals[..k] + [x] + signals[k..];
    assert signals == signals[..k] + signals[k..];
    var accs := [FailureRiskAcc, FatigueAcc, AvoidanceAcc, DisciplineAcc, MomentumAcc, ContextAcc];
    forall acc | acc in accs
      ensures Shift(acc, longer) == Shift(acc, signals)
    {
      ShiftAppend(acc, signals[..k] + [x], signals[k..]);
      ShiftAppend(acc, signals[..k], [x]);
      ShiftAppend(acc, signals[..k], signals[k..]);
      assert [x][..0] == [];
    }
  }

  /** One `late_night_usage` signal with non-negative confidence, compared with
      an empty batch: failure risk and fatigue do not fall, momentum does not
      rise, and the other three scalars are untouched. From an in-range state
      with positive confidence, failure risk and fatigue strictly rise unless
      already at 1, and momentum strictly falls. */
  lemma LateNightUsageMovesThreeFields(p: BehavioralState, s: Signal, w1: Timestamp, w2: Timestamp)
    requires s.name == "late_night_usage" && s.confidence >= 0.0
    ensures var r := Updated(Some(p), SignalBatch([s], w1, w2));
      var e := Updated(Some(p), SignalBatch([], w1, w2));
      && r.failureRisk >= e.failureRisk
      && r.fatigueIndex >= e.fatigueIndex
      && r.momentumTrend <= e.momentumTrend
      && r.disciplineLevel == e.disciplineLevel
      && r.avoidanceTendency == e.avoidanceTendency
      && r.contextImportance == e.contextImportance
      && (InRange(p) && s.confidence > 0.0 ==>
            && (p.failureRisk < 1.0 ==> r.failureRisk > e.failureRisk)
            && (p.fatigueIndex < 1.0 ==> r.fatigueIndex > e.fatigueIndex)
            && r.momentumTrend < e.momentumTrend)
  {
    assert [s][..0] == [];
  }

  /** One `recovery_day` signal with non-negative confidence, compared with an
      empty batch: fatigue and context importance do not rise, and the other
      four scalars are untouched. From an in-range state with positive
      confidence, each of the two strictly falls unless already at 0. */
  lemma RecoveryDayMovesTwoFields(p: BehavioralState, s: Signal, w1: Timestamp, w2: Timestamp)
    requires s.name == "recovery_day" && s.confidence >= 0.0
    ensures var r := Updated(Some(p), SignalBatch([s], w1, w2));
      var e := Updated(Some(p), SignalBatch([], w1, w2));
      && r.fatigueIndex <= e.fatigueIndex
      && r.contextImportance <= e.contextImportance
      && r.failureRisk == e.failureRisk
      && r.avoidanceTendency == e.avoidanceTendency
      && r.disciplineLevel == e.disciplineLevel
      && r.momentumTrend == e.momentumTrend
      && (InRange(p) && s.confidence > 0.0 ==>
            && (p.fatigueIndex > 0.0 ==> r.fatigueIndex < e.fatigueIndex)
            && (p.contextImportance > 0.0 ==> r.contextImportance < e.contextImportance))
  {
    assert [s][..0] == [];
  }

  /** Adding a high-stakes signal with non-negative confidence to a batch never
      lowers the resulting context importance. */
  lemma HighStakesNeverLowersContext(p: BehavioralState, signals: seq<Signal>, x: Signal,
                                     w1: Timestamp, w2: Timestamp)
    requires x.name in HighStakesContext && x.confidence >= 0.0
    ensures Updated(Some(p), SignalBatch(signals + [x], w1, w2)).contextImportance
         >= Updated(Some(p), SignalBatch(signals, w1, w2)).contextImportance
  {
    assert (signals + [x])[..|signals + [x]| - 1] == signals;
  }

  /** An `exam_day` signal with positive confidence raises the context
      importance of any in-range state below the top of the range; from the
      neutral prior at full confidence it goes from 0.5 to 0.7. */
  lemma ExamDayRaisesContext(p: BehavioralState, x: Signal, w1: Timestamp, w2: Timestamp)
    requires InRange(p) && p.contextImportance < 1.0
    requires x.name == "exam_day" && x.confidence > 0.0
    ensures Updated(Some(p), SignalBatch([x], w1, w2)).contextImportance > p.contextImportance
    ensures p == ColdStart && x.confidence == 1.0 ==>
      Updated(Some(p), SignalBatch([x], w1, w2)).contextImportance == 0.7
  {
    assert [x][..0] == [];
    assert x.name in ContextAcc.rising;
    assert Shift(ContextAcc, [x]) == 0.20 * x.confidence;
  }
}
