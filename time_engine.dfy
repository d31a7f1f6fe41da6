/** The discrete-time driver of the simulation (simulation/time_engine.py):
    each simulated day, the synthetic user produces signals, the state is
    updated, the brain decides, the user reacts and the cycle is logged.
    The wall clock read when signals are generated and when a decision is
    stamped, and the decision identifiers, are supplied as functions of the
    cycle number. */
module TimeEngine {
  import opened Common
  import opened Inputs
  import opened StateModel
  import opened Outputs
  import opened SyntheticUsers
  import opened Metrics
  import Router
  import Brain
  import Explanations

  /** Everything a run keeps fixed: the user's profile and random stream and
      the clock and identifier sources, indexed by cycle number. */
  datatype Setting = Setting(
    profile: UserProfile,
    draws: nat -> real,
    signalClock: nat -> Timestamp,
    decisionClock: nat -> Timestamp,
    decisionIds: nat -> string)

  /** Everything a cycle changes: the engine's state, how far the user's
      random stream has been consumed, the user's memory of the last
      directive, and how many cycles have been logged. */
  datatype World = World(
    state: Option<BehavioralState>,
    drawn: nat,
    lastDirective: Option<GovernanceDirective>,
    logCount: nat)

  /** The signals the user produces at the start of a cycle. */
  function Morning(st: Setting, w: World): SignalBatch {
    PlannedSignals(st.profile, w.lastDirective, w.state, st.signalClock(w.logCount),
                   st.draws(w.drawn), st.draws(w.drawn + 1), st.draws(w.drawn + 2))
  }

  /** What one cycle produces: the log it appends and the world after it. */
  datatype Day = Day(log: SimulationLog, next: World)

  /** What a run of cycles produces: their logs in order and the world after the last. */
  datatype Trace = Trace(logs: seq<SimulationLog>, final: World)

  /** One decision cycle on day `day`. */
  function Step(st: Setting, w: World, day: int): Day {
    var u := st.draws;
    var batch := Morning(st, w);
    var state := Updated(w.state, batch);
    var decision := Brain.Decide(state, st.decisionIds(w.logCount), st.decisionClock(w.logCount)).value;
    var reaction := Reaction(st.profile, decision.0, u(w.drawn + 3));
    var log := SimulationLog(day, state, batch, decision.0, decision.1,
                             reaction.alarmTriggered, Some(reaction.outcomeSuccess), reaction.trustDelta);
    Day(log, World(Some(state), w.drawn + 4, Some(decision.0), w.logCount + 1))
  }

  /** A decision cycle as a value: from the world before it and the day
      number, the log it appends and the world after it. */
  type Cycle = (World, int) -> Day

  /** `n` cycles run from `w`, numbered 1..n: their logs in order and the
      world after the last. */
  function Iterate(cycle: Cycle, w: World, n: nat): (r: Trace)
    ensures |r.logs| == n
    ensures n == 0 ==> r.final == w
  {
    if n == 0 then Trace([], w)
    else
      var before := Iterate(cycle, w, n - 1);
      var day := cycle(before.final, n);
      Trace(before.logs + [day.log], day.next)
  }

  /** `n` cycles are `n - 1` cycles and then one more. */
  lemma IterateStep(cycle: Cycle, w: World, n: nat)
    requires n > 0
    ensures Iterate(cycle, w, n).logs == Iterate(cycle, w, n - 1).logs + [cycle(Iterate(cycle, w, n - 1).final, n).log]
    ensures Iterate(cycle, w, n).final == cycle(Iterate(cycle, w, n - 1).final, n).next
  {
  }

  /** The `k`-th log of any run is what cycle `k + 1` logs from the world
      left by the first `k` cycles. */
  lemma {:induction false} IterateAt(cycle: Cycle, w: World, n: nat, k: nat)
    requires k < n
    ensures Iterate(cycle, w, n).logs[k] == cycle(Iterate(cycle, w, k).final, k + 1).log
  {
    IterateStep(cycle, w, n);
    if k < n - 1 {
      IterateAt(cycle, w, n - 1, k);
    }
  }

  /** The engine's cycle for a setting. */
  function CycleOf(st: Setting): Cycle {
    (w: World, day: int) => Step(st, w, day)
  }

  /** The first `n` days of a run started from `w`. */
  function Simulate(st: Setting, w: World, n: nat): (r: Trace)
    ensures |r.logs| == n
    ensures n == 0 ==> r.final == w
  {
    Iterate(CycleOf(st), w, n)
  }

  /** A cycle logs its own day number, leaves the new state and directive
      as the world's, consumes four draws and counts one more log. */
  lemma StepShape(st: Setting, w: World, day: int)
    ensures var d := Step(st, w, day);
      && d.log.day == day
      && d.next == World(Some(d.log.state), w.drawn + 4, Some(d.log.directive), w.logCount + 1)
  {
  }

  /** The `k`-th log of a simulated run is cycle `k + 1` from the world left
      by the first `k` days. */
  lemma SimulateAt(st: Setting, w: World, n: nat, k: nat)
    requires k < n
    ensures Simulate(st, w, n).logs[k] == Step(st, Simulate(st, w, k).final, k + 1).log
  {
    IterateAt(CycleOf(st), w, n, k);
  }

  /** A run of `n` days is the run of `n - 1` days followed by one cycle. */
  lemma SimulateStep(st: Setting, w: World, n: nat)
    requires n > 0
    ensures Simulate(st, w, n).logs == Simulate(st, w, n - 1).logs + [Step(st, Simulate(st, w, n - 1).final, n).log]
    ensures Simulate(st, w, n).final == Step(st, Simulate(st, w, n - 1).final, n).next
  {
    IterateStep(CycleOf(st), w, n);
  }

  /** The logs of a run are numbered 1..n. */
  lemma SimulateDays(st: Setting, w: World, n: nat)
    ensures var logs := Simulate(st, w, n).logs;
      forall k :: 0 <= k < n ==> logs[k].day == k + 1
  {
    forall k | 0 <= k < n
      ensures Simulate(st, w, n).logs[k].day == k + 1
    {
      SimulateAt(st, w, n, k);
      StepShape(st, Simulate(st, w, k).final, k + 1);
    }
  }

  /** A cycle that consumes four draws and counts one more log. */
  ghost predicate CountsDraws(cycle: Cycle) {
    forall w: World, day: int ::
      cycle(w, day).next.drawn == w.drawn + 4 && cycle(w, day).next.logCount == w.logCount + 1
  }

  /** `n` such cycles consume `4 n` draws and count `n` logs. */
  lemma {:induction false} IterateConsumes(cycle: Cycle, w: World, n: nat)
    requires CountsDraws(cycle)
    ensures Iterate(cycle, w, n).final.drawn == w.drawn + 4 * n
    ensures Iterate(cycle, w, n).final.logCount == w.logCount + n
  {
    if n > 0 {
      IterateConsumes(cycle, w, n - 1);
      IterateStep(cycle, w, n);
    }
  }

  /** The engine's cycle consumes four draws and counts one log. */
  lemma StepCountsDraws(st: Setting)
    ensures CountsDraws(CycleOf(st))
  {
    forall w: World, day: int
      ensures CycleOf(st)(w, day).next.drawn == w.drawn + 4 && CycleOf(st)(w, day).next.logCount == w.logCount + 1
    {
      StepShape(st, w, day);
    }
  }

  /** After `n` days the user has consumed exactly `4 n` more draws and `n`
      more cycles are logged. */
  lemma SimulateConsumes(st: Setting, w: World, n: nat)
    ensures Simulate(st, w, n).final.drawn == w.drawn + 4 * n
    ensures Simulate(st, w, n).final.logCount == w.logCount + n
  {
    StepCountsDraws(st);
    IterateConsumes(CycleOf(st), w, n);
  }

  /** The state a cycle starts from: the run's initial one before day 1,
      otherwise the state logged the day before. */
  function PriorState(w: World, logs: seq<SimulationLog>, k: nat): Option<BehavioralState>
    requires k < |logs|
  {
    if k == 0 then w.state else Some(logs[k - 1].state)
  }

  /** What one cycle logs about itself. */
  predicate FullCycle(log: SimulationLog, prior: Option<BehavioralState>) {
    && log.state == Updated(prior, log.signals)
    && log.directive.strategy == Router.SelectStrategy(log.state)
    && log.directive == Brain.BuildDirective(log.directive.strategy).value
    && log.explanation.strategySelected == log.directive.strategy
    && (log.alarmTriggered <==> log.directive.requiredStrictness > 0.3)
    && log.outcomeSuccess.Some?
    && (log.outcomeSuccess.value ==> log.alarmTriggered)
  }

  /** A single cycle updates the state from the world's, lets the brain
      decide on the new state, and logs the user's reaction. */
  lemma StepIsFullCycle(st: Setting, w: World, day: int)
    ensures FullCycle(Step(st, w, day).log, w.state)
  {
    var state := Updated(w.state, Morning(st, w));
    var decision := Brain.Decide(state, st.decisionIds(w.logCount), st.decisionClock(w.logCount));
    assert decision.value.0 == Brain.BuildDirective(Router.SelectStrategy(state)).value;
  }

  /** The world after `k` days carries the state the run starts from on day `k + 1`. */
  lemma PriorStateIsWorldState(st: Setting, w: World, n: nat, k: nat)
    requires k < n
    ensures PriorState(w, Simulate(st, w, n).logs, k) == Simulate(st, w, k).final.state
  {
    if k > 0 {
      SimulateAt(st, w, n, k - 1);
      SimulateStep(st, w, k);
      StepShape(st, Simulate(st, w, k - 1).final, k);
    }
  }

  /** Every logged day is one full governance cycle: its state is the update
      of the previous day's state by that day's signals, its directive and
      explanation are the brain's decision for that state, and its alarm and
      outcome follow the directive's strictness. */
  lemma SimulateCycles(st: Setting, w: World, n: nat)
    ensures var logs := Simulate(st, w, n).logs;
      forall k :: 0 <= k < n ==> FullCycle(logs[k], PriorState(w, logs, k))
  {
    forall k | 0 <= k < n
      ensures FullCycle(Simulate(st, w, n).logs[k], PriorState(w, Simulate(st, w, n).logs, k))
    {
      SimulateAt(st, w, n, k);
      StepIsFullCycle(st, Simulate(st, w, k).final, k + 1);
      PriorStateIsWorldState(st, w, n, k);
    }
  }

  /** Appending one cycle's log to a run of `day - 1` cycles gives the run of `day` cycles. */
  lemma IterateAdvances(cycle: Cycle, start: World, day: nat, startLogs: seq<SimulationLog>,
                        logsBefore: seq<SimulationLog>, logsAfter: seq<SimulationLog>, before: World, after: World)
    requires day > 0
    requires logsBefore == startLogs + Iterate(cycle, start, day - 1).logs && before == Iterate(cycle, start, day - 1).final
    requires logsAfter == logsBefore + [cycle(before, day).log] && after == cycle(before, day).next
    ensures logsAfter == startLogs + Iterate(cycle, start, day).logs && after == Iterate(cycle, start, day).final
  {
    IterateStep(cycle, start, day);
  }

  /** Every state a run logs lies in the unit ranges. */
  lemma LoggedStatesInRange(st: Setting, w: World, n: nat)
    ensures var logs := Simulate(st, w, n).logs;
      forall k :: 0 <= k < n ==> InRange(logs[k].state)
  {
    SimulateCycles(st, w, n);
  }

  /** A run that starts with no state logs the cold-start state on day 1,
      whatever the user did. */
  lemma ColdStartFirstDay(st: Setting, w: World, n: nat)
    requires w.state.None? && n > 0
    ensures Simulate(st, w, n).logs[0].state == ColdStart
  {
    SimulateCycles(st, w, n);
  }

  class Engine {
    const user: SyntheticUser
    const totalDays: int
    const signalClock: nat -> Timestamp
    const decisionClock: nat -> Timestamp
    const decisionIds: nat -> string
    var currentDay: int
    var state: Option<BehavioralState>
    var logs: seq<SimulationLog>

    constructor (user: SyntheticUser, totalDays: int, signalClock: nat -> Timestamp,
                 decisionClock: nat -> Timestamp, decisionIds: nat -> string)
      ensures this.user == user && this.totalDays == totalDays
      ensures this.signalClock == signalClock && this.decisionClock == decisionClock
      ensures this.decisionIds == decisionIds
      ensures currentDay == 0 && state == None && logs == []
    {
      this.user := user;
      this.totalDays := totalDays;
      this.signalClock := signalClock;
      this.decisionClock := decisionClock;
      this.decisionIds := decisionIds;
      currentDay := 0;
      state := None;
      logs := [];
    }

    function Fixed(): Setting {
      Setting(user.profile, user.draws, signalClock, decisionClock, decisionIds)
    }

    function Now(): World
      reads this, user
    {
      World(state, user.drawn, user.lastDirective, |logs|)
    }

    /** The number of days `run` simulates: none when `totalDays` is not positive. */
    function Days(): nat {
      if totalDays > 0 then totalDays else 0
    }

    /** `run`: one cycle for each of days 1..totalDays; the logs grow by the
      simulated run and the engine ends on the last day (no cycle, and no
      change, when totalDays is not positive). */
    method Run() returns (result: seq<SimulationLog>)
      modifies this`currentDay, this`state, this`logs, user`drawn, user`lastDirective
      ensures logs == old(logs) + Simulate(Fixed(), old(Now()), Days()).logs
      ensures Now() == Simulate(Fixed(), old(Now()), Days()).final
      ensures totalDays > 0 ==> currentDay == totalDays
      ensures totalDays <= 0 ==> currentDay == old(currentDay)
      ensures result == logs
    {
      result := logs;
      if totalDays <= 0 {
        return;
      }
      ghost var start := Now();
      ghost var startLogs := logs;
      var day := 1;
      while day <= totalDays
        invariant 1 <= day <= totalDays + 1
        invariant logs == startLogs + Simulate(Fixed(), start, day - 1).logs
        invariant Now() == Simulate(Fixed(), start, day - 1).final
        invariant day > 1 ==> currentDay == day - 1
      {
        AdvanceDay(start, startLogs, day);
        day := day + 1;
      }
      result := logs;
    }

    /** The body of `run`'s loop: day `day` becomes the current day and its
        cycle extends the run simulated since `start`. */
    method AdvanceDay(ghost start: World, ghost startLogs: seq<SimulationLog>, day: nat)
      requires day > 0
      requires logs == startLogs + Simulate(Fixed(), start, day - 1).logs
      requires Now() == Simulate(Fixed(), start, day - 1).final
      modifies this`currentDay, this`state, this`logs, user`drawn, user`lastDirective
      ensures currentDay == day
      ensures logs == startLogs + Simulate(Fixed(), start, day).logs
      ensures Now() == Simulate(Fixed(), start, day).final
    {
      currentDay := day;
      ghost var before, beforeLogs := Now(), logs;
      RunSingleDay();
      IterateAdvances(CycleOf(Fixed()), start, day, startLogs, beforeLogs, logs, before, Now());
    }

    /** `_run_single_day`: one governance cycle for the current day. */
    method RunSingleDay()
      modifies this`state, this`logs, user`drawn, user`lastDirective
      ensures var d := Step(Fixed(), old(Now()), currentDay);
        logs == old(logs) + [d.log] && Now() == d.next
    {
      ghost var w := Now();
      var batch := user.GenerateSignals(currentDay, state, signalClock(|logs|));
      assert batch == Morning(Fixed(), w);
      var updated := UpdateState(state, batch);
      state := Some(updated);
      var decision := Brain.Decide(updated, decisionIds(|logs|), decisionClock(|logs|));
      var (directive, explanation) := decision.value;
      var reaction := user.React(directive);
      assert reaction == Reaction(user.profile, directive, user.draws(w.drawn + 3));
      logs := logs + [SimulationLog(currentDay, updated, batch, directive, explanation,
                                    reaction.alarmTriggered, Some(reaction.outcomeSuccess), reaction.trustDelta)];
    }
  }

  /** A fresh engine over a fresh user runs exactly the requested days,
      numbered from 1, starting from the cold-start state, with every logged
      state in range. */
  method RunFresh(profile: UserProfile, draws: nat -> real, totalDays: nat, signalClock: nat -> Timestamp,
                  decisionClock: nat -> Timestamp, decisionIds: nat -> string)
    returns (logs: seq<SimulationLog>)
    ensures logs == Simulate(Setting(profile, draws, signalClock, decisionClock, decisionIds),
                             World(None, 0, None, 0), totalDays).logs
    ensures |logs| == totalDays
    ensures forall k :: 0 <= k < totalDays ==> logs[k].day == k + 1 && InRange(logs[k].state)
    ensures totalDays > 0 ==> logs[0].state == ColdStart
  {
    var user := new SyntheticUser(profile, draws);
    var engine := new Engine(user, totalDays, signalClock, decisionClock, decisionIds);
    logs := engine.Run();
    LoggedStatesInRange(engine.Fixed(), World(None, 0, None, 0), totalDays);
    SimulateDays(engine.Fixed(), World(None, 0, None, 0), totalDays);
    if totalDays > 0 {
      ColdStartFirstDay(engine.Fixed(), World(None, 0, None, 0), totalDays);
    }
  }
}
