# AlarmSM governing brain — a verified Dafny model

This project models the deterministic core of the AlarmSM "governing brain", a
habit-coaching system that watches behavioural signals around an alarm clock
and decides how firmly to govern the user. The model covers:

- **state updater** — `update_state` folds a batch of named, confidence-weighted
  signals onto six bounded scalars (discipline, failure risk, avoidance,
  fatigue, context importance, momentum);
- **policies and router** — four threshold policies (burnout protection, early
  support, context guard, enforcement) tried in a fixed order, first match
  wins, STABILIZATION as fallback;
- **strategies, directives, brain** — the strategy tags, the validating
  `GovernanceDirective` constructor with capability normalisation, the
  strategy-to-directive table and the explanation record of each decision;
- **simulation** — the simulation log record, the synthetic user (signal
  generation and reaction, with its random draws taken as an input stream),
  the day-by-day `TimeEngine`, and the basic scenario that drives one user;
- **policy evolution** — the evaluator that summarises a window of logs, the
  evolution-signal engine, and the version applier.

Floating-point numbers are modelled as exact `real`s. Clock readings,
UUIDs and the user's random numbers are supplied by the caller, as
functions of the cycle number or as a stream of draws.

Modules follow the source files one to one:

| module (file) | source |
|---|---|
| `Common` (common.dfy) | `Optional`, exceptions, `max(lo, min(hi, x))` |
| `StateModel` (state_model.dfy) | governing_brain/state_model.py |
| `BurnoutPolicy`, `SupportPolicy`, `ContextPolicy`, `EnforcementPolicy`, `Router` | governing_brain/policies/*.py |
| `Strategies`, `Inputs`, `Outputs`, `Explanations`, `Brain` | governing_brain/*.py |
| `Metrics`, `SyntheticUsers`, `TimeEngine`, `Scenario` | simulation/*.py |
| `Evaluation`, `Evaluator`, `Signals`, `SignalEngine`, `Versioning`, `Applier` | policy_evolution/*.py |

The shape of each module follows the shape of its source:

- The state updater is a `method` with one loop per accumulator. It is proved
  equal to a recursive fold (`StateModel.Updated`).
- `SyntheticUser` and `TimeEngine` are classes whose methods update their
  fields. `TimeEngine.Engine.Run` is proved against `TimeEngine.Simulate`,
  which iterates one decision cycle (`TimeEngine.Step`) from a `World` value:
  the state, how many draws have been consumed, the user's last directive,
  and the number of logs so far.
- The pure parts are functions: policies, router, brain, evaluator, applier.
- The signal engine is both a method that grows a set and the function it is
  proved equal to.

## Model

| member | source | states |
|---|---|---|
| Common.Clamp | governing_brain/state_model.py:193 | the result lies in [lo, hi]; it is the input when the input is inside, and the violated bound otherwise |
| Common.ClampMonotone | governing_brain/state_model.py:193-249 | clamping preserves the order of its arguments |
| StateModel.Updated | governing_brain/state_model.py:148-259 | for any previous state and any confidences, the five scalars end in [0,1] and momentum in [-1,1]; with no previous state the result is the cold-start prior |
| StateModel.Accumulate | governing_brain/state_model.py:187-192 | one accumulator loop adds to its start value exactly the fold of coefficient·confidence over the matching signals |
| StateModel.Contribution | governing_brain/state_model.py:187-191 | a signal in neither category adds nothing; with non-negative coefficient and confidence, a rising signal never lowers and a falling one never raises the accumulator |
| StateModel.Shift | governing_brain/state_model.py:187-249 | a batch none of whose signals is in either category of an accumulator shifts it by nothing |
| StateModel.UpdateState | governing_brain/state_model.py:148-259 | the six loops, clamps and momentum decay compute exactly the fold `Updated`, and the result is in range |
| StateModel.CategoriesDisjoint | governing_brain/state_model.py:68-141 | in every accumulator the raising and lowering signal sets are disjoint, so the if/elif order never hides a signal |
| StateModel.ShiftAppend | governing_brain/state_model.py:187-249 | an accumulator's shift over two concatenated batches is the sum of their shifts |
| StateModel.ShiftPermutation | governing_brain/state_model.py:187-249 | an accumulator's shift depends only on the multiset of signals, not their order |
| StateModel.UpdatedIgnoresOrder | governing_brain/state_model.py:187-249 | two batches with the same signals in any order give the same new state |
| StateModel.ColdStartIgnoresBatch | governing_brain/state_model.py:166-174 | with no previous state the result is (0.5, 0.5, 0.3, 0.5, 0.5, 0.0) whatever the batch |
| StateModel.EmptyBatchDecaysMomentum | governing_brain/state_model.py:231-238 | from an in-range state an empty batch leaves five fields unchanged and scales momentum by 0.95 |
| StateModel.UncategorisedSignalIgnored | governing_brain/state_model.py:68-141 | inserting a signal that is in no category anywhere in a batch changes nothing |
| StateModel.LateNightUsageMovesThreeFields | governing_brain/state_model.py:68-141 | against an empty batch, `late_night_usage` never lowers failure risk or fatigue, never raises momentum, and leaves the other three fields equal; from an in-range state with positive confidence, failure risk and fatigue strictly rise unless already at 1 and momentum strictly falls |
| StateModel.RecoveryDayMovesTwoFields | governing_brain/state_model.py:68-141 | against an empty batch, `recovery_day` never raises fatigue or context and leaves the other four fields equal; from an in-range state with positive confidence, each of the two strictly falls unless already at 0 |
| StateModel.HighStakesNeverLowersContext | governing_brain/state_model.py:243-249 | appending a high-stakes signal with non-negative confidence never lowers context importance |
| StateModel.ExamDayRaisesContext | governing_brain/state_model.py:243-249 | an `exam_day` signal with positive confidence strictly raises context importance below 1; from the cold-start prior at full confidence it reaches 0.7 |
| BurnoutPolicy.Burnout | governing_brain/policies/burnout.py:26-47 | SUPPORT exactly when one of the four overload clauses holds, otherwise no opinion; nothing else is possible |
| BurnoutPolicy.BurnoutNeedsFatigue | governing_brain/policies/burnout.py:26-44 | the policy never fires when fatigue is below 0.5 |
| SupportPolicy.EarlySupport | governing_brain/policies/support.py:27-46 | SUPPORT exactly when pre-burnout (exclusive upper bounds) or negative momentum with capacity holds, otherwise no opinion |
| SupportPolicy.EarlySupportNeedsCapacity | governing_brain/policies/support.py:30-42 | the policy never fires when avoidance exceeds 0.5 or discipline is below 0.35 |
| ContextPolicy.ContextGuard | governing_brain/policies/context.py:25-33 | STABILIZATION exactly when the four inclusive low-stakes conditions hold, otherwise no opinion |
| ContextPolicy.ContextGuardSilentWhenImportantOrAvoidant | governing_brain/policies/context.py:26-29 | the guard never fires when context exceeds 0.4 or avoidance exceeds 0.5 |
| EnforcementPolicy.Enforce | governing_brain/policies/enforcement.py:23-33 | ENFORCEMENT exactly when all six inclusive conjuncts hold, otherwise no opinion |
| EnforcementPolicy.EnforceNeedsCapacityAndCause | governing_brain/policies/enforcement.py:24-26 | enforcement never fires when fatigue exceeds 0.45, avoidance is below 0.65 or context is below 0.6 |
| Router.FirstMatch | governing_brain/policies/router.py:57-61 | no result iff every policy abstains; otherwise the result is that of a policy all of whose predecessors abstain |
| Router.SelectStrategy | governing_brain/policies/router.py:49-63 | the first applicable policy in priority order decides: SUPPORT whenever burnout fires; otherwise SUPPORT whenever early support fires; otherwise STABILIZATION whenever the context guard fires; ENFORCEMENT iff the enforcement policy fires; STABILIZATION when every policy abstains; nothing else is possible |
| Router.EnforcementExcludesEarlierPolicies | governing_brain/policies/router.py:37-42 | whenever enforcement is justified, the three policies ahead of it all abstain |
| Strategies.TagsPartition | governing_brain/strategies.py:28-46 | each tag holds for exactly its listed members; restrictive, supportive and neutral are pairwise disjoint; a strategic pause has none of them; restrictive excludes recovery |
| Strategies.ValueInjective | governing_brain/strategies.py:18-22 | distinct strategies have distinct string values |
| Strategies.Value | governing_brain/strategies.py:18-22 | each enum value is a non-empty lower-case identifier |
| Strategies.AllowsRecovery | governing_brain/strategies.py:40-46 | recovery is allowed for every strategy except ENFORCEMENT and STABILIZATION |
| Strategies.IsNeutral | governing_brain/strategies.py:36-38 | a neutral strategy does not allow recovery |
| Strategies.IsSupportive | governing_brain/strategies.py:32-34 | a supportive strategy allows recovery and is not neutral |
| Strategies.IsRestrictive | governing_brain/strategies.py:28-30 | a restrictive strategy is neither supportive nor neutral and does not allow recovery |
| Inputs.Names | simulation/metrics.py:74 | the names of a batch's signals, one per signal, in batch order |
| Outputs.TrimStart | governing_brain/outputs.py:48 | what is left after leading whitespace is removed does not start with whitespace |
| Outputs.TrimEnd | governing_brain/outputs.py:48 | what is left after trailing whitespace is removed does not end with whitespace |
| Outputs.TrimStartDropsWhitespace | governing_brain/outputs.py:48 | trimming the start removes a prefix made only of whitespace |
| Outputs.TrimEndDropsWhitespace | governing_brain/outputs.py:48 | trimming the end removes a suffix made only of whitespace |
| Outputs.Strip | governing_brain/outputs.py:48-50 | a stripped string neither starts nor ends with whitespace |
| Outputs.StripIsSlice | governing_brain/outputs.py:48-50 | the stripped string is a slice of the input with only whitespace cut off on both sides |
| Outputs.Lower | governing_brain/outputs.py:50 | lowering keeps the length and lowers each character in place |
| Outputs.Normalized | governing_brain/outputs.py:46-52 | fails iff some capability is not a string or is blank after stripping; otherwise keeps length and order and stores each capability stripped and lowered |
| Outputs.NormalizeCapabilities | governing_brain/outputs.py:46-52 | the normalisation loop returns exactly `Normalized`, the first invalid capability aborting it |
| Outputs.FailureExtends | governing_brain/outputs.py:47-49 | once a prefix of the list fails, the whole list fails with the capability error |
| Outputs.NewDirective | governing_brain/outputs.py:30-52 | the strictness check, then the escalation check, then the capability check decide the failure in that order; a success keeps every other field and holds normalised capabilities, so it is well formed |
| Outputs.NormalizeIsStable | governing_brain/outputs.py:50 | a normalised capability is non-empty and normalising it again changes nothing |
| Outputs.RebuildIsIdentity | governing_brain/outputs.py:50-52 | rebuilding a well-formed directive from its own fields yields that same directive |
| Brain.BuildDirective | governing_brain/brain.py:47-80 | ENFORCEMENT, SUPPORT and every other strategy map to their three table entries, each carrying the strategy and well formed |
| Brain.ConstructorBuildsTable | governing_brain/brain.py:53-80 | the validating constructor, given the arguments the table passes it, succeeds and returns exactly the table entry, so building a directive never raises |
| Brain.Snapshot | governing_brain/brain.py:93-100 | the snapshot has exactly the six field-name keys, each mapped to that field of the state |
| Brain.BuildExplanation | governing_brain/brain.py:86-120 | the record names the strategy, snapshots exactly the six state fields with the state's values, has confidence 1.0 and carries the given id and time |
| Brain.Decide | governing_brain/brain.py:29-41 | never fails; the directive is the table entry `BuildDirective` of the router's choice for the state, so it is well formed and carries that strategy; the explanation is `BuildExplanation` of the same strategy, the state and the supplied id and time |
| Brain.DirectiveDependsOnlyOnStrategy | governing_brain/brain.py:47-80 | two states routed to the same strategy get the same directive, whatever their values, ids or times |
| Brain.RecoveryFlagVersusTag | governing_brain/brain.py:78 | the directive's recovery flag agrees with `allows_recovery` for every strategy except STABILIZATION, where it is set while the tag is not |
| Metrics.NewLog | simulation/metrics.py:11-26 | a log built without the optional fields has no outcome and a zero trust change and keeps the given fields |
| Metrics.AccessorsProjectState | simulation/metrics.py:32-58 | the strategy accessor is the directive's strategy and the six others project the logged state |
| Metrics.ToDictAsWrittenAlwaysFails | simulation/metrics.py:80 | `to_dict` as written raises AttributeError for every log |
| Metrics.ToDictAsWritten | simulation/metrics.py:64-81 | `to_dict` as written never produces a dictionary: it fails on the `summary` attribute |
| Metrics.ToDict | simulation/metrics.py:64-81 | the dictionary renders the strategy as its string value, copies the logged state, directive and outcome fields, and lists the signal names in batch order |
| Metrics.ToDictStrategyDeterminesStrategy | simulation/metrics.py:67 | the rendered strategy string determines the logged strategy |
| SyntheticUsers.WakeCompliance | simulation/synthetic_users.py:85-97 | the morning compliance probability is clamped into [0,1] |
| SyntheticUsers.FatigueLowersWakeCompliance | simulation/synthetic_users.py:85-97 | more fatigue never raises the morning compliance probability for a non-negative sensitivity |
| SyntheticUsers.EnforcementRaisesWakeCompliance | simulation/synthetic_users.py:93-97 | a previous ENFORCEMENT directive never lowers the morning compliance probability |
| SyntheticUsers.ErosionMonotone | simulation/synthetic_users.py:88-97 | subtracting more fatigue before the clamp never yields a larger probability |
| SyntheticUsers.PlannedSignalsShape | simulation/synthetic_users.py:99-156 | the batch holds 1 to 3 signals: it starts with exactly one of dismissal or failure as decided by the first draw; early wake follows only a dismissal and snooze only a failure, both in second place; late-night usage comes last iff the third draw is below fatigue; confidences lie in [0,1]; timestamps lie in the 8-hour window |
| SyntheticUsers.PlannedSignals | simulation/synthetic_users.py:72-156 | the generated batch spans the eight hours before `now` and holds one to three signals; its full shape is stated by `SyntheticUsers.PlannedSignalsShape` |
| SyntheticUsers.ReactCompliance | simulation/synthetic_users.py:175-182 | the reaction's compliance probability is clamped into [0,1] |
| SyntheticUsers.Reaction | simulation/synthetic_users.py:169-201 | the alarm fires iff strictness exceeds 0.3; compliance is the draw falling below the probability; success is alarm and compliance; trust falls iff an alarm is ignored, takes only -0.05, 0.02 or 0.01, and is 0.01 on a calm day |
| SyntheticUsers.SyntheticUser.constructor | simulation/synthetic_users.py:50-66 | a new user has its profile and draw stream, has consumed no draw and remembers no directive |
| SyntheticUsers.SyntheticUser.NextDraw | simulation/synthetic_users.py:100 | each draw is the next value of the stream and advances the cursor by one |
| SyntheticUsers.SyntheticUser.GenerateSignals | simulation/synthetic_users.py:72-156 | the appended batch is `PlannedSignals` of the next three draws, in order, and exactly three draws are consumed |
| SyntheticUsers.SyntheticUser.React | simulation/synthetic_users.py:162-201 | the directive is remembered as the last one, exactly one draw is consumed and the reaction is `Reaction` of that draw |
| TimeEngine.Iterate | simulation/time_engine.py:31-35 | `n` cycles produce `n` logs, and zero cycles leave the world unchanged |
| TimeEngine.IterateStep | simulation/time_engine.py:32-34 | `n` cycles are `n - 1` cycles followed by one more |
| TimeEngine.IterateAt | simulation/time_engine.py:32-34 | log `k` of a run is what cycle `k + 1` logs from the world after `k` cycles |
| TimeEngine.Simulate | simulation/time_engine.py:31-35 | a run of `n` days produces exactly `n` logs |
| TimeEngine.Morning | simulation/time_engine.py:39-42 | the cycle's batch is the user's batch for the next three draws of its stream, at the signal clock of the cycle; its properties are those of `SyntheticUsers.PlannedSignals` |
| TimeEngine.Step | simulation/time_engine.py:37-65 | one decision cycle: generate, update, decide, react, log; its contract is stated by `TimeEngine.StepShape` and `TimeEngine.StepIsFullCycle` |
| TimeEngine.StepShape | simulation/time_engine.py:37-65 | a cycle logs its own day number; the next world holds the logged state and directive, with four more draws consumed and one more log |
| TimeEngine.SimulateAt | simulation/time_engine.py:32-34 | log `k` of a run is the cycle of day `k + 1` from the world after `k` days |
| TimeEngine.SimulateStep | simulation/time_engine.py:32-34 | a run of `n` days is the run of `n - 1` days followed by day `n` |
| TimeEngine.SimulateDays | simulation/time_engine.py:32-33 | the logs of a run are numbered 1..n in order |
| TimeEngine.IterateConsumes | simulation/time_engine.py:39-51 | a cycle that consumes four draws, iterated `n` times, consumes `4 n` draws and counts `n` logs |
| TimeEngine.StepCountsDraws | simulation/time_engine.py:39-51 | a cycle consumes three draws for the signals and one for the reaction, and counts one log |
| TimeEngine.SimulateConsumes | simulation/time_engine.py:39-51 | after `n` days exactly `4 n` draws are consumed and `n` more logs counted |
| TimeEngine.StepIsFullCycle | simulation/time_engine.py:37-65 | a cycle's logged state is the update of the previous state by that day's signals, its directive and explanation are the brain's decision on that state, and the alarm and outcome follow the directive's strictness |
| TimeEngine.PriorStateIsWorldState | simulation/time_engine.py:45 | the state a day starts from is the state logged the day before, or the initial state on day 1 |
| TimeEngine.SimulateCycles | simulation/time_engine.py:37-65 | every logged day is one full cycle threaded from the previous day's logged state |
| TimeEngine.IterateAdvances | simulation/time_engine.py:32-34 | appending one cycle's log to the logs of `day - 1` cycles gives the logs of `day` cycles |
| TimeEngine.LoggedStatesInRange | simulation/time_engine.py:45 | every logged state lies in the unit ranges |
| TimeEngine.ColdStartFirstDay | simulation/time_engine.py:28-45 | from no state, day 1 logs the cold-start prior whatever signals were generated |
| TimeEngine.Engine.constructor | simulation/time_engine.py:17-29 | a new engine keeps its user and day count, is on day 0, has no state and no logs |
| TimeEngine.Engine.Run | simulation/time_engine.py:31-35 | appends to the existing logs the simulation of `total_days` days continued from the engine's current state and user, without resetting; the current day ends at `total_days`, or is untouched when `total_days` is not positive; the logs are returned |
| TimeEngine.Engine.AdvanceDay | simulation/time_engine.py:32-34 | one loop iteration sets the day and extends the run by that day's cycle |
| TimeEngine.Engine.RunSingleDay | simulation/time_engine.py:37-65 | appends exactly the day's cycle log and moves the engine and user to the cycle's next world |
| TimeEngine.RunFresh | simulation/time_engine.py:17-35 | a fresh engine over a fresh user returns exactly `total_days` logs numbered 1..n, starting from the cold-start prior, every state in range |
| Scenario.BasicSimulationAsWritten | simulation/run_simulation.py:19-98 | the basic scenario as written raises AttributeError for every positive number of days |
| Scenario.BasicSimulation | simulation/run_simulation.py:19-52 | the basic scenario returns the simulation of `days` days of the burnout-prone student from an empty world, one log per day |
| Scenario.SimulatedWindowEvaluates | tests/test_policy_evaluator.py:14-27 | any non-empty simulated window can be evaluated; the window spans the simulated days, the verdict is healthy, risky or degrading, and the success and false-alarm rates sum to 1 when any alarm fired |
| Scenario.SimulatedWindowSignals | tests/test_evolution_signals.py:7-16 | the signals derived from a simulated window are never empty, for the intended engine always and for the engine as written whenever it does not raise |
| Scenario.AlarmFollowsStrategy | simulation/synthetic_users.py:172 | against the brain's table, the alarm fires for every strategy except SUPPORT, and a SUPPORT day never succeeds and earns the calm-day trust |
| Evaluator.NewEvaluator | policy_evolution/evaluator.py:28-31 | construction succeeds iff the logs are non-empty, keeps them, and otherwise fails with the empty-logs error |
| Evaluator.Triggered | policy_evolution/evaluator.py:39 | at most one triggered alarm is counted per log |
| Evaluator.TriggeredCountsDays | policy_evolution/evaluator.py:39 | the triggered count is the number of positions in the window whose log records a fired alarm |
| Evaluator.TriggeredWithCountsDays | policy_evolution/evaluator.py:40-47 | the outcome count is the number of positions whose alarm fired with the outcome recorded as `is True` (resp. `is False`) |
| Evaluator.TotalTrust | policy_evolution/evaluator.py:62 | the summed trust change is non-negative when every logged change is, and negative when the window is non-empty and every change is negative |
| Evaluator.Uses | policy_evolution/evaluator.py:68-73 | at most one use of a strategy is counted per log |
| Evaluator.UsesCountsDays | policy_evolution/evaluator.py:68-73 | the `Counter` entry of a strategy is the number of positions in the window logged with it, 0 when there is none |
| Evaluator.OutcomesWithinTriggered | policy_evolution/evaluator.py:40-47 | successful plus false alarms never exceed the triggered alarms, since triggered logs without an outcome count in neither |
| Evaluator.RecordedOutcomesAreCounted | policy_evolution/evaluator.py:40-47 | when every log records an outcome, successful plus false alarms equal the triggered alarms |
| Evaluator.UsesWithinWindow | policy_evolution/evaluator.py:68-73 | the three counted strategies together use at most the window |
| Evaluator.UniformUses | policy_evolution/evaluator.py:68-73 | a window that uses one strategy throughout counts it on every day and every other strategy on none |
| Evaluator.Ratio | policy_evolution/evaluator.py:49 | `a / b` lies in [0,1] when `a <= b`, and scaled back by `b` gives `a` |
| Evaluator.RatioSum | policy_evolution/evaluator.py:71-73 | ratios over one denominator add up like their numerators |
| Evaluator.RatioWhole | policy_evolution/evaluator.py:50-57 | a count over itself is 1 |
| Evaluator.TriggerRate | policy_evolution/evaluator.py:49 | the alarm trigger rate lies in [0,1] and is the triggered count over the days |
| Evaluator.OutcomeRate | policy_evolution/evaluator.py:50-57 | a rate lies in [0,1], is 0.0 when no alarm fired, and otherwise is the outcome count over the triggered count |
| Evaluator.UsageRatio | policy_evolution/evaluator.py:71-73 | a strategy ratio lies in [0,1] and is its use count over the days |
| Evaluator.OutcomeRatesSum | policy_evolution/evaluator.py:50-57 | success rate plus false-alarm rate is at most 1 |
| Evaluator.CountedOutcomeRatesSum | policy_evolution/evaluator.py:50-57 | when every triggered alarm has a recorded outcome, the two rates sum to exactly 1 |
| Evaluator.RecordedOutcomeRatesSum | policy_evolution/evaluator.py:40-57 | when every log records an outcome and some alarm fired, the two rates sum to exactly 1 |
| Evaluator.UsageRatiosSum | policy_evolution/evaluator.py:71-73 | the three strategy ratios sum to at most 1 |
| Evaluator.Health | policy_evolution/evaluator.py:78-83 | risky iff the false-alarm rate exceeds 0.3; otherwise degrading iff trust fell, healthy iff it did not; exactly one of the three |
| Evaluator.Evaluate | policy_evolution/evaluator.py:33-96 | the window is the number of logs; each rate and ratio is its count over its denominator; the two outcome rates and the three strategy ratios each sum to at most 1; trust is the sum and fatigue the last minus the first; the verdict is `Health` of the two |
| Evaluator.AllEnforcementWindow | policy_evolution/evaluator.py:68-73 | a window governed by ENFORCEMENT throughout has enforcement ratio 1 and the other two ratios 0 |
| SignalEngine.Warnings | policy_evolution/signal_engine.py:34-65 | HEALTHY is never among the warnings; RISKY, DEGRADING, ALARM_FATIGUE, TRUST_COLLAPSE, OVER_ENFORCEMENT, UNDER_ENFORCEMENT and STRATEGY_STAGNATION are each present iff their condition holds |
| SignalEngine.Derive | policy_evolution/signal_engine.py:24-67 | healthy yields exactly {HEALTHY}; a non-healthy window with enforcement below 10% raises; otherwise RISKY, DEGRADING, ALARM_FATIGUE, TRUST_COLLAPSE, OVER_ENFORCEMENT and STRATEGY_STAGNATION are each present iff their condition holds, and HEALTHY and UNDER_ENFORCEMENT are absent |
| SignalEngine.DeriveSignals | policy_evolution/signal_engine.py:24-67 | growing the set flag by flag, with the early return, gives exactly `Derive` |
| SignalEngine.DeriveRaisesOnSupportiveDegradingWindow | policy_evolution/signal_engine.py:56 | a degrading seven-day window with enforcement ratio 0.0 and support ratio 0.7 makes the engine as written raise the missing-attribute error |
| SignalEngine.DeriveWithFailureRisk | policy_evolution/signal_engine.py:24-67 | with the failure risk supplied, healthy yields exactly {HEALTHY}, UNDER_ENFORCEMENT is flagged iff enforcement is below 10% and failure risk above 0.7, and otherwise the result is that of the engine as written |
| SignalEngine.EnforcementStagnationIsOverEnforcement | policy_evolution/signal_engine.py:53-65 | stagnation caused by enforcement above 80% always comes with OVER_ENFORCEMENT |
| SignalEngine.RecognisedHealthNeverSilent | policy_evolution/signal_engine.py:30-38 | for a healthy, risky or degrading verdict the result is never empty |
| Applier.Apply | policy_evolution/applier.py:22-38 | the new version carries the recommended parameters, a reason built from the parent's id and the rationale, and a fresh id distinct from the parent's |
| Applier.ReasonEndsWithRationale | policy_evolution/applier.py:34-37 | the reason is the prefix, then the parent's id, then the separator, then exactly the rationale |
| Applier.ParametersChangeIffSuggested | policy_evolution/applier.py:33 | the new version's parameters differ from the parent's iff the recommendation suggests different ones |
| Applier.ReasonIdentifiesParent | policy_evolution/applier.py:34-37 | two parents with distinct ids of equal length give distinct reasons under one recommendation |

## Left out

- policy_evolution/updater.py is not part of this model. Its `propose_update` always raises `NotImplementedError`, and no adjustment rule is invented here.
- policy_evolution/approval.py, policy_evolution/approval_service.py, policy_evolution/report.py and cli/report_cli.py are not part of this model. They hold approval bookkeeping, a log-file append, text report building and a command-line driver, which are I/O and formatting.
- simulation/signal_generator.py and text_context.py are not part of this model. The former is unused, and each of its helpers omits the required `value` argument of `Signal`.
- The printed output of simulation/run_simulation.py is left out, except for the one effect it has on control flow: the AttributeError of line 72, under "Findings".
- `random.Random(seed)` is replaced by a stream of draws supplied with the user (`draws: nat -> real`). Reproducing the seed-42 run is out of scope.
- `datetime.utcnow`, `datetime.now(UTC)` and `uuid4` are replaced by caller-supplied functions of the cycle number, or by explicit parameters. Timestamps are whole seconds.
- Floating-point rounding is not modelled: all arithmetic is exact over `real`.
- The `state_summary` text of an explanation is left out, because it is float-to-string formatting. The record keeps the other fields, including `action_summary`.
- `str.strip` and `str.lower` are modelled over ASCII whitespace and ASCII upper-case letters only, not over full Unicode.
- The `GoverningBrain` object the engine holds has no fields, so the engine calls the brain's functions directly.
- The `day` argument of `generate_signals` is unused by the source and is accepted and ignored.
- Scenario.BasicSimulation takes a natural number of days. A negative count behaves like zero in the source.
- Applier.Apply: the UUID the source draws for the new version is a caller-supplied identifier, required to differ from the parent's. This is the uniqueness a UUID gives, stated as a precondition.
- StateModel.Updated: its contract states range and the cold start only. The exact arithmetic of each field is stated by the fold it computes and by the lemmas beside it.
- The `total_days = 30` default of the engine's constructor is not modelled: `TimeEngine.Engine.constructor` always takes the day count explicitly.
- Applier.Apply: the new version shares the recommendation's parameters dictionary (the same object, not a copy). The model works on map values, so this aliasing, and any later mutation seen through it, is not captured.
- Evaluator.Triggered: its own contract bounds the count by the window only, to keep the rate lemmas cheap. What it counts is stated by `Evaluator.TriggeredCountsDays`.
- Evaluator.Uses: its own contract bounds the count by the window only, for the same reason. What it counts is stated by `Evaluator.UsesCountsDays`.
- Evaluator.TriggeredWith, TimeEngine.Step and TimeEngine.Morning carry no contract of their own. What they compute is stated by `Evaluator.TriggeredWithCountsDays`, `TimeEngine.StepShape`, `TimeEngine.StepIsFullCycle` and `SyntheticUsers.PlannedSignals`.

## Findings

| source | as written | input that shows it | evidently intended | confidence | as-written member | corrected member |
|---|---|---|---|---|---|---|
| simulation/metrics.py:80 | `to_dict` reads `explanation.summary`, but `ExplanationRecord` (governing_brain/explanations.py:32-48) has no such field, so every call raises AttributeError | any log | render the decision's explanation text; the model uses `action_summary` | not executed | Metrics.ToDictAsWrittenAlwaysFails | Metrics.ToDict |
| simulation/run_simulation.py:72 | the daily summary reads `explanation.summary` for the first log, so `run_basic_simulation` raises before it returns the logs, and the two tests that call it cannot reach their assertions | `days = 7`, as in both tests | print the explanation's action summary and return the engine's logs | not executed | Scenario.BasicSimulationAsWritten | Scenario.BasicSimulation |
| policy_evolution/signal_engine.py:56 | the under-enforcement check reads `evaluation.failure_risk`, which `PolicyEvaluation` (policy_evolution/evaluation.py:13-38) does not have, so `derive` raises whenever the window is not healthy and the enforcement ratio is below 0.1 | a degrading 7-day window with enforcement ratio 0.0 and support ratio 0.7 | flag UNDER_ENFORCEMENT when enforcement is below 10% and a failure risk obtained elsewhere exceeds 0.7 | not executed | SignalEngine.DeriveRaisesOnSupportiveDegradingWindow | SignalEngine.DeriveWithFailureRisk |
