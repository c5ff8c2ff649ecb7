# Verified model of the benchmarking control plane and GPU-host agent

The system drives GPU benchmarks. A planner orders a matrix of runs, an orchestrator claims
and executes them one by one, an agent on each GPU host owns one vLLM process and samples it
while a benchmark runs, and pure functions turn finished runs into comparable points. This
project models those parts in Dafny and proves what holds over every run of them.

`dafny verify dfyconfig.toml` checks everything.

## Modules

- `Telemetry`, `TelemetrySpacing`: the sampler's two buffers, stride-doubling decimation and
  drift-free schedule; what the reported interval says of ticks on that schedule.
- `SweepPlan`: expansion of the matrix and the cost of an order in engine starts.
- `Runner`, `RunnerLaws`, `RunnerKills`, `RunnerTrace`, `RunnerOutcomes`: the orchestrator as
  transitions over rows, sweeps and agents whose calls may fail; what every history keeps; kills at
  any commit point; what each poll does and what becomes of a kept engine; how each run ends, over
  the answers given during it, and in which order runs go. `Orchestrator`: the same as methods
  that update the rows step by step. `PlanRefinement`: the executor meets the planner's count.
- `Ownership`, `OwnershipLaws`, `OwnershipRuns`: the agent's server and its ownership record,
  one step between two await points, with crashes, restarts and recycled pids; its laws; runs
  that show their exceptions. `Agent`: the server and registry objects, each segment proved to
  be a step of that protocol.
- `Text`, `ConfigText`, `Redaction`, `Hashing`, `StoredConfigs`, `Importers`: lines, the
  tensor-parallel edit, log scrubbing, the normal form and names of configs, both together,
  directory names.
- `Duration`, `DurationLaws`, `PlanEstimates`: remaining time; when the estimate is exact, over
  all timings and on the plans sweeps are run in.
- `Pareto`, `Grouping`, `GroupOrder`: frontier, partition into groups and points and their display
  order, scaling curves.

The pattern is the same throughout. A function says what a step or a text operation does;
where the source updates fields or loops, a method is proved to compute exactly that function;
and the laws are lemmas about the function, over all inputs, histories or step sequences.

## What the environment may do

A scrape may fail on any tick. An agent call may succeed, fail with or without a kind, or
raise something unexpected, and an answered start may report any state and hash. While a run
executes, others may cancel a sweep, add runs or restart an agent, and the orchestrator may be
killed. On a GPU host any process may exit, start or take a free pid at any moment, and the
agent may crash between any two steps. A start time is read from either of two clocks, seconds
since the epoch or ticks since boot, or from neither, anew each time. Two assumptions are built
into the host: processes that share a pid start more than a second apart on either
clock, and a reap's check and kill are not separated. That readings of different clocks are
never within a second of each other is assumed only where a law says so. SIGKILL works. A tick
is taken to run at its slot of the schedule.

## Where the code does less than its comments say

- The interval reported need not be the spacing of the samples once a tick has overrun its slot,
  nor for samples taken after a decimation; `TelemetrySpacing.IntervalDescribesSpacingIff`,
  `TelemetrySpacing.AnsweredSpacingIff` and `TelemetrySpacing.SamplesAreOnTheGridIff` say when it
  is. The device buffer is bounded only through the engine buffer, and exactly when few enough
  ticks are kept (`Telemetry.GpuBufferIsBoundedIff`).
- Ownership is recorded after the process is launched, not before
  (`OwnershipRuns.CrashLeavesAnEngine`), and a recording that raises is outside the handler
  that would stop the engine (`OwnershipLaws.RaisingRecordKeepsTheEngine`). The fallback for
  reading start times uses another clock and unit, so a record written on one and checked on the
  other does not fit its own engine (`OwnershipLaws.LiveEngineIsMistakenIff`). These and a reap's
  refusal are the only ways to lose an engine (`OwnershipLaws.LiveEngineIsLostIff`).
- A start can return after a stop took its engine away, reporting any state
  (`OwnershipLaws.ReturnedStartIsReadyIff`); the orchestrator issues the benchmark without
  looking at that report (`RunnerTrace.BenchesAreReadyIff`).
- A config file that cannot be written leaves the server STARTING with nothing started, and every
  start is then refused until a stop, as after a late reply (`OwnershipLaws.NextStartIsRefusedIff`).
- A late health reply sets READY after a stop has finished (`OwnershipLaws.LateReplyIff`), a
  stop after the readiness loop reaped its child signals by pid alone
  (`OwnershipLaws.StopHitsAStrangerIff`), and a stop whose output reader had failed raises with
  the record still in place (`OwnershipLaws.RaisedStopLeavesARecord`).
- A kill between a sweep's last commit and settling leaves the sweep open until someone cancels
  it or adds to it (`RunnerLaws.LastRunStrandsIff`, `RunnerLaws.StrandedForeverIff`), and a kill
  before a run's outcome is committed leaves the run claimed for good and its sweep open until
  cancelled (`RunnerKills.KilledRunKeepsItsSweepOpen`); settling is also skipped when a run's
  host, config or workload row is gone and when the final stop raises something other than an
  agent error (`RunnerLaws.ClosedIffAllTerminal`).
- An engine kept for the next run is not used when that run is cancelled or ends before it
  reaches the agent, and then stays loaded (`RunnerTrace.KeptEngineIsReusedIff`,
  `RunnerTrace.UnusedEngineStopsIff`, `RunnerTrace.IdleHostKeepsItsEngine`).
- The family of a variant differs from that of the text when the key was absent and the text
  has no final newline (`ConfigText.FamilyIsKeptIff`); stored texts always have one
  (`StoredConfigs.StoredVariantKeepsItsFamily`). The agent does not read a size that carries a
  trailing comment or stands in quotes, and takes the last declaration where the planner takes
  the first (`ConfigText.ReadersAgreeIff`).
- The normal form drops the indentation of the first line (`Hashing.FirstIndentationIsLost`).
- Loads timed on workloads that never ran without one can mislead the estimate once they are
  half of the loads timed (`DurationLaws.AlwaysExactIff`). Every load of a plan is on its first
  workload, and when that one always loads the error cancels unless it is short
  (`PlanEstimates.AlwaysLoadedIsExactIff`); there an estimate without a warning is exact
  (`PlanEstimates.SilentEstimatesAreExact`).
- Two configs of a sweep may share a hash, as equal variants of one family do; the planner's
  count of engine starts is then too high (`PlanRefinement.ExecutorMeetsThePlan`).

## Model

| member | source | states |
|---|---|---|
| Telemetry.ExactContent | packages/agent/src/vllmbench_agent/telemetry.py:149-162 | For every pattern of failed scrapes both buffers hold exactly the samples of the ticks after the last decimation and of the earlier ticks divisible by the current stride |
| Telemetry.WholeTicksSurvive | packages/agent/src/vllmbench_agent/telemetry.py:250-275 | Of each tick after the last decimation or divisible by the stride, exactly what was scraped is left, the engine sample and one per device as they came; of any other tick nothing; tick 0 always survives |
| Telemetry.EngineSeriesIs | packages/agent/src/vllmbench_agent/telemetry.py:149-162 | The engine series holds, in order of tick, exactly the samples scraped at the ticks after the last decimation and at multiples of the stride |
| Telemetry.ThinnedIff | packages/agent/src/vllmbench_agent/telemetry.py:155-162 | A benchmark is decimated exactly when more than 7200 of its engine scrapes are answered, and holds every one of them until then |
| Telemetry.EngineBufferIsBounded | packages/agent/src/vllmbench_agent/telemetry.py:155-162 | The engine buffer never exceeds its cap by more than one sample, though a decimation can remove nothing; while it is over, two to the ticks since its newest sample is at most that sample's index |
| Telemetry.OverflowIsBrief | packages/agent/src/vllmbench_agent/telemetry.py:155-162 | An unbroken stretch over the cap lasts at most the binary logarithm of the tick it began at |
| Telemetry.ArrivalDroppedWhileOver | packages/agent/src/vllmbench_agent/telemetry.py:155-162 | A tick arriving while the buffer is over its cap contributes nothing to what the decimation leaves |
| Telemetry.GpuBufferAloneIsUnbounded | packages/agent/src/vllmbench_agent/telemetry.py:155-160 | The device buffer has no bound of its own: with silent engine scrapes it grows by every tick |
| Telemetry.GpuBufferIsBoundedByTheEngines | packages/agent/src/vllmbench_agent/telemetry.py:155-162 | It is bounded by the engine buffer's bound times the devices when no device answers on a tick whose engine scrape failed |
| Telemetry.GpuBufferSizeIs | packages/agent/src/vllmbench_agent/telemetry.py:149-162 | With every device answering each tick, the device buffer holds one entry a device for every engine entry and for every kept tick whose engine scrape failed |
| Telemetry.GpuBufferIsBoundedIff | packages/agent/src/vllmbench_agent/telemetry.py:155-162 | With every device answering each tick, it is within the engine buffer's bound, device by device, exactly when the ticks since the last decimation and the stride's multiples up to it together are |
| TelemetrySpacing.IntervalDescribesSpacingIff | packages/agent/src/vllmbench_agent/telemetry.py:83-85 | For any failed scrapes and overruns, neighbouring engine samples are the reported interval apart in time exactly when any two neighbouring ticks that are kept and answered ran as many schedule slots apart as the stride |
| TelemetrySpacing.AnsweredSpacingIff | packages/agent/src/vllmbench_agent/telemetry.py:83-85 | When every scrape answered: exactly when no tick overran up to the last multiple of the stride before the decimation, the next tick ran a stride of slots after that one, and each later tick a stride after the one before |
| TelemetrySpacing.UnthinnedSpacingIff | packages/agent/src/vllmbench_agent/telemetry.py:83-85 | When in addition nothing was thinned: exactly when no tick overran |
| TelemetrySpacing.OnTimeSpacingIff | packages/agent/src/vllmbench_agent/telemetry.py:83-85 | When instead no tick overran: exactly when nothing was thinned, or the run ended at the last thinning, or one tick later and on the grid |
| TelemetrySpacing.OverrunMisreported | packages/agent/src/vllmbench_agent/telemetry.py:139-147 | One overrun is enough: one second is reported for two samples three seconds apart, against the field's comment |
| TelemetrySpacing.LateTicksAreSpaced | packages/agent/src/vllmbench_agent/telemetry.py:139-147 | After any thinning, however long ago, there is a schedule on which late ticks make the interval right |
| TelemetrySpacing.SamplesAreOnTheGridIff | packages/agent/src/vllmbench_agent/telemetry.py:83-85 | For any failed scrapes and overruns, all samples lie a whole number of reported intervals from the start exactly when every tick kept and answered ran on a slot that is a multiple of the stride |
| TelemetrySpacing.OnTimeGridIff | packages/agent/src/vllmbench_agent/telemetry.py:83-85 | Without overruns: exactly when every tick answered since the last thinning is a multiple of the stride |
| TelemetrySpacing.IntervalMisreported | packages/agent/src/vllmbench_agent/telemetry.py:125-128 | Two ticks past the cap, none of them late, the interval reported is not the spacing of the samples, against the field's comment |
| Telemetry.MultipleIsMod | packages/agent/src/vllmbench_agent/telemetry.py:266-267 | The divisibility the model counts out is the remainder test the decimation makes |
| Telemetry.FilterByStride | packages/agent/src/vllmbench_agent/telemetry.py:266-267 | The loop behind both comprehensions keeps exactly the stride's multiples, in order |
| Telemetry.StretchedInterval | packages/agent/src/vllmbench_agent/telemetry.py:268-268 | Doubling the interval with the stride keeps it a whole number of configured intervals |
| Telemetry.TelemetrySampler.constructor | packages/agent/src/vllmbench_agent/telemetry.py:60-87 | A new sampler holds nothing, at stride one and the configured interval |
| Telemetry.TelemetrySampler.Tick | packages/agent/src/vllmbench_agent/telemetry.py:149-162 | One tick changes the fields as the step the content laws are about |
| Telemetry.TelemetrySampler.Decimate | packages/agent/src/vllmbench_agent/telemetry.py:250-275 | A decimation doubles the stride and filters both buffers by it |
| Telemetry.TelemetrySampler.Sample | packages/agent/src/vllmbench_agent/telemetry.py:113-128 | After a whole benchmark the engine series is exactly the samples scraped at the ticks kept, at most 7201, and `decimated` says whether more than 7200 scrapes were answered |
| Telemetry.ScheduleIsUnique | packages/agent/src/vllmbench_agent/telemetry.py:130-147 | Clock readings determine the schedule: next slots that satisfy the law are the only ones |
| Telemetry.OverrunSkipsMissedSlots | packages/agent/src/vllmbench_agent/telemetry.py:139-147 | After an overrun the missed slots are skipped and the next lies after now and at most one interval ahead |
| Telemetry.RunSchedule | packages/agent/src/vllmbench_agent/telemetry.py:130-147 | Every wake-up is the origin plus a whole number of intervals, slots strictly increase, and each sleep is positive and reaches its slot |
| Telemetry.AdvanceTick | packages/agent/src/vllmbench_agent/telemetry.py:139-147 | One advance moves to the first slot after both the current slot and the clock |
| SweepPlan.PlanIsTheMatrix | packages/api/src/vllmbench_api/sweep_plan.py:139-194 | Each config, workload and replicate is planned exactly once and a run's sequence number is its position |
| SweepPlan.NestedCovers | packages/api/src/vllmbench_api/sweep_plan.py:170-194 | Every position of an expansion holds the one triple whose mixed-radix number it is |
| SweepPlan.PlanCost | packages/api/src/vllmbench_api/sweep_plan.py:197-210 | Grouped order starts one engine per config, interleaved one per config and replicate, and a single config one in all |
| SweepPlan.GroupedIsCheapest | packages/api/src/vllmbench_api/sweep_plan.py:139-160 | No ordering that contains the matrix starts fewer engines than the grouped one |
| SweepPlan.StartsRenamed | packages/api/src/vllmbench_api/duration.py:195-200 | Counting by hash never gives more starts than counting by config index, and as many exactly when no two configs that follow each other share a hash |
| SweepPlan.StartsAtLeastDistinct | packages/api/src/vllmbench_api/sweep_plan.py:197-210 | Any order pays at least one start for each distinct config in it |
| SweepPlan.Expand | packages/api/src/vllmbench_api/sweep_plan.py:139-194 | The nested loops give the plan in either order and refuse an empty axis, configs first, then workloads, then replicates |
| SweepPlan.EngineStarts | packages/api/src/vllmbench_api/sweep_plan.py:197-210 | The counting loop gives the number of places where the config changes, the first run included |
| SweepPlan.PlanEngineLoads | packages/api/src/vllmbench_api/duration.py:195-207 | A run is marked as loading exactly when it is first or its hash differs from the one before, and the marks number the engine starts |
| Text.SplitIsProper | packages/api/src/vllmbench_api/sweep_plan.py:61-62 | Splitting a text with its line endings kept loses nothing, and gives lines that a text can have |
| Text.SplitJoin | packages/api/src/vllmbench_api/sweep_plan.py:62-62 | Joining lines that a text can have and splitting again gives those lines |
| Text.DigitsParseBack | packages/api/src/vllmbench_api/sweep_plan.py:102-104 | A printed number, with whitespace around it, is read back |
| ConfigText.MatchIff | packages/api/src/vllmbench_api/sweep_plan.py:42-45 | The line parser finds a parse exactly when the pattern has one, and it is the one with the widest separator and narrowest value |
| ConfigText.RewriteKeepsTheRest | packages/api/src/vllmbench_api/sweep_plan.py:83-89 | A line rewritten with another size parses to the same key, separator and trailing comment |
| ConfigText.EditIsRefusedIff | packages/api/src/vllmbench_api/sweep_plan.py:58-69 | An edit is refused exactly for a size below one or a text that sets the key on two lines |
| ConfigText.VariantReadsBack | packages/api/src/vllmbench_api/sweep_plan.py:92-106 | Reading a variant gives the size that was written, whether the key was rewritten or appended |
| ConfigText.SecondEditOverwrites | packages/api/src/vllmbench_api/sweep_plan.py:48-89 | Editing a variant gives the same text as editing the original |
| ConfigText.OnlyTheValueChanges | packages/api/src/vllmbench_api/sweep_plan.py:51-53 | Every byte before and behind the value survives; an absent key is appended behind the whole text |
| ConfigText.FamilyIsKeptIff | packages/api/src/vllmbench_api/sweep_plan.py:213-243 | All widths of a text share one family, and it is the family of the text itself exactly when the key was set, or the text is empty or ends with a line terminator |
| ConfigText.AgentReadsLineIff | packages/agent/src/vllmbench_agent/vllm_server.py:129-140 | The agent reads the size from a rewritten line exactly when the line carries no trailing comment |
| ConfigText.AgentReadsVariant | packages/agent/src/vllmbench_agent/vllm_server.py:120-141 | From a whole variant the agent takes a later declaring line if there is one, else the written size unless a comment hides it, else an earlier line |
| ConfigText.AgentLineIs | packages/agent/src/vllmbench_agent/vllm_server.py:129-140 | On a line that sets the key the agent reads what the planner reads when the value is neither quoted nor followed by a comment, and no number otherwise |
| ConfigText.ReadersAgreeIff | packages/api/src/vllmbench_api/sweep_plan.py:92-98 | For any config text agent and planner read the same size exactly when no line sets or declares one, or, around the first line that sets it, a later declaration is the planner's number, or there is none and the line is plain and a number or an earlier declaration is the planner's answer; against the documented agreement |
| ConfigText.LoneLineReadersAgreeIff | packages/api/src/vllmbench_api/sweep_plan.py:92-98 | With a single declaring line they agree exactly when its value is plain or is no number for either |
| ConfigText.VariantReadersAgreeIff | packages/api/src/vllmbench_api/sweep_plan.py:92-98 | With no other declaring line, they agree on a variant exactly when the edited line has no comment |
| ConfigText.QuotedSizeIsRead | packages/api/src/vllmbench_api/sweep_plan.py:102-104 | The planner reads a size written between quotes of either kind |
| ConfigText.AddedInStyle | packages/api/src/vllmbench_api/sweep_plan.py:71-78 | Where the key is missing a line is added behind the text, ended with CRLF after CRLF and with LF otherwise, and an unended last line is ended first |
| ConfigText.OnlyItsLineGoes | packages/api/src/vllmbench_api/sweep_plan.py:238-243 | The family of a text that sets the key once is the text without that line, and nothing else goes |
| ConfigText.PipelineSizeIsRead | packages/agent/src/vllmbench_agent/vllm_server.py:129-140 | A line with the pipeline size, in either spelling, is read as that unless a later one is, and says nothing about the tensor size |
| Text.NumeralIff | packages/agent/src/vllmbench_agent/vllm_server.py:134-138 | A number is digits at both ends with single underscores at most between them, and underscores do not change it |
| Text.SignedDigits | packages/agent/src/vllmbench_agent/vllm_server.py:134-138 | A sign in front of a number is read |
| ConfigText.CollectMatches | packages/api/src/vllmbench_api/sweep_plan.py:62-63 | The loop gives the lines that set the key |
| ConfigText.TensorParallelVariant | packages/api/src/vllmbench_api/sweep_plan.py:48-89 | The edit of the line list gives the variant the laws are about |
| ConfigText.FindFirst | packages/api/src/vllmbench_api/sweep_plan.py:99-101 | The search loop stops at the first line that satisfies its test |
| ConfigText.ReadTensorParallelSize | packages/api/src/vllmbench_api/sweep_plan.py:92-106 | The line loop reads the first line that sets the key and no other |
| ConfigText.ConfigFamilyText | packages/api/src/vllmbench_api/sweep_plan.py:238-243 | Deleting the line gives the family text the laws are about |
| ConfigText.DeclaredParallelism | packages/agent/src/vllmbench_agent/vllm_server.py:120-141 | The agent's loop keeps the last number each name was given |
| Runner.ExecutedOnce | packages/orchestrator/src/vllmbench_orchestrator/runner.py:323-334 | Through any history of polls, kills after an outcome is committed, agent failures, cancellations and new work, each run is claimed at most once and, once claimed in it, recorded terminal exactly once with the status it keeps; failed runs have a kind; every benchmark goes to the engine reported ready with the run's hash by the status call, or to whatever an answered start reported |
| RunnerKills.StuckIffKilledEarly | packages/orchestrator/src/vllmbench_orchestrator/runner.py:323-334 | With kills at any commit point: a run is claimed at most once and recorded at most once, is claimed and unrecorded exactly when it was killed before its outcome was committed, and otherwise, once claimed, is terminal with the status recorded and a kind if it failed |
| RunnerKills.KilledRunKeepsItsSweepOpen | packages/orchestrator/src/vllmbench_orchestrator/runner.py:144-146 | A run killed before its outcome was committed stays as it was through any later history, never claimed again, and its sweep closes exactly when someone cancels it, against the docstring |
| RunnerKills.StuckSweepClosesIff | packages/orchestrator/src/vllmbench_orchestrator/runner.py:161-184 | While some run is stuck its sweep is closed by a cancellation and by nothing else |
| RunnerLaws.OutcomesAreFinal | packages/orchestrator/src/vllmbench_orchestrator/runner.py:141-150 | Over any history a terminal run keeps its row and a closed sweep its status |
| RunnerLaws.ActFollows | packages/orchestrator/src/vllmbench_orchestrator/runner.py:100-129 | No single poll or outside act changes a terminal row or a closed sweep |
| RunnerLaws.LoadedOnlyForAReason | packages/orchestrator/src/vllmbench_orchestrator/runner.py:500-520 | After a run the engine is loaded only if the run died before the engine was touched, a final stop was issued and failed, or the run succeeded and a run at the head of the host's queue has its hash |
| RunnerLaws.SummaryMeans | packages/orchestrator/src/vllmbench_orchestrator/runner.py:161-184 | A summary exists exactly when all runs are terminal; it is failed exactly when some run failed, cancelled exactly when some run was cancelled and none failed or succeeded, and succeeded in every other case |
| RunnerLaws.ClosedIffAllTerminal | packages/orchestrator/src/vllmbench_orchestrator/runner.py:141-188 | A sweep not cancelled from outside is closed after a run exactly when settling ran and all its runs are terminal, with the status their counts give; otherwise it is running, or the draft it was |
| RunnerLaws.LastRunStrandsIff | packages/orchestrator/src/vllmbench_orchestrator/runner.py:144-146 | The last run of an open sweep leaves it open with every row terminal exactly when settling does not run, as when the orchestrator is killed first, and nobody cancels the sweep or adds to it, against the docstring |
| RunnerLaws.StrandedStaysIff | packages/orchestrator/src/vllmbench_orchestrator/runner.py:144-146 | An act of anyone leaves such a sweep as it is exactly when it neither cancels it nor adds a run to it |
| RunnerLaws.StrandedChangesIff | packages/orchestrator/src/vllmbench_orchestrator/runner.py:141-188 | The only act that changes such a sweep's status is one that cancels it |
| RunnerLaws.StrandedForeverIff | packages/orchestrator/src/vllmbench_orchestrator/runner.py:144-146 | Through a whole history it stays so exactly when nobody cancels it or adds to it |
| RunnerTrace.PollLogIs | packages/orchestrator/src/vllmbench_orchestrator/runner.py:323-530 | The events of a poll, in order, from the claim to the final stop, for every combination of answers; the status recorded is that of `RunnerOutcomes.OutcomeIs` |
| RunnerOutcomes.OutcomeIs | packages/orchestrator/src/vllmbench_orchestrator/runner.py:350-499 | A run succeeds exactly when its rows are there, nothing cancelled it, its budgets and host could be read, every call made for its engine was answered, a model is named, and benchmark and result are good; is cancelled exactly when a cancellation was found at the start or stopped its benchmark; and fails otherwise, with the kind each cause stands for, the agent's own where it gave one |
| RunnerOutcomes.ReachIs | packages/orchestrator/src/vllmbench_orchestrator/runner.py:284-320 | Reaching the host goes by the first answer that is not an absence, and only absences throughout make it unreachable |
| RunnerOutcomes.LastEventIs | packages/orchestrator/src/vllmbench_orchestrator/runner.py:500-520 | The last thing a run that asked for an engine does is to leave it loaded, exactly when it succeeded and the next run of its host has its hash, or else to have it stopped |
| RunnerOutcomes.StoppedEngineIs | packages/orchestrator/src/vllmbench_orchestrator/runner.py:512-520 | After a final stop the engine is gone if the agent confirmed it, or what the agent was left with |
| RunnerOutcomes.CalledEngineIs | packages/orchestrator/src/vllmbench_orchestrator/runner.py:215-231 | Before anything is torn down the engine is what the last call that reached the agent left |
| RunnerOutcomes.SettlesIff | packages/orchestrator/src/vllmbench_orchestrator/runner.py:522-530 | The sweep is looked at again unless the run's rows were gone, settling raised, or a final stop raised something other than an agent error |
| RunnerOutcomes.EarlierGoesFirst | packages/orchestrator/src/vllmbench_orchestrator/runner.py:107-119 | Of two queued runs, the one queued earlier, or placed earlier in a sweep, goes first: over any history the later is claimed only once the earlier has left the queue, and the earlier is not claimed after it |
| RunnerTrace.BenchIsIssuedIff | packages/orchestrator/src/vllmbench_orchestrator/runner.py:215-231 | A benchmark is issued exactly when a model line is found and the engine is reused, ready with the run's hash, or a start was answered, and then on whatever the answer said |
| RunnerTrace.BenchesAreReadyIff | packages/orchestrator/src/vllmbench_orchestrator/runner.py:227-231 | Over any history every benchmark was issued on an engine reported ready with its run's hash exactly when every answered start that led to one said so: nothing checks the answer |
| RunnerTrace.KeptEngineIs | packages/orchestrator/src/vllmbench_orchestrator/runner.py:500-511 | An engine left loaded is the one the run was measured on, unless its agent restarted meanwhile |
| RunnerTrace.QuietHostKeepsItsEngine | packages/orchestrator/src/vllmbench_orchestrator/runner.py:500-520 | While no run of a host is polled its engine changes only by a restart of the agent |
| RunnerTrace.KeptEngineIsReusedIff | packages/orchestrator/src/vllmbench_orchestrator/runner.py:502-505 | An engine left loaded is reused by the next run polled on its host exactly when that run gets as far as the agent, the status call answers, no restart came between, and the report the engine was kept on is ready with that run's hash |
| RunnerTrace.UnusedEngineStopsIff | packages/orchestrator/src/vllmbench_orchestrator/runner.py:220-225 | A loaded engine that is not reused is asked to stop exactly when the run gets as far as the engine; a run that dies sooner leaves it |
| RunnerTrace.IdleHostKeepsItsEngine | packages/orchestrator/src/vllmbench_orchestrator/runner.py:502-505 | Once nothing is queued for a host, its engine stays loaded until work is added for it or its agent restarts |
| RunnerTrace.CancellingTheNextRunKeepsTheEngine | packages/api/src/vllmbench_api/routers/sweeps.py:371-401 | Cancelling the sweep an engine was kept for leaves the host idle with the engine loaded, whenever only that sweep had work there |
| PlanRefinement.OneMoreRun | packages/orchestrator/src/vllmbench_orchestrator/runner.py:191-247 | With a sweep's rows anywhere in the table and nothing else queued for its host, each poll for it runs the next row of the plan, reuses the engine iff the hash is unchanged and leaves it loaded iff the next run wants it |
| PlanRefinement.OtherAct | packages/orchestrator/src/vllmbench_orchestrator/runner.py:100-129 | A run of another host, whatever becomes of it, and any outside act that is not on this sweep or host leave the sweep and its engine where they were |
| PlanRefinement.ExecutorMeetsThePlan | packages/orchestrator/src/vllmbench_orchestrator/runner.py:500-520 | Among other hosts' runs, earlier sweeps and kills of the orchestrator, the sweep's own events are its runs in plan order, with one engine start for each change of hash, at most the planner's number and that number exactly when configs planned one after the other differ in hash, an engine left loaded exactly when the next run reuses it, and none left at the end |
| PlanRefinement.KeptEngineOutlivesItsQueue | packages/api/src/vllmbench_api/routers/sweeps.py:371-401 | A run that shows it: an engine kept for the next run stays loaded when that run is then cancelled |
| PlanRefinement.KillStrandsASweep | packages/orchestrator/src/vllmbench_orchestrator/runner.py:144-146 | A run that shows it: a kill after the only run was recorded strands its sweep |
| Orchestrator.ReachHost | packages/orchestrator/src/vllmbench_orchestrator/runner.py:284-320 | Only an unreachable agent is asked again, at most five times in all, and the last answer decides |
| Orchestrator.CountStatuses | packages/orchestrator/src/vllmbench_orchestrator/runner.py:161-167 | The grouped count gives each status its number of runs |
| Orchestrator.Orchestrator.constructor | packages/orchestrator/src/vllmbench_orchestrator/__main__.py:142-149 | A session starts from the rows as they are |
| Orchestrator.Orchestrator.ClaimNextRun | packages/orchestrator/src/vllmbench_orchestrator/runner.py:100-129 | Claiming marks the queue's head as starting and its sweep as running, and changes nothing on an empty queue |
| Orchestrator.Orchestrator.MarkSweepRunning | packages/orchestrator/src/vllmbench_orchestrator/runner.py:132-138 | Only a queued sweep becomes running |
| Orchestrator.Orchestrator.SettleSweep | packages/orchestrator/src/vllmbench_orchestrator/runner.py:141-188 | Counting and closing changes the sweep as the settle transition does |
| Orchestrator.Orchestrator.EnsureEngine | packages/orchestrator/src/vllmbench_orchestrator/runner.py:191-231 | Status, stop and start calls leave engine and log as the transition says, with the report the agent gave, unexamined, or the failure's kind |
| Orchestrator.Orchestrator.DriveRun | packages/orchestrator/src/vllmbench_orchestrator/runner.py:350-471 | The phases up to the result end in the verdict and state of the transition, which `RunnerOutcomes.OutcomeIs` reads off the answers |
| Orchestrator.Orchestrator.Record | packages/orchestrator/src/vllmbench_orchestrator/runner.py:780-801 | A verdict is written to the row: success, cancellation, or failure with its kind |
| Orchestrator.Orchestrator.TearDownEngine | packages/orchestrator/src/vllmbench_orchestrator/runner.py:500-520 | The engine is kept or stopped as the look-ahead decides, and only a non-agent exception of the stop escapes |
| Orchestrator.Orchestrator.OthersAct | packages/api/src/vllmbench_api/routers/sweeps.py:371-401 | Cancellations, new runs and agent restarts by others are applied in order |
| Orchestrator.Orchestrator.ExecuteUnsettled | packages/orchestrator/src/vllmbench_orchestrator/runner.py:323-520 | A run up to its final stop leaves the state the transition says, and tells whether an exception escapes before settling |
| Orchestrator.Orchestrator.ExecuteRun | packages/orchestrator/src/vllmbench_orchestrator/runner.py:323-530 | A whole run is the transition the laws are about, including the early return without settling |
| Orchestrator.Orchestrator.ExecuteKilled | packages/orchestrator/src/vllmbench_orchestrator/runner.py:500-530 | A kill before settling leaves what the run committed |
| Orchestrator.Orchestrator.PollOnce | packages/orchestrator/src/vllmbench_orchestrator/__main__.py:142-173 | A poll does nothing exactly when nothing is queued |
| Orchestrator.Orchestrator.Serve | packages/orchestrator/src/vllmbench_orchestrator/__main__.py:234-240 | The service's loop plays its history and ends with every claimed run recorded once and old outcomes intact |
| OwnershipLaws.ReapNeverKillsAStranger | packages/agent/src/vllmbench_agent/reaper.py:152-196 | Over any run of spawns, records, stops, crashes, restarts and pid reuse, also with overlapping starts, the startup reap only signals processes some agent lifetime spawned, if readings of the two clocks are over a second apart |
| OwnershipLaws.ReapHitsAStrangerIff | packages/agent/src/vllmbench_agent/reaper.py:52-74 | Without that assumption: it signals another process exactly when the record was written on one clock and is read on the other, and a live process at the pid reads within a second of it |
| OwnershipLaws.ReapKillsTheRecordedEngine | packages/agent/src/vllmbench_agent/reaper.py:136-196 | The reap kills the engine the record was written for, iff it is alive and its start time was recorded and is read from the same clock; every branch ends with no record and touches no other process |
| OwnershipLaws.LiveEngineIsMistakenIff | packages/agent/src/vllmbench_agent/reaper.py:175-183 | A live recorded engine is taken for a recycled pid exactly when its start time is read from the other clock and differs by over a second |
| OwnershipLaws.RecordedOrphanIsReaped | packages/agent/src/vllmbench_agent/reaper.py:1-10 | A recorded engine a crash left behind is dead by the time any later agent serves, through any number of crashes and restarts, if its start time was recorded and is read from the same clock each time |
| OwnershipLaws.LiveEngineIsLostIff | packages/agent/src/vllmbench_agent/vllm_server.py:262-275 | A live engine is neither named by the record nor in the spawn window exactly when it was lost by a crash in that window, by a recording that raised in it, or by a reap that could not verify it or took its pid for recycled |
| OwnershipRuns.CrashLeavesAnEngine | packages/agent/src/vllmbench_agent/reaper.py:8-10 | Because ownership is recorded after the spawn, a crash in between leaves a live engine no record names, against the module's docstring |
| OwnershipRuns.FailedRecordingLeavesAnEngine | packages/agent/src/vllmbench_agent/vllm_server.py:267-276 | A recording that raises leaves one too |
| OwnershipRuns.RefusalLeavesAnEngine | packages/agent/src/vllmbench_agent/reaper.py:162-173 | A refusal to kill an unverifiable process drops the record and leaves it |
| OwnershipRuns.OtherClockLeavesAnEngine | packages/agent/src/vllmbench_agent/reaper.py:52-74 | A reap that falls back to the other clock drops a live engine's record and leaves it |
| OwnershipLaws.AtMostOneEngine | packages/agent/src/vllmbench_agent/vllm_server.py:144-150 | As long as no start passes the guard over an unreaped process, of two live engines one was lost by such a step, and one agent lifetime never has two |
| OwnershipLaws.OneStartKeepsTheGuard | packages/agent/src/vllmbench_agent/vllm_server.py:228-232 | With one start outstanding at a time none does |
| OwnershipLaws.SecondEngineIff | packages/agent/src/vllmbench_agent/vllm_server.py:228-232 | With starts that overlap in any way: until one passes the guard, the state no longer STARTING or READY, while the server still has an unreaped process, a lifetime has one engine at most, and the next start makes a second exactly when it does that |
| OwnershipRuns.OverlappingStartsMakeTwoEngines | packages/agent/src/vllmbench_agent/vllm_server.py:228-232 | Such a run exists: a start that a stop overtook reopens the guard through FAILED |
| OwnershipLaws.RaisedStartLeavesNoProcess | packages/agent/src/vllmbench_agent/vllm_server.py:278-283 | A start that raised left its process dead and waited on, unless it raised while recording or lost it to a crash |
| OwnershipLaws.RaisingRecordKeepsTheEngine | packages/agent/src/vllmbench_agent/vllm_server.py:270-275 | When recording raises, then through whatever follows short of a stop or a crash the engine stays unreaped as the server's process, no record names it, and every start is refused |
| OwnershipLaws.ReturnedStartIsReadyIff | packages/agent/src/vllmbench_agent/vllm_server.py:278-285 | With one start at a time, a start that returns reports READY with its own engine, unreaped and with no stop at work on it, exactly when no stop began while it was under way |
| OwnershipLaws.ReturnedStartHasItsEngineIff | packages/agent/src/vllmbench_agent/vllm_server.py:278-285 | With starts that overlap in any way short of passing the guard over an engine, the server has the returning start's own engine, unreaped and with no stop at work on it, exactly when meanwhile no stop began and no other start waited on it |
| OwnershipRuns.StartReturnsStopped | packages/agent/src/vllmbench_agent/vllm_server.py:278-285 | A run in which a start returns with the server STOPPED and its engine killed |
| OwnershipLaws.FinishedStopLeavesNothing | packages/agent/src/vllmbench_agent/vllm_server.py:287-316 | A stop that finished leaves its engine dead, no record, and nothing unreaped of this agent lifetime, and the failing start it ran for raises |
| OwnershipLaws.RaisedStopLeavesARecord | packages/agent/src/vllmbench_agent/vllm_server.py:304-307 | A stop that re-raises the output reader's exception keeps process, record and state, though nothing of this lifetime is left unreaped, and the next start may pass |
| OwnershipLaws.IdleStopHadNothingToDo | packages/agent/src/vllmbench_agent/vllm_server.py:289-292 | A stop that finds no process changes only the state, and nothing of this lifetime was alive |
| OwnershipLaws.LateReplyIff | packages/agent/src/vllmbench_agent/vllm_server.py:444-456 | In any run the server comes to claim READY without a process exactly when a health reply arrives for a start during which a stop ran to its end, no process having been adopted since |
| OwnershipLaws.NextStartIsRefusedIff | packages/agent/src/vllmbench_agent/vllm_server.py:226-263 | Over any run, a server with no process and nothing at work refuses the next start exactly when a config file that could not be written, or a late reply, left it marked busy and no failed launch, failing readiness loop, stop or crash has cleared that since; otherwise the start goes ahead |
| OwnershipRuns.LateReplyHappens | packages/agent/src/vllmbench_agent/vllm_server.py:444-456 | Such a run exists |
| OwnershipLaws.StopHitsAStrangerIff | packages/agent/src/vllmbench_agent/vllm_server.py:294-302 | A stop signals a process other than its child exactly when the readiness loop, or a stop that raised, waited on the child earlier in the run and its pid was handed out again |
| OwnershipRuns.StopHitsAStranger | packages/agent/src/vllmbench_agent/vllm_server.py:430-436 | Such a run exists |
| Ownership.Holder | packages/agent/src/vllmbench_agent/reaper.py:77-99 | The process found at a pid holds that pid and has not been waited on, and none is found only when every past holder is gone |
| Agent.TerminateGroup | packages/agent/src/vllmbench_agent/reaper.py:199-223 | A process seen gone within the grace is never killed, another is killed once, and a survivor is reported only when every later probe still saw it |
| Agent.ProcessRegistry.Record | packages/agent/src/vllmbench_agent/reaper.py:109-124 | A failed write leaves the state file as it was; the start time comes from whichever clock could be read, and is zero when neither could |
| Agent.ProcessRegistry.Clear | packages/agent/src/vllmbench_agent/reaper.py:126-128 | The state file is gone, whatever it held |
| Agent.ProcessRegistry.ReapOrphan | packages/agent/src/vllmbench_agent/reaper.py:136-196 | Afterwards no record can be read, an unreadable file stays, and the process at the recorded pid is killed iff the verdict says so |
| Agent.VllmServer.constructor | packages/agent/src/vllmbench_agent/vllm_server.py:152-178 | A new lifetime starts from the host as the last one left it |
| Agent.VllmServer.ReapOrphans | packages/agent/src/vllmbench_agent/vllm_server.py:215-217 | The startup reap is the two protocol steps |
| Agent.VllmServer.EnterStart | packages/agent/src/vllmbench_agent/vllm_server.py:227-244 | A start gets past the guard exactly when the state is neither STARTING nor READY and there is an executable |
| Agent.VllmServer.Launch | packages/agent/src/vllmbench_agent/vllm_server.py:246-265 | A failed config write leaves the state STARTING, a failed launch makes it FAILED, both give up the lock without a process; a launched process changes neither |
| Agent.VllmServer.AdoptAndRecord | packages/agent/src/vllmbench_agent/vllm_server.py:267-276 | The process is adopted before recording and stays adopted when recording raises |
| Agent.VllmServer.Poll | packages/agent/src/vllmbench_agent/vllm_server.py:425-445 | A turn of the loop asks the server exactly when it is in time and its process is alive |
| Agent.VllmServer.OnHealth | packages/agent/src/vllmbench_agent/vllm_server.py:446-467 | A reply is acted on without another look at the process |
| Agent.VllmServer.EnterStop | packages/agent/src/vllmbench_agent/vllm_server.py:288-302 | A stop terminates exactly when there is a process |
| Agent.VllmServer.TerminateChild | packages/agent/src/vllmbench_agent/vllm_server.py:321-346 | The holder of the child's pid is signalled and the child waited on |
| Agent.VllmServer.LeaveStop | packages/agent/src/vllmbench_agent/vllm_server.py:304-316 | Record, process and lock are given up together, or only the lock when the reader's exception comes up |
| Redaction.ScrubProtectsIff | packages/protocol/src/vllmbench_protocol/logging.py:105-113 | For secrets without brackets, no registered secret is left in any text, in whatever order they are replaced, exactly when the marker's own word is not one of them |
| Redaction.NoSecretIsLeft | packages/protocol/src/vllmbench_protocol/logging.py:105-113 | No secret that cannot overlap a marker in agreement is left, whatever the order |
| Redaction.BracketlessIsTouchFree | packages/protocol/src/vllmbench_protocol/logging.py:45-45 | A secret of the minimum length without brackets cannot overlap a marker in agreement, unless it is the marker's word |
| Redaction.LoneSecretProtectedIff | packages/protocol/src/vllmbench_protocol/logging.py:105-113 | A lone secret of any shape survives in no text exactly when it neither starts inside a marker in agreement nor runs into one from text that does not contain it sooner |
| Redaction.NothingNew | packages/protocol/src/vllmbench_protocol/logging.py:112-112 | Replacing creates no occurrence of such a secret and leaves none of the replaced one |
| Redaction.ScrubbingIsIdempotent | packages/protocol/src/vllmbench_protocol/logging.py:105-113 | Scrubbing again changes nothing, and a text is unchanged exactly when it holds no secret |
| Redaction.ReplacementIsReversible | packages/protocol/src/vllmbench_protocol/logging.py:112-112 | Replacing the markers back restores a text without opening brackets: nothing but the secret is lost |
| Redaction.LogRedactor.constructor | packages/protocol/src/vllmbench_protocol/logging.py:65-65 | Nothing is registered at first |
| Redaction.LogRedactor.Redact | packages/protocol/src/vllmbench_protocol/logging.py:81-102 | Registration is additive, takes exactly the values of the minimum length, and warns exactly when a shorter one was refused |
| Redaction.LogRedactor.Scrub | packages/protocol/src/vllmbench_protocol/logging.py:105-113 | The loop replaces every registered secret once, longest first, and inherits the laws |
| Hashing.NormalFormIs | packages/api/src/vllmbench_api/hashing.py:23-26 | The normal form is the text's lines without trailing whitespace, without blank lines at the ends and without the first line's indentation, joined by LF |
| Hashing.NormalizationIsIdempotent | packages/api/src/vllmbench_api/hashing.py:23-26 | Normalizing twice is normalizing once, and two normal forms are equal exactly when those lines are |
| Hashing.SameNormalFormIff | packages/api/src/vllmbench_api/hashing.py:23-26 | The same, over lines split at any of the three endings: endings and trailing whitespace do not matter |
| Hashing.FirstIndentationIsLost | packages/api/src/vllmbench_api/hashing.py:24-26 | Indenting the first line does not change the normal form, against the docstring |
| Hashing.LinesSeen | packages/api/src/vllmbench_api/hashing.py:25-25 | After unifying endings the lines are those of the text, whatever their endings |
| StoredConfigs.StoredVariantKeepsItsFamily | packages/api/src/vllmbench_api/routers/analysis.py:145-153 | Whatever a config was written like, each width of it that a sweep stores has the family of the stored config, through both normal forms |
| StoredConfigs.VariantIsStored | packages/api/src/vllmbench_api/routers/sweeps.py:110-118 | A variant of a stored config is in normal form already |
| StoredConfigs.NormalIsStored | packages/api/src/vllmbench_api/hashing.py:23-26 | A normal form has no carriage return, no line that ends in whitespace, and starts and ends with something else, unless the text was blank |
| Hashing.SlugIsAName | packages/api/src/vllmbench_api/hashing.py:45-56 | A name has one to sixty word characters, no leading dash and no doubled one |
| Hashing.NamesAreKept | packages/api/src/vllmbench_api/hashing.py:52-56 | A text that is a name already and does not end with a dash is its own name, cut at sixty |
| Hashing.WordsAreDashed | packages/api/src/vllmbench_api/hashing.py:52-56 | A text of words with single characters between them is named character by character: capitals become lower case, letters, digits and underscores stay, anything else is a dash |
| Hashing.NamelessIsConfig | packages/api/src/vllmbench_api/hashing.py:56-56 | A text without a letter, digit or underscore is named config |
| Hashing.ReplacingKeepsCollapsed | packages/api/src/vllmbench_api/hashing.py:54-55 | A pass of the loop keeps what the dash runs collapse to |
| Hashing.ReplacingShortens | packages/api/src/vllmbench_api/hashing.py:54-55 | A pass on a text with a double dash shortens it, so the loop ends |
| Hashing.SlugOf | packages/api/src/vllmbench_api/hashing.py:45-56 | The loop ends with every dash run made one, cut at sixty |
| Hashing.FindDashes | packages/api/src/vllmbench_api/hashing.py:54-54 | A double dash is reported exactly when there is one, at its first place |
| Importers.RejoiningGivesTheSegment | packages/api/src/vllmbench_api/importers.py:76-76 | Joining the parts with dashes gives the segment back |
| Importers.PiecesAreWhole | packages/api/src/vllmbench_api/importers.py:76-76 | No part contains a dash that a key follows |
| Importers.ParametersRoundTripIff | packages/api/src/vllmbench_api/importers.py:66-84 | Printed parameters are recovered, key by key and text by text, exactly when no value has a dash followed by a key, or a newline |
| Importers.NameRoundTripIff | packages/api/src/vllmbench_api/importers.py:102-121 | A printed directory name is recovered exactly when that holds of all values and the serve part neither contains the bench marker nor ends with all of it but its last dash |
| Importers.NameIsReadIff | packages/api/src/vllmbench_api/importers.py:109-119 | A name is refused exactly when it lacks the serve marker in front, or the bench marker anywhere behind that |
| Importers.KeyAheadIff | packages/api/src/vllmbench_api/importers.py:32-32 | A part starts with a key exactly when a letter or underscore and then letters, digits, underscores and dots stand before its equals sign |
| Importers.PartIs | packages/api/src/vllmbench_api/importers.py:78-83 | A part's value loses a last newline; with a newline anywhere else the whole part is a flag |
| Importers.KeylessIsFlag | packages/api/src/vllmbench_api/importers.py:78-82 | A part without a key is a flag |
| Importers.EarlierMarker | packages/api/src/vllmbench_api/importers.py:120-120 | An earlier occurrence of the marker lies in the serve part or shares one dash with the real one |
| Importers.ParseParameters | packages/api/src/vllmbench_api/importers.py:66-84 | The loop over the parts builds the mapping the laws are about |
| Pareto.FrontierIs | packages/api/src/vllmbench_api/analysis.py:874-886 | A point is on the frontier exactly when it is measured on both axes and no such point has, on each axis, a median at least as good in that axis's direction and on one a better one; and then as often as it was given |
| Pareto.FrontierCovers | packages/api/src/vllmbench_api/analysis.py:862-873 | For every measured point the frontier has it, or one with medians at least as good on both axes and better on one |
| Pareto.FrontierIsFixed | packages/api/src/vllmbench_api/analysis.py:862-888 | The frontier of the frontier is the frontier, in the same order |
| Pareto.FrontierIsMonotone | packages/api/src/vllmbench_api/analysis.py:887-888 | Along the order the first median rises and the second only falls, or only rises when the directions differ; level on one axis means level on both |
| Pareto.SortIsASort | packages/api/src/vllmbench_api/analysis.py:887-887 | The order is ascending and loses and repeats nothing |
| Grouping.GroupBy | packages/api/src/vllmbench_api/analysis.py:834-836 | The dictionary of lists holds each record once, under its key, in the order given |
| Grouping.BuildPoints | packages/api/src/vllmbench_api/analysis.py:840-846 | The points of a group are its records by config and workload hash |
| Grouping.CollectGroups | packages/api/src/vllmbench_api/analysis.py:834-851 | The groups are the records by comparability key, each with its points |
| GroupOrder.BuildGroups | packages/api/src/vllmbench_api/analysis.py:827-854 | They are returned with the most runs first, and between equals by label |
| GroupOrder.AtMostIff | packages/api/src/vllmbench_api/analysis.py:853-853 | Labels compare by the first character in which they differ, a prefix before what it begins |
| GroupOrder.LabelReads | packages/api/src/vllmbench_api/analysis.py:351-358 | A label names the host, the GPU if it is known, the engine version or that it is unknown, and a client elsewhere than on the host |
| Grouping.InPointIff | packages/api/src/vllmbench_api/analysis.py:834-844 | A run is in a point exactly when it was given, its comparability is the group's key, and its config and workload hash are the point's |
| Grouping.ExactlyOnePoint | packages/api/src/vllmbench_api/analysis.py:827-833 | Every run is in exactly one point of exactly one group |
| Grouping.SharePointIff | packages/api/src/vllmbench_api/analysis.py:838-844 | Two runs share a point exactly when comparability, config hash and workload hash agree |
| Grouping.NoRunIsLost | packages/api/src/vllmbench_api/analysis.py:822-824 | The run counts of all groups add up to the runs given |
| Grouping.SpeedupMatchesEfficiency | packages/api/src/vllmbench_api/analysis.py:972-999 | Speedup times the baseline's device count is efficiency times the step's, and both exist exactly when the baseline measured something |
| Grouping.StepsAreRatios | packages/api/src/vllmbench_api/analysis.py:975-999 | Efficiency times the baseline's figure is the step's figure, and speedup times the baseline's total is the step's total |
| Grouping.CurveIs | packages/api/src/vllmbench_api/analysis.py:964-1000 | A curve holds exactly the measured points, each as often as given, in order of width, every step in relation to the first, which has efficiency one |
| Grouping.NoCurveIff | packages/api/src/vllmbench_api/analysis.py:966-967 | There is a curve exactly when two measured points have different widths |
| Duration.ErrorIsInTheLoads | packages/api/src/vllmbench_api/duration.py:160-181 | When every remaining workload was timed alone, the estimate is off by the number of remaining loads times the error of the load median |
| Duration.MatchedLoadsMakeItExact | packages/api/src/vllmbench_api/duration.py:160-181 | The load median is right, and nothing is warned of, when loads were timed and only on workloads also timed alone |
| DurationLaws.MajorityIsMedian | packages/api/src/vllmbench_api/duration.py:160-164 | A value that more than half of the loads show is the load median |
| DurationLaws.AlwaysExactIff | packages/api/src/vllmbench_api/duration.py:157-164 | With loads remaining and every remaining workload timed alone, the estimate is exact for all benchmark and load times exactly when fewer than half of the timed loads are on workloads never timed alone |
| DurationLaws.SilentCanMislead | packages/api/src/vllmbench_api/duration.py:166-178 | Off plans an estimate that warns of nothing can be wrong: for some timings it is, whenever half of the timed loads or more are on such workloads |
| DurationLaws.OneWorkloadLoadsIff | packages/api/src/vllmbench_api/duration.py:157-181 | When all loads, timed and remaining, are on one workload that was never timed alone and the others were, the estimate is exact exactly when a loaded run of it takes at least what it is costed at, and each remaining run of it loads or is costed right |
| DurationLaws.OneKnownWorkloadIsExact | packages/api/src/vllmbench_api/duration.py:157-181 | When that workload was timed alone too, the estimate is exact |
| PlanEstimates.ShapeHasTheLoads | packages/api/src/vllmbench_api/routers/sweeps.py:185-204 | The load flags of a plan are those its hashes give |
| PlanEstimates.LoadsOfPlan | packages/api/src/vllmbench_api/routers/sweeps.py:185-204 | In both orders every engine load of a plan falls on its first workload, and which runs load is given |
| PlanEstimates.SilentEstimatesAreExact | packages/api/src/vllmbench_api/duration.py:166-178 | On a plan in either order, whatever hashes its configs share, after any number of runs, an estimate that warns of nothing is exact for all benchmark and load times |
| PlanEstimates.GroupedReplicatesAreExact | packages/api/src/vllmbench_api/routers/sweeps.py:185-204 | With replicates grouped, at least two, the estimate is exact from the end of the first config's block on |
| PlanEstimates.AlwaysLoadedIsExactIff | packages/api/src/vllmbench_api/routers/sweeps.py:185-204 | With single runs grouped, or replicates interleaved over several configs, it is exact from the end of the first block on exactly when no run of the first workload is left or a loaded one takes at least the median benchmark: then the two errors cancel |
| PlanEstimates.SingleWorkloadIsExact | packages/api/src/vllmbench_api/routers/sweeps.py:185-204 | With one workload that always loads, it is exact |
| PlanEstimates.SingleConfigIsExactIff | packages/api/src/vllmbench_api/routers/sweeps.py:185-204 | With one config interleaved it is exact past the first round, and at its end exactly when the first workload takes the median of the others |
| Duration.EstimatedIff | packages/api/src/vllmbench_api/duration.py:107-147 | There is no estimate exactly when runs remain and none has finished, or only loaded runs have and some remaining run needs no load |
| Duration.SortedForMedian | packages/api/src/vllmbench_api/duration.py:86-88 | The values a median is read from are all of those given, ascending |
| Duration.MedianIs | packages/api/src/vllmbench_api/duration.py:86-88 | The median is the middle of any ascending order of the values, or halfway between the two in the middle |
| Duration.SecondsAreCounted | packages/api/src/vllmbench_api/duration.py:119-126 | Each timing counts towards a median on its own, equal ones too |
| Duration.WholeRunsAre | packages/api/src/vllmbench_api/duration.py:125-147 | When only loaded runs were seen and only such remain, each costs the median of those seen |
| Duration.WholeRunsAreExact | packages/api/src/vllmbench_api/duration.py:121-147 | When only loaded runs were seen, counting whole runs is exact for one workload whose every run loads an engine |
| Duration.SilentIff | packages/api/src/vllmbench_api/duration.py:166-178 | Nothing is warned of exactly when every remaining workload was timed alone and, if loads remain, a load was timed |
| Duration.PartsWarnings | packages/api/src/vllmbench_api/duration.py:166-178 | What is warned of: how many workloads still to run were never timed alone, and how many loads remain when none was timed |
| Duration.ReportIs | packages/api/src/vllmbench_api/duration.py:102-192 | What stands beside the figure: what was counted, what it rests on, the medians, and the warning when parts could not be separated |
| Duration.MediansByWorkload | packages/api/src/vllmbench_api/duration.py:151-155 | The loop gives each workload timed alone its own median |
| Duration.EstimateOver | packages/api/src/vllmbench_api/duration.py:151-192 | The loops over overheads, costs and caveats give the estimate from the workloads' medians |
| Duration.EstimateTime | packages/api/src/vllmbench_api/duration.py:91-192 | The branches and loops give the estimate the laws are about |

## Left out

- PlanRefinement.ExecutorMeetsThePlan: nothing goes wrong for the sweep's own runs; what a failure changes is stated poll by poll in `RunnerTrace`.
- PlanEstimates.GroupedReplicatesAreExact: the runs done all succeeded, since failed ones are neither timed nor remaining; `DurationLaws` has the condition for any timings.
- PlanEstimates.ShapeHasTheLoads: for configs with distinct hashes, and so are the exact conditions read off it; configs that share one load less often. `PlanEstimates.SilentEstimatesAreExact` is for any hashes.
- OwnershipLaws.ReturnedStartIsReadyIff: that the state reported is READY is stated for one outstanding start; with overlapping ones another start's failure or success may have set it last, and `OwnershipLaws.ReturnedStartHasItsEngineIff` speaks of the engine only.
- GroupOrder.BuildGroups: the order of points within a group and the group warnings are not modelled; points come in the order first seen.
- Grouping.CurveIs: the points of one configuration family under one workload are given; collecting them into curves and the order of curves are not modelled.
- TelemetrySpacing.IntervalDescribesSpacingIff: a tick runs at its slot; the delay between a wake-up and the clock reading stored with the sample is not modelled.
- Redaction.NoSecretIsLeft: for several secrets that contain brackets the condition is sufficient only, because whether one survives then depends on the others; a lone secret and sets without brackets have the exact condition.
- Importers.NameRoundTripIff: compares raw value texts; turning them into numbers, booleans and nulls is not modelled.
- Duration.EstimateTime: arithmetic is over the reals, without rounding.
- ConfigText.DeclaredParallelism: numbers are ASCII digits with sign and underscores; other Unicode digits are not modelled.
- Hashing.SlugOf: letters and digits are ASCII; Unicode classes and case folding are not modelled.
- Line separators other than LF, CR and CRLF, and whitespace other than blank, tab, CR and LF.
- Failures of a database commit, and of unlinking the ownership record.
- OwnershipLaws.RaisedStopLeavesARecord: whether the output reader has failed is the environment's choice at each stop; that a failed one fails every stop until a start replaces it is not modelled.
- Cancellation of the coroutine that runs a start; a crash of the agent at the same points is modelled.
- Worker processes of an engine: a process group is one process.
- An engine that dies while no call observes it: the orchestrator sees the agent's last report. The orchestrator and the agent's protocol are two models; an answered start is the only place they meet, and there the first allows any report.
- Provenance fields of a run, log text, and the agent's collection of output lines and root causes.
- The order in which waiting coroutines get the lock: any order is allowed, which only adds runs.
- HTTP clients, GPU counters, process spawning, YAML parsing and hash functions: environment answers or library code.
- The database schema, HTTP routers, web interface, report rendering and retention.
- Early kills of the orchestrator in `RunnerTrace` and `PlanRefinement`: they are in `RunnerKills` alone.
- `bound` and the log formatters, `build_points`, `summarize`, `imbalance` and `config_diff`: easy members beside those proved.
