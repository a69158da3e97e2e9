# Verified models of the workload handoff, the watchdog, service bring-up and placeholder expansion

This project models four parts of the repository and proves what they promise.

* **The workload lease** (`WorkloadLease`, `LeaseInvariant`, `LeaseSafety`, `LeaseTales`, `LeaseReports`, `JobQueue`):
  the optional-workload supervisor, the guarded `recover` command and the independent CI dispatcher share one `flock`
  lease. They are a transition system over any number of processes. `Local` is the program text of the entry points,
  one program point at a time; `Next` interleaves the processes, their children and the outside world, and lets any
  process die between any two steps. `Execute` runs any list of actions from an empty state directory. What every tick
  of a supervisor was told, and when, is recorded by the system and not by the program (`Trail`). An inductive
  invariant is kept by every transition, and the safety results are about every run. A second one (`LeaseTales`,
  `LeaseReports`) ties every published status, every command and every exit to what its author had been told and done.
  The two readings of the job queue are modelled separately, with their page loops.
* **The watchdog** (`WatchEvents`, `WatchCycle`, `Scheduler`): one cycle over any stream of command outcomes, clock
  delays and shutdown times, then the scheduler for any number of passes. A cycle's contract ties its acts to the
  commands' answers, its log to its acts, and its ending to a reason; the scheduler's contract accounts for
  everything a process wrote and ran, cycle by cycle, up to the one that a shutdown or an error cut short, and says
  when each pass comes.
* **The watchdog's statistics** (`LogText`, `LogRecords`, `WatchStats`, `CycleStats`, `StatsReport`, `ReportMeaning`,
  `StatsListing`, `CycleWitnesses`, `RunStatistics`): what is rebuilt from the log text alone agrees with a direct
  count over the cycles that wrote it, for any interleaving of watches. `RunStatistics` joins it to the scheduler: the
  log of every process is one that the statistics read correctly.
* **Service bring-up and placeholders** (`DependencyOrder`, `BringUp`, `MempoolRecovery`, `Text`, `Placeholders`): the
  depth-first search proved against paths in the dependency graph, the plan and the readiness ladder, and the index
  scanner proved equal to splitting into tokens and rendering them.

## Assumptions

* Optional containers appear only while a start-command child is alive (it holds the inherited descriptor). Anything
  may vanish at any time. Clocks never go back. Only the modelled code writes `status.json`, `last-start.json` and
  `runner-finished.json`. A pid is not used again. The state directory starts empty.
* In the lease model, the pressure reading, the process list, foreign containers and the queue's answer are arbitrary
  inputs of each step, and so is any command failure; owned containers are listed exactly.
* In the watchdog model, a command takes at least one tick of the monotonic clock. That makes the stabilization loop
  terminate even when `recovery_poll` is zero. Durations are nanoseconds.
* A timestamp's text is given by a codec that, for the instants it can represent, parses what it formats and never
  writes `]`. Section 5.6 of RFC 3339 satisfies this for the years 0 to 9999; log lines carry such instants.

## Where the code differs from what one might expect

* Without a confirmation delay no outage is ever counted, whatever happened
  (`StatsReport.UnconfirmedOutagesAreNotCounted`). A cycle that repaired its service is such a case
  (`CycleWitnesses.RepairGoesUncounted`).
* A recovery deferred with exit status 75 ends the cycle quietly but counts as a failed command
  (`CycleStats.IsFailure`, `StatsReport.ReportAgreesWithCycles`).
* After an unrecovered outcome the last known state reads `state=unhealthy`; it is a state name exactly when the last
  line that told a state was not such an outcome (`StatsReport.LastStateIsLabel`,
  `CycleWitnesses.UnrecoveredStateIsNoName`).
* Validation does not ask for distinct watch names. In every pass a watch gets a cycle exactly when it is the first of
  its name and was due (`Scheduler.PassServesTheDue`), so a namesake never gets one (`Scheduler.NamesakeIsStarved`).
* A report can list a watch that never logged anything, because another's error text named it
  (`StatsListing.ErrorTextListsAGhost`, with the exact condition in `StatsListing.ListedIsMentioned`).
* Validation does not forbid white space in a watch name, and such a name is not read back
  (`LogText.WatchSurvivesWhenSolid`).
* The dispatcher's hint does not read an absent project list as an empty one, the supervisor does
  (`JobQueue.QueueFalseMeetsHint`).
* A project with exactly ten full pages and no eligible job is a deferral, not a no
  (`JobQueue.QueueAnswersTheSnapshot`).
* Expanding piecewise is right unless a `$` meets a `{`, or a `\` meets a `${`, at the seam
  (`Placeholders.ExpandConcat`). At a backslash seam it never is when the joined text expands
  (`Placeholders.BackslashSeamNeverSplits`); at a dollar seam only by accident
  (`Placeholders.DollarSeamSplitsByAccident`).

## Model

| member | source | states |
|---|---|---|
| LeaseInvariant.LocalIsLegal | contrib/workload-handoff/handoff.py:163-317 | every program point of every role makes only moves the lease discipline allows: files and children only inside the lease section, a runner only after the owned containers were seen gone |
| LeaseInvariant.StarterExcludes | contrib/workload-handoff/handoff.py:228-245 | while a start command is alive no runner is, and no process stands between its emptiness check and its runner |
| LeaseInvariant.LocalSights | contrib/workload-handoff/handoff.py:270-309 | every move of a supervisor keeps what its ticks told it in step with `normal_since`: clean from a tick that was over by then, complete ticks only |
| LeaseInvariant.LocalNote | contrib/workload-handoff/handoff.py:270-317 | each move of each program keeps what its process has established: the ticks clean since `normal_since`, the settling, cooldown, finish and readiness checks it passed |
| LeaseInvariant.CommitKeepsShape | contrib/workload-handoff/handoff.py:31-46 | each effect keeps at most one locking description, held by every runner and starter, and at most one parent waiting for it |
| LeaseInvariant.NextKeepsInv | contrib/workload-handoff/handoff.py:163-317 | every action of every process, child, crash, signal and clock keeps the whole invariant |
| LeaseInvariant.ExecuteKeepsInv | contrib/workload-handoff/handoff.py:337-380 | every reachable state satisfies the invariant |
| LeaseSafety.LiveChildHoldsLease | contrib/workload-handoff/handoff.py:43-46 | a live runner or start command holds the only locking description even after its parent died, and any process inside a lease section is its waiting parent |
| LeaseSafety.RunnerExcludesOptional | contrib/workload-handoff/handoff.py:247-268 | in no reachable state is a runner alive together with an optional container, a start command or another runner |
| LeaseSafety.TickStartsAreSettled | contrib/workload-handoff/handoff.py:298-317 | a tick starts the workload only when not dry-running and `settle_seconds` after an instant by which some tick was over, it and all later ticks of that supervisor being clean, paused ones included; whatever was amiss was seen by that instant |
| LeaseSafety.RecoverStartsAreReady | contrib/workload-handoff/handoff.py:173-226 | a start by `recover` read, in the lease section it starts in, the latest status, 0 to 150 seconds old, published by a supervisor settled in the same sense and not dry-running; no dispatcher ever starts it |
| LeaseSafety.StartsRespectCooldown | contrib/workload-handoff/handoff.py:208-242 | start stamps are a cooldown apart across all processes and restarts, and every start command follows a stamp of its own |
| LeaseSafety.StartsAvoidFinishes | contrib/workload-handoff/runner_dispatch.py:172-180 | no start command is issued within `settle_seconds` after a dispatcher's finish stamp |
| LeaseSafety.SomeTickStarts | contrib/workload-handoff/handoff.py:314-317 | the guarantees are not empty: in some run a tick does start the workload |
| LeaseSafety.SomeRecoverStarts | contrib/workload-handoff/handoff.py:221-226 | and in some run, after the supervisor died, `recover` does |
| LeaseTales.StopsBeforeSaying | contrib/workload-handoff/handoff.py:163-171 | between its emptiness check and the status that follows it, a process reaches no point where containers may be back |
| LeaseReports.StepKeepsTales | contrib/workload-handoff/handoff.py:163-317 | every step of every program keeps what its process has been told, seen, said and asked of the stamps, for each of its program points |
| LeaseReports.StatusIsSwept | contrib/workload-handoff/handoff.py:270-297 | a supervisor that is not dry-running says memory pressure, other containers, runner active, manual pause or CI pending only when no optional container is there |
| LeaseReports.StatusIsTruthful | contrib/workload-handoff/handoff.py:270-317 | every status says what its author's tick was told: the look, the queue, the pause file, the age of both stamps, how the stop or start command ended; a job's beginning is followed by its end |
| LeaseReports.CommandsAreChecked | contrib/workload-handoff/handoff.py:228-268 | each runner, start and stop command comes after all its program asks for: not asked to stop, protected workload healthy in the same lease section, pressure, foreign work, stamps, the time since the supervisor's own last start or runner; a stop is announced and has a reason; a runner has no container beside it |
| LeaseReports.CommandKeepsLease | contrib/workload-handoff/handoff.py:163-171 | while a start, runner or announced stop command is alive, even after its parent died, nobody else is in a lease section but its waiting parent |
| LeaseReports.DispatcherIsBounded | contrib/workload-handoff/runner_dispatch.py:190-202 | a dispatcher launches at most as many runners as it was allowed, and a probing one nothing |
| LeaseReports.RunnersAreSeparated | contrib/workload-handoff/runner_dispatch.py:172-188 | between two runners of one dispatcher there is a finish stamp, an exit status 0 and a health check |
| LeaseReports.ExitsAreJustified | contrib/workload-handoff/handoff.py:173-226 | exit status 0 of the gate means that every condition of a recovery held and the status was at most 150 seconds old; of `recover`, that the start besides ended well; of a dispatcher, that its commands did; otherwise it is 75 |
| LeaseReports.SomeTickSweeps | contrib/workload-handoff/handoff.py:270-281 | in some run a container is up under memory pressure, is stopped, and the pressure is then reported |
| LeaseReports.SomeGateSaysYes | contrib/workload-handoff/handoff.py:217-219 | and in some run the gate answers yes |
| JobQueue.AnyEligible | contrib/workload-handoff/handoff.py:74-79 | the search over one page ends at the first eligible or unreadable job |
| JobQueue.SortedEqual | contrib/workload-handoff/handoff.py:141-143 | comparing the sorted project lists compares them as multisets |
| JobQueue.Queue | contrib/workload-handoff/handoff.py:131-161 | the nested page loops compute the reading described by the lemmas below, each error in its order |
| JobQueue.QueueHint | contrib/workload-handoff/runner_dispatch.py:91-122 | the dispatcher's loops compute its reading, yes on every doubt |
| JobQueue.SuitsMeansTakes | contrib/workload-handoff/handoff.py:74-79 | a job is eligible exactly when its set of tags is part of the runner's, or when it has none and the runner takes untagged jobs |
| JobQueue.FirstJobDecides | contrib/workload-handoff/handoff.py:155-157 | the first job of a page that can be taken or cannot be read decides it |
| JobQueue.PagesSeeTheQueue | contrib/workload-handoff/handoff.py:150-160 | paging a stable queue sees exactly its first thousand jobs: found, quiet, or a page-limit deferral |
| JobQueue.FirstNotQuiet | contrib/workload-handoff/handoff.py:149-161 | the verdict on a list of projects is that of the first one that is not quiet |
| JobQueue.QueueAnswersTheSnapshot | contrib/workload-handoff/handoff.py:131-161 | exactly when `queue` answers no, yes or defers on a stable snapshot with the runner in scope and idle |
| JobQueue.QueueNeedsScope | contrib/workload-handoff/handoff.py:131-148 | which misconfiguration, changed project list or running job defers the reading, in the order of the checks |
| JobQueue.NoHintNeedsScope | contrib/workload-handoff/runner_dispatch.py:91-122 | the hint says no only for the configured runner, paused or with exactly the configured projects |
| JobQueue.QueueImpliesHint | contrib/workload-handoff/runner_dispatch.py:91-122 | whatever the API answers, when `queue` says yes so does `queue_hint` |
| JobQueue.QueueFalseMeetsHint | contrib/workload-handoff/runner_dispatch.py:91-122 | when `queue` says no, the hint agrees exactly unless an unpaused runner lists no projects field |
| JobQueue.HintFalseMeansNothing | contrib/workload-handoff/runner_dispatch.py:91-122 | on a stable queue the hint says no only when the runner is paused or no project has an eligible job |
| WatchCycle.RecoveryAllowed | crates/belter-watchdog/src/main.rs:906-939 | allowed only on a granted admission without shutdown; otherwise a refusal line closes the log, a shutdown was requested, or the command could not be run |
| WatchCycle.RunDiagnose | crates/belter-watchdog/src/main.rs:1007-1022 | one command and exactly one diagnosis in the trace, healthy or syncing exactly when the command's output says so; interrupted only by a shutdown |
| WatchCycle.FinishWith | crates/belter-watchdog/src/main.rs:941-981 | the outcome lines that are owed, a cooldown line only when there is one, and the longer of interval and cooldown |
| WatchCycle.Poll | crates/belter-watchdog/src/main.rs:852-874 | one poll: refused, interrupted, ended by an outcome, or one more unhealthy check |
| WatchCycle.Stabilize | crates/belter-watchdog/src/main.rs:844-903 | the polling loop terminates, gives up only after the whole stabilization time, never sleeps longer than the poll and in all no longer than that time |
| WatchCycle.CheckRecovery | crates/belter-watchdog/src/main.rs:813-843 | the post-check leads to recovered, stabilizing, polling or a refusal without the cooldown |
| WatchCycle.Conclude | crates/belter-watchdog/src/main.rs:786-811 | the recovery's end is reported; a deferral closes the cycle, a failure is logged before the check |
| WatchCycle.Repair | crates/belter-watchdog/src/main.rs:771-785 | the admission is rechecked right before the recovery |
| WatchCycle.ConfirmThenRepair | crates/belter-watchdog/src/main.rs:739-769 | a second, admitted and unhealthy diagnosis before any recovery |
| WatchCycle.RunWatchCycle | crates/belter-watchdog/src/main.rs:714-904 | the acts are what the commands answered, asked in the prescribed order, the log tells them in the language of cycles, delay and error are explained by the log, and only a shutdown or an unrunnable command ends it early; it takes time unless a shutdown is requested, and sleeps only for the confirmation delay and then the polls |
| WatchCycle.RecoveryIsConfirmed | crates/belter-watchdog/src/main.rs:714-785 | recovery runs at most once and only after one diagnosis, two when confirming, all unhealthy |
| WatchCycle.CommandsAreAdmitted | crates/belter-watchdog/src/main.rs:906-939 | with an admission command, every diagnosis and the recovery come right after an admission that exited 0 in time |
| WatchCycle.DiagnosesAreRight | crates/belter-watchdog/src/main.rs:1024-1058 | a diagnosis is healthy exactly when its command was in time, ended with the required code if one is required and gave the expected value if one is; syncing exactly when the value is a configured transitional one instead |
| WatchCycle.RecoveryFollowsFailures | crates/belter-watchdog/src/main.rs:735-785 | a recovery follows only outputs that say neither |
| WatchCycle.DeferredRecoveryIsLast | crates/belter-watchdog/src/main.rs:800-811 | a recovery deferred with status 75 in time is the last command of its cycle |
| WatchCycle.RefusalsSayWhy | crates/belter-watchdog/src/main.rs:920-938 | the log says paused exactly for an admission that ended with 75 in time, blocked for any other that is no grant |
| WatchCycle.ChecksAreNumbered | crates/belter-watchdog/src/main.rs:844-875 | the stabilization checks of a log are counted by their attempt numbers |
| WatchCycle.ChecksAreBounded | crates/belter-watchdog/src/main.rs:844-875 | at most ceil(stabilization / poll) checks, however long commands take |
| Scheduler.FoundDue | crates/belter-watchdog/src/main.rs:674-678 | in the middle of a pass a watch is found due exactly when it was due at the start and is the first of its name |
| Scheduler.DueListIsExact | crates/belter-watchdog/src/main.rs:674-678 | the due list holds exactly the due watches that are the first of their name, in order |
| Scheduler.PassServesTheDue | crates/belter-watchdog/src/main.rs:668-701 | a finished pass gives a cycle to exactly the watches that were due at its start and are the first of their name, one each, in order |
| Scheduler.NamesakeIsStarved | crates/belter-watchdog/src/main.rs:674-678 | of two watches with one name the second never gets a cycle, and the first gets its own |
| Scheduler.CyclesWait | crates/belter-watchdog/src/main.rs:680-700 | a cycle starts no earlier than the end of any earlier one of its name plus the interval, or plus the longer of interval and cooldown after an outcome or an error |
| Scheduler.PassesComeInTime | crates/belter-watchdog/src/main.rs:702-710 | each pass comes within a second of the one before, and no later than the next check of any watch, the clock's delays aside |
| Scheduler.CyclesComeInTime | crates/belter-watchdog/src/main.rs:665-710 | after the latest cycle of a name the next pass runs its watch again exactly when the wait after that cycle is over, and comes as soon as it is, unless a pass is still busy |
| Scheduler.Watchdog.RunDue | crates/belter-watchdog/src/main.rs:680-700 | one due watch gets one whole cycle, which is what the log, trace and commands gained; its next check counts from the cycle's end, and an error is logged unless running once |
| Scheduler.Watchdog.Pass | crates/belter-watchdog/src/main.rs:659-701 | a pass runs exactly the cycles that are due, accounts for all it logged and ran, aims its pause at the earliest next check or the default interval, and stops only for a shutdown or an error in a single run |
| Scheduler.Watchdog.RunWatchdog | crates/belter-watchdog/src/main.rs:646-712 | without an enabled watch it refuses to run; for any number of passes the log, trace and commands are those of the recorded cycles, the cut one and the shutdown; the passes follow each other with pauses of at most a second that end at the earliest next check; a single run gives every first watch of a name its cycle |
| LogText.ParseLogEvent | crates/belter-watchdog/src/main.rs:1502-1522 | the parser computes the reading that the round trips below are about |
| LogText.WordsApart | crates/belter-watchdog/src/main.rs:1508 | splitting at white space works piecewise |
| LogText.LineRoundTrip | crates/belter-watchdog/src/main.rs:1763-1772 | a formatted line of `key=value` words with distinct keys gives back its timestamp, event, watch and exactly its fields, values holding `=` included |
| LogText.LineIsRead | crates/belter-watchdog/src/main.rs:1502-1522 | a formatted line is always read with its own timestamp and event, whatever its detail |
| LogText.WatchSurvivesWhenSolid | crates/belter-watchdog/src/main.rs:1763-1772 | the watch is read back exactly when its name has no white space |
| LogRecords.Sanitize | crates/belter-watchdog/src/main.rs:1759-1761 | a detail never breaks its line and keeps every other character |
| LogRecords.CodeIsZero | crates/belter-watchdog/src/main.rs:1755-1757 | the exit code's text is `0` exactly for exit status 0 |
| LogRecords.DecimalIsValue | crates/belter-watchdog/src/main.rs:740-746 | a number in a line is the number that was meant |
| LogRecords.TrimCuts | crates/belter-watchdog/src/main.rs:996-1002 | the error text loses white space at both ends and nothing else |
| LogRecords.EntryRoundTrip | crates/belter-watchdog/src/main.rs:1763-1772 | every line of a cycle but the one with error text is read back as it was written |
| WatchStats.WatchStatsBuilder.Apply | crates/belter-watchdog/src/main.rs:1362-1426 | the new state after one record, by the kind of the record |
| WatchStats.WatchStatsBuilder.Finish | crates/belter-watchdog/src/main.rs:1428-1499 | the report of the tally, with the open incident closed and the incidents sorted |
| WatchStats.SortedIsStable | crates/belter-watchdog/src/main.rs:1433 | sorting permutes the incidents, orders them by outage, and keeps simultaneous ones in order |
| WatchStats.ReportCounts | crates/belter-watchdog/src/main.rs:1434-1462 | the counts are those of all incidents in any order, and recovered plus unrecovered is confirmed |
| WatchStats.RecoveryTimesAreOrdered | crates/belter-watchdog/src/main.rs:1463-1486 | recovery times: absent, or 0 <= least <= average <= greatest |
| WatchStats.RecoverySecondsAreKept | crates/belter-watchdog/src/main.rs:1463-1467 | with a clock that does not go back every recovered incident has its time |
| WatchStats.AverageWithin | crates/belter-watchdog/src/main.rs:1529-1535 | the truncated average lies between least and greatest, and the sum between it and the next whole second for each value |
| WatchStats.GapsTelescope | crates/belter-watchdog/src/main.rs:1468-1472 | sorted, no gap is lost and the gaps add up to no more than the whole span |
| WatchStats.AverageGapFits | crates/belter-watchdog/src/main.rs:1487-1489 | least <= average <= greatest gap, and the average times the number of gaps fits in the whole seconds from first to last outage |
| ReportMeaning.SecondsAreWhole | crates/belter-watchdog/src/main.rs:1524-1527 | the time between two instants is the whole seconds in it, and absent when the clock went back by a second or more |
| ReportMeaning.RecoveryFigures | crates/belter-watchdog/src/main.rs:1463-1486 | average, least and greatest recovery time are those of the incidents' own outage and recovery instants |
| ReportMeaning.GapFigures | crates/belter-watchdog/src/main.rs:1468-1489 | average, least and greatest gap are those of neighbouring outages |
| ReportMeaning.LastFigures | crates/belter-watchdog/src/main.rs:1490-1498 | the last outage is the latest one, the last recovery that of the latest recovered incident |
| CycleStats.PrefixTells | crates/belter-watchdog/src/main.rs:1377-1425 | at every point of a cycle the builder holds the incident its lines describe so far, open until it healed |
| CycleStats.CycleTells | crates/belter-watchdog/src/main.rs:1377-1425 | a whole cycle adds exactly the incident read straight from its own lines, if it confirmed an outage, and nothing otherwise |
| CycleStats.CountsAgree | crates/belter-watchdog/src/main.rs:1434-1462 | confirmed, recovered, attempted and failed counts are counts over cycles, never double |
| CycleStats.UnconfirmedCyclesTellNothing | crates/belter-watchdog/src/main.rs:739-768 | without a confirmation delay the builder records nothing |
| StatsReport.SpanIsTight | crates/belter-watchdog/src/main.rs:1320-1332 | the span of a report holds all its records and is no wider |
| StatsReport.BeforeIsLexicographic | crates/belter-watchdog/src/main.rs:1316 | the order of the report's watches is that of their names, character by character |
| StatsReport.Dispatch | crates/belter-watchdog/src/main.rs:1336-1339 | a record reaches the builder of its own watch and no other |
| StatsReport.FinishAll | crates/belter-watchdog/src/main.rs:1342-1352 | one report for each listed watch, and totals that are their sums |
| StatsReport.BuildStatsReport | crates/belter-watchdog/src/main.rs:1311-1359 | the report over a log text: time span of all records, exactly the watches mentioned and admitted by the filter, in the order of their names, each from its own records |
| StatsReport.FilteredIsEntry | crates/belter-watchdog/src/main.rs:1333-1335 | the filtered report is the entry of the unfiltered one, with the same span |
| StatsReport.EntryIsOwn | crates/belter-watchdog/src/main.rs:1336-1339 | a watch's entry depends only on its own records, however the lines interleave |
| StatsReport.TotalsBalance | crates/belter-watchdog/src/main.rs:1342-1352 | in the totals recovered plus unrecovered is confirmed, and attempts and failures do not exceed it |
| StatsReport.LineIsRead | crates/belter-watchdog/src/main.rs:1774-1800 | each kind of line the watchdog writes is read as its record, as a record that counts nothing, or not at all |
| StatsReport.LogTells | crates/belter-watchdog/src/main.rs:1320-1340 | for every interleaving of watches the records read back tally to what the watch itself logged, even when error text names the watch |
| StatsListing.ListedIsMentioned | crates/belter-watchdog/src/main.rs:1336-1339 | a name is listed exactly when some line mentions it, in its own place or last in another's free text |
| StatsListing.LoggedIsListed | crates/belter-watchdog/src/main.rs:1336-1339 | a watch that logged anything but error text is listed |
| StatsListing.ErrorTextListsAGhost | crates/belter-watchdog/src/main.rs:1502-1522 | one error line whose text names a watch lists that watch, though it logged nothing |
| StatsReport.ReportAgreesWithCycles | crates/belter-watchdog/src/main.rs:1311-1359 | from the log text alone the report counts the cycles that confirmed an outage, logged a recovery, attempted one and logged a failed command |
| StatsReport.UnconfirmedOutagesAreNotCounted | crates/belter-watchdog/src/main.rs:739-768 | without a confirmation delay every count of the report is zero |
| StatsReport.LastStateIsLabel | crates/belter-watchdog/src/main.rs:877-887 | the last known state is a state name exactly when the last line telling one was not an unrecovered outcome |
| CycleWitnesses.RepairGoesUncounted | crates/belter-watchdog/src/main.rs:739-768 | a cycle without a confirmation delay attempts and logs a recovery, and the report counts nothing |
| CycleWitnesses.UnrecoveredStateIsNoName | crates/belter-watchdog/src/main.rs:877-887 | a cycle that gives up leaves the last state `state=unhealthy` |
| RunStatistics.LogIsTold | crates/belter-watchdog/src/main.rs:646-712 | the lines of one name in a process's log are those of its cycles in order, however the watches interleave and however the process ended |
| RunStatistics.LogIsCycles | crates/belter-watchdog/src/main.rs:646-712 | those lines are whole cycles in the language that the statistics are proved about |
| RunStatistics.RestartsJoin | crates/belter-watchdog/src/main.rs:584-598 | a process that appends to the log of an earlier one leaves whole cycles again |
| RunStatistics.ReportCountsRuns | crates/belter-watchdog/src/main.rs:1311-1359 | the report over the text of any process's log counts that watch's runs that confirmed an outage, logged a recovery, attempted one and logged a failed command |
| RunStatistics.RunProcess | crates/belter-watchdog/src/main.rs:646-712 | a process with an empty log leaves one that these results are about |
| DependencyOrder.DependencyWalk.Visit | crates/infractl-cli/src/commands/service.rs:1287-1313 | the search keeps the visited set, the stack and the order in step with the graph, and fails only on a real cycle or a missing service |
| DependencyOrder.ResolveBringUpOrder | crates/infractl-cli/src/commands/service.rs:1279-1285 | succeeds exactly when all reachable services exist and lie on no cycle; then lists exactly them, once, dependencies first and in the listed order, the target last |
| DependencyOrder.ListedOrderIsKept | crates/infractl-cli/src/commands/service.rs:1304-1311 | a dependency listed later stands first only when one listed up to the other needs it |
| DependencyOrder.NoCycleInside | crates/infractl-cli/src/commands/service.rs:1287-1313 | an order with dependencies first contains no cycle |
| DependencyOrder.DependencyComesBefore | crates/infractl-cli/src/commands/service.rs:1304-1311 | every transitive dependency stands before its dependents |
| BringUp.BuildBringUpPlan | crates/infractl-cli/src/commands/service.rs:1315-1378 | fails exactly at the first service that cannot be planned; otherwise realizes the chosen steps in order |
| BringUp.StepsExactly | crates/infractl-cli/src/commands/service.rs:1315-1378 | a service gets a step exactly when it is in the order and an action was chosen for it |
| BringUp.StepsRespectDependencies | crates/infractl-cli/src/commands/service.rs:1315-1378 | at most one operation per service, a dependency's before its dependents' |
| BringUp.StepsByState | crates/infractl-cli/src/commands/service.rs:1474-1488 | which runtime states start, restart or leave a service alone, and that a dry run starts everything |
| BringUp.DryRunPlansAll | crates/infractl-cli/src/commands/service.rs:1315-1378 | a dry run has exactly one step per service of the order |
| BringUp.PlanBringUp | crates/infractl-cli/src/commands/service.rs:1031-1057 | succeeds exactly when everything reachable exists, lies on no cycle and can be planned, with a sound plan |
| MempoolRecovery.RuntimeService | crates/infractl-cli/src/commands/service.rs:1500-1513 | the first dependency run by a podman machine, if there is one |
| MempoolRecovery.Session.Execute | crates/infractl-adapters/src/executor.rs:27-76 | operations run in order up to exactly the first that fails |
| MempoolRecovery.Session.WaitForReadiness | crates/infractl-cli/src/commands/service.rs:1537-1555 | ready exactly when the last probe was, after at most five probes and the doubling pauses between them |
| MempoolRecovery.Session.ExecuteServiceAction | crates/infractl-cli/src/commands/service.rs:1235-1254 | one more operation, reported exactly when it ran; it fails exactly when it cannot be planned or the operation fails |
| MempoolRecovery.Session.RetryService | crates/infractl-cli/src/commands/service.rs:1133-1172 | mempool is restarted once exactly when its state had been unknown; still failing exactly when that was not done or five more probes fail |
| MempoolRecovery.Session.RetryRuntime | crates/infractl-cli/src/commands/service.rs:1174-1233 | succeeds exactly when a machine is degraded, it is restarted and the service started again, and one of five more probes is not failing; otherwise why, what ran and how often it probed |
| MempoolRecovery.Session.Recover | crates/infractl-cli/src/commands/service.rs:1116-1131 | succeeds exactly when one of five probes does, or the restart of an unknown mempool or the degraded machine helps, within 3 waits, 15 probes, 3 extra actions and 45 seconds of pauses |
| MempoolRecovery.Session.BringUpService | crates/infractl-cli/src/commands/service.rs:1031-1114 | on success the reported plan is what ran, in order, and mempool's last probe was ready or syncing; a bring-up that can be planned fails exactly when a planned operation fails, then what ran is what stands before it, or the ladder does not help mempool |
| Placeholders.TokensSpellTheText | crates/infractl-core/src/env.rs:46-107 | the tokens of a text spell it and obey the grammar |
| Placeholders.TokensAreUnique | crates/infractl-core/src/env.rs:46-107 | no other lawful token sequence spells the text |
| Placeholders.ExpandPlaceholders | crates/infractl-core/src/env.rs:46-107 | the index scanner equals tokenise, then render, with the same errors |
| Placeholders.PlaceholderMeans | crates/infractl-core/src/env.rs:78-101 | a placeholder gives its variable's value, or else the text after its first `:-`; nothing between the braces, nothing before the `:-`, and neither value nor default are errors |
| Placeholders.EveryHoleSplits | crates/infractl-core/src/env.rs:82-85 | every text between braces reads as a key alone or a key and a default |
| Placeholders.OpenerMustClose | crates/infractl-core/src/env.rs:64-76 | an opener that is never closed is an error |
| Placeholders.ExpandUndoesEscaping | crates/infractl-core/src/env.rs:46-107 | expanding a text with its openers escaped gives the text back |
| Placeholders.ExpandConcat | crates/infractl-core/src/env.rs:46-107 | after a text that expands, expansion goes on with the rest alone, unless an opener straddles the seam |
| Placeholders.BackslashSeamNeverSplits | crates/infractl-core/src/env.rs:58-62 | a backslash before an opener never expands piecewise when the joined text expands |
| Placeholders.DollarSeamSplitsByAccident | crates/infractl-core/src/env.rs:64-101 | a dollar before a brace expands piecewise exactly when the value is the placeholder's own text |
| Placeholders.ValuesAreNotRescanned | crates/infractl-core/src/env.rs:46-107 | a substituted value is copied out untouched, whatever it looks like |

## Left out

- WorkloadLease: the classes of `handoff.py` and `runner_dispatch.py` are a transition system on values rather than Dafny classes, because their methods interleave with other processes and can be cut short at every step; their fields are the `Memory` of a process.
- `run --once` is a supervisor that dies after its first tick; its own exit is not modelled, and neither is the text of a deferral's reason.
- The lease file's ownership and symlink checks, process groups, command timeouts and the separate single-instance lock of the supervisor.
- JSON, TOML and argument parsing; a missing or mistyped field is an absent value, and a damaged stamp file counts as a failed step.
- The text printed on standard output, and the extra fields of `status.json`.
- JobQueue.Queue: a project entry without an id, which raises an error the supervisor does not catch, is not modelled.
- JobQueue.QueueAnswersTheSnapshot: the snapshot is stable while it is read; a queue that changes between pages is covered only by `QueueImpliesHint`, whose answers per page are arbitrary.
- WatchCycle.RunWatchCycle: one Rust function is several methods here, with ghost parameters that carry its log and trace; a failed write to the log, which ends a cycle with an error, is not modelled.
- WatchCycle.EvaluateHealth: the value at the JSON path is given as canonical text; JSON parsing and the exact comparison of numbers are not modelled.
- WatchCycle.Conclude: that the error text of a failed recovery in the log is the command's own is not stated.
- Scheduler.Watchdog.RunWatchdog: the number of passes is a parameter that stands for how long the process is left running; that configured values are filled in from defaults is not modelled.
- StatsReport.BuildStatsReport: the file is given as its lines; the success rate in floating point is left out.
- WatchStats.WatchStatsBuilder.Finish: sums and differences are unbounded integers, not 64-bit ones.
- StatsReport.ReportAgreesWithCycles: watch names without white space, as `LogText.WatchSurvivesWhenSolid` makes necessary.
- RunStatistics.ReportCountsRuns: the log of one process that started with an empty one, with the error lines in the same file; for logs of several processes in one file, `RestartsJoin` gives what `StatsReport.ReportAgreesWithCycles` asks.
- BringUp.PlanBringUp: planning for one service is a function giving one operation or an error; environment files and runtime probes are inputs.
- MempoolRecovery.Session.BringUpService: the progress events are left out.
- Health probes, RPC, the adapters, the report's text output, configuration validation and the watchdog's own runtime lock: thin mappings or presentation.
- Administrators who start containers or runners by hand; the guarantees are about cooperating entry points (contrib/workload-handoff/README.md:110).
