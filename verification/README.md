# Verified models of mnemon's hard cores

Dafny models of six cores of mnemon, each with proofs of what it is for:

1. **The consolidation scheduler** (`Scheduler*.dfy`, `RetryDelay.dfy`). Every
   lock-held section is a function on the scheduler's state
   (`SchedulerState`) and a method of an object whose fields it changes
   (`SchedulerObject`), the two proved equal. `SchedulerSystem` interleaves
   those sections with clock readings, sleeps, wake-ups and the closing of
   replaced channels, for any number of workers, Adds and Searches. The results
   are about every state of every such run: the partition of the users, no lost
   wake-up, no lost work, bounded overtaking, no job before its backoff is over,
   nobody kept that nothing needs, and (with the protocol of the server's Adds,
   `SchedulerEstimate`) an estimate that never under-counts. `SchedulerLaws`
   states what each section does by counts, places and times alone.
2. **The registry of open stores** (`Registry*.dfy`), in the same way: sections,
   object, interleavings with opens outside the lock, failed opens, waiters,
   eviction and shutdown.
3. **The alert watcher** (`Watch*.dfy`, `Orders.dfy`): the rules as an object
   that fills the next state, the plan, the delivery and the settling as loops,
   one run as a transition on the saved state, and results over any sequence of
   runs with any delivery outcomes, unreadable statuses, restarts and failed
   saves. `WatchLaws` states when each alert fires by the status' numbers.
4. **The temporal backbone repair on import** (`ImportRepair.dfy`): the two
   loops on the edge table, and what they leave, for any edges.
5. **Canonical print and parse in Agency** (`AgencyValues.dfy`,
   `ViewAuthority.dfy`, `PeerDelivery.dfy`, `PeerEvent.dfy`, `AgentView.dfy`, and
   for each a `*Laws.dfy` with what is accepted and what it then says, every
   field and constant written out).
   The JSON encoder, the digests and the RFC 3339 calendar are parameters; the
   encoder is taken to be read back exactly by its strict decoder, the calendar
   to read what it formats. No digest is taken to be injective or non-zero: the
   results say what happens when it is not.
6. **Fixed-size structures and splitters** (`AddSplit.dfy`, `Utf8.dfy`,
   `LogMemory.dfy`, `SearchWindow.dfy`), against the whole text or history.

`dafny verify dfyconfig.toml` checks everything.

## What turned out not to hold

- *A sleeping worker's timer.* Whoever is startable while a worker sleeps on
  the current channel is a retry whose time has come, and the worker's timer is
  for that time. But the timer runs for `retryAt - now` from the moment it is
  set, and `now` was read earlier, so it can fire late by exactly that lag
  (`SchedulerLateTimer.TimerFiresLate` is a run that shows it). `NoLostWakeup`
  states the exact condition: the worker can wake now if and only if its lag
  has passed since the time its timer is for.
- *A provider kind a status leaves out.* A readable status that does not name a
  kind makes the watcher forget the kind's counter and its last rise.
  `ConservedIff` and `FiresWhileHeld` say exactly when that costs a report or
  silences an alert, and `WatchGaps.GapForgets` shows both within one process.
  The repository's own server sends no such status: a status has every kind of
  its models, and the models are fixed for the life of a process. Against such
  servers every counter is conserved (`WatchSteady.EveryCounterConserved`), and
  every named event alert fires exactly while less than `watchHold` has passed
  since its last rise, unless a third process ran in between whose models lack
  the kind (`WatchSteady.EveryEventFires`; `WatchGaps.RestartsForget` is such a
  run).
- *A zero identity.* `NewPeerDelivery` accepts an identity whose digest is zero
  and its parser does not: the round trip holds exactly when it is not zero.
- *Small limits.* `splitText` never ends on some texts for a limit below four
  bytes (`StallsBelowFour`); the code's limit is 90000.

## Model

| member | source | states |
|---|---|---|
| RetryDelay.NoOverflow | internal/aml/scheduler.go:587-594 | the doubling is positive and far below the 64-bit range for every count of failures |
| RetryDelay.ClosedForm | internal/aml/scheduler.go:587-594 | five jittered doublings, then the jittered cap, also past ten failures |
| RetryDelay.Monotone | internal/aml/scheduler.go:587-594 | more failures never shorten the delay at one jitter |
| RetryDelay.Bounds | internal/aml/scheduler.go:587-594 | between 24 seconds and retryMax |
| RetryDelay.Spread | internal/aml/scheduler.go:580-594 | the jitter spreads a delay by a fifth to either side and the cap by a fifth below retryMax, its middle and its ends exact, more jitter never a shorter wait |
| SchedulerObject.Scheduler.constructor | internal/aml/scheduler.go:160-163 | a new scheduler's state |
| SchedulerObject.Scheduler.Notify | internal/aml/scheduler.go:176-207 | the fields become the state of the section that `SchedulerLaws.NotifyTaken` is about; the channel to close is the one replaced, if one was |
| SchedulerObject.Scheduler.WaitEnters | internal/aml/scheduler.go:215-254 | WaitBacklog up to its first sleep or its return, and the entry it keeps |
| SchedulerObject.Scheduler.WaitGoesOn | internal/aml/scheduler.go:229-252 | one turn of WaitBacklog's loop, the queuing of an idle user included |
| SchedulerObject.Scheduler.WaitLeaves | internal/aml/scheduler.go:224-228 | WaitBacklog's return forgets a user nothing needs |
| SchedulerObject.Scheduler.Hold | internal/aml/scheduler.go:260-269 | a hold makes the user known and counts |
| SchedulerObject.Scheduler.Release | internal/aml/scheduler.go:270-276 | a release uncounts, forgets and replaces the channel |
| SchedulerObject.Scheduler.Drain | internal/aml/scheduler.go:292-296 | draining is set and the channel replaced |
| SchedulerObject.Scheduler.RunBegins | internal/aml/scheduler.go:342-349 | one Run at a time; stopped is cleared |
| SchedulerObject.Scheduler.RunReturns | internal/aml/scheduler.go:358-362 | stopped is set and the channel replaced |
| SchedulerObject.Scheduler.Measured | internal/aml/scheduler.go:428-438 | a measure replaces the estimate of a user no job has measured and none runs |
| SchedulerObject.Scheduler.RetryDueLocked | internal/aml/scheduler.go:606-610 | the loop moves every due retry to the queue, earliest first |
| SchedulerObject.Scheduler.FirstUnheldLocked | internal/aml/scheduler.go:614-620 | the first queued user no Search holds, or none |
| SchedulerObject.Scheduler.Next | internal/aml/scheduler.go:482-502 | exit when draining, else the first unheld user started, else the time of the first retry |
| SchedulerObject.Scheduler.Finish | internal/aml/scheduler.go:539-576 | the fields become the state of the section that `SchedulerLaws.JobEnded` is about: the job's measure plus what Adds wrote while it ran, then idle, queued or backing off by the outcome |
| SchedulerInvariant.NotifyInv | internal/aml/scheduler.go:176-207 | a notification keeps the partition of the users |
| SchedulerInvariant.WaitLoopInv | internal/aml/scheduler.go:229-252 | a waiting Add keeps the partition |
| SchedulerInvariant.TakeNextInv | internal/aml/scheduler.go:474-504 | starting a job keeps the partition |
| SchedulerInvariant.FinishInv | internal/aml/scheduler.go:539-576 | ending a job keeps the partition, the retry order included |
| SchedulerInvariant.PushSorted | internal/aml/scheduler.go:649-672 | a pushed user takes its place in the retry order |
| SchedulerRuns.StepInv | internal/aml/scheduler.go:176-580 | every step of every interleaving keeps the system's invariant |
| SchedulerTheorems.Partition | internal/aml/scheduler.go:176-207 | in every reachable state a user with work is in exactly one of queue, retry heap and one worker's hands, its entry is the one `users` has, `running` counts the jobs, and maxUsers is not exceeded |
| SchedulerTheorems.OneJobPerUser | internal/aml/scheduler.go:474-504 | no user ever has two jobs, not by two entries either |
| SchedulerLaws.CountsWork | internal/aml/scheduler.go:596-597 | in every reachable state the three lengths that are added up count the users with work |
| SchedulerLaws.NotifyTaken | internal/aml/scheduler.go:176-207 | a notification of a user with work, or with fewer than maxUsers having any, is taken: the backlog grows by it, an idle or unknown user joins the back of the queue since now, a running one is dirty, no one else is touched and the channel is replaced; any other changes nothing |
| SchedulerLaws.JobEnded | internal/aml/scheduler.go:539-580 | after a failed job one failure more and a retry in retryBase doubled and jittered up to five failures, the jittered cap from six, 24 seconds to retryMax; after a paused one in ten minutes; a success clears the failures, a cut keeps them |
| SchedulerHistory.FailuresInARow | internal/aml/scheduler.go:553-566 | in every run a user's failures are the number of its failed and paused jobs since its last successful one, also when it was forgotten in between |
| SchedulerBackoff.NoJobBefore | internal/aml/scheduler.go:564-576 | in every run, after a failed or paused job no job of that user begins before its wait is over |
| SchedulerLaws.RetryOrder | internal/aml/scheduler.go:651-660 | the users backing off are in the order of their retry times, and of their failures at one time |
| SchedulerLaws.MeasureTaken | internal/aml/scheduler.go:428-438 | a measure is taken by a known, unmeasured user whose job does not run, and then is its estimate; by anyone else it changes nothing |
| SchedulerForgets.ForgetsUnneeded | internal/aml/scheduler.go:622-628 | in every run, an entry without work, hold, waiting Add or backlog is kept only for a user an Add measured at 0, unneeded ever since |
| SchedulerTheorems.NoLostWakeup | internal/aml/scheduler.go:474-520 | a worker asleep while a user is startable has a timer whose time has come, and can wake now if and only if its own lag has passed since then; or its channel is closed or about to be |
| SchedulerLateTimer.TimerFiresLate | internal/aml/scheduler.go:497-520 | a reachable state where that lag delays a startable user |
| SchedulerTheorems.StartableIsSignalled | internal/aml/scheduler.go:636-647 | whoever becomes startable does so by a step that replaces the channel, or as a retry that fell due |
| SchedulerTheorems.ReplacedIsClosed | internal/aml/scheduler.go:636-647 | a replaced channel is closed, or its close is the next step of whoever replaced it |
| SchedulerTheorems.ClosedOnce | internal/aml/scheduler.go:636-647 | no run closes a channel twice |
| SchedulerTheorems.LeavesByStarting | internal/aml/scheduler.go:474-504 | a queued user nobody holds leaves the queue only by the start of its own job |
| SchedulerTheorems.Overtaking | internal/aml/scheduler.go:487-495 | a queued user nobody holds from then on is still queued, moved up by exactly the jobs started, or has started after at most as many others as were ahead of it |
| SchedulerTheorems.BoundedOvertaking | internal/aml/scheduler.go:600-620 | with k ahead, once k + 1 jobs have started it has started, after at most k others, whatever is notified, retried, finished or held besides |
| SchedulerTheorems.WaitsOnAJob | internal/aml/scheduler.go:215-254 | an Add asleep on the current channel has a user that is queued or running and over its limit |
| SchedulerTheorems.NilReturn | internal/aml/scheduler.go:229-253 | a corollary: a woken Add returns nil if and only if one of the documented reasons holds |
| SchedulerTheorems.NilAtOnce | internal/aml/scheduler.go:215-253 | the same corollary at the call, an unknown user included |
| SchedulerTheorems.DrainedForever | internal/aml/scheduler.go:300-315 | once draining with no job running, no job ever runs again |
| SchedulerLaws.DrainSets | internal/aml/scheduler.go:292-296 | a Drain sets its flag and replaces the channel |
| SchedulerLaws.RunSets | internal/aml/scheduler.go:342-363 | a Run clears stopped and starts every worker; its end sets stopped and replaces the channel |
| SchedulerLaws.AddsReturn | internal/aml/scheduler.go:286-296 | after a Drain, and from a Run's end to the next Run, every Add that calls WaitBacklog or wakes in it returns and whoever sleeps in it has a replaced channel; after a Drain no job begins |
| SchedulerHistory.BooksRight | internal/aml/scheduler.go:551-574 | an observer's list of what is not covered agrees with the log of what was heard and run |
| SchedulerHistory.SinceFirstUncovered | internal/aml/scheduler.go:196-205 | `since` is always the time of the first notification, in lock order, that no successful job begun after it has covered; idle if and only if there is none |
| SchedulerHistory.NoWorkLost | internal/aml/scheduler.go:551-574 | after a notification or an unfinished job the user is queued, backing off or running and dirty until its next job begins |
| SchedulerEstimate.MovesInv | internal/aml/server.go:1001-1089 | every step of Adds, jobs and folds keeps the bounds on the estimate and on the job's measure |
| SchedulerEstimate.NeverUnderCounts | internal/aml/server.go:1043-1059 | from a user's first measure until a dropped notification, what is pending is at most the estimate plus what Adds wrote and have not notified |
| RegistryObject.Registry.AcquireLocked | internal/aml/registry.go:110-136 | refused when closing, else the cached entry held and moved to the front, else a new one made and idle ones evicted |
| RegistryObject.Registry.ReleaseLocked | internal/aml/registry.go:166-176 | one ref less, eviction, and the entry closed if it is out and free |
| RegistryObject.Registry.EvictLocked | internal/aml/registry.go:182-194 | the loop from the back of the list; its victims are the entries newly marked closed, each once |
| RegistryObject.Registry.RemoveLocked | internal/aml/registry.go:196-203 | out of the table and the list, unless already out |
| RegistryObject.Registry.CloseLocked | internal/aml/registry.go:224-237 | every entry leaves the cache, the idle ones marked closed |
| RegistryState.EvictEffect | internal/aml/registry.go:182-194 | only idle entries go, each only if every idle one behind it goes, no more than needed, and all if still over the limit |
| RegistrySystem.StepInv | internal/aml/registry.go:99-237 | every step of every interleaving keeps the registry's invariant |
| RegistryTheorems.NeverClosedWhileHeld | internal/aml/registry.go:48-70 | whoever holds, waits on, opens or is leaving an entry has it unclosed |
| RegistryTheorems.ClosedAtMostOnce | internal/aml/registry.go:166-176 | no run closes an entry twice |
| RegistryTheorems.ClosedAfterClose | internal/aml/registry.go:223-237 | after close, an entry nobody is on is closed or handed to its releaser to close, and closed exactly once |
| RegistryTheorems.EvictedIsClosed | internal/aml/registry.go:164-176 | an entry is closed or handed over to be if and only if it is out of the cache and on nobody's hands |
| RegistryTheorems.OneStorePerUser | internal/aml/registry.go:99-150 | two holders of one user's store hold the same entry, hence one write lock |
| RegistryTheorems.SharedWhileHeld | internal/aml/registry.go:110-131 | while a store is held, an acquire of its user is refused or returns the same entry without opening anything |
| RegistryTheorems.AcquireAnswers | internal/aml/registry.go:110-136 | an acquire is refused if and only if the registry closes, else joins the cached entry of its user or makes one that is cached and opens it |
| RegistryTheorems.ClosedForGood | internal/aml/registry.go:223-237 | after close nothing is cached and every acquire is refused, for the rest of the run |
| RegistryTheorems.CacheBound | internal/aml/registry.go:178-194 | at most limit entries are cached, or every cached one is held |
| RegistryTheorems.LeastRecentFirst | internal/aml/registry.go:115-136 | no idle entry stays that was acquired less recently than one the same step put out |
| WatchRules.Evaluation.Event | cmd/memory/aml_watch.go:794-806 | an event alert's rise and firing are filled in as its rule says |
| WatchRules.Evaluation.Counter | cmd/memory/aml_watch.go:783-789 | a counter is kept and its alert filled in |
| WatchRules.Evaluation.Breakers | cmd/memory/aml_watch.go:810-830 | every kind with a breaker or a trip count, and no other, is filled in by the rule that `WatchLaws.BreakerLaw` states on the status' numbers |
| WatchRules.Evaluation.Rejected | cmd/memory/aml_watch.go:842-852 | every kind the status names |
| WatchRules.Evaluation.Budgets | cmd/memory/aml_watch.go:869-882 | the accounts over their share fire, and no others |
| WatchRules.Evaluation.Backlog | cmd/memory/aml_watch.go:888-903 | when the backlog was first over its bound, and whether that has lasted |
| WatchRules.Evaluation.ApplyStatus | cmd/memory/aml_watch.go:728-750 | the next state and the firing alerts, name by name |
| WatchRules.Evaluate | cmd/memory/aml_watch.go:701-725 | what fires, what is frozen and the state to save, for a readable and an unreadable status; the laws of `WatchLaws` say what that is in numbers |
| WatchRules.AllNamed | cmd/memory/aml_watch.go:728-852 | the alerts and counters gone through are exactly those the status names |
| WatchLaws.PlainLaw | cmd/memory/aml_watch.go:728-806 | restart and the four counters every status has: each fires exactly when the count is above the last status' of the process, or above 0 of a new one, or within ten minutes of such a rise, which the state keeps |
| WatchLaws.BreakerLaw | cmd/memory/aml_watch.go:810-830 | an open breaker fires in every run; a closed one exactly when its trips grew or within ten minutes of a rise; a kind the status does not name does not fire and is forgotten |
| WatchLaws.RejectedLaw | cmd/memory/aml_watch.go:842-852 | the same for a kind's rejected requests |
| WatchLaws.StandingLaw | cmd/memory/aml_watch.go:857-903 | partial-search fires if and only if more than one in twenty of at least 20 Searches was partial, backlog-age above 15 minutes, backlog-lag after 15 minutes of one process over its bound, ready and health by their probes |
| WatchLaws.PartialOfHundred | cmd/memory/aml_watch.go:857-862 | with 100 Searches the sixth partial one fires it; with fewer than 20 none does |
| WatchLaws.BudgetLaw | cmd/memory/aml_watch.go:869-882 | budget-high if and only if an account of the kind with a finite cap above 0 has more than 80% of it spent and held, budget-held more than 2% of it held |
| WatchLaws.NothingElse | cmd/memory/aml_watch.go:728-903 | no other name ever fires |
| WatchLaws.UnreadableLaw | cmd/memory/aml_watch.go:710-722 | an unreadable status freezes every alert of the state but ready and health and keeps counters and rises; a readable one freezes nothing |
| WatchAlerts.PlanAlerts | cmd/memory/aml_watch.go:934-974 | every alert firing or in the state is planned and says what it has to say, in the order of the names; `WatchRuns.PlannedAgain` states what that is, message by message |
| WatchAlerts.Deliver | cmd/memory/aml_watch.go:1041-1071 | a message is delivered if and only if there is a webhook, it took it, and none before it was unreachable |
| WatchAlerts.SettleAlerts | cmd/memory/aml_watch.go:1098-1111 | a delivered resolution ends its alert, a delivered alert is marked sent, the rest stays |
| WatchAlerts.RunOnce | cmd/memory/aml_watch.go:328-356 | one run is the transition every result about runs is about |
| WatchRuns.LeavesOnlyResolved | cmd/memory/aml_watch.go:960-974 | an alert leaves the state only in a saved run whose RESOLVED was delivered |
| WatchRuns.OwedUntilResolved | cmd/memory/aml_watch.go:1098-1111 | over any runs, an alert that is gone had its RESOLVED delivered in between |
| WatchRuns.PlannedAgain | cmd/memory/aml_watch.go:945-974 | exactly which message a run plans about an unfrozen alert: new while it fires undelivered, again if and only if 30 minutes have passed since it was delivered, resolved once it does not fire; a frozen one keeps its state and says nothing |
| WatchRuns.AlertLeft | cmd/memory/aml_watch.go:945-974 | what a saved run leaves of an alert: since when it fires and when it was last delivered, or nothing once its RESOLVED was delivered |
| WatchRuns.NeverSilent | cmd/memory/aml_watch.go:952-961 | while an alert fires and what is said of it is delivered, no two runs 30 minutes or more apart pass without a delivered ALERT after the first, up to the second |
| WatchRuns.Spaced | cmd/memory/aml_watch.go:952-960 | while saves succeed, delivered ALERTs of one stay are at least watchRepeat apart, whatever the clock does |
| WatchRuns.Conservation | cmd/memory/aml_watch.go:755-789 | reported plus lost equals the last seen count of every process less the first status's |
| WatchRuns.ConservedIff | cmd/memory/aml_watch.go:755-789 | with growing counters nothing is lost if and only if no status names a counter again, with more, after one of the same process that did not |
| WatchRuns.PlainConserved | cmd/memory/aml_watch.go:741-745 | the counters every status names are conserved over any runs |
| WatchRuns.FiresWhileHeld | cmd/memory/aml_watch.go:794-806 | a named event alert fires if and only if it rose now, or rose less than watchHold ago and every status since named it |
| WatchRuns.PlainFires | cmd/memory/aml_watch.go:794-806 | for alerts every status names, exactly while less than watchHold has passed since the last rise |
| WatchRuns.LagFires | cmd/memory/aml_watch.go:888-903 | backlog-lag fires if and only if every status of one process for at least watchLagFor had the backlog over its bound |
| WatchSteady.EveryCounterConserved | internal/memoryagent/resilience.go:441-468 | with the kinds fixed within each process, the new amounts of every counter, trips and rejections included, sum to what came |
| WatchSteady.EveryEventFires | cmd/memory/aml_watch.go:794-852 | with the kinds fixed within each process, a named event alert fires if and only if it rose now, or rose less than watchHold ago and no third process in between lacks its kind |
| WatchSteady.OneRestartFires | cmd/memory/aml_watch.go:794-852 | with at most one restart since the last rise, exactly while less than watchHold has passed since it |
| WatchGaps.GapForgets | cmd/memory/aml_watch.go:810-852 | what the rules do with a kind missing from one status of its process, which this server does not send: two of five rejections are lost and the alert is silenced |
| WatchGaps.RestartsForget | cmd/memory/aml_watch.go:810-852 | two restarts with a process without the kind in between silence the alert, the kinds fixed within every process |
| ImportRepair.NearestBefore | cmd/memory/import.go:346-353 | the nearest insight before that was not imported, or none |
| ImportRepair.NearestAfter | cmd/memory/import.go:355-362 | the nearest insight after that was not imported, or none |
| ImportRepair.DeleteSplit | cmd/memory/import.go:286-307 | exactly the edges between old neighbours an import came between go, both ways |
| ImportRepair.InsertJoined | cmd/memory/import.go:309-341 | exactly the consecutive pairs with an imported end are linked both ways; how many; who is touched |
| ImportRepair.RepairSource | cmd/memory/import.go:278-341 | the edge between any two insights afterwards, and exactly who is touched |
| ImportRepair.Repair | cmd/memory/import.go:271-344 | for every source: its edges are repaired, exactly the two-way chain over the merged timeline if they were the chain over the insights not imported, and if and only if the pairs left alone fit it; other edges as they were; both ends of every changed edge touched; the number inserted; nothing done without imports |
| ImportRepair.ExactIff | cmd/memory/import.go:271-344 | whatever the edges were, and whatever other sources have, a source's edges end as the two-way chain over its merged timeline if and only if the pairs left alone already fit it |
| ImportRepair.BackboneExact | cmd/memory/import.go:271-344 | if they were exactly the chain over the source's insights not imported, they end exactly as the chain over all of them |
| ImportRepair.InsertsOne | cmd/memory/import.go:277-341 | the number inserted is the sum over the sources in whatever order they are gone through |
| ImportRepair.KeptLinks | cmd/memory/import.go:346-362 | consecutive among the kept is: nothing but imported insights between |
| ImportRepair.ChangedIsTouched | cmd/memory/import.go:278-341 | both ends of an edge a source's repair changes are touched |
| ImportRepair.AllTouched | cmd/memory/import.go:271-344 | both ends of every edge of the store that changed are in what the repair returns as touched |
| Utf8.StartIsBoundary | internal/aml/contract.go:373-375 | in valid UTF-8 a byte that starts a character splits the text into two valid ones |
| Utf8.LastSpaceIs | internal/aml/contract.go:376-378 | the index found is a space and the last one |
| AddSplit.SplitText | internal/aml/contract.go:369-388 | the pieces are the cuts of the text that are not blank; it ends for every valid text |
| AddSplit.CutIs | internal/aml/contract.go:372-378 | a cut is at the last space of the second half, or at the last boundary within the limit |
| AddSplit.CutsRebuild | internal/aml/contract.go:369-388 | the cuts joined are the text; each is valid UTF-8 and within the limit |
| AddSplit.NotBlankDrops | internal/aml/contract.go:379-387 | the pieces are the cuts in order and what is missing is blank |
| AddSplit.PieceIfNotBlank | internal/aml/contract.go:369-388 | there is no piece if and only if the text is blank |
| AddSplit.StallsBelowFour | internal/aml/contract.go:369-388 | for every limit below four a text exists that is never cut |
| AddSplit.SplitMessages | internal/aml/contract.go:349-364 | the groups are all pieces in order, each within both bounds, each without room for the next |
| AddSplit.Minimal | internal/aml/contract.go:346-364 | no contiguous grouping of the same pieces within the bounds has fewer groups |
| AddSplit.Parts | internal/aml/contract.go:311-344 | blank messages are skipped and counted; every part is within what one document holds; an Add that fits stays whole |
| LogMemory.Ring.Add | internal/aml/logs.go:64-72 | the ring refines its history with one more line |
| LogMemory.Ring.NewestFirst | internal/aml/logs.go:75-82 | the last min(total, size) lines of the history, newest first |
| LogMemory.LineMemory.Add | internal/aml/logs.go:96-111 | lines are numbered in order; the warnings' ring has the history's warnings |
| LogMemory.LineMemory.Kept | internal/aml/logs.go:117-125 | the end of the history, or of its warnings, newest first, numbers strictly falling; the ring's size and the lines since the start |
| LogMemory.WarningsIncrease | internal/aml/logs.go:104-111 | the warnings are exactly the lines at level WARN or above, their numbers rising |
| LogMemory.ShortenValid | internal/aml/logs.go:97-103 | a message that fits stays; a longer one becomes its longest beginning within the limit that ends at a character, valid UTF-8, and an ellipsis |
| LogMemory.Find | internal/aml/logs.go:237-256 | the newest matches up to the limit; more if and only if matches remain; found plus skipped is all newer matches |
| LogMemory.WantedIs | internal/aml/logs.go:217-256 | what a query is about: exactly the lines that match, numbered below before and above after where these are set, newest first |
| LogMemory.PagesAreAll | internal/aml/logs.go:232-256 | paging by before yields every match once, in order |
| SearchWindow.Window.BucketLocked | internal/aml/metrics.go:345-352 | the current minute's bucket, emptied if it counted another |
| SearchWindow.Window.RecordAnswered | internal/aml/metrics.go:355-360 | the history grows by one answered Search |
| SearchWindow.Window.RecordPartly | internal/aml/metrics.go:363-368 | the history grows by one partly degraded Search |
| SearchWindow.Window.Totals | internal/aml/metrics.go:372-382 | exactly what was recorded in the current minute and the nine before it |
| SearchWindow.BucketsShare | internal/aml/metrics.go:327-352 | the ten buckets share the window's events out with none twice |
| AgencyValues.ValidateToken | internal/agency/value.go:152-175 | no error if and only if the text is a token; which error |
| AgencyValues.DigestBack | internal/agency/value.go:69-89 | a nonzero digest's text parses back |
| AgencyValues.ConsequenceBack | internal/agency/intent_parse.go:207-214 | a consequence's name parses back |
| AgencyValues.ParseEach | internal/agency/view_parse.go:89-250 | every element parsed in order, or the first error |
| AgencyValues.LoadOffers | internal/agency/view_authority.go:175-256 | the loop that fills a map, with its first error |
| AgencyValues.LoadIs | internal/agency/view_authority.go:175-256 | loading succeeds if and only if every offer is good and no two share a key, and then holds exactly them |
| AgencyValues.PrintSorted | internal/agency/view_authority_wire.go:51-94 | entries appended from a map and sorted by key |
| ViewAuthority.NewViewAuthority | internal/agency/view_authority.go:45-89 | the loops build what the specification builds, error by error; `ViewLaws` says what that is |
| ViewLaws.SealedIs | internal/agency/view_authority.go:80-88 | an authority keeps its spec's Attachment and reply; its digest is that of its bytes, which decode to a wire with the spec's fields and each list of its offers, printed field by field in key order |
| ViewLaws.BuiltIff | internal/agency/view_authority.go:45-173 | an authority is built if and only if the Attachment is set, the bounds hold, every offer is complete, none is asked for like another, the reply is to an offered cause and remote target, and the wire fits 16 KiB |
| ViewLaws.OneWire | internal/agency/view_authority_wire.go:46-96 | a spec has one such wire |
| ViewLaws.EqualDigestsSameAnswers | internal/agency/view_authority.go:25-28 | authorities of one Attachment with one digest that does not collide on their bytes are the same, from the same offers |
| ViewAuthority.MakeWire | internal/agency/view_authority_wire.go:46-96 | the canonical wire |
| ViewAuthority.OrderDoesNotMatter | internal/agency/view_authority.go:45-134 | permuted offers give the same authority, wire and digest |
| ViewAuthority.RoundTrip | internal/agency/view_parse.go:7-73 | every authority is accepted by its parser under its Attachment and comes back the same |
| ViewAuthority.ParsedIsGiven | internal/agency/view_parse.go:7-35 | what is accepted prints as the bytes given and belongs to the Attachment given |
| ViewAuthority.EqualWiresSameAnswers | internal/agency/view_authority.go:301-341 | equal canonical bytes of one Attachment give equal answers from Allows and every Resolve |
| ViewAuthority.AnswersAreOffers | internal/agency/view_authority.go:288-334 | what resolves is exactly what was offered |
| PeerDelivery.NormalizeCausation | internal/agency/peer_delivery.go:166-181 | sorted, or the error of a zero, self or repeated reference |
| PeerDelivery.NormalizeArtifacts | internal/agency/peer_delivery.go:183-195 | sorted, or the error of a zero or repeated digest |
| PeerDelivery.BuiltIsNormal | internal/agency/peer_delivery.go:89-144 | a delivery's lists are strictly ascending permutations of the given ones, and its seal is that of its wire |
| PeerDeliveryLaws.DeliveredIff | internal/agency/peer_delivery.go:89-195 | a delivery is built if and only if the route is set, the spec is complete, a reply exactly when it resolves for one target, expires within a day, repeats no cause or artifact, and fits 32 KiB |
| PeerDeliveryLaws.DeliverySays | internal/agency/peer_delivery.go:122-143 | it keeps its spec with the lists in order, under the identity of its origin Event, route and target alias, sealed under the envelope domain |
| PeerDelivery.ParseUnder | internal/agency/peer_delivery_parse.go:17-110 | what the parser makes of a delivery under any route, exactly |
| PeerDelivery.RoundTrip | internal/agency/peer_delivery_parse.go:17-110 | a delivery parses back to itself under its own route if and only if its identity is not zero |
| PeerDelivery.OtherRouteRefused | internal/agency/peer_delivery.go:204-225 | under another route it is refused unless the digest collides on two different identities |
| PeerDelivery.ParsedIsBuilt | internal/agency/peer_delivery_parse.go:17-33 | what is accepted was built for the route given and prints as the bytes given |
| PeerDelivery.RequireComplete | internal/agency/verified_peer_delivery.go:70-91 | the sorted copy, or the first error |
| PeerDelivery.CompleteIs | internal/agency/verified_peer_delivery.go:70-91 | what passes is exactly the required artifacts, in order, each within its bounds |
| PeerEventLaws.CompleteIff | internal/agency/verified_peer_delivery.go:70-91 | the artifacts are complete if and only if each required one, and no other, was verified within its size, in any order |
| PeerEventLaws.VerifiedIff | internal/agency/verified_peer_delivery.go:48-68 | a delivery is verified if and only if it is sealed, has both Principals and complete artifacts, and a completed reply has one |
| PeerDelivery.VerifiedAgain | internal/agency/verified_peer_delivery.go:49-91 | a verified delivery keeps exactly the artifacts given, and passes the same check again unchanged |
| PeerEvent.KeyIsToken | internal/agency/peer_event.go:30-33 | an identity's text is always a valid operation key |
| PeerEvent.ParseEventTargets | internal/agency/event_parse.go:174-217 | the targets, none with a destination seen before, or the first error |
| PeerEvent.ParseEventCausation | internal/agency/event_parse.go:231-249 | the causes, none twice, or the first error |
| PeerEvent.PeerEventAccepted | internal/agency/peer_event.go:13-67 | every Event of a peer is accepted by the Event parser with the same bytes and digest; only the targets' request, which is not stored, is gone; `PeerEventLaws.EventSays` states what the Event is |
| PeerEventLaws.EventSays | internal/agency/peer_event.go:35-66 | the Event's fields are the delivery's, the stamp's and the decision's, its operation key the delivery's identity, its one cause the origin Event, its digest that of bytes that decode to exactly these fields |
| PeerEventLaws.MadeIff | internal/agency/peer_event.go:13-111 | an Event is made if and only if the delivery is sealed and its artifacts complete, the stamp has its depth, the effect is a creation at the exact local target of what is no reply or the observation of a reply, and the wire fits 32 KiB |
| AgentView.CompareList | internal/agency/agent_view_parse.go:258-320 | a derived list against the expected one, place by place, a repetition sought anywhere or just before, with the first error |
| AgentView.LoadThenIs | internal/agency/agent_view.go:201-257 | References load if and only if every head and state is good and no head repeats |
| AgentView.CurrentBack | internal/agency/agent_view_parse.go:143-193 | the current responsibility parses back, its artifacts in order |
| AgentView.ReferencesBack | internal/agency/agent_view_parse.go:195-230 | the References parse back in the order of their heads |
| AgentView.RoundTrip | internal/agency/agent_view_parse.go:7-46 | every View made from a sealed authority is accepted by its parser with it and prints the same |
| AgentViewLaws.ViewShows | internal/agency/agent_view.go:70-119 | a View's bytes decode to a wire with its spec's fields and, of its authority's spec, the artifacts' digests, the References' keys, the targets, the intents and the causes in order; every intent can be acted on and every artifact offered is shown |
| AgentViewLaws.ViewedIff | internal/agency/agent_view.go:70-257 | a View is made if and only if the one subject is current, the counts agree, every Reference head is shown once with its state, every artifact is shown, every intent can be acted on, and the wire fits 16 KiB |
| AgentViewLaws.ShapeIsAsked | internal/agency/agent_view.go:302-321 | the shape shown for an intent is what an Event is checked for: one that is no reply is accepted if and only if it has that shape and, but for an advance, a local target beside remote ones |
| AgentViewLaws.ReplyIsAsked | internal/agency/event_parse.go:281-294 | a reply is accepted if and only if it is terminal with that shape, one remote target and a correlation |

## Left out

- HTTP routing, authentication, request decoding, metrics collectors, logging handlers, signals and process supervision.
- SQLite, the model providers and the memory agent: a job folds an arbitrary amount and measures at some moment while it runs; database errors, which end an import's transaction, are not modelled.
- JSON bytes, SHA-256 and RFC 3339 formatting: parameters, as said above.
- Integer widths: counts, characters and times are unbounded; `retryDelay`'s shift is shown to stay in range.
- The retry heap is the sequence of its users in the order of its Less; container/heap's array is not modelled.
- `sync.OnceFunc` around a hold's release: a Search releases once.
- `Status`, `StateOf`, `Backlog` and `signal` of the scheduler: reads, and a bare change of channel.
- The server's `consolidate` and `flushHeld` loops: their effect on the scheduler is that of a job, of a Search's hold and release, and of folds.
- An Add that fails after it wrote some parts leaves them without a notification: they stay in what is counted as not notified.
- The registry's look at the disk for a user without a store, which returns before the lock and changes nothing.
- The wording of alerts and their values, webhook payloads, and a state file that cannot be read or is of another version.
- A clock that runs backwards, for the watcher's hold, its repetitions and the search window; the other results hold for any clock.
- `searchItems`, sanitizers, part ids and the packing of a part into a document.
- `lineQuery.matches`: a query's test is any test of a line.
- NewEvent on an arbitrary bound intent: the parser's shape rules are stricter than that constructor.
