# Verified model of the agent orchestrator

A Dafny model of the parts of the platform that are hardest to get right by reading: the
orchestrator actor that claims issues, runs one agent on each and retries or releases them; the stdio
transport and JSON-RPC client that drive an agent session; the Gitea label protocol and paged
listing; and the command tokenizer. `dafny verify dfyconfig.toml` checks everything.

## The orchestrator

One goroutine, the actor, applies operations to the claim state. An operation may hand work to a
followup goroutine, which later submits more operations: a spawn becomes a worker and then a finalize, a
reschedule becomes an armed timer, a fire, a candidate fetch, and so on.

* `ClaimState.dfy` says what each operation does to one issue's slot (its entries in Running, Blocked,
  RetryAttempts, Claimed, ClaimedIssues and cleaningWorkspaces) and to the operator-terminal-stop
  latch, and what it hands to a followup.
* `ClaimStore.dfy` is the state object with its maps. Its methods update the maps in place, and
  each is proved to change exactly the one issue's slot, and the latch, as `ClaimState.dfy` says.
  The reconcile ops walk whole maps; `ReconcilePass.dfy` says what such a walk has done, whatever its
  order.
* `ActorSystem.dfy` is the transition system: claim state, in-flight work, clock. Any in-flight
  item may take its next step at any time; dispatch requests, reconcile events and runtime events may
  arrive at any time.
* `ClaimActor.dfy` is the actor loop over the state object. It is proved to track the transition
  system through every run, so what is proved of the system holds of the object's maps.
* `ReconcileRuns.dfy` proves that a whole reconcile pass is a run of single-issue events: the same claim
  state, the same timers stopped, the same cleanups started. A pass therefore extends any run to a run,
  and the theorem says exactly when it keeps a run in order.
* `ActorSafety.dfy` has the invariant. A failed candidate poll and a full capacity gate leave a
  retry entry queued while its replacement is on its way to the actor. An event *overtakes* that
  replacement if it releases or dispatches the entry before the replacement arrives. To postpone the
  entry once more is harmless: during a tracker outage several replacements of one quota retry may be
  on their way at once. `StepKeepsIff` shows that an event keeps the invariant if and only if it is not
  an overtaking one. The run theorems use the hypothesis `InOrder`, that no event of the run overtakes,
  and no other; in particular nothing is assumed about stale timers. `ActorWitnesses.dfy` shows what a
  single overtaking event can do.
* `ActorRuns.dfy`, `ActorLatch.dfy` and `ActorDrivers.dfy` draw the conclusions over whole runs. Orphan
  freedom holds on every run, in order or not.
* `FinalizeRoutes.dfy`, `CapacityGates.dfy` and `ClaimEffects.dfy` say what the operations amount to, on the
  fields of the entries and the slots they see: which exits of a worker are retried, continued, parked or
  given up; when a dispatch or a retry goes through, is refused or is put off; what a retry, a run or an
  observation leaves behind. Over runs: what reconciliation stopped is not retried, what asked for input is
  parked, what was seen terminal is cleaned, and whenever a worker is asked for, the global limit and the
  limit of its state hold.
* `RetryTimers.dfy` is about when a queued retry comes up.
* `ActorWitnesses.dfy` has three runs. In one, a single overtaking event ends with two live workers on
  one issue under a limit of one agent. In the second, an issue stays claimed by a continuation that no
  poll may dispatch, because an operator stop is latched for it; `PollConsumesContinuation` says
  exactly when a poll can consume a due continuation. In the third, a retry is taken up before it is due.

* `ContinuationRuns.dfy` follows the clean-turn budget through runs, in order or not. A count of turns
  travels from a finalize through a reschedule, a queued entry or a cleanup's resume to a dispatch; each
  dispatch has behind it the chain of sessions that the count stands for, and the chain is within the
  budget. `ContinuationLost` lists the events that end a chain, after which the next dispatch starts from
  zero: reconciliation, a cleanup that gives its continuation up, a replaced entry.

Around the actor: `Backoff.dfy` (retry delays), `ContinuationBudget.dfy` (the runner's turn loop and
the parking of a spent chain), `TokenTotals.dfy` (usage accounting), `Tracker.dfy` and `ReconcileTick.dfy` (what a poll
tick may conclude from tracker answers), `Candidates.dfy` (candidate order, carry-over, revalidation).

## The agent session

`StdoutPump.dfy` has the line queue and every interleaving of scanner, pump and consumer.
`AppServerProtocol.dfy` says what a well-conducted transcript is, `AppServerApprovals.dfy` what its replies
grant and refuse, and `AppServerSession.dfy` is the client, whose every method keeps its transcript so. `CommandLine.dfy` has the tokenizer, the
shell-syntax scan, and the quoting rules of the POSIX Shell Command Language that both have to match.

## The Gitea adapter

`GiteaLabels.dfy` derives a state from labels; `LabelReplace.dfy` says what a call of the label tool
does for every set of failing requests and when its report is exact; `LabelTool.dfy` is the tool itself,
request by request; `IssueListing.dfy` is the paged listing.

## What turned out false

* The failure delay is the SPEC's formula except for one family: an odd ceiling one nanosecond above
  the delay the attempt should get. `NextDelay` states it as an if-and-only-if.
* The label tool reports a handoff exactly when one happened, except when two labels on the issue are
  spellings of one name, one was deleted and the deletion of the other failed, and the survivor both
  outranks all other labels and differs from them in being active or terminal. `ExactWhateverFails` gives the exact
  condition, on the labels a caller sees before the call, for the report to be right whatever fails; that
  no two stale labels are spellings of one name is sufficient (`ExactWithoutTwins`). `MisreportingCall` is
  a call that misreports.
* A retry is not always taken up when it is due. A timer is recognised only by attempt and kind, so the
  fired timer of a released entry can pick up a later entry of its issue with the same attempt, before that
  is due (`EarlyRetryRun`, an in-order run). It happens only to an entry met by a flight with another
  number than its own timer's (`EarlyOnlyByStaleTimer`, on every run).
* A claim is never without a driver, but the driver of a due continuation, the next poll, is powerless
  while an operator stop is latched for the issue (`PollConsumesContinuation`, `ClaimBehindLatch`).

## Model

| member | source | states |
|---|---|---|
| ActorSafety.StepKeepsIff | internal/orchestrator/actor.go:186-200 | for every state that satisfies the invariant and every enabled event, the next state satisfies it if and only if the event does not release or dispatch a retry whose postponement is still in flight |
| ActorSafety.RunKeeps | internal/orchestrator/actor.go:186-200 | the invariant holds in every state of every in-order run |
| ActorRuns.RunsAreExclusive | internal/orchestrator/actor_dispatch.go:76-144 | in every state of every in-order run Running, Blocked, RetryAttempts and pending spawns are pairwise disjoint per issue, an issue has at most one live or pending worker, every finalize finds its own entry, and live workers <= RunningCount <= MaxConcurrentAgents |
| ActorRuns.WorkersWithinLimit | internal/orchestrator/state.go:520-583 | live workers are within RunningCount although queued and blocked ids are subtracted from it |
| ActorRuns.RemovalIsExclusive | internal/orchestrator/actor_cleanup.go:182-219 | while a cleanup is between its begin op and its decision to end, its issue is unclaimed, has no pending spawn and no second cleanup, and the chain is in its pass 0 to 8 |
| ActorRuns.RemovalNeedsTerminal | internal/orchestrator/actor_cleanup.go:182-323 | removal goes ahead if and only if the recheck had nothing to ask or saw a current row with a terminal state; a failed lookup, a missing or unknown row or a blank state starts exactly one further pass, up to the eighth retry; a state that is not terminal leads to the question for an operator stop; absence ends the cleanup |
| ActorRuns.CleanupSteps | internal/orchestrator/actor_cleanup.go:57-76 | a cleanup starts, and sets its mark, if and only if nobody holds or cleans the issue; its continuation is resumed, as it was, if and only if no operator stop is latched; its end clears the mark and nothing else |
| ActorRuns.FinalizeParks | internal/orchestrator/actor_finalize.go:43-114 | a finalize parks the run as blocked if and only if input is needed, the claim budget is exceeded, or a clean exit without exit state spent the continuation budget, whatever else the worker returned, and then hands out no followup |
| ActorRuns.BlockedStaysParked | internal/orchestrator/actor_reconcile.go:461-485 | on in-order runs a blocked issue stays blocked, with no worker, spawn, retry or reschedule, until reconciliation saw it inactive or confirmed it absent |
| ActorRuns.ParkedFromFinalizeOn | internal/orchestrator/actor_finalize.go:43-114 | on in-order runs, from the finalize of a run that must be parked on, the issue has no worker, spawn, retry or reschedule until reconciliation saw it inactive or confirmed it absent |
| ActorLatch.LatchLasts | internal/orchestrator/state_operator_stop.go:31-75 | a latch holds until exactly MaxRecentOperatorTerminalStops later latches were created and is gone at that count; map keys and insertion order agree and the cap is kept in every state |
| ActorLatch.LatchedGetsNoWorker | internal/orchestrator/actor_dispatch.go:86-97 | on in-order runs no spawn is pending for a latched issue until that many later latches were created |
| ActorLatch.StepQuiet | internal/orchestrator/actor_retry.go:463-477 | no event leaves a pending spawn for a latched issue |
| ActorDrivers.NoOrphans | internal/orchestrator/actor_retry.go:289-382 | on every run, in order or not, a claimed issue has a live worker or finalize, a pending spawn or reschedule, a blocked entry, or a retry entry with its own timer, fire or fetch in flight or due as a continuation; and a cleaning mark has the cleanup that clears it |
| ActorDrivers.StepKeepsDrivers | internal/orchestrator/actor_retry.go:546-669 | every event keeps every claim driven |
| ActorDrivers.PollConsumesContinuation | internal/orchestrator/actor_dispatch.go:187-216 | a tracker-rechecked dispatch moves a due continuation on, or finds no free slot, if and only if no cleanup is at work on the issue and no operator stop is latched for it |
| ActorWitnesses.OvertakingRun | internal/orchestrator/actor_retry.go:489-523 | a run with one overtaking event, a reconcile release between a failed poll and its reschedule, that ends with two live workers on one issue under a limit of one |
| ActorWitnesses.ClaimBehindLatch | internal/orchestrator/actor_finalize.go:139-175 | an in-order run that ends with an issue claimed by a due continuation that every poll is refused |
| ActorWitnesses.EarlyRetryRun | internal/orchestrator/actor_retry.go:289-304 | an in-order run in which the fired timer of a released entry spawns a later retry with the same attempt ten seconds before it is due |
| RetryTimers.EarlyOnlyByStaleTimer | internal/orchestrator/actor_retry.go:208-249 | on every run a landing timer chain that meets an entry of its issue before it is due is not that entry's own chain |
| FinalizeRoutes.ExitRoutes | internal/orchestrator/actor_finalize.go:43-175 | a failure retry, one attempt on, if and only if the error is neither quota nor input, the run is not to be parked, was not cancelled by reconciliation and is not cleaned after a turn; a quota retry of the same attempt and the told delay, a continuation with every turn so far, a cleanup with or without continuation, a block, each if and only if stated; on every other route the claim is dropped |
| FinalizeRoutes.ExitLatches | internal/orchestrator/actor_finalize.go:214-232 | a terminal exit is latched, under the state it reports, if and only if it was an operator stop or the agent had not announced that state |
| FinalizeRoutes.StrayExit | internal/orchestrator/state.go:624-635 | the exit of a worker whose entry is no longer the registered one changes no map and hands out nothing |
| FinalizeRoutes.EntryFollows | internal/orchestrator/runtime_events.go:53-103 | on every run the entry of a live worker changes by events about it and by nothing else, each in the stated fields |
| FinalizeRoutes.CancelledIsNotRetried | internal/orchestrator/actor_finalize.go:249-279 | on in-order runs, once a running issue was seen inactive or absent, the failure of its worker queues nothing and leaves no claim, unless the run is to be parked |
| FinalizeRoutes.AskedIsParked | internal/orchestrator/actor_finalize.go:69-114 | on every run, once a run asked for input or broke its budget, its exit is parked whatever the worker returns |
| FinalizeRoutes.TerminalIsCleaned | internal/orchestrator/actor_finalize.go:122-273 | on every run, a run with a turn whose issue was last seen terminal has its workspace cleaned when its worker exits, unless it is parked |
| FinalizeRoutes.LivingIsNotCleaned | internal/orchestrator/actor_reconcile.go:527-544 | on every run, a run whose issue was last seen active, absent or inactive without being terminal keeps its workspace, unless the worker reports a terminal state |
| CapacityGates.SpawnsWithinLimits | internal/orchestrator/actor_dispatch.go:108-119 | on every run, whenever an event asks for a worker, the issues that take up agent slots are within the global limit and those in the worker's state within the limit of that state |
| CapacityGates.DispatchVerdicts | internal/orchestrator/actor_dispatch.go:76-216 | an open issue is dispatched if and only if there is room and its continuation is not spent, answered "full" if and only if there is no room, and parked if it is spent; what the worker is told; any other dispatch leaves the issue alone |
| CapacityGates.FireVerdicts | internal/orchestrator/actor_retry.go:289-461 | a fired retry is ignored, woken, fetched for, released, spawned or put off, each in exactly the stated cases; with room nothing is put off |
| CapacityGates.FetchVerdicts | internal/orchestrator/actor_retry.go:613-669 | a listed issue goes on from its fetched row, an unlisted one is released, a terminal one latched under its terminal state and cleaned |
| CapacityGates.SameKey | internal/workflow/normalize.go:50-52 | two spellings of a state share a limit if and only if they agree up to case, surrounding space and the choice of space or underscore |
| ClaimEffects.RescheduleQueues | internal/orchestrator/actor_retry.go:208-249 | a reschedule replaces the entry, takes the claim, stops the old timer and arms the new one for the time the entry is due |
| ClaimEffects.FetchErrorPutsOff | internal/orchestrator/actor_retry.go:546-591 | a failed fetch puts the entry off, a failure by an attempt, a quota retry for the rest of its quiet window, and leaves it queued |
| ClaimEffects.RegisterStartsClean | internal/orchestrator/actor_dispatch.go:331-348 | a new run has what it was spawned with and nothing seen yet |
| ClaimEffects.InactiveReleases | internal/orchestrator/actor_reconcile.go:556-594 | a queued or blocked issue seen inactive is released; a terminal one is latched, its workspace cleaned and its continuation sent along unchanged |
| ClaimEffects.SeenGoneIsReleased | internal/orchestrator/actor_reconcile.go:527-544 | a running issue seen inactive or absent loses its claim and is cancelled; it is latched if and only if it is terminal and the agent had not announced that state |
| ClaimEffects.RefreshStoresRow | internal/orchestrator/actor_reconcile.go:312-329 | an active row is stored wherever the issue is held, withdraws what was seen before, and takes or gives no claim |
| ClaimStore.OrchestratorState.RunningIssueIds | internal/orchestrator/state.go:568-583 | the four loops compute the ids that are running or claimed and neither queued nor blocked |
| ClaimStore.OrchestratorState.RunningCountByStateExcluding | internal/orchestrator/state.go:544-566 | the loop counts exactly the counted ids, other than the excluded one, whose running or claimed issue is in the state |
| ClaimStore.OrchestratorState.StateCapacityFullExcluding | internal/orchestrator/state.go:533-542 | the per-state gate is closed if and only if a positive limit is configured for the state and reached |
| ClaimStore.OrchestratorState.GateFull | internal/orchestrator/actor_dispatch.go:108-119 | the gate is closed if and only if the global or the per-state limit is reached |
| ClaimStore.GateIgnoresQueued | internal/orchestrator/actor_retry.go:656-668 | refreshing the stored issue of a queued id changes no verdict of the capacity gate |
| ClaimStore.OrchestratorState.ReleaseClaim | internal/orchestrator/state.go:767-777 | drops claim, block and retry of the id, stops its timer, leaves Running and every other issue alone |
| ClaimStore.OrchestratorState.ScheduleRetry | internal/orchestrator/state.go:750-757 | replaces the retry entry, keeps the claim, stops the old timer, touches no other issue |
| ClaimStore.OrchestratorState.FinishRun | internal/orchestrator/state.go:624-635 | drops run and claim if and only if the run is still the registered one |
| ClaimStore.OrchestratorState.BlockRun | internal/orchestrator/state.go:681-708 | parks the run if and only if it is still the registered one |
| ClaimStore.OrchestratorState.BlockRetry | internal/orchestrator/state.go:710-739 | parks a queued retry and stops its timer |
| ClaimStore.OrchestratorState.RecordOperatorTerminalStop | internal/orchestrator/state_operator_stop.go:31-70 | a repeat refreshes the entry; a new latch is appended and the oldest dropped beyond the cap |
| ClaimStore.OrchestratorState.RecordDispatchSuppressed | internal/orchestrator/state_operator_stop.go:85-98 | counts a suppressed dispatch of a latched issue and changes nothing else |
| ClaimStore.OrchestratorState.ApplyDispatch | internal/orchestrator/actor_dispatch.go:76-144 | cleaning, latch, claim, budget and capacity gates in order; consumes a due continuation; reserves the claim; only the issue's own slot changes |
| ClaimStore.OrchestratorState.ApplyRegister | internal/orchestrator/actor_dispatch.go:343-348 | registers the worker's entry |
| ClaimStore.OrchestratorState.ApplyFinalize | internal/orchestrator/actor_finalize.go:43-67 | routes a worker's exit to block, clean exit, cleanup, quota retry, release or failure retry, in this priority |
| ClaimStore.OrchestratorState.ApplyCleanExit | internal/orchestrator/actor_finalize.go:122-175 | terminal self-stop, cleanup with continuation, budget block or continuation |
| ClaimStore.OrchestratorState.FinishAndRequeue | internal/orchestrator/actor_finalize.go:328-370 | the claim is taken back in the same operation that finishes the run |
| ClaimStore.OrchestratorState.ApplySchedule | internal/orchestrator/actor_retry.go:208-249 | queues an entry due after the scheduler's delay, without any claim check |
| ClaimStore.OrchestratorState.ApplyFire | internal/orchestrator/actor_retry.go:289-304 | a fire that matches no entry is dropped; a continuation wakes the poll; others fetch or dispatch |
| ClaimStore.OrchestratorState.DispatchTail | internal/orchestrator/actor_retry.go:427-461 | suppressed when latched, postponed when full with the entry left queued, else spawned with the claim kept |
| ClaimStore.OrchestratorState.ApplyPollFailed | internal/orchestrator/actor_retry.go:546-591 | asks for a reschedule and leaves the entry queued |
| ClaimStore.OrchestratorState.ApplyAfterFetch | internal/orchestrator/actor_retry.go:613-669 | dispatches a listed issue from its refreshed row, releases an unlisted one, and latches and cleans a terminal one |
| ClaimStore.OrchestratorState.ReconcileInactiveRun | internal/orchestrator/actor_reconcile.go:527-544 | releases the claim, marks the run cancelled, and latches a terminal state the agent does not own; says which timer it stopped |
| ClaimStore.OrchestratorState.ReconcileInactiveRetry | internal/orchestrator/actor_reconcile.go:556-571 | releases the retry; a terminal one is latched and cleaned, its continuation travelling with the cleanup; says which timer it stopped |
| ClaimStore.OrchestratorState.ReconcileInactiveBlocked | internal/orchestrator/actor_reconcile.go:579-594 | releases the block; a terminal one is latched and cleaned; says which timer it stopped |
| ClaimStore.OrchestratorState.ApplyReconcileInactive | internal/orchestrator/actor_reconcile.go:495-514 | the three walks settle every listed issue that holds anything exactly once, in some order, and touch no other; the timers stopped are exactly those of the settled issues |
| ClaimStore.OrchestratorState.ApplyReconcileAbsent | internal/orchestrator/actor_reconcile.go:461-485 | the three walks settle exactly the absent issues; failure and quota retries keep their claim; the timers stopped are exactly those of the released issues |
| ClaimStore.OrchestratorState.ReconcileAbsentRun | internal/orchestrator/actor_reconcile.go:463-473 | releases the claim of an absent running issue, marks the run cancelled without cleanup, and says which timer it stopped |
| ClaimStore.OrchestratorState.ReconcileAbsentQueued | internal/orchestrator/actor_reconcile.go:474-483 | releases an absent issue that is blocked or waits for a continuation; failure and quota retries keep their claim |
| ClaimStore.OrchestratorState.BeginWorkspaceCleanup | internal/orchestrator/actor_cleanup.go:57-65 | the mark is set if and only if the issue is neither claimed nor being cleaned |
| ClaimStore.OrchestratorState.EndWorkspaceCleanup | internal/orchestrator/actor_cleanup.go:72-76 | the mark is cleared and nothing else |
| ClaimStore.OrchestratorState.RecordFact | internal/orchestrator/runtime_events.go:53-103 | a runtime event changes the registered run of its issue only, and is dropped if there is none |
| ClaimStore.OrchestratorState.RefreshIssue | internal/orchestrator/actor_reconcile.go:312-329 | an active row refreshes the stored issue wherever the maps hold it, and nothing else |
| ClaimActor.Orchestrator.Handle | internal/orchestrator/actor.go:186-200 | if the state object and its in-flight work represent a state of the system, then after handling any enabled event they represent the system's next state |
| ClaimActor.Orchestrator.Execute | internal/orchestrator/actor.go:186-200 | through every run of the system the state object represents the run's state |
| ReconcileRuns.InactivePassIsRun | internal/orchestrator/actor_reconcile.go:495-514 | for every order of the walk, playing one enabled event per settled issue does to claim state, latch, timers and cleanups what the pass does: the flights are the old ones without the stopped timers, and one waiting cleanup for each issue that asks for one |
| ReconcileRuns.CleanupsAreFlights | internal/orchestrator/actor_reconcile.go:503-513 | the cleanups a pass hands out are those that its events put in flight |
| ReconcileRuns.InactivePassExtendsRun | internal/orchestrator/actor_reconcile.go:495-514 | an inactive pass extends any run to a run that ends in the state the pass leaves |
| ReconcileRuns.InactivePassKeepsOrder | internal/orchestrator/actor_reconcile.go:556-571 | it extends an in-order run to an in-order run if and only if it settles no retry whose postponement is in flight |
| ReconcileRuns.AbsentPassIsRun | internal/orchestrator/actor_reconcile.go:461-485 | for every order, playing one enabled event per absent issue does what the absent pass does; the flights are the old ones without the stopped timers |
| ReconcileRuns.AbsentPassExtendsRun | internal/orchestrator/actor_reconcile.go:461-485 | an absent pass extends any run to a run that ends in the state the pass leaves |
| ReconcileRuns.AbsentPassKeepsOrder | internal/orchestrator/actor_reconcile.go:479-483 | and always keeps an in-order run in order, since it releases no failure or quota retry |
| Backoff.NextDelay | internal/orchestrator/actor_retry.go:59-85 | the loop returns the override, one second for a continuation, and otherwise min(10 s · 2^(attempt−1), ceiling) except when an odd ceiling is one nanosecond above that delay; no intermediate value exceeds max(10 s, ceiling), so nothing overflows |
| Backoff.EvenCeilingIsSpec | internal/orchestrator/actor_retry.go:59-85 | for every even ceiling and every attempt the delay is the formula of section 8.4 of the Symphony SPEC |
| Backoff.DelayMonotone | internal/orchestrator/actor_retry.go:59-85 | a later attempt never waits less, whatever the ceiling |
| Backoff.OddCeilingRoundsUp | internal/orchestrator/actor_retry.go:59-85 | an odd ceiling on which the second attempt waits one nanosecond more than the formula |
| ContinuationRuns.ChainWithinBudget | internal/orchestrator/actor_finalize.go:122-247 | on every run with budget M > 0, a worker spawned by a dispatch has behind it a chain of clean sessions from a spawn that carried nothing; with its own session they are at most M, and if the runner keeps to the limit it is told for this session, all turns reported in them are at most M |
| ContinuationRuns.ChainBehind | internal/orchestrator/actor_dispatch.go:187-216 | behind every spawn of every run are the sessions whose turns it carries, each finalized before the next is dispatched, back to a spawn that carried nothing |
| ContinuationRuns.CarrierBehind | internal/orchestrator/actor_finalize.go:122-175 | in every state of every run a continuation, whether rescheduled, queued or travelling with a cleanup, comes from an earlier clean finalize of its issue that handed on exactly the turns it carries |
| ContinuationRuns.SessionBehind | internal/orchestrator/actor_dispatch.go:298-348 | on every run a spawning, live or exited worker goes back to the event that asked for it; its entry has the carried count of that request and has counted exactly the turns reported to it |
| ContinuationRuns.CountPays | internal/orchestrator/actor_finalize.go:234-239 | the count handed on by the last session of a chain is at least the number of its sessions and at least the number of its turns |
| ContinuationRuns.ContinuationLost | internal/orchestrator/actor_cleanup.go:229-274 | on every run a continuation goes only by a dispatch, by reconciliation, by a cleanup that gives it up, or by a new entry in its place |
| ContinuationRuns.SpawnComesFrom | internal/orchestrator/actor_dispatch.go:98-142 | a spawn comes from a dispatch, which passes on the count of the continuation it consumed and what that leaves of the budget, or from a failure or quota retry, which passes on neither |
| ContinuationBudget.SpentChainParks | internal/orchestrator/actor_finalize.go:199-212 | a spent chain is parked at once, or when its continuation comes to be dispatched |
| ContinuationBudget.EffectiveTurnLimit | internal/runner/codex_app_server.go:346-355 | the turn limit is the smaller of the configured limit, by default 20, and a positive budget |
| ContinuationBudget.RunTurns | internal/runner/codex_app_server.go:327-344 | the turn loop reports at most the limit of completed turns, stops at the first failure or clean stop, and otherwise uses the limit up |
| ReconcileTick.CollectRefreshed | internal/orchestrator/poller.go:430-470 | an asked-for issue is refreshed if and only if its row is current with a state, and absent if and only if its row says so; it carries the row's state, labels and blockers and otherwise what was listed |
| ReconcileTick.DeriveInactive | internal/orchestrator/poller.go:365-428 | an issue is inactive if and only if its row says so, or a successful listing has it and nothing says it is active; what is stored for it is its row or a listed one |
| ReconcileTick.ReconcileClaimed | internal/orchestrator/poller.go:260-332 | the absent and inactive sets of a tick, each characterised by the evidence, disjoint |
| ReconcileTick.TickNeedsEvidence | internal/orchestrator/poller.go:317-332 | a tick changes a claim only on positive evidence: an unknown or missing row without a listing changes nothing, a current active row with its labels beats every listing, absence alone never releases a failure or quota retry |
| ReconcileTick.TickActsOnEvidence | internal/orchestrator/poller.go:260-332 | what is held is let go, and its run cancelled, if its row lacks a required label or has a terminal or inactive state that is not active, or an inactive listing has it and nothing says it is active, or it is absent and not held by a failure or quota retry alone; otherwise the claim stays as it is |
| Tracker.LabelsSatisfyRequired | internal/orchestrator/poller_candidates.go:222-236 | the label gate holds if and only if every required label is present up to case and surrounding space |
| Candidates.BeforeIsStrictWeakOrder | internal/orchestrator/poller_candidates.go:257-297 | the comparator is a strict weak order, and ties agree on priority key, creation time and identifier |
| Candidates.SortIsStable | internal/orchestrator/poller_candidates.go:257-273 | sorting permutes, orders, and keeps ties in listing order |
| Candidates.SortLeads | internal/orchestrator/poller_candidates.go:257-297 | sorted, an issue of priority 1 to 4 never comes after one of larger or no priority, within a priority the older comes first and one of unknown age last, and then identifiers are in lexicographic order, character by character |
| Candidates.MergeOverflow | internal/orchestrator/poller_candidates.go:299-327 | the candidates left over come first, in their order, then the rest of the listing in its order; nothing unlisted comes back, no listed id is lost, and with unique ids the result is a permutation of the listing |
| Candidates.FilterEligible | internal/orchestrator/poller_candidates.go:187-207 | an ordered pick of exactly the eligible candidates not just found inactive |
| Candidates.FilterRevalidated | internal/orchestrator/poller_candidates.go:101-167 | an ordered pick of exactly the claimable candidates whose row is current, active, labelled and unblocked, each carrying its row |
| Candidates.Revalidated | internal/orchestrator/poller_candidates.go:127-167 | a candidate survives if and only if it is claimable and its row is current, active, labelled and unblocked |
| Candidates.TickCandidates | internal/orchestrator/poller.go:199-209 | what a tick hands to dispatch is in dispatch order by priority, age and identifier, and is a listed, claimable issue with its current row, active, fully labelled, with all its fields, and as a todo without an unfinished blocker; with unique ids it is every such issue, once |
| TokenTotals.TokenMeter.Record | internal/orchestrator/runtime_events.go:68-103 | after any reports the totals are the sum over all runs ever registered of each run's highest report; a report for no registered run is dropped |
| TokenTotals.TokenMeter.Register | internal/orchestrator/actor_dispatch.go:331-348 | a new run starts at zero and leaves the totals alone |
| TokenTotals.ApplyChannel | internal/orchestrator/runtime_events.go:315-339 | the recorded value is the higher one and the delta is what it rose by |
| TokenTotals.SumGrows | internal/orchestrator/state.go:99-106 | adding a run's positive delta keeps the totals equal to the sum of peaks |
| TokenTotals.TotalsIgnoreOrder | internal/orchestrator/runtime_events.go:315-332 | logs with the same reports, in any order and however often repeated, give the same totals |
| StdoutPump.LineQueue.Push | internal/runner/codex_app_server_transport.go:260-264 | the line is appended, and the answer is whether the charge is within the cap |
| StdoutPump.LineQueue.Pop | internal/runner/codex_app_server_transport.go:266-270 | the head is removed and the charge stays the sum over the queue |
| StdoutPump.ChargeIs | internal/runner/codex_app_server_transport.go:248-276 | the charge of the queue is the text in it and 64 bytes for each line |
| StdoutPump.ConsumerReceivesStream | internal/runner/codex_app_server_transport.go:195-246 | in every interleaving the consumer has a prefix of the scanned lines in order; on close it has been told of an overflow or has every line and the scanner's ending; the queue is within the cap and one line |
| StdoutPump.SmallOutputNeverOverflows | internal/runner/codex_app_server_transport.go:219-246 | output whose whole charge is within the cap never overflows |
| StdoutPump.ScannerDrainsAlone | internal/runner/codex_app_server_transport.go:285-291 | with the consumer standing still, the scanner alone still reads the whole output |
| AppServerProtocol.AnsweredExactlyOnce | internal/runner/codex_app_server_transport.go:50-109 | in a conducted transcript a server request followed by anything is answered, with the right body, by the next event, and no later reply answers that reading |
| AppServerApprovals.RepliesFollowPolicy | internal/runner/codex_app_server_approval.go:107-180 | every reply of a conducted transcript answers the message before it, grants if and only if that asks for an approval the policy permits, and is of the kind its method calls for: method-not-found for unknown methods, declined for elicitation, answers only under "never", each choosing an approving option of its question |
| AppServerApprovals.RefusalIsLast | internal/runner/codex_app_server_turn.go:218-239 | nothing follows a denied approval, a declined elicitation or a question that may not be answered |
| AppServerApprovals.InputAnswersAre | internal/runner/codex_app_server_approval.go:195-274 | user input is answered if and only if the policy is "never" and every question is a tool approval that offers one; the session-wide option is preferred, then the single one, then the first that approves |
| AppServerProtocol.RequestIsNoResponse | internal/runner/codex_app_server_response.go:13-68 | a message with a method is never taken for a response whatever its id, and a response taken has exactly the call's id (section 5 of the JSON-RPC 2.0 Specification) |
| AppServerSession.Client.HandleServerRequest | internal/runner/codex_app_server_turn.go:218-239 | the session goes on if and only if the reply was written and the request was none that only an operator can settle: a denied approval, an elicitation or unanswerable user input |
| AppServerSession.Client.HandleToolRequest | internal/runner/codex_app_server_approval.go:275-289 | a tool call is answered once with its output, or ends the session |
| AppServerSession.Client.Request | internal/runner/codex_app_server_transport.go:50-96 | the loop keeps the transcript conducted whatever is interleaved; it succeeds on the response with this call's id, fails on its error, and passes no response to the call over |
| AppServerSession.Client.AwaitTurn | internal/runner/codex_app_server_turn.go:28-48 | the turn loop keeps the transcript conducted, succeeds on a completed turn, fails on any other end, and passes no end of a turn over |
| AppServerSession.Client.Run | internal/runner/codex_app_server.go:327-344 | whatever the server sends, every server request of the session is answered exactly once before the next read, unless the session stops there for a stated reason; every failure is the fault of what was read last; nothing follows a request that needs an operator; every call has its own id, and the calls are the handshake and then one for each turn, within the limit |
| GiteaLabels.IssueStateFromLabels | internal/gitea/label_state.go:59-118 | the state is that of the first mapping whose label is present in some spelling, the last mapping of a label counting; unknown labels and conflicts are reported exactly; no state if and only if no known label |
| GiteaLabels.Tables | internal/gitea/label_state.go:63-72 | a label repeated in the mappings keeps its last state and priority |
| GiteaLabels.LabelNamesForStates | internal/gitea/label_state.go:123-142 | exactly the labels of the named states, each once |
| GiteaLabels.LabelForIs | internal/gitea/label_state.go:123-142 | a state that some mapping names with a label is listed by the label of the last such mapping |
| GiteaLabels.LabelForNames | internal/gitea/label_state.go:123-142 | and a label a state is listed by is that of its last mapping |
| LabelTool.IssueLabels.Replace | internal/runner/gitea_tools.go:61-105 | a call makes no request if and only if it has no issue, not exactly one known state label, or closes another issue or into a state that is not terminal; nothing else is ever closed; every other call does what the specification of a call gives for the requests that fail and keeps its promises; the desired label stays on once confirmed, labels that are no state labels are left alone, and a call that wrote nothing is not audited |
| LabelTool.IssueLabels.DeleteStale | internal/runner/gitea_tools.go:338-352 | deletes in order up to the first failure and names exactly what went |
| LabelTool.IssueLabels.CloseOrRestore | internal/runner/gitea_tools.go:354-376 | a failed close puts the deleted names back, and says whether it could |
| LabelReplace.AuditIsExact | internal/runner/gitea_tools.go:164-199 | the audit's conclusion from the landed writes is what happened if and only if no half-deleted name misleads it |
| LabelReplace.RunKeepsPromises | internal/runner/gitea_tools.go:61-105 | for every set of failing requests: success leaves the desired label as the only state label, closes if asked to and is audited if anything was written; what stays deleted is a prefix of the stale labels; nothing is lost if nothing stays deleted |
| LabelReplace.AcceptsIs | internal/runner/gitea_tools.go:240-293 | the tool accepts exactly the calls that are not to be refused |
| LabelReplace.CloseIsGuarded | internal/runner/gitea_tools.go:275-293 | an issue is closed only if it is the agent's own and the labels left on it put it in a terminal state |
| LabelReplace.NothingFails | internal/runner/gitea_tools.go:61-105 | an accepted call succeeds if no request fails and the server gave every stale label's id |
| LabelReplace.FailedCloseUndone | internal/runner/gitea_tools.go:354-376 | after a failed close every label is back on, or, if that fails too, the desired label is the only state label |
| LabelReplace.ReportIsExact | internal/runner/gitea_tools.go:135-199 | for every call and every set of failing requests a handoff is reported exactly when it happened, and as terminal exactly when it was, if and only if no name that stays half-deleted misleads the audit |
| LabelReplace.ExactWhateverFails | internal/runner/gitea_tools.go:135-199 | an accepted call reports exactly whatever fails, if and only if it is not about an active current issue or no prefix of the issue's stale labels at which deletion can stop misleads the audit: a check on the labels before the call |
| LabelReplace.ExactWithoutTwins | internal/runner/gitea_tools.go:135-183 | if no two stale labels are spellings of one name the handoff is reported exactly when it happened, whatever failed |
| LabelTool.TwinMisreports | internal/runner/gitea_tools.go:187-199 | two spellings of one label and a failed second deletion give a handoff report although the state is unchanged |
| LabelTool.MisreportingCall | internal/runner/gitea_tools.go:187-199 | the same as the outcome of a call of the tool |
| IssueListing.ListByLabel | internal/gitea/tracker_client_listing.go:76-137 | on a correctly paging server a listing has every wanted, unseen issue exactly once and fits under the cap, or is capped and does not fit, or failed on an unreadable issue or on one of the pages up to the probe behind the cap |
| IssueListing.CollectPage | internal/gitea/tracker_client_listing.go:146-164 | a page adds each new wanted issue once |
| IssueListing.ListByStates | internal/gitea/tracker_client_listing.go:51-73 | the union over labels has unique ids and every wanted issue of every list, is refused if any list was capped, and fails only on an unreadable issue or one of the pages of its lists |
| IssueListing.ListingIsExact | internal/gitea/label_state.go:123-142 | for every one-to-one mapping of labels to states, the union of the label lists is exactly the repository's issues whose derived state was asked for: the labels queried and the labels derived from agree |
| IssueListing.ClosedToo | internal/gitea/tracker_client_mapping.go:53-64 | closed issues are asked for if and only if one of the states is terminal, the default terminal states standing in for none configured |
| IssueListing.ListIssuesByStates | internal/gitea/tracker_client_listing.go:18-74 | what is returned is exactly the issues of the repository, closed ones only if a terminal state was asked for, that their labels put in one of the states asked for, once each and with that state; it is refused only for a failed page of a label queried, an unreadable issue or a list beyond the cap of 50 issues a page |
| CommandLine.Split | internal/runner/codex_app_server_cmd.go:126-192 | the loop computes the tokenizer's words, or fails on an open quote |
| CommandLine.HasShellSyntax | internal/runner/codex_app_server_cmd.go:201-277 | the loop finds shell syntax if and only if some rune means something to a shell where it stands, or a quote stays open |
| CommandLine.BackslashInQuotes | internal/runner/codex_app_server_cmd.go:143-163 | in double quotes a backslash quotes a dollar sign, a backtick, a double quote, a backslash or a newline, and stands for itself before anything else |
| CommandLine.PlainCommandsSplitLikeAShell | internal/runner/codex_app_server_cmd.go:119-280 | a command without shell syntax splits, into the words that section 2.2 (Quoting) of the POSIX Shell Command Language gives |
| CommandLine.QuotedJoinRoundTrips | internal/runner/codex_app_server_cmd.go:143-163 | splitting the double-quoted, escaped join of any list of strings gives the list back; the join is free of shell syntax if and only if no string holds a newline |

## Left out

- Shutdown, panic recovery and context cancellation of the actor: a cancelled run context drops work on purpose.
- Changes of MaxConcurrentAgents and MaxContinuationTurns while running: both are constants here.
- Entries as heap objects: run and retry entries are values that carry the identity of their goroutine or timer, and a worker whose entry was overwritten keeps its own copy.
- The cleanups of one reconcile pass run one after another in the program and as separate work items here, which allows more interleavings.
- Refresh and patch ops take one issue at a time here, and an issue carries no more than its id and state in the actor model; labels and blockers appear in the poller modules.
- Completed, ended-session and other observability lists of the state object, elapsed seconds, and the budget thresholds themselves: the exceeding of a budget is an event.
- The goroutine that delivers a worker's result, worker-exit waits of a reconcile pass, and the coalescing wake channel: a poll may happen at any time here.
- ActorDrivers.NoOrphans: says that a driver exists, not that it runs; the fairness of the Go scheduler and of the tracker is not modelled.
- ContinuationRuns.ChainWithinBudget: speaks of workers spawned by a dispatch; one spawned by a failure or quota retry carries no count and has no clean-turn budget in the program either. That the runner keeps to its limit is a hypothesis there and the contract of `RunTurns`.
- Tracker, Gitea and app-server payloads: decoded answers are inputs, and JSON, HTTP, timeouts and redaction are not part of this model.
- LabelTool.IssueLabels.Replace: assumes that a request reported as failed did not land, that nobody else edits the issue, and that a successful close yields a well-formed result.
- IssueListing.ListIssuesByStates: assumes that a label query matches label names regardless of case and that credentials are configured.
- Candidates.SortCandidates: stands for the result of the standard library's stable sort, not its algorithm.
- Case folding and trimming are those of ASCII.
- AppServerSession.Client.Run: read timeouts, stall detection and turn deadlines all appear as one failed read.
- Linear and GitHub adapters, workspace handling, configuration loading, HTTP state server and terminal user interface.
