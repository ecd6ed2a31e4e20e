/** What becomes of a run when its worker has exited, said in terms of the run's own fields and of what the
    worker returned: which exits are retried and how, which are parked, and which give the issue up. And
    over whole runs: what was seen about an issue while its worker ran decides where the exit leads. */
module FinalizeRoutes {
  import opened Prelude
  import opened Backoff
  import opened ClaimState
  import opened ActorSystem
  import opened ActorSafety
  import opened ActorDrivers
  import opened ActorRuns
  import opened ContinuationRuns

  // ---------------------------------------------------------------------------------------------
  // Routes

  /** Reconciliation saw the issue terminal and the agent has done something: the workspace goes. */
  predicate CleansAfterTurn(run: RunEntry) {
    run.reconcileCleanup && run.turnCount > 0
  }

  predicate TerminalExit(result: WorkerResult) {
    result.exit.Some? && result.exit.value.terminal
  }

  predicate RetriesFailure(cfg: Config, run: RunEntry, result: WorkerResult) {
    result.err.OtherError? && !MustPark(cfg, run, result) && !CleansAfterTurn(run) && !run.reconcileCancel
  }

  predicate WaitsForQuota(cfg: Config, run: RunEntry, result: WorkerResult) {
    result.err.QuotaError? && !MustPark(cfg, run, result) && !CleansAfterTurn(run)
  }

  predicate ContinuesWork(cfg: Config, run: RunEntry, result: WorkerResult) {
    result.err.NoError? && !MustPark(cfg, run, result) && !TerminalExit(result) && !CleansAfterTurn(run)
  }

  predicate Requeued(cfg: Config, run: RunEntry, result: WorkerResult) {
    RetriesFailure(cfg, run, result) || WaitsForQuota(cfg, run, result) || ContinuesWork(cfg, run, result)
  }

  /** The workspace is cleaned after a terminal exit, after a turn of a run whose issue was seen terminal,
      and after the failure of a run that was cancelled for that. */
  predicate Cleans(cfg: Config, run: RunEntry, result: WorkerResult) {
    && !MustPark(cfg, run, result) && cfg.hasCleaner && Trim(run.workspace) != ""
    && (|| (result.err.NoError? && TerminalExit(result)) || CleansAfterTurn(run)
        || (result.err.OtherError? && run.reconcileCancel && run.reconcileCleanup))
  }

  /** The continuation of a run: one attempt on, with every turn so far, a run without one counting as one. */
  predicate Continuing(run: RunEntry, r: RescheduleRequest) {
    && r.issue == run.issue && r.workspace == run.workspace && r.request == RetryRequest(Continuation, run.continuationAttempt + 1, 0)
    && r.continuationTurns >= run.continuationTurns + 1 && r.continuationTurns >= run.continuationTurns + run.turnCount
    && (r.continuationTurns == run.continuationTurns + 1 || r.continuationTurns == run.continuationTurns + run.turnCount)
  }

  /** A run that was retried n times is retried as attempt n + 1, the first time as attempt 1. */
  predicate Retrying(run: RunEntry, r: RescheduleRequest) {
    && r.issue == run.issue && r.workspace == run.workspace && r.continuationTurns == 0
    && r.request.kind == Failure && r.request.delayOverride == 0
    && r.request.attempt == if run.retryAttempt.Some? then run.retryAttempt.value + 1 else 1
  }

  /** A quota retry keeps its attempt and waits as long as it was told. */
  predicate WaitingOut(run: RunEntry, retryAfter: int, r: RescheduleRequest) {
    && r.issue == run.issue && r.workspace == run.workspace && r.continuationTurns == 0
    && r.request.kind == QuotaBackoff && r.request.delayOverride == retryAfter && r.request.attempt >= 0
    && (run.retryAttempt.Some? && run.retryAttempt.value >= 0 ==> r.request.attempt == run.retryAttempt.value)
    && (run.retryAttempt.None? || run.retryAttempt.value < 0 ==> r.request.attempt == 0)
  }

  /** What an exit hands to a followup, but for cleanups. */
  predicate RequeuedRight(cfg: Config, run: RunEntry, result: WorkerResult, followup: Followup) {
    var asked := followup.DoReschedule?;
    && (asked && followup.reschedule.request.kind == Failure <==> RetriesFailure(cfg, run, result))
    && (asked && followup.reschedule.request.kind == QuotaBackoff <==> WaitsForQuota(cfg, run, result))
    && (asked && followup.reschedule.request.kind == Continuation <==> ContinuesWork(cfg, run, result))
    && (RetriesFailure(cfg, run, result) ==> Retrying(run, followup.reschedule))
    && (WaitsForQuota(cfg, run, result) ==> WaitingOut(run, result.err.retryAfter, followup.reschedule))
    && (ContinuesWork(cfg, run, result) ==> Continuing(run, followup.reschedule))
    && !followup.DoSpawn? && !followup.DoFetch? && !followup.WakePoll?
  }

  /** A cleanup carries the continuation exactly if the exit was clean and not terminal. */
  predicate CleanedRight(cfg: Config, run: RunEntry, result: WorkerResult, followup: Followup) {
    && (followup.DoCleanup? <==> Cleans(cfg, run, result))
    && (followup.DoCleanup? ==> followup.cleanup.path == Trim(run.workspace))
    && (followup.DoCleanup? ==> (followup.cleanup.resume.Some? <==> result.err.NoError? && !TerminalExit(result)))
    && (followup.DoCleanup? && followup.cleanup.resume.Some? ==> Continuing(run, followup.cleanup.resume.value))
  }

  /** The claim is kept exactly if something is to follow for it. */
  predicate SettledRight(cfg: Config, slot: Slot, run: RunEntry, result: WorkerResult, slot': Slot) {
    && slot'.run.None? && slot'.cleaning == slot.cleaning
    && (MustPark(cfg, run, result) ==>
          && slot'.blocked == Some(BlockedEntry(run.issue, run.workspace)) && slot'.retry.None?
          && slot'.claimed && slot'.claimedIssue == Some(run.issue))
    && (!MustPark(cfg, run, result) ==> slot'.blocked == slot.blocked && slot'.retry == slot.retry)
    && (Requeued(cfg, run, result) ==> slot'.claimed && slot'.claimedIssue == Some(run.issue))
    && (!MustPark(cfg, run, result) && !Requeued(cfg, run, result) ==> !slot'.claimed && slot'.claimedIssue.None?)
  }

  lemma ExitRequeues(cfg: Config, id: IssueId, slot: Slot, latch: Latch, run: RunEntry, result: WorkerResult)
    requires slot.run.Some? && slot.run.value.token == run.token
    ensures RequeuedRight(cfg, run, result, Finalize(cfg, id, slot, latch, run, result).followup)
  {
    if result.err.NoError? && !(NeedsInput(run, result) || run.budgetExceeded) {
      CleanExitRequeues(cfg, id, slot, latch, run, result);
    }
  }

  lemma CleanExitRequeues(cfg: Config, id: IssueId, slot: Slot, latch: Latch, run: RunEntry, result: WorkerResult)
    requires slot.run.Some? && slot.run.value.token == run.token
    requires result.err.NoError? && !NeedsInput(run, result) && !run.budgetExceeded
    ensures RequeuedRight(cfg, run, result, CleanExit(cfg, id, slot, latch, run, result.exit).followup)
  {
  }

  lemma ExitCleans(cfg: Config, id: IssueId, slot: Slot, latch: Latch, run: RunEntry, result: WorkerResult)
    requires slot.run.Some? && slot.run.value.token == run.token
    ensures CleanedRight(cfg, run, result, Finalize(cfg, id, slot, latch, run, result).followup)
  {
  }

  lemma ExitSettles(cfg: Config, id: IssueId, slot: Slot, latch: Latch, run: RunEntry, result: WorkerResult)
    requires slot.run.Some? && slot.run.value.token == run.token
    ensures SettledRight(cfg, slot, run, result, Finalize(cfg, id, slot, latch, run, result).slot)
  {
  }

  /** The worker's own entry is the registered one. Its exit is parked, retried, continued, cleaned up after
      or given up, each in exactly the stated cases. */
  lemma ExitRoutes(cfg: Config, id: IssueId, slot: Slot, latch: Latch, run: RunEntry, result: WorkerResult)
    requires slot.run.Some? && slot.run.value.token == run.token
    ensures var out := Finalize(cfg, id, slot, latch, run, result);
            && RequeuedRight(cfg, run, result, out.followup) && CleanedRight(cfg, run, result, out.followup)
            && SettledRight(cfg, slot, run, result, out.slot)
  {
    ExitRequeues(cfg, id, slot, latch, run, result);
    ExitCleans(cfg, id, slot, latch, run, result);
    ExitSettles(cfg, id, slot, latch, run, result);
  }

  /** A terminal exit is latched as an operator stop if it was one, or if the agent had not announced it. */
  lemma ExitLatches(cfg: Config, id: IssueId, slot: Slot, latch: Latch, run: RunEntry, result: WorkerResult)
    ensures var out := Finalize(cfg, id, slot, latch, run, result);
            var stops := result.err.NoError? && TerminalExit(result) && !MustPark(cfg, run, result) &&
                         (result.exit.value.operatorStop || Trim(run.terminalHandoff) == "" ||
                          Fold(run.terminalHandoff) != Fold(result.exit.value.state));
            && (!stops ==> out.latch == latch)
            && (stops && (id in latch.stops || id !in latch.order) ==> id in out.latch.stops)
            && (stops && id !in latch.stops && id !in latch.order ==>
                  out.latch.stops[id].issue.state ==
                  if Trim(result.exit.value.state) == "" then run.issue.state else result.exit.value.state)
  {
  }

  /** The exit of a worker whose entry was overwritten or finished before changes nothing in the maps. */
  lemma StrayExit(cfg: Config, id: IssueId, slot: Slot, latch: Latch, run: RunEntry, result: WorkerResult)
    requires slot.run.None? || slot.run.value.token != run.token
    ensures var out := Finalize(cfg, id, slot, latch, run, result); out.slot == slot && out.followup.Nothing? && out.stopped.None?
  {
  }

  // ---------------------------------------------------------------------------------------------
  // What a worker's entry has been told

  /** The event is about the registered run of flight k. */
  predicate Reaches(s: Sys, ev: Event, k: nat) {
    k in s.flights && Live(s.flights[k]) && s.flights[k].detached.None? &&
    (ev.Observed? || ev.Refreshed? || ev.InactiveRunAt? || ev.AbsentRunAt?) && ev.id == s.flights[k].id
  }

  /** The entry of a live worker after an event: events about its registered run are noted in it, and
      nothing else changes it. */
  predicate Noted(cfg: Config, ev: Event, a: RunEntry, b: RunEntry) {
    match ev
    case Observed(_, TurnCompleted) => b == a.(turnCount := a.turnCount + 1)
    case Observed(_, InputNeeded) => b == a.(inputRequired := true)
    case Observed(_, BudgetExceeded) => b == a.(budgetExceeded := true)
    case Observed(_, Stalled) => b == a.(stallCanceled := a.stallCanceled || !a.budgetExceeded)
    case Observed(_, HandedOff(nonActive, state)) =>
      b == a.(handoff := a.handoff || nonActive, terminalHandoff := if state.Some? then Trim(state.value) else a.terminalHandoff)
    case Observed(_, WorkspaceReady(path)) => b == a.(workspace := path)
    case Refreshed(_, row) => b == a.(issue := row, reconcileCleanup := false, handoff := false, terminalHandoff := "")
    case InactiveRunAt(_, row) =>
      && b == a.(issue := row, reconcileCleanup := b.reconcileCleanup, reconcileCancel := true, terminalHandoff := b.terminalHandoff)
      && (b.reconcileCleanup <==> Fold(row.state) in cfg.terminalStates)
      && b.terminalHandoff == (if b.reconcileCleanup then a.terminalHandoff else "")
    case AbsentRunAt(_) => b == a.(reconcileCancel := true, reconcileCleanup := false, handoff := false, terminalHandoff := "")
    case _ => false
  }

  lemma LandingLeaves(cfg: Config, s: Sys, j: nat, input: Input, k: nat)
    requires Driven(s) && j in s.flights && k in s.flights && Live(s.flights[k])
    requires k in Land(cfg, s, j, input).flights && Live(Land(cfg, s, j, input).flights[k])
    ensures EntryOf(Land(cfg, s, j, input), k) == EntryOf(s, k)
  {
    var id := s.flights[k].id;
    assert DrivenAt(s, id) && Of(s, k, id) && WorkerOk(At(s.st, id), k, s.flights[k]);
    match s.flights[j]
    case Spawning(_, _) =>
    case Working(_, _) =>
    case Exited(_, _, _) =>
      if j != k {
        ExitLeaves(cfg, s, j, k);
      } else {
        FinalizeEnds(cfg, s, k);
      }
    case _ => AsideKeeps(cfg, s, j, input, k);
  }

  /** A finalize leaves the entries of other workers alone. */
  lemma ExitLeaves(cfg: Config, s: Sys, j: nat, k: nat)
    requires Driven(s) && j in s.flights && s.flights[j].Exited? && k in s.flights && Live(s.flights[k]) && j != k
    ensures var w := s.flights[j]; EntryOf(FinalizeStep(cfg, s, j, w.id, w.detached, w.result), k) == EntryOf(s, k)
  {
    var w, id := s.flights[j], s.flights[k].id;
    var slot := At(s.st, w.id);
    assert DrivenAt(s, w.id) && Of(s, j, w.id) && WorkerOk(slot, j, w);
    assert DrivenAt(s, id) && Of(s, k, id) && WorkerOk(At(s.st, id), k, s.flights[k]);
    var run := if w.detached.Some? then w.detached else slot.run;
    if slot.run.Some? && slot.run.value.token == k {
      StrayExit(cfg, w.id, slot, s.st.latch, run.value, w.result);
    }
  }

  /** An operation that nobody in flight submitted changes a worker's entry only through its slot. */
  lemma SettledEntry(s: Sys, x: IssueId, out: Outcome, k: nat)
    requires Numbered(s) && k in s.flights && Live(s.flights[k])
    ensures var s' := SettleNew(s, x, out);
            EntryOf(s', k) ==
            if s.flights[k].detached.None? && s.flights[k].id == x then out.slot.run else EntryOf(s, k)
  {
  }

  lemma NotedInactive(cfg: Config, id: IssueId, slot: Slot, latch: Latch, row: Issue)
    requires slot.run.Some?
    ensures var out := InactiveRun(cfg, id, slot, latch, row);
            out.slot.run.Some? && Noted(cfg, InactiveRunAt(id, row), slot.run.value, out.slot.run.value)
  {
  }

  lemma NotedObserved(cfg: Config, id: IssueId, slot: Slot, fact: RunFact)
    requires slot.run.Some?
    ensures Observe(slot, fact).run.Some? && Noted(cfg, Observed(id, fact), slot.run.value, Observe(slot, fact).run.value)
  {
  }

  lemma EntryNoted(cfg: Config, s: Sys, ev: Event, k: nat)
    requires Numbered(s) && Enabled(s, ev) && Reaches(s, ev, k) && At(s.st, ev.id).run.Some?
    ensures EntryOf(Apply(cfg, s, ev), k).Some? && Noted(cfg, ev, At(s.st, ev.id).run.value, EntryOf(Apply(cfg, s, ev), k).value)
  {
    match ev
    case InactiveRunAt(x, row) =>
      SettledEntry(s, x, InactiveRun(cfg, x, At(s.st, x), s.st.latch, row), k);
      NotedInactive(cfg, x, At(s.st, x), s.st.latch, row);
    case AbsentRunAt(x) => SettledEntry(s, x, AbsentRun(At(s.st, x), s.st.latch), k);
    case Observed(x, fact) => NotedObserved(cfg, x, At(s.st, x), fact);
    case Refreshed(_, _) =>
  }

  lemma EntryStays(cfg: Config, s: Sys, ev: Event, k: nat)
    requires Numbered(s) && Enabled(s, ev) && !ev.Lands? && k in s.flights && Live(s.flights[k]) && !Reaches(s, ev, k)
    ensures EntryOf(Apply(cfg, s, ev), k) == EntryOf(s, k)
  {
    match ev
    case Dispatches(issue, attempt, rechecked) => SettledEntry(s, issue.id, DispatchAt(cfg, s, issue, attempt, rechecked).out, k);
    case InactiveRunAt(x, row) => SettledEntry(s, x, InactiveRun(cfg, x, At(s.st, x), s.st.latch, row), k);
    case InactiveRetryAt(x, row) => SettledEntry(s, x, InactiveRetry(cfg, x, At(s.st, x), s.st.latch, row), k);
    case InactiveBlockedAt(x, row) => SettledEntry(s, x, InactiveBlocked(cfg, x, At(s.st, x), s.st.latch, row), k);
    case AbsentRunAt(x) => SettledEntry(s, x, AbsentRun(At(s.st, x), s.st.latch), k);
    case AbsentQueuedAt(x) => SettledEntry(s, x, AbsentQueued(At(s.st, x), s.st.latch), k);
    case _ =>
  }

  /** On every run, what a live worker's entry says is what events about it said. */
  lemma EntryFollows(cfg: Config, s: Sys, ev: Event, k: nat)
    requires Driven(s) && Enabled(s, ev) && k in s.flights && Live(s.flights[k])
    requires k in Apply(cfg, s, ev).flights && Live(Apply(cfg, s, ev).flights[k])
    ensures EntryOf(s, k).Some? && EntryOf(Apply(cfg, s, ev), k).Some?
    ensures if Reaches(s, ev, k) then Noted(cfg, ev, EntryOf(s, k).value, EntryOf(Apply(cfg, s, ev), k).value)
            else EntryOf(Apply(cfg, s, ev), k) == EntryOf(s, k)
  {
    var id := s.flights[k].id;
    assert DrivenAt(s, id) && Of(s, k, id) && WorkerOk(At(s.st, id), k, s.flights[k]);
    if ev.Lands? {
      LandingLeaves(cfg, s, ev.k, ev.input, k);
    } else if Reaches(s, ev, k) {
      EntryNoted(cfg, s, ev, k);
    } else {
      EntryStays(cfg, s, ev, k);
    }
  }

  // ---------------------------------------------------------------------------------------------
  // Whole runs

  predicate LiveAt(run: seq<Sys>, k: nat, m: nat) {
    m < |run| && k in run[m].flights && Live(run[m].flights[k])
  }

  ghost predicate LiveThrough(run: seq<Sys>, k: nat, i: nat, j: nat) {
    forall m :: i <= m <= j ==> LiveAt(run, k, m)
  }

  /** No event from i to before j bears on whether the workspace is to be cleaned. */
  ghost predicate Unjudged(run: seq<Sys>, events: seq<Event>, k: nat, i: nat, j: nat) {
    forall m :: i <= m < j ==> UnjudgedAt(run, events, k, m)
  }

  predicate UnjudgedAt(run: seq<Sys>, events: seq<Event>, k: nat, m: nat) {
    m < |events| && m < |run| && !Judges(run[m], events[m], k)
  }

  /** What a run has been told and does not forget. */
  predicate Remembers(a: RunEntry, b: RunEntry) {
    && (a.reconcileCancel ==> b.reconcileCancel) && (a.inputRequired ==> b.inputRequired)
    && (a.budgetExceeded ==> b.budgetExceeded) && a.turnCount <= b.turnCount
    && b.token == a.token && b.retryAttempt == a.retryAttempt
    && b.continuationAttempt == a.continuationAttempt && b.continuationTurns == a.continuationTurns
  }

  lemma NotedIsRemembered(cfg: Config, ev: Event, a: RunEntry, b: RunEntry)
    requires Noted(cfg, ev, a, b)
    ensures Remembers(a, b)
  {
    match ev
    case Observed(_, fact) =>
      match fact {
        case TurnCompleted =>
        case InputNeeded =>
        case BudgetExceeded =>
        case Stalled =>
        case HandedOff(_, _) =>
        case WorkspaceReady(_) =>
      }
    case Refreshed(_, _) =>
    case InactiveRunAt(_, _) =>
    case AbsentRunAt(_) =>
  }

  lemma StepRemembers(cfg: Config, s: Sys, ev: Event, k: nat)
    requires Driven(s) && Enabled(s, ev) && k in s.flights && Live(s.flights[k])
    requires k in Apply(cfg, s, ev).flights && Live(Apply(cfg, s, ev).flights[k])
    ensures EntryOf(s, k).Some? && EntryOf(Apply(cfg, s, ev), k).Some?
    ensures Remembers(EntryOf(s, k).value, EntryOf(Apply(cfg, s, ev), k).value)
  {
    EntryFollows(cfg, s, ev, k);
    if Reaches(s, ev, k) {
      NotedIsRemembered(cfg, ev, EntryOf(s, k).value, EntryOf(Apply(cfg, s, ev), k).value);
    }
  }

  lemma {:induction false} RunRemembers(cfg: Config, run: seq<Sys>, events: seq<Event>, k: nat, i: nat, j: nat)
    requires IsRun(cfg, run, events) && i <= j < |run| && LiveThrough(run, k, i, j)
    ensures EntryOf(run[i], k).Some? && EntryOf(run[j], k).Some?
    ensures Remembers(EntryOf(run[i], k).value, EntryOf(run[j], k).value)
  {
    assert LiveAt(run, k, i) && LiveAt(run, k, j);
    if i < j {
      assert LiveAt(run, k, j - 1);
      RunRemembers(cfg, run, events, k, i, j - 1);
      RunKeepsDrivers(cfg, run, events, j - 1);
      StepRemembers(cfg, run[j - 1], events[j - 1], k);
    } else {
      var id := run[i].flights[k].id;
      RunKeepsDrivers(cfg, run, events, i);
      assert DrivenAt(run[i], id) && Of(run[i], k, id) && WorkerOk(At(run[i].st, id), k, run[i].flights[k]);
    }
  }

  /** An observation that bears on whether the workspace is to be cleaned. */
  predicate Judges(s: Sys, ev: Event, k: nat) {
    Reaches(s, ev, k) && !ev.Observed?
  }

  lemma UnjudgedStays(cfg: Config, s: Sys, ev: Event, k: nat)
    requires Driven(s) && Enabled(s, ev) && k in s.flights && Live(s.flights[k]) && !Judges(s, ev, k)
    requires k in Apply(cfg, s, ev).flights && Live(Apply(cfg, s, ev).flights[k])
    ensures EntryOf(s, k).Some? && EntryOf(Apply(cfg, s, ev), k).Some?
    ensures EntryOf(Apply(cfg, s, ev), k).value.reconcileCleanup == EntryOf(s, k).value.reconcileCleanup
  {
    EntryFollows(cfg, s, ev, k);
  }

  lemma {:induction false} JudgementStands(cfg: Config, run: seq<Sys>, events: seq<Event>, k: nat, i: nat, j: nat)
    requires IsRun(cfg, run, events) && i <= j < |run| && LiveThrough(run, k, i, j)
    requires Unjudged(run, events, k, i, j)
    ensures EntryOf(run[i], k).Some? && EntryOf(run[j], k).Some?
    ensures EntryOf(run[j], k).value.reconcileCleanup == EntryOf(run[i], k).value.reconcileCleanup
  {
    RunRemembers(cfg, run, events, k, i, j);
    if i < j {
      JudgementStands(cfg, run, events, k, i, j - 1);
      RunKeepsDrivers(cfg, run, events, j - 1);
      assert UnjudgedAt(run, events, k, j - 1) && LiveAt(run, k, j - 1) && LiveAt(run, k, j);
      UnjudgedStays(cfg, run[j - 1], events[j - 1], k);
    }
  }

  /** Event j is the finalize of flight k, which still runs under the registered entry. */
  predicate Finalizes(run: seq<Sys>, events: seq<Event>, j: nat, k: nat)
    requires |events| < |run|
  {
    j < |events| && events[j].Lands? && events[j].k == k && k in run[j].flights && run[j].flights[k].Exited? &&
    run[j].flights[k].detached.None?
  }

  lemma FinalizeAt(cfg: Config, run: seq<Sys>, events: seq<Event>, j: nat, k: nat)
    requires IsRun(cfg, run, events) && Finalizes(run, events, j, k)
    ensures var w := run[j].flights[k];
            var slot := At(run[j].st, w.id);
            && EntryOf(run[j], k) == slot.run && slot.run.Some? && slot.run.value.token == k
            && run[j + 1] == Settle(run[j], w.id, Finalize(cfg, w.id, slot, run[j].st.latch, slot.run.value, w.result), k)
  {
    var id := run[j].flights[k].id;
    RunKeepsDrivers(cfg, run, events, j);
    assert DrivenAt(run[j], id) && Of(run[j], k, id) && WorkerOk(At(run[j].st, id), k, run[j].flights[k]);
    assert run[j + 1] == Land(cfg, run[j], k, events[j].input);
  }

  lemma CancelStands(cfg: Config, run: seq<Sys>, events: seq<Event>, k: nat, i: nat, j: nat)
    requires IsRun(cfg, run, events) && i < j < |run| && LiveThrough(run, k, i, j)
    requires Reaches(run[i], events[i], k) && (events[i].InactiveRunAt? || events[i].AbsentRunAt?)
    ensures EntryOf(run[j], k).Some? && EntryOf(run[j], k).value.reconcileCancel
  {
    assert LiveAt(run, k, i) && LiveAt(run, k, i + 1);
    RunKeepsDrivers(cfg, run, events, i);
    EntryFollows(cfg, run[i], events[i], k);
    RunRemembers(cfg, run, events, k, i + 1, j);
  }

  /** Work that reconciliation stopped stays stopped: once a running issue was seen inactive or absent, the
      failure of its worker queues nothing and leaves no claim, unless the run is to be parked. */
  lemma CancelledIsNotRetried(cfg: Config, run: seq<Sys>, events: seq<Event>, k: nat, i: nat, j: nat)
    requires IsRun(cfg, run, events) && InOrder(cfg, run, events) && Finalizes(run, events, j, k) && i < j
    requires LiveThrough(run, k, i, j)
    requires Reaches(run[i], events[i], k) && (events[i].InactiveRunAt? || events[i].AbsentRunAt?)
    requires run[j].flights[k].result.err.OtherError?
    ensures k in run[j + 1].flights ==> !run[j + 1].flights[k].Rescheduling?
    ensures var w := run[j].flights[k];
            var slot' := At(run[j + 1].st, w.id);
            EntryOf(run[j], k).Some? &&
            if MustPark(cfg, EntryOf(run[j], k).value, w.result) then slot'.blocked.Some?
            else slot'.blocked.None? && slot'.retry.None? && slot'.run.None? && !slot'.claimed
  {
    var w := run[j].flights[k];
    var slot := At(run[j].st, w.id);
    CancelStands(cfg, run, events, k, i, j);
    FinalizeAt(cfg, run, events, j, k);
    ExitRequeues(cfg, w.id, slot, run[j].st.latch, slot.run.value, w.result);
    ExitSettles(cfg, w.id, slot, run[j].st.latch, slot.run.value, w.result);
    RunsAreExclusive(cfg, run, events, j);
    assert OneHolder(run[j], w.id);
  }

  /** Once a run asked for input or broke its budget, its exit is parked whatever the worker returns. */
  lemma AskedIsParked(cfg: Config, run: seq<Sys>, events: seq<Event>, k: nat, i: nat, j: nat)
    requires IsRun(cfg, run, events) && Finalizes(run, events, j, k) && i < j
    requires LiveThrough(run, k, i, j)
    requires Reaches(run[i], events[i], k) && events[i].Observed? && (events[i].fact.InputNeeded? || events[i].fact.BudgetExceeded?)
    ensures At(run[j + 1].st, run[j].flights[k].id).blocked.Some? && k !in run[j + 1].flights
  {
    var w := run[j].flights[k];
    var slot := At(run[j].st, w.id);
    assert LiveAt(run, k, i) && LiveAt(run, k, i + 1);
    RunKeepsDrivers(cfg, run, events, i);
    EntryFollows(cfg, run[i], events[i], k);
    RunRemembers(cfg, run, events, k, i + 1, j);
    FinalizeAt(cfg, run, events, j, k);
    ExitRoutes(cfg, w.id, slot, run[j].st.latch, slot.run.value, w.result);
  }

  /** A run that reported a turn and whose issue was last seen in a terminal state has its workspace cleaned
      when its worker exits, however it exits, unless it is to be parked. */
  lemma TerminalIsCleaned(cfg: Config, run: seq<Sys>, events: seq<Event>, k: nat, i: nat, j: nat)
    requires IsRun(cfg, run, events) && Finalizes(run, events, j, k) && i < j
    requires LiveThrough(run, k, i, j)
    requires Reaches(run[i], events[i], k) && events[i].InactiveRunAt? && Fold(events[i].row.state) in cfg.terminalStates
    requires Unjudged(run, events, k, i + 1, j)
    requires EntryOf(run[j], k).Some? && cfg.hasCleaner
    ensures var w, entry := run[j].flights[k], EntryOf(run[j], k).value;
            entry.turnCount > 0 && Trim(entry.workspace) != "" && !MustPark(cfg, entry, w.result) ==>
              k in run[j + 1].flights && run[j + 1].flights[k].Cleaning? && run[j + 1].flights[k].id == w.id &&
              run[j + 1].flights[k].cleanup.path == Trim(entry.workspace)
  {
    var w := run[j].flights[k];
    var slot := At(run[j].st, w.id);
    assert LiveAt(run, k, i) && LiveAt(run, k, i + 1);
    RunKeepsDrivers(cfg, run, events, i);
    EntryFollows(cfg, run[i], events[i], k);
    JudgementStands(cfg, run, events, k, i + 1, j);
    FinalizeAt(cfg, run, events, j, k);
    ExitRoutes(cfg, w.id, slot, run[j].st.latch, slot.run.value, w.result);
  }

  /** A run whose issue was last seen active, or absent, or inactive but not terminal, keeps its workspace,
      unless its worker itself reports a terminal state. */
  lemma LivingIsNotCleaned(cfg: Config, run: seq<Sys>, events: seq<Event>, k: nat, i: nat, j: nat)
    requires IsRun(cfg, run, events) && Finalizes(run, events, j, k) && i < j
    requires LiveThrough(run, k, i, j)
    requires Judges(run[i], events[i], k) && (events[i].InactiveRunAt? ==> Fold(events[i].row.state) !in cfg.terminalStates)
    requires Unjudged(run, events, k, i + 1, j)
    requires !(run[j].flights[k].result.err.NoError? && TerminalExit(run[j].flights[k].result))
    ensures k in run[j + 1].flights ==> !run[j + 1].flights[k].Cleaning?
  {
    var w := run[j].flights[k];
    var slot := At(run[j].st, w.id);
    assert LiveAt(run, k, i) && LiveAt(run, k, i + 1);
    RunKeepsDrivers(cfg, run, events, i);
    EntryFollows(cfg, run[i], events[i], k);
    JudgementStands(cfg, run, events, k, i + 1, j);
    FinalizeAt(cfg, run, events, j, k);
    ExitRoutes(cfg, w.id, slot, run[j].st.latch, slot.run.value, w.result);
  }
}
