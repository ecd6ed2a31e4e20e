/** The orchestrator's authoritative claim state, seen one issue at a time, and for every operation
    the actor applies to it the issue's new slot and the work handed to a followup goroutine.

    Run entries and retry entries are pointers in the program; here each carries the identity of
    the goroutine (`token`) or of the timer (`serial`) it belongs to, and two entries are the same
    object exactly when those agree. */
module ClaimState {
  import opened Prelude
  import opened Backoff

  datatype IssueId = IssueId(key: string)

  datatype Issue = Issue(id: IssueId, state: string)

  /** Settings the model keeps fixed. State names are folded. */
  datatype Config = Config(
    maxAgents: nat,
    maxByState: map<string, int>,
    maxContinuationTurns: int,
    maxStops: nat,
    terminalStates: set<string>,
    maxBackoff: int,
    hasLister: bool,
    hasCleaner: bool,
    hasResolver: bool)

  datatype RunEntry = RunEntry(
    token: nat,
    issue: Issue,
    retryAttempt: Option<int>,
    continuationAttempt: int,
    continuationTurns: int,
    workspace: string,
    turnCount: nat,
    inputRequired: bool,
    budgetExceeded: bool,
    stallCanceled: bool,
    handoff: bool,
    terminalHandoff: string,
    reconcileCancel: bool,
    reconcileCleanup: bool)

  datatype BlockedEntry = BlockedEntry(issue: Issue, workspace: string)

  datatype RetryEntry = RetryEntry(
    serial: nat,
    issue: Issue,
    kind: RetryKind,
    attempt: int,
    dueAt: int,
    quotaDueAt: Option<int>,
    timerSet: bool,
    continuationTurns: int,
    workspace: string)

  datatype StopEntry = StopEntry(issue: Issue, suppressed: nat)

  /** Everything the claim maps say about one issue. */
  datatype Slot = Slot(
    run: Option<RunEntry>,
    blocked: Option<BlockedEntry>,
    retry: Option<RetryEntry>,
    claimed: bool,
    claimedIssue: Option<Issue>,
    cleaning: bool)

  const FREE: Slot := Slot(None, None, None, false, None, false)

  /** The operator-terminal-stop latch, its insertion order, and the count of latches ever made. */
  datatype Latch = Latch(stops: map<IssueId, StopEntry>, order: seq<IssueId>, total: nat)

  datatype State = State(slots: map<IssueId, Slot>, latch: Latch)

  const EMPTY: State := State(map[], Latch(map[], [], 0))

  function At(st: State, id: IssueId): Slot {
    if id in st.slots then st.slots[id] else FREE
  }

  // What a followup goroutine is asked to do.

  datatype SpawnRequest = SpawnRequest(
    issue: Issue,
    attempt: Option<int>,
    continuationAttempt: int,
    continuationTurns: int,
    cleanTurnBudget: int,
    workspace: string)

  datatype RescheduleRequest = RescheduleRequest(
    issue: Issue,
    request: RetryRequest,
    continuationTurns: int,
    workspace: string)

  /** A cleanup may carry a continuation to resume when it finds its issue active again. */
  datatype CleanupRequest = CleanupRequest(path: string, resume: Option<RescheduleRequest>)

  datatype Followup =
    | Nothing
    | WakePoll
    | DoSpawn(spawn: SpawnRequest)
    | DoReschedule(reschedule: RescheduleRequest)
    | DoFetch
    | DoCleanup(cleanup: CleanupRequest)

  /** The slot and latch after an operation, its followup, and the timer it stopped, if any. */
  datatype Outcome = Outcome(slot: Slot, latch: Latch, followup: Followup, stopped: Option<nat>)

  function Unchanged(slot: Slot, latch: Latch): Outcome {
    Outcome(slot, latch, Nothing, None)
  }

  // ---------------------------------------------------------------------------------------------
  // Queries

  predicate IsClaimed(slot: Slot) {
    slot.claimed || slot.run.Some? || slot.blocked.Some? || slot.retry.Some?
  }

  /** The issue has an entry in Running, RetryAttempts or Blocked. */
  predicate Held(slot: Slot) {
    slot.run.Some? || slot.retry.Some? || slot.blocked.Some?
  }

  predicate IsTerminal(cfg: Config, state: string) {
    Fold(state) in cfg.terminalStates
  }

  /** The issue occupies an agent slot: running or reserved, and neither queued nor blocked. */
  predicate Counts(slot: Slot) {
    (slot.run.Some? || slot.claimed) && slot.retry.None? && slot.blocked.None?
  }

  function Counted(st: State): set<IssueId> {
    set id | id in st.slots && Counts(st.slots[id])
  }

  function RunningCount(st: State): nat {
    |Counted(st)|
  }

  function Underscores(s: string): string {
    seq(|s|, i requires 0 <= i < |s| => if s[i] == ' ' then '_' else s[i])
  }

  function StateKey(state: string): string {
    Underscores(Fold(state))
  }

  predicate HoldsState(slot: Slot, key: string) {
    if slot.run.Some? then StateKey(slot.run.value.issue.state) == key
    else slot.claimedIssue.Some? && StateKey(slot.claimedIssue.value.state) == key
  }

  function CountByState(st: State, key: string, excluded: Option<IssueId>): nat {
    |set id | id in Counted(st) && excluded != Some(id) && HoldsState(At(st, id), key)|
  }

  predicate StateFull(cfg: Config, st: State, state: string, excluded: Option<IssueId>) {
    var key := StateKey(state);
    key in cfg.maxByState && cfg.maxByState[key] > 0 && key != "" &&
    CountByState(st, key, excluded) >= cfg.maxByState[key]
  }

  /** The gate every dispatch passes: the global limit, then the limit of the issue's state. */
  predicate AtCapacity(cfg: Config, st: State, state: string, excluded: Option<IssueId>) {
    RunningCount(st) >= cfg.maxAgents || StateFull(cfg, st, state, excluded)
  }

  predicate IsDue(entry: RetryEntry, now: int) {
    entry.dueAt <= now
  }

  /** The claim gate shared by dispatch and by the poller's pre-dispatch filter. */
  predicate GateAllows(slot: Slot, now: int) {
    if slot.retry.Some? then slot.retry.value.kind == Continuation && IsDue(slot.retry.value, now)
    else !IsClaimed(slot)
  }

  predicate BudgetSpent(maxContinuationTurns: int, turns: int) {
    maxContinuationTurns > 0 && turns >= maxContinuationTurns
  }

  function CleanTurnBudget(maxContinuationTurns: int, turns: int): int {
    Max(maxContinuationTurns - turns, 0)
  }

  /** A clean exit always spends at least one turn of the budget. */
  function TurnDelta(run: RunEntry): int {
    if run.turnCount > 0 then run.turnCount else 1
  }

  function TimerOf(slot: Slot): Option<nat> {
    if slot.retry.Some? && slot.retry.value.timerSet then Some(slot.retry.value.serial) else None
  }

  predicate OwnsTerminalState(run: RunEntry, state: string) {
    !Blank(run.terminalHandoff) && Fold(run.terminalHandoff) == Fold(state)
  }

  // ---------------------------------------------------------------------------------------------
  // Transitions of the state on its own

  /** ReleaseClaim leaves the running entry alone. */
  function Released(slot: Slot): Slot {
    slot.(claimed := false, claimedIssue := None, blocked := None, retry := None)
  }

  function RecordStop(cfg: Config, latch: Latch, id: IssueId, issue: Issue): Latch {
    if id in latch.stops then
      if Blank(issue.state) then latch
      else latch.(stops := latch.stops[id := latch.stops[id].(issue := issue)])
    else
      var stops := latch.stops[id := StopEntry(issue, 0)];
      var order := latch.order + [id];
      if cfg.maxStops > 0 && |order| > cfg.maxStops
      then Latch(stops - {order[0]}, order[1..], latch.total + 1)
      else Latch(stops, order, latch.total + 1)
  }

  function Suppressed(latch: Latch, id: IssueId): Latch {
    if id in latch.stops
    then latch.(stops := latch.stops[id := latch.stops[id].(suppressed := latch.stops[id].suppressed + 1)])
    else latch
  }

  predicate IsCurrentRun(slot: Slot, run: RunEntry) {
    slot.run.Some? && slot.run.value.token == run.token
  }

  /** Every FinishRun variant drops the run and its claim. */
  function Finished(slot: Slot): Slot {
    slot.(run := None, claimed := false, claimedIssue := None)
  }

  function Blocked(slot: Slot, issue: Issue, workspace: string): Slot {
    slot.(retry := None, claimed := true, claimedIssue := Some(issue),
          blocked := Some(BlockedEntry(issue, workspace)))
  }

  /** Keeps or takes the claim of an issue whose next step is already in a followup's hands. */
  function Claiming(slot: Slot, issue: Issue): Slot {
    slot.(claimed := true, claimedIssue := Some(issue))
  }

  // ---------------------------------------------------------------------------------------------
  // dispatchOp

  datatype DispatchVerdict = Dispatched | NotDispatched | CapacityFull

  datatype DispatchOutcome = DispatchOutcome(out: Outcome, verdict: DispatchVerdict)

  function Refuse(slot: Slot, latch: Latch, verdict: DispatchVerdict): DispatchOutcome {
    DispatchOutcome(Unchanged(slot, latch), verdict)
  }

  predicate ClaimDenied(slot: Slot, now: int, rechecked: bool) {
    if rechecked then !GateAllows(slot, now) else IsClaimed(slot)
  }

  /** `full` is the verdict of the capacity gate. */
  function Dispatch(cfg: Config, slot: Slot, latch: Latch, now: int, issue: Issue, attempt: Option<int>,
                    rechecked: bool, full: bool): DispatchOutcome
  {
    if slot.cleaning then Refuse(slot, latch, NotDispatched)
    else if issue.id in latch.stops then Refuse(slot, Suppressed(latch, issue.id), NotDispatched)
    else if ClaimDenied(slot, now, rechecked) then Refuse(slot, latch, NotDispatched)
    else Accept(cfg, slot, latch, issue, attempt, full)
  }

  /** The budget and capacity gates behind the claim gate. A queued entry that passed the claim gate
      is a due continuation, and the dispatch consumes it. */
  function Accept(cfg: Config, slot: Slot, latch: Latch, issue: Issue, attempt: Option<int>, full: bool)
    : DispatchOutcome
  {
    var entry := slot.retry;
    var turns := if entry.Some? then entry.value.continuationTurns else 0;
    if entry.Some? && BudgetSpent(cfg.maxContinuationTurns, turns) then
      var stored := if issue.id.key == "" then entry.value.issue else issue;
      DispatchOutcome(Outcome(Blocked(slot, stored, entry.value.workspace), latch, Nothing, TimerOf(slot)),
                      NotDispatched)
    else if full then Refuse(slot, latch, CapacityFull)
    else
      var request :=
        SpawnRequest(issue, attempt, if entry.Some? then entry.value.attempt else 0, turns,
                     CleanTurnBudget(cfg.maxContinuationTurns, turns),
                     if entry.Some? then entry.value.workspace else "");
      DispatchOutcome(Outcome(Claiming(slot.(retry := None), issue), latch, DoSpawn(request), TimerOf(slot)),
                      Dispatched)
  }

  /** The register op of spawn: the worker's entry becomes the running entry. */
  function NewRun(token: nat, r: SpawnRequest): RunEntry {
    RunEntry(token, r.issue, r.attempt, r.continuationAttempt, r.continuationTurns, r.workspace,
             0, false, false, false, false, "", false, false)
  }

  function Registered(slot: Slot, token: nat, r: SpawnRequest): Slot {
    slot.(run := Some(NewRun(token, r)))
  }

  // ---------------------------------------------------------------------------------------------
  // finalizeRunOp

  datatype RunError = NoError | InputRequiredError | QuotaError(retryAfter: int) | OtherError

  datatype ExitState = ExitState(state: string, terminal: bool, operatorStop: bool)

  datatype WorkerResult = WorkerResult(err: RunError, inputRequired: bool, exit: Option<ExitState>)

  function NextAttempt(attempt: Option<int>): int {
    if attempt.Some? then attempt.value + 1 else 1
  }

  function CleanupAt(path: string, resume: Option<RescheduleRequest>): Followup {
    if Blank(path) then Nothing else DoCleanup(CleanupRequest(Trim(path), resume))
  }

  function CleanupFor(cfg: Config, run: RunEntry, resume: Option<RescheduleRequest>): Followup {
    if !run.reconcileCleanup || !cfg.hasCleaner then Nothing else CleanupAt(run.workspace, resume)
  }

  function ContinuationOf(run: RunEntry): RescheduleRequest {
    RescheduleRequest(run.issue, RetryRequest(Continuation, run.continuationAttempt + 1, 0),
                      run.continuationTurns + TurnDelta(run), run.workspace)
  }

  function FailureRetry(run: RunEntry): RescheduleRequest {
    RescheduleRequest(run.issue, RetryRequest(Failure, NextAttempt(run.retryAttempt), 0), 0, run.workspace)
  }

  function QuotaRetry(run: RunEntry, retryAfter: int): RescheduleRequest {
    var attempt := if run.retryAttempt.Some? then Max(run.retryAttempt.value, 0) else 0;
    RescheduleRequest(run.issue, RetryRequest(QuotaBackoff, attempt, retryAfter), 0, run.workspace)
  }

  /** Finish the run if it is still the registered one; otherwise leave the maps alone. */
  function Finishing(slot: Slot, latch: Latch, run: RunEntry, followup: Followup): Outcome {
    if IsCurrentRun(slot, run) then Outcome(Finished(slot), latch, followup, None) else Unchanged(slot, latch)
  }

  function Blocking(slot: Slot, latch: Latch, run: RunEntry): Outcome {
    Unchanged(if IsCurrentRun(slot, run) then Blocked(slot.(run := None), run.issue, run.workspace) else slot,
              latch)
  }

  /** Finish the run but keep its claim for the retry the followup will queue. */
  function Requeueing(slot: Slot, latch: Latch, run: RunEntry, request: RescheduleRequest): Outcome {
    if IsCurrentRun(slot, run)
    then Outcome(Claiming(Finished(slot), run.issue), latch, DoReschedule(request), None)
    else Unchanged(slot, latch)
  }

  predicate NeedsInput(run: RunEntry, result: WorkerResult) {
    run.inputRequired || result.inputRequired || result.err.InputRequiredError?
  }

  function Finalize(cfg: Config, id: IssueId, slot: Slot, latch: Latch, run: RunEntry, result: WorkerResult)
    : Outcome
  {
    if NeedsInput(run, result) || run.budgetExceeded then Blocking(slot, latch, run)
    else if result.err.NoError? then CleanExit(cfg, id, slot, latch, run, result.exit)
    else if run.reconcileCleanup && run.turnCount > 0 then Finishing(slot, latch, run, CleanupFor(cfg, run, None))
    else if result.err.QuotaError? then Requeueing(slot, latch, run, QuotaRetry(run, result.err.retryAfter))
    else if run.reconcileCancel then Finishing(slot, latch, run, CleanupFor(cfg, run, None))
    else Requeueing(slot, latch, run, FailureRetry(run))
  }

  function CleanExit(cfg: Config, id: IssueId, slot: Slot, latch: Latch, run: RunEntry, exit: Option<ExitState>)
    : Outcome
  {
    if exit.Some? && exit.value.terminal then TerminalSelfStop(cfg, id, slot, latch, run, exit.value)
    else if run.reconcileCleanup && run.turnCount > 0 then
      Finishing(slot, latch, run, CleanupFor(cfg, run, Some(ContinuationOf(run))))
    else if exit.None? && BudgetSpent(cfg.maxContinuationTurns, run.continuationTurns + TurnDelta(run)) then
      Blocking(slot, latch, run)
    else Requeueing(slot, latch, run, ContinuationOf(run))
  }

  /** The latch is recorded before the program looks whether the run is still registered. */
  function TerminalSelfStop(cfg: Config, id: IssueId, slot: Slot, latch: Latch, run: RunEntry, exit: ExitState)
    : Outcome
  {
    var issue := if Blank(exit.state) then run.issue else run.issue.(state := exit.state);
    var latch' :=
      if exit.operatorStop || !OwnsTerminalState(run, exit.state)
      then RecordStop(cfg, latch, id, issue) else latch;
    Finishing(slot, latch', run, CleanupFor(cfg, run.(issue := issue, reconcileCleanup := true), None))
  }

  // ---------------------------------------------------------------------------------------------
  // Retry ops

  /** scheduleRetryOp: `serial` is the identity of the timer it arms. */
  function NewRetry(cfg: Config, now: int, serial: nat, r: RescheduleRequest): RetryEntry {
    var dueAt := now + Delay(cfg.maxBackoff, r.request);
    RetryEntry(serial, r.issue, r.request.kind, r.request.attempt, dueAt,
               if r.request.kind == QuotaBackoff && r.request.delayOverride > 0 then Some(dueAt) else None,
               true, r.continuationTurns, r.workspace)
  }

  function Queued(slot: Slot, entry: RetryEntry): Slot {
    Claiming(slot, entry.issue).(retry := Some(entry))
  }

  /** A late timer is recognised only by its attempt number and kind. */
  predicate Matches(slot: Slot, attempt: int, kind: RetryKind) {
    slot.retry.Some? && slot.retry.value.attempt == attempt && slot.retry.value.kind == kind
  }

  function TimerCleared(slot: Slot): Slot
    requires slot.retry.Some?
  {
    slot.(retry := Some(slot.retry.value.(timerSet := false)))
  }

  function Fire(cfg: Config, id: IssueId, slot: Slot, latch: Latch, now: int, attempt: int, kind: RetryKind,
                full: bool): Outcome
  {
    if !Matches(slot, attempt, kind) then Unchanged(slot, latch)
    else if kind == Continuation then Outcome(TimerCleared(slot), latch, WakePoll, None)
    else if cfg.hasLister then Outcome(TimerCleared(slot), latch, DoFetch, None)
    else FireTail(id, slot, latch, now, full)
  }

  /** The remaining quiet window of a quota retry. */
  function QuotaRemaining(entry: RetryEntry, now: int): int {
    if entry.kind == QuotaBackoff && entry.quotaDueAt.Some? then Max(entry.quotaDueAt.value - now, 0) else 0
  }

  /** The reschedule that a failed poll or a full capacity gate asks for. The entry itself stays
      queued until the reschedule op replaces it. */
  function Postponed(entry: RetryEntry, now: int): RescheduleRequest {
    RescheduleRequest(entry.issue,
                      if entry.kind == QuotaBackoff
                      then RetryRequest(QuotaBackoff, entry.attempt, QuotaRemaining(entry, now))
                      else RetryRequest(Failure, entry.attempt + 1, 0),
                      0, entry.workspace)
  }

  function RetrySpawn(entry: RetryEntry): SpawnRequest {
    SpawnRequest(entry.issue,
                 if entry.kind != QuotaBackoff || entry.attempt > 0 then Some(entry.attempt) else None,
                 0, 0, 0, entry.workspace)
  }

  function FireTail(id: IssueId, slot: Slot, latch: Latch, now: int, full: bool): Outcome
    requires slot.retry.Some?
  {
    if id in latch.stops then Outcome(Released(slot), Suppressed(latch, id), Nothing, TimerOf(slot))
    else if full then Outcome(slot, latch, DoReschedule(Postponed(slot.retry.value, now)), None)
    else Outcome(slot.(retry := None), latch, DoSpawn(RetrySpawn(slot.retry.value)), None)
  }

  function PollFailed(slot: Slot, latch: Latch, now: int, attempt: int, kind: RetryKind): Outcome {
    if !Matches(slot, attempt, kind) then Unchanged(slot, latch)
    else Outcome(slot, latch, DoReschedule(Postponed(slot.retry.value, now)), None)
  }

  /** The fetched row replaces the stored issue before the capacity gate looks at its state. */
  function WithFound(slot: Slot, found: Issue): Slot
    requires slot.retry.Some?
  {
    slot.(retry := Some(slot.retry.value.(issue := found)), claimedIssue := Some(found))
  }

  /** `found` is the issue's row in the active listing; `terminal` its terminal state if it had no
      such row and the resolver reported one. */
  function AfterFetch(cfg: Config, id: IssueId, slot: Slot, latch: Latch, now: int, attempt: int, kind: RetryKind,
                      found: Option<Issue>, terminal: Option<string>, full: bool): Outcome
  {
    if !Matches(slot, attempt, kind) then Unchanged(slot, latch)
    else if found.Some? then FireTail(id, WithFound(slot, found.value), latch, now, full)
    else if terminal.None? then Outcome(Released(slot), latch, Nothing, TimerOf(slot))
    else
      var entry := slot.retry.value;
      Outcome(Released(slot), RecordStop(cfg, latch, id, entry.issue.(state := terminal.value)),
              CleanupAt(entry.workspace, None), TimerOf(slot))
  }

  // ---------------------------------------------------------------------------------------------
  // Reconcile ops, one issue at a time

  function InactiveRun(cfg: Config, id: IssueId, slot: Slot, latch: Latch, row: Issue): Outcome
    requires slot.run.Some?
  {
    var run := slot.run.value;
    var terminal := IsTerminal(cfg, row.state);
    var run' := run.(issue := row, reconcileCleanup := terminal, reconcileCancel := true,
                     terminalHandoff := if terminal then run.terminalHandoff else "");
    var latch' :=
      if terminal && !OwnsTerminalState(run, row.state) then RecordStop(cfg, latch, id, row) else latch;
    Outcome(Released(slot).(run := Some(run')), latch', Nothing, TimerOf(slot))
  }

  /** A terminal retry is cleaned; a queued continuation travels with the cleanup. */
  function InactiveRetry(cfg: Config, id: IssueId, slot: Slot, latch: Latch, row: Issue): Outcome
    requires slot.retry.Some?
  {
    var entry := slot.retry.value;
    if !IsTerminal(cfg, row.state) then Outcome(Released(slot), latch, Nothing, TimerOf(slot))
    else
      var resume :=
        if entry.kind == Continuation
        then Some(RescheduleRequest(entry.issue, RetryRequest(Continuation, entry.attempt, 0),
                                    entry.continuationTurns, entry.workspace))
        else None;
      Outcome(Released(slot), RecordStop(cfg, latch, id, row), CleanupAt(entry.workspace, resume), TimerOf(slot))
  }

  function InactiveBlocked(cfg: Config, id: IssueId, slot: Slot, latch: Latch, row: Issue): Outcome
    requires slot.blocked.Some?
  {
    if !IsTerminal(cfg, row.state) then Outcome(Released(slot), latch, Nothing, TimerOf(slot))
    else
      Outcome(Released(slot), RecordStop(cfg, latch, id, row), CleanupAt(slot.blocked.value.workspace, None),
              TimerOf(slot))
  }

  function AbsentRun(slot: Slot, latch: Latch): Outcome
    requires slot.run.Some?
  {
    var run := slot.run.value.(reconcileCancel := true, reconcileCleanup := false,
                               handoff := false, terminalHandoff := "");
    Outcome(Released(slot).(run := Some(run)), latch, Nothing, TimerOf(slot))
  }

  /** Absence releases blocked work and continuations; failure and quota retries keep their claim. */
  function AbsentQueued(slot: Slot, latch: Latch): Outcome {
    if slot.blocked.Some? || (slot.retry.Some? && slot.retry.value.kind == Continuation)
    then Outcome(Released(slot), latch, Nothing, TimerOf(slot))
    else Unchanged(slot, latch)
  }

  /** Facts that runtime events and the stall and budget passes fold into a running entry. */
  datatype RunFact =
    | TurnCompleted
    | InputNeeded
    | BudgetExceeded
    | Stalled
    | HandedOff(nonActive: bool, terminalState: Option<string>)
    | WorkspaceReady(path: string)

  function WithFact(run: RunEntry, fact: RunFact): RunEntry {
    match fact
    case TurnCompleted => run.(turnCount := run.turnCount + 1)
    case InputNeeded => run.(inputRequired := true)
    case BudgetExceeded => run.(budgetExceeded := true)
    case Stalled => if run.budgetExceeded then run else run.(stallCanceled := true)
    case HandedOff(nonActive, state) =>
      run.(handoff := run.handoff || nonActive,
           terminalHandoff := if state.Some? then Trim(state.value) else run.terminalHandoff)
    case WorkspaceReady(path) => run.(workspace := path)
  }

  /** Facts about a run nobody registered are dropped. */
  function Observe(slot: Slot, fact: RunFact): Slot {
    if slot.run.Some? then slot.(run := Some(WithFact(slot.run.value, fact))) else slot
  }

  /** An active row refreshes the stored issue and withdraws an earlier terminal observation. */
  function RefreshActive(slot: Slot, row: Issue): Slot {
    if slot.run.None? && slot.retry.None? && slot.blocked.None? then slot
    else
      slot.(run := if slot.run.None? then None
                   else Some(slot.run.value.(issue := row, reconcileCleanup := false,
                                             handoff := false, terminalHandoff := "")),
            retry := if slot.retry.None? then None else Some(slot.retry.value.(issue := row)),
            blocked := if slot.blocked.None? then None else Some(slot.blocked.value.(issue := row)),
            claimedIssue := Some(row))
  }

  // ---------------------------------------------------------------------------------------------
  // Cleanup ops

  predicate MayClean(slot: Slot) {
    !IsClaimed(slot) && !slot.cleaning
  }
}
