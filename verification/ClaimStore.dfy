/** The orchestrator's state object: overlapping maps that the actor's operations update in place.
    Every operation is proved to do to its issue's slot, and to the latch, exactly what the claim
    state says, and nothing to any other issue. */
module ClaimStore {
  import opened Prelude
  import opened Backoff
  import opened ClaimState
  import opened ReconcilePass

  function Lookup<K, V>(m: map<K, V>, k: K): Option<V> {
    if k in m then Some(m[k]) else None
  }

  /** Refreshing a queued id changes no verdict of the capacity gate. */
  lemma GateIgnoresQueued(cfg: Config, st: State, st': State, id: IssueId, state: string)
    requires At(st, id).retry.Some? && At(st', id).retry.Some?
    requires forall x :: x != id ==> At(st', x) == At(st, x)
    ensures AtCapacity(cfg, st, state, None) == AtCapacity(cfg, st', state, None)
  {
    forall x ensures x in Counted(st) <==> x in Counted(st') {
      assert x == id || At(st, x) == At(st', x);
    }
    assert Counted(st) == Counted(st');
    var key := StateKey(state);
    assert (set x | x in Counted(st) && None != Some(x) && HoldsState(At(st, x), key)) ==
           (set x | x in Counted(st') && None != Some(x) && HoldsState(At(st', x), key));
  }

  class OrchestratorState {
    const cfg: Config
    var running: map<IssueId, RunEntry>
    var blocked: map<IssueId, BlockedEntry>
    var claimed: set<IssueId>
    var claimedIssues: map<IssueId, Issue>
    var retryAttempts: map<IssueId, RetryEntry>
    var cleaningWorkspaces: set<IssueId>
    var operatorTerminalStops: map<IssueId, StopEntry>
    var operatorTerminalStopOrder: seq<IssueId>
    var operatorTerminalStopsTotal: nat

    constructor (cfg: Config)
      ensures this.cfg == cfg && View() == EMPTY
    {
      this.cfg := cfg;
      running, blocked, retryAttempts := map[], map[], map[];
      claimed, claimedIssues, cleaningWorkspaces := {}, map[], {};
      operatorTerminalStops, operatorTerminalStopOrder, operatorTerminalStopsTotal := map[], [], 0;
    }

    /** What the maps say about one issue. */
    function SlotOf(id: IssueId): Slot
      reads this
    {
      Slot(Lookup(running, id), Lookup(blocked, id), Lookup(retryAttempts, id), id in claimed,
           Lookup(claimedIssues, id), id in cleaningWorkspaces)
    }

    function LatchOf(): Latch
      reads this
    {
      Latch(operatorTerminalStops, operatorTerminalStopOrder, operatorTerminalStopsTotal)
    }

    function Known(): set<IssueId>
      reads this
    {
      running.Keys + blocked.Keys + retryAttempts.Keys + claimed + claimedIssues.Keys + cleaningWorkspaces
    }

    /** The claim state that the maps represent. */
    function View(): (st: State)
      reads this
      ensures st.latch == LatchOf() && forall id :: At(st, id) == SlotOf(id)
    {
      State(map id | id in Known() :: SlotOf(id), LatchOf())
    }

    /** The operation gave id this slot and left this latch, and no other issue noticed. */
    twostate predicate Becomes(id: IssueId, slot: Slot, latch: Latch)
      reads this
    {
      SlotOf(id) == slot && LatchOf() == latch && forall x :: x != id ==> SlotOf(x) == old(SlotOf(x))
    }

    /** The maps say what st says. */
    ghost predicate Represents(st: State)
      reads this
    {
      st.latch == LatchOf() && forall id :: At(st, id) == SlotOf(id)
    }

    // -------------------------------------------------------------------------------------------
    // Counts

    /** The ids that consume agent concurrency: running or reserved, minus queued, minus blocked. */
    method RunningIssueIds() returns (counted: set<IssueId>)
      ensures counted == Counted(View())
    {
      counted := AddAll({}, running.Keys);
      counted := AddAll(counted, claimed);
      counted := RemoveAll(counted, retryAttempts.Keys);
      counted := RemoveAll(counted, blocked.Keys);
      ghost var st := View();
      forall id ensures id in counted <==> id in Counted(st) {
        assert At(st, id) == SlotOf(id);
      }
    }

    static method AddAll(counted: set<IssueId>, ids: set<IssueId>) returns (more: set<IssueId>)
      ensures more == counted + ids
    {
      more := counted;
      var todo := ids;
      while todo != {}
        invariant todo <= ids && more == counted + (ids - todo)
        decreases |todo|
      {
        var id :| id in todo;
        more, todo := more + {id}, todo - {id};
      }
    }

    static method RemoveAll(counted: set<IssueId>, ids: set<IssueId>) returns (fewer: set<IssueId>)
      ensures fewer == counted - ids
    {
      fewer := counted;
      var todo := ids;
      while todo != {}
        invariant todo <= ids && fewer == counted - (ids - todo)
        decreases |todo|
      {
        var id :| id in todo;
        fewer, todo := fewer - {id}, todo - {id};
      }
    }

    method RunningCountByStateExcluding(state: string, excluded: Option<IssueId>) returns (count: nat)
      ensures count == if StateKey(state) == "" then 0 else CountByState(View(), StateKey(state), excluded)
    {
      var key := StateKey(state);
      if key == "" {
        return 0;
      }
      var counted := RunningIssueIds();
      if excluded.Some? {
        counted := counted - {excluded.value};
      }
      count := CountHolding(counted, key);
      ghost var st := View();
      assert (set id | id in counted && HoldsState(SlotOf(id), key)) ==
             (set id | id in Counted(st) && excluded != Some(id) && HoldsState(At(st, id), key));
    }

    method CountHolding(counted: set<IssueId>, key: string) returns (count: nat)
      ensures count == |set id | id in counted && HoldsState(SlotOf(id), key)|
    {
      count := 0;
      var todo := counted;
      ghost var hits: set<IssueId> := {};
      while todo != {}
        invariant todo <= counted && count == |hits|
        invariant hits == set id | id in counted - todo && HoldsState(SlotOf(id), key)
        decreases |todo|
      {
        var id :| id in todo;
        if HoldsState(SlotOf(id), key) {
          count, hits := count + 1, hits + {id};
        }
        todo := todo - {id};
      }
      assert counted - todo == counted;
    }

    method StateCapacityFullExcluding(state: string, excluded: Option<IssueId>) returns (full: bool)
      ensures full <==> StateFull(cfg, View(), state, excluded)
    {
      var key := StateKey(state);
      if key !in cfg.maxByState || cfg.maxByState[key] <= 0 {
        return false;
      }
      var count := RunningCountByStateExcluding(state, excluded);
      return count >= cfg.maxByState[key];
    }

    method GateFull(state: string, excluded: Option<IssueId>) returns (full: bool)
      ensures full <==> AtCapacity(cfg, View(), state, excluded)
    {
      var counted := RunningIssueIds();
      if |counted| >= cfg.maxAgents {
        return true;
      }
      full := StateCapacityFullExcluding(state, excluded);
    }

    // -------------------------------------------------------------------------------------------
    // Transitions of the state on its own

    method ReleaseClaim(id: IssueId) returns (stopped: Option<nat>)
      modifies this
      ensures Becomes(id, Released(old(SlotOf(id))), old(LatchOf()))
      ensures stopped == TimerOf(old(SlotOf(id)))
    {
      stopped := None;
      claimed := claimed - {id};
      claimedIssues := claimedIssues - {id};
      blocked := blocked - {id};
      if id in retryAttempts {
        if retryAttempts[id].timerSet {
          stopped := Some(retryAttempts[id].serial);
        }
        retryAttempts := retryAttempts - {id};
      }
    }

    method ScheduleRetry(id: IssueId, entry: RetryEntry) returns (stopped: Option<nat>)
      modifies this
      ensures Becomes(id, Queued(old(SlotOf(id)), entry), old(LatchOf()))
      ensures stopped == TimerOf(old(SlotOf(id)))
    {
      stopped := None;
      if id in retryAttempts && retryAttempts[id].timerSet {
        stopped := Some(retryAttempts[id].serial);
      }
      retryAttempts := retryAttempts[id := entry];
      claimed := claimed + {id};
      claimedIssues := claimedIssues[id := entry.issue];
    }

    method Claim(id: IssueId, issue: Issue)
      modifies this
      ensures Becomes(id, Claiming(old(SlotOf(id)), issue), old(LatchOf()))
    {
      claimed := claimed + {id};
      claimedIssues := claimedIssues[id := issue];
    }

    method FinishRun(id: IssueId, run: RunEntry) returns (ok: bool)
      modifies this
      ensures ok <==> IsCurrentRun(old(SlotOf(id)), run)
      ensures Becomes(id, if ok then Finished(old(SlotOf(id))) else old(SlotOf(id)), old(LatchOf()))
    {
      if id !in running || running[id].token != run.token {
        return false;
      }
      running := running - {id};
      claimed := claimed - {id};
      claimedIssues := claimedIssues - {id};
      return true;
    }

    method BlockRun(id: IssueId, run: RunEntry) returns (ok: bool)
      modifies this
      ensures ok <==> IsCurrentRun(old(SlotOf(id)), run)
      ensures Becomes(id, Blocking(old(SlotOf(id)), old(LatchOf()), run).slot, old(LatchOf()))
    {
      if id !in running || running[id].token != run.token {
        return false;
      }
      running := running - {id};
      retryAttempts := retryAttempts - {id};
      claimed := claimed + {id};
      claimedIssues := claimedIssues[id := run.issue];
      blocked := blocked[id := BlockedEntry(run.issue, run.workspace)];
      return true;
    }

    method BlockRetry(id: IssueId, issue: Issue) returns (stopped: Option<nat>)
      requires id in retryAttempts
      modifies this
      ensures var entry := old(retryAttempts[id]);
              Becomes(id, Blocked(old(SlotOf(id)), if issue.id.key == "" then entry.issue else issue, entry.workspace),
                      old(LatchOf()))
      ensures stopped == TimerOf(old(SlotOf(id)))
    {
      var entry := retryAttempts[id];
      stopped := if entry.timerSet then Some(entry.serial) else None;
      var stored := if issue.id.key == "" then entry.issue else issue;
      retryAttempts := retryAttempts - {id};
      claimed := claimed + {id};
      claimedIssues := claimedIssues[id := stored];
      blocked := blocked[id := BlockedEntry(stored, entry.workspace)];
    }

    method RecordOperatorTerminalStop(id: IssueId, issue: Issue)
      modifies this
      ensures Becomes(id, old(SlotOf(id)), RecordStop(cfg, old(LatchOf()), id, issue))
    {
      if id in operatorTerminalStops {
        if !Blank(issue.state) {
          operatorTerminalStops := operatorTerminalStops[id := operatorTerminalStops[id].(issue := issue)];
        }
        return;
      }
      operatorTerminalStops := operatorTerminalStops[id := StopEntry(issue, 0)];
      operatorTerminalStopOrder := operatorTerminalStopOrder + [id];
      operatorTerminalStopsTotal := operatorTerminalStopsTotal + 1;
      if cfg.maxStops > 0 && |operatorTerminalStopOrder| > cfg.maxStops {
        var oldest := operatorTerminalStopOrder[0];
        operatorTerminalStopOrder := operatorTerminalStopOrder[1..];
        operatorTerminalStops := operatorTerminalStops - {oldest};
      }
    }

    method RecordDispatchSuppressed(id: IssueId)
      modifies this
      ensures Becomes(id, old(SlotOf(id)), Suppressed(old(LatchOf()), id))
    {
      if id in operatorTerminalStops {
        var stop := operatorTerminalStops[id];
        operatorTerminalStops := operatorTerminalStops[id := stop.(suppressed := stop.suppressed + 1)];
      }
    }

    // -------------------------------------------------------------------------------------------
    // dispatchOp and its register op

    method ApplyDispatch(issue: Issue, attempt: Option<int>, rechecked: bool, now: int)
      returns (verdict: DispatchVerdict, followup: Followup, stopped: Option<nat>)
      modifies this
      ensures var slot, latch := old(SlotOf(issue.id)), old(LatchOf());
              var excluded := if slot.retry.Some? then Some(issue.id) else None;
              var full := old(AtCapacity(cfg, View(), issue.state, excluded));
              var d := Dispatch(cfg, slot, latch, now, issue, attempt, rechecked, full);
              Becomes(issue.id, d.out.slot, d.out.latch) &&
              verdict == d.verdict && followup == d.out.followup && stopped == d.out.stopped
    {
      var id := issue.id;
      verdict, followup, stopped := NotDispatched, Nothing, None;
      if id in cleaningWorkspaces {
        return;
      }
      if id in operatorTerminalStops {
        RecordDispatchSuppressed(id);
        return;
      }
      if ClaimDenied(SlotOf(id), now, rechecked) {
        return;
      }
      verdict, followup, stopped := AcceptDispatch(issue, attempt);
    }

    method AcceptDispatch(issue: Issue, attempt: Option<int>)
      returns (verdict: DispatchVerdict, followup: Followup, stopped: Option<nat>)
      modifies this
      ensures var slot, latch := old(SlotOf(issue.id)), old(LatchOf());
              var excluded := if slot.retry.Some? then Some(issue.id) else None;
              var full := old(AtCapacity(cfg, View(), issue.state, excluded));
              var d := Accept(cfg, slot, latch, issue, attempt, full);
              Becomes(issue.id, d.out.slot, d.out.latch) &&
              verdict == d.verdict && followup == d.out.followup && stopped == d.out.stopped
    {
      var id, slot := issue.id, SlotOf(issue.id);
      verdict, followup, stopped := NotDispatched, Nothing, None;
      var turns := if slot.retry.Some? then slot.retry.value.continuationTurns else 0;
      if slot.retry.Some? && BudgetSpent(cfg.maxContinuationTurns, turns) {
        stopped := BlockRetry(id, issue);
        return;
      }
      var full := GateFull(issue.state, if slot.retry.Some? then Some(id) else None);
      if full {
        verdict := CapacityFull;
        return;
      }
      stopped := TimerOf(slot);
      retryAttempts := retryAttempts - {id};
      claimed := claimed + {id};
      claimedIssues := claimedIssues[id := issue];
      verdict := Dispatched;
      followup := DoSpawn(SpawnRequest(issue, attempt, if slot.retry.Some? then slot.retry.value.attempt else 0,
                                       turns, CleanTurnBudget(cfg.maxContinuationTurns, turns),
                                       if slot.retry.Some? then slot.retry.value.workspace else ""));
    }

    method ApplyRegister(id: IssueId, token: nat, r: SpawnRequest)
      modifies this
      ensures Becomes(id, Registered(old(SlotOf(id)), token, r), old(LatchOf()))
    {
      running := running[id := NewRun(token, r)];
    }

    // -------------------------------------------------------------------------------------------
    // finalizeRunOp

    method ApplyFinalize(id: IssueId, run: RunEntry, result: WorkerResult) returns (followup: Followup)
      modifies this
      ensures var out := Finalize(cfg, id, old(SlotOf(id)), old(LatchOf()), run, result);
              Becomes(id, out.slot, out.latch) && followup == out.followup && out.stopped.None?
    {
      followup := Nothing;
      if NeedsInput(run, result) || run.budgetExceeded {
        var _ := BlockRun(id, run);
        return;
      }
      if result.err.NoError? {
        followup := ApplyCleanExit(id, run, result.exit);
        return;
      }
      if run.reconcileCleanup && run.turnCount > 0 {
        followup := FinishWith(id, run, CleanupFor(cfg, run, None));
        return;
      }
      if result.err.QuotaError? {
        followup := FinishAndRequeue(id, run, QuotaRetry(run, result.err.retryAfter));
        return;
      }
      if run.reconcileCancel {
        followup := FinishWith(id, run, CleanupFor(cfg, run, None));
        return;
      }
      followup := FinishAndRequeue(id, run, FailureRetry(run));
    }

    method FinishWith(id: IssueId, run: RunEntry, after: Followup) returns (followup: Followup)
      modifies this
      ensures var out := Finishing(old(SlotOf(id)), old(LatchOf()), run, after);
              Becomes(id, out.slot, out.latch) && followup == out.followup && out.stopped.None?
    {
      var ok := FinishRun(id, run);
      followup := if ok then after else Nothing;
    }

    /** The claim is taken back at once, so that no dispatch slips in before the reschedule. */
    method FinishAndRequeue(id: IssueId, run: RunEntry, request: RescheduleRequest) returns (followup: Followup)
      modifies this
      ensures var out := Requeueing(old(SlotOf(id)), old(LatchOf()), run, request);
              Becomes(id, out.slot, out.latch) && followup == out.followup && out.stopped.None?
    {
      var ok := FinishRun(id, run);
      if !ok {
        return Nothing;
      }
      Claim(id, run.issue);
      return DoReschedule(request);
    }

    method ApplyCleanExit(id: IssueId, run: RunEntry, exit: Option<ExitState>) returns (followup: Followup)
      modifies this
      ensures var out := CleanExit(cfg, id, old(SlotOf(id)), old(LatchOf()), run, exit);
              Becomes(id, out.slot, out.latch) && followup == out.followup && out.stopped.None?
    {
      if exit.Some? && exit.value.terminal {
        var issue := if Blank(exit.value.state) then run.issue else run.issue.(state := exit.value.state);
        if exit.value.operatorStop || !OwnsTerminalState(run, exit.value.state) {
          RecordOperatorTerminalStop(id, issue);
        }
        followup := FinishWith(id, run, CleanupFor(cfg, run.(issue := issue, reconcileCleanup := true), None));
        return;
      }
      if run.reconcileCleanup && run.turnCount > 0 {
        followup := FinishWith(id, run, CleanupFor(cfg, run, Some(ContinuationOf(run))));
        return;
      }
      if exit.None? && BudgetSpent(cfg.maxContinuationTurns, run.continuationTurns + TurnDelta(run)) {
        var _ := BlockRun(id, run);
        return Nothing;
      }
      followup := FinishAndRequeue(id, run, ContinuationOf(run));
    }

    // -------------------------------------------------------------------------------------------
    // Retry ops

    method ApplySchedule(id: IssueId, now: int, serial: nat, r: RescheduleRequest) returns (stopped: Option<nat>)
      modifies this
      ensures Becomes(id, Queued(old(SlotOf(id)), NewRetry(cfg, now, serial, r)), old(LatchOf()))
      ensures stopped == TimerOf(old(SlotOf(id)))
    {
      var delay, _ := NextDelay(cfg.maxBackoff, r.request);
      var dueAt := now + delay;
      var quotaDueAt := None;
      if r.request.kind == QuotaBackoff && r.request.delayOverride > 0 {
        quotaDueAt := Some(dueAt);
      }
      stopped := ScheduleRetry(id, RetryEntry(serial, r.issue, r.request.kind, r.request.attempt, dueAt, quotaDueAt,
                                              true, r.continuationTurns, r.workspace));
    }

    method ApplyFire(id: IssueId, now: int, attempt: int, kind: RetryKind)
      returns (followup: Followup, stopped: Option<nat>)
      modifies this
      ensures var slot := old(SlotOf(id));
              var full := old(AtCapacity(cfg, View(), if id in retryAttempts then retryAttempts[id].issue.state else "", None));
              var out := Fire(cfg, id, slot, old(LatchOf()), now, attempt, kind, full);
              Becomes(id, out.slot, out.latch) && followup == out.followup && stopped == out.stopped
    {
      if id !in retryAttempts || retryAttempts[id].attempt != attempt || retryAttempts[id].kind != kind {
        return Nothing, None;
      }
      if kind == Continuation {
        retryAttempts := retryAttempts[id := retryAttempts[id].(timerSet := false)];
        return WakePoll, None;
      }
      if cfg.hasLister {
        retryAttempts := retryAttempts[id := retryAttempts[id].(timerSet := false)];
        return DoFetch, None;
      }
      followup, stopped := DispatchTail(id, now);
    }

    method DispatchTail(id: IssueId, now: int) returns (followup: Followup, stopped: Option<nat>)
      requires id in retryAttempts
      modifies this
      ensures var slot := old(SlotOf(id));
              var full := old(AtCapacity(cfg, View(), slot.retry.value.issue.state, None));
              var out := FireTail(id, slot, old(LatchOf()), now, full);
              Becomes(id, out.slot, out.latch) && followup == out.followup && stopped == out.stopped
    {
      followup, stopped := Nothing, None;
      var entry := retryAttempts[id];
      if id in operatorTerminalStops {
        RecordDispatchSuppressed(id);
        stopped := ReleaseClaim(id);
        return;
      }
      var full := GateFull(entry.issue.state, None);
      if full {
        return DoReschedule(Postponed(entry, now)), None;
      }
      retryAttempts := retryAttempts - {id};
      followup := DoSpawn(RetrySpawn(entry));
    }

    /** The fetched row replaces the stored issue. The capacity gate does not look at the stored issue
        of a queued id, so its verdict stays. */
    method StoreFound(id: IssueId, found: Issue)
      requires id in retryAttempts
      modifies this
      ensures Becomes(id, WithFound(old(SlotOf(id)), found), old(LatchOf()))
      ensures AtCapacity(cfg, View(), found.state, None) == old(AtCapacity(cfg, View(), found.state, None))
    {
      ghost var before := View();
      retryAttempts := retryAttempts[id := retryAttempts[id].(issue := found)];
      claimedIssues := claimedIssues[id := found];
      GateIgnoresQueued(cfg, before, View(), id, found.state);
    }

    method ApplyAfterFetch(id: IssueId, now: int, attempt: int, kind: RetryKind, found: Option<Issue>,
                           terminal: Option<string>)
      returns (followup: Followup, stopped: Option<nat>)
      modifies this
      ensures var full := old(AtCapacity(cfg, View(), if found.Some? then found.value.state else "", None));
              var out := AfterFetch(cfg, id, old(SlotOf(id)), old(LatchOf()), now, attempt, kind, found, terminal, full);
              Becomes(id, out.slot, out.latch) && followup == out.followup && stopped == out.stopped
    {
      followup, stopped := Nothing, None;
      if id !in retryAttempts || retryAttempts[id].attempt != attempt || retryAttempts[id].kind != kind {
        return;
      }
      var entry := retryAttempts[id];
      if found.Some? {
        StoreFound(id, found.value);
        followup, stopped := DispatchTail(id, now);
        return;
      }
      if terminal.Some? {
        RecordOperatorTerminalStop(id, entry.issue.(state := terminal.value));
        followup := CleanupAt(entry.workspace, None);
      }
      stopped := ReleaseClaim(id);
    }

    method ApplyPollFailed(id: IssueId, now: int, attempt: int, kind: RetryKind) returns (followup: Followup)
      ensures var out := PollFailed(SlotOf(id), LatchOf(), now, attempt, kind);
              out.slot == SlotOf(id) && out.latch == LatchOf() && out.stopped.None? && followup == out.followup
    {
      if id !in retryAttempts || retryAttempts[id].attempt != attempt || retryAttempts[id].kind != kind {
        return Nothing;
      }
      return DoReschedule(Postponed(retryAttempts[id], now));
    }

    // -------------------------------------------------------------------------------------------
    // Reconcile ops

    method ReconcileInactiveRun(id: IssueId, row: Issue) returns (stopped: Option<nat>)
      requires id in running
      modifies this
      ensures var out := InactiveRun(cfg, id, old(SlotOf(id)), old(LatchOf()), row);
              Becomes(id, out.slot, out.latch) && out.followup.Nothing? && stopped == out.stopped
    {
      var run := running[id];
      var terminal := IsTerminal(cfg, row.state);
      stopped := ReleaseClaim(id);
      if terminal {
        if !OwnsTerminalState(run, row.state) {
          RecordOperatorTerminalStop(id, row);
        }
      } else {
        run := run.(terminalHandoff := "");
      }
      running := running[id := run.(issue := row, reconcileCleanup := terminal, reconcileCancel := true)];
    }

    method ReconcileInactiveRetry(id: IssueId, row: Issue) returns (cleanup: Followup, stopped: Option<nat>)
      requires id in retryAttempts
      modifies this
      ensures var out := InactiveRetry(cfg, id, old(SlotOf(id)), old(LatchOf()), row);
              Becomes(id, out.slot, out.latch) && cleanup == out.followup && stopped == out.stopped
    {
      var entry := retryAttempts[id];
      cleanup := Nothing;
      if IsTerminal(cfg, row.state) {
        RecordOperatorTerminalStop(id, row);
        var resume := None;
        if entry.kind == Continuation {
          resume := Some(RescheduleRequest(entry.issue, RetryRequest(Continuation, entry.attempt, 0),
                                           entry.continuationTurns, entry.workspace));
        }
        cleanup := CleanupAt(entry.workspace, resume);
      }
      stopped := ReleaseClaim(id);
    }

    method ReconcileInactiveBlocked(id: IssueId, row: Issue) returns (cleanup: Followup, stopped: Option<nat>)
      requires id in blocked
      modifies this
      ensures var out := InactiveBlocked(cfg, id, old(SlotOf(id)), old(LatchOf()), row);
              Becomes(id, out.slot, out.latch) && cleanup == out.followup && stopped == out.stopped
    {
      var entry := blocked[id];
      cleanup := Nothing;
      if IsTerminal(cfg, row.state) {
        RecordOperatorTerminalStop(id, row);
        cleanup := CleanupAt(entry.workspace, None);
      }
      stopped := ReleaseClaim(id);
    }

    /** One issue of the inactive pass. */
    method SettleInactive(id: IssueId, row: Issue, ghost st: State)
      returns (followup: Followup, stopped: Option<nat>, ghost st': State)
      requires Represents(st) && Held(SlotOf(id))
      modifies this
      ensures var out := InactiveOutcome(cfg, id, At(st, id), st.latch, row);
              Represents(st') && followup == out.followup && stopped == TimerOf(At(st, id)) &&
              st' == State(st.slots[id := out.slot], out.latch)
    {
      followup := Nothing;
      ghost var out := InactiveOutcome(cfg, id, At(st, id), st.latch, row);
      if id in running {
        stopped := ReconcileInactiveRun(id, row);
      } else if id in retryAttempts {
        followup, stopped := ReconcileInactiveRetry(id, row);
      } else {
        followup, stopped := ReconcileInactiveBlocked(id, row);
      }
      st' := State(st.slots[id := out.slot], out.latch);
    }

    method MeetInactive(id: IssueId, rows: map<IssueId, Issue>, ghost before: State, ghost met: seq<IssueId>,
                        ghost st: State)
      returns (more: seq<CleanupRequest>, stopped: Option<nat>, ghost st': State)
      requires Represents(st) && InactivePassed(cfg, before, rows, met, st)
      requires id in rows && id !in met && Held(At(before, id))
      modifies this
      ensures Represents(st') && InactivePassed(cfg, before, rows, met + [id], st')
      ensures PassCleanups(cfg, before, rows, met + [id]) == PassCleanups(cfg, before, rows, met) + more
      ensures stopped == TimerOf(At(before, id))
    {
      PassedElsewhere(cfg, before, rows, met, st);
      var followup;
      followup, stopped, st' := SettleInactive(id, rows[id], st);
      InactivePassNext(cfg, before, rows, met, st, id, st');
      more := if followup.DoCleanup? then [followup.cleanup] else [];
    }

    /** One of the three walks of the inactive pass, over the keys `todo` of one map. */
    method WalkInactive(todo: set<IssueId>, rows: map<IssueId, Issue>, got: seq<CleanupRequest>, had: set<nat>,
                        ghost before: State, ghost met: seq<IssueId>, ghost st: State)
      returns (cleanups: seq<CleanupRequest>, stopped: set<nat>, ghost order: seq<IssueId>, ghost st': State)
      requires Represents(st) && InactivePassed(cfg, before, rows, met, st)
      requires forall x :: x in todo ==> x !in met && Held(At(before, x))
      requires got == PassCleanups(cfg, before, rows, met) && had == PassStopped(before, met)
      modifies this
      ensures Represents(st') && InactivePassed(cfg, before, rows, order, st')
      ensures forall x :: x in order <==> x in met || (x in rows && x in todo)
      ensures cleanups == PassCleanups(cfg, before, rows, order) && stopped == PassStopped(before, order)
    {
      cleanups, stopped, order, st' := got, had, met, st;
      var left := todo;
      while left != {}
        invariant left <= todo && Represents(st') && InactivePassed(cfg, before, rows, order, st')
        invariant forall x :: x in order <==> x in met || (x in rows && x in todo && x !in left)
        invariant cleanups == PassCleanups(cfg, before, rows, order) && stopped == PassStopped(before, order)
        decreases |left|
      {
        var id :| id in left;
        if id in rows {
          var more, timer;
          more, timer, st' := MeetInactive(id, rows, before, order, st');
          PassStoppedNext(before, order, id);
          cleanups, stopped, order := cleanups + more, stopped + TimersOf(timer), order + [id];
        }
        left := left - {id};
      }
    }

    /** reconcileInactiveTrackerIssuesOp: three walks, each over a map in no fixed order. Every listed
        issue that holds anything is settled once, and no other issue is touched. */
    method ApplyReconcileInactive(rows: map<IssueId, Issue>, ghost before: State)
      returns (cleanups: seq<CleanupRequest>, stopped: set<nat>, ghost order: seq<IssueId>, ghost after: State)
      requires Represents(before)
      modifies this
      ensures Represents(after) && InactivePassed(cfg, before, rows, order, after)
      ensures forall x :: x in order <==> x in rows && Held(At(before, x))
      ensures cleanups == PassCleanups(cfg, before, rows, order) && stopped == PassStopped(before, order)
    {
      KeysSay(before);
      cleanups, stopped, order, after := WalkInactive(running.Keys, rows, [], {}, before, [], before);
      KeysSay(after);
      PassedElsewhere(cfg, before, rows, order, after);
      cleanups, stopped, order, after := WalkInactive(retryAttempts.Keys, rows, cleanups, stopped, before, order, after);
      KeysSay(after);
      PassedElsewhere(cfg, before, rows, order, after);
      cleanups, stopped, order, after := WalkInactive(blocked.Keys, rows, cleanups, stopped, before, order, after);
    }

    lemma KeysSay(st: State)
      requires Represents(st)
      ensures forall x :: x in running <==> At(st, x).run.Some?
      ensures forall x :: x in retryAttempts <==> At(st, x).retry.Some?
      ensures forall x :: x in blocked <==> At(st, x).blocked.Some?
    {
    }

    method ReconcileAbsentRun(id: IssueId) returns (stopped: Option<nat>)
      requires id in running
      modifies this
      ensures var out := AbsentRun(old(SlotOf(id)), old(LatchOf()));
              Becomes(id, out.slot, out.latch) && out.followup.Nothing? && stopped == out.stopped
    {
      var run := running[id];
      stopped := ReleaseClaim(id);
      running := running[id := run.(reconcileCancel := true, reconcileCleanup := false,
                                    handoff := false, terminalHandoff := "")];
    }

    /** Failure and quota retries keep their claim. */
    method ReconcileAbsentQueued(id: IssueId) returns (stopped: Option<nat>)
      modifies this
      ensures var out := AbsentQueued(old(SlotOf(id)), old(LatchOf()));
              Becomes(id, out.slot, out.latch) && out.followup.Nothing? && stopped == out.stopped
    {
      stopped := None;
      if id in blocked || (id in retryAttempts && retryAttempts[id].kind == Continuation) {
        stopped := ReleaseClaim(id);
      }
    }

    /** One issue of the absent pass. */
    method SettleAbsent(id: IssueId, ghost before: State, ghost done: set<IssueId>, ghost st: State)
      returns (stopped: Option<nat>, ghost st': State)
      requires Represents(st) && AbsentPassed(before, done, st) && id !in done
      modifies this
      ensures Represents(st') && AbsentPassed(before, done + {id}, st')
      ensures stopped == AbsentOutcome(At(before, id), before.latch).stopped
    {
      ghost var out := AbsentOutcome(At(st, id), st.latch);
      if id in running {
        stopped := ReconcileAbsentRun(id);
      } else {
        stopped := ReconcileAbsentQueued(id);
      }
      st' := State(st.slots[id := out.slot], out.latch);
    }

    method MeetAbsent(id: IssueId, had: set<nat>, ghost before: State, ghost done: set<IssueId>, ghost st: State)
      returns (stopped: set<nat>, ghost st': State)
      requires Represents(st) && AbsentPassed(before, done, st) && id !in done && had == AbsentStopped(before, done)
      modifies this
      ensures Represents(st') && AbsentPassed(before, done + {id}, st') && stopped == AbsentStopped(before, done + {id})
    {
      var timer;
      timer, st' := SettleAbsent(id, before, done, st);
      AbsentStoppedNext(before, done, id);
      stopped := had + TimersOf(timer);
    }

    method WalkAbsent(todo: set<IssueId>, had: set<nat>, ghost before: State, ghost done: set<IssueId>, ghost st: State)
      returns (stopped: set<nat>, ghost st': State)
      requires Represents(st) && AbsentPassed(before, done, st) && todo !! done && had == AbsentStopped(before, done)
      modifies this
      ensures Represents(st') && AbsentPassed(before, done + todo, st') && stopped == AbsentStopped(before, done + todo)
    {
      stopped, st' := had, st;
      var left := todo;
      ghost var met := done;
      while left != {}
        invariant left <= todo && forall x :: x in met <==> x in done || (x in todo && x !in left)
        invariant Represents(st') && AbsentPassed(before, met, st') && stopped == AbsentStopped(before, met)
        decreases |left|
      {
        var id :| id in left;
        stopped, st' := MeetAbsent(id, stopped, before, met, st');
        left, met := left - {id}, met + {id};
      }
      assert met == done + todo;
    }

    /** reconcileAbsentTrackerIssuesOp: absence cancels runs without cleanup and releases blocked work
        and continuations; failure and quota retries keep their claim. */
    method ApplyReconcileAbsent(absent: set<IssueId>, ghost before: State) returns (stopped: set<nat>, ghost after: State)
      requires Represents(before)
      modifies this
      ensures Represents(after) && AbsentPassed(before, absent, after) && stopped == AbsentStopped(before, absent)
    {
      KeysSay(before);
      var todo := running.Keys * absent;
      ghost var done := todo;
      stopped, after := WalkAbsent(todo, {}, before, {}, before);
      KeysSay(after);
      todo := blocked.Keys * absent;
      AbsentElsewhere(before, done, after);
      stopped, after := WalkAbsent(todo, stopped, before, done, after);
      done := done + todo;
      KeysSay(after);
      todo := retryAttempts.Keys * absent;
      AbsentElsewhere(before, done, after);
      stopped, after := WalkAbsent(todo, stopped, before, done, after);
      AbsentUnmet(before, done + todo, absent, after);
    }

    /** A runtime event about a run nobody registered is dropped. */
    method RecordFact(id: IssueId, fact: RunFact)
      modifies this
      ensures Becomes(id, Observe(old(SlotOf(id)), fact), old(LatchOf()))
    {
      if id in running {
        running := running[id := WithFact(running[id], fact)];
      }
    }

    /** An active row refreshes whatever the maps hold about the issue. */
    method RefreshIssue(id: IssueId, row: Issue)
      modifies this
      ensures Becomes(id, RefreshActive(old(SlotOf(id)), row), old(LatchOf()))
    {
      if id !in running && id !in retryAttempts && id !in blocked {
        return;
      }
      if id in running {
        running := running[id := running[id].(issue := row, reconcileCleanup := false, handoff := false, terminalHandoff := "")];
      }
      if id in retryAttempts {
        retryAttempts := retryAttempts[id := retryAttempts[id].(issue := row)];
      }
      if id in blocked {
        blocked := blocked[id := blocked[id].(issue := row)];
      }
      claimedIssues := claimedIssues[id := row];
    }

    // -------------------------------------------------------------------------------------------
    // Cleanup ops

    method BeginWorkspaceCleanup(id: IssueId) returns (ok: bool)
      modifies this
      ensures ok <==> MayClean(old(SlotOf(id)))
      ensures Becomes(id, old(SlotOf(id)).(cleaning := ok || old(SlotOf(id)).cleaning), old(LatchOf()))
    {
      if id in claimed || id in running || id in blocked || id in retryAttempts || id in cleaningWorkspaces {
        return false;
      }
      cleaningWorkspaces := cleaningWorkspaces + {id};
      return true;
    }

    method EndWorkspaceCleanup(id: IssueId)
      modifies this
      ensures Becomes(id, old(SlotOf(id)).(cleaning := false), old(LatchOf()))
    {
      cleaningWorkspaces := cleaningWorkspaces - {id};
    }
  }
}
