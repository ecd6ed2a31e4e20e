/** The orchestrator as a program: the state object, the work in flight, and the handling of each event
    by the state object's operations. It is proved to implement the transition system, so everything
    proved of the system's runs holds of it. */
module ClaimActor {
  import opened Prelude
  import opened Backoff
  import opened ClaimState
  import opened ActorSystem
  import opened ClaimStore

  /** The capacity gate looks only at slots. */
  lemma GateAgrees(cfg: Config, a: State, b: State, state: string, excluded: Option<IssueId>)
    requires forall x :: At(a, x) == At(b, x)
    ensures AtCapacity(cfg, a, state, excluded) == AtCapacity(cfg, b, state, excluded)
  {
    forall x ensures x in Counted(a) <==> x in Counted(b) {
      assert At(a, x) == At(b, x);
    }
    assert Counted(a) == Counted(b);
    var key := StateKey(state);
    assert (set x | x in Counted(a) && excluded != Some(x) && HoldsState(At(a, x), key)) ==
           (set x | x in Counted(b) && excluded != Some(x) && HoldsState(At(b, x), key));
  }

  /** The state after an operation with this outcome for id. */
  function After(st: State, id: IssueId, out: Outcome): State {
    State(st.slots[id := out.slot], out.latch)
  }

  lemma GateSeesView(store: OrchestratorState, st: State, state: string, excluded: Option<IssueId>)
    requires store.Represents(st)
    ensures AtCapacity(store.cfg, store.View(), state, excluded) == AtCapacity(store.cfg, st, state, excluded)
  {
    GateAgrees(store.cfg, store.View(), st, state, excluded);
  }

  // ---------------------------------------------------------------------------------------------
  // The operations, on the state that the maps represent

  method DispatchOp(store: OrchestratorState, issue: Issue, attempt: Option<int>, rechecked: bool, now: int, ghost st: State)
    returns (followup: Followup, stopped: Option<nat>)
    requires store.Represents(st)
    modifies store
    ensures var slot := At(st, issue.id);
            var full := AtCapacity(store.cfg, st, issue.state, if slot.retry.Some? then Some(issue.id) else None);
            var out := Dispatch(store.cfg, slot, st.latch, now, issue, attempt, rechecked, full).out;
            store.Represents(After(st, issue.id, out)) && followup == out.followup && stopped == out.stopped
  {
    assert store.SlotOf(issue.id) == At(st, issue.id);
    GateSeesView(store, st, issue.state, if At(st, issue.id).retry.Some? then Some(issue.id) else None);
    var verdict;
    verdict, followup, stopped := store.ApplyDispatch(issue, attempt, rechecked, now);
  }

  method FinalizeOp(store: OrchestratorState, id: IssueId, run: RunEntry, result: WorkerResult, ghost st: State)
    returns (followup: Followup)
    requires store.Represents(st)
    modifies store
    ensures var out := Finalize(store.cfg, id, At(st, id), st.latch, run, result);
            store.Represents(After(st, id, out)) && followup == out.followup && out.stopped.None?
  {
    assert store.SlotOf(id) == At(st, id);
    followup := store.ApplyFinalize(id, run, result);
  }

  method FireOp(store: OrchestratorState, id: IssueId, now: int, attempt: int, kind: RetryKind, ghost st: State)
    returns (followup: Followup, stopped: Option<nat>)
    requires store.Represents(st)
    modifies store
    ensures var full := AtCapacity(store.cfg, st, QueuedState(At(st, id)), None);
            var out := Fire(store.cfg, id, At(st, id), st.latch, now, attempt, kind, full);
            store.Represents(After(st, id, out)) && followup == out.followup && stopped == out.stopped
  {
    assert store.SlotOf(id) == At(st, id);
    GateSeesView(store, st, QueuedState(At(st, id)), None);
    followup, stopped := store.ApplyFire(id, now, attempt, kind);
  }

  method AfterFetchOp(store: OrchestratorState, id: IssueId, now: int, attempt: int, kind: RetryKind, found: Option<Issue>,
                      terminal: Option<string>, ghost st: State)
    returns (followup: Followup, stopped: Option<nat>)
    requires store.Represents(st)
    modifies store
    ensures var full := AtCapacity(store.cfg, st, if found.Some? then found.value.state else "", None);
            var out := AfterFetch(store.cfg, id, At(st, id), st.latch, now, attempt, kind, found, terminal, full);
            store.Represents(After(st, id, out)) && followup == out.followup && stopped == out.stopped
  {
    assert store.SlotOf(id) == At(st, id);
    GateSeesView(store, st, if found.Some? then found.value.state else "", None);
    followup, stopped := store.ApplyAfterFetch(id, now, attempt, kind, found, terminal);
  }

  method ScheduleOp(store: OrchestratorState, id: IssueId, now: int, serial: nat, r: RescheduleRequest, ghost st: State)
    returns (stopped: Option<nat>)
    requires store.Represents(st)
    modifies store
    ensures store.Represents(WithSlot(st, id, Queued(At(st, id), NewRetry(store.cfg, now, serial, r))))
    ensures stopped == TimerOf(At(st, id))
  {
    assert store.SlotOf(id) == At(st, id);
    stopped := store.ApplySchedule(id, now, serial, r);
  }

  /** The three kinds of inactive issue. */
  method InactiveOp(store: OrchestratorState, ev: Event, ghost s: Sys) returns (followup: Followup, stopped: Option<nat>)
    requires store.Represents(s.st) && Enabled(s, ev)
    requires ev.InactiveRunAt? || ev.InactiveRetryAt? || ev.InactiveBlockedAt?
    modifies store
    ensures var out := InactiveOut(store.cfg, s.st, ev);
            store.Represents(After(s.st, ev.id, out)) && followup == out.followup && stopped == out.stopped
  {
    assert store.SlotOf(ev.id) == At(s.st, ev.id);
    followup := Nothing;
    match ev
    case InactiveRunAt(id, row) => stopped := store.ReconcileInactiveRun(id, row);
    case InactiveRetryAt(id, row) => followup, stopped := store.ReconcileInactiveRetry(id, row);
    case InactiveBlockedAt(id, row) => followup, stopped := store.ReconcileInactiveBlocked(id, row);
  }

  function InactiveOut(cfg: Config, st: State, ev: Event): Outcome
    requires ev.InactiveRunAt? ==> At(st, ev.id).run.Some?
    requires ev.InactiveRetryAt? ==> At(st, ev.id).retry.Some?
    requires ev.InactiveBlockedAt? ==> At(st, ev.id).blocked.Some?
    requires ev.InactiveRunAt? || ev.InactiveRetryAt? || ev.InactiveBlockedAt?
  {
    match ev
    case InactiveRunAt(id, row) => InactiveRun(cfg, id, At(st, id), st.latch, row)
    case InactiveRetryAt(id, row) => InactiveRetry(cfg, id, At(st, id), st.latch, row)
    case InactiveBlockedAt(id, row) => InactiveBlocked(cfg, id, At(st, id), st.latch, row)
  }

  method AbsentOp(store: OrchestratorState, id: IssueId, running: bool, ghost st: State) returns (stopped: Option<nat>)
    requires store.Represents(st) && (running ==> At(st, id).run.Some?)
    modifies store
    ensures var out := if running then AbsentRun(At(st, id), st.latch) else AbsentQueued(At(st, id), st.latch);
            store.Represents(After(st, id, out)) && out.followup.Nothing? && stopped == out.stopped
  {
    assert store.SlotOf(id) == At(st, id);
    if running {
      stopped := store.ReconcileAbsentRun(id);
    } else {
      stopped := store.ReconcileAbsentQueued(id);
    }
  }

  // ---------------------------------------------------------------------------------------------
  // The program

  class Orchestrator {
    const cfg: Config
    const store: OrchestratorState
    var flights: map<nat, Work>
    var next: nat
    var clock: int

    constructor (cfg: Config)
      ensures this.cfg == cfg && fresh(store) && Tracks(INIT)
    {
      this.cfg := cfg;
      store := new OrchestratorState(cfg);
      flights, next, clock := map[], 0, 0;
    }

    /** The program is in this state of the system. */
    ghost predicate Tracks(s: Sys)
      reads this, store
    {
      store.cfg == cfg && store.Represents(s.st) && flights == s.flights && next == s.next && clock == s.clock
    }

    /** Stops the timer and starts the followup of an operation as flight k. */
    method Follow(id: IssueId, followup: Followup, stopped: Option<nat>, k: nat)
      modifies this`flights
      ensures flights == Put(StopTimer(old(flights), stopped), k, Started(id, followup))
    {
      flights := Put(StopTimer(flights, stopped), k, Started(id, followup));
    }

    method HandleDispatch(issue: Issue, attempt: Option<int>, rechecked: bool, ghost s: Sys)
      requires Tracks(s)
      modifies this, store
      ensures Tracks(SettleNew(s, issue.id, DispatchAt(cfg, s, issue, attempt, rechecked).out))
    {
      var followup, stopped := DispatchOp(store, issue, attempt, rechecked, clock, s.st);
      Follow(issue.id, followup, stopped, next);
      next := next + 1;
    }

    method HandleInactive(ev: Event, ghost s: Sys)
      requires Tracks(s) && Enabled(s, ev) && (ev.InactiveRunAt? || ev.InactiveRetryAt? || ev.InactiveBlockedAt?)
      modifies this, store
      ensures Tracks(SettleNew(s, ev.id, InactiveOut(cfg, s.st, ev)))
    {
      var followup, stopped := InactiveOp(store, ev, s);
      Follow(ev.id, followup, stopped, next);
      next := next + 1;
    }

    method HandleAbsent(id: IssueId, running: bool, ghost s: Sys)
      requires Tracks(s) && (running ==> At(s.st, id).run.Some?)
      modifies this, store
      ensures Tracks(SettleNew(s, id, if running then AbsentRun(At(s.st, id), s.st.latch)
                                      else AbsentQueued(At(s.st, id), s.st.latch)))
    {
      var stopped := AbsentOp(store, id, running, s.st);
      Follow(id, Nothing, stopped, next);
      next := next + 1;
    }

    method HandleRegister(k: nat, id: IssueId, r: SpawnRequest, ghost s: Sys)
      requires Tracks(s)
      modifies this, store
      ensures Tracks(RegisterStep(s, k, id, r))
    {
      assert store.SlotOf(id) == At(s.st, id);
      flights := Detach(flights, id, store.SlotOf(id).run)[k := Working(id, None)];
      store.ApplyRegister(id, k, r);
    }

    method HandleFinalize(k: nat, id: IssueId, detached: Option<RunEntry>, result: WorkerResult, ghost s: Sys)
      requires Tracks(s)
      modifies this, store
      ensures Tracks(FinalizeStep(cfg, s, k, id, detached, result))
    {
      assert store.SlotOf(id) == At(s.st, id);
      var run := if detached.Some? then detached else store.SlotOf(id).run;
      if run.None? {
        flights := flights - {k};
        return;
      }
      var followup := FinalizeOp(store, id, run.value, result, s.st);
      Follow(id, followup, None, k);
    }

    method HandleSchedule(k: nat, id: IssueId, r: RescheduleRequest, ghost s: Sys)
      requires Tracks(s)
      modifies this, store
      ensures Tracks(ScheduleStep(cfg, s, k, id, r))
    {
      var stopped := ScheduleOp(store, id, clock, k, r, s.st);
      var delay, _ := NextDelay(cfg.maxBackoff, r.request);
      flights := StopTimer(flights, stopped)[k := Armed(id, r.request.attempt, r.request.kind, clock + delay)];
    }

    method HandleFire(k: nat, id: IssueId, attempt: int, kind: RetryKind, ghost s: Sys)
      requires Tracks(s)
      modifies this, store
      ensures Tracks(FireStep(cfg, s, k, id, attempt, kind))
    {
      var followup, stopped := FireOp(store, id, clock, attempt, kind, s.st);
      if followup.DoFetch? {
        flights := flights[k := Fetching(id, attempt, kind)];
      } else {
        Follow(id, followup, stopped, k);
      }
    }

    method HandlePollFailed(k: nat, id: IssueId, attempt: int, kind: RetryKind, ghost s: Sys)
      requires Tracks(s)
      modifies this, store
      ensures Tracks(Settle(s, id, PollFailed(At(s.st, id), s.st.latch, clock, attempt, kind), k))
    {
      assert store.SlotOf(id) == At(s.st, id);
      var followup := store.ApplyPollFailed(id, clock, attempt, kind);
      Follow(id, followup, None, k);
    }

    method HandleAfterFetch(k: nat, id: IssueId, attempt: int, kind: RetryKind, found: Option<Issue>, terminal: Option<string>,
                            ghost s: Sys)
      requires Tracks(s)
      modifies this, store
      ensures Tracks(AfterFetchStep(cfg, s, k, id, attempt, kind, found, terminal))
    {
      var followup, stopped := AfterFetchOp(store, id, clock, attempt, kind, found, terminal, s.st);
      Follow(id, followup, stopped, k);
    }

    method HandleCleanup(k: nat, verdict: Verdict, ghost s: Sys)
      requires Tracks(s) && k in flights && flights[k].Cleaning?
      modifies this, store
      ensures Tracks(CleanupStep(cfg, s, k, verdict))
    {
      var w := flights[k];
      assert store.SlotOf(w.id) == At(s.st, w.id);
      match w.stage
      case Waiting =>
        var ok := false;
        if cfg.hasCleaner {
          ok := store.BeginWorkspaceCleanup(w.id);
        }
        if ok {
          flights := flights[k := w.(stage := Verifying)];
        } else {
          flights := flights - {k};
        }
      case Verifying =>
        match verdict {
          case Unknown =>
            flights := flights[k := w.(stage := Ending)];
            if w.pass + 1 <= MAX_CLEANUP_RETRIES {
              flights, next := flights[next := w.(pass := w.pass + 1, stage := Waiting)], next + 1;
            }
          case Absent => flights := flights[k := w.(stage := Ending)];
          case NonTerminal => flights := flights[k := w.(stage := AskingStop)];
          case Terminal => flights := flights[k := w.(stage := Removing)];
        }
      case AskingStop =>
        var resumes := w.id !in store.operatorTerminalStops && w.cleanup.resume.Some?;
        flights := flights[k := w.(stage := if resumes then Resuming else Ending)];
      case Resuming =>
        flights := flights[k := w.(stage := Ending)];
        if w.cleanup.resume.Some? {
          HandleSchedule(next, w.id, w.cleanup.resume.value, AtStage(s, k, Ending));
          next := next + 1;
        }
      case Removing => flights := flights[k := w.(stage := Ending)];
      case Ending =>
        store.EndWorkspaceCleanup(w.id);
        flights := flights - {k};
    }

    method HandleLanding(k: nat, input: Input, ghost s: Sys)
      requires Tracks(s) && k in flights
      modifies this, store
      ensures Tracks(Land(cfg, s, k, input))
    {
      match flights[k]
      case Spawning(id, r) => HandleRegister(k, id, r, s);
      case Working(id, detached) => flights := flights[k := Exited(id, detached, input.result)];
      case Exited(id, detached, result) => HandleFinalize(k, id, detached, result, s);
      case Rescheduling(id, r) => HandleSchedule(k, id, r, s);
      case Armed(id, attempt, kind, _) => flights := flights[k := Fired(id, attempt, kind)];
      case Fired(id, attempt, kind) => HandleFire(k, id, attempt, kind, s);
      case Fetching(id, attempt, kind) => flights := flights[k := Fetched(id, attempt, kind, input.fetch)];
      case FetchError(id, attempt, kind) => HandlePollFailed(k, id, attempt, kind, s);
      case FetchDone(id, attempt, kind, found, terminal) => HandleAfterFetch(k, id, attempt, kind, found, terminal, s);
      case Cleaning(_, _, _, _) => HandleCleanup(k, RecheckVerdict(cfg, input.lookup), s);
    }

    /** The program takes the system's step, whatever the event. */
    method Handle(ev: Event, ghost s: Sys)
      requires Tracks(s) && Enabled(s, ev)
      modifies this, store
      ensures Tracks(Apply(cfg, s, ev))
    {
      match ev
      case Tick(to) => clock := to;
      case Dispatches(issue, attempt, rechecked) => HandleDispatch(issue, attempt, rechecked, s);
      case Lands(k, input) => HandleLanding(k, input, s);
      case InactiveRunAt(_, _) => HandleInactive(ev, s);
      case InactiveRetryAt(_, _) => HandleInactive(ev, s);
      case InactiveBlockedAt(_, _) => HandleInactive(ev, s);
      case AbsentRunAt(id) => HandleAbsent(id, true, s);
      case AbsentQueuedAt(id) => HandleAbsent(id, false, s);
      case Observed(id, fact) =>
        assert store.SlotOf(id) == At(s.st, id);
        store.RecordFact(id, fact);
      case Refreshed(id, row) =>
        assert store.SlotOf(id) == At(s.st, id);
        store.RefreshIssue(id, row);
    }

    /** Through any run of the system the program tracks it. */
    method Execute(events: seq<Event>, ghost run: seq<Sys>)
      requires IsRun(cfg, run, events) && Tracks(INIT)
      modifies this, store
      ensures Tracks(run[|events|])
    {
      for i := 0 to |events|
        invariant Tracks(run[i])
      {
        Handle(events[i], run[i]);
      }
    }
  }

  function Fetched(id: IssueId, attempt: int, kind: RetryKind, outcome: FetchOutcome): Work {
    match outcome
    case FetchFailed => FetchError(id, attempt, kind)
    case FoundActive(state) => FetchDone(id, attempt, kind, Some(Issue(id, state)), None)
    case NotListed(terminal) => FetchDone(id, attempt, kind, None, terminal)
  }
}
