/** The clean-turn budget over whole runs of the orchestrator. A session's turns are counted in its
    entry; at a clean exit the count travels on through a reschedule, a queued entry, perhaps a
    cleanup that finds the issue active again, to the dispatch that consumes it. Nothing is assumed of
    the run: neither its order nor what any worker returns. */
module ContinuationRuns {
  import opened Prelude
  import opened Backoff
  import opened ClaimState
  import opened ActorSystem
  import opened ActorSafety
  import opened ActorDrivers
  import opened ContinuationBudget

  // ---------------------------------------------------------------------------------------------
  // Where a carried count comes from

  predicate Resumes(c: CleanupRequest, turns: int) {
    c.resume.Some? && c.resume.value.request.kind == Continuation && c.resume.value.continuationTurns == turns
  }

  /** A cleanup that may still hand its continuation on. */
  predicate Undecided(stage: CleanupStage) {
    !stage.Removing? && !stage.Ending?
  }

  predicate CarriedBy(w: Work, turns: int) {
    || (w.Rescheduling? && w.reschedule.request.kind == Continuation && w.reschedule.continuationTurns == turns)
    || (w.Cleaning? && Undecided(w.stage) && Resumes(w.cleanup, turns))
  }

  predicate Queues(slot: Slot, turns: int) {
    slot.retry.Some? && slot.retry.value.kind == Continuation && slot.retry.value.continuationTurns == turns
  }

  /** A continuation of the issue, carrying this many turns, is queued or on its way. */
  ghost predicate Carries(s: Sys, id: IssueId, turns: int) {
    Queues(At(s.st, id), turns) || exists k :: Of(s, k, id) && CarriedBy(s.flights[k], turns)
  }

  /** The entry a live worker runs under. */
  function EntryOf(s: Sys, k: nat): Option<RunEntry> {
    if k !in s.flights || !(s.flights[k].Working? || s.flights[k].Exited?) then None
    else if s.flights[k].detached.Some? then s.flights[k].detached
    else At(s.st, s.flights[k].id).run
  }

  /** The turns a clean exit of this run hands to the next one. */
  function HandsOn(run: RunEntry): int {
    run.continuationTurns + TurnDelta(run)
  }

  /** The event is the clean finalize of flight k, running under this entry. */
  predicate CleanFinalize(s: Sys, ev: Event, k: nat, id: IssueId, entry: RunEntry) {
    ev.Lands? && ev.k == k && Of(s, k, id) && s.flights[k].Exited? && s.flights[k].result.err.NoError? &&
    EntryOf(s, k) == Some(entry)
  }

  /** An operation leaves or hands out a continuation with this count. */
  predicate OutcomeCarries(out: Outcome, turns: int) {
    || Queues(out.slot, turns)
    || (out.followup.DoReschedule? && out.followup.reschedule.request.kind == Continuation &&
        out.followup.reschedule.continuationTurns == turns)
    || (out.followup.DoCleanup? && Resumes(out.followup.cleanup, turns))
  }

  lemma SettleCarries(s: Sys, x: IssueId, out: Outcome, k: nat, id: IssueId, turns: int)
    requires Carries(Settle(s, x, out, k), id, turns)
    ensures Carries(s, id, turns) || (id == x && OutcomeCarries(out, turns))
  {
    var s' := Settle(s, x, out, k);
    if !Queues(At(s'.st, id), turns) {
      var j :| Of(s', j, id) && CarriedBy(s'.flights[j], turns);
      assert j != k ==> Of(s, j, id) && s.flights[j] == s'.flights[j];
    }
  }

  lemma FinalizeCarries(cfg: Config, id: IssueId, slot: Slot, latch: Latch, run: RunEntry, result: WorkerResult, turns: int)
    requires OutcomeCarries(Finalize(cfg, id, slot, latch, run, result), turns)
    ensures Queues(slot, turns) || (result.err.NoError? && turns == HandsOn(run))
  {
  }

  lemma FinalizeStepCarries(cfg: Config, s: Sys, k: nat, ev: Event, id: IssueId, turns: int)
    requires k in s.flights && s.flights[k].Exited? && ev.Lands? && ev.k == k
    requires var w := s.flights[k]; Carries(FinalizeStep(cfg, s, k, w.id, w.detached, w.result), id, turns)
    ensures Carries(s, id, turns) || exists entry :: CleanFinalize(s, ev, k, id, entry) && turns == HandsOn(entry)
  {
    var w := s.flights[k];
    var run := EntryOf(s, k);
    if run.Some? {
      var out := Finalize(cfg, w.id, At(s.st, w.id), s.st.latch, run.value, w.result);
      SettleCarries(s, w.id, out, k, id, turns);
      if !Carries(s, id, turns) {
        FinalizeCarries(cfg, w.id, At(s.st, w.id), s.st.latch, run.value, w.result, turns);
        assert CleanFinalize(s, ev, k, id, run.value);
      }
    } else if !Queues(At(s.st, id), turns) {
      var s' := s.(flights := s.flights - {k});
      var j :| Of(s', j, id) && CarriedBy(s'.flights[j], turns);
      assert Of(s, j, id);
    }
  }

  /** A queued entry and its timer replace a carrier of the same count. */
  lemma QueueCarries(s: Sys, k: nat, x: IssueId, entry: RetryEntry, next: nat, id: IssueId, turns: int)
    requires Carries(QueueStep(s, k, x, entry).(next := next), id, turns)
    ensures Carries(s, id, turns) || (id == x && entry.kind == Continuation && entry.continuationTurns == turns)
  {
    var s' := QueueStep(s, k, x, entry).(next := next);
    if !Queues(At(s'.st, id), turns) {
      var j :| Of(s', j, id) && CarriedBy(s'.flights[j], turns);
      assert Of(s, j, id) && s.flights[j] == s'.flights[j];
    }
  }

  lemma CleanupCarries(cfg: Config, s: Sys, k: nat, verdict: Verdict, id: IssueId, turns: int)
    requires k in s.flights && s.flights[k].Cleaning? && Carries(CleanupStep(cfg, s, k, verdict), id, turns)
    ensures Carries(s, id, turns)
  {
    var w, s' := s.flights[k], CleanupStep(cfg, s, k, verdict);
    if w.stage.Resuming? && w.cleanup.resume.Some? {
      var entry := NewRetry(cfg, s.clock, s.next, w.cleanup.resume.value);
      QueueCarries(AtStage(s, k, Ending), s.next, w.id, entry, s.next + 1, id, turns);
      if id == w.id && entry.kind == Continuation && entry.continuationTurns == turns {
        assert Of(s, k, id) && CarriedBy(w, turns);
      } else if !Queues(At(s.st, id), turns) {
        var j :| Of(AtStage(s, k, Ending), j, id) && CarriedBy(AtStage(s, k, Ending).flights[j], turns);
        assert Of(s, j, id) && CarriedBy(s.flights[j], turns);
      }
    } else if !Queues(At(s.st, id), turns) {
      var j :| Of(s', j, id) && CarriedBy(s'.flights[j], turns);
      assert j == k || j == s.next || s'.flights[j] == s.flights[j];
      if j !in s.flights || s'.flights[j] != s.flights[j] {
        assert Of(s, k, id) && CarriedBy(w, turns);
      } else {
        assert Of(s, j, id);
      }
    }
  }

  lemma LandCarries(cfg: Config, s: Sys, k: nat, input: Input, id: IssueId, turns: int)
    requires k in s.flights && Carries(Land(cfg, s, k, input), id, turns)
    ensures Carries(s, id, turns) || exists entry :: CleanFinalize(s, Lands(k, input), k, id, entry) && turns == HandsOn(entry)
  {
    var w := s.flights[k];
    var slot := At(s.st, w.id);
    match w
    case Exited(_, _, _) => FinalizeStepCarries(cfg, s, k, Lands(k, input), id, turns);
    case Rescheduling(_, r) =>
      var entry := NewRetry(cfg, s.clock, k, r);
      QueueCarries(s, k, w.id, entry, s.next, id, turns);
      if id == w.id && entry.kind == Continuation && entry.continuationTurns == turns {
        assert Of(s, k, id) && CarriedBy(w, turns);
      }
    case Cleaning(_, _, _, _) => CleanupCarries(cfg, s, k, RecheckVerdict(cfg, input.lookup), id, turns);
    case Fired(_, attempt, kind) =>
      FireCarries(cfg, s, k, id, turns);
    case FetchError(_, attempt, kind) =>
      SettleCarries(s, w.id, PollFailed(slot, s.st.latch, s.clock, attempt, kind), k, id, turns);
    case FetchDone(_, attempt, kind, found, terminal) =>
      var full := AtCapacity(cfg, s.st, if found.Some? then found.value.state else "", None);
      SettleCarries(s, w.id, AfterFetch(cfg, w.id, slot, s.st.latch, s.clock, attempt, kind, found, terminal, full), k, id, turns);
    case _ => MovedCarries(cfg, s, k, input, id, turns);
  }

  lemma FireCarries(cfg: Config, s: Sys, k: nat, id: IssueId, turns: int)
    requires k in s.flights && s.flights[k].Fired?
    requires var w := s.flights[k]; Carries(FireStep(cfg, s, k, w.id, w.attempt, w.kind), id, turns)
    ensures Carries(s, id, turns)
  {
    var w, s' := s.flights[k], FireStep(cfg, s, k, s.flights[k].id, s.flights[k].attempt, s.flights[k].kind);
    if !Queues(At(s'.st, id), turns) {
      var j :| Of(s', j, id) && CarriedBy(s'.flights[j], turns);
      assert j != k ==> Of(s, j, id) && s.flights[j] == s'.flights[j];
    }
  }

  /** Steps of a flight that neither is nor becomes a carrier. */
  lemma MovedCarries(cfg: Config, s: Sys, k: nat, input: Input, id: IssueId, turns: int)
    requires k in s.flights && Carries(Land(cfg, s, k, input), id, turns)
    requires var w := s.flights[k]; w.Spawning? || w.Working? || w.Armed? || w.Fetching?
    ensures Carries(s, id, turns)
  {
    var s' := Land(cfg, s, k, input);
    if !Queues(At(s'.st, id), turns) {
      var j :| Of(s', j, id) && CarriedBy(s'.flights[j], turns);
      assert Of(s, j, id) && s.flights[j] == s'.flights[j];
    }
  }

  /** Every step: a continuation either was there before or is handed on by a clean finalize of the
      same issue, with the turns of the session that ended. */
  lemma StepCarries(cfg: Config, s: Sys, ev: Event, id: IssueId, turns: int)
    requires Enabled(s, ev) && Carries(Apply(cfg, s, ev), id, turns)
    ensures Carries(s, id, turns) || exists k, entry :: CleanFinalize(s, ev, k, id, entry) && turns == HandsOn(entry)
  {
    match ev
    case Lands(k, input) => LandCarries(cfg, s, k, input, id, turns);
    case Dispatches(issue, attempt, rechecked) =>
      NewCarries(s, issue.id, DispatchAt(cfg, s, issue, attempt, rechecked).out, id, turns);
    case InactiveRunAt(_, _) => InactiveCarries(cfg, s, ev, id, turns);
    case InactiveRetryAt(_, _) => InactiveCarries(cfg, s, ev, id, turns);
    case InactiveBlockedAt(_, _) => InactiveCarries(cfg, s, ev, id, turns);
    case AbsentRunAt(x) => NewCarries(s, x, AbsentRun(At(s.st, x), s.st.latch), id, turns);
    case AbsentQueuedAt(x) => NewCarries(s, x, AbsentQueued(At(s.st, x), s.st.latch), id, turns);
    case _ => SameFlightsCarry(s, Apply(cfg, s, ev), id, turns);
  }

  /** Reconciliation hands no continuation on but those it finds. */
  lemma InactiveCarries(cfg: Config, s: Sys, ev: Event, id: IssueId, turns: int)
    requires Enabled(s, ev) && Carries(Apply(cfg, s, ev), id, turns)
    requires ev.InactiveRunAt? || ev.InactiveRetryAt? || ev.InactiveBlockedAt?
    ensures Carries(s, id, turns)
  {
    match ev
    case InactiveRunAt(x, row) => NewCarries(s, x, InactiveRun(cfg, x, At(s.st, x), s.st.latch, row), id, turns);
    case InactiveRetryAt(x, row) => NewCarries(s, x, InactiveRetry(cfg, x, At(s.st, x), s.st.latch, row), id, turns);
    case InactiveBlockedAt(x, row) => NewCarries(s, x, InactiveBlocked(cfg, x, At(s.st, x), s.st.latch, row), id, turns);
  }

  lemma NewCarries(s: Sys, x: IssueId, out: Outcome, id: IssueId, turns: int)
    requires Carries(SettleNew(s, x, out), id, turns)
    ensures Carries(s, id, turns) || (id == x && OutcomeCarries(out, turns))
  {
    var s' := Settle(s, x, out, s.next);
    if !Queues(At(s'.st, id), turns) {
      var j :| Of(SettleNew(s, x, out), j, id) && CarriedBy(SettleNew(s, x, out).flights[j], turns);
      assert Of(s', j, id);
    }
    SettleCarries(s, x, out, s.next, id, turns);
  }

  lemma SameFlightsCarry(s: Sys, s': Sys, id: IssueId, turns: int)
    requires s'.flights == s.flights && (Queues(At(s'.st, id), turns) ==> Queues(At(s.st, id), turns))
    requires Carries(s', id, turns)
    ensures Carries(s, id, turns)
  {
    if !Queues(At(s'.st, id), turns) {
      var j :| Of(s', j, id) && CarriedBy(s'.flights[j], turns);
      assert Of(s, j, id);
    }
  }

  /** In every state of every run, a continuation comes from an earlier clean finalize of its issue
      that handed on exactly the turns it carries. */
  lemma {:induction false} CarrierBehind(cfg: Config, run: seq<Sys>, events: seq<Event>, n: nat, id: IssueId, turns: int)
    returns (f: nat, k: nat, entry: RunEntry)
    requires IsRun(cfg, run, events) && n < |run| && Carries(run[n], id, turns)
    ensures f < n && CleanFinalize(run[f], events[f], k, id, entry) && turns == HandsOn(entry)
  {
    assert n > 0;
    StepCarries(cfg, run[n - 1], events[n - 1], id, turns);
    if Carries(run[n - 1], id, turns) {
      f, k, entry := CarrierBehind(cfg, run, events, n - 1, id, turns);
    } else {
      f := n - 1;
      k, entry :| CleanFinalize(run[f], events[f], k, id, entry) && turns == HandsOn(entry);
    }
  }

  // ---------------------------------------------------------------------------------------------
  // Sessions

  /** A flight from the request to spawn a worker to the worker's result. */
  predicate InSession(w: Work) {
    w.Spawning? || w.Working? || w.Exited?
  }

  /** Event d hands flight k the request to spawn a worker. */
  predicate Starts(run: seq<Sys>, d: nat, k: nat, id: IssueId, r: SpawnRequest) {
    d + 1 < |run| && k in run[d + 1].flights && run[d + 1].flights[k] == Spawning(id, r) &&
    (k in run[d].flights ==> !InSession(run[d].flights[k]))
  }

  /** The event reports a completed turn to the entry that flight k registered. */
  predicate TurnAt(s: Sys, ev: Event, id: IssueId, k: nat) {
    ev == Observed(id, TurnCompleted) && At(s.st, id).run.Some? && At(s.st, id).run.value.token == k
  }

  /** The turns reported to flight k's entry by events from..to. */
  function Turns(run: seq<Sys>, events: seq<Event>, id: IssueId, k: nat, from: nat, to: nat): nat
    requires to <= |events| < |run|
  {
    if to <= from then 0
    else Turns(run, events, id, k, from, to - 1) + if TurnAt(run[to - 1], events[to - 1], id, k) then 1 else 0
  }

  /** What flight k holds of the request it was spawned with, after so many turns. */
  predicate Holds(s: Sys, k: nat, id: IssueId, r: SpawnRequest, turns: nat) {
    k in s.flights && InSession(s.flights[k]) && s.flights[k].id == id &&
    if s.flights[k].Spawning? then s.flights[k].spawn == r && turns == 0
    else
      EntryOf(s, k).Some? && EntryOf(s, k).value.token == k &&
      EntryOf(s, k).value.continuationTurns == r.continuationTurns && EntryOf(s, k).value.turnCount == turns
  }

  /** The registered run stays the same run, perhaps with one more turn. */
  predicate RunKept(a: Option<RunEntry>, b: Option<RunEntry>, more: nat) {
    a.Some? && b.Some? && a.value.token == b.value.token && a.value.continuationTurns == b.value.continuationTurns &&
    b.value.turnCount == a.value.turnCount + more
  }

  /** The flight is left alone, and so is the run if it is its. */
  lemma Untouched(s: Sys, s': Sys, k: nat, id: IssueId, r: SpawnRequest, turns: nat, more: nat)
    requires Driven(s) && Holds(s, k, id, r, turns) && k in s'.flights && s'.flights[k] == s.flights[k]
    requires var run := At(s.st, id).run;
             if run.Some? && run.value.token == k then RunKept(run, At(s'.st, id).run, more) else more == 0
    ensures Holds(s', k, id, r, turns + more)
  {
    assert DrivenAt(s, id) && Of(s, k, id) && WorkerOk(At(s.st, id), k, s.flights[k]);
  }

  lemma SettleHolds(s: Sys, x: IssueId, out: Outcome, j: nat, k: nat, id: IssueId, r: SpawnRequest, turns: nat)
    requires Driven(s) && Holds(s, k, id, r, turns) && j != k
    requires var run := At(s.st, x).run;
             run.Some? && run.value.token == k ==> RunKept(run, out.slot.run, 0)
    ensures Holds(Settle(s, x, out, j), k, id, r, turns)
  {
    Untouched(s, Settle(s, x, out, j), k, id, r, turns, 0);
  }

  lemma SettleNewHolds(s: Sys, x: IssueId, out: Outcome, k: nat, id: IssueId, r: SpawnRequest, turns: nat)
    requires Driven(s) && Holds(s, k, id, r, turns)
    requires At(s.st, x).run.Some? ==> RunKept(At(s.st, x).run, out.slot.run, 0)
    ensures Holds(SettleNew(s, x, out), k, id, r, turns)
  {
    Untouched(s, SettleNew(s, x, out), k, id, r, turns, 0);
  }

  /** A finalize finishes the run of its own flight or none. */
  lemma FinalizeHolds(cfg: Config, s: Sys, j: nat, k: nat, id: IssueId, r: SpawnRequest, turns: nat)
    requires Driven(s) && Holds(s, k, id, r, turns) && j in s.flights && s.flights[j].Exited? && j != k
    ensures var w := s.flights[j]; Holds(FinalizeStep(cfg, s, j, w.id, w.detached, w.result), k, id, r, turns)
  {
    var w := s.flights[j];
    var slot := At(s.st, w.id);
    assert DrivenAt(s, w.id) && Of(s, j, w.id) && WorkerOk(slot, j, w);
    var run := if w.detached.Some? then w.detached else slot.run;
    var out := Finalize(cfg, w.id, slot, s.st.latch, run.value, w.result);
    if slot.run.Some? && slot.run.value.token == k {
      assert !IsCurrentRun(slot, run.value);
      assert out.slot == slot;
    }
    SettleHolds(s, w.id, out, j, k, id, r, turns);
  }

  /** A register detaches the run it overwrites, and the flight keeps its entry. */
  lemma RegisterHolds(s: Sys, j: nat, k: nat, id: IssueId, r: SpawnRequest, turns: nat)
    requires Driven(s) && Holds(s, k, id, r, turns) && j in s.flights && s.flights[j].Spawning?
    ensures Holds(RegisterStep(s, j, s.flights[j].id, s.flights[j].spawn), k, id, r, turns)
  {
    assert DrivenAt(s, id) && Of(s, k, id) && WorkerOk(At(s.st, id), k, s.flights[k]);
  }

  /** Steps of retry chains and cleanups touch no run and no session. */
  lemma AsideKeeps(cfg: Config, s: Sys, j: nat, input: Input, k: nat)
    requires j in s.flights && !InSession(s.flights[j]) && k in s.flights && InSession(s.flights[k])
    requires Numbered(s)
    ensures var s' := Land(cfg, s, j, input);
            k in s'.flights && s'.flights[k] == s.flights[k] && forall x :: At(s'.st, x).run == At(s.st, x).run
  {
    var w := s.flights[j];
    if w.Fired? {
      FireKeepsRun(cfg, s, j);
    } else if w.FetchDone? {
      FetchKeepsRun(cfg, s, j);
    }
  }

  lemma FireKeepsRun(cfg: Config, s: Sys, j: nat)
    requires j in s.flights && s.flights[j].Fired?
    ensures var w := s.flights[j]; var s' := FireStep(cfg, s, j, w.id, w.attempt, w.kind);
            && (forall x :: At(s'.st, x).run == At(s.st, x).run)
            && (forall k :: k in s.flights && InSession(s.flights[k]) ==> k in s'.flights && s'.flights[k] == s.flights[k])
  {
  }

  lemma FetchKeepsRun(cfg: Config, s: Sys, j: nat)
    requires j in s.flights && s.flights[j].FetchDone?
    ensures var w := s.flights[j]; var s' := AfterFetchStep(cfg, s, j, w.id, w.attempt, w.kind, w.found, w.terminal);
            && (forall x :: At(s'.st, x).run == At(s.st, x).run)
            && (forall k :: k in s.flights && InSession(s.flights[k]) ==> k in s'.flights && s'.flights[k] == s.flights[k])
  {
  }

  lemma LandHolds(cfg: Config, s: Sys, j: nat, input: Input, k: nat, id: IssueId, r: SpawnRequest, turns: nat)
    requires Driven(s) && Holds(s, k, id, r, turns) && j in s.flights
    requires k in Land(cfg, s, j, input).flights && InSession(Land(cfg, s, j, input).flights[k])
    ensures Holds(Land(cfg, s, j, input), k, id, r, turns)
  {
    match s.flights[j]
    case Spawning(_, _) => RegisterHolds(s, j, k, id, r, turns);
    case Working(_, _) =>
      if j != k {
        Untouched(s, Land(cfg, s, j, input), k, id, r, turns, 0);
      }
    case Exited(_, _, _) =>
      if j != k {
        FinalizeHolds(cfg, s, j, k, id, r, turns);
      } else {
        FinalizeEnds(cfg, s, k);
      }
    case _ =>
      AsideKeeps(cfg, s, j, input, k);
      Untouched(s, Land(cfg, s, j, input), k, id, r, turns, 0);
  }

  /** A finalize ends its session. */
  lemma FinalizeEnds(cfg: Config, s: Sys, k: nat)
    requires k in s.flights && s.flights[k].Exited?
    ensures var w := s.flights[k]; var s' := FinalizeStep(cfg, s, k, w.id, w.detached, w.result);
            k in s'.flights ==> !InSession(s'.flights[k])
  {
  }

  lemma ObservedHolds(s: Sys, x: IssueId, fact: RunFact, k: nat, id: IssueId, r: SpawnRequest, turns: nat)
    requires Driven(s) && Holds(s, k, id, r, turns)
    ensures Holds(s.(st := WithSlot(s.st, x, Observe(At(s.st, x), fact))), k, id, r,
                  turns + if TurnAt(s, Observed(x, fact), id, k) then 1 else 0)
  {
    Untouched(s, s.(st := WithSlot(s.st, x, Observe(At(s.st, x), fact))), k, id, r, turns,
              if TurnAt(s, Observed(x, fact), id, k) then 1 else 0);
  }

  lemma RefreshHolds(s: Sys, x: IssueId, row: Issue, k: nat, id: IssueId, r: SpawnRequest, turns: nat)
    requires Driven(s) && Holds(s, k, id, r, turns)
    ensures Holds(s.(st := WithSlot(s.st, x, RefreshActive(At(s.st, x), row))), k, id, r, turns)
  {
    Untouched(s, s.(st := WithSlot(s.st, x, RefreshActive(At(s.st, x), row))), k, id, r, turns, 0);
  }

  /** A flight that is still in session after an event is in the same session. */
  lemma StepHolds(cfg: Config, s: Sys, ev: Event, k: nat, id: IssueId, r: SpawnRequest, turns: nat)
    requires Driven(s) && Enabled(s, ev) && Holds(s, k, id, r, turns)
    requires k in Apply(cfg, s, ev).flights && InSession(Apply(cfg, s, ev).flights[k])
    ensures Holds(Apply(cfg, s, ev), k, id, r, turns + if TurnAt(s, ev, id, k) then 1 else 0)
  {
    match ev
    case Lands(j, input) => LandHolds(cfg, s, j, input, k, id, r, turns);
    case Dispatches(issue, attempt, rechecked) =>
      SettleNewHolds(s, issue.id, DispatchAt(cfg, s, issue, attempt, rechecked).out, k, id, r, turns);
    case InactiveRunAt(x, row) => SettleNewHolds(s, x, InactiveRun(cfg, x, At(s.st, x), s.st.latch, row), k, id, r, turns);
    case InactiveRetryAt(x, row) => SettleNewHolds(s, x, InactiveRetry(cfg, x, At(s.st, x), s.st.latch, row), k, id, r, turns);
    case InactiveBlockedAt(x, row) =>
      SettleNewHolds(s, x, InactiveBlocked(cfg, x, At(s.st, x), s.st.latch, row), k, id, r, turns);
    case AbsentRunAt(x) => SettleNewHolds(s, x, AbsentRun(At(s.st, x), s.st.latch), k, id, r, turns);
    case AbsentQueuedAt(x) => SettleNewHolds(s, x, AbsentQueued(At(s.st, x), s.st.latch), k, id, r, turns);
    case Observed(x, fact) => ObservedHolds(s, x, fact, k, id, r, turns);
    case Refreshed(x, row) => RefreshHolds(s, x, row, k, id, r, turns);
    case Tick(to) => Untouched(s, s.(clock := to), k, id, r, turns, 0);
  }

  predicate SessionAt(run: seq<Sys>, k: nat, m: nat) {
    m < |run| && k in run[m].flights && InSession(run[m].flights[k])
  }

  /** From event d to state n flight k has been one session of the issue, spawned with this request. */
  ghost predicate Ongoing(run: seq<Sys>, events: seq<Event>, d: nat, k: nat, id: IssueId, r: SpawnRequest, n: nat)
    requires |events| < |run|
  {
    && d < n <= |events| && Starts(run, d, k, id, r)
    && (forall m :: d < m <= n ==> SessionAt(run, k, m))
    && Holds(run[n], k, id, r, Turns(run, events, id, k, d, n))
  }

  /** Flight k comes into session here, and then by a request to spawn. */
  predicate OnlyStarts(s: Sys, s': Sys, k: nat) {
    k in s'.flights && InSession(s'.flights[k]) && (k in s.flights ==> !InSession(s.flights[k])) ==> s'.flights[k].Spawning?
  }

  lemma SettleStarts(s: Sys, x: IssueId, out: Outcome, j: nat, k: nat)
    ensures OnlyStarts(s, Settle(s, x, out, j), k) && OnlyStarts(s, SettleNew(s, x, out), k)
  {
  }

  lemma LandStarts(cfg: Config, s: Sys, j: nat, input: Input, k: nat)
    requires j in s.flights
    ensures OnlyStarts(s, Land(cfg, s, j, input), k)
  {
    var w := s.flights[j];
    var x, slot, latch := w.id, At(s.st, w.id), s.st.latch;
    match w
    case Exited(_, detached, result) =>
      var run := if detached.Some? then detached else slot.run;
      if run.Some? {
        SettleStarts(s, x, Finalize(cfg, x, slot, latch, run.value, result), j, k);
      }
    case Fired(_, attempt, kind) =>
      SettleStarts(s, x, Fire(cfg, x, slot, latch, s.clock, attempt, kind, AtCapacity(cfg, s.st, QueuedState(slot), None)), j, k);
    case FetchError(_, attempt, kind) => SettleStarts(s, x, PollFailed(slot, latch, s.clock, attempt, kind), j, k);
    case FetchDone(_, attempt, kind, found, terminal) =>
      var full := AtCapacity(cfg, s.st, if found.Some? then found.value.state else "", None);
      SettleStarts(s, x, AfterFetch(cfg, x, slot, latch, s.clock, attempt, kind, found, terminal, full), j, k);
    case _ =>
  }

  /** A flight is only ever given a spawn by an event that finds it out of session. */
  lemma NewSession(cfg: Config, s: Sys, ev: Event, k: nat)
    requires Enabled(s, ev)
    ensures OnlyStarts(s, Apply(cfg, s, ev), k)
  {
    match ev
    case Lands(j, input) => LandStarts(cfg, s, j, input, k);
    case _ =>
  }

  /** Every flight in session has been so since an event that started it. */
  lemma {:induction false} SessionBehind(cfg: Config, run: seq<Sys>, events: seq<Event>, n: nat, k: nat)
    returns (d: nat, r: SpawnRequest)
    requires IsRun(cfg, run, events) && n < |run| && k in run[n].flights && InSession(run[n].flights[k])
    ensures Ongoing(run, events, d, k, run[n].flights[k].id, r, n)
  {
    assert n > 0;
    var s, id := run[n - 1], run[n].flights[k].id;
    if k in s.flights && InSession(s.flights[k]) {
      d, r := SessionBehind(cfg, run, events, n - 1, k);
      SessionGoesOn(cfg, run, events, d, k, s.flights[k].id, r, n - 1);
    } else {
      NewSession(cfg, s, events[n - 1], k);
      d, r := n - 1, run[n].flights[k].spawn;
      SessionBegins(cfg, run, events, d, k);
    }
  }

  lemma SessionGoesOn(cfg: Config, run: seq<Sys>, events: seq<Event>, d: nat, k: nat, id: IssueId, r: SpawnRequest, n: nat)
    requires IsRun(cfg, run, events) && n < |events| && Ongoing(run, events, d, k, id, r, n)
    requires k in run[n + 1].flights && InSession(run[n + 1].flights[k])
    ensures Ongoing(run, events, d, k, id, r, n + 1)
  {
    RunHolds(cfg, run, events, n, k, id, r, Turns(run, events, id, k, d, n));
    OngoingNext(run, events, d, k, id, r, n);
  }

  lemma RunHolds(cfg: Config, run: seq<Sys>, events: seq<Event>, n: nat, k: nat, id: IssueId, r: SpawnRequest, turns: nat)
    requires IsRun(cfg, run, events) && n < |events| && Holds(run[n], k, id, r, turns)
    requires k in run[n + 1].flights && InSession(run[n + 1].flights[k])
    ensures Holds(run[n + 1], k, id, r, turns + if TurnAt(run[n], events[n], id, k) then 1 else 0)
  {
    RunKeepsDrivers(cfg, run, events, n);
    StepHolds(cfg, run[n], events[n], k, id, r, turns);
  }

  lemma OngoingNext(run: seq<Sys>, events: seq<Event>, d: nat, k: nat, id: IssueId, r: SpawnRequest, n: nat)
    requires n < |events| < |run| && Ongoing(run, events, d, k, id, r, n)
    requires Holds(run[n + 1], k, id, r,
                   Turns(run, events, id, k, d, n) + if TurnAt(run[n], events[n], id, k) then 1 else 0)
    ensures Ongoing(run, events, d, k, id, r, n + 1)
  {
  }

  lemma SessionBegins(cfg: Config, run: seq<Sys>, events: seq<Event>, d: nat, k: nat)
    requires IsRun(cfg, run, events) && d < |events| && k in run[d + 1].flights && run[d + 1].flights[k].Spawning?
    requires k in run[d].flights ==> !InSession(run[d].flights[k])
    ensures Ongoing(run, events, d, k, run[d + 1].flights[k].id, run[d + 1].flights[k].spawn, d + 1)
  {
    var s, id := run[d], run[d + 1].flights[k].id;
    RunKeepsDrivers(cfg, run, events, d);
    assert DrivenAt(s, id);
    assert !TurnAt(s, events[d], id, k);
    assert Turns(run, events, id, k, d, d) == 0;
  }

  // ---------------------------------------------------------------------------------------------
  // Chains of sessions

  /** What a dispatch may tell the worker it spawns: nothing carried, or the count of the queued
      continuation it consumed, and what that leaves of the budget. */
  predicate DispatchedWith(cfg: Config, slot: Slot, r: SpawnRequest) {
    && r.cleanTurnBudget == CleanTurnBudget(cfg.maxContinuationTurns, r.continuationTurns)
    && if slot.retry.None? then r.continuationTurns == 0
       else Queues(slot, r.continuationTurns) && !BudgetSpent(cfg.maxContinuationTurns, r.continuationTurns)
  }

  /** A spawn is asked for by a dispatch, or by a failure or quota retry, which carries nothing. */
  lemma SpawnComesFrom(cfg: Config, s: Sys, ev: Event, k: nat, id: IssueId, r: SpawnRequest)
    requires Numbered(s) && Enabled(s, ev)
    requires k in Apply(cfg, s, ev).flights && Apply(cfg, s, ev).flights[k] == Spawning(id, r)
    requires k in s.flights ==> !InSession(s.flights[k])
    ensures if ev.Dispatches? then ev.issue.id == id && DispatchedWith(cfg, At(s.st, id), r)
            else ev.Lands? && r.continuationTurns == 0 && r.cleanTurnBudget == 0
  {
    if ev.Lands? {
      LandSpawns(cfg, s, ev.k, ev.input, k, id, r);
    }
  }

  lemma LandSpawns(cfg: Config, s: Sys, j: nat, input: Input, k: nat, id: IssueId, r: SpawnRequest)
    requires j in s.flights && k in Land(cfg, s, j, input).flights && Land(cfg, s, j, input).flights[k] == Spawning(id, r)
    requires k in s.flights ==> !InSession(s.flights[k])
    ensures r.continuationTurns == 0 && r.cleanTurnBudget == 0
  {
    if s.flights[j].Exited? {
      FinalizeEnds(cfg, s, j);
    }
  }

  /** A session that ended in a clean finalize: its flight, the events that started and finalized it,
      what it was spawned with and the entry it ended under. */
  datatype Session = Session(flight: nat, start: nat, end: nat, request: SpawnRequest, entry: RunEntry)

  ghost predicate IsSession(cfg: Config, run: seq<Sys>, events: seq<Event>, id: IssueId, x: Session)
    requires IsRun(cfg, run, events)
  {
    && x.end < |events| && Ongoing(run, events, x.start, x.flight, id, x.request, x.end)
    && CleanFinalize(run[x.end], events[x.end], x.flight, id, x.entry)
  }

  /** Each session was dispatched after the one before had ended, with the turns it handed on; the
      first carried nothing. */
  ghost predicate IsChain(cfg: Config, run: seq<Sys>, events: seq<Event>, id: IssueId, chain: seq<Session>)
    requires IsRun(cfg, run, events)
  {
    chain == [] ||
    var n := |chain| - 1;
    && IsChain(cfg, run, events, id, chain[..n]) && IsSession(cfg, run, events, id, chain[n])
    && Follows(chain[..n], chain[n].start, chain[n].request)
  }

  /** A spawn started by event d continues these sessions. */
  predicate Follows(chain: seq<Session>, d: nat, r: SpawnRequest) {
    if chain == [] then r.continuationTurns == 0
    else chain[|chain| - 1].end < d && r.continuationTurns == HandsOn(chain[|chain| - 1].entry)
  }

  lemma ChainExtends(cfg: Config, run: seq<Sys>, events: seq<Event>, id: IssueId, chain: seq<Session>, x: Session)
    requires IsRun(cfg, run, events) && IsChain(cfg, run, events, id, chain)
    requires IsSession(cfg, run, events, id, x) && Follows(chain, x.start, x.request)
    ensures IsChain(cfg, run, events, id, chain + [x])
  {
    assert (chain + [x])[..|chain|] == chain;
  }

  /** Behind every spawn of every run is the chain of sessions whose turns it carries, each dispatch
      and finalize earlier than the next, back to a spawn that carried nothing. */
  lemma {:induction false} ChainBehind(cfg: Config, run: seq<Sys>, events: seq<Event>, d: nat, k: nat, id: IssueId,
                                       r: SpawnRequest)
    returns (chain: seq<Session>)
    requires IsRun(cfg, run, events) && Starts(run, d, k, id, r)
    ensures IsChain(cfg, run, events, id, chain) && Follows(chain, d, r)
    decreases d
  {
    chain := [];
    RunKeepsDrivers(cfg, run, events, d);
    SpawnComesFrom(cfg, run[d], events[d], k, id, r);
    if events[d].Dispatches? && At(run[d].st, id).retry.Some? {
      var f, j, entry := CarrierBehind(cfg, run, events, d, id, r.continuationTurns);
      var d', r' := SessionBehind(cfg, run, events, f, j);
      chain := ChainBehind(cfg, run, events, d', j, id, r');
      var x := Session(j, d', f, r', entry);
      ChainExtends(cfg, run, events, id, chain, x);
      chain := chain + [x];
    }
  }

  /** The turns reported in the sessions of a chain. */
  function ChainTurns(run: seq<Sys>, events: seq<Event>, id: IssueId, chain: seq<Session>): nat
    requires |events| < |run| && forall x :: x in chain ==> x.end <= |events|
  {
    if chain == [] then 0
    else
      var x := chain[|chain| - 1];
      ChainTurns(run, events, id, chain[..|chain| - 1]) + Turns(run, events, id, x.flight, x.start, x.end)
  }

  /** The count handed on by the last session pays for every session and every turn of the chain. */
  ghost predicate Paid(run: seq<Sys>, events: seq<Event>, id: IssueId, chain: seq<Session>)
    requires |events| < |run| && chain != []
  {
    && (forall x :: x in chain ==> x.end <= |events|)
    && |chain| <= HandsOn(chain[|chain| - 1].entry)
    && ChainTurns(run, events, id, chain) <= HandsOn(chain[|chain| - 1].entry)
  }

  lemma PaidNext(run: seq<Sys>, events: seq<Event>, id: IssueId, chain: seq<Session>, x: Session)
    requires |events| < |run| && (chain != [] ==> Paid(run, events, id, chain)) && Follows(chain, x.start, x.request)
    requires x.end <= |events| && HandsOn(x.entry) >= x.request.continuationTurns + 1
    requires HandsOn(x.entry) >= x.request.continuationTurns + Turns(run, events, id, x.flight, x.start, x.end)
    ensures Paid(run, events, id, chain + [x])
  {
    assert (chain + [x])[..|chain|] == chain;
  }

  lemma {:induction false} CountPays(cfg: Config, run: seq<Sys>, events: seq<Event>, id: IssueId, chain: seq<Session>)
    requires IsRun(cfg, run, events) && chain != [] && IsChain(cfg, run, events, id, chain)
    ensures Paid(run, events, id, chain)
  {
    var n := |chain| - 1;
    SessionPays(cfg, run, events, id, chain[n]);
    if n > 0 {
      CountPays(cfg, run, events, id, chain[..n]);
    }
    PaidNext(run, events, id, chain[..n], chain[n]);
    assert chain == chain[..n] + [chain[n]];
  }

  /** A session's entry still has the count it was spawned with, and counted every reported turn. */
  lemma SessionPays(cfg: Config, run: seq<Sys>, events: seq<Event>, id: IssueId, x: Session)
    requires IsRun(cfg, run, events) && IsSession(cfg, run, events, id, x)
    ensures x.end <= |events| && x.entry.turnCount == Turns(run, events, id, x.flight, x.start, x.end)
    ensures HandsOn(x.entry) >= x.request.continuationTurns + 1
    ensures HandsOn(x.entry) >= x.request.continuationTurns + x.entry.turnCount
  {
  }

  /** With a continuation budget of M > 0: behind every worker spawned by a dispatch there are fewer
      than M sessions in its chain, and if the runner keeps to the limit it is told, the turns of the
      whole chain, this session's so far included, are at most M. */
  lemma ChainWithinBudget(cfg: Config, run: seq<Sys>, events: seq<Event>, d: nat, k: nat, id: IssueId, r: SpawnRequest,
                          n: nat, maxTurns: int)
    returns (chain: seq<Session>)
    requires IsRun(cfg, run, events) && cfg.maxContinuationTurns > 0
    requires d < |events| && events[d].Dispatches? && Ongoing(run, events, d, k, id, r, n)
    requires Turns(run, events, id, k, d, n) <= EffectiveTurnLimit(maxTurns, r.cleanTurnBudget)
    ensures IsChain(cfg, run, events, id, chain) && Follows(chain, d, r)
    ensures |chain| + 1 <= cfg.maxContinuationTurns && forall x :: x in chain ==> x.end <= |events|
    ensures ChainTurns(run, events, id, chain) + Turns(run, events, id, k, d, n) <= cfg.maxContinuationTurns
  {
    chain := ChainBehind(cfg, run, events, d, k, id, r);
    RunKeepsDrivers(cfg, run, events, d);
    SpawnComesFrom(cfg, run[d], events[d], k, id, r);
    if chain != [] {
      CountPays(cfg, run, events, id, chain);
    }
  }

  // ---------------------------------------------------------------------------------------------
  // Where a chain ends

  /** The cleanup gives its continuation up: it is refused, removes the workspace, finds the issue
      gone, stopped by an operator, or unknown for the ninth time. */
  predicate GivesUp(cfg: Config, s: Sys, w: Work, input: Input)
    requires w.Cleaning?
  {
    var verdict := RecheckVerdict(cfg, input.lookup);
    || (w.stage.Waiting? && !(cfg.hasCleaner && MayClean(At(s.st, w.id))))
    || (w.stage.Verifying? && (verdict.Terminal? || verdict.Absent? || (verdict.Unknown? && w.pass >= MAX_CLEANUP_RETRIES)))
    || (w.stage.AskingStop? && w.id in s.st.latch.stops)
  }

  /** Events after which a carried count may be gone, so that the next dispatch starts from zero. */
  predicate EndsChain(cfg: Config, s: Sys, ev: Event, id: IssueId)
    requires Enabled(s, ev)
  {
    match ev
    case Dispatches(issue, _, _) => issue.id == id && At(s.st, id).retry.Some?
    case InactiveRunAt(x, _) => x == id
    case InactiveRetryAt(x, _) => x == id
    case InactiveBlockedAt(x, _) => x == id
    case AbsentRunAt(x) => x == id
    case AbsentQueuedAt(x) => x == id
    case Lands(k, input) =>
      var w := s.flights[k];
      w.id == id &&
      (|| (w.Cleaning? && GivesUp(cfg, s, w, input))
       || (At(s.st, id).retry.Some? && (w.Exited? || w.Rescheduling? || (w.Cleaning? && w.stage.Resuming?))))
    case _ => false
  }

  /** A continuation on its way in flight k gets on with it. */
  lemma CarrierMoves(cfg: Config, s: Sys, k: nat, input: Input, turns: int)
    requires k in s.flights && CarriedBy(s.flights[k], turns)
    requires s.flights[k].Cleaning? ==> !GivesUp(cfg, s, s.flights[k], input)
    ensures Carries(Land(cfg, s, k, input), s.flights[k].id, turns)
  {
    var w, s' := s.flights[k], Land(cfg, s, k, input);
    if w.Rescheduling? || w.stage.Resuming? {
      assert Queues(At(s'.st, w.id), turns);
    } else if w.stage.Verifying? && RecheckVerdict(cfg, input.lookup).Unknown? {
      assert Of(s', s.next, w.id) && CarriedBy(s'.flights[s.next], turns);
    } else {
      assert Of(s', k, w.id) && CarriedBy(s'.flights[k], turns);
    }
  }

  /** A carrying flight is left alone by everyone else. */
  lemma CarrierStays(cfg: Config, s: Sys, ev: Event, k: nat, turns: int)
    requires Numbered(s) && Enabled(s, ev) && k in s.flights && CarriedBy(s.flights[k], turns)
    requires !(ev.Lands? && ev.k == k)
    ensures k in Apply(cfg, s, ev).flights && Apply(cfg, s, ev).flights[k] == s.flights[k]
  {
    if ev.Lands? {
      LandLeaves(cfg, s, ev.k, ev.input, k);
    }
  }

  lemma LandLeaves(cfg: Config, s: Sys, j: nat, input: Input, k: nat)
    requires Numbered(s) && j in s.flights && k in s.flights && j != k && (s.flights[k].Rescheduling? || s.flights[k].Cleaning?)
    ensures k in Land(cfg, s, j, input).flights && Land(cfg, s, j, input).flights[k] == s.flights[k]
  {
  }

  lemma QueuedStays(cfg: Config, s: Sys, ev: Event, id: IssueId, turns: int)
    requires Driven(s) && Enabled(s, ev) && Queues(At(s.st, id), turns) && !EndsChain(cfg, s, ev, id)
    ensures Queues(At(Apply(cfg, s, ev).st, id), turns)
  {
    assert DrivenAt(s, id);
    if ev.Lands? {
      QueuedStaysLanding(cfg, s, ev.k, ev.input, id, turns);
    }
  }

  lemma QueuedStaysLanding(cfg: Config, s: Sys, k: nat, input: Input, id: IssueId, turns: int)
    requires DrivenAt(s, id) && Enabled(s, Lands(k, input)) && Queues(At(s.st, id), turns)
    requires !EndsChain(cfg, s, Lands(k, input), id)
    ensures Queues(At(Land(cfg, s, k, input).st, id), turns)
  {
    var w := s.flights[k];
    if w.id == id {
      assert Of(s, k, id) && WorkerOk(At(s.st, id), k, w);
    }
  }

  /** On every run a continuation is lost only by being dispatched or parked over budget, released by
      reconciliation, given up by its cleanup, or replaced in the queue. After any of these the next
      dispatch finds no count and starts a chain afresh. */
  lemma ContinuationLost(cfg: Config, run: seq<Sys>, events: seq<Event>, n: nat, id: IssueId, turns: int)
    requires IsRun(cfg, run, events) && n < |events| && Carries(run[n], id, turns) && !Carries(run[n + 1], id, turns)
    ensures EndsChain(cfg, run[n], events[n], id)
  {
    var s, ev := run[n], events[n];
    RunKeepsDrivers(cfg, run, events, n);
    if !EndsChain(cfg, s, ev, id) {
      if Queues(At(s.st, id), turns) {
        QueuedStays(cfg, s, ev, id, turns);
      } else {
        var k :| Of(s, k, id) && CarriedBy(s.flights[k], turns);
        if ev.Lands? && ev.k == k {
          CarrierMoves(cfg, s, k, ev.input, turns);
        } else {
          CarrierStays(cfg, s, ev, k, turns);
          assert Of(run[n + 1], k, id);
        }
      }
      assert false;
    }
  }
}
