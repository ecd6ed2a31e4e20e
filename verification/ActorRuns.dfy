/** What the invariant says about whole runs of the orchestrator that overtake no deferred
    reschedule. */
module ActorRuns {
  import opened Prelude
  import opened ClaimState
  import opened ActorSystem
  import opened ActorSafety

  // ---------------------------------------------------------------------------------------------
  // One holder per issue, and the agent limit

  /** A worker process, or its result on the way to the actor. */
  predicate Live(w: Work) {
    w.Working? || w.Exited?
  }

  predicate RunsOrWill(w: Work) {
    Live(w) || w.Spawning?
  }

  function LiveWorkers(s: Sys): set<nat> {
    set k | k in s.flights && Live(s.flights[k])
  }

  /** Running, Blocked, RetryAttempts and pending spawns are pairwise disjoint. */
  ghost predicate OneHolder(s: Sys, id: IssueId) {
    var slot := At(s.st, id);
    && !(slot.run.Some? && slot.blocked.Some?)
    && !(slot.run.Some? && slot.retry.Some?)
    && !(slot.blocked.Some? && slot.retry.Some?)
    && (SpawnPending(s, id) ==> slot.run.None? && slot.blocked.None? && slot.retry.None?)
  }

  ghost predicate OneWorker(s: Sys, id: IssueId) {
    forall j, k | Of(s, j, id) && Of(s, k, id) && RunsOrWill(s.flights[j]) && RunsOrWill(s.flights[k]) :: j == k
  }

  /** The finalize of a worker finds the entry that worker registered. */
  predicate FinalizesOwnEntry(s: Sys) {
    forall k :: k in s.flights && Live(s.flights[k]) ==>
      At(s.st, s.flights[k].id).run.Some? && At(s.st, s.flights[k].id).run.value.token == k
  }

  predicate WithinLimit(cfg: Config, s: Sys) {
    |LiveWorkers(s)| <= RunningCount(s.st) <= cfg.maxAgents
  }

  lemma {:induction false} TokensAtMost(s: Sys, live: set<nat>, ids: set<IssueId>)
    requires FinalizesOwnEntry(s)
    requires forall k :: k in live ==> k in s.flights && Live(s.flights[k]) && s.flights[k].id in ids
    ensures |live| <= |ids|
  {
    if live != {} {
      var k :| k in live;
      TokensAtMost(s, live - {k}, ids - {s.flights[k].id});
    }
  }

  lemma WorkersWithinLimit(cfg: Config, s: Sys)
    requires Inv(cfg, s)
    ensures FinalizesOwnEntry(s) && WithinLimit(cfg, s)
  {
    forall k | k in s.flights && Live(s.flights[k])
      ensures At(s.st, s.flights[k].id).run.Some? && At(s.st, s.flights[k].id).run.value.token == k
      ensures s.flights[k].id in Counted(s.st)
    {
      assert IdInv(s, s.flights[k].id) && Of(s, k, s.flights[k].id);
    }
    TokensAtMost(s, LiveWorkers(s), Counted(s.st));
  }

  /** Section 7.4 of the Symphony SPEC over whole runs: in every state of every in-order run each
      issue has one holder and at most one worker, every finalize finds its own entry, and the live
      workers stay within the configured limit. */
  lemma RunsAreExclusive(cfg: Config, run: seq<Sys>, events: seq<Event>, i: nat)
    requires IsRun(cfg, run, events) && InOrder(cfg, run, events) && i < |run|
    ensures forall id :: OneHolder(run[i], id) && OneWorker(run[i], id)
    ensures FinalizesOwnEntry(run[i])
    ensures WithinLimit(cfg, run[i])
  {
    RunKeeps(cfg, run, events, i);
    var s := run[i];
    WorkersWithinLimit(cfg, s);
    forall id ensures OneHolder(s, id) && OneWorker(s, id) {
      assert IdInv(s, id);
    }
  }

  // ---------------------------------------------------------------------------------------------
  // Workspace removal

  /** While a cleanup may be removing the workspace of an issue nobody holds the issue, nobody is
      about to spawn for it, and no other cleanup has passed its begin op. */
  lemma RemovalIsExclusive(cfg: Config, run: seq<Sys>, events: seq<Event>, i: nat, k: nat)
    requires IsRun(cfg, run, events) && InOrder(cfg, run, events) && i < |run|
    requires k in run[i].flights && run[i].flights[k].Cleaning? && Active(run[i].flights[k].stage)
    ensures var s, id := run[i], run[i].flights[k].id;
            && !IsClaimed(At(s.st, id)) && !SpawnPending(s, id)
            && (forall j :: Of(s, j, id) && s.flights[j].Cleaning? && Active(s.flights[j].stage) ==> j == k)
            && s.flights[k].pass <= MAX_CLEANUP_RETRIES
  {
    RunKeeps(cfg, run, events, i);
    assert IdInv(run[i], run[i].flights[k].id) && Of(run[i], k, run[i].flights[k].id);
  }

  /** The tracker was asked and did not say in which state the issue is. */
  predicate NoAnswer(answer: Lookup) {
    answer.LookupFailed? || answer.NoRow? || answer.UnknownRow? || (answer.CurrentRow? && Trim(answer.state) == "")
  }

  /** The tracker's current row has a terminal state. */
  predicate SaysTerminal(cfg: Config, answer: Lookup) {
    answer.CurrentRow? && Trim(answer.state) != "" && Fold(answer.state) in cfg.terminalStates
  }

  /** A cleanup goes on to remove the workspace exactly when its recheck ran, and there was nothing
      to ask or the tracker's current row had a terminal state. Without an answer it is tried again, up to
      the eighth retry; a state that is not terminal makes it ask for an operator stop; absence spares it. */
  lemma RemovalNeedsTerminal(cfg: Config, s: Sys, k: nat, input: Input)
    requires k in s.flights && s.flights[k].Cleaning?
    ensures var s' := Land(cfg, s, k, input);
            (k in s'.flights && s'.flights[k].Cleaning? && s'.flights[k].stage.Removing?) <==>
            s.flights[k].stage.Verifying? &&
            (!cfg.hasResolver || cfg.terminalStates == {} || SaysTerminal(cfg, input.lookup))
    ensures s.flights[k].stage.Verifying? && cfg.hasResolver && cfg.terminalStates != {} && !SaysTerminal(cfg, input.lookup) ==>
              var w, s' := s.flights[k], Land(cfg, s, k, input);
              if NoAnswer(input.lookup) && w.pass < 8
              then s'.flights == s.flights[k := w.(stage := Ending)][s.next := w.(pass := w.pass + 1, stage := Waiting)]
              else s'.flights == s.flights[k := w.(stage := if input.lookup.CurrentRow? && !NoAnswer(input.lookup) then AskingStop else Ending)]
  {
  }

  /** A cleanup starts exactly on an issue that nobody holds or cleans, and marks it; after a recheck that
      found the issue active, its continuation is resumed exactly if no operator stop is latched; at its
      end the mark goes. */
  lemma CleanupSteps(cfg: Config, s: Sys, k: nat, input: Input)
    requires k in s.flights && s.flights[k].Cleaning?
    ensures var w, s' := s.flights[k], Land(cfg, s, k, input);
            var slot, slot' := At(s.st, w.id), At(s'.st, w.id);
            var untouched := !slot.claimed && slot.run.None? && slot.blocked.None? && slot.retry.None? && !slot.cleaning;
            && (w.stage.Waiting? ==>
                  if cfg.hasCleaner && untouched
                  then s'.flights == s.flights[k := w.(stage := Verifying)] && slot' == slot.(cleaning := true)
                  else s'.flights == s.flights - {k} && slot' == slot)
            && (w.stage.AskingStop? ==>
                  slot' == slot &&
                  s'.flights[k].stage == if w.cleanup.resume.Some? && w.id !in s.st.latch.stops then Resuming else Ending)
            && (w.stage.Resuming? && w.cleanup.resume.Some? ==>
                  var r := w.cleanup.resume.value;
                  && slot'.retry.Some? && slot'.retry.value.issue == r.issue && slot'.retry.value.kind == r.request.kind
                  && slot'.retry.value.attempt == r.request.attempt && slot'.retry.value.continuationTurns == r.continuationTurns
                  && slot'.retry.value.workspace == r.workspace && slot'.claimed)
            && (w.stage.Removing? ==> slot' == slot && s'.flights == s.flights[k := w.(stage := Ending)])
            && (w.stage.Ending? ==> slot' == slot.(cleaning := false) && s'.flights == s.flights - {k})
  {
  }

  // ---------------------------------------------------------------------------------------------
  // Blocked work

  /** Reconciliation saw a blocked issue inactive, or confirmed it absent. */
  predicate ObservedGone(ev: Event, id: IssueId) {
    (ev.InactiveBlockedAt? && ev.id == id) || (ev.AbsentQueuedAt? && ev.id == id)
  }

  /** Whether a finished run is to be parked, whatever else its worker returned. */
  predicate MustPark(cfg: Config, run: RunEntry, result: WorkerResult) {
    || run.inputRequired || result.inputRequired || result.err.InputRequiredError? || run.budgetExceeded
    || (result.err.NoError? && result.exit.None? && !(run.reconcileCleanup && run.turnCount > 0) &&
        cfg.maxContinuationTurns > 0 &&
        (run.continuationTurns + 1 >= cfg.maxContinuationTurns || run.continuationTurns + run.turnCount >= cfg.maxContinuationTurns))
  }

  /** Whatever its worker returned, a run that needs input or broke its budget is parked with no
      followup, and so is a clean run that spent the continuation budget without a handoff. */
  lemma FinalizeParks(cfg: Config, id: IssueId, slot: Slot, latch: Latch, run: RunEntry, result: WorkerResult)
    requires IsCurrentRun(slot, run)
    ensures var out := Finalize(cfg, id, slot, latch, run, result);
            (out.slot.blocked.Some? && slot.blocked.None?) <==> slot.blocked.None? && MustPark(cfg, run, result)
    ensures var out := Finalize(cfg, id, slot, latch, run, result);
            out.slot.blocked.Some? && slot.blocked.None? ==>
              out.followup.Nothing? && out.slot.run.None? && out.slot.retry.None? && out.latch == latch
  {
  }

  lemma LandKeepsBlocked(cfg: Config, s: Sys, k: nat, input: Input, id: IssueId)
    requires Inv(cfg, s) && k in s.flights && At(s.st, id).blocked.Some?
    ensures At(Land(cfg, s, k, input).st, id).blocked == At(s.st, id).blocked
  {
    var x := s.flights[k].id;
    assert IdInv(s, x) && Of(s, k, x) && FlightOk(At(s.st, x), k, s.flights[k]);
  }

  lemma StepKeepsBlocked(cfg: Config, s: Sys, ev: Event, id: IssueId)
    requires Inv(cfg, s) && Enabled(s, ev) && At(s.st, id).blocked.Some? && !ObservedGone(ev, id)
    ensures At(Apply(cfg, s, ev).st, id).blocked.Some?
  {
    assert IdInv(s, id);
    if ev.Lands? {
      LandKeepsBlocked(cfg, s, ev.k, ev.input, id);
    }
  }

  /** A blocked issue has no worker, spawn, retry or reschedule of its own. */
  ghost predicate Parked(s: Sys, id: IssueId) {
    && At(s.st, id).blocked.Some? && At(s.st, id).run.None? && At(s.st, id).retry.None?
    && forall k :: Of(s, k, id) ==> !RunsOrWill(s.flights[k]) && !s.flights[k].Rescheduling?
  }

  lemma BlockedIsParked(cfg: Config, s: Sys, id: IssueId)
    requires Inv(cfg, s) && At(s.st, id).blocked.Some?
    ensures Parked(s, id)
  {
    assert IdInv(s, id);
    Unowned(s, id);
    assert NothingElseOwns(s, id, s.next);
  }

  lemma {:induction false} BlockedStays(cfg: Config, run: seq<Sys>, events: seq<Event>, id: IssueId, i: nat, j: nat)
    requires IsRun(cfg, run, events) && InOrder(cfg, run, events) && i <= j < |run|
    requires At(run[i].st, id).blocked.Some?
    requires forall m :: i <= m < j ==> !ObservedGone(events[m], id)
    ensures At(run[j].st, id).blocked.Some?
  {
    if i < j {
      BlockedStays(cfg, run, events, id, i, j - 1);
      RunKeeps(cfg, run, events, j - 1);
      StepKeepsBlocked(cfg, run[j - 1], events[j - 1], id);
    }
  }

  /** Parked work stays parked until reconciliation has seen the issue inactive or confirmed it
      absent. */
  lemma BlockedStaysParked(cfg: Config, run: seq<Sys>, events: seq<Event>, id: IssueId, i: nat, j: nat)
    requires IsRun(cfg, run, events) && InOrder(cfg, run, events) && i <= j < |run|
    requires At(run[i].st, id).blocked.Some?
    requires forall m :: i <= m < j ==> !ObservedGone(events[m], id)
    ensures Parked(run[j], id)
  {
    BlockedStays(cfg, run, events, id, i, j);
    RunKeeps(cfg, run, events, j);
    BlockedIsParked(cfg, run[j], id);
  }

  /** From the finalize of a run that must be parked on, its issue is neither retried, continued nor
      dispatched until reconciliation has seen it inactive or confirmed it absent. */
  lemma ParkedFromFinalizeOn(cfg: Config, run: seq<Sys>, events: seq<Event>, k: nat, i: nat, j: nat)
    requires IsRun(cfg, run, events) && InOrder(cfg, run, events) && i < j < |run|
    requires events[i].Lands? && events[i].k == k && run[i].flights[k].Exited?
    requires At(run[i].st, run[i].flights[k].id).run.Some? ==>
               MustPark(cfg, At(run[i].st, run[i].flights[k].id).run.value, run[i].flights[k].result)
    requires forall m :: i < m < j ==> !ObservedGone(events[m], run[i].flights[k].id)
    ensures Parked(run[j], run[i].flights[k].id)
  {
    var s, id := run[i], run[i].flights[k].id;
    RunKeeps(cfg, run, events, i);
    assert IdInv(s, id) && Of(s, k, id) && FlightOk(At(s.st, id), k, s.flights[k]);
    FinalizeParks(cfg, id, At(s.st, id), s.st.latch, At(s.st, id).run.value, s.flights[k].result);
    assert At(run[i + 1].st, id).blocked.Some?;
    BlockedStaysParked(cfg, run, events, id, i + 1, j);
  }
}
