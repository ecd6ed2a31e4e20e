/** No claim is ever orphaned, on any run at all: whatever overtakes whatever, a claimed issue always
    has something that will move it on, and a cleaning mark always has the cleanup that clears it. */
module ActorDrivers {
  import opened Prelude
  import opened Backoff
  import opened ClaimState
  import opened ActorSystem
  import opened ActorSafety

  /** The retry chain of an entry: its armed timer, its fire, its candidate fetch, or the op that
      carries the fetch's answer. */
  predicate ChainOf(w: Work, entry: RetryEntry) {
    (w.Armed? || w.Fired? || w.Fetching? || w.FetchError? || w.FetchDone?) &&
    w.attempt == entry.attempt && w.kind == entry.kind
  }

  ghost predicate Rescheduled(s: Sys, id: IssueId) {
    exists k :: Of(s, k, id) && s.flights[k].Rescheduling?
  }

  /** A queued retry waits for its reschedule, its own chain, or, as a due continuation, for the
      next poll. */
  ghost predicate RetryDriven(s: Sys, id: IssueId, entry: RetryEntry) {
    || Rescheduled(s, id)
    || (entry.kind == Continuation && entry.dueAt <= s.clock)
    || (Of(s, entry.serial, id) && ChainOf(s.flights[entry.serial], entry) &&
        (entry.kind == Continuation ==> s.flights[entry.serial].Armed? && s.flights[entry.serial].dueAt == entry.dueAt))
  }

  /** Something will move a claimed issue on. */
  ghost predicate HasDriver(s: Sys, id: IssueId) {
    var slot := At(s.st, id);
    slot.run.Some? || slot.blocked.Some? || slot.retry.Some? || Rescheduled(s, id) || SpawnPending(s, id)
  }

  /** Live workers and registered runs belong to each other, but for workers whose entry a later
      register has overwritten; a continuation is never fetched for. */
  predicate WorkerOk(slot: Slot, k: nat, w: Work) {
    && (w.Working? || w.Exited? ==>
          if w.detached.None? then slot.run.Some? && slot.run.value.token == k
          else w.detached.value.token == k && (slot.run.Some? ==> slot.run.value.token != k))
    && (w.Fetching? || w.FetchError? || w.FetchDone? ==> w.kind != Continuation)
  }

  /** The flight numbered as a queued entry's timer is still that entry's chain, or its reschedule. */
  predicate OwnChain(s: Sys, id: IssueId) {
    var slot := At(s.st, id);
    slot.retry.Some? && slot.retry.value.serial in s.flights ==>
      ChainOf(s.flights[slot.retry.value.serial], slot.retry.value) ||
      s.flights[slot.retry.value.serial].Rescheduling?
  }

  ghost predicate DrivenAt(s: Sys, id: IssueId) {
    var slot := At(s.st, id);
    && (forall k :: Of(s, k, id) ==> WorkerOk(slot, k, s.flights[k]))
    && (slot.run.Some? ==>
          Of(s, slot.run.value.token, id) &&
          (s.flights[slot.run.value.token].Working? || s.flights[slot.run.value.token].Exited?))
    && OwnTimer(s, id) && OwnChain(s, id)
    && (slot.retry.Some? ==> RetryDriven(s, id, slot.retry.value))
    && (slot.claimed ==> HasDriver(s, id))
    && (slot.cleaning ==> exists k :: Of(s, k, id) && Marks(s.flights[k]))
  }

  ghost predicate Driven(s: Sys) {
    Numbered(s) && forall id :: DrivenAt(s, id)
  }

  lemma DrivenFramed(s: Sys, s': Sys, x: IssueId, y: IssueId)
    requires Numbered(s) && OnlyAbout(s, s', x) && s.clock <= s'.clock && y != x && DrivenAt(s, y)
    ensures DrivenAt(s', y)
  {
  }

  lemma DrivenFocus(s: Sys, s': Sys, x: IssueId)
    requires Driven(s) && OnlyAbout(s, s', x) && s.clock <= s'.clock && DrivenAt(s', x)
    ensures Driven(s')
  {
    forall y ensures DrivenAt(s', y) {
      if y != x {
        DrivenFramed(s, s', x, y);
      }
    }
  }

  /** Only flight k of x may have changed, and the armed timer `stopped` may be gone. */
  ghost predicate OthersStay(s: Sys, s': Sys, x: IssueId, k: nat, stopped: Option<nat>) {
    && (forall j: nat :: Of(s, j, x) && j != k && (stopped != Some(j) || !s.flights[j].Armed?) ==>
          Of(s', j, x) && s'.flights[j] == s.flights[j])
    && (forall j: nat :: Of(s', j, x) && j != k ==> Of(s, j, x) && s'.flights[j] == s.flights[j])
  }

  predicate SameEntry(a: RetryEntry, b: RetryEntry) {
    a.serial == b.serial && a.attempt == b.attempt && a.kind == b.kind && a.dueAt == b.dueAt
  }

  predicate Carries(w: Work) {
    w.Spawning? || w.Rescheduling?
  }

  /** What must be said of x's new slot when flight k took a step. */
  ghost predicate Handled(s: Sys, s': Sys, x: IssueId, k: nat, stopped: Option<nat>) {
    var slot, slot' := At(s.st, x), At(s'.st, x);
    var before, after := Of(s, k, x), Of(s', k, x);
    && slot'.cleaning == slot.cleaning && (before ==> !Marks(s.flights[k]))
    && (after ==> WorkerOk(slot', k, s'.flights[k]))
    && (slot'.run.None? && slot.run.Some? ==> slot.run.value.token == k)
    && (slot'.run.Some? ==>
          slot.run.Some? && slot.run.value.token == slot'.run.value.token &&
          (k == slot.run.value.token ==> after && (s'.flights[k].Working? || s'.flights[k].Exited?)))
    && (slot'.retry.Some? ==>
          || (after && s'.flights[k].Rescheduling? && OwnTimer(s', x) && OwnChain(s', x))
          || (OwnTimer(s', x) && OwnChain(s', x) && RetryDriven(s', x, slot'.retry.value))
          || (slot.retry.Some? && SameEntry(slot.retry.value, slot'.retry.value) && k != slot.retry.value.serial &&
              stopped.None? && (before ==> !s.flights[k].Rescheduling?)))
    && (slot'.claimed ==>
          || slot'.run.Some? || slot'.blocked.Some? || slot'.retry.Some?
          || (after && Carries(s'.flights[k]))
          || (slot.claimed && slot.run.None? && slot.blocked.None? && slot.retry.None? &&
              (before ==> !Carries(s.flights[k]))))
  }

  lemma Redriven(s: Sys, s': Sys, x: IssueId, k: nat, stopped: Option<nat>)
    requires Driven(s) && OnlyAbout(s, s', x) && s.clock <= s'.clock
    requires OthersStay(s, s', x, k, stopped) && Handled(s, s', x, k, stopped)
    ensures Driven(s')
  {
    assert DrivenAt(s, x);
    var slot, slot' := At(s.st, x), At(s'.st, x);
    forall j | Of(s', j, x) ensures WorkerOk(slot', j, s'.flights[j]) {
      assert j != k ==> WorkerOk(slot, j, s.flights[j]);
    }
    if slot.cleaning {
      var m :| Of(s, m, x) && Marks(s.flights[m]);
      assert Of(s', m, x) && Marks(s'.flights[m]);
    }
    Carried(s, s', x, k, stopped);
    DrivenFocus(s, s', x);
  }

  /** The drivers of x that are not flight k are still there. */
  lemma Carried(s: Sys, s': Sys, x: IssueId, k: nat, stopped: Option<nat>)
    requires OthersStay(s, s', x, k, stopped)
    ensures Rescheduled(s, x) && (Of(s, k, x) ==> !s.flights[k].Rescheduling?) ==> Rescheduled(s', x)
    ensures SpawnPending(s, x) && (Of(s, k, x) ==> !s.flights[k].Spawning?) ==> SpawnPending(s', x)
  {
  }

  // ---------------------------------------------------------------------------------------------
  // Every kind of event

  lemma SettleStays(s: Sys, x: IssueId, out: Outcome, k: nat)
    requires Numbered(s) && (Of(s, k, x) || k == s.next)
    ensures OthersStay(s, Settle(s, x, out, k), x, k, out.stopped)
  {
  }

  lemma SettleDriven(s: Sys, x: IssueId, out: Outcome, k: nat)
    requires Driven(s) && Of(s, k, x) && Fair(At(s.st, x), out)
    requires Handled(s, Settle(s, x, out, k), x, k, out.stopped)
    ensures Driven(Settle(s, x, out, k))
  {
    assert DrivenAt(s, x);
    SettleOnly(s, x, out, k);
    SettleStays(s, x, out, k);
    Redriven(s, Settle(s, x, out, k), x, k, out.stopped);
  }

  lemma SettleNewDriven(s: Sys, x: IssueId, out: Outcome)
    requires Driven(s) && Fair(At(s.st, x), out)
    requires Handled(s, SettleNew(s, x, out), x, s.next, out.stopped)
    ensures Driven(SettleNew(s, x, out))
  {
    assert DrivenAt(s, x);
    SettleNewOnly(s, x, out);
    SettleStays(s, x, out, s.next);
    assert OthersStay(s, SettleNew(s, x, out), x, s.next, out.stopped) by {
      assert forall j: nat :: Of(SettleNew(s, x, out), j, x) <==> Of(Settle(s, x, out, s.next), j, x);
    }
    Redriven(s, SettleNew(s, x, out), x, s.next, out.stopped);
  }

  lemma DispatchDriven(cfg: Config, s: Sys, issue: Issue, attempt: Option<int>, rechecked: bool)
    requires Driven(s)
    ensures Driven(SettleNew(s, issue.id, DispatchAt(cfg, s, issue, attempt, rechecked).out))
  {
    var x, out := issue.id, DispatchAt(cfg, s, issue, attempt, rechecked).out;
    assert DrivenAt(s, x);
    if out.slot == At(s.st, x) {
      SettleNewDriven(s, x, out);
    } else {
      assert out.slot.claimed && out.slot.retry.None? && out.slot.run == At(s.st, x).run;
      SettleNewDriven(s, x, out);
    }
  }

  lemma InactiveRunDriven(cfg: Config, s: Sys, x: IssueId, row: Issue)
    requires Driven(s) && At(s.st, x).run.Some?
    ensures Driven(SettleNew(s, x, InactiveRun(cfg, x, At(s.st, x), s.st.latch, row)))
  {
    assert DrivenAt(s, x);
    SettleNewDriven(s, x, InactiveRun(cfg, x, At(s.st, x), s.st.latch, row));
  }

  lemma InactiveRetryDriven(cfg: Config, s: Sys, x: IssueId, row: Issue)
    requires Driven(s) && At(s.st, x).retry.Some?
    ensures Driven(SettleNew(s, x, InactiveRetry(cfg, x, At(s.st, x), s.st.latch, row)))
  {
    assert DrivenAt(s, x);
    SettleNewDriven(s, x, InactiveRetry(cfg, x, At(s.st, x), s.st.latch, row));
  }

  lemma InactiveBlockedDriven(cfg: Config, s: Sys, x: IssueId, row: Issue)
    requires Driven(s) && At(s.st, x).blocked.Some?
    ensures Driven(SettleNew(s, x, InactiveBlocked(cfg, x, At(s.st, x), s.st.latch, row)))
  {
    assert DrivenAt(s, x);
    SettleNewDriven(s, x, InactiveBlocked(cfg, x, At(s.st, x), s.st.latch, row));
  }

  lemma AbsentDriven(s: Sys, x: IssueId)
    requires Driven(s)
    ensures At(s.st, x).run.Some? ==> Driven(SettleNew(s, x, AbsentRun(At(s.st, x), s.st.latch)))
    ensures Driven(SettleNew(s, x, AbsentQueued(At(s.st, x), s.st.latch)))
  {
    assert DrivenAt(s, x);
    if At(s.st, x).run.Some? {
      SettleNewDriven(s, x, AbsentRun(At(s.st, x), s.st.latch));
    }
    SettleNewDriven(s, x, AbsentQueued(At(s.st, x), s.st.latch));
  }

  lemma FinalizeDriven(cfg: Config, s: Sys, k: nat)
    requires Driven(s) && k in s.flights && s.flights[k].Exited?
    ensures Driven(FinalizeStep(cfg, s, k, s.flights[k].id, s.flights[k].detached, s.flights[k].result))
  {
    var w := s.flights[k];
    var x, slot := w.id, At(s.st, w.id);
    assert DrivenAt(s, x) && Of(s, k, x) && WorkerOk(slot, k, w);
    if w.detached.None? {
      FinalizeShape(cfg, x, slot, s.st.latch, slot.run.value, w.result);
      SettleDriven(s, x, Finalize(cfg, x, slot, s.st.latch, slot.run.value, w.result), k);
    } else {
      StrayFinalize(cfg, x, slot, s.st.latch, w.detached.value, w.result);
      SettleDriven(s, x, Finalize(cfg, x, slot, s.st.latch, w.detached.value, w.result), k);
    }
  }

  /** A worker whose entry was overwritten can at most record an operator stop. */
  lemma StrayFinalize(cfg: Config, id: IssueId, slot: Slot, latch: Latch, run: RunEntry, result: WorkerResult)
    requires !IsCurrentRun(slot, run)
    ensures var out := Finalize(cfg, id, slot, latch, run, result);
            out.slot == slot && out.followup.Nothing? && out.stopped.None?
  {
  }

  lemma RegisterStays(s: Sys, k: nat)
    requires Driven(s) && k in s.flights && s.flights[k].Spawning?
    ensures var x := s.flights[k].id;
            var s' := RegisterStep(s, k, x, s.flights[k].spawn);
            && OnlyAbout(s, s', x)
            && (forall j :: Of(s', j, x) <==> Of(s, j, x))
            && (forall j :: Of(s, j, x) && !RunsOrSpawns(s.flights[j]) ==> s'.flights[j] == s.flights[j])
            && (forall j :: Of(s, j, x) && RunsOrSpawns(s.flights[j]) && j != k ==>
                  RunsOrSpawns(s'.flights[j]) && WorkerOk(At(s'.st, x), j, s'.flights[j]))
  {
    var x := s.flights[k].id;
    assert DrivenAt(s, x) && Of(s, k, x);
  }

  predicate RunsOrSpawns(w: Work) {
    w.Working? || w.Exited? || w.Spawning?
  }

  lemma RegisterDriven(s: Sys, k: nat)
    requires Driven(s) && k in s.flights && s.flights[k].Spawning?
    ensures Driven(RegisterStep(s, k, s.flights[k].id, s.flights[k].spawn))
  {
    var x := s.flights[k].id;
    var slot, s' := At(s.st, x), RegisterStep(s, k, x, s.flights[k].spawn);
    RegisterStays(s, k);
    assert DrivenAt(s, x);
    assert Rescheduled(s, x) ==> Rescheduled(s', x);
    assert slot.cleaning ==> exists m :: Of(s', m, x) && Marks(s'.flights[m]);
    DrivenFocus(s, s', x);
  }

  /** Flight k takes a step that touches no slot and neither gives up nor gains a claim. */
  lemma StepDriven(s: Sys, k: nat, w: Work)
    requires Driven(s) && k in s.flights && w.id == s.flights[k].id
    requires !Carries(s.flights[k]) && !Marks(s.flights[k])
    requires s.flights[k].Working? ==> w.Exited? && w.detached == s.flights[k].detached
    requires !s.flights[k].Working? ==> !w.Working? && !w.Exited? && !s.flights[k].Exited?
    requires forall e :: ChainOf(s.flights[k], e) ==> ChainOf(w, e)
    requires s.flights[k].Armed? ==> s.flights[k].dueAt <= s.clock
    requires s.flights[k].Armed? || s.flights[k].Fetching? || s.flights[k].Working?
    requires WorkerOk(At(s.st, w.id), k, w)
    ensures Driven(s.(flights := s.flights[k := w]))
  {
    var x, s' := s.flights[k].id, s.(flights := s.flights[k := w]);
    assert DrivenAt(s, x) && Of(s, k, x);
    var slot := At(s.st, x);
    if slot.retry.Some? && slot.retry.value.serial == k {
      Carried(s, s', x, k, None);
    }
    Redriven(s, s', x, k, None);
  }

  lemma QueueDriven(s: Sys, x: IssueId, k: nat, entry: RetryEntry, next: nat)
    requires Driven(s) && (Of(s, k, x) || k == s.next) && next == Max(s.next, k + 1)
    requires k in s.flights ==> s.flights[k].Rescheduling?
    requires entry.serial == k
    ensures Driven(QueueStep(s, k, x, entry).(next := next))
  {
    assert DrivenAt(s, x);
    var s' := QueueStep(s, k, x, entry).(next := next);
    QueueOnly(s, k, x, entry, next);
    assert Of(s', k, x) && ChainOf(s'.flights[k], entry);
    Redriven(s, s', x, k, TimerOf(At(s.st, x)));
  }

  lemma WakeDriven(s: Sys, k: nat)
    requires Driven(s) && k in s.flights && s.flights[k].Fired? && s.flights[k].kind == Continuation
    requires Matches(At(s.st, s.flights[k].id), s.flights[k].attempt, Continuation)
    ensures var x := s.flights[k].id;
            Driven(Settle(s, x, Outcome(TimerCleared(At(s.st, x)), s.st.latch, WakePoll, None), k))
  {
    var x := s.flights[k].id;
    var out := Outcome(TimerCleared(At(s.st, x)), s.st.latch, WakePoll, None);
    assert DrivenAt(s, x) && Of(s, k, x);
    SettleStays(s, x, out, k);
    Carried(s, Settle(s, x, out, k), x, k, None);
    SettleDriven(s, x, out, k);
  }

  lemma FetchDriven(s: Sys, k: nat)
    requires Driven(s) && k in s.flights && s.flights[k].Fired? && s.flights[k].kind != Continuation
    requires Matches(At(s.st, s.flights[k].id), s.flights[k].attempt, s.flights[k].kind)
    ensures var w := s.flights[k];
            Driven(Moved(s, w.id, TimerCleared(At(s.st, w.id)), k, Fetching(w.id, w.attempt, w.kind)))
  {
    var w := s.flights[k];
    var s' := Moved(s, w.id, TimerCleared(At(s.st, w.id)), k, Fetching(w.id, w.attempt, w.kind));
    assert DrivenAt(s, w.id) && Of(s, k, w.id);
    assert OthersStay(s, s', w.id, k, None);
    Carried(s, s', w.id, k, None);
    Redriven(s, s', w.id, k, None);
  }

  /** A retry op whose entry is gone or replaced does nothing. */
  lemma StaleDriven(s: Sys, k: nat)
    requires Driven(s) && k in s.flights && (s.flights[k].Fired? || s.flights[k].FetchError? || s.flights[k].FetchDone?)
    requires !Matches(At(s.st, s.flights[k].id), s.flights[k].attempt, s.flights[k].kind)
    ensures var x := s.flights[k].id; Driven(Settle(s, x, Unchanged(At(s.st, x), s.st.latch), k))
  {
    var x := s.flights[k].id;
    assert DrivenAt(s, x) && Of(s, k, x);
    SettleDriven(s, x, Unchanged(At(s.st, x), s.st.latch), k);
  }

  lemma FireDriven(cfg: Config, s: Sys, k: nat)
    requires Driven(s) && k in s.flights && s.flights[k].Fired?
    ensures Driven(FireStep(cfg, s, k, s.flights[k].id, s.flights[k].attempt, s.flights[k].kind))
  {
    var w := s.flights[k];
    var slot := At(s.st, w.id);
    if !Matches(slot, w.attempt, w.kind) {
      StaleDriven(s, k);
    } else if w.kind == Continuation {
      WakeDriven(s, k);
    } else if cfg.hasLister {
      FetchDriven(s, k);
    } else {
      TailDriven(s, k, w.id, slot, AtCapacity(cfg, s.st, QueuedState(slot), None));
    }
  }

  lemma PollFailedDriven(s: Sys, k: nat)
    requires Driven(s) && k in s.flights && s.flights[k].FetchError?
    ensures var w := s.flights[k];
            Driven(Settle(s, w.id, PollFailed(At(s.st, w.id), s.st.latch, s.clock, w.attempt, w.kind), k))
  {
    var w := s.flights[k];
    if Matches(At(s.st, w.id), w.attempt, w.kind) {
      assert DrivenAt(s, w.id) && Of(s, k, w.id);
      SettleDriven(s, w.id, PollFailed(At(s.st, w.id), s.st.latch, s.clock, w.attempt, w.kind), k);
    } else {
      StaleDriven(s, k);
    }
  }

  lemma AfterFetchDriven(cfg: Config, s: Sys, k: nat)
    requires Driven(s) && k in s.flights && s.flights[k].FetchDone?
    ensures var w := s.flights[k];
            Driven(AfterFetchStep(cfg, s, k, w.id, w.attempt, w.kind, w.found, w.terminal))
  {
    var w := s.flights[k];
    var x, slot := w.id, At(s.st, w.id);
    var full := AtCapacity(cfg, s.st, if w.found.Some? then w.found.value.state else "", None);
    assert DrivenAt(s, x) && Of(s, k, x);
    if !Matches(slot, w.attempt, w.kind) {
      StaleDriven(s, k);
    } else if w.found.Some? {
      TailDriven(s, k, x, WithFound(slot, w.found.value), full);
    } else {
      SettleDriven(s, x, AfterFetch(cfg, x, slot, s.st.latch, s.clock, w.attempt, w.kind, w.found, w.terminal, full), k);
    }
  }

  /** The tail of a fired failure or quota retry, its stored issue perhaps refreshed. */
  lemma TailDriven(s: Sys, k: nat, x: IssueId, slot: Slot, full: bool)
    requires Driven(s) && Of(s, k, x) && slot.retry.Some? && At(s.st, x).retry.Some?
    requires s.flights[k].Fired? || s.flights[k].FetchDone?
    requires slot.(retry := None, claimedIssue := None) == At(s.st, x).(retry := None, claimedIssue := None)
    requires SameEntry(At(s.st, x).retry.value, slot.retry.value) && slot.retry.value.timerSet == At(s.st, x).retry.value.timerSet
    ensures Driven(Settle(s, x, FireTail(x, slot, s.st.latch, s.clock, full), k))
  {
    assert DrivenAt(s, x);
    var out := FireTail(x, slot, s.st.latch, s.clock, full);
    var s' := Settle(s, x, out, k);
    SettleDriven(s, x, out, k);
  }

  /** A cleanup sets its mark, or goes on with it set; the claim maps are untouched. */
  lemma StageDriven(s: Sys, s': Sys, k: nat, stage: CleanupStage)
    requires Driven(s) && k in s.flights && s.flights[k].Cleaning? && !stage.Waiting?
    requires s' == AtStage(s, k, stage).(st := s'.st) && OnlyAbout(s, s', s.flights[k].id)
    requires At(s'.st, s.flights[k].id) == At(s.st, s.flights[k].id).(cleaning := At(s'.st, s.flights[k].id).cleaning)
    ensures Driven(s')
  {
    var x := s.flights[k].id;
    assert DrivenAt(s, x);
    assert OthersStay(s, s', x, k, None);
    Carried(s, s', x, k, None);
    assert Of(s', k, x) && Marks(s'.flights[k]);
    DrivenFocus(s, s', x);
  }

  /** A flight that drives nothing comes or goes, and the cleaning mark with it. */
  lemma AsideDriven(s: Sys, s': Sys, x: IssueId, k: nat)
    requires Driven(s) && OnlyAbout(s, s', x) && s'.clock == s.clock && OthersStay(s, s', x, k, None)
    requires (Of(s, k, x) ==> s.flights[k].Cleaning?) && (Of(s', k, x) ==> s'.flights[k].Cleaning?)
    requires At(s'.st, x).(cleaning := At(s.st, x).cleaning) == At(s.st, x)
    requires At(s'.st, x).cleaning ==> At(s.st, x).cleaning && (Of(s, k, x) ==> !Marks(s.flights[k]))
    ensures Driven(s')
  {
    assert DrivenAt(s, x);
    Carried(s, s', x, k, None);
    if At(s'.st, x).cleaning {
      var m :| Of(s, m, x) && Marks(s.flights[m]);
      assert Of(s', m, x) && Marks(s'.flights[m]);
    }
    DrivenFocus(s, s', x);
  }

  lemma RecheckDriven(s: Sys, k: nat, verdict: Verdict)
    requires Driven(s) && k in s.flights && s.flights[k].Cleaning?
    ensures Driven(RecheckStep(s, k, verdict))
  {
    var w := s.flights[k];
    if verdict.Unknown? && w.pass + 1 <= MAX_CLEANUP_RETRIES {
      var s1 := AtStage(s, k, Ending);
      StageDriven(s, s1, k, Ending);
      AsideDriven(s1, RecheckStep(s, k, verdict), w.id, s.next);
    } else {
      var s' := RecheckStep(s, k, verdict);
      StageDriven(s, s', k, s'.flights[k].stage);
    }
  }

  lemma CleanupDriven(cfg: Config, s: Sys, k: nat, verdict: Verdict)
    requires Driven(s) && k in s.flights && s.flights[k].Cleaning?
    ensures Driven(CleanupStep(cfg, s, k, verdict))
  {
    var w := s.flights[k];
    var s' := CleanupStep(cfg, s, k, verdict);
    assert Of(s, k, w.id);
    if w.stage.Verifying? {
      RecheckDriven(s, k, verdict);
    } else if w.stage.Ending? || (w.stage.Waiting? && !(cfg.hasCleaner && MayClean(At(s.st, w.id)))) {
      AsideDriven(s, s', w.id, k);
    } else if w.stage.Resuming? && w.cleanup.resume.Some? {
      var s1 := AtStage(s, k, Ending);
      StageDriven(s, s1, k, Ending);
      QueueDriven(s1, w.id, s.next, NewRetry(cfg, s.clock, s.next, w.cleanup.resume.value), s.next + 1);
    } else {
      StageDriven(s, s', k, s'.flights[k].stage);
    }
  }

  lemma LandDriven(cfg: Config, s: Sys, k: nat, input: Input)
    requires Driven(s) && Enabled(s, Lands(k, input))
    ensures Driven(Land(cfg, s, k, input))
  {
    var x := s.flights[k].id;
    assert DrivenAt(s, x) && Of(s, k, x) && WorkerOk(At(s.st, x), k, s.flights[k]);
    match s.flights[k]
    case Spawning(_, _) => RegisterDriven(s, k);
    case Working(_, detached) => StepDriven(s, k, Exited(x, detached, input.result));
    case Exited(_, _, _) => FinalizeDriven(cfg, s, k);
    case Rescheduling(_, r) => QueueDriven(s, x, k, NewRetry(cfg, s.clock, k, r), s.next);
    case Armed(_, attempt, kind, _) => StepDriven(s, k, Fired(x, attempt, kind));
    case Fired(_, _, _) => FireDriven(cfg, s, k);
    case Fetching(_, _, _) => StepDriven(s, k, Land(cfg, s, k, input).flights[k]);
    case FetchError(_, _, _) => PollFailedDriven(s, k);
    case FetchDone(_, _, _, _, _) => AfterFetchDriven(cfg, s, k);
    case Cleaning(_, _, _, _) => CleanupDriven(cfg, s, k, RecheckVerdict(cfg, input.lookup));
  }

  lemma RetouchDriven(s: Sys, s': Sys, x: IssueId)
    requires Driven(s) && s' == s.(st := s'.st, clock := s'.clock) && s.clock <= s'.clock
    requires forall y :: y != x ==> At(s'.st, y) == At(s.st, y)
    requires At(s'.st, x).run.Some? <==> At(s.st, x).run.Some?
    requires At(s'.st, x).run.Some? ==> At(s'.st, x).run.value.token == At(s.st, x).run.value.token
    requires At(s'.st, x).retry.Some? <==> At(s.st, x).retry.Some?
    requires At(s'.st, x).retry.Some? ==> SameEntry(At(s.st, x).retry.value, At(s'.st, x).retry.value)
    requires At(s'.st, x).blocked.Some? <==> At(s.st, x).blocked.Some?
    requires At(s'.st, x).claimed == At(s.st, x).claimed && At(s'.st, x).cleaning == At(s.st, x).cleaning
    ensures Driven(s')
  {
    assert DrivenAt(s, x);
    forall k ensures Of(s', k, x) <==> Of(s, k, x) {
    }
    DrivenFocus(s, s', x);
  }

  lemma StepKeepsDrivers(cfg: Config, s: Sys, ev: Event)
    requires Driven(s) && Enabled(s, ev)
    ensures Driven(Apply(cfg, s, ev))
  {
    match ev
    case Tick(to) => RetouchDriven(s, s.(clock := to), IssueId(""));
    case Dispatches(issue, attempt, rechecked) => DispatchDriven(cfg, s, issue, attempt, rechecked);
    case Lands(k, input) => LandDriven(cfg, s, k, input);
    case InactiveRunAt(id, row) => InactiveRunDriven(cfg, s, id, row);
    case InactiveRetryAt(id, row) => InactiveRetryDriven(cfg, s, id, row);
    case InactiveBlockedAt(id, row) => InactiveBlockedDriven(cfg, s, id, row);
    case AbsentRunAt(id) => AbsentDriven(s, id);
    case AbsentQueuedAt(id) => AbsentDriven(s, id);
    case Observed(id, fact) => TouchDriven(s, id, Observe(At(s.st, id), fact));
    case Refreshed(id, row) => TouchDriven(s, id, RefreshActive(At(s.st, id), row));
  }

  lemma TouchDriven(s: Sys, id: IssueId, slot: Slot)
    requires Driven(s) && Alike(At(s.st, id), slot)
    requires slot.retry.Some? ==> SameEntry(At(s.st, id).retry.value, slot.retry.value)
    ensures Driven(s.(st := WithSlot(s.st, id, slot)))
  {
    RetouchDriven(s, s.(st := WithSlot(s.st, id, slot)), id);
  }

  lemma {:induction false} RunKeepsDrivers(cfg: Config, run: seq<Sys>, events: seq<Event>, i: nat)
    requires IsRun(cfg, run, events) && i < |run|
    ensures Driven(run[i])
  {
    if i > 0 {
      RunKeepsDrivers(cfg, run, events, i - 1);
      StepKeepsDrivers(cfg, run[i - 1], events[i - 1]);
    }
  }

  /** No claim is ever orphaned and no cleaning mark ever leaks, on any run: a claimed issue has a
      registered run with its worker in flight, a spawn or a reschedule in flight, a blocked entry
      (released by reconciliation), or a retry entry that its own chain or the next poll moves on. */
  lemma NoOrphans(cfg: Config, run: seq<Sys>, events: seq<Event>, i: nat, id: IssueId)
    requires IsRun(cfg, run, events) && i < |run|
    ensures var s, slot := run[i], At(run[i].st, id);
            && (slot.claimed ==>
                  || (slot.run.Some? && Of(s, slot.run.value.token, id) &&
                      (s.flights[slot.run.value.token].Working? || s.flights[slot.run.value.token].Exited?))
                  || SpawnPending(s, id) || Rescheduled(s, id) || slot.blocked.Some?
                  || (slot.retry.Some? && RetryDriven(s, id, slot.retry.value)))
            && (slot.cleaning ==> exists k :: Of(s, k, id) && Marks(s.flights[k]))
  {
    RunKeepsDrivers(cfg, run, events, i);
    assert DrivenAt(run[i], id);
  }

  /** When the next poll moves a due continuation on: exactly when no cleanup is at work on the issue
      and no operator stop is latched for it. Then it is dispatched, parked over budget, or told to
      wait for a free slot. */
  lemma PollConsumesContinuation(cfg: Config, s: Sys, issue: Issue, attempt: Option<int>)
    requires var retry := At(s.st, issue.id).retry;
             retry.Some? && retry.value.kind == Continuation && retry.value.dueAt <= s.clock
    ensures var d := DispatchAt(cfg, s, issue, attempt, true);
            d.out.followup.DoSpawn? || d.out.slot.retry.None? || d.verdict == CapacityFull <==>
            !At(s.st, issue.id).cleaning && issue.id !in s.st.latch.stops
  {
  }
}
