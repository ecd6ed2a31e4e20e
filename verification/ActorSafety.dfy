/** The inductive invariant of the orchestrator: every event keeps it, except exactly those that
    overtake a deferred reschedule. */
module ActorSafety {
  import opened Prelude
  import opened Backoff
  import opened ClaimState
  import opened ActorSystem

  /** A cleanup between its begin op and its decision to end. */
  predicate Active(stage: CleanupStage) {
    !stage.Waiting? && !stage.Ending?
  }

  /** Work that has its issue to itself: it will write the claim maps, or remove the workspace,
      without looking again at who else holds the issue. */
  predicate Owns(w: Work) {
    w.Spawning? || w.Working? || w.Exited? || w.Rescheduling? || (w.Cleaning? && Active(w.stage))
  }

  /** A cleanup that has set the cleaning mark and not yet cleared it. */
  predicate Marks(w: Work) {
    w.Cleaning? && !w.stage.Waiting?
  }

  /** The replacement of a failure or quota retry. Several may be on their way at once, for each new
      one only replaces what the last one queued. */
  predicate Postpones(w: Work) {
    w.Rescheduling? && w.reschedule.request.kind != Continuation
  }

  /** The slot of a registered run whose worker is flight k. */
  predicate RunsAs(slot: Slot, k: nat) {
    slot.run.Some? && slot.run.value.token == k && slot.blocked.None? && slot.retry.None? && !slot.cleaning
  }

  /** What flight k, doing w, says about the slot of its issue. */
  predicate FlightOk(slot: Slot, k: nat, w: Work) {
    match w
    case Spawning(_, _) =>
      slot.claimed && slot.run.None? && slot.blocked.None? && slot.retry.None? && !slot.cleaning
    case Working(_, detached) => detached.None? && RunsAs(slot, k)
    case Exited(_, detached, _) => detached.None? && RunsAs(slot, k)
    case Rescheduling(_, r) =>
      && slot.claimed && slot.run.None? && slot.blocked.None? && !slot.cleaning
      && (slot.retry.Some? ==> slot.retry.value.kind != Continuation && r.request.kind != Continuation)
    case Armed(_, _, _, _) => true
    case Fired(_, _, _) => true
    case Fetching(_, _, kind) => kind != Continuation
    case FetchError(_, _, kind) => kind != Continuation
    case FetchDone(_, _, kind, _, _) => kind != Continuation
    case Cleaning(_, c, pass, stage) =>
      && (c.resume.Some? ==> c.resume.value.request.kind == Continuation)
      && pass <= MAX_CLEANUP_RETRIES
      && (!stage.Waiting? ==> slot.cleaning)
      && (Active(stage) ==> !IsClaimed(slot))
  }

  predicate Of(s: Sys, k: nat, id: IssueId) {
    k in s.flights && s.flights[k].id == id
  }

  ghost predicate SpawnPending(s: Sys, id: IssueId) {
    exists k :: Of(s, k, id) && s.flights[k].Spawning?
  }

  ghost predicate FlightsAt(s: Sys, id: IssueId) {
    && (forall k :: Of(s, k, id) ==> FlightOk(At(s.st, id), k, s.flights[k]))
    && (forall j, k :: Of(s, j, id) && Of(s, k, id) && Owns(s.flights[j]) && Owns(s.flights[k]) ==>
          j == k || (Postpones(s.flights[j]) && Postpones(s.flights[k])))
    && (forall j, k :: Of(s, j, id) && Of(s, k, id) && Marks(s.flights[j]) && Marks(s.flights[k]) ==> j == k)
  }

  /** The timer of a queued entry, if it is still in flight, belongs to the same issue. */
  predicate OwnTimer(s: Sys, x: IssueId) {
    var slot := At(s.st, x);
    slot.retry.Some? ==>
      slot.retry.value.serial < s.next &&
      (slot.retry.value.serial in s.flights ==> s.flights[slot.retry.value.serial].id == x)
  }

  /** Running, Blocked and RetryAttempts exclude one another; each keeps or needs its claim. */
  predicate SlotAt(s: Sys, id: IssueId) {
    var slot := At(s.st, id);
    && (slot.run.Some? ==>
          Of(s, slot.run.value.token, id) &&
          (s.flights[slot.run.value.token].Working? || s.flights[slot.run.value.token].Exited?))
    && (slot.retry.Some? ==>
          slot.claimed && slot.run.None? && slot.blocked.None? &&
          (slot.cleaning ==> slot.retry.value.kind == Continuation))
    && OwnTimer(s, id)
    && (slot.blocked.Some? ==> slot.claimed && slot.run.None? && !slot.cleaning)
  }

  ghost predicate IdInv(s: Sys, id: IssueId) {
    FlightsAt(s, id) && SlotAt(s, id)
  }

  predicate Numbered(s: Sys) {
    forall k :: k in s.flights ==> k < s.next
  }

  ghost predicate Inv(cfg: Config, s: Sys) {
    Numbered(s) && (forall id :: IdInv(s, id)) && RunningCount(s.st) <= cfg.maxAgents
  }

  // ---------------------------------------------------------------------------------------------
  // Framing: an event about one issue leaves the others alone

  ghost predicate OnlyAbout(s: Sys, s': Sys, x: IssueId) {
    && s.next <= s'.next
    && (forall y :: y != x ==> At(s'.st, y) == At(s.st, y))
    && (forall k :: k in s'.flights ==> k < s'.next)
    && (forall k :: k in s'.flights && s'.flights[k].id != x ==> k in s.flights && s.flights[k] == s'.flights[k])
    && (forall k :: k in s.flights && s.flights[k].id != x ==> k in s'.flights && s'.flights[k] == s.flights[k])
    && (forall k :: k in s.flights && k in s'.flights ==> s'.flights[k].id == s.flights[k].id)
    && (forall k :: k in s'.flights && k !in s.flights ==> s.next <= k)
  }

  lemma Framed(s: Sys, s': Sys, x: IssueId, y: IssueId)
    requires Numbered(s) && OnlyAbout(s, s', x) && y != x && IdInv(s, y)
    ensures IdInv(s', y)
  {
  }

  /** If x takes an agent slot it did not have, there was room for it. */
  predicate Fits(cfg: Config, s: Sys, slot: Slot, x: IssueId) {
    Counts(slot) ==> Counts(At(s.st, x)) || RunningCount(s.st) < cfg.maxAgents
  }

  lemma CountKept(cfg: Config, s: Sys, s': Sys, x: IssueId)
    requires RunningCount(s.st) <= cfg.maxAgents && OnlyAbout(s, s', x) && Fits(cfg, s, At(s'.st, x), x)
    ensures RunningCount(s'.st) <= cfg.maxAgents
  {
    forall y | y in Counted(s'.st) && y != x ensures y in Counted(s.st) {
      assert At(s'.st, y) == At(s.st, y);
    }
    if x in Counted(s'.st) && x !in Counted(s.st) {
      SubsetCount(Counted(s'.st), Counted(s.st) + {x});
    } else {
      SubsetCount(Counted(s'.st), Counted(s.st));
    }
  }

  /** A state that differs from a good one only about x is good if it is good about x. */
  lemma Focus(cfg: Config, s: Sys, s': Sys, x: IssueId)
    requires Inv(cfg, s) && OnlyAbout(s, s', x) && IdInv(s', x) && Fits(cfg, s, At(s'.st, x), x)
    ensures Inv(cfg, s')
  {
    forall y ensures IdInv(s', y) {
      if y != x {
        Framed(s, s', x, y);
      }
    }
    CountKept(cfg, s, s', x);
  }

  // ---------------------------------------------------------------------------------------------
  // Settling an operation

  predicate ResumesContinuation(f: Followup) {
    f.DoCleanup? && f.cleanup.resume.Some? ==> f.cleanup.resume.value.request.kind == Continuation
  }

  /** An operation about x keeps its cleaning mark, and stops only the timer of its own entry. */
  predicate Fair(slot: Slot, out: Outcome) {
    && out.slot.cleaning == slot.cleaning
    && ResumesContinuation(out.followup)
    && (out.stopped.Some? ==> slot.retry.Some? && out.stopped.value == slot.retry.value.serial)
  }

  lemma SettleOnly(s: Sys, x: IssueId, out: Outcome, k: nat)
    requires Numbered(s) && OwnTimer(s, x) && Fair(At(s.st, x), out) && Of(s, k, x)
    ensures OnlyAbout(s, Settle(s, x, out, k), x)
  {
  }

  lemma SettleNewOnly(s: Sys, x: IssueId, out: Outcome)
    requires Numbered(s) && OwnTimer(s, x) && Fair(At(s.st, x), out)
    ensures OnlyAbout(s, SettleNew(s, x, out), x)
  {
  }

  ghost predicate NothingElseOwns(s: Sys, x: IssueId, k: nat) {
    forall j :: Of(s, j, x) && j != k ==> !Owns(s.flights[j])
  }

  /** Every other owner of x is a postponement that may stay beside what flight k does now. */
  ghost predicate Compatible(s: Sys, s': Sys, x: IssueId, k: nat) {
    forall j :: Of(s, j, x) && j != k && Owns(s.flights[j]) ==>
      Postpones(s.flights[j]) && FlightOk(At(s'.st, x), j, s.flights[j]) &&
      (Of(s', k, x) && Owns(s'.flights[k]) ==> Postpones(s'.flights[k]))
  }

  /** x after an event that moved flight k: only flight k and the slot need looking at. */
  lemma Rebuild(s: Sys, s': Sys, x: IssueId, k: nat)
    requires FlightsAt(s, x) && SlotAt(s', x) && Compatible(s, s', x, k)
    requires At(s'.st, x).cleaning == At(s.st, x).cleaning
    requires forall j :: Of(s', j, x) && j != k ==> Of(s, j, x) && s.flights[j] == s'.flights[j]
    requires Of(s', k, x) ==> FlightOk(At(s'.st, x), k, s'.flights[k])
    requires Of(s', k, x) && Marks(s'.flights[k]) ==> Of(s, k, x) && Marks(s.flights[k])
    ensures IdInv(s', x)
  {
  }

  /** An operation submitted by flight k, the only one that can hold x. */
  lemma SettleKeeps(cfg: Config, s: Sys, x: IssueId, out: Outcome, k: nat)
    requires Inv(cfg, s) && Of(s, k, x) && !Marks(s.flights[k]) && NothingElseOwns(s, x, k)
    requires Fair(At(s.st, x), out) && Fits(cfg, s, out.slot, x)
    requires SlotAt(Settle(s, x, out, k), x)
    requires Started(x, out.followup).Some? ==> FlightOk(out.slot, k, Started(x, out.followup).value)
    ensures Inv(cfg, Settle(s, x, out, k))
  {
    assert IdInv(s, x);
    SettleOnly(s, x, out, k);
    Rebuild(s, Settle(s, x, out, k), x, k);
    Focus(cfg, s, Settle(s, x, out, k), x);
  }

  /** An operation submitted from outside while nothing in flight holds x. */
  lemma SettleNewKeeps(cfg: Config, s: Sys, x: IssueId, out: Outcome)
    requires Inv(cfg, s) && NothingElseOwns(s, x, s.next)
    requires Fair(At(s.st, x), out) && Fits(cfg, s, out.slot, x)
    requires SlotAt(SettleNew(s, x, out), x)
    requires Started(x, out.followup).Some? ==> FlightOk(out.slot, s.next, Started(x, out.followup).value)
    ensures Inv(cfg, SettleNew(s, x, out))
  {
    assert IdInv(s, x);
    SettleNewOnly(s, x, out);
    Rebuild(s, SettleNew(s, x, out), x, s.next);
    Focus(cfg, s, SettleNew(s, x, out), x);
  }

  /** Nothing in flight owns an issue that is blocked, queued as a continuation, or neither claimed
      nor being cleaned. */
  lemma Unowned(s: Sys, x: IssueId)
    requires IdInv(s, x)
    requires (!IsClaimed(At(s.st, x)) && !At(s.st, x).cleaning) || At(s.st, x).blocked.Some? ||
             (At(s.st, x).retry.Some? && At(s.st, x).retry.value.kind == Continuation)
    ensures forall k :: NothingElseOwns(s, x, k)
  {
  }

  // ---------------------------------------------------------------------------------------------
  // Every kind of event

  lemma DispatchKeeps(cfg: Config, s: Sys, issue: Issue, attempt: Option<int>, rechecked: bool)
    requires Inv(cfg, s)
    ensures Inv(cfg, SettleNew(s, issue.id, DispatchAt(cfg, s, issue, attempt, rechecked).out))
  {
    var x, d := issue.id, DispatchAt(cfg, s, issue, attempt, rechecked);
    assert IdInv(s, x);
    if d.out.slot == At(s.st, x) && d.out.followup.Nothing? && d.out.stopped.None? {
      IdleNew(cfg, s, x, d.out);
    } else {
      Unowned(s, x);
      SettleNewKeeps(cfg, s, x, d.out);
    }
  }

  /** An outside operation that changes no slot, or a run entry's particulars at most. */
  lemma IdleNew(cfg: Config, s: Sys, x: IssueId, out: Outcome)
    requires Inv(cfg, s) && out.followup.Nothing? && out.stopped.None? && Alike(At(s.st, x), out.slot)
    ensures Inv(cfg, SettleNew(s, x, out))
  {
    var s' := SettleNew(s, x, out);
    assert s'.flights == s.flights;
    Retouched(cfg, s, s', x);
  }

  /** The same shape: only the contents of the entries differ. */
  predicate Alike(a: Slot, b: Slot) {
    && a.claimed == b.claimed && a.cleaning == b.cleaning
    && (a.run.Some? <==> b.run.Some?) && (a.run.Some? ==> a.run.value.token == b.run.value.token)
    && (a.blocked.Some? <==> b.blocked.Some?)
    && (a.retry.Some? <==> b.retry.Some?)
    && (a.retry.Some? ==> a.retry.value.kind == b.retry.value.kind && a.retry.value.serial == b.retry.value.serial)
  }

  lemma Retouched(cfg: Config, s: Sys, s': Sys, x: IssueId)
    requires Inv(cfg, s) && s'.flights == s.flights && s.next <= s'.next
    requires s'.st.slots == s.st.slots[x := At(s'.st, x)] && Alike(At(s.st, x), At(s'.st, x))
    ensures Inv(cfg, s')
  {
    assert IdInv(s, x);
    forall k | Of(s', k, x) ensures FlightOk(At(s'.st, x), k, s'.flights[k]) {
      assert FlightOk(At(s.st, x), k, s.flights[k]);
    }
    assert forall k :: Of(s', k, x) <==> Of(s, k, x);
    Focus(cfg, s, s', x);
  }

  /** Flight k of x goes on to do w, and x gets a new slot. */
  function Moved(s: Sys, x: IssueId, slot: Slot, k: nat, w: Work): Sys {
    s.(st := WithSlot(s.st, x, slot), flights := s.flights[k := w])
  }

  lemma MoveKeeps(cfg: Config, s: Sys, x: IssueId, slot: Slot, k: nat, w: Work)
    requires Inv(cfg, s) && Of(s, k, x) && w.id == x && NothingElseOwns(s, x, k)
    requires slot.cleaning == At(s.st, x).cleaning && (Marks(w) ==> Marks(s.flights[k]))
    requires Fits(cfg, s, slot, x) && FlightOk(slot, k, w) && SlotAt(Moved(s, x, slot, k, w), x)
    ensures Inv(cfg, Moved(s, x, slot, k, w))
  {
    var s' := Moved(s, x, slot, k, w);
    assert IdInv(s, x);
    Rebuild(s, s', x, k);
    Focus(cfg, s, s', x);
  }

  lemma RegisterKeeps(cfg: Config, s: Sys, k: nat)
    requires Inv(cfg, s) && k in s.flights && s.flights[k].Spawning?
    ensures Inv(cfg, RegisterStep(s, k, s.flights[k].id, s.flights[k].spawn))
  {
    var x, r := s.flights[k].id, s.flights[k].spawn;
    assert IdInv(s, x) && Of(s, k, x) && FlightOk(At(s.st, x), k, s.flights[k]);
    MoveKeeps(cfg, s, x, Registered(At(s.st, x), k, r), k, Working(x, None));
  }

  lemma ExitKeeps(cfg: Config, s: Sys, k: nat, result: WorkerResult)
    requires Inv(cfg, s) && k in s.flights && s.flights[k].Working?
    ensures Inv(cfg, s.(flights := s.flights[k := Exited(s.flights[k].id, s.flights[k].detached, result)]))
  {
    var x := s.flights[k].id;
    assert IdInv(s, x) && Of(s, k, x) && FlightOk(At(s.st, x), k, s.flights[k]);
    Stepped(cfg, s, x, k, Exited(x, None, result));
  }

  /** Flight k takes a step that touches no slot. */
  lemma Stepped(cfg: Config, s: Sys, x: IssueId, k: nat, w: Work)
    requires Inv(cfg, s) && Of(s, k, x) && w.id == x && FlightOk(At(s.st, x), k, w)
    requires Owns(w) ==> NothingElseOwns(s, x, k)
    requires Marks(w) ==> Marks(s.flights[k])
    requires At(s.st, x).run.Some? && At(s.st, x).run.value.token == k ==> w.Working? || w.Exited?
    ensures Inv(cfg, s.(flights := s.flights[k := w]))
  {
    var s' := s.(flights := s.flights[k := w]);
    assert IdInv(s, x);
    forall j | Of(s', j, x) ensures FlightOk(At(s'.st, x), j, s'.flights[j]) {
      assert j != k ==> Of(s, j, x);
    }
    forall i, j | Of(s', i, x) && Of(s', j, x) && Owns(s'.flights[i]) && Owns(s'.flights[j])
      ensures i == j || (Postpones(s'.flights[i]) && Postpones(s'.flights[j]))
    {
      assert i != k ==> Of(s, i, x);
      assert j != k ==> Of(s, j, x);
    }
    forall i, j | Of(s', i, x) && Of(s', j, x) && Marks(s'.flights[i]) && Marks(s'.flights[j]) ensures i == j {
      assert Of(s, i, x) && Of(s, j, x);
    }
    Focus(cfg, s, s', x);
  }

  lemma FinalizeKeeps(cfg: Config, s: Sys, k: nat)
    requires Inv(cfg, s) && k in s.flights && s.flights[k].Exited?
    ensures Inv(cfg, FinalizeStep(cfg, s, k, s.flights[k].id, s.flights[k].detached, s.flights[k].result))
  {
    var x, result := s.flights[k].id, s.flights[k].result;
    var slot := At(s.st, x);
    assert IdInv(s, x) && Of(s, k, x) && FlightOk(slot, k, s.flights[k]);
    var out := Finalize(cfg, x, slot, s.st.latch, slot.run.value, result);
    FinalizeShape(cfg, x, slot, s.st.latch, slot.run.value, result);
    SettleKeeps(cfg, s, x, out, k);
  }

  /** A finalize of the registered run ends in one of three ways: parked as blocked, released
      (perhaps with a cleanup), or claimed for a reschedule. */
  lemma FinalizeShape(cfg: Config, id: IssueId, slot: Slot, latch: Latch, run: RunEntry, result: WorkerResult)
    requires slot.run == Some(run)
    ensures var out := Finalize(cfg, id, slot, latch, run, result);
            && out.stopped.None? && ResumesContinuation(out.followup)
            && (|| (out.slot == Blocked(slot.(run := None), run.issue, run.workspace) && out.followup.Nothing?)
                || (out.slot == Finished(slot) && (out.followup.Nothing? || out.followup.DoCleanup?))
                || (out.slot == Claiming(Finished(slot), run.issue) && out.followup.DoReschedule?))
  {
  }

  lemma QueueOnly(s: Sys, k: nat, x: IssueId, entry: RetryEntry, next: nat)
    requires Numbered(s) && OwnTimer(s, x) && (Of(s, k, x) || k == s.next) && next == Max(s.next, k + 1)
    ensures OnlyAbout(s, QueueStep(s, k, x, entry).(next := next), x)
  {
  }

  lemma ScheduleKeeps(cfg: Config, s: Sys, k: nat, entry: RetryEntry)
    requires Inv(cfg, s) && k in s.flights && s.flights[k].Rescheduling?
    requires entry.serial == k && entry.kind == s.flights[k].reschedule.request.kind
    ensures Inv(cfg, QueueStep(s, k, s.flights[k].id, entry))
  {
    var x := s.flights[k].id;
    assert IdInv(s, x) && Of(s, k, x) && FlightOk(At(s.st, x), k, s.flights[k]);
    QueueKeeps(cfg, s, x, k, entry, s.next);
  }

  lemma QueueKeeps(cfg: Config, s: Sys, x: IssueId, k: nat, entry: RetryEntry, next: nat)
    requires Inv(cfg, s) && (Of(s, k, x) || k == s.next) && next == Max(s.next, k + 1)
    requires forall j :: Of(s, j, x) && j != k && Owns(s.flights[j]) ==> Postpones(s.flights[j]) && entry.kind != Continuation
    requires (k in s.flights ==> !Marks(s.flights[k])) && entry.serial == k
    requires At(s.st, x).run.None? && At(s.st, x).blocked.None? && (At(s.st, x).cleaning ==> entry.kind == Continuation)
    ensures Inv(cfg, QueueStep(s, k, x, entry).(next := next))
  {
    assert IdInv(s, x);
    var s' := QueueStep(s, k, x, entry).(next := next);
    QueueOnly(s, k, x, entry, next);
    Rebuild(s, s', x, k);
    Focus(cfg, s, s', x);
  }

  /** A flight that owns nothing ends, or goes on to own nothing. */
  lemma NudgeKeeps(cfg: Config, s: Sys, s': Sys, x: IssueId, k: nat)
    requires Inv(cfg, s) && Of(s, k, x) && !Owns(s.flights[k]) && !Marks(s.flights[k])
    requires s'.next == s.next && s'.st.slots == s.st.slots[x := At(s'.st, x)] && Alike(At(s.st, x), At(s'.st, x))
    requires forall j :: j != k ==> (j in s'.flights <==> j in s.flights)
    requires forall j :: j != k && j in s'.flights ==> s'.flights[j] == s.flights[j]
    requires k in s'.flights ==>
               s'.flights[k].id == x && !Owns(s'.flights[k]) && !Marks(s'.flights[k]) &&
               FlightOk(At(s'.st, x), k, s'.flights[k])
    ensures Inv(cfg, s')
  {
    assert IdInv(s, x);
    forall j | Of(s', j, x) ensures FlightOk(At(s'.st, x), j, s'.flights[j]) {
      assert j != k ==> Of(s, j, x);
    }
    assert forall j :: j != k ==> (Of(s', j, x) <==> Of(s, j, x));
    Focus(cfg, s, s', x);
  }

  /** A queued failure or quota retry is held by its deferred reschedule, if any, and by no one else. */
  lemma QueuedOwner(s: Sys, x: IssueId)
    requires IdInv(s, x) && At(s.st, x).retry.Some? && !Deferred(s, x)
    ensures forall k :: NothingElseOwns(s, x, k)
  {
  }

  /** A queued failure or quota retry is released, perhaps with a cleanup, or dispatched. */
  predicate RetrySettled(slot: Slot, out: Outcome) {
    && Fair(slot, out)
    && (|| (out.slot == Released(slot) && (out.followup.Nothing? || out.followup.DoCleanup?))
        || (Alike(slot.(retry := None), out.slot) && out.followup.DoSpawn?))
  }

  /** It stays queued until the reschedule that will replace it arrives. */
  predicate RetryPostponed(slot: Slot, out: Outcome) {
    && Fair(slot, out) && Alike(slot, out.slot)
    && out.followup.DoReschedule? && out.followup.reschedule.request.kind != Continuation && out.stopped.None?
  }

  lemma SettleRetryKeeps(cfg: Config, s: Sys, x: IssueId, out: Outcome, k: nat)
    requires Inv(cfg, s) && Of(s, k, x) && !Owns(s.flights[k]) && !Marks(s.flights[k])
    requires At(s.st, x).retry.Some? && At(s.st, x).retry.value.kind != Continuation && !Deferred(s, x)
    requires RetrySettled(At(s.st, x), out) && Fits(cfg, s, out.slot, x)
    ensures Inv(cfg, Settle(s, x, out, k))
  {
    assert IdInv(s, x);
    QueuedOwner(s, x);
    SettleKeeps(cfg, s, x, out, k);
  }

  /** Postponing is harmless, even beside earlier postponements that have not arrived yet. */
  lemma PostponeKeeps(cfg: Config, s: Sys, x: IssueId, out: Outcome, k: nat)
    requires Inv(cfg, s) && Of(s, k, x) && !Owns(s.flights[k]) && !Marks(s.flights[k])
    requires At(s.st, x).retry.Some? && At(s.st, x).retry.value.kind != Continuation
    requires RetryPostponed(At(s.st, x), out)
    ensures Inv(cfg, Settle(s, x, out, k))
  {
    assert IdInv(s, x);
    var s' := Settle(s, x, out, k);
    SettleOnly(s, x, out, k);
    forall j | Of(s, j, x) && j != k && Owns(s.flights[j])
      ensures Postpones(s.flights[j]) && FlightOk(At(s'.st, x), j, s.flights[j])
    {
      assert FlightOk(At(s.st, x), j, s.flights[j]);
    }
    Rebuild(s, s', x, k);
    Focus(cfg, s, s', x);
  }

  /** Settling a retry while its reschedule is in flight breaks the invariant: the reschedule is
      left without a claim, or a second owner appears. */
  lemma SettleRetryBreaks(s: Sys, x: IssueId, out: Outcome, k: nat)
    requires k in s.flights ==> s.flights[k].id == x && !s.flights[k].Rescheduling?
    requires FlightsAt(s, x) && Deferred(s, x) && RetrySettled(At(s.st, x), out)
    ensures !FlightsAt(Settle(s, x, out, k), x)
  {
    var s' := Settle(s, x, out, k);
    var j :| Of(s, j, x) && s.flights[j].Rescheduling?;
    assert Of(s', j, x) && s'.flights[j] == s.flights[j];
    if FlightsAt(s', x) {
      assert FlightOk(At(s'.st, x), j, s'.flights[j]);
      assert Of(s', k, x) && Owns(s'.flights[k]);
      assert false;
    }
  }

  lemma TailSettles(id: IssueId, slot: Slot, latch: Latch, now: int, full: bool)
    requires slot.retry.Some?
    ensures var out := FireTail(id, slot, latch, now, full);
            if id !in latch.stops && full then RetryPostponed(slot, out)
            else RetrySettled(slot, out) && (out.followup.DoSpawn? ==> !full)
  {
  }

  lemma AfterFetchSettles(cfg: Config, id: IssueId, slot: Slot, latch: Latch, now: int, attempt: int, kind: RetryKind,
                          found: Option<Issue>, terminal: Option<string>, full: bool)
    requires Matches(slot, attempt, kind)
    ensures var out := AfterFetch(cfg, id, slot, latch, now, attempt, kind, found, terminal, full);
            if found.Some? && id !in latch.stops && full then RetryPostponed(slot, out)
            else RetrySettled(slot, out) && (out.followup.DoSpawn? ==> !full)
  {
  }

  /** A retry op submitted by flight k about the queued failure or quota retry of x: it settles the
      retry or postpones it, and the invariant is kept unless it settles a deferred one. */
  lemma RetryOpKeeps(cfg: Config, s: Sys, x: IssueId, out: Outcome, k: nat, settles: bool)
    requires Inv(cfg, s) && Of(s, k, x) && !Owns(s.flights[k]) && !Marks(s.flights[k])
    requires At(s.st, x).retry.Some? && At(s.st, x).retry.value.kind != Continuation
    requires if settles then RetrySettled(At(s.st, x), out) && Fits(cfg, s, out.slot, x) else RetryPostponed(At(s.st, x), out)
    ensures Inv(cfg, Settle(s, x, out, k)) <==> !(settles && Deferred(s, x))
  {
    if !settles {
      PostponeKeeps(cfg, s, x, out, k);
    } else if Deferred(s, x) {
      assert IdInv(s, x);
      SettleRetryBreaks(s, x, out, k);
      assert !IdInv(Settle(s, x, out, k), x);
    } else {
      SettleRetryKeeps(cfg, s, x, out, k);
    }
  }

  lemma FireKeeps(cfg: Config, s: Sys, k: nat)
    requires Inv(cfg, s) && k in s.flights && s.flights[k].Fired?
    ensures var w := s.flights[k];
            Inv(cfg, FireStep(cfg, s, k, w.id, w.attempt, w.kind)) <==> !(SettlesRetry(cfg, s, w) && Deferred(s, w.id))
  {
    var w := s.flights[k];
    var x, slot := w.id, At(s.st, w.id);
    var full := AtCapacity(cfg, s.st, QueuedState(slot), None);
    assert IdInv(s, x) && Of(s, k, x);
    if !cfg.hasLister && w.kind != Continuation && Matches(slot, w.attempt, w.kind) {
      TailSettles(x, slot, s.st.latch, s.clock, full);
      RetryOpKeeps(cfg, s, x, FireTail(x, slot, s.st.latch, s.clock, full), k, SettlesRetry(cfg, s, w));
    } else {
      NudgeKeeps(cfg, s, FireStep(cfg, s, k, x, w.attempt, w.kind), x, k);
    }
  }

  /** A failed poll only ever postpones. */
  lemma PollFailedKeeps(cfg: Config, s: Sys, k: nat)
    requires Inv(cfg, s) && k in s.flights && s.flights[k].FetchError?
    ensures var w := s.flights[k];
            Inv(cfg, Settle(s, w.id, PollFailed(At(s.st, w.id), s.st.latch, s.clock, w.attempt, w.kind), k))
  {
    var w := s.flights[k];
    var x, slot := w.id, At(s.st, w.id);
    var out := PollFailed(slot, s.st.latch, s.clock, w.attempt, w.kind);
    assert IdInv(s, x) && Of(s, k, x) && FlightOk(slot, k, w);
    if Matches(slot, w.attempt, w.kind) {
      PostponeKeeps(cfg, s, x, out, k);
    } else {
      NudgeKeeps(cfg, s, Settle(s, x, out, k), x, k);
    }
  }

  lemma AfterFetchKeeps(cfg: Config, s: Sys, k: nat)
    requires Inv(cfg, s) && k in s.flights && s.flights[k].FetchDone?
    ensures var w := s.flights[k];
            Inv(cfg, AfterFetchStep(cfg, s, k, w.id, w.attempt, w.kind, w.found, w.terminal)) <==>
            !(SettlesRetry(cfg, s, w) && Deferred(s, w.id))
  {
    var w := s.flights[k];
    var x, slot := w.id, At(s.st, w.id);
    var full := AtCapacity(cfg, s.st, if w.found.Some? then w.found.value.state else "", None);
    var out := AfterFetch(cfg, x, slot, s.st.latch, s.clock, w.attempt, w.kind, w.found, w.terminal, full);
    assert IdInv(s, x) && Of(s, k, x) && FlightOk(slot, k, w);
    if Matches(slot, w.attempt, w.kind) {
      AfterFetchSettles(cfg, x, slot, s.st.latch, s.clock, w.attempt, w.kind, w.found, w.terminal, full);
      RetryOpKeeps(cfg, s, x, out, k, SettlesRetry(cfg, s, w));
    } else {
      NudgeKeeps(cfg, s, Settle(s, x, out, k), x, k);
    }
  }

  lemma InactiveRetryKeeps(cfg: Config, s: Sys, x: IssueId, row: Issue)
    requires Inv(cfg, s) && At(s.st, x).retry.Some?
    ensures Inv(cfg, SettleNew(s, x, InactiveRetry(cfg, x, At(s.st, x), s.st.latch, row))) <==> !Deferred(s, x)
  {
    var slot := At(s.st, x);
    var out := InactiveRetry(cfg, x, slot, s.st.latch, row);
    assert IdInv(s, x);
    if Deferred(s, x) {
      assert s.next !in s.flights;
      SettleRetryBreaks(s, x, out, s.next);
      var s' := SettleNew(s, x, out);
      assert FlightsAt(s', x) <==> FlightsAt(Settle(s, x, out, s.next), x) by {
        assert forall k :: Of(s', k, x) <==> Of(Settle(s, x, out, s.next), k, x);
      }
      assert !IdInv(s', x);
    } else {
      QueuedOwner(s, x);
      SettleNewKeeps(cfg, s, x, out);
    }
  }

  /** Releasing the claim of a running issue keeps its run. */
  lemma ReleaseRunKeeps(cfg: Config, s: Sys, x: IssueId, out: Outcome)
    requires Inv(cfg, s) && At(s.st, x).run.Some? && out.followup.Nothing?
    requires out.slot.run.Some? && out.slot == Released(At(s.st, x)).(run := out.slot.run)
    requires out.slot.run.value.token == At(s.st, x).run.value.token && out.stopped == TimerOf(At(s.st, x))
    ensures Inv(cfg, SettleNew(s, x, out))
  {
    assert IdInv(s, x);
    var s' := SettleNew(s, x, out);
    var t := At(s.st, x).run.value.token;
    assert FlightOk(At(s.st, x), t, s.flights[t]);
    assert s'.flights == s.flights;
    forall k | Of(s', k, x) ensures FlightOk(At(s'.st, x), k, s'.flights[k]) {
      assert Of(s, k, x) && (Owns(s.flights[k]) ==> k == t);
    }
    assert forall k :: Of(s', k, x) <==> Of(s, k, x);
    Focus(cfg, s, s', x);
  }

  lemma ReleaseQueuedKeeps(cfg: Config, s: Sys, x: IssueId, out: Outcome)
    requires Inv(cfg, s) && out.slot == Released(At(s.st, x)) && out.stopped == TimerOf(At(s.st, x))
    requires At(s.st, x).blocked.Some? || (At(s.st, x).retry.Some? && At(s.st, x).retry.value.kind == Continuation)
    requires (out.followup.Nothing? || out.followup.DoCleanup?) && ResumesContinuation(out.followup)
    ensures Inv(cfg, SettleNew(s, x, out))
  {
    assert IdInv(s, x);
    Unowned(s, x);
    SettleNewKeeps(cfg, s, x, out);
  }

  lemma BeginKeeps(cfg: Config, s: Sys, k: nat)
    requires Inv(cfg, s) && k in s.flights && s.flights[k].Cleaning? && s.flights[k].stage.Waiting?
    requires MayClean(At(s.st, s.flights[k].id))
    ensures var x := s.flights[k].id;
            Inv(cfg, AtStage(s, k, Verifying).(st := WithSlot(s.st, x, At(s.st, x).(cleaning := true))))
  {
    var x := s.flights[k].id;
    assert IdInv(s, x) && Of(s, k, x);
    Unowned(s, x);
    var s' := AtStage(s, k, Verifying).(st := WithSlot(s.st, x, At(s.st, x).(cleaning := true)));
    forall j | Of(s', j, x) ensures FlightOk(At(s'.st, x), j, s'.flights[j]) && (Marks(s'.flights[j]) ==> j == k) {
      assert Of(s, j, x) && FlightOk(At(s.st, x), j, s.flights[j]);
    }
    forall i, j | Of(s', i, x) && Of(s', j, x) && Owns(s'.flights[i]) && Owns(s'.flights[j]) ensures i == j {
      assert Of(s, i, x) && Of(s, j, x);
    }
    Focus(cfg, s, s', x);
  }

  lemma StageKeeps(cfg: Config, s: Sys, k: nat, stage: CleanupStage)
    requires Inv(cfg, s) && k in s.flights && s.flights[k].Cleaning? && Active(s.flights[k].stage) && !stage.Waiting?
    ensures Inv(cfg, AtStage(s, k, stage))
  {
    var x := s.flights[k].id;
    assert IdInv(s, x) && Of(s, k, x) && FlightOk(At(s.st, x), k, s.flights[k]);
    Stepped(cfg, s, x, k, s.flights[k].(stage := stage));
  }

  lemma RecheckKeeps(cfg: Config, s: Sys, k: nat, verdict: Verdict)
    requires Inv(cfg, s) && k in s.flights && s.flights[k].Cleaning? && s.flights[k].stage.Verifying?
    ensures Inv(cfg, RecheckStep(s, k, verdict))
  {
    var w := s.flights[k];
    if verdict.Unknown? && w.pass + 1 <= MAX_CLEANUP_RETRIES {
      StageKeeps(cfg, s, k, Ending);
      var s1 := AtStage(s, k, Ending);
      assert IdInv(s1, w.id) && FlightOk(At(s1.st, w.id), k, s1.flights[k]);
      Joined(cfg, s1, w.id, w.(pass := w.pass + 1, stage := Waiting));
    } else {
      StageKeeps(cfg, s, k, Ending);
      StageKeeps(cfg, s, k, AskingStop);
      StageKeeps(cfg, s, k, Removing);
    }
  }

  /** A new flight that owns nothing. */
  lemma Joined(cfg: Config, s: Sys, x: IssueId, w: Work)
    requires Inv(cfg, s) && w.id == x && !Owns(w) && !Marks(w) && FlightOk(At(s.st, x), s.next, w)
    ensures Inv(cfg, s.(flights := s.flights[s.next := w], next := s.next + 1))
  {
    var s' := s.(flights := s.flights[s.next := w], next := s.next + 1);
    assert IdInv(s, x);
    forall j | Of(s', j, x) ensures FlightOk(At(s'.st, x), j, s'.flights[j]) {
      assert j != s.next ==> Of(s, j, x);
    }
    assert forall j :: j != s.next ==> (Of(s', j, x) <==> Of(s, j, x));
    Focus(cfg, s, s', x);
  }

  lemma ResumeKeeps(cfg: Config, s: Sys, k: nat, entry: RetryEntry)
    requires Inv(cfg, s) && k in s.flights && s.flights[k].Cleaning? && s.flights[k].stage.Resuming?
    requires entry.serial == s.next && entry.kind == Continuation
    ensures Inv(cfg, QueueStep(AtStage(s, k, Ending), s.next, s.flights[k].id, entry).(next := s.next + 1))
  {
    var x := s.flights[k].id;
    assert IdInv(s, x) && Of(s, k, x) && FlightOk(At(s.st, x), k, s.flights[k]);
    StageKeeps(cfg, s, k, Ending);
    var s1 := AtStage(s, k, Ending);
    assert NothingElseOwns(s1, x, s.next) by {
      assert forall j :: Of(s1, j, x) <==> Of(s, j, x);
    }
    QueueKeeps(cfg, s1, x, s.next, entry, s.next + 1);
  }

  lemma EndKeeps(cfg: Config, s: Sys, k: nat)
    requires Inv(cfg, s) && k in s.flights && s.flights[k].Cleaning? && s.flights[k].stage.Ending?
    ensures var x := s.flights[k].id;
            Inv(cfg, s.(st := WithSlot(s.st, x, At(s.st, x).(cleaning := false)), flights := s.flights - {k}))
  {
    var x := s.flights[k].id;
    assert IdInv(s, x) && Of(s, k, x) && FlightOk(At(s.st, x), k, s.flights[k]);
    var s' := s.(st := WithSlot(s.st, x, At(s.st, x).(cleaning := false)), flights := s.flights - {k});
    forall j | Of(s', j, x) ensures FlightOk(At(s'.st, x), j, s'.flights[j]) {
      assert Of(s, j, x) && !Marks(s.flights[j]);
    }
    assert forall j :: Of(s', j, x) ==> Of(s, j, x);
    Focus(cfg, s, s', x);
  }

  lemma CleanupKeeps(cfg: Config, s: Sys, k: nat, verdict: Verdict)
    requires Inv(cfg, s) && k in s.flights && s.flights[k].Cleaning?
    ensures Inv(cfg, CleanupStep(cfg, s, k, verdict))
  {
    var w := s.flights[k];
    assert IdInv(s, w.id) && Of(s, k, w.id) && FlightOk(At(s.st, w.id), k, w);
    match w.stage
    case Waiting =>
      if cfg.hasCleaner && MayClean(At(s.st, w.id)) {
        BeginKeeps(cfg, s, k);
      } else {
        Gone(cfg, s, k);
      }
    case Verifying => RecheckKeeps(cfg, s, k, verdict);
    case AskingStop =>
      StageKeeps(cfg, s, k, Resuming);
      StageKeeps(cfg, s, k, Ending);
    case Resuming =>
      StageKeeps(cfg, s, k, Ending);
      if w.cleanup.resume.Some? {
        ResumeKeeps(cfg, s, k, NewRetry(cfg, s.clock, s.next, w.cleanup.resume.value));
      }
    case Removing => StageKeeps(cfg, s, k, Ending);
    case Ending => EndKeeps(cfg, s, k);
  }

  /** A flight that owns nothing ends. */
  lemma Gone(cfg: Config, s: Sys, k: nat)
    requires Inv(cfg, s) && k in s.flights && !Owns(s.flights[k]) && !Marks(s.flights[k])
    ensures Inv(cfg, s.(flights := s.flights - {k}))
  {
    var x, s' := s.flights[k].id, s.(flights := s.flights - {k});
    assert IdInv(s, x) && IdInv(s', x) by {
      assert forall j :: Of(s', j, x) ==> Of(s, j, x);
    }
    Focus(cfg, s, s', x);
  }

  // ---------------------------------------------------------------------------------------------
  // The invariant over steps and runs

  lemma LandKeeps(cfg: Config, s: Sys, k: nat, input: Input)
    requires Inv(cfg, s) && k in s.flights
    ensures Inv(cfg, Land(cfg, s, k, input)) <==>
            !(SettlesRetry(cfg, s, s.flights[k]) && Deferred(s, s.flights[k].id))
  {
    var x := s.flights[k].id;
    assert IdInv(s, x) && Of(s, k, x) && FlightOk(At(s.st, x), k, s.flights[k]);
    match s.flights[k]
    case Spawning(_, _) => RegisterKeeps(cfg, s, k);
    case Working(_, _) => ExitKeeps(cfg, s, k, input.result);
    case Exited(_, _, _) => FinalizeKeeps(cfg, s, k);
    case Rescheduling(_, r) => ScheduleKeeps(cfg, s, k, NewRetry(cfg, s.clock, k, r));
    case Armed(_, attempt, kind, _) => Stepped(cfg, s, x, k, Fired(x, attempt, kind));
    case Fired(_, _, _) => FireKeeps(cfg, s, k);
    case Fetching(_, _, _) => Stepped(cfg, s, x, k, Land(cfg, s, k, input).flights[k]);
    case FetchError(_, _, _) => PollFailedKeeps(cfg, s, k);
    case FetchDone(_, _, _, _, _) => AfterFetchKeeps(cfg, s, k);
    case Cleaning(_, _, _, _) => CleanupKeeps(cfg, s, k, RecheckVerdict(cfg, input.lookup));
  }

  /** Every event keeps the invariant, except exactly those that overtake a deferred reschedule. */
  lemma StepKeepsIff(cfg: Config, s: Sys, ev: Event)
    requires Inv(cfg, s) && Enabled(s, ev)
    ensures Inv(cfg, Apply(cfg, s, ev)) <==> !Overtakes(cfg, s, ev)
  {
    match ev
    case Tick(to) => Ticked(cfg, s, to);
    case Dispatches(issue, attempt, rechecked) => DispatchKeeps(cfg, s, issue, attempt, rechecked);
    case Lands(k, input) => LandKeeps(cfg, s, k, input);
    case InactiveRunAt(id, row) =>
      ReleaseRunKeeps(cfg, s, id, InactiveRun(cfg, id, At(s.st, id), s.st.latch, row));
    case InactiveRetryAt(id, row) => InactiveRetryKeeps(cfg, s, id, row);
    case InactiveBlockedAt(id, row) =>
      ReleaseQueuedKeeps(cfg, s, id, InactiveBlocked(cfg, id, At(s.st, id), s.st.latch, row));
    case AbsentRunAt(id) => ReleaseRunKeeps(cfg, s, id, AbsentRun(At(s.st, id), s.st.latch));
    case AbsentQueuedAt(id) => AbsentKeeps(cfg, s, id);
    case Observed(id, fact) => TouchedKeeps(cfg, s, id, Observe(At(s.st, id), fact));
    case Refreshed(id, row) => TouchedKeeps(cfg, s, id, RefreshActive(At(s.st, id), row));
  }

  /** A runtime event or a refresh changes what the entries hold, never which entries there are. */
  lemma TouchedKeeps(cfg: Config, s: Sys, id: IssueId, slot: Slot)
    requires Inv(cfg, s) && Alike(At(s.st, id), slot)
    ensures Inv(cfg, s.(st := WithSlot(s.st, id, slot)))
  {
    Retouched(cfg, s, s.(st := WithSlot(s.st, id, slot)), id);
  }

  lemma Ticked(cfg: Config, s: Sys, to: int)
    requires Inv(cfg, s)
    ensures Inv(cfg, s.(clock := to))
  {
    forall id ensures IdInv(s.(clock := to), id) {
      assert IdInv(s, id);
      assert forall k :: Of(s.(clock := to), k, id) <==> Of(s, k, id);
    }
  }

  lemma AbsentKeeps(cfg: Config, s: Sys, x: IssueId)
    requires Inv(cfg, s)
    ensures Inv(cfg, SettleNew(s, x, AbsentQueued(At(s.st, x), s.st.latch)))
  {
    var slot := At(s.st, x);
    if slot.blocked.Some? || (slot.retry.Some? && slot.retry.value.kind == Continuation) {
      ReleaseQueuedKeeps(cfg, s, x, AbsentQueued(slot, s.st.latch));
    } else {
      IdleNew(cfg, s, x, AbsentQueued(slot, s.st.latch));
    }
  }

  /** On a run that overtakes no deferred reschedule the invariant always holds. */
  lemma {:induction false} RunKeeps(cfg: Config, run: seq<Sys>, events: seq<Event>, i: nat)
    requires IsRun(cfg, run, events) && InOrder(cfg, run, events) && i < |run|
    ensures Inv(cfg, run[i])
  {
    if i > 0 {
      RunKeeps(cfg, run, events, i - 1);
      StepKeepsIff(cfg, run[i - 1], events[i - 1]);
    }
  }
}
