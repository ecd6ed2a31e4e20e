/** What single events leave behind, field by field: the entry and timer of a retry, the entry of a new
    run, the cleanup, latch and stored issue after an observation. */
module ClaimEffects {
  import opened Prelude
  import opened Backoff
  import opened ClaimState
  import opened ActorSystem
  import opened CapacityGates

  /** The wait a retry is due after: what it was told, a second for a continuation, and otherwise ten
      seconds doubled for each attempt after the first, up to the ceiling, in nanoseconds. */
  predicate Waits(cfg: Config, req: RetryRequest, wait: int) {
    var ceiling := if cfg.maxBackoff <= 0 then 300_000_000_000 else cfg.maxBackoff;
    var doubled := 10_000_000_000 * Pow2(if req.attempt <= 1 then 0 else req.attempt - 1);
    && (req.delayOverride > 0 ==> wait == req.delayOverride)
    && (req.delayOverride <= 0 && req.kind == Continuation ==> wait == 1_000_000_000)
    && (req.delayOverride <= 0 && req.kind != Continuation ==>
          wait == if req.attempt >= 2 && ceiling == doubled + 1 then ceiling else Min(doubled, ceiling))
  }

  /** A reschedule that arrives replaces whatever entry is queued, takes the claim, stops the old timer and
      becomes the new one, which fires when the entry is due. */
  lemma RescheduleQueues(cfg: Config, s: Sys, k: nat, input: Input)
    requires k in s.flights && s.flights[k].Rescheduling?
    ensures var w, s' := s.flights[k], Land(cfg, s, k, input);
            var r, slot, slot' := w.reschedule, At(s.st, w.id), At(s'.st, w.id);
            && slot'.retry.Some? && slot' == slot.(claimed := true, claimedIssue := Some(r.issue), retry := slot'.retry)
            && (var entry := slot'.retry.value;
                && entry.serial == k && entry.timerSet && entry.issue == r.issue && entry.workspace == r.workspace
                && entry.kind == r.request.kind && entry.attempt == r.request.attempt && entry.continuationTurns == r.continuationTurns
                && Waits(cfg, r.request, entry.dueAt - s.clock)
                && (entry.quotaDueAt == Some(entry.dueAt) || entry.quotaDueAt.None?)
                && (entry.quotaDueAt.Some? <==> r.request.kind == QuotaBackoff && r.request.delayOverride > 0)
                && k in s'.flights && s'.flights[k] == Armed(w.id, entry.attempt, entry.kind, entry.dueAt))
            && (slot.retry.Some? && slot.retry.value.timerSet && slot.retry.value.serial != k &&
                slot.retry.value.serial in s.flights && s.flights[slot.retry.value.serial].Armed? ==>
                  slot.retry.value.serial !in s'.flights)
            && s'.st.latch == s.st.latch
  {
  }

  /** What the environment decides is what the flight goes on with: a worker with its result, a fetch with its
      answer. A timer fires only when it is due. The claims are untouched. */
  lemma AnswersAreTaken(cfg: Config, s: Sys, k: nat, input: Input)
    requires Enabled(s, Lands(k, input)) && (s.flights[k].Working? || s.flights[k].Armed? || s.flights[k].Fetching?)
    ensures var w, s' := s.flights[k], Land(cfg, s, k, input);
            && s'.st == s.st && s'.next == s.next && s'.clock == s.clock && s'.flights.Keys == s.flights.Keys
            && (forall j :: j in s.flights && j != k ==> s'.flights[j] == s.flights[j])
            && (w.Working? ==> s'.flights[k] == Exited(w.id, w.detached, input.result))
            && (w.Armed? ==> w.dueAt <= s.clock && s'.flights[k] == Fired(w.id, w.attempt, w.kind))
            && (w.Fetching? && input.fetch.FetchFailed? ==> s'.flights[k] == FetchError(w.id, w.attempt, w.kind))
            && (w.Fetching? && input.fetch.FoundActive? ==>
                  s'.flights[k] == FetchDone(w.id, w.attempt, w.kind, Some(Issue(w.id, input.fetch.state)), None))
            && (w.Fetching? && input.fetch.NotListed? ==>
                  s'.flights[k] == FetchDone(w.id, w.attempt, w.kind, None, input.fetch.terminal))
  {
  }

  /** A failed fetch puts the entry off and leaves it queued; one for an entry no longer queued does nothing. */
  lemma FetchErrorPutsOff(cfg: Config, s: Sys, k: nat, input: Input)
    requires k in s.flights && s.flights[k].FetchError?
    ensures var w, s' := s.flights[k], Land(cfg, s, k, input);
            var slot := At(s.st, w.id);
            && At(s'.st, w.id) == slot && s'.st.latch == s.st.latch
            && (Current(slot, w.attempt, w.kind) ==>
                  k in s'.flights && s'.flights[k].Rescheduling? && s'.flights[k].id == w.id &&
                  PutOff(slot.retry.value, s.clock, s'.flights[k].reschedule))
            && (!Current(slot, w.attempt, w.kind) ==> k !in s'.flights)
  {
  }

  /** A worker that starts registers an entry with what it was spawned with and nothing seen yet. */
  lemma RegisterStartsClean(cfg: Config, s: Sys, k: nat, input: Input)
    requires k in s.flights && s.flights[k].Spawning?
    ensures var w, s' := s.flights[k], Land(cfg, s, k, input);
            var r, slot, slot' := w.spawn, At(s.st, w.id), At(s'.st, w.id);
            && slot'.run.Some? && slot' == slot.(run := slot'.run) && k in s'.flights && s'.flights[k] == Working(w.id, None)
            && (var e := slot'.run.value;
                && e.token == k && e.issue == r.issue && e.retryAttempt == r.attempt && e.workspace == r.workspace
                && e.continuationAttempt == r.continuationAttempt && e.continuationTurns == r.continuationTurns && e.turnCount == 0
                && !e.inputRequired && !e.budgetExceeded && !e.stallCanceled && !e.handoff && e.terminalHandoff == ""
                && !e.reconcileCancel && !e.reconcileCleanup)
  {
  }

  /** The latch of an issue seen terminal. */
  predicate Latched(before: Latch, after: Latch, id: IssueId, row: Issue) {
    && (id in before.stops || id !in before.order ==> id in after.stops)
    && (id in after.stops && (id !in before.stops || Trim(row.state) != "") ==> after.stops[id].issue == row)
    && (id in before.stops && Trim(row.state) == "" ==> after == before)
  }

  lemma StopIsLatched(cfg: Config, latch: Latch, id: IssueId, row: Issue)
    ensures Latched(latch, RecordStop(cfg, latch, id, row), id, row)
  {
  }

  /** A queued or blocked issue seen inactive is released. If it is terminal it is latched and its workspace,
      if it has one, cleaned; a queued continuation goes with the cleanup, as it was. */
  lemma InactiveReleases(cfg: Config, s: Sys, id: IssueId, row: Issue, ev: Event)
    requires Enabled(s, ev) && (ev == InactiveRetryAt(id, row) || ev == InactiveBlockedAt(id, row))
    ensures var s', slot := Apply(cfg, s, ev), At(s.st, id);
            var terminal := Fold(row.state) in cfg.terminalStates;
            var path := if ev.InactiveRetryAt? then slot.retry.value.workspace else slot.blocked.value.workspace;
            && At(s'.st, id) == slot.(claimed := false, claimedIssue := None, blocked := None, retry := None)
            && (if terminal then Latched(s.st.latch, s'.st.latch, id, row) else s'.st.latch == s.st.latch)
            && (s.next in s'.flights <==> terminal && Trim(path) != "")
            && (terminal && Trim(path) != "" ==>
                  var w := s'.flights[s.next];
                  && w.Cleaning? && w.id == id && w.cleanup.path == Trim(path) && w.pass == 0 && w.stage == Waiting
                  && (w.cleanup.resume.Some? <==> ev.InactiveRetryAt? && slot.retry.value.kind == Continuation)
                  && (w.cleanup.resume.Some? ==>
                        var r, entry := w.cleanup.resume.value, slot.retry.value;
                        && r.issue == entry.issue && r.workspace == entry.workspace && r.continuationTurns == entry.continuationTurns
                        && r.request == RetryRequest(Continuation, entry.attempt, 0)))
  {
    StopIsLatched(cfg, s.st.latch, id, row);
  }

  /** A running issue seen inactive loses its claim; if it is terminal and the agent had not announced that
      state it is latched. A running issue seen absent loses its claim and nothing is latched. */
  lemma SeenGoneIsReleased(cfg: Config, s: Sys, id: IssueId, ev: Event)
    requires Enabled(s, ev) && ((ev.InactiveRunAt? && ev.id == id) || ev == AbsentRunAt(id))
    ensures var s', slot := Apply(cfg, s, ev), At(s.st, id);
            && At(s'.st, id) == slot.(claimed := false, claimedIssue := None, blocked := None, retry := None, run := At(s'.st, id).run)
            && At(s'.st, id).run.Some? && At(s'.st, id).run.value.reconcileCancel && s.next !in s'.flights
            && (ev.InactiveRunAt? && Fold(ev.row.state) in cfg.terminalStates &&
                (Trim(slot.run.value.terminalHandoff) == "" || Fold(slot.run.value.terminalHandoff) != Fold(ev.row.state)) ==>
                  Latched(s.st.latch, s'.st.latch, id, ev.row))
            && (s'.st.latch != s.st.latch ==>
                  && ev.InactiveRunAt? && Fold(ev.row.state) in cfg.terminalStates
                  && (Trim(slot.run.value.terminalHandoff) == "" || Fold(slot.run.value.terminalHandoff) != Fold(ev.row.state)))
  {
    if ev.InactiveRunAt? {
      StopIsLatched(cfg, s.st.latch, id, ev.row);
    }
  }

  /** An active row is stored wherever the issue is held, withdraws what was seen about its run before, and
      takes or gives no claim. */
  lemma RefreshStoresRow(cfg: Config, s: Sys, id: IssueId, row: Issue)
    ensures var s', slot := Apply(cfg, s, Refreshed(id, row)), At(s.st, id);
            var slot' := At(s'.st, id);
            && s'.flights == s.flights && s'.st.latch == s.st.latch && slot'.claimed == slot.claimed && slot'.cleaning == slot.cleaning
            && (slot.run.None? && slot.retry.None? && slot.blocked.None? ==> slot' == slot)
            && (slot.run.Some? || slot.retry.Some? || slot.blocked.Some? ==> slot'.claimedIssue == Some(row))
            && (slot.run.Some? <==> slot'.run.Some?) && (slot.retry.Some? <==> slot'.retry.Some?)
            && (slot.blocked.Some? <==> slot'.blocked.Some?)
            && (slot.run.Some? ==>
                  slot'.run.value == slot.run.value.(issue := row, reconcileCleanup := false, handoff := false, terminalHandoff := ""))
            && (slot.retry.Some? ==> slot'.retry.value == slot.retry.value.(issue := row))
            && (slot.blocked.Some? ==> slot'.blocked.value == slot.blocked.value.(issue := row))
  {
  }
}
