/** When a queued retry comes up. A late timer is recognised only by attempt and kind, so an entry may be
    picked up by the timer of an earlier entry of its issue; by its own timer it never is before it is due. */
module RetryTimers {
  import opened Prelude
  import opened Backoff
  import opened ClaimState
  import opened ActorSystem
  import opened ActorSafety
  import opened ActorDrivers

  /** The timer has fired: the flight goes on to fetch or settle its retry. */
  predicate Past(w: Work) {
    w.Fired? || w.Fetching? || w.FetchError? || w.FetchDone?
  }

  /** The timer of a queued entry fires when the entry is due, and has fired only if it is. */
  predicate OnTime(s: Sys, id: IssueId) {
    var slot := At(s.st, id);
    slot.retry.Some? && slot.retry.value.serial in s.flights ==>
      var w := s.flights[slot.retry.value.serial];
      (w.Armed? ==> w.dueAt == slot.retry.value.dueAt) && (Past(w) ==> slot.retry.value.dueAt <= s.clock)
  }

  /** The entry queued after a step is the one queued before, or none. */
  predicate SameDue(a: Slot, b: Slot) {
    b.retry.Some? ==> a.retry.Some? && b.retry.value.serial == a.retry.value.serial && b.retry.value.dueAt == a.retry.value.dueAt
  }

  /** A flight goes on under its number: not into another timer, and past the timer only if it had fired. */
  predicate GoesOn(w: Work, w': Work) {
    w' == w || (!w'.Armed? && (Past(w') ==> Past(w)))
  }

  lemma KeptOnTime(s: Sys, s': Sys, id: IssueId)
    requires OnTime(s, id) && OwnTimer(s, id) && SameDue(At(s.st, id), At(s'.st, id)) && s.clock <= s'.clock
    requires forall k :: k in s'.flights && k < s.next ==> k in s.flights && GoesOn(s.flights[k], s'.flights[k])
    ensures OnTime(s', id)
  {
  }

  lemma SettledOnTime(s: Sys, x: IssueId, out: Outcome, k: nat, id: IssueId)
    requires OnTime(s, id) && OwnTimer(s, id) && SameDue(At(s.st, x), out.slot) && k in s.flights
    ensures OnTime(Settle(s, x, out, k), id)
  {
    KeptOnTime(s, Settle(s, x, out, k), id);
  }

  lemma NewOnTime(s: Sys, x: IssueId, out: Outcome, id: IssueId)
    requires OnTime(s, id) && OwnTimer(s, id) && SameDue(At(s.st, x), out.slot)
    ensures OnTime(SettleNew(s, x, out), id)
  {
    KeptOnTime(s, SettleNew(s, x, out), id);
  }

  /** A queued entry takes flight k for its timer. */
  lemma QueuedOnTime(s: Sys, k: nat, x: IssueId, entry: RetryEntry, next: nat, id: IssueId)
    requires OnTime(s, id) && OwnTimer(s, id) && entry.serial == k && s.next <= next
    requires k in s.flights ==> s.flights[k].id == x
    requires k !in s.flights ==> k == s.next
    ensures OnTime(QueueStep(s, k, x, entry).(next := next), id)
  {
  }

  lemma CleanupOnTime(cfg: Config, s: Sys, k: nat, verdict: Verdict, id: IssueId)
    requires Numbered(s) && OnTime(s, id) && OwnTimer(s, id) && k in s.flights && s.flights[k].Cleaning?
    ensures OnTime(CleanupStep(cfg, s, k, verdict), id)
  {
    var w := s.flights[k];
    if w.stage.Resuming? && w.cleanup.resume.Some? {
      var mid := AtStage(s, k, Ending);
      KeptOnTime(s, mid, id);
      QueuedOnTime(mid, s.next, w.id, NewRetry(cfg, s.clock, s.next, w.cleanup.resume.value), s.next + 1, id);
    } else {
      KeptOnTime(s, CleanupStep(cfg, s, k, verdict), id);
    }
  }

  lemma FireOnTime(cfg: Config, s: Sys, k: nat, id: IssueId)
    requires OnTime(s, id) && OwnTimer(s, id) && k in s.flights && s.flights[k].Fired?
    ensures var w := s.flights[k]; OnTime(FireStep(cfg, s, k, w.id, w.attempt, w.kind), id)
  {
    var w := s.flights[k];
    KeptOnTime(s, FireStep(cfg, s, k, w.id, w.attempt, w.kind), id);
  }

  lemma FinalizeSameDue(cfg: Config, id: IssueId, slot: Slot, latch: Latch, run: RunEntry, result: WorkerResult)
    ensures SameDue(slot, Finalize(cfg, id, slot, latch, run, result).slot)
  {
  }

  lemma ArmedOnTime(cfg: Config, s: Sys, k: nat, input: Input, id: IssueId)
    requires Enabled(s, Lands(k, input)) && s.flights[k].Armed? && OnTime(s, id)
    ensures OnTime(Land(cfg, s, k, input), id)
  {
  }

  /** Workers start, run and exit beside the retry timers. */
  lemma WorkersOnTime(cfg: Config, s: Sys, k: nat, input: Input, id: IssueId)
    requires OnTime(s, id) && OwnTimer(s, id) && k in s.flights && (s.flights[k].Spawning? || s.flights[k].Working? || s.flights[k].Fetching?)
    ensures OnTime(Land(cfg, s, k, input), id)
  {
    KeptOnTime(s, Land(cfg, s, k, input), id);
  }

  lemma ExitOnTime(cfg: Config, s: Sys, k: nat, id: IssueId)
    requires OnTime(s, id) && OwnTimer(s, id) && k in s.flights && s.flights[k].Exited?
    ensures var w := s.flights[k]; OnTime(FinalizeStep(cfg, s, k, w.id, w.detached, w.result), id)
  {
    var w := s.flights[k];
    var slot := At(s.st, w.id);
    var run := if w.detached.Some? then w.detached else slot.run;
    if run.Some? {
      FinalizeSameDue(cfg, w.id, slot, s.st.latch, run.value, w.result);
      SettledOnTime(s, w.id, Finalize(cfg, w.id, slot, s.st.latch, run.value, w.result), k, id);
    } else {
      KeptOnTime(s, s.(flights := s.flights - {k}), id);
    }
  }

  lemma LandOnTime(cfg: Config, s: Sys, k: nat, input: Input, id: IssueId)
    requires Driven(s) && Enabled(s, Lands(k, input)) && OnTime(s, id)
    ensures OnTime(Land(cfg, s, k, input), id)
  {
    var w := s.flights[k];
    var slot := At(s.st, w.id);
    assert DrivenAt(s, id);
    match w
    case Exited(_, _, _) => ExitOnTime(cfg, s, k, id);
    case Rescheduling(_, r) => QueuedOnTime(s, k, w.id, NewRetry(cfg, s.clock, k, r), s.next, id);
    case Armed(_, _, _, _) => ArmedOnTime(cfg, s, k, input, id);
    case Fired(_, _, _) => FireOnTime(cfg, s, k, id);
    case FetchError(_, attempt, kind) => SettledOnTime(s, w.id, PollFailed(slot, s.st.latch, s.clock, attempt, kind), k, id);
    case FetchDone(_, attempt, kind, found, terminal) =>
      var full := AtCapacity(cfg, s.st, if found.Some? then found.value.state else "", None);
      SettledOnTime(s, w.id, AfterFetch(cfg, w.id, slot, s.st.latch, s.clock, attempt, kind, found, terminal, full), k, id);
    case Cleaning(_, _, _, _) => CleanupOnTime(cfg, s, k, RecheckVerdict(cfg, input.lookup), id);
    case _ => WorkersOnTime(cfg, s, k, input, id);
  }

  lemma StepOnTime(cfg: Config, s: Sys, ev: Event, id: IssueId)
    requires Driven(s) && Enabled(s, ev) && OnTime(s, id)
    ensures OnTime(Apply(cfg, s, ev), id)
  {
    assert DrivenAt(s, id);
    match ev
    case Lands(k, input) => LandOnTime(cfg, s, k, input, id);
    case Dispatches(issue, attempt, rechecked) => NewOnTime(s, issue.id, DispatchAt(cfg, s, issue, attempt, rechecked).out, id);
    case InactiveRunAt(x, row) => NewOnTime(s, x, InactiveRun(cfg, x, At(s.st, x), s.st.latch, row), id);
    case InactiveRetryAt(x, row) => NewOnTime(s, x, InactiveRetry(cfg, x, At(s.st, x), s.st.latch, row), id);
    case InactiveBlockedAt(x, row) => NewOnTime(s, x, InactiveBlocked(cfg, x, At(s.st, x), s.st.latch, row), id);
    case AbsentRunAt(x) => NewOnTime(s, x, AbsentRun(At(s.st, x), s.st.latch), id);
    case AbsentQueuedAt(x) => NewOnTime(s, x, AbsentQueued(At(s.st, x), s.st.latch), id);
    case _ => KeptOnTime(s, Apply(cfg, s, ev), id);
  }

  lemma {:induction false} RunOnTime(cfg: Config, run: seq<Sys>, events: seq<Event>, i: nat, id: IssueId)
    requires IsRun(cfg, run, events) && i < |run|
    ensures OnTime(run[i], id)
  {
    if i > 0 {
      RunOnTime(cfg, run, events, i - 1, id);
      RunKeepsDrivers(cfg, run, events, i - 1);
      StepOnTime(cfg, run[i - 1], events[i - 1], id);
    }
  }

  /** On every run an entry is taken up before it is due only by a timer that is not its own: if a landing
      flight sees a queued entry of its issue that is not due yet, it carries another number. */
  lemma EarlyOnlyByStaleTimer(cfg: Config, run: seq<Sys>, events: seq<Event>, i: nat, k: nat)
    requires IsRun(cfg, run, events) && i < |events| && events[i].Lands? && events[i].k == k && Past(run[i].flights[k])
    ensures var entry := At(run[i].st, run[i].flights[k].id).retry;
            entry.Some? && run[i].clock < entry.value.dueAt ==> entry.value.serial != k
  {
    RunOnTime(cfg, run, events, i, run[i].flights[k].id);
  }
}
