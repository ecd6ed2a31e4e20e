/** When work is started, refused or put off, said in terms of who holds the agent slots: the limits
    hold whenever a worker is asked for, and nothing is put off while there is room. */
module CapacityGates {
  import opened Prelude
  import opened Backoff
  import opened ClaimState
  import opened ActorSystem

  // ---------------------------------------------------------------------------------------------
  // Room

  /** The issue takes up an agent slot: it runs or is reserved, and is neither queued nor blocked. */
  predicate Busy(slot: Slot) {
    (slot.run.Some? || slot.claimed) && slot.retry.None? && slot.blocked.None?
  }

  /** It does so under this state, which is that of its run, or else of its reservation. */
  predicate BusyUnder(slot: Slot, key: string) {
    && Busy(slot)
    && (slot.run.Some? ==> StateKey(slot.run.value.issue.state) == key)
    && (slot.run.None? ==> slot.claimedIssue.Some? && StateKey(slot.claimedIssue.value.state) == key)
  }

  function AllBusy(st: State): set<IssueId> {
    set id | id in st.slots && Busy(st.slots[id])
  }

  function Holders(st: State, key: string): set<IssueId> {
    set id | id in st.slots && BusyUnder(st.slots[id], key)
  }

  /** There is a limit for the state. */
  predicate Limited(cfg: Config, key: string) {
    key != "" && key in cfg.maxByState && cfg.maxByState[key] > 0
  }

  /** Case, surrounding space and the choice between space and underscore make no difference to a limit. */
  lemma SameKey(a: string, b: string)
    ensures StateKey(a) == StateKey(b) <==>
            |Fold(a)| == |Fold(b)| &&
            forall i :: 0 <= i < |Fold(a)| ==> Fold(a)[i] == Fold(b)[i] || (Fold(a)[i] in " _" && Fold(b)[i] in " _")
  {
    if StateKey(a) == StateKey(b) {
      forall i | 0 <= i < |Fold(a)| ensures Fold(a)[i] == Fold(b)[i] || (Fold(a)[i] in " _" && Fold(b)[i] in " _") {
        assert StateKey(a)[i] == StateKey(b)[i];
      }
    }
  }

  /** Some other issue may be worked on in this state; `own` is left out of account. */
  predicate Room(cfg: Config, st: State, state: string, own: set<IssueId>) {
    var key := StateKey(state);
    |AllBusy(st)| < cfg.maxAgents && (Limited(cfg, key) ==> |Holders(st, key) - own| < cfg.maxByState[key])
  }

  lemma RoomIs(cfg: Config, st: State, state: string, excluded: Option<IssueId>)
    ensures Room(cfg, st, state, if excluded.Some? then {excluded.value} else {}) <==> !AtCapacity(cfg, st, state, excluded)
  {
    assert AllBusy(st) == Counted(st);
    HoldersAre(st, StateKey(state), excluded);
  }

  lemma HoldersAre(st: State, key: string, excluded: Option<IssueId>)
    ensures |Holders(st, key) - if excluded.Some? then {excluded.value} else {}| == CountByState(st, key, excluded)
  {
    var own := if excluded.Some? then {excluded.value} else {};
    assert Holders(st, key) - own == set id | id in Counted(st) && excluded != Some(id) && HoldsState(At(st, id), key);
  }

  lemma AtMostOneMore<T>(a: set<T>, b: set<T>, x: T)
    requires a <= b + {x}
    ensures |a| <= |b| + 1
  {
    assert |b + {x}| <= |b| + 1;
    SubsetCount(a, b + {x});
  }

  /** The limits of the agents in all and of those in the state. */
  predicate WithinLimits(cfg: Config, st: State, state: string) {
    var key := StateKey(state);
    |AllBusy(st)| <= cfg.maxAgents && (Limited(cfg, key) ==> |Holders(st, key)| <= cfg.maxByState[key])
  }

  /** Where there was room, one more issue stays within the limits. */
  lemma OneMoreFits(cfg: Config, st: State, state: string, id: IssueId, own: set<IssueId>, slot: Slot, latch: Latch)
    requires Room(cfg, st, state, own) && own <= {id}
    ensures WithinLimits(cfg, State(st.slots[id := slot], latch), state)
  {
    var st', key := State(st.slots[id := slot], latch), StateKey(state);
    AtMostOneMore(AllBusy(st'), AllBusy(st), id);
    AtMostOneMore(Holders(st', key), Holders(st, key) - own, id);
  }

  // ---------------------------------------------------------------------------------------------
  // Dispatch

  /** Nobody holds the issue, or a poll that has just seen it finds its continuation due. */
  predicate Free(slot: Slot, now: int, rechecked: bool) {
    || (!slot.claimed && slot.run.None? && slot.blocked.None? && slot.retry.None?)
    || (rechecked && slot.retry.Some? && slot.retry.value.kind == Continuation && slot.retry.value.dueAt <= now)
  }

  /** The queued continuation has used up the clean turns. */
  predicate Spent(cfg: Config, slot: Slot) {
    slot.retry.Some? && cfg.maxContinuationTurns > 0 && slot.retry.value.continuationTurns >= cfg.maxContinuationTurns
  }

  predicate Open(s: Sys, id: IssueId, rechecked: bool) {
    !At(s.st, id).cleaning && id !in s.st.latch.stops && Free(At(s.st, id), s.clock, rechecked)
  }

  function Own(slot: Slot, id: IssueId): set<IssueId> {
    if slot.retry.Some? then {id} else {}
  }

  /** The worker asked for continues the queued entry, or starts from nothing. */
  predicate SpawnContinues(cfg: Config, slot: Slot, issue: Issue, attempt: Option<int>, r: SpawnRequest) {
    && r.issue == issue && r.attempt == attempt
    && (slot.retry.None? ==> r.continuationAttempt == 0 && r.continuationTurns == 0 && r.workspace == "")
    && (slot.retry.Some? ==>
          && r.continuationAttempt == slot.retry.value.attempt
          && r.continuationTurns == slot.retry.value.continuationTurns && r.workspace == slot.retry.value.workspace)
    && 0 <= r.cleanTurnBudget && (r.continuationTurns <= cfg.maxContinuationTurns ==>
          r.cleanTurnBudget == cfg.maxContinuationTurns - r.continuationTurns)
  }

  /** The continuation is parked under the issue dispatched, or its own if that has no id. */
  predicate ParkedInstead(slot: Slot, issue: Issue, slot': Slot) {
    slot.retry.Some? &&
    var stored := if issue.id.key == "" then slot.retry.value.issue else issue;
    slot' == slot.(retry := None, claimed := true, claimedIssue := Some(stored),
                   blocked := Some(BlockedEntry(stored, slot.retry.value.workspace)))
  }

  /** One more dispatch suppressed for a latched issue, and nothing else about the latches. */
  predicate CountedOnce(before: Latch, after: Latch, id: IssueId) {
    id in before.stops && id in after.stops && after.stops[id].suppressed == before.stops[id].suppressed + 1 &&
    after == before.(stops := before.stops[id := before.stops[id].(suppressed := after.stops[id].suppressed)])
  }

  /** A dispatch of an open issue is parked if its continuation is spent, answered "full" exactly if there
      is no room, and otherwise reserves the issue and asks for its worker. Any other dispatch leaves the
      issue alone. */
  lemma DispatchVerdicts(cfg: Config, s: Sys, issue: Issue, attempt: Option<int>, rechecked: bool)
    ensures var d, slot := DispatchAt(cfg, s, issue, attempt, rechecked), At(s.st, issue.id);
            var open, room := Open(s, issue.id, rechecked), Room(cfg, s.st, issue.state, Own(At(s.st, issue.id), issue.id));
            && (d.verdict == Dispatched <==> open && !Spent(cfg, slot) && room)
            && (d.verdict == CapacityFull <==> open && !Spent(cfg, slot) && !room)
            && (d.out.followup.DoSpawn? <==> d.verdict == Dispatched)
            && (d.verdict == Dispatched ==>
                  && SpawnContinues(cfg, slot, issue, attempt, d.out.followup.spawn)
                  && d.out.slot == slot.(claimed := true, claimedIssue := Some(issue), retry := None))
            && (d.out.slot.blocked != slot.blocked ==> open && Spent(cfg, slot))
            && (open && Spent(cfg, slot) ==> ParkedInstead(slot, issue, d.out.slot) && d.out.followup.Nothing?)
            && (d.out.stopped.Some? <==>
                  slot.retry.Some? && slot.retry.value.timerSet && (d.verdict == Dispatched || (open && Spent(cfg, slot))))
            && (d.out.stopped.Some? ==> d.out.stopped == Some(slot.retry.value.serial))
            && (d.verdict != Dispatched && !(open && Spent(cfg, slot)) ==> d.out.slot == slot && d.out.followup.Nothing?)
            && (if !slot.cleaning && issue.id in s.st.latch.stops then CountedOnce(s.st.latch, d.out.latch, issue.id) else d.out.latch == s.st.latch)
  {
    var slot := At(s.st, issue.id);
    RoomIs(cfg, s.st, issue.state, if slot.retry.Some? then Some(issue.id) else None);
  }

  // ---------------------------------------------------------------------------------------------
  // Retries

  /** The flight's number and kind still name the queued entry. */
  predicate Current(slot: Slot, attempt: int, kind: RetryKind) {
    slot.retry.Some? && slot.retry.value.attempt == attempt && slot.retry.value.kind == kind
  }

  /** Put off, an entry is asked for again: a failure one attempt later, a quota retry for what is left of
      its quiet window. */
  predicate PutOff(entry: RetryEntry, now: int, r: RescheduleRequest) {
    && r.issue == entry.issue && r.workspace == entry.workspace && r.continuationTurns == 0
    && (entry.kind == QuotaBackoff ==>
          && r.request.kind == QuotaBackoff && r.request.attempt == entry.attempt && r.request.delayOverride >= 0
          && (entry.quotaDueAt.None? ==> r.request.delayOverride == 0)
          && (entry.quotaDueAt.Some? && entry.quotaDueAt.value >= now ==> now + r.request.delayOverride == entry.quotaDueAt.value))
    && (entry.kind != QuotaBackoff ==> r.request == RetryRequest(Failure, entry.attempt + 1, 0))
  }

  /** The worker of a retry carries the entry's attempt, none for a first quota retry, and no continuation. */
  predicate SpawnRetries(entry: RetryEntry, r: SpawnRequest) {
    && r.issue == entry.issue && r.workspace == entry.workspace
    && r.continuationAttempt == r.continuationTurns == r.cleanTurnBudget == 0
    && (r.attempt == Some(entry.attempt) || (r.attempt == None && entry.kind == QuotaBackoff && entry.attempt <= 0))
    && (entry.kind != QuotaBackoff || entry.attempt > 0 ==> r.attempt.Some?)
  }

  /** A retry that has come up is dropped if an operator stop is latched for it, spawned if there is room
      and put off, its entry left queued, if there is none. */
  ghost predicate RetrySettled(cfg: Config, s: Sys, k: nat, id: IssueId, entry: RetryEntry, s': Sys) {
    var room := Room(cfg, s.st, entry.issue.state, {});
    if id in s.st.latch.stops then
      && k !in s'.flights && CountedOnce(s.st.latch, s'.st.latch, id)
      && At(s'.st, id) == At(s.st, id).(claimed := false, claimedIssue := None, blocked := None, retry := None)
    else if room then
      && k in s'.flights && s'.flights[k].Spawning? && s'.flights[k].id == id && SpawnRetries(entry, s'.flights[k].spawn)
      && At(s'.st, id).retry.None? && At(s'.st, id).claimed == At(s.st, id).claimed
    else
      && k in s'.flights && s'.flights[k].Rescheduling? && s'.flights[k].id == id && PutOff(entry, s.clock, s'.flights[k].reschedule)
      && At(s'.st, id).retry == Some(entry)
  }

  lemma TailSettles(cfg: Config, s: Sys, k: nat, id: IssueId, slot: Slot, entry: RetryEntry, full: bool)
    requires slot.retry == Some(entry) && full == !Room(cfg, s.st, entry.issue.state, {})
    requires slot == At(s.st, id).(retry := Some(entry), claimedIssue := slot.claimedIssue)
    requires At(s.st, id).retry.Some? && At(s.st, id).retry.value.serial == entry.serial && k in s.flights && !s.flights[k].Armed?
    ensures RetrySettled(cfg, s, k, id, entry, Settle(s, id, FireTail(id, slot, s.st.latch, s.clock, full), k))
  {
  }

  /** A timer that fires for an entry no longer queued does nothing. A due continuation waits for a poll;
      a failure or quota retry fetches first if there is a lister, and is settled at once if not. */
  lemma FireVerdicts(cfg: Config, s: Sys, k: nat, input: Input)
    requires k in s.flights && s.flights[k].Fired?
    ensures var w, s' := s.flights[k], Land(cfg, s, k, input);
            var slot := At(s.st, w.id);
            if !Current(slot, w.attempt, w.kind) then k !in s'.flights && At(s'.st, w.id) == slot
            else if w.kind == Continuation then
              k !in s'.flights && At(s'.st, w.id) == slot.(retry := Some(slot.retry.value.(timerSet := false)))
            else if cfg.hasLister then
              && k in s'.flights && s'.flights[k] == Fetching(w.id, w.attempt, w.kind)
              && At(s'.st, w.id) == slot.(retry := Some(slot.retry.value.(timerSet := false)))
            else RetrySettled(cfg, s, k, w.id, slot.retry.value, s')
  {
    var w := s.flights[k];
    var slot := At(s.st, w.id);
    RoomIs(cfg, s.st, QueuedState(slot), None);
    if Current(slot, w.attempt, w.kind) {
      TailSettles(cfg, s, k, w.id, slot, slot.retry.value, AtCapacity(cfg, s.st, QueuedState(slot), None));
    }
  }

  /** After its fetch a retry goes on with the fetched row if its issue is listed, and is released if not;
      a terminal one is latched and its workspace cleaned. */
  lemma FetchVerdicts(cfg: Config, s: Sys, k: nat, input: Input)
    requires k in s.flights && s.flights[k].FetchDone?
    ensures var w, s' := s.flights[k], Land(cfg, s, k, input);
            var slot := At(s.st, w.id);
            if !Current(slot, w.attempt, w.kind) then k !in s'.flights && At(s'.st, w.id) == slot
            else if w.found.Some? then RetrySettled(cfg, s, k, w.id, slot.retry.value.(issue := w.found.value), s')
            else
              && At(s'.st, w.id) == slot.(claimed := false, claimedIssue := None, blocked := None, retry := None)
              && (w.terminal.None? ==> k !in s'.flights && s'.st.latch == s.st.latch)
              && (w.terminal.Some? && (w.id in s.st.latch.stops || w.id !in s.st.latch.order) ==> w.id in s'.st.latch.stops)
              && (w.terminal.Some? && w.id !in s.st.latch.stops && w.id !in s.st.latch.order ==>
                    s'.st.latch.stops[w.id].issue == slot.retry.value.issue.(state := w.terminal.value))
              && (w.terminal.Some? && Trim(slot.retry.value.workspace) != "" ==>
                    k in s'.flights &&
                    s'.flights[k] == Cleaning(w.id, CleanupRequest(Trim(slot.retry.value.workspace), None), 0, Waiting))
  {
    var w := s.flights[k];
    var slot := At(s.st, w.id);
    if Current(slot, w.attempt, w.kind) && w.found.Some? {
      RoomIs(cfg, s.st, w.found.value.state, None);
      TailSettles(cfg, s, k, w.id, WithFound(slot, w.found.value), slot.retry.value.(issue := w.found.value),
                  AtCapacity(cfg, s.st, w.found.value.state, None));
    }
  }

  // ---------------------------------------------------------------------------------------------
  // Whole runs

  /** The event asks for a worker. */
  predicate AsksForWorker(s: Sys, s': Sys, k: nat) {
    k in s'.flights && s'.flights[k].Spawning? && (k in s.flights ==> !s.flights[k].Spawning?)
  }

  lemma DispatchFits(cfg: Config, s: Sys, issue: Issue, attempt: Option<int>, rechecked: bool, k: nat)
    requires AsksForWorker(s, SettleNew(s, issue.id, DispatchAt(cfg, s, issue, attempt, rechecked).out), k)
    ensures var s' := SettleNew(s, issue.id, DispatchAt(cfg, s, issue, attempt, rechecked).out);
            WithinLimits(cfg, s'.st, s'.flights[k].spawn.issue.state)
  {
    var d := DispatchAt(cfg, s, issue, attempt, rechecked);
    DispatchVerdicts(cfg, s, issue, attempt, rechecked);
    OneMoreFits(cfg, s.st, issue.state, issue.id, Own(At(s.st, issue.id), issue.id), d.out.slot, d.out.latch);
  }

  /** A settled retry that asks for a worker had room. */
  lemma RetryFits(cfg: Config, s: Sys, k: nat, id: IssueId, entry: RetryEntry, out: Outcome)
    requires RetrySettled(cfg, s, k, id, entry, Settle(s, id, out, k)) && AsksForWorker(s, Settle(s, id, out, k), k)
    ensures WithinLimits(cfg, Settle(s, id, out, k).st, Settle(s, id, out, k).flights[k].spawn.issue.state)
  {
    OneMoreFits(cfg, s.st, entry.issue.state, id, {}, out.slot, out.latch);
  }

  lemma FireFits(cfg: Config, s: Sys, k: nat, input: Input)
    requires k in s.flights && s.flights[k].Fired? && AsksForWorker(s, Land(cfg, s, k, input), k)
    ensures var s' := Land(cfg, s, k, input); WithinLimits(cfg, s'.st, s'.flights[k].spawn.issue.state)
  {
    var w := s.flights[k];
    var slot := At(s.st, w.id);
    FireVerdicts(cfg, s, k, input);
    RetryFits(cfg, s, k, w.id, slot.retry.value,
              Fire(cfg, w.id, slot, s.st.latch, s.clock, w.attempt, w.kind, AtCapacity(cfg, s.st, QueuedState(slot), None)));
  }

  lemma FetchFits(cfg: Config, s: Sys, k: nat, input: Input)
    requires k in s.flights && s.flights[k].FetchDone? && AsksForWorker(s, Land(cfg, s, k, input), k)
    ensures var s' := Land(cfg, s, k, input); WithinLimits(cfg, s'.st, s'.flights[k].spawn.issue.state)
  {
    var w := s.flights[k];
    var slot := At(s.st, w.id);
    FetchVerdicts(cfg, s, k, input);
    RetryFits(cfg, s, k, w.id, slot.retry.value.(issue := w.found.value),
              AfterFetch(cfg, w.id, slot, s.st.latch, s.clock, w.attempt, w.kind, w.found, w.terminal,
                         AtCapacity(cfg, s.st, w.found.value.state, None)));
  }

  lemma ExitAsksForNone(cfg: Config, id: IssueId, slot: Slot, latch: Latch, run: RunEntry, result: WorkerResult)
    ensures !Finalize(cfg, id, slot, latch, run, result).followup.DoSpawn?
  {
  }

  /** Only a fired or fetched retry asks for a worker by landing, and under its own number. */
  lemma LandingAsks(cfg: Config, s: Sys, j: nat, input: Input, k: nat)
    requires j in s.flights && AsksForWorker(s, Land(cfg, s, j, input), k)
    ensures j == k && (s.flights[k].Fired? || s.flights[k].FetchDone?)
  {
    match s.flights[j]
    case Exited(id, detached, result) =>
      var run := if detached.Some? then detached else At(s.st, id).run;
      if run.Some? {
        ExitAsksForNone(cfg, id, At(s.st, id), s.st.latch, run.value, result);
      }
    case _ =>
  }

  /** Observations ask for no worker. */
  lemma OthersAskForNone(cfg: Config, s: Sys, ev: Event, k: nat)
    requires Enabled(s, ev) && !ev.Lands? && !ev.Dispatches?
    ensures !AsksForWorker(s, Apply(cfg, s, ev), k)
  {
  }

  lemma StepFits(cfg: Config, s: Sys, ev: Event, k: nat)
    requires Enabled(s, ev) && AsksForWorker(s, Apply(cfg, s, ev), k)
    ensures var s' := Apply(cfg, s, ev); WithinLimits(cfg, s'.st, s'.flights[k].spawn.issue.state)
  {
    match ev
    case Dispatches(issue, attempt, rechecked) => DispatchFits(cfg, s, issue, attempt, rechecked, k);
    case Lands(j, input) =>
      LandingAsks(cfg, s, j, input, k);
      if s.flights[k].Fired? {
        FireFits(cfg, s, k, input);
      } else {
        FetchFits(cfg, s, k, input);
      }
    case _ => OthersAskForNone(cfg, s, ev, k);
  }

  /** On every run, whenever an event asks for a worker, the issues that then take up agent slots are
      within the global limit, and those in the worker's state are within the limit of that state. */
  lemma SpawnsWithinLimits(cfg: Config, run: seq<Sys>, events: seq<Event>, i: nat, k: nat)
    requires IsRun(cfg, run, events) && i < |events| && AsksForWorker(run[i], run[i + 1], k)
    ensures WithinLimits(cfg, run[i + 1].st, run[i + 1].flights[k].spawn.issue.state)
  {
    assert run[i + 1] == Apply(cfg, run[i], events[i]);
    StepFits(cfg, run[i], events[i], k);
  }
}
