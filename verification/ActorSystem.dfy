/** The orchestrator as a transition system. One actor applies operations to the claim state; every
    other goroutine is an in-flight work item that can take its next step at any moment. */
module ActorSystem {
  import opened Prelude
  import opened Backoff
  import opened ClaimState

  const MAX_CLEANUP_RETRIES: nat := 8

  /** Where a workspace cleanup goroutine stands. Every stage but the first holds the cleaning mark. */
  datatype CleanupStage = Waiting | Verifying | AskingStop | Resuming | Removing | Ending

  /** An in-flight work item. A slot keeps its number while the item moves on: a spawn becomes a
      worker, then a finalize; a reschedule becomes an armed timer, a fire, a fetch, and so on. */
  datatype Work =
    | Spawning(id: IssueId, spawn: SpawnRequest)
    | Working(id: IssueId, detached: Option<RunEntry>)
    | Exited(id: IssueId, detached: Option<RunEntry>, result: WorkerResult)
    | Rescheduling(id: IssueId, reschedule: RescheduleRequest)
    | Armed(id: IssueId, attempt: int, kind: RetryKind, dueAt: int)
    | Fired(id: IssueId, attempt: int, kind: RetryKind)
    | Fetching(id: IssueId, attempt: int, kind: RetryKind)
    | FetchError(id: IssueId, attempt: int, kind: RetryKind)
    | FetchDone(id: IssueId, attempt: int, kind: RetryKind, found: Option<Issue>, terminal: Option<string>)
    | Cleaning(id: IssueId, cleanup: CleanupRequest, pass: nat, stage: CleanupStage)

  datatype Sys = Sys(st: State, flights: map<nat, Work>, next: nat, clock: int)

  const INIT: Sys := Sys(EMPTY, map[], 0, 0)

  /** What the tracker answers when it is asked for one issue's state. */
  datatype Lookup = LookupFailed | NoRow | UnknownRow | AbsentRow | CurrentRow(state: string)

  /** What the deletion-time recheck of a workspace concludes from it. */
  datatype Verdict = Unknown | Terminal | NonTerminal | Absent

  function RecheckVerdict(cfg: Config, answer: Lookup): Verdict {
    if !cfg.hasResolver || cfg.terminalStates == {} then Terminal
    else
      match answer
      case LookupFailed => Unknown
      case NoRow => Unknown
      case UnknownRow => Unknown
      case AbsentRow => Absent
      case CurrentRow(state) =>
        if Blank(state) then Unknown else if IsTerminal(cfg, state) then Terminal else NonTerminal
  }

  datatype FetchOutcome = FetchFailed | FoundActive(state: string) | NotListed(terminal: Option<string>)

  /** Everything the environment decides when an item takes a step. */
  datatype Input = Input(result: WorkerResult, fetch: FetchOutcome, lookup: Lookup)

  datatype Event =
    | Tick(to: int)
    | Dispatches(issue: Issue, attempt: Option<int>, rechecked: bool)
    | Lands(k: nat, input: Input)
    | InactiveRunAt(id: IssueId, row: Issue)
    | InactiveRetryAt(id: IssueId, row: Issue)
    | InactiveBlockedAt(id: IssueId, row: Issue)
    | AbsentRunAt(id: IssueId)
    | AbsentQueuedAt(id: IssueId)
    | Observed(id: IssueId, fact: RunFact)
    | Refreshed(id: IssueId, row: Issue)

  predicate Enabled(s: Sys, ev: Event) {
    match ev
    case Tick(to) => s.clock <= to
    case Lands(k, _) => k in s.flights && (s.flights[k].Armed? ==> s.flights[k].dueAt <= s.clock)
    case InactiveRunAt(id, _) => At(s.st, id).run.Some?
    case InactiveRetryAt(id, _) => At(s.st, id).retry.Some?
    case InactiveBlockedAt(id, _) => At(s.st, id).blocked.Some?
    case AbsentRunAt(id) => At(s.st, id).run.Some?
    case _ => true
  }

  // ---------------------------------------------------------------------------------------------
  // Slots and flights

  function WithSlot(st: State, id: IssueId, slot: Slot): State {
    st.(slots := st.slots[id := slot])
  }

  function StopTimer(flights: map<nat, Work>, stopped: Option<nat>): map<nat, Work> {
    if stopped.Some? && stopped.value in flights && flights[stopped.value].Armed?
    then flights - {stopped.value} else flights
  }

  function Started(id: IssueId, followup: Followup): Option<Work> {
    match followup
    case DoSpawn(r) => Some(Spawning(id, r))
    case DoReschedule(r) => Some(Rescheduling(id, r))
    case DoCleanup(c) => Some(Cleaning(id, c, 0, Waiting))
    case _ => None
  }

  function Put(flights: map<nat, Work>, k: nat, w: Option<Work>): map<nat, Work> {
    if w.Some? then flights[k := w.value] else flights - {k}
  }

  /** The operation's result about id, with its followup started as flight k. */
  function Settle(s: Sys, id: IssueId, out: Outcome, k: nat): Sys {
    s.(st := State(s.st.slots[id := out.slot], out.latch),
       flights := Put(StopTimer(s.flights, out.stopped), k, Started(id, out.followup)))
  }

  /** The same for an operation nobody in flight submitted: its followup takes a new number. */
  function SettleNew(s: Sys, id: IssueId, out: Outcome): Sys {
    Settle(s, id, out, s.next).(next := s.next + 1)
  }

  // ---------------------------------------------------------------------------------------------
  // One step of one in-flight item

  /** A register that overwrites another run leaves the old worker holding a detached entry. */
  function Detach(flights: map<nat, Work>, id: IssueId, run: Option<RunEntry>): map<nat, Work> {
    if run.Some? && run.value.token in flights then
      var w := flights[run.value.token];
      if w.Working? && w.id == id then flights[run.value.token := Working(id, run)]
      else if w.Exited? && w.id == id then flights[run.value.token := Exited(id, run, w.result)]
      else flights
    else flights
  }

  function RegisterStep(s: Sys, k: nat, id: IssueId, r: SpawnRequest): Sys {
    s.(st := WithSlot(s.st, id, Registered(At(s.st, id), k, r)),
       flights := Detach(s.flights, id, At(s.st, id).run)[k := Working(id, None)])
  }

  function FinalizeStep(cfg: Config, s: Sys, k: nat, id: IssueId, detached: Option<RunEntry>, result: WorkerResult)
    : Sys
  {
    var slot := At(s.st, id);
    var run := if detached.Some? then detached else slot.run;
    if run.Some? then Settle(s, id, Finalize(cfg, id, slot, s.st.latch, run.value, result), k)
    else s.(flights := s.flights - {k})
  }

  function ArmedBy(id: IssueId, entry: RetryEntry): Work {
    Armed(id, entry.attempt, entry.kind, entry.dueAt)
  }

  /** A new retry entry replaces an old one, whose timer is stopped; flight k is its timer. */
  function QueueStep(s: Sys, k: nat, id: IssueId, entry: RetryEntry): Sys {
    var slot := At(s.st, id);
    s.(st := WithSlot(s.st, id, Queued(slot, entry)),
       flights := StopTimer(s.flights, TimerOf(slot))[k := ArmedBy(id, entry)])
  }

  /** scheduleRetryOp. */
  function ScheduleStep(cfg: Config, s: Sys, k: nat, id: IssueId, r: RescheduleRequest): Sys {
    QueueStep(s, k, id, NewRetry(cfg, s.clock, k, r))
  }

  function QueuedState(slot: Slot): string {
    if slot.retry.Some? then slot.retry.value.issue.state else ""
  }

  function FireStep(cfg: Config, s: Sys, k: nat, id: IssueId, attempt: int, kind: RetryKind): Sys {
    var slot := At(s.st, id);
    var full := AtCapacity(cfg, s.st, QueuedState(slot), None);
    var out := Fire(cfg, id, slot, s.st.latch, s.clock, attempt, kind, full);
    if out.followup.DoFetch?
    then s.(st := WithSlot(s.st, id, out.slot), flights := s.flights[k := Fetching(id, attempt, kind)])
    else Settle(s, id, out, k)
  }

  function FetchStep(s: Sys, k: nat, id: IssueId, attempt: int, kind: RetryKind, outcome: FetchOutcome): Sys {
    s.(flights := s.flights[k :=
         match outcome
         case FetchFailed => FetchError(id, attempt, kind)
         case FoundActive(state) => FetchDone(id, attempt, kind, Some(Issue(id, state)), None)
         case NotListed(terminal) => FetchDone(id, attempt, kind, None, terminal)])
  }

  function AfterFetchStep(cfg: Config, s: Sys, k: nat, id: IssueId, attempt: int, kind: RetryKind,
                          found: Option<Issue>, terminal: Option<string>): Sys
  {
    var slot := At(s.st, id);
    var full := AtCapacity(cfg, s.st, if found.Some? then found.value.state else "", None);
    Settle(s, id, AfterFetch(cfg, id, slot, s.st.latch, s.clock, attempt, kind, found, terminal, full), k)
  }

  function AtStage(s: Sys, k: nat, stage: CleanupStage): Sys
    requires k in s.flights && s.flights[k].Cleaning?
  {
    s.(flights := s.flights[k := s.flights[k].(stage := stage)])
  }

  /** A failed recheck is tried again by a new goroutine, up to eight times. */
  function RecheckStep(s: Sys, k: nat, verdict: Verdict): Sys
    requires k in s.flights && s.flights[k].Cleaning?
  {
    var w := s.flights[k];
    match verdict
    case Unknown =>
      if w.pass + 1 > MAX_CLEANUP_RETRIES then AtStage(s, k, Ending)
      else
        s.(flights := s.flights[k := w.(stage := Ending)][s.next := w.(pass := w.pass + 1, stage := Waiting)],
           next := s.next + 1)
    case Absent => AtStage(s, k, Ending)
    case NonTerminal => AtStage(s, k, AskingStop)
    case Terminal => AtStage(s, k, Removing)
  }

  function CleanupStep(cfg: Config, s: Sys, k: nat, verdict: Verdict): Sys
    requires k in s.flights && s.flights[k].Cleaning?
  {
    var w := s.flights[k];
    match w.stage
    case Waiting =>
      if cfg.hasCleaner && MayClean(At(s.st, w.id))
      then AtStage(s, k, Verifying).(st := WithSlot(s.st, w.id, At(s.st, w.id).(cleaning := true)))
      else s.(flights := s.flights - {k})
    case Verifying => RecheckStep(s, k, verdict)
    case AskingStop =>
      AtStage(s, k, if w.id !in s.st.latch.stops && w.cleanup.resume.Some? then Resuming else Ending)
    case Resuming =>
      if w.cleanup.resume.None? then AtStage(s, k, Ending)
      else ScheduleStep(cfg, AtStage(s, k, Ending), s.next, w.id, w.cleanup.resume.value).(next := s.next + 1)
    case Removing => AtStage(s, k, Ending)
    case Ending =>
      s.(st := WithSlot(s.st, w.id, At(s.st, w.id).(cleaning := false)), flights := s.flights - {k})
  }

  function Land(cfg: Config, s: Sys, k: nat, input: Input): Sys
    requires k in s.flights
  {
    match s.flights[k]
    case Spawning(id, r) => RegisterStep(s, k, id, r)
    case Working(id, detached) => s.(flights := s.flights[k := Exited(id, detached, input.result)])
    case Exited(id, detached, result) => FinalizeStep(cfg, s, k, id, detached, result)
    case Rescheduling(id, r) => ScheduleStep(cfg, s, k, id, r)
    case Armed(id, attempt, kind, _) => s.(flights := s.flights[k := Fired(id, attempt, kind)])
    case Fired(id, attempt, kind) => FireStep(cfg, s, k, id, attempt, kind)
    case Fetching(id, attempt, kind) => FetchStep(s, k, id, attempt, kind, input.fetch)
    case FetchError(id, attempt, kind) =>
      Settle(s, id, PollFailed(At(s.st, id), s.st.latch, s.clock, attempt, kind), k)
    case FetchDone(id, attempt, kind, found, terminal) =>
      AfterFetchStep(cfg, s, k, id, attempt, kind, found, terminal)
    case Cleaning(_, _, _, _) => CleanupStep(cfg, s, k, RecheckVerdict(cfg, input.lookup))
  }

  function DispatchAt(cfg: Config, s: Sys, issue: Issue, attempt: Option<int>, rechecked: bool): DispatchOutcome {
    var slot := At(s.st, issue.id);
    var full := AtCapacity(cfg, s.st, issue.state, if slot.retry.Some? then Some(issue.id) else None);
    Dispatch(cfg, slot, s.st.latch, s.clock, issue, attempt, rechecked, full)
  }

  function Apply(cfg: Config, s: Sys, ev: Event): Sys
    requires Enabled(s, ev)
  {
    match ev
    case Tick(to) => s.(clock := to)
    case Dispatches(issue, attempt, rechecked) =>
      SettleNew(s, issue.id, DispatchAt(cfg, s, issue, attempt, rechecked).out)
    case Lands(k, input) => Land(cfg, s, k, input)
    case InactiveRunAt(id, row) => SettleNew(s, id, InactiveRun(cfg, id, At(s.st, id), s.st.latch, row))
    case InactiveRetryAt(id, row) => SettleNew(s, id, InactiveRetry(cfg, id, At(s.st, id), s.st.latch, row))
    case InactiveBlockedAt(id, row) => SettleNew(s, id, InactiveBlocked(cfg, id, At(s.st, id), s.st.latch, row))
    case AbsentRunAt(id) => SettleNew(s, id, AbsentRun(At(s.st, id), s.st.latch))
    case AbsentQueuedAt(id) => SettleNew(s, id, AbsentQueued(At(s.st, id), s.st.latch))
    case Observed(id, fact) => s.(st := WithSlot(s.st, id, Observe(At(s.st, id), fact)))
    case Refreshed(id, row) => s.(st := WithSlot(s.st, id, RefreshActive(At(s.st, id), row)))
  }

  /** A run from the empty orchestrator: state i+1 is state i after event i. */
  ghost predicate IsRun(cfg: Config, run: seq<Sys>, events: seq<Event>) {
    |run| == |events| + 1 && run[0] == INIT &&
    forall i {:trigger events[i]} :: 0 <= i < |events| ==> Enabled(run[i], events[i]) && run[i + 1] == Apply(cfg, run[i], events[i])
  }

  // ---------------------------------------------------------------------------------------------
  // The scheduling hypothesis

  /** A poll failure or a full capacity gate left the retry entry queued while the reschedule that
      will replace it is still on its way to the actor. */
  ghost predicate Deferred(s: Sys, id: IssueId) {
    At(s.st, id).retry.Some? &&
    exists k :: k in s.flights && s.flights[k].Rescheduling? && s.flights[k].id == id
  }

  /** A dispatch of the queued retry would only find the capacity gate full. */
  predicate OnlyPostpones(cfg: Config, s: Sys, id: IssueId, state: string) {
    id !in s.st.latch.stops && AtCapacity(cfg, s.st, state, None)
  }

  /** The item is about to release or dispatch a queued retry; to postpone it is neither. */
  predicate SettlesRetry(cfg: Config, s: Sys, w: Work) {
    var slot := At(s.st, w.id);
    || (w.Fired? && !cfg.hasLister && w.kind != Continuation && Matches(slot, w.attempt, w.kind) &&
        !OnlyPostpones(cfg, s, w.id, QueuedState(slot)))
    || (w.FetchDone? && Matches(slot, w.attempt, w.kind) &&
        (w.found.None? || !OnlyPostpones(cfg, s, w.id, w.found.value.state)))
  }

  /** The event releases a queued retry or dispatches it while a postponement of the same issue is
      still in flight. */
  ghost predicate Overtakes(cfg: Config, s: Sys, ev: Event)
    requires Enabled(s, ev)
  {
    match ev
    case InactiveRetryAt(id, _) => Deferred(s, id)
    case Lands(k, _) => SettlesRetry(cfg, s, s.flights[k]) && Deferred(s, s.flights[k].id)
    case _ => false
  }

  /** The scheduling hypothesis: no event of the run overtakes a deferred reschedule. */
  ghost predicate InOrder(cfg: Config, run: seq<Sys>, events: seq<Event>)
    requires IsRun(cfg, run, events)
  {
    forall i {:trigger events[i]} :: 0 <= i < |events| ==> !Overtakes(cfg, run[i], events[i])
  }
}
