/** The operator-terminal-stop latch over whole runs: how long a latch holds, and that a latched
    issue gets no new worker. */
module ActorLatch {
  import opened Prelude
  import opened ClaimState
  import opened ActorSystem
  import opened ActorSafety

  // ---------------------------------------------------------------------------------------------
  // First in, first out

  /** The map's keys and the insertion order agree, and the cap is kept. */
  ghost predicate LatchOk(cfg: Config, latch: Latch) {
    && (forall id :: id in latch.stops <==> id in latch.order)
    && Distinct(latch.order)
    && (cfg.maxStops > 0 ==> |latch.order| <= cfg.maxStops)
  }

  /** A latch was created, and the oldest one dropped if that exceeded the cap. */
  ghost predicate Created(cfg: Config, a: Latch, b: Latch, id: IssueId) {
    var order := a.order + [id];
    && id !in a.order && b.total == a.total + 1
    && b.order == (if cfg.maxStops > 0 && |order| > cfg.maxStops then order[1..] else order)
    && (forall x :: x in b.stops <==> x in b.order)
  }

  ghost predicate Touched(a: Latch, b: Latch) {
    b.order == a.order && b.total == a.total && b.stops.Keys == a.stops.Keys
  }

  /** All that an operation about id can do to the latch. */
  ghost predicate LatchStep(cfg: Config, a: Latch, b: Latch, id: IssueId) {
    Touched(a, b) || Created(cfg, a, b, id)
  }

  lemma RecordSteps(cfg: Config, latch: Latch, id: IssueId, issue: Issue)
    requires LatchOk(cfg, latch)
    ensures LatchStep(cfg, latch, RecordStop(cfg, latch, id, issue), id)
    ensures LatchOk(cfg, RecordStop(cfg, latch, id, issue))
  {
    if id !in latch.stops {
      var order := latch.order + [id];
      assert order == [order[0]] + order[1..];
      assert forall x :: x in order <==> x in latch.stops || x == id;
      assert Distinct(order);
      assert forall x :: x in order[1..] ==> x != order[0];
    }
  }

  lemma LatchMoves(cfg: Config, s: Sys, ev: Event) returns (id: IssueId)
    requires LatchOk(cfg, s.st.latch) && Enabled(s, ev)
    ensures LatchStep(cfg, s.st.latch, Apply(cfg, s, ev).st.latch, id) && LatchOk(cfg, Apply(cfg, s, ev).st.latch)
  {
    id := IssueId("");
    match ev
    case Lands(k, input) =>
      id := s.flights[k].id;
      LandMoves(cfg, s, k, input);
    case InactiveRunAt(x, row) =>
      id := x;
      RecordSteps(cfg, s.st.latch, x, row);
    case InactiveRetryAt(x, row) =>
      id := x;
      RecordSteps(cfg, s.st.latch, x, row);
    case InactiveBlockedAt(x, row) =>
      id := x;
      RecordSteps(cfg, s.st.latch, x, row);
    case _ =>
  }

  /** An operation about id moves the latch as it may. */
  ghost predicate Moves(cfg: Config, a: Latch, b: Latch, id: IssueId) {
    LatchStep(cfg, a, b, id) && LatchOk(cfg, b)
  }

  /** A finalize leaves the latch alone or records a stop with the state the worker saw. */
  lemma FinalizeRecords(cfg: Config, id: IssueId, slot: Slot, latch: Latch, run: RunEntry, result: WorkerResult)
    ensures var out := Finalize(cfg, id, slot, latch, run, result);
            || out.latch == latch
            || (result.exit.Some? &&
                out.latch == RecordStop(cfg, latch, id, if Blank(result.exit.value.state) then run.issue
                                                        else run.issue.(state := result.exit.value.state)))
  {
  }

  lemma FinalizeMoves(cfg: Config, s: Sys, k: nat)
    requires LatchOk(cfg, s.st.latch) && k in s.flights && s.flights[k].Exited?
    ensures var w := s.flights[k];
            Moves(cfg, s.st.latch, FinalizeStep(cfg, s, k, w.id, w.detached, w.result).st.latch, w.id)
  {
    var w, slot, latch := s.flights[k], At(s.st, s.flights[k].id), s.st.latch;
    var run := if w.detached.Some? then w.detached else slot.run;
    if run.Some? {
      FinalizeRecords(cfg, w.id, slot, latch, run.value, w.result);
      var out := Finalize(cfg, w.id, slot, latch, run.value, w.result);
      assert FinalizeStep(cfg, s, k, w.id, w.detached, w.result).st.latch == out.latch;
      if out.latch != latch {
        RecordSteps(cfg, latch, w.id, if Blank(w.result.exit.value.state) then run.value.issue
                                      else run.value.issue.(state := w.result.exit.value.state));
      }
    }
  }

  lemma AfterFetchMoves(cfg: Config, s: Sys, k: nat)
    requires LatchOk(cfg, s.st.latch) && k in s.flights && s.flights[k].FetchDone?
    ensures var w := s.flights[k];
            Moves(cfg, s.st.latch,
                  AfterFetchStep(cfg, s, k, w.id, w.attempt, w.kind, w.found, w.terminal).st.latch, w.id)
  {
    var w, slot := s.flights[k], At(s.st, s.flights[k].id);
    if slot.retry.Some? && w.terminal.Some? {
      RecordSteps(cfg, s.st.latch, w.id, slot.retry.value.issue.(state := w.terminal.value));
    }
  }

  lemma LandMoves(cfg: Config, s: Sys, k: nat, input: Input)
    requires LatchOk(cfg, s.st.latch) && k in s.flights
    ensures Moves(cfg, s.st.latch, Land(cfg, s, k, input).st.latch, s.flights[k].id)
  {
    if s.flights[k].Exited? {
      FinalizeMoves(cfg, s, k);
    } else if s.flights[k].FetchDone? {
      AfterFetchMoves(cfg, s, k);
    }
  }

  /** The latch on id, made when `age` fewer latches existed, is that far from the end of the order. */
  ghost predicate Aged(cfg: Config, latch: Latch, id: IssueId, age: int) {
    && 0 <= age
    && (cfg.maxStops == 0 || age < cfg.maxStops ==> age < |latch.order| && latch.order[|latch.order| - 1 - age] == id)
    && (cfg.maxStops > 0 && age == cfg.maxStops ==> id !in latch.order)
  }

  lemma {:induction false} RunLatchOk(cfg: Config, run: seq<Sys>, events: seq<Event>, i: nat)
    requires IsRun(cfg, run, events) && i < |run|
    ensures LatchOk(cfg, run[i].st.latch)
  {
    if i > 0 {
      RunLatchOk(cfg, run, events, i - 1);
      var _ := LatchMoves(cfg, run[i - 1], events[i - 1]);
    }
  }

  /** The latch as it passes through the states of a run. */
  ghost predicate LatchRun(cfg: Config, latches: seq<Latch>) {
    forall i, j :: 0 <= i < |latches| && 0 <= j < |latches| && j == i + 1 ==> OneStep(cfg, latches[i], latches[j])
  }

  ghost predicate OneStep(cfg: Config, a: Latch, b: Latch) {
    LatchOk(cfg, a) && LatchOk(cfg, b) && exists x :: LatchStep(cfg, a, b, x)
  }

  /** The latch on id, made when there were `born` latches, has aged as it should. */
  ghost predicate AgedSince(cfg: Config, latch: Latch, id: IssueId, born: nat) {
    Aged(cfg, latch, id, latch.total - born)
  }

  lemma Ages(cfg: Config, latches: seq<Latch>, id: IssueId, j: nat, born: nat)
    requires LatchRun(cfg, latches) && 0 < j < |latches| && AgedSince(cfg, latches[j - 1], id, born)
    ensures AgedSince(cfg, latches[j], id, born)
  {
  }

  lemma IsBorn(cfg: Config, latches: seq<Latch>, id: IssueId, i: nat)
    requires LatchRun(cfg, latches) && i + 1 < |latches| && id !in latches[i].stops && id in latches[i + 1].stops
    ensures AgedSince(cfg, latches[i + 1], id, latches[i + 1].total)
  {
  }

  lemma {:induction false} LatchAges(cfg: Config, latches: seq<Latch>, id: IssueId, i: nat, j: nat)
    requires LatchRun(cfg, latches) && i < j < |latches|
    requires id !in latches[i].stops && id in latches[i + 1].stops
    ensures AgedSince(cfg, latches[j], id, latches[i + 1].total)
  {
    if j == i + 1 {
      IsBorn(cfg, latches, id, i);
    } else {
      LatchAges(cfg, latches, id, i, j - 1);
      Ages(cfg, latches, id, j, latches[i + 1].total);
    }
  }

  function Latches(run: seq<Sys>): seq<Latch> {
    seq(|run|, i requires 0 <= i < |run| => run[i].st.latch)
  }

  lemma RunsLatch(cfg: Config, run: seq<Sys>, events: seq<Event>)
    requires IsRun(cfg, run, events)
    ensures LatchRun(cfg, Latches(run))
  {
    var latches := Latches(run);
    forall i, j | 0 <= i < |latches| && 0 <= j < |latches| && j == i + 1 ensures OneStep(cfg, latches[i], latches[j]) {
      RunLatchOk(cfg, run, events, i);
      var x := LatchMoves(cfg, run[i], events[i]);
    }
  }

  /** A latch made at event i holds until exactly maxStops later latches have been made, and is gone
      then; a cap of zero means for ever. The keys and the insertion order agree throughout. */
  lemma LatchLasts(cfg: Config, run: seq<Sys>, events: seq<Event>, id: IssueId, i: nat, j: nat)
    requires IsRun(cfg, run, events) && i < j < |run|
    requires id !in run[i].st.latch.stops && id in run[i + 1].st.latch.stops
    ensures LatchOk(cfg, run[j].st.latch)
    ensures var later := run[j].st.latch.total - run[i + 1].st.latch.total;
            && 0 <= later
            && (cfg.maxStops == 0 || later < cfg.maxStops ==> id in run[j].st.latch.stops)
            && (cfg.maxStops > 0 && later == cfg.maxStops ==> id !in run[j].st.latch.stops)
  {
    RunsLatch(cfg, run, events);
    var latches := Latches(run);
    assert latches[i] == run[i].st.latch && latches[i + 1] == run[i + 1].st.latch && latches[j] == run[j].st.latch;
    LatchAges(cfg, latches, id, i, j);
    RunLatchOk(cfg, run, events, j);
  }

  // ---------------------------------------------------------------------------------------------
  // A latched issue gets no new worker

  /** Nothing in flight is about to start a worker on a latched issue. */
  predicate Quiet(s: Sys) {
    forall k :: k in s.flights && s.flights[k].Spawning? ==> s.flights[k].id !in s.st.latch.stops
  }

  /** A step about x: the latch moves only on x, only while something holds x, and a spawn it starts
      is not for a latched issue. */
  ghost predicate QuietStep(s: Sys, s': Sys, x: IssueId) {
    && (forall y :: y in s'.st.latch.stops ==> y in s.st.latch.stops || (y == x && Held(At(s.st, x))))
    && (forall k :: k in s'.flights && s'.flights[k].Spawning? ==>
          (k in s.flights && s.flights[k] == s'.flights[k]) || s'.flights[k].id !in s'.st.latch.stops)
  }

  lemma QuietKept(cfg: Config, s: Sys, s': Sys, x: IssueId)
    requires Inv(cfg, s) && Quiet(s) && QuietStep(s, s', x)
    ensures Quiet(s')
  {
    forall k | k in s'.flights && s'.flights[k].Spawning? ensures s'.flights[k].id !in s'.st.latch.stops {
      if k in s.flights && s.flights[k] == s'.flights[k] {
        var y := s.flights[k].id;
        assert IdInv(s, y) && Of(s, k, y) && FlightOk(At(s.st, y), k, s.flights[k]);
      }
    }
  }

  /** The same, said of an operation's outcome. */
  ghost predicate QuietOutcome(slot: Slot, latch: Latch, out: Outcome, x: IssueId) {
    && (forall y :: y in out.latch.stops ==> y in latch.stops || (y == x && Held(slot)))
    && (out.followup.DoSpawn? ==> x !in out.latch.stops)
  }

  lemma SettleQuiet(s: Sys, x: IssueId, out: Outcome, k: nat)
    requires QuietOutcome(At(s.st, x), s.st.latch, out, x)
    ensures QuietStep(s, Settle(s, x, out, k), x)
  {
  }

  lemma FinalizeQuiet(cfg: Config, s: Sys, k: nat)
    requires Inv(cfg, s) && k in s.flights && s.flights[k].Exited?
    ensures var w := s.flights[k];
            QuietStep(s, FinalizeStep(cfg, s, k, w.id, w.detached, w.result), w.id)
  {
    var w, latch := s.flights[k], s.st.latch;
    var x, slot := w.id, At(s.st, w.id);
    assert IdInv(s, x) && Of(s, k, x) && FlightOk(slot, k, w);
    FinalizeRecords(cfg, x, slot, latch, slot.run.value, w.result);
    FinalizeShape(cfg, x, slot, latch, slot.run.value, w.result);
    SettleQuiet(s, x, Finalize(cfg, x, slot, latch, slot.run.value, w.result), k);
  }

  lemma FireQuiet(cfg: Config, s: Sys, k: nat)
    requires k in s.flights && s.flights[k].Fired?
    ensures var w := s.flights[k];
            QuietStep(s, FireStep(cfg, s, k, w.id, w.attempt, w.kind), w.id)
  {
  }

  lemma AfterFetchQuiet(cfg: Config, s: Sys, k: nat)
    requires k in s.flights && s.flights[k].FetchDone?
    ensures var w := s.flights[k];
            QuietStep(s, AfterFetchStep(cfg, s, k, w.id, w.attempt, w.kind, w.found, w.terminal), w.id)
  {
  }

  lemma CleanupQuiet(cfg: Config, s: Sys, k: nat, verdict: Verdict)
    requires k in s.flights && s.flights[k].Cleaning?
    ensures QuietStep(s, CleanupStep(cfg, s, k, verdict), s.flights[k].id)
  {
  }

  lemma RegisterQuiet(s: Sys, k: nat)
    requires k in s.flights && s.flights[k].Spawning?
    ensures QuietStep(s, RegisterStep(s, k, s.flights[k].id, s.flights[k].spawn), s.flights[k].id)
  {
  }

  lemma LandQuiet(cfg: Config, s: Sys, k: nat, input: Input)
    requires Inv(cfg, s) && k in s.flights
    ensures QuietStep(s, Land(cfg, s, k, input), s.flights[k].id)
  {
    var w := s.flights[k];
    match w
    case Exited(_, _, _) => FinalizeQuiet(cfg, s, k);
    case Fired(_, _, _) => FireQuiet(cfg, s, k);
    case FetchDone(_, _, _, _, _) => AfterFetchQuiet(cfg, s, k);
    case FetchError(_, attempt, kind) =>
      SettleQuiet(s, w.id, PollFailed(At(s.st, w.id), s.st.latch, s.clock, attempt, kind), k);
    case Spawning(_, _) => RegisterQuiet(s, k);
    case Cleaning(_, _, _, _) => CleanupQuiet(cfg, s, k, RecheckVerdict(cfg, input.lookup));
    case _ =>
  }

  lemma SettleNewQuiet(cfg: Config, s: Sys, x: IssueId, out: Outcome)
    requires Inv(cfg, s) && Quiet(s) && QuietOutcome(At(s.st, x), s.st.latch, out, x)
    ensures Quiet(SettleNew(s, x, out))
  {
    SettleQuiet(s, x, out, s.next);
    QuietKept(cfg, s, SettleNew(s, x, out), x);
  }

  lemma StepQuiet(cfg: Config, s: Sys, ev: Event)
    requires Inv(cfg, s) && Quiet(s) && Enabled(s, ev)
    ensures Quiet(Apply(cfg, s, ev))
  {
    match ev
    case Lands(k, input) =>
      LandQuiet(cfg, s, k, input);
      QuietKept(cfg, s, Apply(cfg, s, ev), s.flights[k].id);
    case Dispatches(issue, attempt, rechecked) =>
      SettleNewQuiet(cfg, s, issue.id, DispatchAt(cfg, s, issue, attempt, rechecked).out);
    case InactiveRunAt(id, row) =>
      SettleNewQuiet(cfg, s, id, InactiveRun(cfg, id, At(s.st, id), s.st.latch, row));
    case InactiveRetryAt(id, row) =>
      SettleNewQuiet(cfg, s, id, InactiveRetry(cfg, id, At(s.st, id), s.st.latch, row));
    case InactiveBlockedAt(id, row) =>
      SettleNewQuiet(cfg, s, id, InactiveBlocked(cfg, id, At(s.st, id), s.st.latch, row));
    case _ =>
  }

  lemma {:induction false} RunQuiet(cfg: Config, run: seq<Sys>, events: seq<Event>, i: nat)
    requires IsRun(cfg, run, events) && InOrder(cfg, run, events) && i < |run|
    ensures Quiet(run[i])
  {
    if i > 0 {
      RunQuiet(cfg, run, events, i - 1);
      RunKeeps(cfg, run, events, i - 1);
      StepQuiet(cfg, run[i - 1], events[i - 1]);
    }
  }

  /** After an operator stop is latched at event i, no spawn is pending for the issue, so no worker
      registers for it, in any state before maxStops further latches have been made. */
  lemma LatchedGetsNoWorker(cfg: Config, run: seq<Sys>, events: seq<Event>, id: IssueId, i: nat, j: nat, k: nat)
    requires IsRun(cfg, run, events) && InOrder(cfg, run, events) && i < j < |run|
    requires id !in run[i].st.latch.stops && id in run[i + 1].st.latch.stops
    requires cfg.maxStops == 0 || run[j].st.latch.total - run[i + 1].st.latch.total < cfg.maxStops
    ensures !(Of(run[j], k, id) && run[j].flights[k].Spawning?)
  {
    LatchLasts(cfg, run, events, id, i, j);
    RunQuiet(cfg, run, events, j);
  }
}
