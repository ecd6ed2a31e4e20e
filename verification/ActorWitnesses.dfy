/** Three runs that show where the guarantees end. In the first, under a limit of one agent,
    reconciliation releases a retry whose postponement is still in flight, and two workers end up on
    one issue: the scheduling hypothesis is needed. In the second, an issue stays claimed by a
    continuation that no poll may dispatch, because an operator stop is latched for it. In the third, a
    retry is taken up before it is due by the timer of an earlier one. */
module ActorWitnesses {
  import opened Prelude
  import opened Backoff
  import opened ClaimState
  import opened ActorSystem
  import opened ActorSafety
  import opened ActorRuns

  const CFG: Config := Config(1, map[], 0, 0, {}, 0, true, true, true)
  const ID: IssueId := IssueId("1")
  const ISSUE: Issue := Issue(ID, "todo")
  const PAUSED: Issue := Issue(ID, "paused")

  const FAILS: Input := Input(WorkerResult(OtherError, false, None), FetchFailed, LookupFailed)
  const LISTED: Input := FAILS.(fetch := FoundActive("todo"))

  const FRESH: SpawnRequest := SpawnRequest(ISSUE, None, 0, 0, 0, "")
  const AGAIN: SpawnRequest := SpawnRequest(ISSUE, Some(2), 0, 0, 0, "")
  const CLAIMED: Slot := Claiming(FREE, ISSUE)

  function Retry(attempt: int): RescheduleRequest {
    RescheduleRequest(ISSUE, RetryRequest(Failure, attempt, 0), 0, "")
  }

  function Entry(attempt: int, dueAt: int, timerSet: bool): RetryEntry {
    RetryEntry(0, ISSUE, Failure, attempt, dueAt, None, timerSet, 0, "")
  }

  /** An orchestrator that has only ever seen this issue. */
  function One(slot: Slot, flights: map<nat, Work>, next: nat, clock: int): Sys {
    Sys(State(map[ID := slot], Latch(map[], [], 0)), flights, next, clock)
  }

  lemma OneCounts(s: Sys)
    requires s == INIT || s == One(At(s.st, ID), s.flights, s.next, s.clock)
    ensures forall state, excluded :: AtCapacity(CFG, s.st, state, excluded) <==> Counts(At(s.st, ID))
  {
    assert Counted(s.st) == if Counts(At(s.st, ID)) then {ID} else {};
  }

  /** The slot of a queued retry, with its timer armed or not. */
  function Waits(attempt: int, dueAt: int, timerSet: bool): Slot {
    CLAIMED.(retry := Some(Entry(attempt, dueAt, timerSet)))
  }

  function Runs(slot: Slot, token: nat): Slot {
    slot.(run := Some(NewRun(token, FRESH)))
  }

  const LATE: int := 10 * SECOND
  const LATER: int := 30 * SECOND

  /** The first worker fails, and its retry cannot list the candidates; reconciliation then finds
      the issue inactive (event 10) while the postponed retry is still on its way. */
  function First(i: nat): Sys
    requires i <= 11
  {
    match i
    case 0 => INIT
    case 1 => One(CLAIMED, map[0 := Spawning(ID, FRESH)], 1, 0)
    case 2 => One(Runs(CLAIMED, 0), map[0 := Working(ID, None)], 1, 0)
    case 3 => One(Runs(CLAIMED, 0), map[0 := Exited(ID, None, FAILS.result)], 1, 0)
    case 4 => One(CLAIMED, map[0 := Rescheduling(ID, Retry(1))], 1, 0)
    case 5 => One(Waits(1, LATE, true), map[0 := Armed(ID, 1, Failure, LATE)], 1, 0)
    case 6 => One(Waits(1, LATE, true), map[0 := Armed(ID, 1, Failure, LATE)], 1, LATE)
    case 7 => One(Waits(1, LATE, true), map[0 := Fired(ID, 1, Failure)], 1, LATE)
    case 8 => One(Waits(1, LATE, false), map[0 := Fetching(ID, 1, Failure)], 1, LATE)
    case 9 => One(Waits(1, LATE, false), map[0 := FetchError(ID, 1, Failure)], 1, LATE)
    case 10 => One(Waits(1, LATE, false), map[0 := Rescheduling(ID, Retry(2))], 1, LATE)
    case _ => One(FREE, map[0 := Rescheduling(ID, Retry(2))], 2, LATE)
  }

  /** The issue is active again and dispatched afresh; then the postponed retry arrives, fires, and
      is not counted against the limit because its issue is queued. */
  function Second(i: nat): Sys
    requires i <= 9
  {
    match i
    case 0 => First(11)
    case 1 => One(CLAIMED, map[0 := Rescheduling(ID, Retry(2)), 2 := Spawning(ID, FRESH)], 3, LATE)
    case 2 => One(Runs(CLAIMED, 2), map[0 := Rescheduling(ID, Retry(2)), 2 := Working(ID, None)], 3, LATE)
    case 3 =>
      One(Runs(Waits(2, LATER, true), 2), map[0 := Armed(ID, 2, Failure, LATER), 2 := Working(ID, None)], 3, LATE)
    case 4 =>
      One(Runs(Waits(2, LATER, true), 2), map[0 := Armed(ID, 2, Failure, LATER), 2 := Working(ID, None)], 3, LATER)
    case 5 => One(Runs(Waits(2, LATER, true), 2), map[0 := Fired(ID, 2, Failure), 2 := Working(ID, None)], 3, LATER)
    case 6 => One(Runs(Waits(2, LATER, false), 2), map[0 := Fetching(ID, 2, Failure), 2 := Working(ID, None)], 3, LATER)
    case 7 =>
      One(Runs(Waits(2, LATER, false), 2),
          map[0 := FetchDone(ID, 2, Failure, Some(ISSUE), None), 2 := Working(ID, None)], 3, LATER)
    case 8 => One(Runs(CLAIMED, 2), map[0 := Spawning(ID, AGAIN), 2 := Working(ID, None)], 3, LATER)
    case _ =>
      One(CLAIMED.(run := Some(NewRun(0, AGAIN))),
          map[0 := Working(ID, None), 2 := Working(ID, Some(NewRun(2, FRESH)))], 3, LATER)
  }

  function Whole(i: nat): Sys
    requires i <= 20
  {
    if i <= 11 then First(i) else Second(i - 11)
  }

  function Script(i: nat): Event
    requires i < 20
  {
    if i == 0 || i == 11 then Dispatches(ISSUE, None, false)
    else if i == 5 then Tick(LATE)
    else if i == 10 then InactiveRetryAt(ID, PAUSED)
    else if i == 12 then Lands(2, FAILS)
    else if i == 14 then Tick(LATER)
    else if i == 17 then Lands(0, LISTED)
    else Lands(0, FAILS)
  }

  predicate Follows(s: Sys, ev: Event, s': Sys) {
    Enabled(s, ev) && Apply(CFG, s, ev) == s'
  }

  lemma FirstFails(i: nat)
    requires i < 4
    ensures Follows(First(i), Script(i), First(i + 1))
  {
  }

  lemma FirstWaits(i: nat)
    requires 4 <= i < 8
    ensures Follows(First(i), Script(i), First(i + 1))
  {
    assert Delay(0, RetryRequest(Failure, 1, 0)) == LATE;
  }

  lemma FirstIsReleased(i: nat)
    requires 8 <= i < 11
    ensures Follows(First(i), Script(i), First(i + 1))
  {
  }

  lemma SecondBegins(i: nat)
    requires i < 4
    ensures Follows(Second(i), Script(11 + i), Second(i + 1))
  {
    if i == 0 {
      OneCounts(Second(0));
    } else if i == 2 {
      SecondQueues();
    }
  }

  lemma SecondQueues()
    ensures Follows(Second(2), Script(13), Second(3))
  {
    assert Pow2(1) == 2 * Pow2(0);
    assert Delay(0, RetryRequest(Failure, 2, 0)) == 2 * LATE;
  }

  lemma SecondFires(i: nat)
    requires 4 <= i < 7
    ensures Follows(Second(i), Script(11 + i), Second(i + 1))
  {
  }

  lemma FetchSpawns(latch: Latch)
    requires latch.stops == map[]
    ensures AfterFetch(CFG, ID, Runs(Waits(2, LATER, false), 2), latch, LATER, 2, Failure, Some(ISSUE), None, false) ==
            Outcome(Runs(CLAIMED, 2), latch, DoSpawn(AGAIN), None)
  {
  }

  lemma SpawnSettles()
    ensures Settle(Second(7), ID, Outcome(Runs(CLAIMED, 2), Second(7).st.latch, DoSpawn(AGAIN), None), 0) == Second(8)
  {
  }

  lemma SecondSpawns()
    ensures Follows(Second(7), Script(18), Second(8))
  {
    var s := Second(7);
    OneCounts(s);
    FetchSpawns(s.st.latch);
    assert Land(CFG, s, 0, FAILS) == Settle(s, ID, Outcome(Runs(CLAIMED, 2), s.st.latch, DoSpawn(AGAIN), None), 0);
    SpawnSettles();
  }

  lemma SecondRegisters()
    ensures Follows(Second(8), Script(19), Second(9))
  {
  }

  lemma ScriptFollows(i: nat)
    requires i < 20
    ensures Follows(Whole(i), Script(i), Whole(i + 1))
    ensures Overtakes(CFG, Whole(i), Script(i)) <==> i == 10
  {
    if i < 4 {
      FirstFails(i);
    } else if i < 8 {
      FirstWaits(i);
    } else if i < 11 {
      FirstIsReleased(i);
    } else if i < 15 {
      SecondBegins(i - 11);
    } else if i < 18 {
      SecondFires(i - 11);
    } else if i == 18 {
      SecondSpawns();
    } else {
      SecondRegisters();
    }
    OvertakesOnce(i);
  }

  lemma OvertakesOnce(i: nat)
    requires i < 20 && Enabled(Whole(i), Script(i))
    ensures Overtakes(CFG, Whole(i), Script(i)) <==> i == 10
  {
    if i == 10 {
      assert Whole(10).flights[0].Rescheduling?;
    }
  }

  /** With one agent allowed, this run ends with two live workers on the same issue: its only event
      outside the hypothesis is the release at event 10. */
  lemma OvertakingRun() returns (run: seq<Sys>, events: seq<Event>)
    ensures IsRun(CFG, run, events) && CFG.maxAgents == 1
    ensures forall i :: 0 <= i < |events| ==> (Overtakes(CFG, run[i], events[i]) <==> i == 10)
    ensures |events| == 20 && !OneWorker(run[20], ID) && |LiveWorkers(run[20])| == 2
  {
    run := seq(21, i requires 0 <= i < 21 => Whole(i));
    events := seq(20, i requires 0 <= i < 20 => Script(i));
    forall i | 0 <= i < 20
      ensures Follows(run[i], events[i], run[i + 1]) && (Overtakes(CFG, run[i], events[i]) <==> i == 10)
    {
      ScriptFollows(i);
    }
    TwoWorkers();
  }

  lemma TwoWorkers()
    ensures !OneWorker(Whole(20), ID) && |LiveWorkers(Whole(20))| == 2
  {
    var s := Whole(20);
    assert Of(s, 0, ID) && Of(s, 2, ID);
    assert LiveWorkers(s) == {0, 2};
  }

  // ---------------------------------------------------------------------------------------------
  // A claim behind a latch

  const WITH_DONE: Config := CFG.(terminalStates := {"done"})
  const DONE: Issue := Issue(ID, "done")
  const CLEAN: Input := FAILS.(result := WorkerResult(NoError, false, None))

  function Latched(slot: Slot, flights: map<nat, Work>, next: nat, clock: int): Sys {
    Sys(State(map[ID := slot], Latch(map[ID := StopEntry(DONE, 0)], [ID], 1)), flights, next, clock)
  }

  const STOPPED: RunEntry := NewRun(0, FRESH).(issue := DONE, reconcileCleanup := true, reconcileCancel := true)
  const RESUME: RescheduleRequest := RescheduleRequest(DONE, RetryRequest(Continuation, 1, 0), 1, "")
  const QUEUED: Slot :=
    Claiming(FREE, DONE).(retry := Some(RetryEntry(0, DONE, Continuation, 1, SECOND, None, true, 1, "")))

  /** The issue is found terminal while its worker runs; the worker then exits cleanly without having
      completed a turn, and its continuation is queued. */
  function Behind(i: nat): Sys
    requires i <= 7
  {
    match i
    case 0 => INIT
    case 1 => First(1)
    case 2 => First(2)
    case 3 => Latched(FREE.(run := Some(STOPPED)), map[0 := Working(ID, None)], 2, 0)
    case 4 => Latched(FREE.(run := Some(STOPPED)), map[0 := Exited(ID, None, CLEAN.result)], 2, 0)
    case 5 => Latched(Claiming(FREE, DONE), map[0 := Rescheduling(ID, RESUME)], 2, 0)
    case 6 => Latched(QUEUED, map[0 := Armed(ID, 1, Continuation, SECOND)], 2, 0)
    case _ => Latched(QUEUED, map[0 := Armed(ID, 1, Continuation, SECOND)], 2, SECOND)
  }

  function BehindScript(i: nat): Event
    requires i < 7
  {
    if i == 0 then Dispatches(ISSUE, None, false)
    else if i == 2 then InactiveRunAt(ID, DONE)
    else if i == 6 then Tick(SECOND)
    else Lands(0, CLEAN)
  }

  lemma DoneIsTerminal()
    ensures IsTerminal(WITH_DONE, "done") && !Blank("done")
  {
    assert Trim("done") == "done";
    assert Lower("done") == "done";
  }

  predicate Next(i: nat)
    requires i < 7
  {
    Enabled(Behind(i), BehindScript(i)) && Apply(WITH_DONE, Behind(i), BehindScript(i)) == Behind(i + 1)
  }

  lemma BehindStarts(i: nat)
    requires i < 2
    ensures Next(i)
  {
  }

  lemma BehindStops()
    ensures Next(2)
  {
    DoneIsTerminal();
  }

  lemma BehindExits(i: nat)
    requires 3 <= i < 5
    ensures Next(i)
  {
  }

  lemma BehindQueues(i: nat)
    requires 5 <= i < 7
    ensures Next(i)
  {
  }

  /** The run is in order, and ends with a claimed issue whose due continuation no poll can dispatch. */
  lemma ClaimBehindLatch() returns (run: seq<Sys>, events: seq<Event>)
    ensures IsRun(WITH_DONE, run, events) && InOrder(WITH_DONE, run, events) && |events| == 7
    ensures At(run[7].st, ID) == QUEUED && QUEUED.claimed && IsDue(QUEUED.retry.value, run[7].clock)
    ensures forall issue: Issue, attempt | issue.id == ID ::
              DispatchAt(WITH_DONE, run[7], issue, attempt, true).verdict == NotDispatched &&
              DispatchAt(WITH_DONE, run[7], issue, attempt, true).out.slot == At(run[7].st, ID)
  {
    run := seq(8, i requires 0 <= i < 8 => Behind(i));
    events := seq(7, i requires 0 <= i < 7 => BehindScript(i));
    forall i | 0 <= i < 7
      ensures Enabled(run[i], events[i]) && run[i + 1] == Apply(WITH_DONE, run[i], events[i])
    {
      if i < 2 {
        BehindStarts(i);
      } else if i == 2 {
        BehindStops();
      } else if i < 5 {
        BehindExits(i);
      } else {
        BehindQueues(i);
      }
      assert Next(i);
    }
    forall i | 0 <= i < 7 ensures !Overtakes(WITH_DONE, run[i], events[i]) {
      assert events[i].Lands? ==> !run[i].flights[0].Fired? && !run[i].flights[0].FetchError? && !run[i].flights[0].FetchDone?;
    }
  }

  // ---------------------------------------------------------------------------------------------
  // A retry before its time

  const UNLISTED: Config := CFG.(hasLister := false)
  const SOON: SpawnRequest := SpawnRequest(ISSUE, Some(1), 0, 0, 0, "")

  /** The timer of a retry has fired, but before its op arrives reconciliation releases the entry; the issue
      is dispatched again, fails again, and a second entry with the same attempt is queued. */
  function Early(i: nat): Sys
    requires i <= 14
  {
    if i <= 7 then First(i)
    else
      match i
      case 8 => One(FREE, map[0 := Fired(ID, 1, Failure)], 2, LATE)
      case 9 => One(CLAIMED, map[0 := Fired(ID, 1, Failure), 2 := Spawning(ID, FRESH)], 3, LATE)
      case 10 => One(Runs(CLAIMED, 2), map[0 := Fired(ID, 1, Failure), 2 := Working(ID, None)], 3, LATE)
      case 11 => One(Runs(CLAIMED, 2), map[0 := Fired(ID, 1, Failure), 2 := Exited(ID, None, FAILS.result)], 3, LATE)
      case 12 => One(CLAIMED, map[0 := Fired(ID, 1, Failure), 2 := Rescheduling(ID, Retry(1))], 3, LATE)
      case 13 =>
        One(CLAIMED.(retry := Some(Entry(1, 2 * LATE, true).(serial := 2))),
            map[0 := Fired(ID, 1, Failure), 2 := Armed(ID, 1, Failure, 2 * LATE)], 3, LATE)
      case _ => One(CLAIMED, map[0 := Spawning(ID, SOON), 2 := Armed(ID, 1, Failure, 2 * LATE)], 3, LATE)
  }

  function EarlyScript(i: nat): Event
    requires i < 14
  {
    if i == 0 || i == 8 then Dispatches(ISSUE, None, false)
    else if i == 5 then Tick(LATE)
    else if i == 7 then InactiveRetryAt(ID, PAUSED)
    else if 9 <= i <= 12 then Lands(2, FAILS)
    else Lands(0, FAILS)
  }

  predicate EarlyNext(i: nat)
    requires i < 14
  {
    Enabled(Early(i), EarlyScript(i)) && Apply(UNLISTED, Early(i), EarlyScript(i)) == Early(i + 1)
  }

  lemma UnlistedCounts(s: Sys)
    requires s == INIT || s == One(At(s.st, ID), s.flights, s.next, s.clock)
    ensures forall state, excluded :: AtCapacity(UNLISTED, s.st, state, excluded) <==> Counts(At(s.st, ID))
  {
    assert Counted(s.st) == if Counts(At(s.st, ID)) then {ID} else {};
  }

  lemma EarlyFails(i: nat)
    requires i < 4
    ensures EarlyNext(i)
  {
    UnlistedCounts(INIT);
  }

  lemma EarlyWaits(i: nat)
    requires 4 <= i < 8
    ensures EarlyNext(i)
  {
    if i == 4 {
      EarlyQueues();
    }
  }

  lemma EarlyQueues()
    ensures EarlyNext(4)
  {
    assert Delay(0, RetryRequest(Failure, 1, 0)) == LATE;
  }

  lemma EarlyAgain(i: nat)
    requires 8 <= i < 12
    ensures EarlyNext(i)
  {
    if i == 8 {
      UnlistedCounts(Early(8));
    }
  }

  lemma EarlyQueued()
    ensures EarlyNext(12)
  {
    assert Delay(0, RetryRequest(Failure, 1, 0)) == LATE;
  }

  lemma EarlyTakenUp()
    ensures EarlyNext(13)
  {
    UnlistedCounts(Early(13));
  }

  lemma EarlyInOrder(i: nat)
    requires i < 14 && EarlyNext(i)
    ensures !Overtakes(UNLISTED, Early(i), EarlyScript(i))
  {
    if i == 13 {
      assert !Deferred(Early(13), ID);
    }
  }

  lemma EarlyFollows(i: nat)
    requires i < 14
    ensures EarlyNext(i) && !Overtakes(UNLISTED, Early(i), EarlyScript(i))
  {
    if i < 4 {
      EarlyFails(i);
    } else if i < 8 {
      EarlyWaits(i);
    } else if i < 12 {
      EarlyAgain(i);
    } else if i == 12 {
      EarlyQueued();
    } else {
      EarlyTakenUp();
    }
    EarlyInOrder(i);
  }

  lemma EarlyEnds()
    ensures At(Early(13).st, ID).retry.Some? && At(Early(13).st, ID).retry.value.dueAt == Early(13).clock + 10 * SECOND
    ensures 0 in Early(14).flights && Early(14).flights[0].Spawning? && Early(14).clock == Early(13).clock
  {
  }

  /** An in-order run in which a retry is taken up ten seconds before it is due, by the fired timer of an
      earlier entry with the same attempt. */
  lemma EarlyRetryRun() returns (run: seq<Sys>, events: seq<Event>)
    ensures IsRun(UNLISTED, run, events) && InOrder(UNLISTED, run, events) && |events| == 14
    ensures At(run[13].st, ID).retry.Some? && At(run[13].st, ID).retry.value.dueAt == run[13].clock + 10 * SECOND
    ensures 0 in run[14].flights && run[14].flights[0].Spawning? && run[14].clock == run[13].clock
  {
    run := seq(15, i requires 0 <= i < 15 => Early(i));
    events := seq(14, i requires 0 <= i < 14 => EarlyScript(i));
    forall i | 0 <= i < 14
      ensures Enabled(run[i], events[i]) && run[i + 1] == Apply(UNLISTED, run[i], events[i]) && !Overtakes(UNLISTED, run[i], events[i])
    {
      EarlyFollows(i);
    }
    EarlyEnds();
  }
}
