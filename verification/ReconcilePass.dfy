/** The reconcile ops walk whole maps in one actor turn, in no fixed order. Here a pass is described
    by the issues it settled, the order it met them in, the cleanups it asks for and the timers it
    stops. */
module ReconcilePass {
  import opened Prelude
  import opened ClaimState
  import opened ActorSystem

  /** What the inactive pass does to one issue: its run, else its queued retry, else its block. */
  function InactiveOutcome(cfg: Config, id: IssueId, slot: Slot, latch: Latch, row: Issue): Outcome {
    if slot.run.Some? then InactiveRun(cfg, id, slot, latch, row)
    else if slot.retry.Some? then InactiveRetry(cfg, id, slot, latch, row)
    else if slot.blocked.Some? then InactiveBlocked(cfg, id, slot, latch, row)
    else Unchanged(slot, latch)
  }

  function InactiveEvent(slot: Slot, id: IssueId, row: Issue): Event {
    if slot.run.Some? then InactiveRunAt(id, row)
    else if slot.retry.Some? then InactiveRetryAt(id, row)
    else InactiveBlockedAt(id, row)
  }

  function AbsentOutcome(slot: Slot, latch: Latch): Outcome {
    if slot.run.Some? then AbsentRun(slot, latch) else AbsentQueued(slot, latch)
  }

  function AbsentEvent(slot: Slot, id: IssueId): Event {
    if slot.run.Some? then AbsentRunAt(id) else AbsentQueuedAt(id)
  }

  /** The latch after the pass met these issues in this order. */
  function PassLatch(cfg: Config, before: State, rows: map<IssueId, Issue>, order: seq<IssueId>): Latch
    requires forall x :: x in order ==> x in rows
  {
    if order == [] then before.latch
    else
      var id := order[|order| - 1];
      InactiveOutcome(cfg, id, At(before, id), PassLatch(cfg, before, rows, order[..|order| - 1]), rows[id]).latch
  }

  function PassCleanups(cfg: Config, before: State, rows: map<IssueId, Issue>, order: seq<IssueId>)
    : seq<CleanupRequest>
    requires forall x :: x in order ==> x in rows
  {
    if order == [] then []
    else
      var id := order[|order| - 1];
      var followup := InactiveOutcome(cfg, id, At(before, id), before.latch, rows[id]).followup;
      PassCleanups(cfg, before, rows, order[..|order| - 1]) +
      if followup.DoCleanup? then [followup.cleanup] else []
  }

  /** `st` is `before` with exactly the issues in `order` settled as inactive. */
  ghost predicate InactivePassed(cfg: Config, before: State, rows: map<IssueId, Issue>, order: seq<IssueId>,
                                 st: State)
  {
    && Distinct(order) && (forall x :: x in order ==> x in rows && Held(At(before, x)))
    && (forall x :: x in order ==>
          At(st, x) == InactiveOutcome(cfg, x, At(before, x), before.latch, rows[x]).slot)
    && (forall x :: x !in order ==> At(st, x) == At(before, x))
    && st.latch == PassLatch(cfg, before, rows, order)
  }

  lemma InactivePassNext(cfg: Config, before: State, rows: map<IssueId, Issue>, order: seq<IssueId>, st: State,
                         id: IssueId, st': State)
    requires InactivePassed(cfg, before, rows, order, st) && id !in order && id in rows && Held(At(before, id))
    requires var out := InactiveOutcome(cfg, id, At(st, id), st.latch, rows[id]);
             At(st', id) == out.slot && st'.latch == out.latch
    requires forall x :: x != id ==> At(st', x) == At(st, x)
    ensures InactivePassed(cfg, before, rows, order + [id], st')
    ensures PassCleanups(cfg, before, rows, order + [id]) ==
            PassCleanups(cfg, before, rows, order) +
            (var f := InactiveOutcome(cfg, id, At(st, id), st.latch, rows[id]).followup;
             if f.DoCleanup? then [f.cleanup] else [])
  {
    assert (order + [id])[..|order|] == order;
    forall x | x in order + [id]
      ensures At(st', x) == InactiveOutcome(cfg, x, At(before, x), before.latch, rows[x]).slot
    {
    }
  }

  /** A settled issue is in neither of the maps walked later, and any other is as it was. */
  lemma PassedElsewhere(cfg: Config, before: State, rows: map<IssueId, Issue>, order: seq<IssueId>, st: State)
    requires InactivePassed(cfg, before, rows, order, st)
    ensures forall x :: x in order ==> x in rows && Held(At(before, x))
    ensures forall x :: x in order ==> At(st, x).retry.None? && At(st, x).blocked.None?
    ensures forall x :: x !in order ==> At(st, x) == At(before, x)
  {
  }

  /** The absent pass settles everything it meets alike, so it needs no order. */
  ghost predicate AbsentPassed(before: State, done: set<IssueId>, st: State) {
    && st.latch == before.latch
    && forall x :: At(st, x) == if x in done then AbsentOutcome(At(before, x), before.latch).slot else At(before, x)
  }

  lemma AbsentElsewhere(before: State, done: set<IssueId>, st: State)
    requires AbsentPassed(before, done, st)
    ensures forall x :: x in done && Held(At(before, x)) && At(before, x).run.Some? ==>
              At(st, x).blocked.None? && At(st, x).retry.None?
    ensures forall x :: x in done && At(before, x).blocked.Some? ==> At(st, x).blocked.None? && At(st, x).retry.None?
    ensures forall x :: x !in done ==> At(st, x) == At(before, x)
  {
  }

  /** Absent issues that no walk meets hold nothing that absence releases. */
  lemma AbsentUnmet(before: State, done: set<IssueId>, absent: set<IssueId>, st: State)
    requires AbsentPassed(before, done, st) && done <= absent
    requires forall x :: x in absent && Held(At(before, x)) ==> x in done
    ensures AbsentPassed(before, absent, st) && AbsentStopped(before, absent) == AbsentStopped(before, done)
  {
  }

  // ---------------------------------------------------------------------------------------------
  // The timers a pass stops

  function TimersOf(timer: Option<nat>): set<nat> {
    if timer.Some? then {timer.value} else {}
  }

  /** Settling an inactive issue stops the timer of its queued retry. */
  function PassStopped(before: State, order: seq<IssueId>): set<nat> {
    if order == [] then {}
    else PassStopped(before, order[..|order| - 1]) + TimersOf(TimerOf(At(before, order[|order| - 1])))
  }

  function AbsentStopped(before: State, done: set<IssueId>): set<nat> {
    set x | x in done && AbsentOutcome(At(before, x), before.latch).stopped.Some? ::
      AbsentOutcome(At(before, x), before.latch).stopped.value
  }

  lemma PassStoppedNext(before: State, order: seq<IssueId>, id: IssueId)
    ensures PassStopped(before, order + [id]) == PassStopped(before, order) + TimersOf(TimerOf(At(before, id)))
  {
    assert (order + [id])[..|order|] == order;
  }

  lemma AbsentStoppedNext(before: State, done: set<IssueId>, id: IssueId)
    ensures AbsentStopped(before, done + {id}) ==
            AbsentStopped(before, done) + TimersOf(AbsentOutcome(At(before, id), before.latch).stopped)
  {
  }
}
