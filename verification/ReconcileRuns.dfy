/** A reconcile pass, whatever order it meets its issues in, is a run of single-issue events: same
    claim state, same timers stopped, same cleanups started. So a pass extends any run by events, and
    what holds over all runs holds through the passes. */
module ReconcileRuns {
  import opened Prelude
  import opened ClaimState
  import opened ActorSystem
  import opened ActorSafety
  import opened ActorDrivers
  import opened ReconcilePass

  /** The orchestrator after some events, or where it first found one disabled. */
  function Play(cfg: Config, s: Sys, events: seq<Event>): Sys {
    if events == [] then s
    else
      var s1 := Play(cfg, s, events[..|events| - 1]);
      if Enabled(s1, events[|events| - 1]) then Apply(cfg, s1, events[|events| - 1]) else s1
  }

  /** Each event is enabled when its turn comes. */
  ghost predicate Playable(cfg: Config, s: Sys, events: seq<Event>) {
    forall n :: 0 <= n < |events| ==> Enabled(Play(cfg, s, events[..n]), events[n])
  }

  lemma PlayNext(cfg: Config, s: Sys, events: seq<Event>, ev: Event)
    requires Enabled(Play(cfg, s, events), ev)
    ensures Play(cfg, s, events + [ev]) == Apply(cfg, Play(cfg, s, events), ev)
  {
    assert (events + [ev])[..|events|] == events;
  }

  lemma PlayableNext(cfg: Config, s: Sys, events: seq<Event>, ev: Event)
    requires Playable(cfg, s, events) && Enabled(Play(cfg, s, events), ev)
    ensures Playable(cfg, s, events + [ev])
  {
    var all := events + [ev];
    forall n | 0 <= n < |all| ensures Enabled(Play(cfg, s, all[..n]), all[n]) {
      assert n < |events| ==> all[..n] == events[..n] && all[n] == events[n];
      assert n == |events| ==> all[..n] == events;
    }
  }

  lemma PlayableLess(cfg: Config, s: Sys, events: seq<Event>)
    requires Playable(cfg, s, events) && events != []
    ensures var n := |events| - 1;
            Playable(cfg, s, events[..n]) && Enabled(Play(cfg, s, events[..n]), events[n])
  {
    var n := |events| - 1;
    forall m | 0 <= m < n ensures Enabled(Play(cfg, s, events[..n][..m]), events[..n][m]) {
      assert events[..n][..m] == events[..m] && events[..n][m] == events[m];
    }
  }

  /** A run that goes on from this one by playing these events. */
  ghost predicate GoesOn(cfg: Config, run: seq<Sys>, events: seq<Event>, more: seq<Event>, run': seq<Sys>)
    requires IsRun(cfg, run, events)
  {
    && IsRun(cfg, run', events + more) && run <= run'
    && forall n :: 0 <= n <= |more| ==> run'[|events| + n] == Play(cfg, run[|events|], more[..n])
  }

  /** Playing such events extends any run that has come this far. */
  lemma {:induction false} PlayExtends(cfg: Config, run: seq<Sys>, events: seq<Event>, more: seq<Event>)
    returns (run': seq<Sys>)
    requires IsRun(cfg, run, events) && Playable(cfg, run[|events|], more)
    ensures GoesOn(cfg, run, events, more, run')
  {
    if more == [] {
      run' := run;
      GoesNowhere(cfg, run, events);
    } else {
      var n, s := |more| - 1, run[|events|];
      PlayableLess(cfg, s, more);
      run' := PlayExtends(cfg, run, events, more[..n]);
      run' := ExtendOne(cfg, run, events, more[..n], run', more[n]);
      assert more[..n] + [more[n]] == more;
    }
  }

  lemma GoesToEnd(cfg: Config, run: seq<Sys>, events: seq<Event>, more: seq<Event>, run': seq<Sys>)
    requires IsRun(cfg, run, events) && GoesOn(cfg, run, events, more, run')
    ensures run'[|events| + |more|] == Play(cfg, run[|events|], more)
  {
    assert more[..|more|] == more;
  }

  lemma GoesNowhere(cfg: Config, run: seq<Sys>, events: seq<Event>)
    requires IsRun(cfg, run, events)
    ensures GoesOn(cfg, run, events, [], run)
  {
    assert events + [] == events;
  }

  lemma ExtendOne(cfg: Config, run: seq<Sys>, events: seq<Event>, more: seq<Event>, run': seq<Sys>, ev: Event)
    returns (longer: seq<Sys>)
    requires IsRun(cfg, run, events) && GoesOn(cfg, run, events, more, run')
    requires Enabled(Play(cfg, run[|events|], more), ev)
    ensures GoesOn(cfg, run, events, more + [ev], longer)
  {
    var s := run[|events|];
    assert more[..|more|] == more;
    PlayNext(cfg, s, more, ev);
    longer := run' + [Play(cfg, s, more + [ev])];
    assert events + (more + [ev]) == (events + more) + [ev];
    LongerRun(cfg, run', events + more, ev, longer);
    forall n | 0 <= n <= |more| + 1 ensures longer[|events| + n] == Play(cfg, s, (more + [ev])[..n]) {
      assert n <= |more| ==> (more + [ev])[..n] == more[..n];
      assert n == |more| + 1 ==> (more + [ev])[..n] == more + [ev];
    }
  }

  lemma LongerRun(cfg: Config, run: seq<Sys>, events: seq<Event>, ev: Event, longer: seq<Sys>)
    requires IsRun(cfg, run, events) && Enabled(run[|events|], ev) && longer == run + [Apply(cfg, run[|events|], ev)]
    ensures IsRun(cfg, longer, events + [ev])
  {
  }

  // ---------------------------------------------------------------------------------------------
  // The inactive pass

  function InactiveEvents(before: State, rows: map<IssueId, Issue>, order: seq<IssueId>): (events: seq<Event>)
    requires forall x :: x in order ==> x in rows
    ensures |events| == |order|
  {
    seq(|order|, i requires 0 <= i < |order| => InactiveEvent(At(before, order[i]), order[i], rows[order[i]]))
  }

  lemma InactiveEventsNext(before: State, rows: map<IssueId, Issue>, order: seq<IssueId>, id: IssueId)
    requires id in rows && forall x :: x in order ==> x in rows
    ensures InactiveEvents(before, rows, order + [id]) ==
            InactiveEvents(before, rows, order) + [InactiveEvent(At(before, id), id, rows[id])]
  {
  }

  /** The cleanup that settling an issue starts, if any, as a flight. */
  function CleanupFlight(cfg: Config, before: State, rows: map<IssueId, Issue>, id: IssueId): Option<Work>
    requires id in rows
  {
    Started(id, InactiveOutcome(cfg, id, At(before, id), before.latch, rows[id]).followup)
  }

  /** The flights of s without the stopped timers, and one waiting cleanup, numbered by its place in
      the order, for each issue that asks for one. */
  ghost predicate PassFlights(cfg: Config, s: Sys, rows: map<IssueId, Issue>, order: seq<IssueId>, s': Sys)
    requires forall x :: x in order ==> x in rows
  {
    && s'.next == s.next + |order| && s'.clock == s.clock && Numbered(s')
    && (forall k :: k < s.next ==>
          (k in s'.flights <==> k in s.flights && !(s.flights[k].Armed? && k in PassStopped(s.st, order))))
    && (forall k :: k < s.next && k in s'.flights ==> s'.flights[k] == s.flights[k])
    && (forall i :: 0 <= i < |order| ==> FlightIs(s'.flights, s.next + i, CleanupFlight(cfg, s.st, rows, order[i])))
  }

  predicate FlightIs(flights: map<nat, Work>, k: nat, w: Option<Work>) {
    if w.Some? then k in flights && flights[k] == w.value else k !in flights
  }

  /** What a pass has done to the whole orchestrator. */
  ghost predicate InactivePlayed(cfg: Config, s: Sys, rows: map<IssueId, Issue>, order: seq<IssueId>, s': Sys) {
    InactivePassed(cfg, s.st, rows, order, s'.st) && PassFlights(cfg, s, rows, order, s')
  }

  lemma InactiveEventNext(cfg: Config, before: State, rows: map<IssueId, Issue>, order: seq<IssueId>, s: Sys, id: IssueId)
    requires InactivePassed(cfg, before, rows, order, s.st) && id !in order && id in rows && Held(At(before, id))
    ensures var ev := InactiveEvent(At(before, id), id, rows[id]);
            Enabled(s, ev) && InactivePassed(cfg, before, rows, order + [id], Apply(cfg, s, ev).st)
  {
    assert At(s.st, id) == At(before, id);
    InactivePassNext(cfg, before, rows, order, s.st, id, Apply(cfg, s, InactiveEvent(At(before, id), id, rows[id])).st);
  }

  /** An inactive event stops its own timer and starts its own cleanup. */
  lemma InactiveFlights(cfg: Config, s: Sys, id: IssueId, row: Issue)
    requires Held(At(s.st, id))
    ensures var ev, slot := InactiveEvent(At(s.st, id), id, row), At(s.st, id);
            && Enabled(s, ev)
            && Apply(cfg, s, ev).flights ==
               Put(StopTimer(s.flights, TimerOf(slot)), s.next, Started(id, InactiveOutcome(cfg, id, slot, s.st.latch, row).followup))
            && Apply(cfg, s, ev).next == s.next + 1 && Apply(cfg, s, ev).clock == s.clock
  {
  }

  /** Which cleanup is asked for does not depend on the latch. */
  lemma FollowupIgnoresLatch(cfg: Config, id: IssueId, slot: Slot, a: Latch, b: Latch, row: Issue)
    ensures InactiveOutcome(cfg, id, slot, a, row).followup == InactiveOutcome(cfg, id, slot, b, row).followup
  {
  }

  lemma PassFlightsNext(cfg: Config, s: Sys, rows: map<IssueId, Issue>, order: seq<IssueId>, s1: Sys, s2: Sys, id: IssueId)
    requires id in rows && (forall x :: x in order ==> x in rows) && PassFlights(cfg, s, rows, order, s1)
    requires s2.flights == Put(StopTimer(s1.flights, TimerOf(At(s.st, id))), s1.next, CleanupFlight(cfg, s.st, rows, id))
    requires s2.next == s1.next + 1 && s2.clock == s1.clock
    requires CleanupFlight(cfg, s.st, rows, id).Some? ==> CleanupFlight(cfg, s.st, rows, id).value.Cleaning?
    requires forall i :: 0 <= i < |order| && CleanupFlight(cfg, s.st, rows, order[i]).Some? ==>
               CleanupFlight(cfg, s.st, rows, order[i]).value.Cleaning?
    ensures PassFlights(cfg, s, rows, order + [id], s2)
  {
    PassStoppedNext(s.st, order, id);
    forall i | 0 <= i < |order| + 1
      ensures FlightIs(s2.flights, s.next + i, CleanupFlight(cfg, s.st, rows, (order + [id])[i]))
    {
      assert i < |order| ==> FlightIs(s1.flights, s.next + i, CleanupFlight(cfg, s.st, rows, order[i]));
    }
  }

  lemma CleanupFlightsClean(cfg: Config, before: State, rows: map<IssueId, Issue>, id: IssueId)
    requires id in rows
    ensures CleanupFlight(cfg, before, rows, id).Some? ==> CleanupFlight(cfg, before, rows, id).value.Cleaning?
  {
  }

  /** The issue asks for this cleanup. */
  ghost predicate Asks(cfg: Config, before: State, rows: map<IssueId, Issue>, id: IssueId, c: CleanupRequest)
    requires id in rows
  {
    CleanupFlight(cfg, before, rows, id) == Some(Cleaning(id, c, 0, Waiting))
  }

  lemma AsksIs(cfg: Config, before: State, rows: map<IssueId, Issue>, id: IssueId, c: CleanupRequest)
    requires id in rows
    ensures Asks(cfg, before, rows, id, c) <==>
            InactiveOutcome(cfg, id, At(before, id), before.latch, rows[id]).followup == DoCleanup(c)
  {
  }

  ghost predicate SomeAsks(cfg: Config, before: State, rows: map<IssueId, Issue>, order: seq<IssueId>, c: CleanupRequest)
    requires forall x :: x in order ==> x in rows
  {
    exists x :: x in order && Asks(cfg, before, rows, x, c)
  }

  lemma SomeAsksNext(cfg: Config, before: State, rows: map<IssueId, Issue>, order: seq<IssueId>, id: IssueId, c: CleanupRequest)
    requires id in rows && forall x :: x in order ==> x in rows
    ensures SomeAsks(cfg, before, rows, order + [id], c) <==>
            SomeAsks(cfg, before, rows, order, c) || Asks(cfg, before, rows, id, c)
  {
    assert id in order + [id] && forall x :: x in order ==> x in order + [id];
  }

  /** The cleanups a pass asks for are those of its flights. */
  lemma {:induction false} CleanupsAreFlights(cfg: Config, before: State, rows: map<IssueId, Issue>, order: seq<IssueId>,
                                              c: CleanupRequest)
    requires forall x :: x in order ==> x in rows
    ensures c in PassCleanups(cfg, before, rows, order) <==> SomeAsks(cfg, before, rows, order, c)
  {
    if order != [] {
      var n := |order| - 1;
      CleanupsAreFlights(cfg, before, rows, order[..n], c);
      AsksIs(cfg, before, rows, order[n], c);
      SomeAsksNext(cfg, before, rows, order[..n], order[n], c);
      assert order == order[..n] + [order[n]];
    }
  }

  lemma Unseen(order: seq<IssueId>)
    requires Distinct(order) && order != []
    ensures order[|order| - 1] !in order[..|order| - 1]
  {
  }

  lemma InactivePlayNext(cfg: Config, s: Sys, rows: map<IssueId, Issue>, order: seq<IssueId>, s1: Sys, id: IssueId)
    requires InactivePlayed(cfg, s, rows, order, s1) && id !in order && id in rows && Held(At(s.st, id))
    ensures var ev := InactiveEvent(At(s.st, id), id, rows[id]);
            Enabled(s1, ev) && InactivePlayed(cfg, s, rows, order + [id], Apply(cfg, s1, ev))
  {
    InactiveEventNext(cfg, s.st, rows, order, s1, id);
    assert At(s1.st, id) == At(s.st, id);
    InactiveFlights(cfg, s1, id, rows[id]);
    FollowupIgnoresLatch(cfg, id, At(s.st, id), s.st.latch, s1.st.latch, rows[id]);
    forall x | x in rows ensures CleanupFlight(cfg, s.st, rows, x).Some? ==> CleanupFlight(cfg, s.st, rows, x).value.Cleaning? {
      CleanupFlightsClean(cfg, s.st, rows, x);
    }
    PassFlightsNext(cfg, s, rows, order, s1, Apply(cfg, s1, InactiveEvent(At(s.st, id), id, rows[id])), id);
  }

  lemma InactivePlaysOneMore(cfg: Config, s: Sys, rows: map<IssueId, Issue>, order: seq<IssueId>, id: IssueId,
                             events: seq<Event>, ev: Event)
    requires Playable(cfg, s, events) && InactivePlayed(cfg, s, rows, order, Play(cfg, s, events))
    requires id !in order && id in rows && Held(At(s.st, id)) && ev == InactiveEvent(At(s.st, id), id, rows[id])
    ensures Playable(cfg, s, events + [ev]) && InactivePlayed(cfg, s, rows, order + [id], Play(cfg, s, events + [ev]))
  {
    InactivePlayNext(cfg, s, rows, order, Play(cfg, s, events), id);
    PlayNext(cfg, s, events, ev);
    PlayableNext(cfg, s, events, ev);
  }

  /** Whatever order the inactive pass meets its issues in, it does what one enabled event per issue
      does: to the claim state, to the timers, and in the cleanups started. */
  lemma {:induction false} InactivePassIsRun(cfg: Config, s: Sys, rows: map<IssueId, Issue>, order: seq<IssueId>)
    requires Numbered(s) && Distinct(order) && forall x :: x in order ==> x in rows && Held(At(s.st, x))
    ensures Playable(cfg, s, InactiveEvents(s.st, rows, order))
    ensures InactivePlayed(cfg, s, rows, order, Play(cfg, s, InactiveEvents(s.st, rows, order)))
  {
    if order != [] {
      var n := |order| - 1;
      var id, before := order[n], order[..n];
      var events, ev := InactiveEvents(s.st, rows, before), InactiveEvent(At(s.st, id), id, rows[id]);
      assert order == before + [id];
      InactiveEventsNext(s.st, rows, before, id);
      InactivePassIsRun(cfg, s, rows, before);
      Unseen(order);
      InactivePlaysOneMore(cfg, s, rows, before, id, events, ev);
    } else {
      NothingPlayed(cfg, s, rows);
    }
  }

  lemma NothingPlayed(cfg: Config, s: Sys, rows: map<IssueId, Issue>)
    requires Numbered(s)
    ensures Playable(cfg, s, []) && InactivePlayed(cfg, s, rows, [], Play(cfg, s, []))
  {
  }

  // ---------------------------------------------------------------------------------------------
  // The absent pass

  function AbsentEvents(before: State, order: seq<IssueId>): (events: seq<Event>)
    ensures |events| == |order|
  {
    seq(|order|, i requires 0 <= i < |order| => AbsentEvent(At(before, order[i]), order[i]))
  }

  lemma AbsentEventsNext(before: State, order: seq<IssueId>, id: IssueId)
    ensures AbsentEvents(before, order + [id]) == AbsentEvents(before, order) + [AbsentEvent(At(before, id), id)]
  {
  }

  /** The absent pass stops timers and starts nothing. */
  ghost predicate AbsentPlayed(s: Sys, done: set<IssueId>, s': Sys) {
    && AbsentPassed(s.st, done, s'.st) && s'.clock == s.clock && s.next <= s'.next && Numbered(s')
    && (forall k :: k in s'.flights <==> k in s.flights && !(s.flights[k].Armed? && k in AbsentStopped(s.st, done)))
    && (forall k :: k in s'.flights ==> s'.flights[k] == s.flights[k])
  }

  lemma AbsentPlayNext(cfg: Config, s: Sys, done: set<IssueId>, s1: Sys, id: IssueId)
    requires AbsentPlayed(s, done, s1) && id !in done
    ensures var ev := AbsentEvent(At(s.st, id), id);
            Enabled(s1, ev) && AbsentPlayed(s, done + {id}, Apply(cfg, s1, ev))
  {
    assert At(s1.st, id) == At(s.st, id);
    AbsentStoppedNext(s.st, done, id);
  }

  lemma AbsentPlaysOneMore(cfg: Config, s: Sys, done: set<IssueId>, id: IssueId, events: seq<Event>, ev: Event)
    requires Playable(cfg, s, events) && AbsentPlayed(s, done, Play(cfg, s, events))
    requires id !in done && ev == AbsentEvent(At(s.st, id), id)
    ensures Playable(cfg, s, events + [ev]) && AbsentPlayed(s, done + {id}, Play(cfg, s, events + [ev]))
  {
    AbsentPlayNext(cfg, s, done, Play(cfg, s, events), id);
    PlayNext(cfg, s, events, ev);
    PlayableNext(cfg, s, events, ev);
  }

  lemma {:induction false} AbsentPassIsRun(cfg: Config, s: Sys, order: seq<IssueId>)
    requires Numbered(s) && Distinct(order)
    ensures Playable(cfg, s, AbsentEvents(s.st, order))
    ensures AbsentPlayed(s, Elems(order), Play(cfg, s, AbsentEvents(s.st, order)))
  {
    if order != [] {
      var n := |order| - 1;
      var id, before := order[n], order[..n];
      var events, ev := AbsentEvents(s.st, before), AbsentEvent(At(s.st, id), id);
      assert order == before + [id];
      AbsentEventsNext(s.st, before, id);
      AbsentPassIsRun(cfg, s, before);
      assert Elems(order) == Elems(before) + {id};
      Unseen(order);
      AbsentPlaysOneMore(cfg, s, Elems(before), id, events, ev);
    }
  }

  // ---------------------------------------------------------------------------------------------
  // Passes in runs

  /** The pass would release a retry whose postponement is still in flight. */
  ghost predicate SettlesDeferred(s: Sys, order: seq<IssueId>) {
    exists x :: x in order && SettlesAt(s, x)
  }

  /** What the pass did to others does not make an issue deferred, or not. */
  lemma DeferredStays(cfg: Config, s: Sys, rows: map<IssueId, Issue>, order: seq<IssueId>, s1: Sys, id: IssueId)
    requires Numbered(s) && InactivePlayed(cfg, s, rows, order, s1) && id !in order
    ensures Deferred(s1, id) <==> Deferred(s, id)
  {
    assert At(s1.st, id) == At(s.st, id);
    if Deferred(s, id) {
      var k :| k in s.flights && s.flights[k].Rescheduling? && s.flights[k].id == id;
      assert k in s1.flights && s1.flights[k] == s.flights[k];
    }
    if Deferred(s1, id) {
      var k :| k in s1.flights && s1.flights[k].Rescheduling? && s1.flights[k].id == id;
      if k >= s.next {
        assert FlightIs(s1.flights, s.next + (k - s.next), CleanupFlight(cfg, s.st, rows, order[k - s.next]));
        CleanupFlightsClean(cfg, s.st, rows, order[k - s.next]);
      }
    }
  }

  /** An event of the pass overtakes exactly if its issue's retry, not its run, is settled while a
      postponement of it is in flight. */
  lemma PassOvertakes(cfg: Config, s: Sys, rows: map<IssueId, Issue>, order: seq<IssueId>, n: nat)
    requires Numbered(s) && Distinct(order) && n < |order| && forall x :: x in order ==> x in rows && Held(At(s.st, x))
    requires Enabled(Play(cfg, s, InactiveEvents(s.st, rows, order)[..n]), InactiveEvents(s.st, rows, order)[n])
    ensures Overtakes(cfg, Play(cfg, s, InactiveEvents(s.st, rows, order)[..n]), InactiveEvents(s.st, rows, order)[n]) <==>
            SettlesAt(s, order[n])
  {
    var before := order[..n];
    assert InactiveEvents(s.st, rows, order)[..n] == InactiveEvents(s.st, rows, before);
    InactivePassIsRun(cfg, s, rows, before);
    DeferredStays(cfg, s, rows, before, Play(cfg, s, InactiveEvents(s.st, rows, before)), order[n]);
  }

  /** An inactive pass extends any run to a run. */
  lemma InactivePassExtendsRun(cfg: Config, run: seq<Sys>, events: seq<Event>, rows: map<IssueId, Issue>, order: seq<IssueId>)
    returns (run': seq<Sys>)
    requires IsRun(cfg, run, events)
    requires Distinct(order) && forall x :: x in order ==> x in rows && Held(At(run[|events|].st, x))
    ensures GoesOn(cfg, run, events, InactiveEvents(run[|events|].st, rows, order), run')
    ensures InactivePlayed(cfg, run[|events|], rows, order, run'[|events| + |order|])
  {
    var s, more := run[|events|], InactiveEvents(run[|events|].st, rows, order);
    RunKeepsDrivers(cfg, run, events, |events|);
    InactivePlayable(cfg, s, rows, order);
    run' := PlayExtends(cfg, run, events, more);
    GoesToEnd(cfg, run, events, more, run');
    InactivePlayedAt(cfg, s, rows, order, run'[|events| + |order|]);
  }

  lemma InactivePlayable(cfg: Config, s: Sys, rows: map<IssueId, Issue>, order: seq<IssueId>)
    requires Numbered(s) && Distinct(order) && forall x :: x in order ==> x in rows && Held(At(s.st, x))
    ensures Playable(cfg, s, InactiveEvents(s.st, rows, order))
  {
    InactivePassIsRun(cfg, s, rows, order);
  }

  lemma InactivePlayedAt(cfg: Config, s: Sys, rows: map<IssueId, Issue>, order: seq<IssueId>, s': Sys)
    requires Numbered(s) && Distinct(order) && forall x :: x in order ==> x in rows && Held(At(s.st, x))
    requires s' == Play(cfg, s, InactiveEvents(s.st, rows, order))
    ensures InactivePlayed(cfg, s, rows, order, s')
  {
    InactivePassIsRun(cfg, s, rows, order);
  }

  lemma GoingOn(cfg: Config, run: seq<Sys>, events: seq<Event>, more: seq<Event>, run': seq<Sys>, n: nat)
    requires IsRun(cfg, run, events) && GoesOn(cfg, run, events, more, run') && n < |more|
    ensures (events + more)[|events| + n] == more[n] && run'[|events| + n] == Play(cfg, run[|events|], more[..n])
    ensures Enabled(Play(cfg, run[|events|], more[..n]), more[n])
  {
    assert (events + more)[|events| + n] == more[n];
  }

  /** It extends an in-order run to an in-order run exactly if it settles no deferred retry. */
  lemma InactivePassKeepsOrder(cfg: Config, run: seq<Sys>, events: seq<Event>, rows: map<IssueId, Issue>, order: seq<IssueId>,
                               run': seq<Sys>)
    requires IsRun(cfg, run, events) && InOrder(cfg, run, events)
    requires Distinct(order) && forall x :: x in order ==> x in rows && Held(At(run[|events|].st, x))
    requires GoesOn(cfg, run, events, InactiveEvents(run[|events|].st, rows, order), run')
    ensures InOrder(cfg, run', events + InactiveEvents(run[|events|].st, rows, order)) <==>
            !SettlesDeferred(run[|events|], order)
  {
    var s, more := run[|events|], InactiveEvents(run[|events|].st, rows, order);
    RunKeepsDrivers(cfg, run, events, |events|);
    forall n | 0 <= n < |order| ensures OvertakesAt(cfg, run', events + more, |events| + n) <==> SettlesAt(s, order[n]) {
      GoingOn(cfg, run, events, more, run', n);
      PassOvertakes(cfg, s, rows, order, n);
    }
    OrderExtends(cfg, run, events, run', more, s, order);
  }

  ghost predicate OvertakesAt(cfg: Config, run: seq<Sys>, events: seq<Event>, i: nat)
    requires IsRun(cfg, run, events) && i < |events|
  {
    Overtakes(cfg, run[i], events[i])
  }

  ghost predicate SettlesAt(s: Sys, x: IssueId) {
    At(s.st, x).run.None? && Deferred(s, x)
  }

  lemma OrderExtends(cfg: Config, run: seq<Sys>, events: seq<Event>, run': seq<Sys>, more: seq<Event>, s: Sys,
                     order: seq<IssueId>)
    requires IsRun(cfg, run, events) && InOrder(cfg, run, events)
    requires IsRun(cfg, run', events + more) && run <= run' && |more| == |order|
    requires forall n :: 0 <= n < |order| ==> (OvertakesAt(cfg, run', events + more, |events| + n) <==> SettlesAt(s, order[n]))
    ensures InOrder(cfg, run', events + more) <==> !SettlesDeferred(s, order)
  {
    var all := events + more;
    if SettlesDeferred(s, order) {
      var x :| x in order && SettlesAt(s, x);
      var n :| 0 <= n < |order| && order[n] == x;
      assert OvertakesAt(cfg, run', all, |events| + n);
      assert !InOrder(cfg, run', all) by {
        assert Overtakes(cfg, run'[|events| + n], all[|events| + n]);
      }
    } else {
      forall i | 0 <= i < |all| ensures !Overtakes(cfg, run'[i], all[i]) {
        if i < |events| {
          assert all[i] == events[i] && run'[i] == run[i];
        } else {
          assert order[i - |events|] in order;
          assert !OvertakesAt(cfg, run', all, |events| + (i - |events|));
        }
      }
    }
  }

  /** An absent pass extends any run. */
  lemma AbsentPassExtendsRun(cfg: Config, run: seq<Sys>, events: seq<Event>, order: seq<IssueId>)
    returns (run': seq<Sys>)
    requires IsRun(cfg, run, events) && Distinct(order)
    ensures GoesOn(cfg, run, events, AbsentEvents(run[|events|].st, order), run')
    ensures AbsentPlayed(run[|events|], Elems(order), run'[|events| + |order|])
  {
    var s, more := run[|events|], AbsentEvents(run[|events|].st, order);
    RunKeepsDrivers(cfg, run, events, |events|);
    AbsentPassIsRun(cfg, s, order);
    run' := PlayExtends(cfg, run, events, more);
    GoesToEnd(cfg, run, events, more, run');
  }

  /** And it keeps an in-order run in order. */
  lemma AbsentPassKeepsOrder(cfg: Config, run: seq<Sys>, events: seq<Event>, order: seq<IssueId>, run': seq<Sys>)
    requires IsRun(cfg, run, events) && InOrder(cfg, run, events)
    requires GoesOn(cfg, run, events, AbsentEvents(run[|events|].st, order), run')
    ensures InOrder(cfg, run', events + AbsentEvents(run[|events|].st, order))
  {
    var all := events + AbsentEvents(run[|events|].st, order);
    forall i | 0 <= i < |all| ensures !Overtakes(cfg, run'[i], all[i]) {
      if i < |events| {
        assert all[i] == events[i] && run'[i] == run[i];
      }
    }
  }
}
