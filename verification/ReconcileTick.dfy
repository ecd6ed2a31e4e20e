/** How a poll tick decides which claimed issues to release: a narrow refresh of every claimed issue,
    then listings of the terminal and inactive states, then one pass over the claim state for the
    inactive issues and one for the absent ones. */
module ReconcileTick {
  import opened Prelude
  import opened Tracker
  import ClaimState
  import Backoff
  import ReconcilePass

  /** The claimed ids the narrow refresh asked about. */
  function Asked(refs: seq<string>): set<string> {
    set r | r in refs && Trim(r) != "" :: Trim(r)
  }

  predicate CurrentRow(row: Row) {
    row.Current? && !Blank(row.state)
  }

  /** The issue has its row's state, labels and blockers, and otherwise what the listing knows of it. */
  predicate FromRow(issue: TrackerIssue, id: string, row: Row, listed: map<string, TrackerIssue>) {
    && row.Current? && issue.id == id && issue.state == row.state && issue.labels == row.labels
    && issue.blockedBy == (if row.blockedBy.Some? then row.blockedBy.value else [])
    && (id in listed ==> issue == listed[id].(id := id, state := issue.state, labels := issue.labels, blockedBy := issue.blockedBy))
  }

  /** collectClaimedRefreshOutcome for every reference: only current rows with a state are kept, only
      explicitly absent ones are absent. `listed` supplies the other fields of a known issue. */
  method CollectRefreshed(refs: seq<string>, rows: map<string, Row>, listed: map<string, TrackerIssue>)
    returns (refreshed: map<string, TrackerIssue>, absent: set<string>)
    ensures forall id :: id in absent <==> id in Asked(refs) && RowOf(rows, id).Absent?
    ensures forall id :: id in refreshed <==> id in Asked(refs) && CurrentRow(RowOf(rows, id))
    ensures forall id :: id in refreshed ==> FromRow(refreshed[id], id, RowOf(rows, id), listed)
  {
    refreshed, absent := map[], {};
    for i := 0 to |refs|
      invariant forall id :: id in absent <==> id in Asked(refs[..i]) && RowOf(rows, id).Absent?
      invariant forall id :: id in refreshed <==> id in Asked(refs[..i]) && CurrentRow(RowOf(rows, id))
      invariant forall id :: id in refreshed ==> FromRow(refreshed[id], id, RowOf(rows, id), listed)
    {
      AskedMore(refs, i);
      var id := Trim(refs[i]);
      var row := RowOf(rows, id);
      if id != "" && row.Absent? {
        absent := absent + {id};
      } else if id != "" && CurrentRow(row) {
        var issue := if id in listed then listed[id] else TrackerIssue(id, "", "", "", [], 0, None, []);
        var blockers := if row.blockedBy.Some? then row.blockedBy.value else [];
        refreshed := refreshed[id := issue.(id := id, state := row.state, labels := row.labels, blockedBy := blockers)];
      }
    }
    assert refs[..|refs|] == refs;
  }

  lemma AskedMore(refs: seq<string>, i: nat)
    requires i < |refs|
    ensures Asked(refs[..i + 1]) == Asked(refs[..i]) + if Trim(refs[i]) == "" then {} else {Trim(refs[i])}
  {
  }

  /** A refreshed issue counts as inactive when it left the active states for a configured inactive
      one, or is active without a required label. */
  predicate InactiveByRow(cfg: Settings, state: string, labels: seq<string>) {
    if IsActive(cfg, state) then !HasRequiredLabels(labels, cfg.requiredLabels) else IsConfiguredInactive(cfg, state)
  }

  /** A state-group listing, or nothing when the request failed. */
  type Listing = Option<seq<TrackerIssue>>

  ghost predicate InListing(listing: Listing, id: string) {
    listing.Some? && exists i :: 0 <= i < |listing.value| && listing.value[i].id == id
  }

  ghost predicate ListedIn(groups: seq<Listing>, id: string) {
    exists g :: 0 <= g < |groups| && InListing(groups[g], id)
  }

  lemma ListedMore(groups: seq<Listing>, g: nat, id: string)
    requires g < |groups|
    ensures ListedIn(groups[..g + 1], id) <==> ListedIn(groups[..g], id) || InListing(groups[g], id)
  {
  }

  /** A listing has this very issue. */
  ghost predicate Lists(groups: seq<Listing>, issue: TrackerIssue) {
    exists g :: 0 <= g < |groups| && groups[g].Some? && issue in groups[g].value
  }

  /** The issue stored for an id is the refreshed one or a listed one. */
  predicate StoredFrom(inactive: map<string, TrackerIssue>, byRow: map<string, TrackerIssue>, issues: seq<TrackerIssue>, id: string)
    requires id in inactive
  {
    (id in byRow && inactive[id] == byRow[id]) || (inactive[id] in issues && inactive[id].id == id)
  }

  /** Something says the issue is active: the active listing, or its current row. */
  predicate ActiveEvidence(cfg: Settings, active: set<string>, refreshed: map<string, TrackerIssue>, id: string) {
    id in active || (id in refreshed && IsActive(cfg, refreshed[id].state))
  }

  method AddInactiveListed(inactive: map<string, TrackerIssue>, active: set<string>, issues: seq<TrackerIssue>)
    returns (more: map<string, TrackerIssue>)
    ensures forall id :: id in more <==>
              id in inactive || (id != "" && id !in active && InListing(Some(issues), id))
    ensures forall id :: id in more ==> StoredFrom(more, inactive, issues, id)
  {
    more := inactive;
    for i := 0 to |issues|
      invariant forall id :: id in more <==>
                  id in inactive || (id != "" && id !in active && exists j :: 0 <= j < i && issues[j].id == id)
      invariant forall id :: id in more ==> StoredFrom(more, inactive, issues, id)
    {
      if issues[i].id != "" && issues[i].id !in active {
        more := more[issues[i].id := issues[i]];
      }
    }
  }

  /** Every refreshed row is judged on its own, and takes the issue out of the active ones if it
      says so. */
  method InactiveRows(cfg: Settings, active: set<string>, refreshed: map<string, TrackerIssue>)
    returns (inactive: map<string, TrackerIssue>, activeIds: set<string>)
    ensures forall id :: id in inactive <==>
              id in refreshed && InactiveByRow(cfg, refreshed[id].state, refreshed[id].labels)
    ensures forall id :: id in activeIds <==> ActiveEvidence(cfg, active, refreshed, id) && id !in inactive
    ensures forall id :: id in inactive ==> inactive[id] == refreshed[id]
  {
    activeIds := active + set id | id in refreshed && IsActive(cfg, refreshed[id].state);
    inactive := map[];
    var todo := refreshed.Keys;
    while todo != {}
      invariant todo <= refreshed.Keys
      invariant forall id :: id in inactive <==>
                  id in refreshed && id !in todo && InactiveByRow(cfg, refreshed[id].state, refreshed[id].labels)
      invariant forall id :: id in activeIds <==> ActiveEvidence(cfg, active, refreshed, id) && id !in inactive
      invariant forall id :: id in inactive ==> inactive[id] == refreshed[id]
      decreases |todo|
    {
      var id :| id in todo;
      if InactiveByRow(cfg, refreshed[id].state, refreshed[id].labels) {
        activeIds := activeIds - {id};
        inactive := inactive[id := refreshed[id]];
      }
      todo := todo - {id};
    }
  }

  /** What is stored for an inactive issue is its refreshed row or a row of some listing. */
  ghost predicate Backed(inactive: map<string, TrackerIssue>, refreshed: map<string, TrackerIssue>, groups: seq<Listing>, id: string)
    requires id in inactive
  {
    (id in refreshed && inactive[id] == refreshed[id]) || (inactive[id].id == id && Lists(groups, inactive[id]))
  }

  /** A failed listing adds nothing. */
  method AppendFromGroups(byRow: map<string, TrackerIssue>, activeIds: set<string>, groups: seq<Listing>)
    returns (inactive: map<string, TrackerIssue>)
    ensures forall id :: id in inactive <==>
              id in byRow || (id != "" && ListedIn(groups, id) && id !in activeIds)
    ensures forall id :: id in inactive ==> Backed(inactive, byRow, groups, id)
  {
    inactive := byRow;
    for g := 0 to |groups|
      invariant forall id :: id in inactive <==>
                  id in byRow || (id != "" && ListedIn(groups[..g], id) && id !in activeIds)
      invariant forall id :: id in inactive ==> Backed(inactive, byRow, groups, id)
    {
      forall id {
        ListedMore(groups, g, id);
      }
      if groups[g].Some? {
        inactive := AddInactiveListed(inactive, activeIds, groups[g].value);
      }
    }
    assert groups[..|groups|] == groups;
  }

  /** deriveInactiveIssues: the rows decide first; a listing adds what nothing says is active. */
  method DeriveInactive(cfg: Settings, active: set<string>, refreshed: map<string, TrackerIssue>, groups: seq<Listing>)
    returns (inactive: map<string, TrackerIssue>)
    ensures forall id :: id in inactive <==>
              || (id in refreshed && InactiveByRow(cfg, refreshed[id].state, refreshed[id].labels))
              || (id != "" && ListedIn(groups, id) && !ActiveEvidence(cfg, active, refreshed, id))
    ensures forall id :: id in inactive ==> Backed(inactive, refreshed, groups, id)
  {
    var byRow, activeIds := InactiveRows(cfg, active, refreshed);
    inactive := AppendFromGroups(byRow, activeIds, groups);
  }

  /** What a narrow refresh and the listings say about one claimed issue. */
  ghost predicate SaysInactive(cfg: Settings, active: set<string>, refs: seq<string>, rows: map<string, Row>,
                               groups: seq<Listing>, id: string)
  {
    var current := id in Asked(refs) && CurrentRow(RowOf(rows, id));
    || (current && InactiveByRow(cfg, RowOf(rows, id).state, RowOf(rows, id).labels))
    || (id != "" && ListedIn(groups, id) && id !in active && !(current && IsActive(cfg, RowOf(rows, id).state)))
  }

  ghost predicate SaysAbsent(refs: seq<string>, rows: map<string, Row>, id: string) {
    id in Asked(refs) && RowOf(rows, id).Absent?
  }

  /** reconcileClaimedTick's two sets. An issue confirmed absent is taken out of the inactive one. */
  method ReconcileClaimed(cfg: Settings, active: map<string, TrackerIssue>, refs: seq<string>, rows: map<string, Row>,
                          groups: seq<Listing>)
    returns (inactive: map<string, TrackerIssue>, absent: set<string>)
    ensures forall id :: id in absent <==> SaysAbsent(refs, rows, id)
    ensures forall id :: id in inactive <==>
              SaysInactive(cfg, active.Keys, refs, rows, groups, id) && !SaysAbsent(refs, rows, id)
  {
    var refreshed;
    refreshed, absent := CollectRefreshed(refs, rows, active);
    var derived := DeriveInactive(cfg, active.Keys, refreshed, groups);
    inactive := derived - absent;
  }

  // ---------------------------------------------------------------------------------------------
  // What a tick may do to a claim

  function Ids(keys: set<string>): set<ClaimState.IssueId> {
    set k | k in keys :: ClaimState.IssueId(k)
  }

  function RowsById(issues: map<string, TrackerIssue>): map<ClaimState.IssueId, ClaimState.Issue> {
    map id | id in Ids(issues.Keys) :: ClaimState.Issue(id, issues[id.key].state)
  }

  /** The claim state after a tick's inactive and absent passes. */
  ghost predicate Ticked(cfg: ClaimState.Config, before: ClaimState.State, inactive: map<string, TrackerIssue>,
                         absent: set<string>, after: ClaimState.State)
  {
    exists mid, order ::
      && ReconcilePass.InactivePassed(cfg, before, RowsById(inactive), order, mid)
      && (forall x :: x in RowsById(inactive) && ClaimState.Held(ClaimState.At(before, x)) ==> x in order)
      && ReconcilePass.AbsentPassed(mid, Ids(absent), after)
  }

  /** A current active row with every required label. */
  predicate KeepsWorking(settings: Settings, row: Row) {
    CurrentRow(row) && IsActive(settings, row.state) && HasRequiredLabels(row.labels, settings.requiredLabels)
  }

  /** Only a failure or quota retry holds the issue. */
  predicate TimerRetry(slot: ClaimState.Slot) {
    slot.run.None? && slot.blocked.None? && slot.retry.Some? && slot.retry.value.kind != Backoff.Continuation
  }

  /** A tick touches a claim only on positive evidence. With a missing or unknown row, and no listing
      of the issue as inactive, nothing about it changes; a current active row with its required
      labels beats every inactive listing; absence alone never releases a failure or quota retry. */
  lemma TickNeedsEvidence(cfg: ClaimState.Config, settings: Settings, active: map<string, TrackerIssue>,
                          refs: seq<string>, rows: map<string, Row>, groups: seq<Listing>,
                          inactive: map<string, TrackerIssue>, absent: set<string>,
                          before: ClaimState.State, after: ClaimState.State, id: string)
    requires forall x :: x in absent <==> SaysAbsent(refs, rows, x)
    requires forall x :: x in inactive <==>
               SaysInactive(settings, active.Keys, refs, rows, groups, x) && !SaysAbsent(refs, rows, x)
    requires Ticked(cfg, before, inactive, absent, after)
    ensures var key, row := ClaimState.IssueId(id), RowOf(rows, id);
            var slot := ClaimState.At(before, key);
            && (id !in absent || id !in inactive)
            && (ClaimState.At(after, key) != slot ==> id in absent || id in inactive)
            && (row.Unknown? && !ListedIn(groups, id) ==> ClaimState.At(after, key) == slot)
            && (id in Asked(refs) && KeepsWorking(settings, row) ==> ClaimState.At(after, key) == slot)
            && (id in absent && TimerRetry(slot) ==> ClaimState.At(after, key) == slot)
  {
  }

  /** The row says the issue is not to be worked on: it lacks a required label while active, or it is not
      active and its state is configured as terminal or inactive. */
  predicate RowStops(settings: Settings, row: Row) {
    && row.Current? && Trim(row.state) != ""
    && if Fold(row.state) in settings.activeStates
       then exists r :: r in settings.requiredLabels && forall l :: l in row.labels ==> Fold(l) != Fold(r)
       else Fold(row.state) in settings.terminalStates || Fold(row.state) in settings.inactiveStates
  }

  /** The row says that the issue is active. */
  predicate RowActive(settings: Settings, row: Row) {
    row.Current? && Trim(row.state) != "" && Fold(row.state) in settings.activeStates
  }

  /** The claim is gone, and a run that is left is cancelled. */
  predicate LetGo(before: ClaimState.Slot, after: ClaimState.Slot) {
    && !after.claimed && after.claimedIssue.None? && after.blocked.None? && after.retry.None?
    && (after.run.Some? <==> before.run.Some?) && (after.run.Some? ==> after.run.value.reconcileCancel)
  }

  /** And on positive evidence it does act: what is held is let go if its row stops it, or if an inactive
      listing has it and nothing says it is active; and if its row says it is absent, unless only a failure
      or quota retry holds it. On anything else the claim stays as it is. */
  lemma TickActsOnEvidence(cfg: ClaimState.Config, settings: Settings, active: map<string, TrackerIssue>,
                           refs: seq<string>, rows: map<string, Row>, groups: seq<Listing>,
                           inactive: map<string, TrackerIssue>, absent: set<string>,
                           before: ClaimState.State, after: ClaimState.State, id: string)
    requires forall x :: x in absent <==> SaysAbsent(refs, rows, x)
    requires forall x :: x in inactive <==>
               SaysInactive(settings, active.Keys, refs, rows, groups, x) && !SaysAbsent(refs, rows, x)
    requires Ticked(cfg, before, inactive, absent, after)
    ensures var slot, slot' := ClaimState.At(before, ClaimState.IssueId(id)), ClaimState.At(after, ClaimState.IssueId(id));
            var asked, row := id in Asked(refs), RowOf(rows, id);
            var gone := (asked && RowStops(settings, row)) ||
                        (id != "" && ListedIn(groups, id) && id !in active && !(asked && (RowActive(settings, row) || row.Absent?)));
            && (gone && (slot.run.Some? || slot.retry.Some? || slot.blocked.Some?) ==> LetGo(slot, slot'))
            && (asked && row.Absent? && !TimerRetry(slot) && (slot.run.Some? || slot.retry.Some? || slot.blocked.Some?) ==>
                  LetGo(slot, slot'))
            && (!gone && !(asked && row.Absent?) ==> slot' == slot)
  {
    InactiveIsEvidence(settings, active.Keys, refs, rows, groups, id);
    TickLetsGo(cfg, inactive, absent, before, after, id);
  }

  /** What the tick calls inactive, on the rows and listings themselves. */
  lemma InactiveIsEvidence(settings: Settings, active: set<string>, refs: seq<string>, rows: map<string, Row>,
                           groups: seq<Listing>, id: string)
    ensures var asked, row := id in Asked(refs), RowOf(rows, id);
            SaysInactive(settings, active, refs, rows, groups, id) && !SaysAbsent(refs, rows, id) <==>
            (asked && RowStops(settings, row)) ||
            (id != "" && ListedIn(groups, id) && id !in active && !(asked && (RowActive(settings, row) || row.Absent?)))
  {
  }

  /** What the two passes do to one issue. */
  lemma TickLetsGo(cfg: ClaimState.Config, inactive: map<string, TrackerIssue>, absent: set<string>,
                   before: ClaimState.State, after: ClaimState.State, id: string)
    requires Ticked(cfg, before, inactive, absent, after) && !(id in inactive && id in absent)
    ensures var slot, slot' := ClaimState.At(before, ClaimState.IssueId(id)), ClaimState.At(after, ClaimState.IssueId(id));
            var held := slot.run.Some? || slot.retry.Some? || slot.blocked.Some?;
            && (id in inactive && held ==> LetGo(slot, slot'))
            && (id in absent && !TimerRetry(slot) && held ==> LetGo(slot, slot'))
            && (id !in inactive && id !in absent ==> slot' == slot)
  {
    var key := ClaimState.IssueId(id);
    assert key in RowsById(inactive) <==> id in inactive;
    assert key in Ids(absent) <==> id in absent;
  }
}
