/** Listing the issues of some workflow states from a paging server, under a page cap: the listing is
    complete or it is refused, never partial. */
module IssueListing {
  import opened Prelude
  import opened GiteaLabels

  const PAGE_SIZE: nat := 50

  /** An issue as the server lists it; `readable` when its timestamps parse. */
  datatype RepoIssue = RepoIssue(id: string, labels: seq<string>, closed: bool, readable: bool)

  datatype Listed = Listed(id: string, state: string)

  datatype Listing = Issues(issues: seq<Listed>) | Capped | Failed

  /** The label mappings and the folded states asked for. */
  datatype Query = Query(mappings: seq<Mapping>, states: set<string>)

  predicate Wanted(x: RepoIssue, wanted: Query) {
    var state := DerivedState(wanted.mappings, x.labels);
    state != "" && Fold(state) in wanted.states
  }

  function Convert(x: RepoIssue, wanted: Query): Listed {
    Listed(x.id, DerivedState(wanted.mappings, x.labels))
  }

  // ---------------------------------------------------------------------------------------------
  // A correctly paging server

  function Cut(list: seq<RepoIssue>, n: nat): nat {
    if n <= |list| then n else |list|
  }

  function Page(list: seq<RepoIssue>, page: nat): seq<RepoIssue>
    requires page >= 1
  {
    list[Cut(list, (page - 1) * PAGE_SIZE)..Cut(list, page * PAGE_SIZE)]
  }

  predicate HasNext(list: seq<RepoIssue>, page: nat) {
    page * PAGE_SIZE < |list|
  }

  // ---------------------------------------------------------------------------------------------
  // One label

  ghost predicate HasId(out: seq<Listed>, id: string) {
    exists i :: 0 <= i < |out| && out[i].id == id
  }

  ghost predicate WantedId(list: seq<RepoIssue>, wanted: Query, id: string) {
    exists i :: 0 <= i < |list| && list[i].id == id && Wanted(list[i], wanted)
  }

  ghost predicate UniqueIds(out: seq<Listed>) {
    forall i, j :: 0 <= i < j < |out| ==> out[i].id != out[j].id
  }

  predicate Sourced(list: seq<RepoIssue>, wanted: Query, c: Listed) {
    exists i :: 0 <= i < |list| && Convert(list[i], wanted) == c && Wanted(list[i], wanted)
  }

  /** `out` has every wanted issue of `list` that was not seen before, once, and nothing else. */
  ghost predicate Collected(list: seq<RepoIssue>, wanted: Query, seen: set<string>, out: seq<Listed>) {
    && UniqueIds(out)
    && (forall id :: HasId(out, id) <==> id !in seen && WantedId(list, wanted, id))
    && (forall i :: 0 <= i < |out| ==> Sourced(list, wanted, out[i]))
  }

  lemma CollectedMore(list: seq<RepoIssue>, x: RepoIssue, wanted: Query, seen: set<string>, out: seq<Listed>)
    requires Collected(list, wanted, seen, out)
    ensures !Wanted(x, wanted) || x.id in seen || HasId(out, x.id) ==> Collected(list + [x], wanted, seen, out)
    ensures Wanted(x, wanted) && x.id !in seen && !HasId(out, x.id) ==>
              Collected(list + [x], wanted, seen, out + [Convert(x, wanted)])
  {
    var more := list + [x];
    assert forall i :: 0 <= i < |list| ==> more[i] == list[i];
    assert more[|list|] == x;
    forall id ensures WantedId(more, wanted, id) <==> WantedId(list, wanted, id) || (id == x.id && Wanted(x, wanted)) {
      if WantedId(list, wanted, id) {
        var i :| 0 <= i < |list| && list[i].id == id && Wanted(list[i], wanted);
        assert more[i].id == id;
      }
    }
    forall c | Sourced(list, wanted, c) ensures Sourced(more, wanted, c) {
      var i :| 0 <= i < |list| && Convert(list[i], wanted) == c && Wanted(list[i], wanted);
      assert Convert(more[i], wanted) == c;
    }
    var out' := out + [Convert(x, wanted)];
    forall id ensures HasId(out', id) <==> HasId(out, id) || id == x.id {
      assert out'[|out|].id == x.id;
      if HasId(out, id) {
        var i :| 0 <= i < |out| && out[i].id == id;
        assert out'[i].id == id;
      }
    }
  }

  /** collectScopePage. `before` is what earlier pages held; `known` the ids already collected. */
  method CollectPage(batch: seq<RepoIssue>, wanted: Query, known: set<string>, out: seq<Listed>,
                     ghost before: seq<RepoIssue>, ghost seen: set<string>)
    returns (ok: bool, known': set<string>, out': seq<Listed>)
    requires Collected(before, wanted, seen, out) && forall id :: id in known <==> id in seen || HasId(out, id)
    ensures ok ==> Collected(before + batch, wanted, seen, out')
    ensures ok ==> forall id :: id in known' <==> id in seen || HasId(out', id)
    ensures !ok ==> exists x :: x in batch && !x.readable && Wanted(x, wanted)
  {
    known', out' := known, out;
    assert before + batch[..0] == before;
    for i := 0 to |batch|
      invariant Collected(before + batch[..i], wanted, seen, out')
      invariant forall id :: id in known' <==> id in seen || HasId(out', id)
    {
      var x := batch[i];
      assert before + batch[..i + 1] == (before + batch[..i]) + [x];
      CollectedMore(before + batch[..i], x, wanted, seen, out');
      if x.id in known' || !Wanted(x, wanted) {
        continue;
      }
      if !x.readable {
        return false, known', out';
      }
      ghost var was := out';
      known', out' := known' + {x.id}, out' + [Convert(x, wanted)];
      forall id ensures HasId(out', id) <==> HasId(was, id) || id == x.id {
        assert out'[|was|].id == x.id;
        assert HasId(was, id) ==> exists k :: 0 <= k < |was| && was[k].id == id && out'[k].id == id;
      }
    }
    assert before + batch[..|batch|] == before + batch;
    ok := true;
  }

  /** What the pages before this one held. */
  function Earlier(list: seq<RepoIssue>, page: nat): seq<RepoIssue>
    requires page >= 1
  {
    list[..Cut(list, (page - 1) * PAGE_SIZE)]
  }

  datatype Step = Ended(result: Listing) | More(known: set<string>, out: seq<Listed>)

  /** scopePageStep: one page ends the listing or adds to it; the page after the cap only probes. */
  method ScopePageStep(list: seq<RepoIssue>, page: nat, maxPages: nat, wanted: Query, known: set<string>,
                       out: seq<Listed>, ghost seen: set<string>)
    returns (step: Step)
    requires 1 <= page <= maxPages + 1 && Collected(Earlier(list, page), wanted, seen, out)
    requires forall id :: id in known <==> id in seen || HasId(out, id)
    ensures step.Ended? && step.result.Issues? ==> |list| <= maxPages * 50 && Collected(list, wanted, seen, step.result.issues)
    ensures step.Ended? && step.result.Capped? ==> |list| > maxPages * 50
    ensures step.Ended? && step.result.Failed? ==> exists x :: x in list && !x.readable && Wanted(x, wanted)
    ensures step.More? ==> page <= maxPages && Collected(Earlier(list, page + 1), wanted, seen, step.out)
    ensures step.More? ==> forall id :: id in step.known <==> id in seen || HasId(step.out, id)
  {
    var batch, more := Page(list, page), HasNext(list, page);
    if page > maxPages {
      if !more && batch == [] {
        assert Earlier(list, page) == list;
        return Ended(Issues(out));
      }
      return Ended(Capped);
    }
    assert Earlier(list, page) + batch == Earlier(list, page + 1);
    var ok, known', out' := CollectPage(batch, wanted, known, out, Earlier(list, page), seen);
    if !ok {
      return Ended(Failed);
    }
    if !more && |batch| < PAGE_SIZE {
      assert Earlier(list, page + 1) == list;
      return Ended(Issues(out'));
    }
    return More(known', out');
  }

  /** listIssuesByStateLabel. `reachable(p)` is whether page p can be fetched. */
  method ListByLabel(list: seq<RepoIssue>, maxPages: nat, wanted: Query, seen: set<string>, reachable: nat -> bool)
    returns (r: Listing)
    ensures r.Issues? ==> |list| <= maxPages * 50 && Collected(list, wanted, seen, r.issues)
    ensures r.Capped? ==> |list| > maxPages * 50
    ensures r.Failed? ==>
              (exists p :: 1 <= p <= maxPages + 1 && !reachable(p)) || exists x :: x in list && !x.readable && Wanted(x, wanted)
  {
    var known, out := seen, [];
    assert Earlier(list, 1) == [];
    var page: nat := 1;
    while page <= maxPages + 1
      invariant 1 <= page <= maxPages + 1 && Collected(Earlier(list, page), wanted, seen, out)
      invariant forall id :: id in known <==> id in seen || HasId(out, id)
      decreases maxPages + 1 - page
    {
      if !reachable(page) {
        return Failed;
      }
      var step := ScopePageStep(list, page, maxPages, wanted, known, out, seen);
      if step.Ended? {
        return step.result;
      }
      known, out, page := step.known, step.out, page + 1;
    }
    return Capped;
  }

  // ---------------------------------------------------------------------------------------------
  // All labels of the wanted states

  ghost predicate WantedIn(lists: seq<seq<RepoIssue>>, wanted: Query, id: string) {
    exists k :: 0 <= k < |lists| && WantedId(lists[k], wanted, id)
  }

  ghost predicate SourcedIn(lists: seq<seq<RepoIssue>>, wanted: Query, c: Listed) {
    exists k :: 0 <= k < |lists| && Sourced(lists[k], wanted, c)
  }

  /** The union has unique ids and exactly the wanted issues of all lists. */
  ghost predicate Union(lists: seq<seq<RepoIssue>>, wanted: Query, out: seq<Listed>) {
    && UniqueIds(out) && (forall id :: HasId(out, id) <==> WantedIn(lists, wanted, id))
    && forall c :: c in out ==> SourcedIn(lists, wanted, c)
  }

  lemma UnionMore(lists: seq<seq<RepoIssue>>, list: seq<RepoIssue>, wanted: Query, seen: set<string>,
                  out: seq<Listed>, more: seq<Listed>)
    requires Union(lists, wanted, out) && Collected(list, wanted, seen, more) && forall id :: id in seen <==> HasId(out, id)
    ensures Union(lists + [list], wanted, out + more)
  {
    var all := lists + [list];
    forall id ensures WantedIn(all, wanted, id) <==> WantedIn(lists, wanted, id) || WantedId(list, wanted, id) {
      assert all[|lists|] == list;
      if WantedIn(lists, wanted, id) {
        var k :| 0 <= k < |lists| && WantedId(lists[k], wanted, id);
        assert all[k] == lists[k];
      }
    }
    JoinedIds(out, more);
    forall c | c in out + more ensures SourcedIn(all, wanted, c) {
      if c in out {
        var k :| 0 <= k < |lists| && Sourced(lists[k], wanted, c);
        assert all[k] == lists[k];
      } else {
        assert Sourced(all[|lists|], wanted, c);
      }
    }
    forall i, j | 0 <= i < j < |out + more| ensures (out + more)[i].id != (out + more)[j].id {
      if i < |out| <= j {
        assert HasId(out, out[i].id) && HasId(more, more[j - |out|].id);
      }
    }
  }

  lemma JoinedIds(a: seq<Listed>, b: seq<Listed>)
    ensures forall id :: HasId(a + b, id) <==> HasId(a, id) || HasId(b, id)
  {
    forall id ensures HasId(a + b, id) <==> HasId(a, id) || HasId(b, id) {
      if HasId(a, id) {
        var i :| 0 <= i < |a| && a[i].id == id;
        assert (a + b)[i].id == id;
      }
      if HasId(b, id) {
        var i :| 0 <= i < |b| && b[i].id == id;
        assert (a + b)[|a| + i].id == id;
      }
    }
  }

  /** ListIssuesByStates over the lists the server has for each label. A capped label refuses the whole
      listing, after every other label was still tried. */
  method ListByStates(lists: seq<seq<RepoIssue>>, maxPages: nat, wanted: Query, reachable: (nat, nat) -> bool)
    returns (r: Listing)
    ensures r.Issues? ==> Union(lists, wanted, r.issues) && forall k :: 0 <= k < |lists| ==> |lists[k]| <= maxPages * 50
    ensures r.Capped? ==> exists k :: 0 <= k < |lists| && |lists[k]| > maxPages * 50
    ensures r.Failed? ==>
              (exists k, p :: 0 <= k < |lists| && 1 <= p <= maxPages + 1 && !reachable(k, p)) ||
              exists k, x :: 0 <= k < |lists| && x in lists[k] && !x.readable && Wanted(x, wanted)
  {
    var out: seq<Listed>, seen: set<string>, capped := [], {}, false;
    for k := 0 to |lists|
      invariant !capped ==> Union(lists[..k], wanted, out) && forall j :: 0 <= j < k ==> |lists[j]| <= maxPages * PAGE_SIZE
      invariant capped ==> exists j :: 0 <= j < k && |lists[j]| > maxPages * PAGE_SIZE
      invariant forall id :: id in seen <==> HasId(out, id)
    {
      var listing := ListByLabel(lists[k], maxPages, wanted, seen, (p: nat) => reachable(k, p));
      if listing.Failed? {
        return Failed;
      }
      if listing.Capped? {
        capped := true;
        continue;
      }
      assert lists[..k + 1] == lists[..k] + [lists[k]];
      if !capped {
        UnionMore(lists[..k], lists[k], wanted, seen, out, listing.issues);
      }
      JoinedIds(out, listing.issues);
      var ids := IdsOf(listing.issues);
      seen, out := seen + ids, out + listing.issues;
    }
    assert lists[..|lists|] == lists;
    return if capped then Capped else Issues(out);
  }

  method IdsOf(out: seq<Listed>) returns (ids: set<string>)
    ensures forall id :: id in ids <==> HasId(out, id)
  {
    ids := {};
    for i := 0 to |out|
      invariant forall id :: id in ids <==> exists j :: 0 <= j < i && out[j].id == id
    {
      ids := ids + {out[i].id};
    }
  }

  // ---------------------------------------------------------------------------------------------
  // From labels to states

  /** A query returns the repository's issues that carry the label, in any spelling. */
  ghost predicate Serves(repo: set<RepoIssue>, name: string, list: seq<RepoIssue>) {
    forall x :: x in list <==> x in repo && name in StateKeys(x.labels)
  }

  ghost predicate ServesLabels(repo: set<RepoIssue>, names: seq<string>, lists: seq<seq<RepoIssue>>) {
    |lists| == |names| && forall k :: 0 <= k < |names| ==> Serves(repo, names[k], lists[k])
  }

  lemma {:induction false} LabelOfState(mappings: seq<Mapping>, i: nat)
    requires OneToOne(mappings) && i < |mappings|
    ensures LabelFor(mappings, Fold(mappings[i].state)) == Some(Fold(mappings[i].name))
  {
    var n := |mappings| - 1;
    if i < n {
      LabelOfState(mappings[..n], i);
    }
  }

  /** The folded states asked for. */
  function StateSet(states: seq<string>): set<string> {
    set s | s in states && Fold(s) != "" :: Fold(s)
  }

  /** The labels of those states. */
  ghost predicate LabelsOf(mappings: seq<Mapping>, states: seq<string>, names: seq<string>) {
    forall n :: n in names <==> exists s :: s in states && LabelFor(mappings, Fold(s)) == Some(n)
  }

  /** An issue in a wanted state carries the label of that state, and so is in one of the lists. */
  lemma WantedIsListed(repo: set<RepoIssue>, m: seq<Mapping>, states: seq<string>, names: seq<string>,
                       lists: seq<seq<RepoIssue>>, x: RepoIssue)
    requires OneToOne(m) && LabelsOf(m, states, names)
    requires ServesLabels(repo, names, lists) && x in repo && Wanted(x, Query(m, StateSet(states)))
    ensures WantedIn(lists, Query(m, StateSet(states)), x.id)
  {
    var w := Winner(m, StateKeys(x.labels), 0);
    var s :| s in states && Fold(s) == Fold(m[w].state);
    LabelOfState(m, w);
    assert Fold(m[w].name) in names;
    var k :| 0 <= k < |names| && names[k] == Fold(m[w].name);
    assert Serves(repo, names[k], lists[k]) && x in lists[k];
    var i :| 0 <= i < |lists[k]| && lists[k][i] == x;
    assert WantedId(lists[k], Query(m, StateSet(states)), x.id);
  }

  lemma ListedIsWanted(repo: set<RepoIssue>, names: seq<string>, lists: seq<seq<RepoIssue>>, wanted: Query, id: string)
    requires ServesLabels(repo, names, lists) && WantedIn(lists, wanted, id)
    ensures exists x :: x in repo && x.id == id && Wanted(x, wanted)
  {
    var k :| 0 <= k < |lists| && WantedId(lists[k], wanted, id);
    var i :| 0 <= i < |lists[k]| && lists[k][i].id == id && Wanted(lists[k][i], wanted);
    assert Serves(repo, names[k], lists[k]) && lists[k][i] in lists[k];
  }

  /** The listing by states is exact for any one-to-one mappings: it has precisely the repository's
      issues whose derived state was asked for. */
  lemma ListingIsExact(repo: set<RepoIssue>, m: seq<Mapping>, states: seq<string>, names: seq<string>,
                       lists: seq<seq<RepoIssue>>, out: seq<Listed>, id: string)
    requires OneToOne(m) && LabelsOf(m, states, names)
    requires ServesLabels(repo, names, lists) && Union(lists, Query(m, StateSet(states)), out)
    ensures HasId(out, id) <==> exists x :: x in repo && x.id == id && Wanted(x, Query(m, StateSet(states)))
  {
    if x :| x in repo && x.id == id && Wanted(x, Query(m, StateSet(states))) {
      WantedIsListed(repo, m, states, names, lists, x);
    }
    if HasId(out, id) {
      ListedIsWanted(repo, names, lists, Query(m, StateSet(states)), id);
    }
  }

  /** The issues a query sees: closed ones only if asked for. */
  function Visible(repo: set<RepoIssue>, closedToo: bool): set<RepoIssue> {
    set x | x in repo && (closedToo || !x.closed)
  }

  /** c is issue x, in the state its labels put it in, which is one of those asked for. */
  ghost predicate Fits(x: RepoIssue, m: seq<Mapping>, states: seq<string>, c: Listed) {
    c.id == x.id && InState(m, x.labels, c.state) && Fold(c.state) != "" && exists s :: s in states && Fold(s) == Fold(c.state)
  }

  lemma FitsIs(x: RepoIssue, m: seq<Mapping>, states: seq<string>, c: Listed)
    ensures Fits(x, m, states, c) <==> Wanted(x, Query(m, StateSet(states))) && c == Convert(x, Query(m, StateSet(states)))
  {
    DerivedIs(m, x.labels, c.state);
  }

  /** What was asked for: every issue of the repository in one of the states, once, with its state, and
      nothing else. */
  ghost predicate ExactFor(repo: set<RepoIssue>, m: seq<Mapping>, states: seq<string>, out: seq<Listed>) {
    && UniqueIds(out)
    && (forall c :: c in out ==> exists x :: x in repo && Fits(x, m, states, c))
    && (forall x, c :: x in repo && Fits(x, m, states, c) ==> HasId(out, x.id))
  }

  const DEFAULT_TERMINAL: seq<string> := ["Closed", "Cancelled", "Canceled", "Duplicate", "Done"]

  /** The terminal states in force: the defaults unless some are configured. */
  function Terminals(configured: seq<string>): seq<string> {
    if forall c :: c in configured ==> Fold(c) == "" then DEFAULT_TERMINAL else configured
  }

  /** Some state asked for is terminal. */
  predicate WantsClosed(states: seq<string>, terminal: seq<string>) {
    exists s, c :: s in states && c in Terminals(terminal) && Fold(s) == Fold(c) && Fold(s) != ""
  }

  /** giteaAPIStateForWorkflowStates: closed issues are listed if some state asked for is terminal. */
  method ClosedToo(states: seq<string>, terminal: seq<string>) returns (closedToo: bool)
    ensures closedToo == WantsClosed(states, terminal)
  {
    var ends := StateSet(terminal);
    if ends == {} {
      ends := StateSet(DEFAULT_TERMINAL);
    }
    TerminalsAre(terminal, ends);
    for i := 0 to |states|
      invariant forall s :: s in states[..i] ==> Fold(s) !in ends
    {
      if Fold(states[i]) in ends {
        return true;
      }
      assert states[..i + 1] == states[..i] + [states[i]];
    }
    return false;
  }

  lemma TerminalsAre(terminal: seq<string>, ends: set<string>)
    requires ends == if StateSet(terminal) == {} then StateSet(DEFAULT_TERMINAL) else StateSet(terminal)
    ensures forall key :: key in ends <==> key != "" && exists c :: c in Terminals(terminal) && Fold(c) == key
  {
    assert StateSet(terminal) == {} <==> forall c :: c in terminal ==> Fold(c) == "" by {
      assert forall c :: c in terminal && Fold(c) != "" ==> Fold(c) in StateSet(terminal);
    }
  }

  /** These states are listed by this label, or by none if none of them has one. */
  predicate Queried(states: seq<string>, name: Option<string>) {
    if name.None? then forall s :: s in states ==> LabelFor(DEFAULT, Fold(s)).None?
    else exists s :: s in states && LabelFor(DEFAULT, Fold(s)) == name
  }

  /** Why a listing may be refused: a page of a label queried was out of reach, an issue was unreadable,
      or a list was beyond the cap. */
  ghost predicate RefusedFor(states: seq<string>, closedToo: bool, query: (Option<string>, bool) -> seq<RepoIssue>,
                             maxPages: nat, reachable: (Option<string>, nat) -> bool, visible: set<RepoIssue>)
  {
    || (exists l, p :: Queried(states, l) && 1 <= p <= maxPages + 1 && !reachable(l, p))
    || (exists x :: x in visible && !x.readable)
    || exists l :: Queried(states, l) && |query(l, closedToo)| > maxPages * 50
  }

  /** No state asked for has a label: one unfiltered list. */
  method ListUnlabelled(states: seq<string>, closedToo: bool, query: (Option<string>, bool) -> seq<RepoIssue>,
                        maxPages: nat, reachable: (Option<string>, nat) -> bool, ghost visible: set<RepoIssue>)
    returns (r: Listing)
    requires Queried(states, None) && forall x :: x in query(None, closedToo) <==> x in visible
    ensures r.Issues? ==> ExactFor(visible, DEFAULT, states, r.issues)
    ensures !r.Issues? ==> RefusedFor(states, closedToo, query, maxPages, reachable, visible)
  {
    var wanted, all := Query(DEFAULT, StateSet(states)), query(None, closedToo);
    r := ListByLabel(all, maxPages, wanted, {}, (p: nat) => reachable(None, p));
    if r.Issues? {
      AllIsExact(visible, states, all, r.issues);
    }
  }

  /** One list for each label of the states asked for. */
  method ListLabelled(states: seq<string>, names: seq<string>, closedToo: bool, query: (Option<string>, bool) -> seq<RepoIssue>,
                      maxPages: nat, reachable: (Option<string>, nat) -> bool, ghost visible: set<RepoIssue>)
    returns (r: Listing)
    requires LabelsOf(DEFAULT, states, names) && forall name :: Serves(visible, name, query(Some(name), closedToo))
    ensures r.Issues? ==> ExactFor(visible, DEFAULT, states, r.issues)
    ensures !r.Issues? ==> RefusedFor(states, closedToo, query, maxPages, reachable, visible)
  {
    var wanted := Query(DEFAULT, StateSet(states));
    var lists := seq(|names|, i requires 0 <= i < |names| => query(Some(names[i]), closedToo));
    assert ServesLabels(visible, names, lists);
    r := ListByStates(lists, maxPages, wanted, (k: nat, p: nat) => k < |names| && reachable(Some(names[k]), p));
    forall k | 0 <= k < |names| ensures Queried(states, Some(names[k])) {
      assert names[k] in names;
    }
    if r.Issues? {
      NamedIsExact(visible, states, names, lists, r.issues);
    } else {
      forall k, x: RepoIssue | 0 <= k < |lists| && x in lists[k] ensures x in visible {
        assert Serves(visible, names[k], lists[k]);
      }
    }
  }

  /** ListIssuesByStates. `query` answers for a label, or for none when no state has a label, with or
      without closed issues; `reachable` tells which of its pages can be fetched. */
  method ListIssuesByStates(states: seq<string>, terminal: seq<string>, query: (Option<string>, bool) -> seq<RepoIssue>,
                            maxPages: nat, reachable: (Option<string>, nat) -> bool, ghost repo: set<RepoIssue>)
    returns (r: Listing)
    requires forall name, closedToo :: Serves(Visible(repo, closedToo), name, query(Some(name), closedToo))
    requires forall closedToo, x :: x in query(None, closedToo) <==> x in Visible(repo, closedToo)
    ensures var closedToo := WantsClosed(states, terminal);
            if r.Issues? then ExactFor(Visible(repo, closedToo), DEFAULT, states, r.issues)
            else RefusedFor(states, closedToo, query, maxPages, reachable, Visible(repo, closedToo))
  {
    if StateSet(states) == {} {
      NothingAsked(Visible(repo, WantsClosed(states, terminal)), states);
      return Issues([]);
    }
    var closedToo := ClosedToo(states, terminal);
    ghost var visible := Visible(repo, closedToo);
    var names := LabelNamesForStates(states, DEFAULT);
    if names == [] {
      NoLabels(states, names);
      r := ListUnlabelled(states, closedToo, query, maxPages, reachable, visible);
    } else {
      r := ListLabelled(states, names, closedToo, query, maxPages, reachable, visible);
    }
  }

  lemma NothingAsked(repo: set<RepoIssue>, states: seq<string>)
    requires StateSet(states) == {}
    ensures ExactFor(repo, DEFAULT, states, [])
  {
    forall s | s in states ensures Fold(s) == "" {
      assert Fold(s) != "" ==> Fold(s) in StateSet(states);
    }
  }

  lemma LabelIsNamed(m: seq<Mapping>, states: seq<string>, names: seq<string>, s: string)
    requires LabelsOf(m, states, names) && s in states
    ensures LabelFor(m, Fold(s)).Some? ==> LabelFor(m, Fold(s)).value in names
  {
  }

  lemma NoLabels(states: seq<string>, names: seq<string>)
    requires LabelsOf(DEFAULT, states, names) && names == []
    ensures Queried(states, None)
  {
    forall s | s in states ensures LabelFor(DEFAULT, Fold(s)).None? {
      LabelIsNamed(DEFAULT, states, names, s);
    }
  }

  /** What the lists yield is exact if the wanted ids are. */
  lemma ExactIf(repo: set<RepoIssue>, m: seq<Mapping>, states: seq<string>, out: seq<Listed>)
    requires UniqueIds(out)
    requires var wanted := Query(m, StateSet(states));
             && (forall c :: c in out ==> exists x :: x in repo && Wanted(x, wanted) && c == Convert(x, wanted))
             && (forall x :: x in repo && Wanted(x, wanted) ==> HasId(out, x.id))
    ensures ExactFor(repo, m, states, out)
  {
    var wanted := Query(m, StateSet(states));
    forall c | c in out ensures exists x :: x in repo && Fits(x, m, states, c) {
      var x :| x in repo && Wanted(x, wanted) && c == Convert(x, wanted);
      FitsIs(x, m, states, c);
    }
    forall x, c | x in repo && Fits(x, m, states, c) ensures HasId(out, x.id) {
      FitsIs(x, m, states, c);
    }
  }

  lemma NamedIsExact(repo: set<RepoIssue>, states: seq<string>, names: seq<string>, lists: seq<seq<RepoIssue>>, out: seq<Listed>)
    requires LabelsOf(DEFAULT, states, names) && ServesLabels(repo, names, lists)
    requires Union(lists, Query(DEFAULT, StateSet(states)), out)
    ensures ExactFor(repo, DEFAULT, states, out)
  {
    var wanted := Query(DEFAULT, StateSet(states));
    DefaultIsOneToOne();
    forall c | c in out ensures exists x :: x in repo && Wanted(x, wanted) && c == Convert(x, wanted) {
      SourceIsServed(repo, names, lists, wanted, c);
    }
    forall x | x in repo && Wanted(x, wanted) ensures HasId(out, x.id) {
      ListingIsExact(repo, DEFAULT, states, names, lists, out, x.id);
    }
    ExactIf(repo, DEFAULT, states, out);
  }

  lemma SourceIsServed(repo: set<RepoIssue>, names: seq<string>, lists: seq<seq<RepoIssue>>, wanted: Query, c: Listed)
    requires ServesLabels(repo, names, lists) && SourcedIn(lists, wanted, c)
    ensures exists x :: x in repo && Wanted(x, wanted) && c == Convert(x, wanted)
  {
    var k :| 0 <= k < |lists| && Sourced(lists[k], wanted, c);
    var i :| 0 <= i < |lists[k]| && Convert(lists[k][i], wanted) == c && Wanted(lists[k][i], wanted);
    assert Serves(repo, names[k], lists[k]) && lists[k][i] in lists[k];
  }

  lemma AllIsExact(repo: set<RepoIssue>, states: seq<string>, all: seq<RepoIssue>, out: seq<Listed>)
    requires (forall x :: x in all <==> x in repo) && Collected(all, Query(DEFAULT, StateSet(states)), {}, out)
    ensures ExactFor(repo, DEFAULT, states, out)
  {
    var wanted := Query(DEFAULT, StateSet(states));
    forall c | c in out ensures exists x :: x in repo && Wanted(x, wanted) && c == Convert(x, wanted) {
      var i :| 0 <= i < |all| && Convert(all[i], wanted) == c && Wanted(all[i], wanted);
      assert all[i] in repo;
    }
    forall x | x in repo && Wanted(x, wanted) ensures HasId(out, x.id) {
      var i :| 0 <= i < |all| && all[i] == x;
      assert WantedId(all, wanted, x.id);
    }
    ExactIf(repo, DEFAULT, states, out);
  }
}
