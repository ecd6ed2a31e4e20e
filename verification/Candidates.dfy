/** The candidate pipeline of a poll tick: carry-over of candidates that found no free slot, the
    eligibility filter, the dispatch order, and the revalidation of what can still be dispatched. */
module Candidates {
  import opened Prelude
  import opened Tracker

  // ---------------------------------------------------------------------------------------------
  // The dispatch order

  /** Lexicographic comparison of identifiers: negative, zero or positive. */
  function CompareText(a: string, b: string): int {
    if a == "" && b == "" then 0
    else if a == "" then -1
    else if b == "" then 1
    else if a[0] < b[0] then -1
    else if a[0] > b[0] then 1
    else CompareText(a[1..], b[1..])
  }

  /** An issue without a creation time comes after every issue that has one. */
  function CompareCreated(a: Option<int>, b: Option<int>): int {
    if a.None? && b.None? then 0
    else if a.None? then 1
    else if b.None? then -1
    else if a.value < b.value then -1
    else if a.value > b.value then 1
    else 0
  }

  /** Priorities outside 1 to 4 sort last, as 5. */
  function PriorityKey(priority: int): int {
    if 1 <= priority <= 4 then priority else 5
  }

  /** The comparator of sortCandidates. */
  predicate Before(a: TrackerIssue, b: TrackerIssue) {
    if PriorityKey(a.priority) != PriorityKey(b.priority) then PriorityKey(a.priority) < PriorityKey(b.priority)
    else if CompareCreated(a.createdAt, b.createdAt) < 0 then true
    else if CompareCreated(a.createdAt, b.createdAt) > 0 then false
    else CompareText(a.identifier, b.identifier) < 0
  }

  lemma {:induction false} TextOrder(a: string, b: string, c: string)
    ensures CompareText(a, b) == -CompareText(b, a)
    ensures CompareText(a, b) <= 0 && CompareText(b, c) <= 0 ==> CompareText(a, c) <= 0
    ensures CompareText(a, b) <= 0 && CompareText(b, c) <= 0 && CompareText(a, c) == 0 ==>
              CompareText(a, b) == 0 && CompareText(b, c) == 0
    ensures CompareText(a, b) == 0 <==> a == b
  {
    if a != "" && b != "" {
      TextOrder(a[1..], b[1..], if c == "" then "" else c[1..]);
      assert a == [a[0]] + a[1..] && b == [b[0]] + b[1..];
    }
  }

  /** The comparator is a strict weak order: it never orders both ways, it is transitive, and so is
      not being ordered. Issues it does not order agree on all three keys. */
  lemma BeforeIsStrictWeakOrder(a: TrackerIssue, b: TrackerIssue, c: TrackerIssue)
    ensures !(Before(a, b) && Before(b, a))
    ensures Before(a, b) && Before(b, c) ==> Before(a, c)
    ensures !Before(a, b) && !Before(b, c) ==> !Before(a, c)
    ensures !Before(a, b) && !Before(b, a) <==>
              PriorityKey(a.priority) == PriorityKey(b.priority) && a.createdAt == b.createdAt && a.identifier == b.identifier
  {
    TextOrder(a.identifier, b.identifier, c.identifier);
    TextOrder(c.identifier, b.identifier, a.identifier);
    TextOrder(b.identifier, c.identifier, a.identifier);
    TextOrder(a.identifier, c.identifier, b.identifier);
  }

  // What the order is for, field by field

  predicate Ranked(priority: int) {
    1 <= priority <= 4
  }

  predicate SamePriority(a: TrackerIssue, b: TrackerIssue) {
    a.priority == b.priority || (!Ranked(a.priority) && !Ranked(b.priority))
  }

  /** a is a prefix of b, or smaller at the first character where they differ. */
  ghost predicate LexAtMost(a: string, b: string) {
    a <= b || exists k :: 0 <= k < |a| && k < |b| && a[..k] == b[..k] && a[k] < b[k]
  }

  /** a may be dispatched ahead of b: the smaller priority of 1 to 4 first and all others last, then
      the older issue and one of unknown age last, then the smaller identifier. */
  ghost predicate MayLead(a: TrackerIssue, b: TrackerIssue) {
    && (Ranked(b.priority) ==> Ranked(a.priority) && a.priority <= b.priority)
    && (SamePriority(a, b) && b.createdAt.Some? ==> a.createdAt.Some? && a.createdAt.value <= b.createdAt.value)
    && (SamePriority(a, b) && a.createdAt == b.createdAt ==> LexAtMost(a.identifier, b.identifier))
  }

  lemma LexAtMostNext(a: string, b: string)
    requires a != "" && b != "" && a[0] == b[0]
    ensures LexAtMost(a, b) <==> LexAtMost(a[1..], b[1..])
  {
    assert a == [a[0]] + a[1..] && b == [b[0]] + b[1..];
    if k :| 0 <= k < |a| && k < |b| && a[..k] == b[..k] && a[k] < b[k] {
      assert k > 0 && a[1..][..k - 1] == a[..k][1..] && b[1..][..k - 1] == b[..k][1..];
      assert a[1..][k - 1] < b[1..][k - 1];
    }
    if k :| 0 <= k < |a[1..]| && k < |b[1..]| && a[1..][..k] == b[1..][..k] && a[1..][k] < b[1..][k] {
      assert a[..k + 1] == [a[0]] + a[1..][..k] && b[..k + 1] == [b[0]] + b[1..][..k];
      assert a[k + 1] < b[k + 1];
    }
  }

  lemma FirstDecides(a: string, b: string)
    requires a != "" && b != ""
    ensures LexAtMost(a, b) ==> a[0] <= b[0]
  {
    if k :| 0 <= k < |a| && k < |b| && a[..k] == b[..k] && a[k] < b[k] {
      assert k > 0 ==> a[..k][0] == a[0] && b[..k][0] == b[0];
    }
  }

  lemma {:induction false} TextIsLexicographic(a: string, b: string)
    ensures CompareText(a, b) <= 0 <==> LexAtMost(a, b)
  {
    if a == "" || b == "" {
    } else if a[0] == b[0] {
      LexAtMostNext(a, b);
      TextIsLexicographic(a[1..], b[1..]);
    } else {
      assert a[..0] == b[..0];
      FirstDecides(a, b);
    }
  }

  /** The comparator refuses to put b ahead of a exactly if a may lead. */
  lemma MayLeadIs(a: TrackerIssue, b: TrackerIssue)
    ensures !Before(b, a) <==> MayLead(a, b)
  {
    TextIsLexicographic(a.identifier, b.identifier);
    TextOrder(a.identifier, b.identifier, "");
  }

  ghost predicate Led(s: seq<TrackerIssue>) {
    forall i, j :: 0 <= i < j < |s| ==> MayLead(s[i], s[j])
  }

  lemma OrderedIsLed(s: seq<TrackerIssue>)
    ensures Ordered(s) <==> Led(s)
  {
    forall i, j | 0 <= i < j < |s| ensures !Before(s[j], s[i]) <==> MayLead(s[i], s[j]) {
      MayLeadIs(s[i], s[j]);
    }
  }

  /** Sorting puts every candidate behind those that must lead it. */
  lemma SortLeads(s: seq<TrackerIssue>)
    ensures Led(SortCandidates(s)) && multiset(SortCandidates(s)) == multiset(s)
  {
    if s != [] {
      SortIsStable(s, s[0]);
    }
    OrderedIsLed(SortCandidates(s));
  }

  ghost predicate Ordered(s: seq<TrackerIssue>) {
    forall i, j :: 0 <= i < j < |s| ==> !Before(s[j], s[i])
  }

  predicate Tied(a: TrackerIssue, b: TrackerIssue) {
    !Before(a, b) && !Before(b, a)
  }

  /** The issues the order cannot tell from x, in sequence. */
  function TiedWith(x: TrackerIssue, s: seq<TrackerIssue>): seq<TrackerIssue> {
    if s == [] then [] else (if Tied(x, s[0]) then [s[0]] else []) + TiedWith(x, s[1..])
  }

  function Insert(x: TrackerIssue, s: seq<TrackerIssue>): seq<TrackerIssue> {
    if s == [] || !Before(s[0], x) then [x] + s else [s[0]] + Insert(x, s[1..])
  }

  /** What a stable sort of the candidates yields. */
  function SortCandidates(s: seq<TrackerIssue>): seq<TrackerIssue> {
    if s == [] then [] else Insert(s[0], SortCandidates(s[1..]))
  }

  lemma {:induction false} InsertPermutes(x: TrackerIssue, s: seq<TrackerIssue>)
    ensures multiset(Insert(x, s)) == multiset([x] + s)
  {
    if s != [] && Before(s[0], x) {
      InsertPermutes(x, s[1..]);
      assert s == [s[0]] + s[1..];
    }
  }

  lemma {:induction false} InsertOrders(x: TrackerIssue, s: seq<TrackerIssue>)
    requires Ordered(s)
    ensures Ordered(Insert(x, s))
  {
    if s == [] || !Before(s[0], x) {
      forall j | 0 <= j < |s| ensures !Before(s[j], x) {
        BeforeIsStrictWeakOrder(s[j], s[0], x);
      }
    } else {
      var rest := Insert(x, s[1..]);
      InsertOrders(x, s[1..]);
      InsertPermutes(x, s[1..]);
      forall j | 0 <= j < |rest| ensures !Before(rest[j], s[0]) {
        assert rest[j] in multiset([x] + s[1..]);
        BeforeIsStrictWeakOrder(s[0], x, s[0]);
      }
    }
  }

  lemma {:induction false} InsertKeepsTies(x: TrackerIssue, s: seq<TrackerIssue>, y: TrackerIssue)
    ensures TiedWith(y, Insert(x, s)) == TiedWith(y, [x] + s)
  {
    assert ([x] + s)[1..] == s;
    if s != [] && Before(s[0], x) {
      var rest := Insert(x, s[1..]);
      InsertKeepsTies(x, s[1..], y);
      assert ([x] + s[1..])[1..] == s[1..] && ([s[0]] + rest)[1..] == rest;
      BeforeIsStrictWeakOrder(s[0], y, x);
    }
  }

  /** Sorting permutes, orders, and keeps tied candidates in listing order. */
  lemma {:induction false} SortIsStable(s: seq<TrackerIssue>, y: TrackerIssue)
    ensures multiset(SortCandidates(s)) == multiset(s)
    ensures Ordered(SortCandidates(s))
    ensures TiedWith(y, SortCandidates(s)) == TiedWith(y, s)
  {
    if s != [] {
      SortIsStable(s[1..], y);
      InsertPermutes(s[0], SortCandidates(s[1..]));
      InsertOrders(s[0], SortCandidates(s[1..]));
      InsertKeepsTies(s[0], SortCandidates(s[1..]), y);
      assert s == [s[0]] + s[1..];
      assert ([s[0]] + SortCandidates(s[1..]))[1..] == SortCandidates(s[1..]);
    }
  }

  // ---------------------------------------------------------------------------------------------
  // Carry-over

  ghost predicate UniqueIds(s: seq<TrackerIssue>) {
    forall i, j :: 0 <= i < j < |s| ==> s[i].id != s[j].id
  }

  ghost predicate ListsId(s: seq<TrackerIssue>, id: string) {
    exists i :: 0 <= i < |s| && s[i].id == id
  }

  /** The issues of each id in a listing; the last one wins. Blank ids are left out. */
  method ByIdMap(issues: seq<TrackerIssue>) returns (byId: map<string, TrackerIssue>)
    ensures forall id :: id in byId <==> id != "" && ListsId(issues, id)
    ensures forall id :: id in byId ==> byId[id] in issues && byId[id].id == id
  {
    byId := map[];
    for i := 0 to |issues|
      invariant forall id :: id in byId <==> id != "" && exists j :: 0 <= j < i && issues[j].id == id
      invariant forall id :: id in byId ==> byId[id] in issues && byId[id].id == id
    {
      if issues[i].id != "" {
        byId := byId[issues[i].id := issues[i]];
      }
    }
  }

  /** Each issue of `out` has the id of the one it comes from, and they keep their order. */
  ghost predicate InOrderOf(s: seq<TrackerIssue>, out: seq<TrackerIssue>, from: seq<nat>) {
    && |out| == |from| && (forall k :: 0 <= k < |from| ==> from[k] < |s| && out[k].id == s[from[k]].id)
    && (forall j, k :: 0 <= j < k < |from| ==> from[j] < from[k])
  }

  lemma NextInOrder(s: seq<TrackerIssue>, out: seq<TrackerIssue>, from: seq<nat>, i: nat, c: TrackerIssue)
    requires InOrderOf(s, out, from) && i < |s| && c.id == s[i].id && forall k :: 0 <= k < |from| ==> from[k] < i
    ensures InOrderOf(s, out + [c], from + [i]) && forall k :: 0 <= k < |from + [i]| ==> (from + [i])[k] < i + 1
  {
  }

  /** First the candidates left over, in their order, then the rest of the listing in its order. */
  ghost predicate Merges(overflow: seq<TrackerIssue>, listing: seq<TrackerIssue>, merged: seq<TrackerIssue>, n: nat) {
    && n <= |merged|
    && (exists from :: InOrderOf(overflow, merged[..n], from))
    && (exists from :: InOrderOf(listing, merged[n..], from))
    && (forall c :: c in merged[n..] ==> c.id == "" || !ListsId(overflow, c.id))
  }

  /** Overflow candidates that are still listed, each as it is listed now. */
  method StillListed(overflow: seq<TrackerIssue>, byId: map<string, TrackerIssue>)
    returns (kept: seq<TrackerIssue>, seen: set<string>, ghost from: seq<nat>)
    requires forall id :: id in byId ==> byId[id].id == id
    ensures forall id :: id in seen <==> id in byId && ListsId(overflow, id)
    ensures forall id :: id in seen <==> ListsId(kept, id)
    ensures forall c :: c in kept ==> c.id in byId && c == byId[c.id]
    ensures InOrderOf(overflow, kept, from)
  {
    kept, seen, from := [], {}, [];
    for i := 0 to |overflow|
      invariant forall id :: id in seen <==> id in byId && exists j :: 0 <= j < i && overflow[j].id == id
      invariant forall id :: id in seen <==> ListsId(kept, id)
      invariant forall c :: c in kept ==> c.id in byId && c == byId[c.id]
      invariant InOrderOf(overflow, kept, from) && forall k :: 0 <= k < |from| ==> from[k] < i
    {
      var id := overflow[i].id;
      if id in byId {
        ghost var before := kept;
        NextInOrder(overflow, kept, from, i, byId[id]);
        seen, kept, from := seen + {id}, kept + [byId[id]], from + [i];
        forall x ensures ListsId(kept, x) <==> ListsId(before, x) || x == id {
          Appended(before, byId[id], x);
        }
      }
    }
  }

  lemma Appended(s: seq<TrackerIssue>, c: TrackerIssue, id: string)
    ensures ListsId(s + [c], id) <==> ListsId(s, id) || id == c.id
  {
    if ListsId(s, id) {
      var i :| 0 <= i < |s| && s[i].id == id;
      assert (s + [c])[i].id == id;
    }
    assert (s + [c])[|s|] == c;
  }

  lemma OrderKeepsUnique(s: seq<TrackerIssue>, out: seq<TrackerIssue>, from: seq<nat>)
    requires InOrderOf(s, out, from) && UniqueIds(s)
    ensures UniqueIds(out)
  {
  }

  method NotSeen(listing: seq<TrackerIssue>, seen: set<string>) returns (rest: seq<TrackerIssue>, ghost from: seq<nat>)
    ensures forall c :: c in rest <==> c in listing && c.id !in seen
    ensures InOrderOf(listing, rest, from)
  {
    rest, from := [], [];
    for i := 0 to |listing|
      invariant forall c :: c in rest <==> c in listing[..i] && c.id !in seen
      invariant InOrderOf(listing, rest, from) && forall k :: 0 <= k < |from| ==> from[k] < i
    {
      var c := listing[i];
      assert forall x :: x in listing[..i + 1] <==> x in listing[..i] || x == c;
      if c.id !in seen {
        NextInOrder(listing, rest, from, i, c);
        rest, from := rest + [c], from + [i];
      }
    }
    assert listing[..|listing|] == listing;
  }

  lemma {:induction false} SameMembers(a: seq<TrackerIssue>, b: seq<TrackerIssue>)
    requires UniqueIds(a) && UniqueIds(b) && forall c :: c in a <==> c in b
    ensures multiset(a) == multiset(b)
  {
    forall c ensures multiset(a)[c] == multiset(b)[c] {
      AtMostOnce(a, c);
      AtMostOnce(b, c);
    }
  }

  lemma {:induction false} AtMostOnce(s: seq<TrackerIssue>, c: TrackerIssue)
    requires UniqueIds(s)
    ensures multiset(s)[c] == if c in s then 1 else 0
  {
    if s != [] {
      AtMostOnce(s[1..], c);
      assert s == [s[0]] + s[1..];
    }
  }

  /** mergeOverflowCandidates: the carried candidates come first, as they are listed now. Nothing
      unlisted comes back, no listed id is lost, and if ids are unique the result is a permutation of
      the listing. */
  method MergeOverflow(overflow: seq<TrackerIssue>, listing: seq<TrackerIssue>) returns (merged: seq<TrackerIssue>)
    ensures exists n :: Merges(overflow, listing, merged, n)
    ensures forall c :: c in merged ==> c in listing
    ensures forall c :: c in listing ==> ListsId(merged, c.id)
    ensures UniqueIds(overflow) && UniqueIds(listing) ==> UniqueIds(merged) && multiset(merged) == multiset(listing)
  {
    if overflow == [] {
      forall c | c in listing ensures ListsId(listing, c.id) {
      }
      NothingLeftOver(listing);
      return listing;
    }
    var byId := ByIdMap(listing);
    var kept, seen, fromKept := StillListed(overflow, byId);
    var rest, fromRest := NotSeen(listing, seen);
    merged := kept + rest;
    forall c | c in rest ensures c.id == "" || !ListsId(overflow, c.id) {
      assert ListsId(listing, c.id);
    }
    MergedInOrder(overflow, listing, kept, rest, fromKept, fromRest);
    MergedAll(listing, kept, rest, seen);
    if UniqueIds(overflow) && UniqueIds(listing) {
      OrderKeepsUnique(overflow, kept, fromKept);
      OrderKeepsUnique(listing, rest, fromRest);
      MergedOnce(listing, kept, rest, seen);
    }
  }

  lemma NothingLeftOver(listing: seq<TrackerIssue>)
    ensures Merges([], listing, listing, 0)
  {
    assert InOrderOf([], listing[..0], []);
    assert listing[0..] == listing;
    assert InOrderOf(listing, listing[0..], seq(|listing|, i => i));
  }

  lemma MergedInOrder(overflow: seq<TrackerIssue>, listing: seq<TrackerIssue>, kept: seq<TrackerIssue>, rest: seq<TrackerIssue>,
                      fromKept: seq<nat>, fromRest: seq<nat>)
    requires InOrderOf(overflow, kept, fromKept) && InOrderOf(listing, rest, fromRest)
    requires forall c :: c in rest ==> c.id == "" || !ListsId(overflow, c.id)
    ensures Merges(overflow, listing, kept + rest, |kept|)
  {
    assert (kept + rest)[..|kept|] == kept && (kept + rest)[|kept|..] == rest;
  }

  lemma MergedAll(listing: seq<TrackerIssue>, kept: seq<TrackerIssue>, rest: seq<TrackerIssue>, seen: set<string>)
    requires forall c :: c in rest <==> c in listing && c.id !in seen
    requires forall id :: id in seen <==> ListsId(kept, id)
    ensures forall c :: c in listing ==> ListsId(kept + rest, c.id)
  {
    var merged := kept + rest;
    forall c | c in listing ensures ListsId(merged, c.id) {
      if c.id in seen {
        var i :| 0 <= i < |kept| && kept[i].id == c.id;
        assert merged[i].id == c.id;
      } else {
        var i :| 0 <= i < |rest| && rest[i] == c;
        assert merged[|kept| + i].id == c.id;
      }
    }
  }

  lemma MergedOnce(listing: seq<TrackerIssue>, kept: seq<TrackerIssue>, rest: seq<TrackerIssue>, seen: set<string>)
    requires UniqueIds(listing) && UniqueIds(kept) && UniqueIds(rest) && forall c :: c in kept ==> c in listing
    requires forall c :: c in rest <==> c in listing && c.id !in seen
    requires forall id :: id in seen <==> ListsId(kept, id)
    ensures UniqueIds(kept + rest) && multiset(kept + rest) == multiset(listing)
  {
    var merged := kept + rest;
    forall i, j | 0 <= i < j < |merged| ensures merged[i].id != merged[j].id {
      if i < |kept| <= j {
        assert ListsId(kept, merged[i].id) && merged[j] in rest;
      }
    }
    forall c | c in listing ensures c in merged {
      OnlyOne(listing, kept, c);
    }
    SameMembers(merged, listing);
  }

  lemma OnlyOne(listing: seq<TrackerIssue>, kept: seq<TrackerIssue>, c: TrackerIssue)
    requires UniqueIds(listing) && c in listing && forall k :: k in kept ==> k in listing
    ensures ListsId(kept, c.id) ==> c in kept
  {
    if ListsId(kept, c.id) {
      var i :| 0 <= i < |kept| && kept[i].id == c.id;
      assert kept[i] in listing;
    }
  }

  // ---------------------------------------------------------------------------------------------
  // Eligibility and revalidation

  predicate HasRequiredFields(issue: TrackerIssue) {
    !Blank(issue.id) && !Blank(issue.identifier) && !Blank(issue.title) && !Blank(issue.state)
  }

  predicate Eligible(cfg: Settings, issue: TrackerIssue) {
    HasRequiredFields(issue) && !BlockedTodo(cfg, issue) && HasRequiredLabels(issue.labels, cfg.requiredLabels)
  }

  /** `out` picks issues of `s` in its order: out[k] comes from s[from[k]]. */
  ghost predicate OrderedPick(s: seq<TrackerIssue>, out: seq<TrackerIssue>, from: seq<nat>) {
    && |out| == |from|
    && (forall k :: 0 <= k < |from| ==> from[k] < |s| && out[k].id == s[from[k]].id && SameKeys(out[k], s[from[k]]))
    && (forall j, k :: 0 <= j < k < |from| ==> from[j] < from[k])
  }

  predicate SameKeys(a: TrackerIssue, b: TrackerIssue) {
    a.priority == b.priority && a.createdAt == b.createdAt && a.identifier == b.identifier
  }

  lemma NextPick(s: seq<TrackerIssue>, out: seq<TrackerIssue>, from: seq<nat>, i: nat, c: TrackerIssue)
    requires OrderedPick(s, out, from) && i < |s| && c.id == s[i].id && SameKeys(c, s[i]) && forall k :: 0 <= k < |from| ==> from[k] < i
    ensures OrderedPick(s, out + [c], from + [i]) && forall k :: 0 <= k < |from + [i]| ==> (from + [i])[k] < i + 1
  {
  }

  lemma PickKeepsOrder(s: seq<TrackerIssue>, out: seq<TrackerIssue>, from: seq<nat>)
    requires OrderedPick(s, out, from)
    ensures Ordered(s) ==> Ordered(out)
    ensures UniqueIds(s) ==> UniqueIds(out)
  {
  }

  method IsEligible(cfg: Settings, issue: TrackerIssue) returns (ok: bool)
    ensures ok <==> Eligible(cfg, issue)
  {
    if !HasRequiredFields(issue) || BlockedTodo(cfg, issue) {
      return false;
    }
    ok := LabelsSatisfyRequired(issue.labels, cfg.requiredLabels);
  }

  /** The eligibility filter and the removal of issues the reconcile pass just found inactive. */
  method FilterEligible(cfg: Settings, issues: seq<TrackerIssue>, inactive: set<string>)
    returns (out: seq<TrackerIssue>, ghost from: seq<nat>)
    ensures OrderedPick(issues, out, from)
    ensures forall c :: c in out <==> c in issues && Eligible(cfg, c) && c.id !in inactive
  {
    out, from := [], [];
    for i := 0 to |issues|
      invariant OrderedPick(issues, out, from) && forall k :: 0 <= k < |from| ==> from[k] < i
      invariant forall c :: c in out <==> c in issues[..i] && Eligible(cfg, c) && c.id !in inactive
    {
      var eligible := IsEligible(cfg, issues[i]);
      assert forall c :: c in issues[..i + 1] <==> c in issues[..i] || c == issues[i];
      if eligible && issues[i].id !in inactive {
        NextPick(issues, out, from, i, issues[i]);
        out, from := out + [issues[i]], from + [i];
      }
    }
    assert issues[..|issues|] == issues;
  }

  /** A candidate with its current row's state, labels and, if the row has any, blockers. */
  function Carry(issue: TrackerIssue, row: Row): TrackerIssue
    requires row.Current?
  {
    issue.(state := row.state, labels := row.labels,
           blockedBy := if row.blockedBy.Some? then row.blockedBy.value else issue.blockedBy)
  }

  /** What may be dispatched: a claimable issue whose row is current, active, fully labelled and, if
      it is a todo, not blocked. */
  predicate Dispatchable(cfg: Settings, claimable: set<string>, rows: map<string, Row>, issue: TrackerIssue) {
    var row := RowOf(rows, issue.id);
    && issue.id in claimable && row.Current? && !Blank(row.state)
    && IsActive(cfg, row.state) && HasRequiredLabels(row.labels, cfg.requiredLabels)
    && !BlockedTodo(cfg, Carry(issue, row))
  }

  /** c is candidate i, dispatchable, with its row. */
  predicate Survives(cfg: Settings, claimable: set<string>, rows: map<string, Row>, issue: TrackerIssue, c: TrackerIssue) {
    Dispatchable(cfg, claimable, rows, issue) && c == Carry(issue, RowOf(rows, issue.id))
  }

  /** revalidatedCandidate, behind the claim gate. */
  method Revalidated(cfg: Settings, issue: TrackerIssue, claimable: set<string>, rows: map<string, Row>)
    returns (c: Option<TrackerIssue>)
    ensures c.Some? <==> Dispatchable(cfg, claimable, rows, issue)
    ensures c.Some? ==> Survives(cfg, claimable, rows, issue, c.value)
  {
    var row := RowOf(rows, issue.id);
    if issue.id !in claimable || !row.Current? || Blank(row.state) || !IsActive(cfg, row.state) {
      return None;
    }
    var labelled := LabelsSatisfyRequired(row.labels, cfg.requiredLabels);
    if !labelled || BlockedTodo(cfg, Carry(issue, row)) {
      return None;
    }
    return Some(Carry(issue, row));
  }

  /** filterRevalidatedCandidates. */
  method FilterRevalidated(cfg: Settings, candidates: seq<TrackerIssue>, claimable: set<string>, rows: map<string, Row>)
    returns (kept: seq<TrackerIssue>, ghost from: seq<nat>)
    ensures OrderedPick(candidates, kept, from)
    ensures forall i :: 0 <= i < |candidates| ==> (i in from <==> Dispatchable(cfg, claimable, rows, candidates[i]))
    ensures forall k :: 0 <= k < |kept| ==> Survives(cfg, claimable, rows, candidates[from[k]], kept[k])
    ensures forall c :: c in kept <==> exists f :: f in candidates && Survives(cfg, claimable, rows, f, c)
  {
    kept, from := [], [];
    for i := 0 to |candidates|
      invariant OrderedPick(candidates, kept, from) && forall k :: 0 <= k < |from| ==> from[k] < i
      invariant forall j :: 0 <= j < i ==> (j in from <==> Dispatchable(cfg, claimable, rows, candidates[j]))
      invariant forall k :: 0 <= k < |kept| ==> Survives(cfg, claimable, rows, candidates[from[k]], kept[k])
    {
      var c := Revalidated(cfg, candidates[i], claimable, rows);
      if c.Some? {
        NextPick(candidates, kept, from, i, c.value);
        kept, from := kept + [c.value], from + [i];
      }
    }
    forall c ensures c in kept <==> exists f :: f in candidates && Survives(cfg, claimable, rows, f, c) {
      PickedAll(cfg, candidates, claimable, rows, kept, from, c);
    }
  }

  lemma PickedAll(cfg: Settings, candidates: seq<TrackerIssue>, claimable: set<string>, rows: map<string, Row>,
                  kept: seq<TrackerIssue>, from: seq<nat>, c: TrackerIssue)
    requires OrderedPick(candidates, kept, from)
    requires forall i :: 0 <= i < |candidates| ==> (i in from <==> Dispatchable(cfg, claimable, rows, candidates[i]))
    requires forall k :: 0 <= k < |kept| ==> Survives(cfg, claimable, rows, candidates[from[k]], kept[k])
    ensures c in kept <==> exists f :: f in candidates && Survives(cfg, claimable, rows, f, c)
  {
    if f :| f in candidates && Survives(cfg, claimable, rows, f, c) {
      var i :| 0 <= i < |candidates| && candidates[i] == f;
      var k :| 0 <= k < |from| && from[k] == i;
      assert kept[k] == c;
    }
  }

  /** The issue's fields are there, its labels are complete, and as a todo it waits for nothing that is
      not finished. */
  ghost predicate Complete(cfg: Settings, c: TrackerIssue) {
    && Trim(c.id) != "" && Trim(c.identifier) != "" && Trim(c.title) != "" && Trim(c.state) != ""
    && (forall r :: r in cfg.requiredLabels ==> exists l :: l in c.labels && Fold(l) == Fold(r))
    && (Fold(c.state) == "todo" || HasSuffix(Fold(c.state), ":todo") || HasSuffix(Fold(c.state), "/todo") ==>
          forall b :: b in c.blockedBy ==> Fold(b.state) != "" && Fold(b.state) in cfg.terminalStates)
  }

  /** c is the listed issue f with what its current row says, it is claimable and was not just found
      inactive, it is active, and complete both as listed and as refreshed. */
  ghost predicate Due(cfg: Settings, inactive: set<string>, claimable: set<string>, rows: map<string, Row>, f: TrackerIssue,
                      c: TrackerIssue)
  {
    var row := RowOf(rows, f.id);
    && f.id in claimable && f.id !in inactive && row.Current?
    && c == f.(state := row.state, labels := row.labels, blockedBy := c.blockedBy)
    && c.blockedBy == (if row.blockedBy.Some? then row.blockedBy.value else f.blockedBy)
    && Fold(c.state) in cfg.activeStates && Complete(cfg, f) && Complete(cfg, c)
  }

  lemma ComesIfDue(cfg: Settings, inactive: set<string>, claimable: set<string>, rows: map<string, Row>, f: TrackerIssue,
                   c: TrackerIssue)
    ensures Comes(cfg, inactive, claimable, rows, f, c) <==> Due(cfg, inactive, claimable, rows, f, c)
  {
  }

  /** The whole pipeline of a tick with a narrow refresher. What it hands to dispatch is in dispatch
      order, comes from the current listing, and passes every gate on its refreshed row. With unique
      ids nothing listed that passes them is missing and nothing is handed over twice. */
  method TickCandidates(cfg: Settings, overflow: seq<TrackerIssue>, listing: seq<TrackerIssue>, inactive: set<string>,
                        claimable: set<string>, rows: map<string, Row>)
    returns (out: seq<TrackerIssue>)
    ensures Led(out)
    ensures forall c :: c in out ==> exists f :: f in listing && Due(cfg, inactive, claimable, rows, f, c)
    ensures UniqueIds(overflow) && UniqueIds(listing) ==> UniqueIds(out)
    ensures UniqueIds(overflow) && UniqueIds(listing) ==>
              forall f, c :: f in listing && Due(cfg, inactive, claimable, rows, f, c) ==> c in out
  {
    var merged := MergeOverflow(overflow, listing);
    var eligible, picks := FilterEligible(cfg, merged, inactive);
    var sorted := SortCandidates(eligible);
    SortMembers(eligible);
    ghost var from;
    out, from := FilterRevalidated(cfg, sorted, claimable, rows);
    PickKeepsOrder(sorted, out, from);
    OrderedIsLed(out);
    forall c | c in out ensures exists f :: f in listing && Due(cfg, inactive, claimable, rows, f, c) {
      var f :| f in sorted && Survives(cfg, claimable, rows, f, c);
      assert f in eligible && f in merged && f in listing;
      ComesIfDue(cfg, inactive, claimable, rows, f, c);
    }
    if UniqueIds(overflow) && UniqueIds(listing) {
      PickKeepsOrder(merged, eligible, picks);
      SortKeepsUnique(eligible);
      SameMultiset(listing, merged);
      forall f, c | f in listing && Due(cfg, inactive, claimable, rows, f, c) ensures c in out {
        ComesIfDue(cfg, inactive, claimable, rows, f, c);
        assert f in merged && f in sorted;
      }
    }
  }

  lemma SameMultiset(a: seq<TrackerIssue>, b: seq<TrackerIssue>)
    requires multiset(a) == multiset(b)
    ensures forall c :: c in a ==> c in b
  {
    forall c | c in a ensures c in b {
      assert c in multiset(a);
    }
  }

  /** The same as the filters compute it. */
  predicate Comes(cfg: Settings, inactive: set<string>, claimable: set<string>, rows: map<string, Row>, f: TrackerIssue,
                  c: TrackerIssue)
  {
    Eligible(cfg, f) && f.id !in inactive && Survives(cfg, claimable, rows, f, c)
  }

  lemma SortMembers(s: seq<TrackerIssue>)
    ensures Ordered(SortCandidates(s)) && forall c :: c in SortCandidates(s) <==> c in s
  {
    if s != [] {
      SortIsStable(s, s[0]);
    }
    forall c ensures c in SortCandidates(s) <==> c in s {
      assert c in SortCandidates(s) <==> c in multiset(SortCandidates(s));
    }
  }

  lemma SortKeepsUnique(s: seq<TrackerIssue>)
    requires UniqueIds(s)
    ensures UniqueIds(SortCandidates(s))
  {
    if s != [] {
      SortIsStable(s, s[0]);
      var t := SortCandidates(s);
      forall i, j | 0 <= i < j < |t| ensures t[i].id != t[j].id {
        TwiceCounted(t, i, j);
        assert t[i] in s && t[j] in s by {
          SortMembers(s);
        }
        AtMostOnce(s, t[i]);
      }
    }
  }

  lemma TwiceCounted(t: seq<TrackerIssue>, i: nat, j: nat)
    requires i < j < |t|
    ensures t[i] == t[j] ==> multiset(t)[t[i]] >= 2
  {
    assert t == t[..j] + [t[j]] + t[j + 1..];
    assert t[i] in t[..j];
  }
}
