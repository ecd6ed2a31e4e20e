/** The label tool: it moves an issue to a new state by adding the state's label, confirming it, and
    only then deleting the stale state labels, perhaps closing the issue at the end. Any request may
    fail, and a request that fails has changed nothing. */
module LabelReplace {
  import opened Prelude
  import opened GiteaLabels

  /** A label on the issue, as the server reports it; id 0 means the response left it out. */
  datatype Label = Label(id: int, name: string)

  function Keys(labels: seq<Label>): set<string> {
    set l | l in labels && IsStateKey(Fold(l.name)) :: Fold(l.name)
  }

  function Folds(labels: seq<Label>): set<string> {
    set l | l in labels :: Fold(l.name)
  }

  /** The issue the agent works on, the tracker's active and terminal states, and the label mappings
      (the defaults, in the program). */
  datatype Scope = Scope(currentIssue: int, activeStates: seq<string>, terminalStates: seq<string>, mappings: seq<Mapping>)

  function StateOf(scope: Scope, labels: seq<Label>): string {
    StateOfKeys(scope.mappings, Keys(labels))
  }

  predicate Active(scope: Scope, state: string) {
    Names(scope.activeStates, state)
  }

  /** The configured entry that names a state, ignoring case and surrounding space. */
  predicate Names(states: seq<string>, state: string) {
    Trim(state) != "" && exists c :: c in states && Fold(c) == Fold(state)
  }

  predicate Stale(l: Label, desired: string) {
    IsStateKey(Fold(l.name)) && Fold(l.name) != Fold(desired)
  }

  // ---------------------------------------------------------------------------------------------
  // The audit's view of the writes that landed

  /** postWriteStateLabels: current labels without those named like a deleted one, plus the desired. */
  function PredictedKeys(current: seq<Label>, deleted: seq<Label>, desired: string): set<string> {
    (set l | l in current && IsStateKey(Fold(l.name)) && Fold(l.name) !in Folds(deleted) :: Fold(l.name)) + {Fold(desired)}
  }

  /** Names of which one label was deleted and another, spelt differently, is still there. */
  function HalfDeleted(current: seq<Label>, deleted: seq<Label>): set<string> {
    set l | l in current && l !in deleted && IsStateKey(Fold(l.name)) && Fold(l.name) in Folds(deleted) :: Fold(l.name)
  }

  datatype Audit = Silent | Fired(handoff: bool, terminal: bool)

  /** Both states are active, or neither is and both or neither are terminal. */
  predicate SameSide(scope: Scope, a: string, b: string) {
    Active(scope, a) == Active(scope, b) &&
    (!Active(scope, a) ==> Names(scope.terminalStates, a) == Names(scope.terminalStates, b))
  }

  /** A half-deleted name outranks every label the audit still sees, and is active or terminal where
      they are not or the other way round. */
  predicate TwinMisleads(scope: Scope, current: seq<Label>, deleted: seq<Label>, desired: string) {
    var twins, seen := HalfDeleted(current, deleted), PredictedKeys(current, deleted, desired);
    && Winner(scope.mappings, twins, 0) < Winner(scope.mappings, seen, 0)
    && !SameSide(scope, StateOfKeys(scope.mappings, twins), StateOfKeys(scope.mappings, seen))
  }

  /** The issue went from an active state to a non-active one; states are given by their keys. */
  predicate MovedOut(scope: Scope, before: set<string>, after: set<string>) {
    var pre, post := StateOfKeys(scope.mappings, before), StateOfKeys(scope.mappings, after);
    Active(scope, pre) && post != "" && !Active(scope, post)
  }

  /** And that one is terminal. */
  predicate MovedToEnd(scope: Scope, before: set<string>, after: set<string>) {
    MovedOut(scope, before, after) && Names(scope.terminalStates, StateOfKeys(scope.mappings, after))
  }

  /** The state keys of the issue with the labels in `gone` taken off and the desired label on. */
  function KeysAfter(labels: seq<Label>, gone: seq<Label>, desired: string): set<string> {
    (set l | l in labels && l !in gone && IsStateKey(Fold(l.name)) :: Fold(l.name)) + {Fold(desired)}
  }

  /** The keys on the issue are those the audit sees and the half-deleted ones. */
  lemma LandedKeys(current: seq<Label>, gone: seq<Label>, desired: string)
    ensures KeysAfter(current, gone, desired) == PredictedKeys(current, gone, desired) + HalfDeleted(current, gone)
  {
  }

  /** What the audit concludes from the landed writes is what happened, unless a twin misleads it. */
  lemma AuditIsExact(scope: Scope, current: seq<Label>, gone: seq<Label>, desired: string)
    requires Known(scope.mappings, Fold(desired)) && Active(scope, StateOf(scope, current))
    ensures var after, guess := KeysAfter(current, gone, desired), StateOfKeys(scope.mappings, PredictedKeys(current, gone, desired));
            && (MovedOut(scope, Keys(current), after) <==> !Active(scope, guess))
            && (MovedToEnd(scope, Keys(current), after) <==> !Active(scope, guess) && Names(scope.terminalStates, guess)) <==>
            !TwinMisleads(scope, current, gone, desired)
  {
    LandedKeys(current, gone, desired);
    var twins, seen := HalfDeleted(current, gone), PredictedKeys(current, gone, desired);
    WinnerOfUnion(scope.mappings, seen, twins);
    KnownKeyWins(scope.mappings, seen, Fold(desired));
    KnownKeyWins(scope.mappings, KeysAfter(current, gone, desired), Fold(desired));
  }

  // ---------------------------------------------------------------------------------------------
  // What a call does, for every pattern of failing requests

  /** What the caller asked for. */
  datatype ToolCall = ToolCall(issue: int, labels: seq<string>, close: bool)

  function Desired(call: ToolCall): string {
    if |call.labels| == 1 then Trim(call.labels[0]) else ""
  }

  predicate AboutCurrent(scope: Scope, call: ToolCall) {
    0 < scope.currentIssue == call.issue
  }

  /** The tool accepts exactly one known state label, and closes only the current issue, and only
      into a terminal state. */
  predicate Accepts(scope: Scope, call: ToolCall) {
    && call.issue > 0 && |call.labels| == 1
    && IsStateKey(Fold(Desired(call))) && Known(scope.mappings, Fold(Desired(call)))
    && (call.close ==>
          AboutCurrent(scope, call) && Names(scope.terminalStates, StateOfKeys(scope.mappings, {Fold(Desired(call))})))
  }

  /** The label stands for this state: the last mapping that names it says so. */
  ghost predicate StandsFor(scope: Scope, key: string, state: string) {
    exists i: nat :: IsLast(scope.mappings, key, i) && scope.mappings[i].state == state
  }

  /** The state, named in some spelling. */
  ghost predicate OneOf(states: seq<string>, state: string) {
    Trim(state) != "" && exists c :: c in states && Fold(c) == Fold(state)
  }

  /** Calls that must never reach the server: without an issue, without exactly one known state label, or
      closing anything but the agent's own issue, or closing that into a state that is not terminal. */
  ghost predicate Refused(scope: Scope, call: ToolCall) {
    || call.issue <= 0 || |call.labels| != 1 || !HasPrefix(Fold(call.labels[0]), "aiops/")
    || !(exists state :: StandsFor(scope, Fold(call.labels[0]), state))
    || (call.close && (scope.currentIssue <= 0 || call.issue != scope.currentIssue))
    || (call.close && !exists state :: StandsFor(scope, Fold(call.labels[0]), state) && OneOf(scope.terminalStates, state))
  }

  lemma StandsForIs(scope: Scope, key: string, state: string)
    requires key != ""
    ensures StandsFor(scope, key, state) <==> Known(scope.mappings, key) && StateOfKeys(scope.mappings, {key}) == state
  {
    forall i: nat ensures LastFor(scope.mappings, key) == Some(i) <==> IsLast(scope.mappings, key, i) {
      LastForIsLast(scope.mappings, key, i);
    }
    if Known(scope.mappings, key) {
      var i := LastFor(scope.mappings, key).value;
      assert IsLast(scope.mappings, key, i);
      WinnerIs(scope.mappings, {key}, i);
    }
  }

  /** The tool accepts exactly the calls that are not refused. */
  lemma AcceptsIs(scope: Scope, call: ToolCall)
    ensures Accepts(scope, call) <==> !Refused(scope, call)
  {
    if |call.labels| == 1 && HasPrefix(Fold(call.labels[0]), "aiops/") {
      var key := Fold(call.labels[0]);
      TrimTrim(call.labels[0]);
      var known := StateOfKeys(scope.mappings, {key});
      assert Names(scope.terminalStates, known) <==> OneOf(scope.terminalStates, known);
      forall state ensures StandsFor(scope, key, state) <==> Known(scope.mappings, key) && StateOfKeys(scope.mappings, {key}) == state {
        StandsForIs(scope, key, state);
      }
      assert Known(scope.mappings, key) <==> StandsFor(scope, key, known);
      assert Desired(call) == Trim(call.labels[0]) && Fold(Desired(call)) == key;
    } else if |call.labels| == 1 {
      TrimTrim(call.labels[0]);
    }
  }

  /** fireMutationAudit and classifyLabelMutation. */
  function AuditOf(scope: Scope, call: ToolCall, current: seq<Label>, deleted: seq<Label>, wroteAdd: bool, replaced: bool)
    : Audit
  {
    var post := StateOfKeys(scope.mappings, PredictedKeys(current, deleted, Desired(call)));
    var handoff := AboutCurrent(scope, call) && Active(scope, StateOf(scope, current)) &&
                   post != "" && !Active(scope, post);
    if !wroteAdd && deleted == [] then Silent
    else if replaced || handoff then Fired(handoff, handoff && Names(scope.terminalStates, post))
    else Silent
  }

  /** Every stale state label, in order. */
  function StaleOf(labels: seq<Label>, desired: string): seq<Label> {
    if labels == [] then []
    else
      var n := |labels| - 1;
      StaleOf(labels[..n], desired) + if Stale(labels[n], desired) then [labels[n]] else []
  }

  /** How many labels are deleted before a request fails or a label has no id. */
  function DeleteCount(stale: seq<Label>, failing: iset<nat>, q: nat): (n: nat)
    ensures n <= |stale|
  {
    if stale == [] || stale[0].id == 0 || q in failing then 0 else 1 + DeleteCount(stale[1..], failing, q + 1)
  }

  /** The answer, the audit, the labels that stay deleted, the state keys left on the issue, and
      whether it was closed. */
  datatype CallResult = CallResult(ok: bool, audit: Audit, gone: seq<Label>, keys: set<string>, closes: bool)

  function Untouched(labels: seq<Label>): CallResult {
    CallResult(false, Silent, [], Keys(labels), false)
  }

  function Reported(scope: Scope, call: ToolCall, labels: seq<Label>, gone: seq<Label>, wrote: bool, replaced: bool,
                    ok: bool, closes: bool): CallResult
  {
    CallResult(ok, AuditOf(scope, call, labels, gone, wrote, replaced), gone, KeysAfter(labels, gone, Desired(call)), closes)
  }

  /** A call whose first request has number q, when the requests in `failing` fail: read the labels,
      add the desired one unless it is there in some spelling, delete the stale ones, perhaps close,
      and put the deleted ones back if that fails. */
  function Run(scope: Scope, call: ToolCall, labels: seq<Label>, failing: iset<nat>, q: nat): CallResult {
    var missing := Fold(Desired(call)) !in Folds(labels);
    if !Accepts(scope, call) || q in failing || (missing && q + 1 in failing) then Untouched(labels)
    else Deleting(scope, call, labels, missing, failing, if missing then q + 2 else q + 1)
  }

  function Deleting(scope: Scope, call: ToolCall, labels: seq<Label>, wrote: bool, failing: iset<nat>, q: nat): CallResult {
    var stale := StaleOf(labels, Desired(call));
    var n := DeleteCount(stale, failing, q);
    if n < |stale| then Reported(scope, call, labels, stale[..n], wrote, false, false, false)
    else if !call.close then Reported(scope, call, labels, stale, wrote, true, true, false)
    else Closing(scope, call, labels, wrote, failing, q + n)
  }

  function Closing(scope: Scope, call: ToolCall, labels: seq<Label>, wrote: bool, failing: iset<nat>, q: nat): CallResult {
    var stale := StaleOf(labels, Desired(call));
    if q !in failing then Reported(scope, call, labels, stale, wrote, true, true, true)
    else if stale == [] || q + 1 !in failing then Reported(scope, call, labels, [], wrote, false, false, false)
    else Reported(scope, call, labels, stale, wrote, true, false, false)
  }

  lemma {:induction false} StaleMembers(labels: seq<Label>, desired: string)
    ensures forall l :: l in StaleOf(labels, desired) <==> l in labels && Stale(l, desired)
  {
    if labels != [] {
      var n := |labels| - 1;
      StaleMembers(labels[..n], desired);
      assert labels == labels[..n] + [labels[n]];
    }
  }

  /** The result is a report about these deletions. */
  predicate ReportsOn(scope: Scope, call: ToolCall, labels: seq<Label>, res: CallResult) {
    var wrote := Fold(Desired(call)) !in Folds(labels);
    && res.keys == KeysAfter(labels, res.gone, Desired(call))
    && (|| res.audit == AuditOf(scope, call, labels, res.gone, wrote, true)
        || res.audit == AuditOf(scope, call, labels, res.gone, wrote, false))
  }

  /** Where the deletions stopped decides what is reported. */
  lemma DeletingReportsCut(scope: Scope, call: ToolCall, labels: seq<Label>, wrote: bool, failing: iset<nat>, q: nat, n: nat)
    requires n == DeleteCount(StaleOf(labels, Desired(call)), failing, q)
    requires !(n == |StaleOf(labels, Desired(call))| && call.close)
    ensures var done := n == |StaleOf(labels, Desired(call))|;
            Deleting(scope, call, labels, wrote, failing, q) ==
            Reported(scope, call, labels, StaleOf(labels, Desired(call))[..n], wrote, done, done, false)
  {
    var stale := StaleOf(labels, Desired(call));
    assert stale[..|stale|] == stale;
  }

  lemma DeletingCloses(scope: Scope, call: ToolCall, labels: seq<Label>, wrote: bool, failing: iset<nat>, q: nat, q': nat)
    requires DeleteCount(StaleOf(labels, Desired(call)), failing, q) == |StaleOf(labels, Desired(call))| && call.close
    requires q' == q + |StaleOf(labels, Desired(call))|
    ensures Deleting(scope, call, labels, wrote, failing, q) == Closing(scope, call, labels, wrote, failing, q')
  {
  }

  lemma RunRefused(scope: Scope, call: ToolCall, labels: seq<Label>, failing: iset<nat>, q: nat)
    requires !Accepts(scope, call) || q in failing || (Fold(Desired(call)) !in Folds(labels) && q + 1 in failing)
    ensures Run(scope, call, labels, failing, q) == Untouched(labels)
  {
  }

  lemma RunDeletes(scope: Scope, call: ToolCall, labels: seq<Label>, failing: iset<nat>, q: nat, q': nat, missing: bool)
    requires Accepts(scope, call) && q !in failing && missing == (Fold(Desired(call)) !in Folds(labels))
    requires q' == (if missing then q + 2 else q + 1) && (missing ==> q + 1 !in failing)
    ensures Run(scope, call, labels, failing, q) == Deleting(scope, call, labels, missing, failing, q')
  {
  }

  /** A report on a cut through the stale labels; a success has deleted them all. */
  predicate GoodReport(scope: Scope, call: ToolCall, labels: seq<Label>, res: CallResult) {
    && ReportsOn(scope, call, labels, res) && res.gone <= StaleOf(labels, Desired(call))
    && (res.ok ==> res.gone == StaleOf(labels, Desired(call)) && res.closes == call.close)
    && (res.ok && (res.gone != [] || Fold(Desired(call)) !in Folds(labels)) ==> res.audit.Fired?)
    && (res.audit.Fired? && !res.audit.handoff ==> res.gone == StaleOf(labels, Desired(call)))
  }

  lemma DeletingReports(scope: Scope, call: ToolCall, labels: seq<Label>, failing: iset<nat>, q: nat)
    ensures GoodReport(scope, call, labels, Deleting(scope, call, labels, Fold(Desired(call)) !in Folds(labels), failing, q))
  {
  }

  /** A call touches nothing, or reports on the labels it left deleted. */
  lemma RunShape(scope: Scope, call: ToolCall, labels: seq<Label>, failing: iset<nat>, q: nat)
    ensures var res := Run(scope, call, labels, failing, q);
            res == Untouched(labels) || (Accepts(scope, call) && GoodReport(scope, call, labels, res))
  {
    DeletingReports(scope, call, labels, failing, q + 1);
    DeletingReports(scope, call, labels, failing, q + 2);
  }

  lemma KeysOfCuts(labels: seq<Label>, desired: string)
    ensures KeysAfter(labels, StaleOf(labels, desired), desired) == {Fold(desired)}
    ensures Keys(labels) <= KeysAfter(labels, [], desired)
  {
    StaleMembers(labels, desired);
  }

  /** Success leaves the desired label as the only state label, and closes the issue if it was asked
      to; a call that lost no label leaves all of them on. */
  lemma SuccessReplaces(scope: Scope, call: ToolCall, labels: seq<Label>, failing: iset<nat>, q: nat)
    ensures var res := Run(scope, call, labels, failing, q);
            && (res.ok ==> Accepts(scope, call) && res.keys == {Fold(Desired(call))} && res.closes == call.close)
            && (res.ok && (res.gone != [] || Fold(Desired(call)) !in Folds(labels)) ==> res.audit.Fired?)
            && (res.audit.Fired? && !res.audit.handoff ==> res.gone == StaleOf(labels, Desired(call)))
            && (res.gone == [] ==> Keys(labels) <= res.keys)
            && res.gone <= StaleOf(labels, Desired(call))
  {
    RunShape(scope, call, labels, failing, q);
    KeysOfCuts(labels, Desired(call));
  }

  /** An issue is only ever closed if it is the agent's own, and only when the labels left on it put it
      in a terminal state. */
  lemma CloseIsGuarded(scope: Scope, call: ToolCall, labels: seq<Label>, failing: iset<nat>, q: nat)
    ensures var res := Run(scope, call, labels, failing, q);
            res.closes ==> 0 < scope.currentIssue == call.issue && OneOf(scope.terminalStates, StateOfKeys(scope.mappings, res.keys))
  {
    ClosesOnlyOnSuccess(scope, call, labels, failing, q);
    SuccessReplaces(scope, call, labels, failing, q);
  }

  lemma ClosesOnlyOnSuccess(scope: Scope, call: ToolCall, labels: seq<Label>, failing: iset<nat>, q: nat)
    ensures var res := Run(scope, call, labels, failing, q); res.closes ==> res.ok && call.close
  {
  }

  /** The server reported the id of every stale label. */
  predicate IdsKnown(labels: seq<Label>, desired: string) {
    forall l :: l in labels && Stale(l, desired) ==> l.id != 0
  }

  /** A cut through the stale labels at which a deletion can stop. */
  predicate Cut(stale: seq<Label>, n: nat) {
    n <= |stale| && forall m :: 0 <= m < n ==> stale[m].id != 0
  }

  /** Deletion stops at the first label without an id or the first failing request, and only there. */
  lemma {:induction false} DeleteCountIs(stale: seq<Label>, failing: iset<nat>, q: nat, n: nat)
    requires Cut(stale, n) && forall p: nat :: q <= p < q + n ==> p !in failing
    requires n < |stale| ==> stale[n].id == 0 || q + n in failing
    ensures DeleteCount(stale, failing, q) == n
  {
    if n > 0 {
      assert Cut(stale[1..], n - 1) by {
        assert forall m :: 0 <= m < n - 1 ==> stale[1..][m] == stale[m + 1];
      }
      assert n < |stale| ==> stale[1..][n - 1] == stale[n];
      DeleteCountIs(stale[1..], failing, q + 1, n - 1);
    }
  }

  /** If nothing fails and every id is known, an accepted call succeeds. */
  lemma NothingFails(scope: Scope, call: ToolCall, labels: seq<Label>, q: nat)
    requires Accepts(scope, call) && IdsKnown(labels, Desired(call))
    ensures Run(scope, call, labels, iset{}, q).ok
  {
    var stale := StaleOf(labels, Desired(call));
    StaleMembers(labels, Desired(call));
    assert forall m :: 0 <= m < |stale| ==> stale[m] in stale;
    DeleteCountIs(stale, iset{}, q + 1, |stale|);
    DeleteCountIs(stale, iset{}, q + 2, |stale|);
  }

  /** A failed close puts every deleted label back, or, if that fails too, leaves the desired label as
      the only state label. */
  lemma FailedCloseUndone(scope: Scope, call: ToolCall, labels: seq<Label>, wrote: bool, failing: iset<nat>, q: nat)
    requires q in failing
    ensures var res, stale := Closing(scope, call, labels, wrote, failing, q), StaleOf(labels, Desired(call));
            && !res.ok && !res.closes
            && (stale == [] || q + 1 !in failing ==> res.gone == [] && res.keys == Keys(labels) + {Fold(Desired(call))})
            && (stale != [] && q + 1 in failing ==> res.gone == stale && res.keys == {Fold(Desired(call))})
  {
    KeysOfCuts(labels, Desired(call));
  }

  // ---------------------------------------------------------------------------------------------
  // When the report is exact

  /** A handoff is reported exactly if the call took the current issue out of the active states, and a
      terminal one exactly if it took it into a terminal state. */
  predicate Exact(scope: Scope, call: ToolCall, labels: seq<Label>, res: CallResult) {
    var current := 0 < scope.currentIssue == call.issue;
    && (res.audit.Fired? && res.audit.handoff <==> current && MovedOut(scope, Keys(labels), res.keys))
    && (res.audit.Fired? && res.audit.terminal <==> current && MovedToEnd(scope, Keys(labels), res.keys))
  }

  /** There is a handoff to report at all. */
  predicate AtStake(scope: Scope, call: ToolCall, labels: seq<Label>) {
    AboutCurrent(scope, call) && Active(scope, StateOf(scope, labels))
  }

  lemma ReportedIsExact(scope: Scope, call: ToolCall, labels: seq<Label>, res: CallResult)
    requires Accepts(scope, call) && ReportsOn(scope, call, labels, res)
    ensures Exact(scope, call, labels, res) <==>
            !(AtStake(scope, call, labels) && TwinMisleads(scope, labels, res.gone, Desired(call)))
  {
    var gone := res.gone;
    var desired := Desired(call);
    if AtStake(scope, call, labels) {
      AuditIsExact(scope, labels, gone, desired);
      KnownKeyWins(scope.mappings, PredictedKeys(labels, gone, desired), Fold(desired));
      if Fold(desired) in Folds(labels) && gone == [] {
        assert PredictedKeys(labels, gone, desired) == Keys(labels);
      }
    }
  }

  /** Nothing misleads about labels of which all the stale ones, or none, are gone. */
  lemma WholeNamesDoNotMislead(scope: Scope, labels: seq<Label>, desired: string)
    ensures !TwinMisleads(scope, labels, [], desired)
    ensures !TwinMisleads(scope, labels, StaleOf(labels, desired), desired)
  {
    StaleMembers(labels, desired);
    assert HalfDeleted(labels, []) == {};
    assert HalfDeleted(labels, StaleOf(labels, desired)) == {};
  }

  /** For every call and every pattern of failures the report is exact unless a name was half-deleted
      that misleads the audit, and then it is not. */
  lemma ReportIsExact(scope: Scope, call: ToolCall, labels: seq<Label>, failing: iset<nat>, q: nat)
    ensures var res := Run(scope, call, labels, failing, q);
            Exact(scope, call, labels, res) <==>
            !(AtStake(scope, call, labels) && TwinMisleads(scope, labels, res.gone, Desired(call)))
  {
    var res := Run(scope, call, labels, failing, q);
    WholeNamesDoNotMislead(scope, labels, Desired(call));
    RunShape(scope, call, labels, failing, q);
    if res != Untouched(labels) {
      ReportedIsExact(scope, call, labels, res);
    }
  }

  /** No cut through the stale labels leaves a misleading name half-deleted. A caller can tell from the
      issue's labels before the call. */
  ghost predicate SafeToCall(scope: Scope, labels: seq<Label>, desired: string) {
    forall n: nat | Cut(StaleOf(labels, desired), n) :: !TwinMisleads(scope, labels, StaleOf(labels, desired)[..n], desired)
  }

  lemma {:induction false} DeleteCountCuts(stale: seq<Label>, failing: iset<nat>, q: nat)
    ensures Cut(stale, DeleteCount(stale, failing, q))
  {
    if stale != [] && stale[0].id != 0 && q !in failing {
      DeleteCountCuts(stale[1..], failing, q + 1);
      forall m | 0 <= m < DeleteCount(stale, failing, q) ensures stale[m].id != 0 {
        assert m > 0 ==> stale[1..][m - 1] == stale[m];
      }
    }
  }

  /** Whatever stays deleted is a cut, all of the stale labels or none. */
  lemma GoneIsCut(scope: Scope, call: ToolCall, labels: seq<Label>, failing: iset<nat>, q: nat)
    ensures var gone, stale := Run(scope, call, labels, failing, q).gone, StaleOf(labels, Desired(call));
            gone == [] || gone == stale || (gone == stale[..|gone|] && Cut(stale, |gone|))
  {
    var stale := StaleOf(labels, Desired(call));
    DeleteCountCuts(stale, failing, q + 1);
    DeleteCountCuts(stale, failing, q + 2);
  }

  /** Every cut short of the end is what some single failure leaves. */
  lemma CutHappens(scope: Scope, call: ToolCall, labels: seq<Label>, q: nat, n: nat) returns (failing: iset<nat>)
    requires Accepts(scope, call) && Cut(StaleOf(labels, Desired(call)), n) && n < |StaleOf(labels, Desired(call))|
    ensures Run(scope, call, labels, failing, q).gone == StaleOf(labels, Desired(call))[..n]
  {
    var first := if Fold(Desired(call)) !in Folds(labels) then q + 2 else q + 1;
    failing := iset{first + n};
    DeleteCountIs(StaleOf(labels, Desired(call)), failing, first, n);
  }

  lemma WholePrefix(stale: seq<Label>, n: nat)
    requires n <= |stale|
    ensures n < |stale| || stale[..n] == stale
  {
  }

  lemma SafeIsExact(scope: Scope, call: ToolCall, labels: seq<Label>, failing: iset<nat>, q: nat)
    requires !AtStake(scope, call, labels) || SafeToCall(scope, labels, Desired(call))
    ensures Exact(scope, call, labels, Run(scope, call, labels, failing, q))
  {
    ReportIsExact(scope, call, labels, failing, q);
    WholeNamesDoNotMislead(scope, labels, Desired(call));
    GoneIsCut(scope, call, labels, failing, q);
  }

  lemma UnsafeMisreports(scope: Scope, call: ToolCall, labels: seq<Label>, q: nat) returns (failing: iset<nat>)
    requires Accepts(scope, call) && AtStake(scope, call, labels) && !SafeToCall(scope, labels, Desired(call))
    ensures !Exact(scope, call, labels, Run(scope, call, labels, failing, q))
  {
    var desired, stale := Desired(call), StaleOf(labels, Desired(call));
    var n: nat :| Cut(stale, n) && TwinMisleads(scope, labels, stale[..n], desired);
    WholeNamesDoNotMislead(scope, labels, desired);
    WholePrefix(stale, n);
    failing := CutHappens(scope, call, labels, q, n);
    ReportIsExact(scope, call, labels, failing, q);
  }

  /** Exactly when the tool reports handoffs rightly whatever fails: when the call is not about the
      current issue, the issue is not active, or no cut through its stale labels misleads. */
  lemma ExactWhateverFails(scope: Scope, call: ToolCall, labels: seq<Label>, q: nat)
    requires Accepts(scope, call)
    ensures (forall failing :: Exact(scope, call, labels, Run(scope, call, labels, failing, q))) <==>
            !AtStake(scope, call, labels) || SafeToCall(scope, labels, Desired(call))
  {
    if !AtStake(scope, call, labels) || SafeToCall(scope, labels, Desired(call)) {
      forall failing ensures Exact(scope, call, labels, Run(scope, call, labels, failing, q)) {
        SafeIsExact(scope, call, labels, failing, q);
      }
    } else {
      var failing := UnsafeMisreports(scope, call, labels, q);
    }
  }

  /** No two stale labels of the issue are spellings of one name. */
  ghost predicate NoTwins(labels: seq<Label>, desired: string) {
    forall l, m | l in labels && m in labels && Stale(l, desired) && Stale(m, desired) && Fold(l.name) == Fold(m.name) :: l == m
  }

  lemma TwinlessIsSafe(scope: Scope, labels: seq<Label>, desired: string)
    requires NoTwins(labels, desired)
    ensures SafeToCall(scope, labels, desired)
  {
    var stale := StaleOf(labels, desired);
    StaleMembers(labels, desired);
    forall n: nat | Cut(stale, n) ensures !TwinMisleads(scope, labels, stale[..n], desired) {
      assert forall l :: l in stale[..n] ==> l in stale;
      assert HalfDeleted(labels, stale[..n]) == {};
    }
  }

  /** Without twins every call is safe, and so its report exact whatever fails. */
  lemma ExactWithoutTwins(scope: Scope, call: ToolCall, labels: seq<Label>, failing: iset<nat>, q: nat)
    requires NoTwins(labels, Desired(call))
    ensures Exact(scope, call, labels, Run(scope, call, labels, failing, q))
  {
    TwinlessIsSafe(scope, labels, Desired(call));
    SafeIsExact(scope, call, labels, failing, q);
  }

  /** What a caller may rely on: success leaves the desired label as the only state label, and is
      audited if anything was written, while short of it only a handoff is audited; what stays deleted is a prefix of the stale labels; the report is
      exact unless a half-deleted name misleads the audit, and without twins it is exact whatever fails. */
  ghost predicate Promises(scope: Scope, call: ToolCall, labels: seq<Label>, res: CallResult) {
    && (res.ok ==> Accepts(scope, call) && res.keys == {Fold(Desired(call))} && res.closes == call.close)
    && (res.ok && (res.gone != [] || Fold(Desired(call)) !in Folds(labels)) ==> res.audit.Fired?)
    && (res.audit.Fired? && !res.audit.handoff ==> res.gone == StaleOf(labels, Desired(call)))
    && res.gone <= StaleOf(labels, Desired(call)) && (res.gone == [] ==> Keys(labels) <= res.keys)
    && (Exact(scope, call, labels, res) <==>
        !(AtStake(scope, call, labels) && TwinMisleads(scope, labels, res.gone, Desired(call))))
    && (NoTwins(labels, Desired(call)) ==> Exact(scope, call, labels, res))
  }

  lemma RunKeepsPromises(scope: Scope, call: ToolCall, labels: seq<Label>, failing: iset<nat>, q: nat)
    ensures Promises(scope, call, labels, Run(scope, call, labels, failing, q))
  {
    SuccessReplaces(scope, call, labels, failing, q);
    ReportIsExact(scope, call, labels, failing, q);
    if NoTwins(labels, Desired(call)) {
      ExactWithoutTwins(scope, call, labels, failing, q);
    }
  }
}
