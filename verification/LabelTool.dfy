/** The label tool at work on an issue, one request after another, proved to do what a call is said to
    do for every pattern of failing requests. */
module LabelTool {
  import opened Prelude
  import opened GiteaLabels
  import opened LabelReplace

  /** Nonzero label ids identify labels. */
  ghost predicate UniqueLabels(labels: seq<Label>) {
    && (forall i :: 0 <= i < |labels| ==> labels[i].id >= 0)
    && (forall i, j :: 0 <= i < j < |labels| ==> labels[i] != labels[j] && (labels[i].id != 0 ==> labels[i].id != labels[j].id))
  }

  function NewLabels(names: seq<string>): seq<Label> {
    seq(|names|, i requires 0 <= i < |names| => Label(-1 - i, names[i]))
  }

  function NamesOf(labels: seq<Label>): seq<string> {
    seq(|labels|, i requires 0 <= i < |labels| => labels[i].name)
  }

  lemma UniqueNext(labels: seq<Label>, l: Label)
    requires UniqueLabels(labels) && l.id >= 0
    requires forall x :: x in labels ==> x != l && (l.id != 0 ==> x.id != l.id)
    ensures UniqueLabels(labels + [l])
  {
    assert forall i :: 0 <= i < |labels| ==> labels[i] in labels;
  }

  lemma {:induction false} StaleAreUnique(labels: seq<Label>, desired: string)
    requires UniqueLabels(labels)
    ensures UniqueLabels(StaleOf(labels, desired))
  {
    if labels != [] {
      var n := |labels| - 1;
      StaleAreUnique(labels[..n], desired);
      StaleMembers(labels[..n], desired);
      if Stale(labels[n], desired) {
        UniqueNext(StaleOf(labels[..n], desired), labels[n]);
      }
    }
  }

  lemma DeletedKeys(before: seq<Label>, mid: seq<Label>, after: seq<Label>, deleted: seq<Label>, desired: string)
    requires IsStateKey(Fold(desired)) && Fold(desired) in Keys(mid)
    requires forall l :: l in mid ==> l in before || l == Label(-1, desired)
    requires forall l :: l in before ==> l in mid
    requires forall l :: l in after <==> l in mid && l !in deleted
    requires forall l :: l in deleted ==> Stale(l, desired)
    ensures Keys(after) == KeysAfter(before, deleted, desired)
  {
  }

  lemma KeysAppend(a: seq<Label>, b: seq<Label>)
    ensures Keys(a + b) == Keys(a) + Keys(b)
  {
  }

  lemma {:induction false} KeysOfNew(labels: seq<Label>)
    ensures Keys(NewLabels(NamesOf(labels))) == Keys(labels)
  {
    var fresh' := NewLabels(NamesOf(labels));
    forall i | 0 <= i < |labels| ensures fresh'[i].name == labels[i].name && fresh'[i] in fresh' && labels[i] in labels {
    }
  }

  /** Putting the deleted names back restores every key. */
  lemma RestoredKeys(before: seq<Label>, deleted: seq<Label>, desired: string, mid: seq<Label>, after: seq<Label>)
    requires Keys(mid) == KeysAfter(before, deleted, desired) && forall l :: l in deleted ==> l in before
    requires after == mid + NewLabels(NamesOf(deleted))
    ensures Keys(after) == KeysAfter(before, [], desired)
  {
    KeysAppend(mid, NewLabels(NamesOf(deleted)));
    KeysOfNew(deleted);
    assert KeysAfter(before, deleted, desired) + Keys(deleted) == KeysAfter(before, [], desired);
  }

  lemma StateLabelsAdded(deleted: seq<Label>, desired: string)
    requires forall l :: l in deleted ==> Stale(l, desired)
    ensures forall l :: l in NewLabels(NamesOf(deleted)) ==> HasPrefix(Fold(l.name), "aiops/")
  {
    forall i | 0 <= i < |deleted| ensures HasPrefix(Fold(NewLabels(NamesOf(deleted))[i].name), "aiops/") {
      assert deleted[i] in deleted;
    }
  }

  /** Histories that follow one another, each keeping the key on the issue. */
  lemma KeptThroughout(a: seq<set<string>>, b: seq<set<string>>, c: seq<set<string>>, key: string)
    requires a <= b && b <= c
    requires (forall h :: h in b[|a|..] ==> key in h) && (forall h :: h in c[|b|..] ==> key in h)
    ensures a <= c && forall h :: h in c[|a|..] ==> key in h
  {
    assert c[|a|..] == b[|a|..] + c[|b|..];
  }

  class IssueLabels {
    const scope: Scope
    /** The numbers of the requests that fail. */
    const failing: iset<nat>
    var requests: nat
    var labels: seq<Label>
    var closed: bool
    /** The state labels on the issue after each write that landed. */
    ghost var history: seq<set<string>>

    constructor (scope: Scope, failing: iset<nat>, labels: seq<Label>)
      ensures this.scope == scope && this.failing == failing && this.labels == labels
      ensures requests == 0 && history == [] && !closed
    {
      this.scope := scope;
      this.failing, requests, this.labels, closed, history := failing, 0, labels, false, [];
    }

    /** Every write since then left the key on the issue. */
    twostate predicate KeptOn(key: string)
      reads this
    {
      old(history) <= history && forall h :: h in history[|old(history)|..] ==> key in h
    }

    /** Labels that are no state labels stay on or off as they were. */
    twostate predicate LeavesOthers()
      reads this
    {
      forall l: Label :: !HasPrefix(Fold(l.name), "aiops/") ==> (l in labels <==> l in old(labels))
    }

    method Ask() returns (ok: bool)
      modifies this`requests
      ensures requests == old(requests) + 1 && ok == (old(requests) !in failing)
    {
      ok := requests !in failing;
      requests := requests + 1;
    }

    /** Adds labels by name and has the response confirm them. */
    method Add(names: seq<string>) returns (ok: bool)
      modifies this`requests, this`labels, this`history
      ensures requests == old(requests) + 1 && ok == (old(requests) !in failing)
      ensures labels == if ok then old(labels) + NewLabels(names) else old(labels)
      ensures history == if ok then old(history) + [Keys(labels)] else old(history)
    {
      ok := Ask();
      if ok {
        labels := labels + NewLabels(names);
        history := history + [Keys(labels)];
      }
    }

    method Delete(id: int) returns (ok: bool)
      modifies this`requests, this`labels, this`history
      ensures requests == old(requests) + 1 && ok == (old(requests) !in failing)
      ensures if ok then forall l :: l in labels <==> l in old(labels) && l.id != id else labels == old(labels)
      ensures history == if ok then old(history) + [Keys(labels)] else old(history)
    {
      ok := Ask();
      if ok {
        var kept: seq<Label> := [];
        for i := 0 to |labels|
          invariant labels == old(labels) && history == old(history) && requests == old(requests) + 1
          invariant forall l :: l in kept <==> l in labels[..i] && l.id != id
        {
          if labels[i].id != id {
            kept := kept + [labels[i]];
          }
        }
        labels := kept;
        history := history + [Keys(labels)];
      }
    }

    /** deleteStaleStateLabels: stops at the first failure and tells which labels went. */
    method DeleteStale(stale: seq<Label>) returns (deleted: seq<Label>, ok: bool)
      requires UniqueLabels(stale) && forall i, l :: 0 <= i < |stale| && l in labels && l.id == stale[i].id != 0 ==> l == stale[i]
      modifies this`requests, this`labels, this`history
      ensures deleted == stale[..DeleteCount(stale, failing, old(requests))] && (ok <==> |deleted| == |stale|)
      ensures requests >= old(requests) && (ok ==> requests == old(requests) + |stale|)
      ensures forall l :: l in labels <==> l in old(labels) && l !in deleted
      ensures old(history) <= history && |history| == |old(history)| + |deleted|
      ensures forall h :: h in history[|old(history)|..] ==> Keys(labels) <= h
      ensures deleted == [] ==> labels == old(labels)
    {
      deleted := [];
      ghost var q := requests;
      for i := 0 to |stale|
        invariant deleted == stale[..i] && requests == q + i
        invariant DeleteCount(stale, failing, q) == i + DeleteCount(stale[i..], failing, q + i)
        invariant forall l :: l in labels <==> l in old(labels) && l !in deleted
        invariant old(history) <= history && |history| == |old(history)| + i
        invariant forall h :: h in history[|old(history)|..] ==> Keys(labels) <= h
        invariant i == 0 ==> labels == old(labels)
      {
        assert stale[i..][0] == stale[i] && stale[i..][1..] == stale[i + 1..];
        if stale[i].id == 0 {
          return deleted, false;
        }
        ghost var before, was := labels, history;
        ok := Delete(stale[i].id);
        if !ok {
          return deleted, false;
        }
        assert stale[..i + 1] == stale[..i] + [stale[i]];
        assert Keys(labels) <= Keys(before);
        assert history[|old(history)|..] == was[|old(history)|..] + [Keys(labels)];
        deleted := deleted + [stale[i]];
      }
      assert stale[..|stale|] == stale;
      ok := true;
    }

    /** Every stale state label, in order. */
    static method StaleNow(labels: seq<Label>, desired: string) returns (stale: seq<Label>)
      ensures stale == StaleOf(labels, desired)
    {
      stale := [];
      for i := 0 to |labels|
        invariant stale == StaleOf(labels[..i], desired)
      {
        assert labels[..i + 1][..i] == labels[..i];
        if Stale(labels[i], desired) {
          stale := stale + [labels[i]];
        }
      }
      assert labels[..|labels|] == labels;
    }

    /** Adds the desired label unless it is there in some spelling. */
    method EnsureDesired(desired: string) returns (present: bool, wrote: bool)
      requires IsStateKey(Fold(desired))
      modifies this`requests, this`labels, this`history
      ensures var missing := Fold(desired) !in Folds(old(labels));
              && present == !(missing && old(requests) in failing) && wrote == (missing && present)
              && requests == old(requests) + if missing then 1 else 0
      ensures labels == if wrote then old(labels) + [Label(-1, desired)] else old(labels)
      ensures history == if wrote then old(history) + [Keys(labels)] else old(history)
      ensures present ==> Fold(desired) in Keys(labels)
      ensures LeavesOthers()
    {
      present, wrote := true, false;
      if Fold(desired) !in Folds(labels) {
        present := Add([desired]);
        wrote := present;
        assert NewLabels([desired]) == [Label(-1, desired)];
      }
    }

    /** Deletes the stale labels of `before` once the desired label is on. */
    method DeleteOthers(stale: seq<Label>, desired: string, ghost before: seq<Label>) returns (deleted: seq<Label>, ok: bool)
      requires IsStateKey(Fold(desired)) && Fold(desired) in Keys(labels) && UniqueLabels(before)
      requires labels == before || labels == before + [Label(-1, desired)]
      requires stale == StaleOf(before, desired)
      modifies this`requests, this`labels, this`history
      ensures deleted == stale[..DeleteCount(stale, failing, old(requests))] && (ok <==> |deleted| == |stale|)
      ensures requests >= old(requests) && (ok ==> requests == old(requests) + |stale|)
      ensures Keys(labels) == KeysAfter(before, deleted, desired) && LeavesOthers()
      ensures KeptOn(Fold(desired)) && |history| == |old(history)| + |deleted|
      ensures deleted == [] ==> labels == old(labels)
    {
      ghost var mid := labels;
      StaleMembers(before, desired);
      StaleAreUnique(before, desired);
      assert forall i :: 0 <= i < |stale| ==> stale[i] in stale;
      deleted, ok := DeleteStale(stale);
      DeletedKeys(before, mid, labels, deleted, desired);
    }

    /** Closes the issue; if that fails, puts the deleted labels back. `kept` is what stays deleted. */
    method CloseOrRestore(deleted: seq<Label>, desired: string, ghost before: seq<Label>)
      returns (ok: bool, restored: bool, kept: seq<Label>)
      requires Keys(labels) == KeysAfter(before, deleted, desired)
      requires forall l :: l in deleted ==> l in before && Stale(l, desired)
      modifies this`requests, this`labels, this`history, this`closed
      ensures ok == (old(requests) !in failing) && closed == (old(closed) || ok)
      ensures restored == (!ok && (deleted == [] || old(requests) + 1 !in failing))
      ensures kept == (if restored then [] else deleted) && Keys(labels) == KeysAfter(before, kept, desired)
      ensures KeptOn(Fold(desired)) && (deleted == [] || ok ==> labels == old(labels) && history == old(history))
      ensures requests >= old(requests) && LeavesOthers()
    {
      restored, kept := false, deleted;
      ok := Ask();
      if ok {
        closed := true;
      } else if deleted == [] {
        restored := true;
      } else {
        ghost var mid := labels;
        restored := Add(NamesOf(deleted));
        if restored {
          kept := [];
          RestoredKeys(before, deleted, desired, mid, labels);
          StateLabelsAdded(deleted, desired);
        }
      }
    }

    /** What was done and reported is this result. */
    predicate Did(res: CallResult, wasClosed: bool, ok: bool, audit: Audit)
      reads this
    {
      ok == res.ok && audit == res.audit && Keys(labels) == res.keys && closed == (wasClosed || res.closes)
    }

    /** closeIssueAfterLabelReplace and the audit after it. */
    method CloseAndReport(call: ToolCall, current: seq<Label>, stale: seq<Label>, wrote: bool)
      returns (ok: bool, audit: Audit, ghost res: CallResult)
      requires stale == StaleOf(current, Desired(call)) && Keys(labels) == KeysAfter(current, stale, Desired(call))
      modifies this`requests, this`labels, this`history, this`closed
      ensures res == Closing(scope, call, current, wrote, failing, old(requests)) && Did(res, old(closed), ok, audit)
      ensures KeptOn(Fold(Desired(call))) && (stale == [] ==> labels == old(labels) && history == old(history))
      ensures requests >= old(requests) && LeavesOthers() && (stale == [] && !wrote ==> audit.Silent?)
    {
      StaleMembers(current, Desired(call));
      var restored, kept;
      ok, restored, kept := CloseOrRestore(stale, Desired(call), current);
      audit := AuditOf(scope, call, current, kept, wrote, !restored);
      res := Reported(scope, call, current, kept, wrote, !restored, ok, ok);
    }

    /** Deletes, closes and reports once the desired label is on. */
    method DeleteAndReport(call: ToolCall, current: seq<Label>, wrote: bool)
      returns (ok: bool, audit: Audit, ghost res: CallResult)
      requires UniqueLabels(current) && Accepts(scope, call) && Fold(Desired(call)) in Keys(labels)
      requires labels == if wrote then current + [Label(-1, Desired(call))] else current
      modifies this`requests, this`labels, this`history, this`closed
      ensures res == Deleting(scope, call, current, wrote, failing, old(requests)) && Did(res, old(closed), ok, audit)
      ensures KeptOn(Fold(Desired(call))) && (history == old(history) ==> labels == old(labels) && (!wrote ==> audit.Silent?))
      ensures requests >= old(requests) && LeavesOthers()
    {
      var stale := StaleNow(current, Desired(call));
      var deleted;
      ghost var was, q := history, requests;
      deleted, ok := DeleteOthers(stale, Desired(call), current);
      if ok && call.close {
        ghost var mid := history;
        DeletingCloses(scope, call, current, wrote, failing, q, requests);
        ok, audit, res := CloseAndReport(call, current, stale, wrote);
        KeptThroughout(was, mid, history, Fold(Desired(call)));
      } else {
        audit := AuditOf(scope, call, current, deleted, wrote, ok);
        res := Reported(scope, call, current, deleted, wrote, ok, ok, false);
        DeletingReportsCut(scope, call, current, wrote, failing, q, |deleted|);
      }
    }

    /** The call after the current labels have been read. */
    method ReplaceRead(call: ToolCall, ghost q: nat) returns (ok: bool, audit: Audit, ghost res: CallResult)
      requires UniqueLabels(labels) && Accepts(scope, call) && requests == q + 1 && q !in failing
      modifies this`requests, this`labels, this`history, this`closed
      ensures res == Run(scope, call, old(labels), failing, q) && Did(res, old(closed), ok, audit)
      ensures KeptOn(Fold(Desired(call))) && (history == old(history) ==> labels == old(labels) && audit.Silent?)
      ensures requests >= old(requests) && LeavesOthers()
    {
      var current := labels;
      ghost var was := history;
      var present, wrote := EnsureDesired(Desired(call));
      if !present {
        RunRefused(scope, call, current, failing, q);
        return false, Silent, Untouched(current);
      }
      ghost var mid := history;
      RunDeletes(scope, call, current, failing, q, requests, wrote);
      ok, audit, res := DeleteAndReport(call, current, wrote);
      KeptThroughout(was, mid, history, Fold(Desired(call)));
    }

    /** giteaIssueLabelsProxy.call. It does what `Run` says for the requests that fail, and so keeps the
        promises of `Run`; and once the desired label is confirmed it is never off the issue. Exactly the
        calls that are to be refused make no request; nothing but the agent's own issue is closed, and only
        into a terminal state; a call that wrote nothing is not audited; other labels are left alone. */
    method Replace(call: ToolCall) returns (ok: bool, audit: Audit, ghost res: CallResult)
      requires UniqueLabels(labels)
      modifies this
      ensures res == Run(scope, call, old(labels), failing, old(requests)) && Did(res, old(closed), ok, audit)
      ensures Promises(scope, call, old(labels), res)
      ensures KeptOn(Fold(Desired(call))) && (history == old(history) ==> labels == old(labels) && audit.Silent?)
      ensures requests == old(requests) <==> Refused(scope, call)
      ensures Refused(scope, call) ==> !ok && labels == old(labels) && closed == old(closed) && history == old(history)
      ensures res.closes ==>
                0 < scope.currentIssue == call.issue && OneOf(scope.terminalStates, StateOfKeys(scope.mappings, Keys(labels)))
      ensures LeavesOthers()
    {
      ghost var q := requests;
      RunKeepsPromises(scope, call, labels, failing, q);
      CloseIsGuarded(scope, call, labels, failing, q);
      AcceptsIs(scope, call);
      ok, audit, res := false, Silent, Untouched(labels);
      if !Accepts(scope, call) {
        RunRefused(scope, call, labels, failing, q);
        return;
      }
      var read := Ask();
      if !read {
        RunRefused(scope, call, labels, failing, q);
        return;
      }
      ok, audit, res := ReplaceRead(call, q);
    }
  }

  // ---------------------------------------------------------------------------------------------
  // A call that misreports

  const TWINS: seq<Label> := [Label(1, "aiops/in-progress"), Label(2, "AIOPS/In-Progress")]
  const TO_DONE: ToolCall := ToolCall(7, ["aiops/done"], false)
  const SEVEN: Scope := Scope(7, ["In Progress"], [], DEFAULT)

  lemma DefaultPriority()
    ensures StateOfKeys(DEFAULT, {"aiops/in-progress"}) == "In Progress"
    ensures StateOfKeys(DEFAULT, {"aiops/in-progress", "aiops/done"}) == "In Progress"
    ensures StateOfKeys(DEFAULT, {"aiops/done"}) == "Done" && Known(DEFAULT, "aiops/done")
  {
    DefaultsAreFolded();
    LastForIs(DEFAULT, "aiops/in-progress", 1);
    LastForIs(DEFAULT, "aiops/done", 5);
    WinnerIs(DEFAULT, {"aiops/in-progress"}, 1);
    WinnerIs(DEFAULT, {"aiops/in-progress", "aiops/done"}, 1);
    WinnerIs(DEFAULT, {"aiops/done"}, 5);
  }

  lemma ProgressFolds()
    ensures Fold("aiops/in-progress") == Fold("AIOPS/In-Progress") == "aiops/in-progress" && IsStateKey("aiops/in-progress")
  {
    FoldIs("aiops/in-progress", "aiops/in-progress");
    FoldIs("AIOPS/In-Progress", "aiops/in-progress");
  }

  lemma DoneFolds()
    ensures Fold("aiops/done") == "aiops/done" && IsStateKey("aiops/done") && Desired(TO_DONE) == "aiops/done"
  {
  }

  lemma ProgressIsActive()
    ensures Names(["In Progress"], "In Progress") && !Names(["In Progress"], "Done") && !Names([], "Done")
  {
    FoldIs("In Progress", "in progress");
    FoldIs("Done", "done");
    assert "In Progress" in ["In Progress"];
  }

  lemma TwinsAreStaleFor(desired: string)
    requires Stale(TWINS[0], desired) && Stale(TWINS[1], desired)
    ensures StaleOf(TWINS, desired) == TWINS
  {
    assert TWINS[..1] == [TWINS[0]] && TWINS[..1][..0] == [];
    assert StaleOf(TWINS[..1], desired) == [TWINS[0]];
  }

  lemma TwinFolds(labels: seq<Label>)
    requires labels == TWINS || labels == [TWINS[0]]
    ensures Keys(labels) == Folds(labels) == {"aiops/in-progress"}
  {
    ProgressFolds();
    assert labels[0] in labels;
  }

  /** One spelling is gone: the audit misses the other. */
  lemma TwinKeys()
    ensures PredictedKeys(TWINS, [TWINS[0]], "aiops/done") == {"aiops/done"}
    ensures KeysAfter(TWINS, [TWINS[0]], "aiops/done") == {"aiops/in-progress", "aiops/done"}
  {
    ProgressFolds();
    DoneFolds();
    TwinFolds(TWINS);
    TwinFolds([TWINS[0]]);
    assert TWINS[1] in TWINS && TWINS[1] !in [TWINS[0]];
  }

  lemma HandoffFires(scope: Scope, call: ToolCall, current: seq<Label>, deleted: seq<Label>, post: string)
    requires AtStake(scope, call, current) && post != "" && !Active(scope, post) && !Names(scope.terminalStates, post)
    requires StateOfKeys(scope.mappings, PredictedKeys(current, deleted, Desired(call))) == post
    ensures AuditOf(scope, call, current, deleted, true, false) == Fired(true, false)
  {
  }

  lemma TwinsAtStake()
    ensures AtStake(SEVEN, TO_DONE, TWINS) && Accepts(SEVEN, TO_DONE)
  {
    TwinFolds(TWINS);
    DoneFolds();
    DefaultPriority();
    ProgressIsActive();
  }

  lemma TwinAudit()
    ensures AuditOf(SEVEN, TO_DONE, TWINS, [TWINS[0]], true, false) == Fired(true, false)
    ensures AtStake(SEVEN, TO_DONE, TWINS) && Accepts(SEVEN, TO_DONE)
  {
    TwinsAtStake();
    TwinKeys();
    DoneFolds();
    DefaultPriority();
    ProgressIsActive();
    HandoffFires(SEVEN, TO_DONE, TWINS, [TWINS[0]], "Done");
  }

  lemma SecondFails(stale: seq<Label>)
    requires |stale| == 2 && stale[0].id != 0
    ensures DeleteCount(stale, iset{3}, 2) == 1
  {
  }

  /** With two stale labels and the desired one missing, request 3 is the second deletion. */
  lemma SecondDeletionFails(scope: Scope, call: ToolCall, labels: seq<Label>)
    requires Accepts(scope, call) && Fold(Desired(call)) !in Folds(labels)
    requires |labels| == 2 && StaleOf(labels, Desired(call)) == labels && labels[0].id != 0
    ensures Run(scope, call, labels, iset{3}, 0) == Reported(scope, call, labels, labels[..1], true, false, false, false)
  {
    SecondFails(labels);
    RunDeletes(scope, call, labels, iset{3}, 0, 2, true);
    DeletingReportsCut(scope, call, labels, true, iset{3}, 2, 1);
  }

  lemma TwinsAreUnique()
    ensures UniqueLabels(TWINS)
  {
  }

  lemma KeysDiffer()
    ensures "aiops/done" != "aiops/in-progress"
  {
    assert |"aiops/done"| < |"aiops/in-progress"|;
  }

  lemma TwinsAreStale()
    ensures Fold(Desired(TO_DONE)) !in Folds(TWINS) && StaleOf(TWINS, Desired(TO_DONE)) == TWINS
  {
    ProgressFolds();
    DoneFolds();
    TwinFolds(TWINS);
    KeysDiffer();
    TwinsAreStaleFor("aiops/done");
  }

  lemma TwinStates()
    ensures StateOfKeys(DEFAULT, KeysAfter(TWINS, [TWINS[0]], Desired(TO_DONE))) == StateOfKeys(DEFAULT, Keys(TWINS)) == "In Progress"
  {
    TwinKeys();
    TwinFolds(TWINS);
    DoneFolds();
    DefaultPriority();
  }

  /** An issue with two spellings of aiops/in-progress is to become Done; request 3, the deletion of the
      second, fails. The tool reports a handoff although the issue is still In Progress. */
  lemma TwinMisreports()
    ensures var res := Run(SEVEN, TO_DONE, TWINS, iset{3}, 0);
            && res.audit == Fired(true, false) && res.gone == [TWINS[0]]
            && StateOfKeys(DEFAULT, res.keys) == StateOfKeys(DEFAULT, Keys(TWINS)) == "In Progress"
  {
    TwinsAreStale();
    TwinAudit();
    SecondDeletionFails(SEVEN, TO_DONE, TWINS);
    TwinStates();
    assert TWINS[..1] == [TWINS[0]];
  }

  method CallOn(scope: Scope, call: ToolCall, labels: seq<Label>, failing: iset<nat>) returns (audit: Audit, state: string)
    requires UniqueLabels(labels)
    ensures var res := Run(scope, call, labels, failing, 0);
            audit == res.audit && state == StateOfKeys(scope.mappings, res.keys)
  {
    var issue := new IssueLabels(scope, failing, labels);
    var ok;
    ghost var res;
    ok, audit, res := issue.Replace(call);
    state := StateOfKeys(scope.mappings, Keys(issue.labels));
  }

  /** The same as the outcome of a call. */
  method MisreportingCall() returns (audit: Audit, state: string)
    ensures audit == Fired(true, false) && state == "In Progress"
  {
    TwinsAreUnique();
    TwinMisreports();
    audit, state := CallOn(SEVEN, TO_DONE, TWINS, iset{3});
  }
}
