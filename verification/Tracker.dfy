/** What a tracker tells the poller: listed issues, narrow-refresh rows, and the workflow states and
    labels that decide whether an issue may be worked on. */
module Tracker {
  import opened Prelude

  datatype Blocker = Blocker(state: string)

  datatype TrackerIssue = TrackerIssue(
    id: string,
    identifier: string,
    title: string,
    state: string,
    labels: seq<string>,
    priority: int,
    createdAt: Option<int>,
    blockedBy: seq<Blocker>)

  /** One row of a narrow refresh. A missing row means Unknown. A current row may say nothing about
      blockers. */
  datatype Row = Unknown | Absent | Current(state: string, labels: seq<string>, blockedBy: Option<seq<Blocker>>)

  function RowOf(rows: map<string, Row>, id: string): Row {
    if id in rows then rows[id] else Unknown
  }

  /** The reconciliation settings; state names are folded, required labels are not. */
  datatype Settings = Settings(
    activeStates: set<string>,
    terminalStates: set<string>,
    inactiveStates: set<string>,
    requiredLabels: seq<string>)

  predicate IsActive(cfg: Settings, state: string) {
    Fold(state) in cfg.activeStates
  }

  predicate IsConfiguredInactive(cfg: Settings, state: string) {
    Fold(state) in cfg.terminalStates + cfg.inactiveStates
  }

  predicate HasRequiredLabels(labels: seq<string>, required: seq<string>) {
    forall r :: r in required ==> exists l :: l in labels && Fold(l) == Fold(r)
  }

  /** The label gate as the poller computes it. */
  method LabelsSatisfyRequired(labels: seq<string>, required: seq<string>) returns (ok: bool)
    ensures ok <==> HasRequiredLabels(labels, required)
  {
    var have: set<string> := {};
    for i := 0 to |labels|
      invariant forall k :: k in have <==> exists l :: l in labels[..i] && Fold(l) == k
    {
      assert labels[..i + 1] == labels[..i] + [labels[i]];
      have := have + {Fold(labels[i])};
    }
    assert labels[..|labels|] == labels;
    for i := 0 to |required|
      invariant forall r :: r in required[..i] ==> exists l :: l in labels && Fold(l) == Fold(r)
    {
      assert required[..i + 1] == required[..i] + [required[i]];
      if Fold(required[i]) !in have {
        return false;
      }
    }
    assert required[..|required|] == required;
    return true;
  }

  predicate HasSuffix(s: string, suffix: string) {
    |suffix| <= |s| && s[|s| - |suffix|..] == suffix
  }

  predicate IsTodo(state: string) {
    var s := Fold(state);
    s == "todo" || HasSuffix(s, ":todo") || HasSuffix(s, "/todo")
  }

  /** A todo issue with a blocker whose state is blank or not terminal. */
  predicate BlockedTodo(cfg: Settings, issue: TrackerIssue) {
    IsTodo(issue.state) &&
    exists b :: b in issue.blockedBy && (Fold(b.state) == "" || Fold(b.state) !in cfg.terminalStates)
  }
}
