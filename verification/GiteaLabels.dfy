/** How a workflow state is derived from the aiops/ labels of a Gitea issue: the first mapping whose
    label is present decides. */
module GiteaLabels {
  import opened Prelude

  datatype Mapping = Mapping(name: string, state: string)

  const PREFIX: string := "aiops/"

  /** The convention of the repository, in order of priority. */
  const DEFAULT: seq<Mapping> := [
    Mapping("aiops/rework", "Rework"),
    Mapping("aiops/in-progress", "In Progress"),
    Mapping("aiops/merging", "Merging"),
    Mapping("aiops/human-review", "Human Review"),
    Mapping("aiops/todo", "Todo"),
    Mapping("aiops/done", "Done"),
    Mapping("aiops/canceled", "Canceled")]

  predicate IsStateKey(key: string) {
    HasPrefix(key, PREFIX)
  }

  /** The folded aiops/ names among some labels. */
  function StateKeys(names: seq<string>): set<string> {
    set n | n in names && IsStateKey(Fold(n)) :: Fold(n)
  }

  predicate Usable(m: Mapping) {
    Fold(m.name) != "" && m.state != ""
  }

  /** The last usable mapping of a label. */
  function LastFor(mappings: seq<Mapping>, key: string): (r: Option<nat>)
    ensures r.Some? ==> r.value < |mappings| && Usable(mappings[r.value]) && Fold(mappings[r.value].name) == key
  {
    if mappings == [] then None
    else
      var n := |mappings| - 1;
      if Usable(mappings[n]) && Fold(mappings[n].name) == key then Some(n) else LastFor(mappings[..n], key)
  }

  lemma {:induction false} LastForIs(mappings: seq<Mapping>, key: string, i: nat)
    requires i < |mappings| && Usable(mappings[i]) && Fold(mappings[i].name) == key
    requires forall j :: i < j < |mappings| ==> Fold(mappings[j].name) != key
    ensures LastFor(mappings, key) == Some(i)
  {
    if i < |mappings| - 1 {
      LastForIs(mappings[..|mappings| - 1], key, i);
    }
  }

  /** Mapping i names the label and no later usable one does. */
  ghost predicate IsLast(mappings: seq<Mapping>, key: string, i: nat) {
    && i < |mappings| && Fold(mappings[i].name) == key && mappings[i].state != ""
    && forall j :: i < j < |mappings| ==> Fold(mappings[j].name) != key || mappings[j].state == ""
  }

  lemma {:induction false} LastForIsLast(mappings: seq<Mapping>, key: string, i: nat)
    requires key != ""
    ensures LastFor(mappings, key) == Some(i) <==> IsLast(mappings, key, i)
  {
    if mappings != [] {
      var n := |mappings| - 1;
      LastForIsLast(mappings[..n], key, i);
      assert i < n ==> forall j :: i < j < n ==> mappings[..n][j] == mappings[j];
    }
  }

  /** Mapping i is the one that counts for its label. */
  predicate Decides(mappings: seq<Mapping>, i: nat)
    requires i < |mappings|
  {
    LastFor(mappings, Fold(mappings[i].name)) == Some(i)
  }

  /** The first mapping from i on whose label is among the keys, or the end. */
  function Winner(mappings: seq<Mapping>, keys: set<string>, i: nat): (w: nat)
    requires i <= |mappings|
    ensures i <= w <= |mappings|
    ensures w < |mappings| ==> Decides(mappings, w) && Fold(mappings[w].name) in keys
    ensures forall j :: i <= j < w ==> !(Decides(mappings, j) && Fold(mappings[j].name) in keys)
    decreases |mappings| - i
  {
    if i == |mappings| then i
    else if Decides(mappings, i) && Fold(mappings[i].name) in keys then i
    else Winner(mappings, keys, i + 1)
  }

  /** The state of the winning label, or no state. */
  function StateOfKeys(mappings: seq<Mapping>, keys: set<string>): string {
    var w := Winner(mappings, keys, 0);
    if w < |mappings| then mappings[w].state else ""
  }

  function DerivedState(mappings: seq<Mapping>, names: seq<string>): string {
    StateOfKeys(mappings, StateKeys(names))
  }

  predicate Known(mappings: seq<Mapping>, key: string) {
    LastFor(mappings, key).Some?
  }

  /** Of two sets of labels together, the higher priority wins. */
  lemma WinnerOfUnion(mappings: seq<Mapping>, a: set<string>, b: set<string>)
    ensures Winner(mappings, a + b, 0) ==
            (if Winner(mappings, a, 0) <= Winner(mappings, b, 0) then Winner(mappings, a, 0) else Winner(mappings, b, 0))
  {
  }

  lemma KnownKeyWins(mappings: seq<Mapping>, keys: set<string>, key: string)
    requires key in keys && Known(mappings, key)
    ensures Winner(mappings, keys, 0) < |mappings| && StateOfKeys(mappings, keys) != ""
  {
  }

  /** Mapping i counts for its label, and one of the names is that label in some spelling. */
  ghost predicate Present(mappings: seq<Mapping>, names: seq<string>, i: nat) {
    && i < |mappings| && IsLast(mappings, Fold(mappings[i].name), i) && HasPrefix(Fold(mappings[i].name), "aiops/")
    && exists n :: n in names && Fold(n) == Fold(mappings[i].name)
  }

  /** The labels put the issue in this state: that of the first mapping present, or none. */
  ghost predicate InState(mappings: seq<Mapping>, names: seq<string>, state: string) {
    || (exists i: nat :: Present(mappings, names, i) && mappings[i].state == state && forall j: nat :: j < i ==> !Present(mappings, names, j))
    || (state == "" && forall j: nat :: !Present(mappings, names, j))
  }

  lemma PresentIs(mappings: seq<Mapping>, names: seq<string>, i: nat)
    requires i < |mappings|
    ensures Present(mappings, names, i) <==> Decides(mappings, i) && Fold(mappings[i].name) in StateKeys(names)
  {
    if Fold(mappings[i].name) != "" {
      LastForIsLast(mappings, Fold(mappings[i].name), i);
    }
  }

  /** And it is the state derived. */
  lemma DerivedIs(mappings: seq<Mapping>, names: seq<string>, state: string)
    ensures InState(mappings, names, state) <==> DerivedState(mappings, names) == state
  {
    var w := Winner(mappings, StateKeys(names), 0);
    forall j | 0 <= j < |mappings| ensures Present(mappings, names, j) <==> Decides(mappings, j) && Fold(mappings[j].name) in StateKeys(names) {
      PresentIs(mappings, names, j);
    }
    assert w < |mappings| ==> Present(mappings, names, w) && forall j: nat :: j < w ==> !Present(mappings, names, j);
  }

  // ---------------------------------------------------------------------------------------------
  // The derivation as the adapter computes it

  /** The label-to-state and label-to-priority tables; a repeated label keeps its last entry. */
  method Tables(mappings: seq<Mapping>) returns (known: map<string, string>, priority: map<string, nat>)
    ensures known.Keys == priority.Keys
    ensures forall key :: Entry(priority, key) == LastFor(mappings, key)
    ensures forall key :: key in priority ==> priority[key] < |mappings| && known[key] == mappings[priority[key]].state
  {
    known, priority := map[], map[];
    for i := 0 to |mappings|
      invariant known.Keys == priority.Keys
      invariant forall key :: Entry(priority, key) == LastFor(mappings[..i], key)
      invariant forall key :: key in priority ==> priority[key] < i && known[key] == mappings[priority[key]].state
    {
      assert mappings[..i + 1][..i] == mappings[..i];
      if Usable(mappings[i]) {
        var key := Fold(mappings[i].name);
        known, priority := known[key := mappings[i].state], priority[key := i];
      }
    }
    assert mappings[..|mappings|] == mappings;
  }

  function Entry(table: map<string, nat>, key: string): Option<nat> {
    if key in table then Some(table[key]) else None
  }

  /** IssueStateFromLabels. The sorted matches' head is the match of least priority number. Unknown
      aiops/ labels and conflicts are reported, and change nothing. */
  method IssueStateFromLabels(names: seq<string>, configured: seq<Mapping>)
    returns (state: string, unknown: set<string>, matches: set<string>)
    ensures var mappings := if configured == [] then DEFAULT else configured;
            && state == DerivedState(mappings, names) && InState(mappings, names, state)
            && (forall key :: key in matches <==> key in StateKeys(names) && Known(mappings, key))
            && (forall key :: key in unknown <==> key in StateKeys(names) && !Known(mappings, key))
            && (state == "" <==> matches == {})
  {
    var mappings := if configured == [] then DEFAULT else configured;
    var known, priority := Tables(mappings);
    forall key ensures key in known <==> Known(mappings, key) {
      assert Entry(priority, key) == LastFor(mappings, key);
    }
    matches, unknown := {}, {};
    for i := 0 to |names|
      invariant forall key :: key in matches <==> key in StateKeys(names[..i]) && key in known
      invariant forall key :: key in unknown <==> key in StateKeys(names[..i]) && key !in known
    {
      assert names[..i + 1] == names[..i] + [names[i]];
      var key := Fold(names[i]);
      if key != "" && IsStateKey(key) {
        if key in known {
          matches := matches + {key};
        } else {
          unknown := unknown + {key};
        }
      }
    }
    assert names[..|names|] == names;
    var best := Best(mappings, matches, priority);
    forall j | 0 <= j < best && Decides(mappings, j) ensures Fold(mappings[j].name) !in StateKeys(names) {
      assert Entry(priority, Fold(mappings[j].name)) == Some(j);
    }
    WinnerIs(mappings, StateKeys(names), best);
    state := if best < |mappings| then known[Fold(mappings[best].name)] else "";
    DerivedIs(mappings, names, state);
  }

  /** The head of the matches sorted by priority, as a mapping number. */
  method Best(mappings: seq<Mapping>, matches: set<string>, priority: map<string, nat>) returns (best: nat)
    requires forall key :: key in matches ==> key in priority && LastFor(mappings, key) == Some(priority[key])
    ensures best <= |mappings| && (best < |mappings| ==> Decides(mappings, best) && Fold(mappings[best].name) in matches)
    ensures forall key :: key in matches ==> best <= priority[key]
    ensures best < |mappings| <==> matches != {}
  {
    best := |mappings|;
    var todo := matches;
    while todo != {}
      invariant todo <= matches && best <= |mappings|
      invariant best < |mappings| ==> Decides(mappings, best) && Fold(mappings[best].name) in matches
      invariant forall key :: key in matches && key !in todo ==> best <= priority[key]
      decreases |todo|
    {
      var key :| key in todo;
      if priority[key] < best {
        best := priority[key];
      }
      todo := todo - {key};
    }
  }

  lemma WinnerIs(mappings: seq<Mapping>, keys: set<string>, w: nat)
    requires w <= |mappings|
    requires w < |mappings| ==> Decides(mappings, w) && Fold(mappings[w].name) in keys
    requires forall j :: 0 <= j < w && Decides(mappings, j) ==> Fold(mappings[j].name) !in keys
    ensures Winner(mappings, keys, 0) == w
  {
  }

  // ---------------------------------------------------------------------------------------------
  // Listing by state

  /** The last label configured for a state, if any. */
  function LabelFor(mappings: seq<Mapping>, state: string): Option<string> {
    if mappings == [] then None
    else
      var m := mappings[|mappings| - 1];
      if Fold(m.state) == state && state != "" && Fold(m.name) != "" then Some(Fold(m.name))
      else LabelFor(mappings[..|mappings| - 1], state)
  }

  /** Mapping i is the last that names both the state and a label. */
  ghost predicate LastOfState(mappings: seq<Mapping>, state: string, i: nat) {
    && i < |mappings| && Fold(mappings[i].state) == state && Fold(mappings[i].name) != ""
    && forall j :: i < j < |mappings| ==> Fold(mappings[j].state) != state || Fold(mappings[j].name) == ""
  }

  /** A mapping that does not name the state changes nothing. */
  lemma LastOfStateNext(mappings: seq<Mapping>, m: Mapping, state: string, i: nat)
    requires !(Fold(m.state) == state && Fold(m.name) != "")
    ensures LastOfState(mappings + [m], state, i) <==> LastOfState(mappings, state, i)
  {
    assert forall j :: 0 <= j < |mappings| ==> (mappings + [m])[j] == mappings[j];
  }

  /** A state is listed by the label of its last mapping, if it has one. */
  lemma {:induction false} LabelForIs(mappings: seq<Mapping>, state: string, i: nat)
    requires state != ""
    ensures LastOfState(mappings, state, i) ==> LabelFor(mappings, state) == Some(Fold(mappings[i].name))
    ensures LabelFor(mappings, state).None? ==> !LastOfState(mappings, state, i)
  {
    if mappings != [] {
      var n := |mappings| - 1;
      if !(Fold(mappings[n].state) == state && Fold(mappings[n].name) != "") {
        LabelForIs(mappings[..n], state, i);
        LastOfStateNext(mappings[..n], mappings[n], state, i);
        assert mappings == mappings[..n] + [mappings[n]];
      }
    }
  }

  lemma {:induction false} LabelForNames(mappings: seq<Mapping>, state: string) returns (i: nat)
    requires state != "" && LabelFor(mappings, state).Some?
    ensures LastOfState(mappings, state, i) && LabelFor(mappings, state) == Some(Fold(mappings[i].name))
  {
    var n := |mappings| - 1;
    i := n;
    if !(Fold(mappings[n].state) == state && Fold(mappings[n].name) != "") {
      i := LabelForNames(mappings[..n], state);
      LastOfStateNext(mappings[..n], mappings[n], state, i);
      assert mappings == mappings[..n] + [mappings[n]];
    }
  }

  /** StateLabelNamesForStates: the labels of the named states, each once. */
  method LabelNamesForStates(states: seq<string>, mappings: seq<Mapping>) returns (names: seq<string>)
    ensures Distinct(names)
    ensures forall n :: n in names <==> exists s :: s in states && LabelFor(mappings, Fold(s)) == Some(n)
  {
    var byState: map<string, string> := map[];
    for i := 0 to |mappings|
      invariant forall s :: (if s in byState then Some(byState[s]) else None) == LabelFor(mappings[..i], s)
    {
      assert mappings[..i + 1][..i] == mappings[..i];
      var state, name := Fold(mappings[i].state), Fold(mappings[i].name);
      if state != "" && name != "" {
        byState := byState[state := name];
      }
    }
    assert mappings[..|mappings|] == mappings;
    names := [];
    for i := 0 to |states|
      invariant Distinct(names)
      invariant forall n :: n in names <==> exists s :: s in states[..i] && LabelFor(mappings, Fold(s)) == Some(n)
    {
      assert states[..i + 1] == states[..i] + [states[i]];
      var key := Fold(states[i]);
      if key in byState && byState[key] !in names {
        names := names + [byState[key]];
      }
    }
    assert states[..|states|] == states;
  }

  // ---------------------------------------------------------------------------------------------
  // The default mappings

  lemma DefaultsAreFolded()
    ensures forall i :: 0 <= i < |DEFAULT| ==> Fold(DEFAULT[i].name) == DEFAULT[i].name && Usable(DEFAULT[i])
  {
    forall i | 0 <= i < |DEFAULT| ensures Fold(DEFAULT[i].name) == DEFAULT[i].name {
      FoldIs(DEFAULT[i].name, DEFAULT[i].name);
    }
  }

  /** Every state has one label and every label one state. */
  ghost predicate OneToOne(mappings: seq<Mapping>) {
    && (forall m :: m in mappings ==> Usable(m) && Fold(m.state) != "" && IsStateKey(Fold(m.name)))
    && (forall i, j :: 0 <= i < j < |mappings| ==>
          Fold(mappings[i].name) != Fold(mappings[j].name) && Fold(mappings[i].state) != Fold(mappings[j].state))
  }

  const FOLDED: seq<string> := ["rework", "in progress", "merging", "human review", "todo", "done", "canceled"]

  lemma StatesFold()
    ensures forall i :: 0 <= i < |DEFAULT| ==> Fold(DEFAULT[i].state) == FOLDED[i]
  {
    forall i | 0 <= i < |DEFAULT| ensures Fold(DEFAULT[i].state) == FOLDED[i] {
      FoldIs(DEFAULT[i].state, FOLDED[i]);
    }
  }

  lemma DefaultsDiffer(i: nat, j: nat)
    requires i < j < |DEFAULT|
    ensures DEFAULT[i].name != DEFAULT[j].name && FOLDED[i] != FOLDED[j]
  {
  }

  lemma DefaultIsOneToOne()
    ensures OneToOne(DEFAULT)
  {
    DefaultsAreFolded();
    StatesFold();
    forall i, j | 0 <= i < j < |DEFAULT|
      ensures Fold(DEFAULT[i].name) != Fold(DEFAULT[j].name) && Fold(DEFAULT[i].state) != Fold(DEFAULT[j].state)
    {
      DefaultsDiffer(i, j);
    }
    forall m | m in DEFAULT ensures Usable(m) && Fold(m.state) != "" && IsStateKey(Fold(m.name)) {
      var i :| 0 <= i < |DEFAULT| && DEFAULT[i] == m;
      StateKeyNames(i);
    }
  }

  lemma StateKeyNames(i: nat)
    requires i < |DEFAULT|
    ensures IsStateKey(DEFAULT[i].name) && FOLDED[i] != ""
  {
  }
}
