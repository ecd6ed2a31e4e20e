/** Small shared vocabulary: an optional value and the ASCII text folding that the tracker code
    applies before it compares state and label names. */
module Prelude {

  datatype Option<+T> = None | Some(value: T)

  predicate IsSpace(c: char) {
    c == ' ' || c == '\t' || c == '\n' || c == '\r'
  }

  function TrimLeft(s: string): string {
    if s != "" && IsSpace(s[0]) then TrimLeft(s[1..]) else s
  }

  function TrimRight(s: string): string {
    if s != "" && IsSpace(s[|s| - 1]) then TrimRight(s[..|s| - 1]) else s
  }

  function Trim(s: string): string {
    TrimRight(TrimLeft(s))
  }

  function LowerChar(c: char): char {
    if 'A' <= c <= 'Z' then (c as int + 32) as char else c
  }

  function Lower(s: string): string {
    seq(|s|, i requires 0 <= i < |s| => LowerChar(s[i]))
  }

  /** Trimmed and lower-cased: the key under which names are looked up. */
  function Fold(s: string): string {
    Lower(Trim(s))
  }

  lemma {:induction false} TrimLeftLeaves(s: string)
    ensures TrimLeft(s) == "" || !IsSpace(TrimLeft(s)[0])
  {
    if s != "" && IsSpace(s[0]) {
      TrimLeftLeaves(s[1..]);
    }
  }

  lemma {:induction false} TrimRightLeaves(s: string)
    ensures TrimRight(s) == "" || !IsSpace(TrimRight(s)[|TrimRight(s)| - 1])
    ensures TrimRight(s) <= s
  {
    if s != "" && IsSpace(s[|s| - 1]) {
      TrimRightLeaves(s[..|s| - 1]);
    }
  }

  /** Trimming once is enough. */
  lemma TrimTrim(s: string)
    ensures Trim(Trim(s)) == Trim(s) && Fold(Trim(s)) == Fold(s)
  {
    TrimLeftLeaves(s);
    TrimRightLeaves(TrimLeft(s));
    assert Trim(s) != "" ==> Trim(s)[0] == TrimLeft(s)[0];
  }

  /** A folded name has no capitals and no space around it, and differs from the trimmed one in nothing else. */
  lemma FoldIsPlain(s: string)
    ensures |Fold(s)| == |Trim(s)|
    ensures forall i :: 0 <= i < |Fold(s)| ==> !('A' <= Fold(s)[i] <= 'Z')
    ensures forall i :: 0 <= i < |Fold(s)| ==>
              Fold(s)[i] == Trim(s)[i] || ('A' <= Trim(s)[i] <= 'Z' && Fold(s)[i] as int == Trim(s)[i] as int + 32)
    ensures Trim(s) != "" ==> !IsSpace(Trim(s)[0]) && !IsSpace(Trim(s)[|Trim(s)| - 1])
  {
    TrimLeftLeaves(s);
    TrimRightLeaves(TrimLeft(s));
    assert Trim(s) != "" ==> Trim(s)[0] == TrimLeft(s)[0];
  }

  lemma FoldIs(s: string, folded: string)
    requires |s| == |folded| > 0 && !IsSpace(s[0]) && !IsSpace(s[|s| - 1])
    requires forall i :: 0 <= i < |s| ==> LowerChar(s[i]) == folded[i]
    ensures Fold(s) == folded
  {
  }

  predicate HasPrefix(s: string, prefix: string) {
    |prefix| <= |s| && s[..|prefix|] == prefix
  }

  predicate Blank(s: string) {
    Trim(s) == ""
  }

  /** The elements of a sequence, each kept once. */
  function Elems<T>(s: seq<T>): set<T> {
    set x | x in s
  }

  ghost predicate Distinct<T>(s: seq<T>) {
    forall i, j :: 0 <= i < j < |s| ==> s[i] != s[j]
  }

  lemma {:induction false} SubsetCount<T>(a: set<T>, b: set<T>)
    requires a <= b
    ensures |a| <= |b|
  {
    if a != {} {
      var x :| x in a;
      SubsetCount(a - {x}, b - {x});
    }
  }
}
