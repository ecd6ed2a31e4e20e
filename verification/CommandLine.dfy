/** Splitting a configured command into words. A command is run directly only if a scan finds no shell
    syntax in it; the scan and the tokenizer walk the same text with different rules, and must agree
    with what a shell would have made of it. */
module CommandLine {
  import opened Prelude

  const ESCAPABLE: string := "$`\"\\\n"
  const ACTIVE: string := "|&;<>$()`{}[]*?~"

  // ---------------------------------------------------------------------------------------------
  // The tokenizer

  datatype Tokenizer = Tokenizer(args: seq<string>, current: string, quote: Option<char>, started: bool)

  const START: Tokenizer := Tokenizer([], "", None, false)

  function Flush(t: Tokenizer): Tokenizer {
    if t.started then Tokenizer(t.args + [t.current], "", t.quote, false) else t
  }

  function Extend(t: Tokenizer, c: char): Tokenizer {
    t.(current := t.current + [c], started := true)
  }

  predicate EscapesNext(quote: char, s: string) {
    quote == '"' && |s| >= 2 && s[0] == '\\' && s[1] in ESCAPABLE
  }

  /** One rune, or an escape of two, inside quotes. */
  function Quoted(t: Tokenizer, s: string): (Tokenizer, nat)
    requires t.quote.Some? && s != ""
  {
    if s[0] == t.quote.value then (t.(quote := None, started := true), 1)
    else if EscapesNext(t.quote.value, s) then (Extend(t, s[1]), 2)
    else (Extend(t, s[0]), 1)
  }

  function Unquoted(t: Tokenizer, c: char): Tokenizer {
    if c == '\\' then Extend(t, c)
    else if c == '\'' || c == '"' then t.(quote := Some(c), started := true)
    else if IsSpace(c) then Flush(t)
    else Extend(t, c)
  }

  /** The words of the rest of a command, or nothing if a quote stays open. */
  function SplitFrom(t: Tokenizer, s: string): Option<seq<string>>
    decreases |s|
  {
    if s == "" then if t.quote.Some? then None else Some(Flush(t).args)
    else if t.quote.Some? then
      var (t', n) := Quoted(t, s);
      SplitFrom(t', s[n..])
    else SplitFrom(Unquoted(t, s[0]), s[1..])
  }

  /** splitAppServerCommand. */
  method Split(command: string) returns (words: Option<seq<string>>)
    ensures words == SplitFrom(START, command)
  {
    var t := START;
    var i := 0;
    while i < |command|
      invariant 0 <= i <= |command|
      invariant SplitFrom(START, command) == SplitFrom(t, command[i..])
    {
      if t.quote.Some? {
        assert EscapesNext(t.quote.value, command[i..]) <==>
               t.quote == Some('"') && i + 1 < |command| && command[i] == '\\' && command[i + 1] in ESCAPABLE;
        if command[i] == t.quote.value {
          t := t.(quote := None, started := true);
        } else if t.quote == Some('"') && command[i] == '\\' && i + 1 < |command| && command[i + 1] in ESCAPABLE {
          t := Extend(t, command[i + 1]);
          assert command[i..][2..] == command[i + 2..];
          i := i + 2;
          continue;
        } else {
          t := Extend(t, command[i]);
        }
      } else {
        t := Unquoted(t, command[i]);
      }
      assert command[i..][1..] == command[i + 1..];
      i := i + 1;
    }
    words := if t.quote.Some? then None else Some(Flush(t).args);
  }

  /** Inside double quotes a backslash stands for itself, unless it is in front of one of five runes. */
  lemma BackslashInQuotes(t: Tokenizer, c: char, rest: string)
    requires t.quote == Some('"')
    ensures SplitFrom(t, ['\\', c] + rest) ==
            if c == '$' || c == '`' || c == '"' || c == '\\' || c == '\n' then SplitFrom(Extend(t, c), rest)
            else SplitFrom(Extend(t, '\\'), [c] + rest)
  {
    var s := ['\\', c] + rest;
    assert s[2..] == rest && s[1..] == [c] + rest;
  }

  // ---------------------------------------------------------------------------------------------
  // The shell-syntax scan

  predicate InSingle(s: string)
    decreases |s|
  {
    s == "" || (if s[0] == '\'' then InPlain(false, s[1..]) else InSingle(s[1..]))
  }

  /** A backslash hides the next rune from the scan, whatever it is. */
  predicate InDouble(s: string)
    decreases |s|
  {
    s == "" ||
    (if s[0] == '"' then InPlain(false, s[1..])
     else if s[0] == '$' || s[0] == '`' || s[0] == '\n' then true
     else if s[0] == '\\' then |s| < 2 || s[1] == '\n' || InDouble(s[2..])
     else InDouble(s[1..]))
  }

  /** Does the rest of a command, outside quotes, hold shell syntax? An open quote at the end does. */
  predicate InPlain(boundary: bool, s: string)
    decreases |s|
  {
    s != "" &&
    (if s[0] == '\'' then InSingle(s[1..])
     else if s[0] == '"' then InDouble(s[1..])
     else if s[0] == '\n' || s[0] == '\r' then true
     else if s[0] == '#' then boundary || InPlain(false, s[1..])
     else if IsSpace(s[0]) then InPlain(true, s[1..])
     else s[0] == '\\' || s[0] in ACTIVE || InPlain(false, s[1..]))
  }

  /** The scan's answer from a given state on. */
  predicate ScanFrom(quote: Option<char>, boundary: bool, s: string) {
    if quote == Some('\'') then InSingle(s)
    else if quote == Some('"') then InDouble(s)
    else InPlain(boundary, s)
  }

  // The same, position by position

  /** Where a rune of a command stands: outside quotes, inside single or double ones, or right behind a
      backslash inside double ones. */
  datatype Place = Outside | Single | Double | Behind

  function PlaceAt(s: string, i: nat): Place
    requires i <= |s|
  {
    if i == 0 then Outside
    else
      var c := s[i - 1];
      match PlaceAt(s, i - 1)
      case Outside => if c == '\'' then Single else if c == '"' then Double else Outside
      case Single => if c == '\'' then Outside else Single
      case Double => if c == '"' then Outside else if c == '\\' then Behind else Double
      case Behind => Double
  }

  /** The rune begins a word: nothing but an unquoted blank stands before it. */
  predicate BeginsWord(s: string, i: nat)
    requires i <= |s|
  {
    i == 0 || (PlaceAt(s, i - 1) == Outside && (s[i - 1] == ' ' || s[i - 1] == '\t'))
  }

  /** The rune means something to a shell where it stands. */
  predicate Reveals(s: string, i: nat)
    requires i < |s|
  {
    match PlaceAt(s, i)
    case Outside => s[i] in "\n\r\\|&;<>$()`{}[]*?~" || (s[i] == '#' && BeginsWord(s, i))
    case Single => false
    case Double => s[i] == '$' || s[i] == '`' || s[i] == '\n'
    case Behind => s[i] == '\n'
  }

  ghost predicate RevealsFrom(s: string, i: nat) {
    exists j :: i <= j < |s| && Reveals(s, j)
  }

  /** A command needs a shell if some rune of it means something to one, or a quote stays open. */
  ghost predicate NeedsShell(s: string) {
    RevealsFrom(s, 0) || PlaceAt(s, |s|) != Outside
  }

  predicate ScanAt(place: Place, boundary: bool, s: string) {
    match place
    case Outside => InPlain(boundary, s)
    case Single => InSingle(s)
    case Double => InDouble(s)
    case Behind => s == "" || s[0] == '\n' || InDouble(s[1..])
  }

  lemma {:induction false} ScanIs(s: string, i: nat)
    requires i <= |s|
    ensures ScanAt(PlaceAt(s, i), BeginsWord(s, i), s[i..]) <==> RevealsFrom(s, i) || PlaceAt(s, |s|) != Outside
    decreases |s| - i
  {
    if i < |s| {
      ScanIs(s, i + 1);
      RevealsNext(s, i);
      if PlaceAt(s, i) == Outside {
        PlainSteps(s, i);
      } else {
        QuotedSteps(s, i);
      }
    }
  }

  lemma RevealsNext(s: string, i: nat)
    requires i < |s|
    ensures RevealsFrom(s, i) <==> Reveals(s, i) || RevealsFrom(s, i + 1)
  {
  }

  predicate ScanSteps(s: string, i: nat)
    requires i < |s|
  {
    ScanAt(PlaceAt(s, i), BeginsWord(s, i), s[i..]) ==
    (Reveals(s, i) || ScanAt(PlaceAt(s, i + 1), BeginsWord(s, i + 1), s[i + 1..]))
  }

  lemma PlainSteps(s: string, i: nat)
    requires i < |s| && PlaceAt(s, i) == Outside
    ensures ScanSteps(s, i)
  {
    assert s[i..][0] == s[i] && s[i..][1..] == s[i + 1..];
  }

  lemma QuotedSteps(s: string, i: nat)
    requires i < |s| && PlaceAt(s, i) != Outside
    ensures ScanSteps(s, i)
  {
    assert s[i..][0] == s[i] && s[i..][1..] == s[i + 1..];
    if PlaceAt(s, i) == Double && s[i] == '\\' && i + 1 < |s| {
      assert s[i..][2..] == s[i + 2..] && s[i + 1..][1..] == s[i + 2..] && s[i..][1] == s[i + 1];
    }
  }

  /** The scan finds shell syntax exactly in the commands that need a shell. */
  lemma ScanFindsWhatNeedsShell(s: string)
    ensures InPlain(true, s) <==> NeedsShell(s)
  {
    ScanIs(s, 0);
    assert s[0..] == s;
  }

  /** hasShellSyntax. */
  method HasShellSyntax(command: string) returns (found: bool)
    ensures found == InPlain(true, command) && (found <==> NeedsShell(command))
  {
    ScanFindsWhatNeedsShell(command);
    var quote: Option<char>, boundary := None, true;
    var i := 0;
    while i < |command|
      invariant 0 <= i <= |command| && (quote == None || quote == Some('\'') || quote == Some('"'))
      invariant InPlain(true, command) == ScanFrom(quote, boundary, command[i..])
      invariant quote.Some? ==> !boundary
    {
      var c := command[i];
      assert command[i..][1..] == command[i + 1..];
      if quote == Some('\'') {
        if c == '\'' {
          quote := None;
        }
      } else if quote == Some('"') {
        if c == '"' {
          quote := None;
        } else if c == '$' || c == '`' || c == '\n' {
          return true;
        } else if c == '\\' {
          if i + 1 < |command| && command[i + 1] == '\n' {
            return true;
          }
          if i + 1 < |command| {
            assert command[i..][2..] == command[i + 2..];
            i := i + 1;
          }
        }
      } else if c == '\'' || c == '"' {
        quote, boundary := Some(c), false;
      } else if c == '\n' || c == '\r' {
        return true;
      } else if c == '#' {
        if boundary {
          return true;
        }
      } else if IsSpace(c) {
        boundary := true;
      } else if c == '\\' || c in ACTIVE {
        return true;
      } else {
        boundary := false;
      }
      i := i + 1;
    }
    return quote.Some?;
  }

  // ---------------------------------------------------------------------------------------------
  // The shell's own rules

  /** A double-quoted string after its opening quote: its text and what follows it. Section 2.2.3 of
      the POSIX Shell Command Language: a backslash quotes only $ ` " \ and newline, and vanishes
      with a newline. An expansion is not a plain string. */
  function DoubleQuoted(s: string): Option<(string, string)>
    decreases |s|
  {
    if s == "" || s[0] == '$' || s[0] == '`' then None
    else if s[0] == '"' then Some(("", s[1..]))
    else if s[0] == '\\' && |s| >= 2 && s[1] == '\n' then DoubleQuoted(s[2..])
    else if s[0] == '\\' && |s| >= 2 && s[1] in "$`\"\\" then Before(s[1], DoubleQuoted(s[2..]))
    else Before(s[0], DoubleQuoted(s[1..]))
  }

  function Before(c: char, r: Option<(string, string)>): Option<(string, string)> {
    if r.Some? then Some(([c] + r.value.0, r.value.1)) else None
  }

  /** A single-quoted string after its opening quote (section 2.2.2): everything up to the next one. */
  function SingleQuoted(s: string): Option<(string, string)> {
    if s == "" then None
    else if s[0] == '\'' then Some(("", s[1..]))
    else Before(s[0], SingleQuoted(s[1..]))
  }

  /** Operators, expansions and pattern characters: where plain words end. */
  predicate Special(c: char) {
    c in "|&;<>()$`*?[~\n"
  }

  predicate IsBlank(c: char) {
    c == ' ' || c == '\t'
  }

  function Then(word: string, rest: Option<seq<string>>): Option<seq<string>> {
    if rest.Some? then Some([word] + rest.value) else None
  }

  /** The words of text between words. A # here starts a comment. */
  function ShellWords(s: string): Option<seq<string>>
    decreases |s|, 1
  {
    if s == "" then Some([])
    else if IsBlank(s[0]) then ShellWords(s[1..])
    else if s[0] == '#' then None
    else WordFrom("", s)
  }

  lemma {:induction false} QuotedRest(s: string)
    ensures SingleQuoted(s).Some? ==> |SingleQuoted(s).value.1| < |s|
    ensures DoubleQuoted(s).Some? ==> |DoubleQuoted(s).value.1| < |s|
    decreases |s|
  {
    if s != "" {
      QuotedRest(s[1..]);
      if |s| >= 2 {
        QuotedRest(s[2..]);
      }
    }
  }

  /** The words of text inside a word whose beginning is `word`: quoted parts join the word. */
  function WordFrom(word: string, s: string): Option<seq<string>>
    decreases |s|, 0
  {
    if s == "" then Some([word])
    else if IsBlank(s[0]) then Then(word, ShellWords(s[1..]))
    else if s[0] == '\'' then
      QuotedRest(s[1..]);
      var q := SingleQuoted(s[1..]);
      if q.None? then None else WordFrom(word + q.value.0, q.value.1)
    else if s[0] == '"' then
      QuotedRest(s[1..]);
      var q := DoubleQuoted(s[1..]);
      if q.None? then None else WordFrom(word + q.value.0, q.value.1)
    else if s[0] == '\\' then
      if |s| < 2 then None
      else if s[1] == '\n' then WordFrom(word, s[2..])
      else WordFrom(word + [s[1]], s[2..])
    else if Special(s[0]) then None
    else WordFrom(word + [s[0]], s[1..])
  }

  // ---------------------------------------------------------------------------------------------
  // Without shell syntax, the tokenizer reads what the shell reads

  lemma {:induction false} SingleAgrees(t: Tokenizer, s: string)
    requires t.quote == Some('\'') && t.started && !InSingle(s)
    ensures SingleQuoted(s).Some? && !InPlain(false, SingleQuoted(s).value.1)
    ensures SplitFrom(t, s) == SplitFrom(t.(current := t.current + SingleQuoted(s).value.0, quote := None), SingleQuoted(s).value.1)
    decreases |s|
  {
    if s[0] == '\'' {
      assert t.current + "" == t.current;
    } else {
      SingleAgrees(Extend(t, s[0]), s[1..]);
      RuneJoins(t, s[0], SingleQuoted(s[1..]).value);
    }
  }

  /** A rune joins the word before or after the rest of its string. */
  lemma RuneJoins(t: Tokenizer, c: char, q: (string, string))
    requires t.started
    ensures Extend(t, c).(current := Extend(t, c).current + q.0, quote := None) ==
            t.(current := t.current + ([c] + q.0), quote := None)
  {
    assert t.current + [c] + q.0 == t.current + ([c] + q.0);
  }

  lemma {:induction false} DoubleAgrees(t: Tokenizer, s: string)
    requires t.quote == Some('"') && t.started && !InDouble(s)
    ensures DoubleQuoted(s).Some? && !InPlain(false, DoubleQuoted(s).value.1)
    ensures SplitFrom(t, s) == SplitFrom(t.(current := t.current + DoubleQuoted(s).value.0, quote := None), DoubleQuoted(s).value.1)
    decreases |s|
  {
    if s[0] == '"' {
      assert t.current + "" == t.current;
    } else if s[0] == '\\' && s[1] in ESCAPABLE {
      DoubleAgrees(Extend(t, s[1]), s[2..]);
      RuneJoins(t, s[1], DoubleQuoted(s[2..]).value);
    } else {
      if s[0] == '\\' {
        HiddenRune(s);
      }
      DoubleAgrees(Extend(t, s[0]), s[1..]);
      RuneJoins(t, s[0], DoubleQuoted(s[1..]).value);
    }
  }

  /** Hiding a rune that no backslash quotes makes no difference to the scan. */
  lemma HiddenRune(s: string)
    requires |s| >= 2 && s[0] == '\\' && s[1] !in ESCAPABLE
    ensures InDouble(s) == InDouble(s[1..])
  {
  }

  predicate InStep(t: Tokenizer, boundary: bool) {
    t.quote.None? && t.started == !boundary && (boundary ==> t.current == "")
  }

  lemma {:induction false} PlainAgrees(t: Tokenizer, boundary: bool, s: string)
    requires InStep(t, boundary) && !InPlain(boundary, s)
    ensures var rest := if boundary then ShellWords(s) else WordFrom(t.current, s);
            rest.Some? && SplitFrom(t, s) == Some(t.args + rest.value)
    decreases |s|
  {
    if s == "" {
      assert boundary ==> t.args + [] == t.args;
    } else if s[0] == '\'' || s[0] == '"' {
      QuoteAgrees(t, boundary, s);
    } else if IsBlank(s[0]) {
      PlainAgrees(Flush(t), true, s[1..]);
      if !boundary {
        assert t.args + [t.current] + ShellWords(s[1..]).value == t.args + ([t.current] + ShellWords(s[1..]).value);
      }
    } else {
      PlainAgrees(Extend(t, s[0]), false, s[1..]);
    }
  }

  lemma {:induction false} QuoteAgrees(t: Tokenizer, boundary: bool, s: string)
    requires InStep(t, boundary) && !InPlain(boundary, s) && s != "" && (s[0] == '\'' || s[0] == '"')
    ensures var rest := if boundary then ShellWords(s) else WordFrom(t.current, s);
            rest.Some? && SplitFrom(t, s) == Some(t.args + rest.value)
    decreases |s|, 0
  {
    var open := Unquoted(t, s[0]);
    QuotedRest(s[1..]);
    if s[0] == '\'' {
      SingleAgrees(open, s[1..]);
      var q := SingleQuoted(s[1..]).value;
      PlainAgrees(open.(current := open.current + q.0, quote := None), false, q.1);
    } else {
      DoubleAgrees(open, s[1..]);
      var q := DoubleQuoted(s[1..]).value;
      PlainAgrees(open.(current := open.current + q.0, quote := None), false, q.1);
    }
  }

  /** A command without shell syntax splits, into the words a shell would have read. */
  lemma PlainCommandsSplitLikeAShell(command: string)
    requires !NeedsShell(command)
    ensures ShellWords(command).Some? && SplitFrom(START, command) == ShellWords(command)
  {
    ScanFindsWhatNeedsShell(command);
    PlainAgrees(START, true, command);
    assert START.args + ShellWords(command).value == ShellWords(command).value;
  }

  // ---------------------------------------------------------------------------------------------
  // Quoting and splitting again

  function Escaped(arg: string): string {
    if arg == "" then ""
    else (if arg[0] in "$`\"\\" then ['\\', arg[0]] else [arg[0]]) + Escaped(arg[1..])
  }

  /** Every argument escaped, in double quotes, with spaces between. */
  function QuotedJoin(args: seq<string>): string
    decreases |args|, 1
  {
    if args == [] then "" else "\"" + (Escaped(args[0]) + "\"" + AfterFirst(args))
  }

  /** What follows the first argument of a join. */
  function AfterFirst(args: seq<string>): string
    requires args != []
    decreases |args|, 0
  {
    if |args| == 1 then "" else " " + QuotedJoin(args[1..])
  }

  lemma {:induction false} EscapedSplits(t: Tokenizer, arg: string, rest: string)
    requires t.quote == Some('"') && t.started
    ensures SplitFrom(t, Escaped(arg) + "\"" + rest) == SplitFrom(t.(current := t.current + arg, quote := None), rest)
    decreases |arg|
  {
    var s := Escaped(arg) + "\"" + rest;
    if arg == "" {
      assert s[1..] == rest && t.current + arg == t.current;
    } else {
      var tail := Escaped(arg[1..]) + "\"" + rest;
      EscapedSplits(Extend(t, arg[0]), arg[1..], rest);
      assert t.current + [arg[0]] + arg[1..] == t.current + arg;
      if arg[0] in "$`\"\\" {
        assert s[2..] == tail && s[0] == '\\' && s[1] == arg[0];
      } else {
        assert s[1..] == tail && s[0] == arg[0];
      }
    }
  }

  lemma {:induction false} EscapedScans(arg: string, rest: string)
    ensures InDouble(Escaped(arg) + "\"" + rest) <==> '\n' in arg || InPlain(false, rest)
    decreases |arg|
  {
    var s := Escaped(arg) + "\"" + rest;
    if arg == "" {
      assert s[1..] == rest;
    } else {
      var tail := Escaped(arg[1..]) + "\"" + rest;
      assert arg == [arg[0]] + arg[1..];
      EscapedScans(arg[1..], rest);
      if arg[0] in "$`\"\\" {
        assert s[2..] == tail && s[0] == '\\' && s[1] == arg[0];
      } else {
        assert s[1..] == tail && s[0] == arg[0];
      }
    }
  }

  ghost predicate NoNewline(args: seq<string>) {
    forall a :: a in args ==> '\n' !in a
  }

  /** One quoted argument becomes the current word. */
  lemma ArgSplits(t: Tokenizer, arg: string, rest: string)
    requires t.quote.None? && !t.started && t.current == ""
    ensures SplitFrom(t, "\"" + (Escaped(arg) + "\"" + rest)) == SplitFrom(t.(current := arg, started := true), rest)
  {
    var s, open := "\"" + (Escaped(arg) + "\"" + rest), t.(quote := Some('"'), started := true);
    assert s[1..] == Escaped(arg) + "\"" + rest && Unquoted(t, s[0]) == open;
    EscapedSplits(open, arg, rest);
    assert open.current + arg == arg;
  }

  lemma {:induction false} JoinSplits(t: Tokenizer, args: seq<string>)
    requires t.quote.None? && !t.started && t.current == ""
    ensures SplitFrom(t, QuotedJoin(args)) == Some(t.args + args)
    decreases |args|
  {
    if args == [] {
      assert t.args + args == t.args;
    } else {
      var done := t.(current := args[0], started := true);
      ArgSplits(t, args[0], AfterFirst(args));
      if |args| > 1 {
        assert AfterFirst(args)[1..] == QuotedJoin(args[1..]);
        JoinSplits(Flush(done), args[1..]);
        assert t.args + [args[0]] + args[1..] == t.args + args;
      } else {
        assert t.args + [args[0]] == t.args + args;
      }
    }
  }

  /** An opening quote hands the scan over, wherever it stands. */
  lemma QuoteOpens(boundary: bool, s: string)
    ensures InPlain(boundary, "\"" + s) == InDouble(s)
  {
    assert ("\"" + s)[0] == '"' && ("\"" + s)[1..] == s;
  }

  lemma ArgScans(boundary: bool, arg: string, rest: string)
    ensures InPlain(boundary, "\"" + (Escaped(arg) + "\"" + rest)) <==> '\n' in arg || InPlain(false, rest)
  {
    QuoteOpens(boundary, Escaped(arg) + "\"" + rest);
    EscapedScans(arg, rest);
  }

  lemma SpaceScans(s: string)
    ensures InPlain(false, " " + s) == InPlain(true, s)
  {
    assert (" " + s)[0] == ' ' && (" " + s)[1..] == s;
  }

  lemma NewlineSplits(args: seq<string>)
    requires args != []
    ensures NoNewline(args) <==> '\n' !in args[0] && NoNewline(args[1..])
  {
    assert forall a :: a in args <==> a == args[0] || a in args[1..];
  }

  lemma {:induction false} JoinScans(boundary: bool, args: seq<string>)
    ensures InPlain(boundary, QuotedJoin(args)) <==> !NoNewline(args)
    decreases |args|
  {
    if args != [] {
      ArgScans(boundary, args[0], AfterFirst(args));
      NewlineSplits(args);
      if |args| > 1 {
        SpaceScans(QuotedJoin(args[1..]));
        JoinScans(true, args[1..]);
      }
    }
  }

  /** Splitting the quoted join of any arguments gives them back; and the join is free of shell syntax,
      so that the shell reads the same words, exactly when no argument holds a newline. */
  lemma QuotedJoinRoundTrips(args: seq<string>)
    ensures SplitFrom(START, QuotedJoin(args)) == Some(args)
    ensures NeedsShell(QuotedJoin(args)) <==> !NoNewline(args)
    ensures NoNewline(args) ==> ShellWords(QuotedJoin(args)) == Some(args)
  {
    JoinSplits(START, args);
    JoinScans(true, args);
    ScanFindsWhatNeedsShell(QuotedJoin(args));
    assert START.args + args == args;
    if NoNewline(args) {
      PlainCommandsSplitLikeAShell(QuotedJoin(args));
    }
  }
}
