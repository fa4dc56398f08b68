/** Whole sessions of the first shell as they are typed: which lines reach `handler`, and
    the children of a session. */
module Sessions {
  import opened Text
  import opened Kernel
  import opened NumberedPipes
  import opened TypedLines
  import Shell

  const BLANKS := {' ', '\t', '\n', '\r'}

  // ---- Substrings ----

  predicate SliceAt(s: string, sub: string, i: int) {
    0 <= i <= |s| - |sub| && s[i..i + |sub|] == sub
  }

  predicate HasSlice(s: string, sub: string) {
    exists i | 0 <= i <= |s| :: SliceAt(s, sub, i)
  }

  lemma {:induction false} ContainsIff(s: string, sub: string)
    requires sub != []
    ensures Contains(s, sub) <==> HasSlice(s, sub)
  {
    if |sub| <= |s| {
      ContainsIff(s[1..], sub);
      assert SliceAt(s, sub, 0) <==> s[..|sub|] == sub;
      forall i | 0 <= i < |s|
        ensures SliceAt(s[1..], sub, i) <==> SliceAt(s, sub, i + 1)
      {
        if i + 1 + |sub| <= |s| { assert s[1..][i..i + |sub|] == s[i + 1..i + 1 + |sub|]; }
      }
      if HasSlice(s, sub) && s[..|sub|] != sub {
        var i :| 0 <= i <= |s| && SliceAt(s, sub, i);
        assert SliceAt(s[1..], sub, i - 1);
      }
    }
  }

  /** A slice without delimiters lies inside one of the words. */
  lemma {:induction false} SliceInWord(seps: seq<string>, words: seq<string>, sub: string, i: nat)
    requires Separates(seps, words, BLANKS) && sub != [] && (forall c | c in sub :: c !in BLANKS)
    requires SliceAt(Weave(seps, words), sub, i)
    ensures exists k | 0 <= k < |words| :: HasSlice(words[k], sub)
    decreases |words|
  {
    var s, a := Weave(seps, words), seps[0];
    forall k | i <= k < i + |sub|
      ensures s[k] !in BLANKS
    {
      assert s[i..i + |sub|][k - i] == sub[k - i] && sub[k - i] in sub;
    }
    assert forall j | 0 <= j < |a| :: s[j] == a[j] && a[j] in a;
    assert s[i] !in BLANKS && i >= |a|;
    if words == [] {
      assert false;
    } else {
      var w, rest, at := words[0], Weave(seps[1..], words[1..]), |a| + |words[0]|;
      assert s == a + w + rest;
      SeparatesTail(seps, words, BLANKS);
      WeaveStart(seps[1..], words[1..], BLANKS);
      assert rest != [] ==> s[at] == rest[0];
      if i < at {
        assert i + |sub| <= at;
        assert w[i - |a|..i - |a| + |sub|] == s[i..i + |sub|];
        assert SliceAt(w, sub, i - |a|);
        assert HasSlice(words[0], sub);
      } else {
        assert rest[i - at..i - at + |sub|] == s[i..i + |sub|];
        SliceInWord(seps[1..], words[1..], sub, i - at);
        var k :| 0 <= k < |words[1..]| && HasSlice(words[1..][k], sub);
        assert words[k + 1] == words[1..][k];
      }
    }
  }

  // ---- Which lines reach `handler` ----

  /** `printenv` or `setenv` stands somewhere in the text. */
  predicate Environment(s: string) {
    HasSlice(s, "printenv") || HasSlice(s, "setenv")
  }

  /** What one line adds: nothing when it is empty or has one of the two words anywhere in
      it, and everything that `handler` reads otherwise; `exit` ends the session. */
  lemma {:induction false} DroppedExactly(line: string, rest: seq<string>)
    ensures Shell.SessionCommands([]) == []
    ensures Shell.SessionCommands([line] + rest) ==
            if line == "exit" then []
            else (if line == "" || Environment(line) then [] else Shell.ParseLine(Tokenize(line, BLANKS))) + Shell.SessionCommands(rest)
  {
    hide HasSlice, Contains, Tokenize, Shell.ParseLine;
    assert BLANKS == Shell.SPACE;
    ContainsIff(line, "printenv");
    ContainsIff(line, "setenv");
    assert ([line] + rest)[1..] == rest;
  }

  /** Lines add up until the first `exit`, and nothing behind it counts. */
  lemma {:induction false} ExitCuts(front: seq<string>, rest: seq<string>)
    ensures "exit" !in front ==> Shell.SessionCommands(front + rest) == Shell.SessionCommands(front) + Shell.SessionCommands(rest)
    ensures Shell.SessionCommands(front + ["exit"] + rest) == Shell.SessionCommands(front)
    decreases |front|
  {
    hide Shell.LineCommands, Shell.SessionCommands;
    if front == [] {
      SessionStep("exit", rest);
      assert front + rest == rest && front + ["exit"] + rest == ["exit"] + rest;
      assert [] + Shell.SessionCommands(rest) == Shell.SessionCommands(rest);
    } else {
      ExitCuts(front[1..], rest);
      SessionStep(front[0], front[1..]);
      SessionStep(front[0], front[1..] + rest);
      SessionStep(front[0], front[1..] + ["exit"] + rest);
      assert [front[0]] + front[1..] == front && [front[0]] + (front[1..] + rest) == front + rest;
      assert [front[0]] + (front[1..] + ["exit"] + rest) == front + ["exit"] + rest;
    }
  }

  lemma {:induction false} SessionStep(line: string, rest: seq<string>)
    ensures Shell.SessionCommands([]) == []
    ensures Shell.SessionCommands([line] + rest) ==
            if line == "exit" then [] else Shell.LineCommands(line) + Shell.SessionCommands(rest)
  {
    hide Shell.LineCommands;
    assert ([line] + rest)[1..] == rest;
  }

  // ---- Typed sessions ----

  /** A line of commands in any spacing, or a line that is dropped. */
  datatype Input = Said(seps: seq<string>, line: seq<Phrase>) | Dropped(text: string)

  predicate Sayable(x: Input) {
    match x
    case Said(seps, line) =>
      && ShellLine(line) && Separates(seps, PrintLine(line), BLANKS)
      && (forall w | w in PrintLine(line) :: !Environment(w))
      && Weave(seps, PrintLine(line)) != "exit"
    case Dropped(text) => text == "" || Environment(text)
  }

  function TextOf(x: Input): string
    requires Sayable(x)
  {
    match x
    case Said(seps, line) => Weave(seps, PrintLine(line))
    case Dropped(text) => text
  }

  function Texts(xs: seq<Input>): (r: seq<string>)
    requires forall i | 0 <= i < |xs| :: Sayable(xs[i])
    ensures |r| == |xs| && forall i | 0 <= i < |r| :: r[i] == TextOf(xs[i])
  {
    if xs == [] then [] else [TextOf(xs[0])] + Texts(xs[1..])
  }

  /** The commands that were said. */
  function Commands(xs: seq<Input>): seq<Command>
    requires forall i | 0 <= i < |xs| :: Sayable(xs[i])
  {
    if xs == [] then []
    else
      assert Sayable(xs[0]);
      (if xs[0].Said? then ShellCommands(xs[0].line) else []) + Commands(xs[1..])
  }

  lemma {:induction false} SaidIsClean(seps: seq<string>, words: seq<string>, sub: string)
    requires Separates(seps, words, BLANKS) && sub != [] && (forall c | c in sub :: c !in BLANKS)
    requires forall w | w in words :: !HasSlice(w, sub)
    ensures !HasSlice(Weave(seps, words), sub)
  {
    if i :| 0 <= i <= |Weave(seps, words)| && SliceAt(Weave(seps, words), sub, i) {
      SliceInWord(seps, words, sub, i);
      var k :| 0 <= k < |words| && HasSlice(words[k], sub);
      assert words[k] in words;
    }
  }

  lemma {:induction false} LineIs(text: string)
    ensures Shell.LineCommands(text) ==
            if text == "" || Environment(text) then [] else Shell.ParseLine(Tokenize(text, BLANKS))
    ensures text == "" ==> Shell.ParseLine(Tokenize(text, BLANKS)) == []
  {
    hide HasSlice, Contains, Tokenize, Shell.ParseLine;
    assert BLANKS == Shell.SPACE;
    ContainsIff(text, "printenv");
    ContainsIff(text, "setenv");
    NothingRead();
  }

  lemma {:induction false} SaidIsHandled(x: Input)
    requires Sayable(x)
    ensures TextOf(x) != "exit"
    ensures Shell.LineCommands(TextOf(x)) == if x.Said? then ShellCommands(x.line) else []
  {
    hide HasSlice, Tokenize, Shell.ParseLine, Shell.LineCommands, Weave, ShellLine, PrintLine, ShellCommands, Separates;
    LineIs(TextOf(x));
    match x
    case Said(seps, line) =>
      var words := PrintLine(line);
      TokenizeWeave(seps, words, BLANKS);
      ShellReads(line);
      SaidIsClean(seps, words, "printenv");
      SaidIsClean(seps, words, "setenv");
    case Dropped(text) =>
      if text == "exit" { ShortText(text); }
  }

  lemma {:induction false} NothingRead()
    ensures Tokenize("", BLANKS) == [] && Shell.ParseLine([]) == []
  {
  }

  lemma {:induction false} ShortText(s: string)
    requires |s| == 4
    ensures !Environment(s)
  {
  }

  /** The commands of a typed session are those of its lines in order, whatever blanks stand
      between the words; lines that are empty or have one of the two words in them add
      nothing, nor does anything behind `exit`. */
  lemma {:induction false} SessionReads(xs: seq<Input>, rest: seq<string>)
    requires forall i | 0 <= i < |xs| :: Sayable(xs[i])
    ensures Shell.SessionCommands(Texts(xs)) == Commands(xs)
    ensures Shell.SessionCommands(Texts(xs) + ["exit"] + rest) == Commands(xs)
    decreases |xs|
  {
    hide Shell.LineCommands, Shell.SessionCommands, Sayable, ShellCommands, TextOf;
    ExitCuts(Texts(xs), rest);
    if xs == [] {
      SessionStep("", []);
    } else {
      assert Sayable(xs[0]);
      assert forall i | 0 <= i < |xs[1..]| :: xs[1..][i] == xs[i + 1];
      SaidIsHandled(xs[0]);
      SessionReads(xs[1..], rest);
      SessionStep(TextOf(xs[0]), Texts(xs[1..]));
      assert Texts(xs) == [TextOf(xs[0])] + Texts(xs[1..]);
    }
  }

  // ---- The children of a session ----

  /** `isWait`: the command has no operator at all, or redirects to a file. */
  predicate Awaited(c: Command) {
    c.ops == [] || exists op | op in c.ops :: op.Out? || op.Err?
  }

  lemma {:induction false} ApplyWaits(pick: Allocator, s: State, w: Wiring, ops: seq<Op>)
    requires Fits(s, ops)
    ensures Apply(pick, s, w, ops).0.proc.children == s.proc.children
    ensures Apply(pick, s, w, ops).1.isWait <==> (w.isWait || exists op | op in ops :: op.Out? || op.Err?)
    decreases |ops|
  {
    if ops != [] {
      assert OpFits(s, ops[0]);
      var s1 := Reserve(pick, s, ops[0]);
      assert forall i | 0 <= i < |ops[1..]| :: ops[1..][i] == ops[i + 1];
      ApplyWaits(pick, s1, Wire(s1, w, ops[0]), ops[1..]);
      assert ops == [ops[0]] + ops[1..];
      assert forall op :: op in ops <==> (op == ops[0] || op in ops[1..]);
    }
  }

  lemma {:induction false} StepChild(pick: Allocator, s: State, c: Command)
    requires Fits(s, c.ops)
    ensures var p, n := Step(pick, s, c).proc, |s.proc.children|;
      |p.children| == n + 1 && p.children[..n] == s.proc.children && p.children[n].argv == c.argv &&
      (p.children[n].waited <==> Awaited(c))
  {
    hide Apply;
    var b := Begin(s);
    assert forall i | 0 <= i < |c.ops| :: OpFits(s, c.ops[i]) ==> OpFits(b, c.ops[i]);
    ApplyWaits(pick, b, FirstWiring(s, c.ops), c.ops);
  }

  lemma {:induction false} RunChildren(pick: Allocator, s: State, cmds: seq<Command>)
    requires StreamFits(s, cmds)
    ensures var p, n := Run(pick, s, cmds).proc, |s.proc.children|;
      && |p.children| == n + |cmds| && p.children[..n] == s.proc.children
      && forall k | 0 <= k < |cmds| :: p.children[n + k].argv == cmds[k].argv && (p.children[n + k].waited <==> Awaited(cmds[k]))
    decreases |cmds|
  {
    hide Step, Awaited, StreamFits;
    if cmds != [] {
      StreamFitsTail(pick, s, cmds);
      StepChild(pick, s, cmds[0]);
      var t, n := Step(pick, s, cmds[0]), |s.proc.children|;
      RunChildren(pick, t, cmds[1..]);
      var p := Run(pick, t, cmds[1..]).proc;
      assert p.children[n] == p.children[..n + 1][n];
      assert p.children[..n] == p.children[..n + 1][..n];
      forall k: nat | k < |cmds|
        ensures p.children[n + k].argv == cmds[k].argv && (p.children[n + k].waited <==> Awaited(cmds[k]))
      {
        if k > 0 { assert p.children[n + 1 + (k - 1)].argv == cmds[1..][k - 1].argv && cmds[1..][k - 1] == cmds[k]; }
      }
    }
  }

  /** A session forks one child for every command that was said, in order, with exactly its
      words, and waits for it exactly when it has no operator or writes to a file. */
  lemma {:induction false} SessionChildren(pick: Allocator, xs: seq<Input>, rest: seq<string>)
    requires (forall i | 0 <= i < |xs| :: Sayable(xs[i])) && StreamFits(Init(), Commands(xs))
    ensures StreamFits(Init(), Shell.SessionCommands(Texts(xs) + ["exit"] + rest))
    ensures var cmds := Commands(xs); var p := Run(pick, Init(), Shell.SessionCommands(Texts(xs) + ["exit"] + rest)).proc;
      && |p.children| == |cmds|
      && forall k | 0 <= k < |cmds| :: p.children[k].argv == cmds[k].argv && (p.children[k].waited <==> Awaited(cmds[k]))
  {
    hide Run, StreamFits, Shell.SessionCommands, Awaited;
    SessionReads(xs, rest);
    RunChildren(pick, Init(), Commands(xs));
  }
}
