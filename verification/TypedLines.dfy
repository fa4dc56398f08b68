/** Lines with every operator of the two `handler`s: how they are typed, and the commands
    that each parser reads back. */
module TypedLines {
  import opened Text
  import opened Kernel
  import opened NumberedPipes
  import opened SingleHandler
  import Shell
  import SingleShell

  /** An operator as it is typed; without a number `|` and `!` reach the next command. */
  datatype Mark =
    | OnTo(n: Option<nat>)     // `|` or `|N`
    | Both(n: Option<nat>)     // `!` or `!N`
    | Into(file: string)       // `> f`
    | ErrInto(file: string)    // `>& f`
    | Give(peer: nat)          // `>n`
    | Take(peer: nat)          // `<n`

  datatype Phrase = Phrase(argv: seq<string>, marks: seq<Mark>)

  function Numbered(c: char, n: Option<nat>): string {
    match n
    case None => [c]
    case Some(k) => [c] + Decimal(k)
  }

  function PrintMark(m: Mark): seq<string> {
    match m
    case OnTo(n) => [Numbered('|', n)]
    case Both(n) => [Numbered('!', n)]
    case Into(f) => [">", f]
    case ErrInto(f) => [">&", f]
    case Give(n) => [Numbered('>', Some(n))]
    case Take(n) => [Numbered('<', Some(n))]
  }

  function PrintMarks(marks: seq<Mark>): seq<string> {
    if marks == [] then [] else PrintMark(marks[0]) + PrintMarks(marks[1..])
  }

  function PrintLine(line: seq<Phrase>): seq<string> {
    if line == [] then [] else line[0].argv + (PrintMarks(line[0].marks) + PrintLine(line[1..]))
  }

  predicate Words(argv: seq<string>, symbols: set<char>) {
    forall i | 0 <= i < |argv| :: argv[i] != [] && argv[i][0] !in symbols
  }

  /** Words do not begin like an operator, every phrase but the last has an operator and every
      phrase but the first has words. */
  predicate Typeable(line: seq<Phrase>, symbols: set<char>) {
    && (forall i | 0 <= i < |line| :: Words(line[i].argv, symbols) && (line[i].argv != [] || line[i].marks != []))
    && (forall i | 0 <= i < |line| - 1 :: line[i].marks != [])
    && forall i | 0 < i < |line| :: line[i].argv != []
  }

  function Distance(n: Option<nat>): nat {
    match n
    case None => 1
    case Some(k) => k
  }

  lemma {:induction false} NumberedIs(c: char, n: Option<nat>)
    ensures var tok := Numbered(c, n);
      && tok != [] && tok[0] == c && (|tok| == 1 <==> n.None?)
      && (n.Some? ==> tok[1..] == Decimal(n.value) && Scan(tok[1..]) == Some(n.value) && IsDigit(tok[1]))
  {
    if n.Some? {
      ScanDecimal(n.value);
      assert Numbered(c, n)[1..] == Decimal(n.value);
      assert IsDigit(Decimal(n.value)[0]);
    }
  }

  lemma {:induction false} TypeableTail(line: seq<Phrase>, symbols: set<char>)
    requires Typeable(line, symbols) && line != []
    ensures Typeable(line[1..], symbols)
  {
    assert forall i | 0 <= i < |line[1..]| :: line[1..][i] == line[i + 1];
  }

  /** What stands behind the operators of a phrase begins with a word. */
  lemma {:induction false} RestIsWord(line: seq<Phrase>, symbols: set<char>)
    requires Typeable(line, symbols) && |line| > 1
    ensures PrintLine(line[1..]) != [] && PrintLine(line[1..])[0] != [] && PrintLine(line[1..])[0][0] !in symbols
  {
    assert line[1..][0] == line[1];
    assert PrintLine(line[1..])[0] == line[1].argv[0];
  }

  // ---- The first shell ----

  const SHELL_SYMBOLS := {'|', '!', '>'}

  predicate ShellMark(m: Mark) {
    !m.Give? && !m.Take?
  }

  predicate ShellLine(line: seq<Phrase>) {
    Typeable(line, SHELL_SYMBOLS) && forall i | 0 <= i < |line| :: forall m | m in line[i].marks :: ShellMark(m)
  }

  function ShellOp(m: Mark): Op
    requires ShellMark(m)
  {
    match m
    case OnTo(n) => Bar(Distance(n))
    case Both(n) => Bang(Distance(n))
    case Into(f) => Out(f)
    case ErrInto(f) => Err(f)
  }

  function ShellOps(marks: seq<Mark>): (r: seq<Op>)
    requires forall m | m in marks :: ShellMark(m)
    ensures |r| == |marks| && forall i | 0 <= i < |r| :: r[i] == ShellOp(marks[i])
  {
    if marks == [] then [] else [ShellOp(marks[0])] + ShellOps(marks[1..])
  }

  function ShellCommands(line: seq<Phrase>): (r: seq<Command>)
    requires forall i | 0 <= i < |line| :: forall m | m in line[i].marks :: ShellMark(m)
    ensures |r| == |line| && forall i | 0 <= i < |r| :: r[i] == Command(line[i].argv, ShellOps(line[i].marks))
  {
    if line == [] then [] else [Command(line[0].argv, ShellOps(line[0].marks))] + ShellCommands(line[1..])
  }

  lemma {:induction false} ShellReadsMark(m: Mark, rest: seq<string>)
    requires ShellMark(m)
    ensures PrintMark(m) != []
    ensures var tokens := PrintMark(m) + rest;
      Shell.IsOp(tokens[0]) && Shell.ReadOp(tokens) == ShellOp(m) && Shell.AfterOp(tokens) == rest
  {
    var tokens := PrintMark(m) + rest;
    if m.OnTo? || m.Both? {
      NumberedIs(if m.OnTo? then '|' else '!', m.n);
      assert tokens[1..] == rest;
    } else {
      assert tokens[2..] == rest;
    }
  }

  lemma {:induction false} ShellReadsMarks(marks: seq<Mark>, rest: seq<string>)
    requires (forall m | m in marks :: ShellMark(m)) && (rest != [] ==> !Shell.IsOp(rest[0]))
    ensures Shell.ParseOps(PrintMarks(marks) + rest) == ShellOps(marks)
    ensures Shell.AfterOps(PrintMarks(marks) + rest) == rest
    ensures marks != [] ==> PrintMarks(marks) != [] && Shell.IsOp(PrintMarks(marks)[0])
    decreases |marks|
  {
    hide Shell.ReadOp, Shell.AfterOp, Shell.IsOp, PrintMark, ShellOp;
    if marks == [] {
      assert PrintMarks(marks) + rest == rest;
    } else {
      var more := PrintMarks(marks[1..]) + rest;
      assert marks[0] in marks && forall m | m in marks[1..] :: m in marks;
      ShellReadsMark(marks[0], more);
      ShellReadsMark(marks[0], PrintMarks(marks[1..]));
      ShellReadsMarks(marks[1..], rest);
      assert PrintMarks(marks) + rest == PrintMark(marks[0]) + more;
    }
  }

  lemma {:induction false} ShellArgRun(argv: seq<string>, rest: seq<string>)
    requires Words(argv, SHELL_SYMBOLS) && (rest != [] ==> Shell.IsOp(rest[0]))
    ensures Shell.ArgRun(argv + rest) == |argv|
  {
    if argv == [] {
      assert argv + rest == rest;
    } else {
      assert (argv + rest)[1..] == argv[1..] + rest;
      assert forall i | 0 <= i < |argv[1..]| :: argv[1..][i] == argv[i + 1];
      ShellArgRun(argv[1..], rest);
    }
  }

  /** `handler` of the first shell reads every typed line back as its commands: `|N` and `!N`
      with their distances, `> f` for the output and `>& f` for the errors. */
  lemma {:induction false} ShellReads(line: seq<Phrase>)
    requires ShellLine(line)
    ensures Shell.ParseLine(PrintLine(line)) == ShellCommands(line)
    decreases |line|
  {
    hide Shell.ParseOps, Shell.AfterOps, ShellOps, PrintMarks;
    if line != [] {
      var c, rest := line[0], PrintLine(line[1..]);
      var marks := PrintMarks(c.marks) + rest;
      TypeableTail(line, SHELL_SYMBOLS);
      if |line| > 1 { RestIsWord(line, SHELL_SYMBOLS); } else { assert line[1..] == []; }
      assert forall m | m in c.marks :: ShellMark(m);
      ShellReadsMarks(c.marks, rest);
      assert c.marks == [] ==> PrintMarks(c.marks) == [] by { NoMarks(); }
      ShellArgRun(c.argv, marks);
      var tokens := c.argv + marks;
      assert tokens[..|c.argv|] == c.argv && tokens[|c.argv|..] == marks;
      assert forall i | 0 <= i < |line[1..]| :: line[1..][i] == line[i + 1];
      ShellReads(line[1..]);
    }
  }

  lemma {:induction false} NoMarks()
    ensures PrintMarks([]) == []
  {
  }

  // ---- The single-process server ----

  const SINGLE_SYMBOLS := {'|', '!', '>', '<'}

  predicate SingleLine(line: seq<Phrase>) {
    Typeable(line, SINGLE_SYMBOLS)
  }

  /** `> f` and `>& f` are the same here: the test for `>&` looks at the file name. */
  function SingleOp(m: Mark): TubeOp {
    match m
    case OnTo(n) => Num(Bar(Distance(n)))
    case Both(n) => Num(Bang(Distance(n)))
    case Into(f) => Num(if f == ">&" then Err(f) else Out(f))
    case ErrInto(f) => Num(if f == ">&" then Err(f) else Out(f))
    case Give(n) => SendTo(n)
    case Take(n) => ReceiveFrom(n)
  }

  function SingleOps(marks: seq<Mark>): (r: seq<TubeOp>)
    ensures |r| == |marks| && forall i | 0 <= i < |r| :: r[i] == SingleOp(marks[i])
  {
    if marks == [] then [] else [SingleOp(marks[0])] + SingleOps(marks[1..])
  }

  function SingleCommands(line: seq<Phrase>): (r: seq<TubeCommand>)
    ensures |r| == |line| && forall i | 0 <= i < |r| :: r[i] == TubeCommand(line[i].argv, SingleOps(line[i].marks))
  {
    if line == [] then [] else [TubeCommand(line[0].argv, SingleOps(line[0].marks))] + SingleCommands(line[1..])
  }

  lemma {:induction false} SingleReadsMark(m: Mark, rest: seq<string>)
    ensures PrintMark(m) != []
    ensures var tokens := PrintMark(m) + rest;
      SingleShell.IsOp(tokens[0]) && SingleShell.ReadOp(tokens) == SingleOp(m) && SingleShell.AfterOp(tokens) == rest
  {
    var tokens := PrintMark(m) + rest;
    match m
    case OnTo(n) => NumberedIs('|', n); assert tokens[1..] == rest;
    case Both(n) => NumberedIs('!', n); assert tokens[1..] == rest;
    case Give(n) => NumberedIs('>', Some(n)); assert tokens[1..] == rest;
    case Take(n) => NumberedIs('<', Some(n)); assert tokens[1..] == rest;
    case Into(f) => assert tokens[2..] == rest;
    case ErrInto(f) => assert tokens[2..] == rest;
  }

  lemma {:induction false} SingleReadsMarks(marks: seq<Mark>, rest: seq<string>)
    requires rest != [] ==> !SingleShell.IsOp(rest[0])
    ensures SingleShell.ParseOps(PrintMarks(marks) + rest) == SingleOps(marks)
    ensures SingleShell.AfterOps(PrintMarks(marks) + rest) == rest
    ensures marks != [] ==> PrintMarks(marks) != [] && SingleShell.IsOp(PrintMarks(marks)[0])
    decreases |marks|
  {
    hide SingleShell.ReadOp, SingleShell.AfterOp, SingleShell.IsOp, PrintMark, SingleOp;
    if marks == [] {
      assert PrintMarks(marks) + rest == rest;
    } else {
      var more := PrintMarks(marks[1..]) + rest;
      SingleReadsMark(marks[0], more);
      SingleReadsMark(marks[0], PrintMarks(marks[1..]));
      SingleReadsMarks(marks[1..], rest);
      assert PrintMarks(marks) + rest == PrintMark(marks[0]) + more;
    }
  }

  lemma {:induction false} SingleArgRun(argv: seq<string>, rest: seq<string>)
    requires Words(argv, SINGLE_SYMBOLS) && (rest != [] ==> SingleShell.IsOp(rest[0]))
    ensures SingleShell.ArgRun(argv + rest) == |argv|
  {
    if argv == [] {
      assert argv + rest == rest;
    } else {
      assert (argv + rest)[1..] == argv[1..] + rest;
      assert forall i | 0 <= i < |argv[1..]| :: argv[1..][i] == argv[i + 1];
      SingleArgRun(argv[1..], rest);
    }
  }

  /** `handler` of the single-process server reads every typed line back: `|N`, `!N`, `>n` and
      `<n` with their numbers, and both `> f` and `>& f` as a redirection of the output. So
      `>& f` redirects the errors exactly when the file is itself called `>&`. */
  lemma {:induction false} SingleReads(line: seq<Phrase>)
    requires SingleLine(line)
    ensures SingleShell.ParseLine(PrintLine(line)) == SingleCommands(line)
    decreases |line|
  {
    hide SingleShell.ParseOps, SingleShell.AfterOps, SingleOps, PrintMarks;
    if line != [] {
      var c, rest := line[0], PrintLine(line[1..]);
      var marks := PrintMarks(c.marks) + rest;
      TypeableTail(line, SINGLE_SYMBOLS);
      if |line| > 1 { RestIsWord(line, SINGLE_SYMBOLS); } else { assert line[1..] == []; }
      SingleReadsMarks(c.marks, rest);
      assert c.marks == [] ==> PrintMarks(c.marks) == [] by { NoMarks(); }
      SingleArgRun(c.argv, marks);
      var tokens := c.argv + marks;
      assert tokens[..|c.argv|] == c.argv && tokens[|c.argv|..] == marks;
      assert forall i | 0 <= i < |line[1..]| :: line[1..][i] == line[i + 1];
      SingleReads(line[1..]);
    }
  }
}
