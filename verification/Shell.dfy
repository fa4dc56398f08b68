/** The shell process: `launch`, `switch_command` and `handler` with the global
    `pipe_table` and `count` (NP_Project1/src/shell.c). */
module Shell {
  import opened Text
  import opened Kernel
  import opened NumberedPipes
  import opened PipeInvariant
  import opened PipeTheorems

  const SPACE := {' ', '\n', '\t', '\r'}

  predicate IsOp(tok: string) {
    tok != [] && tok[0] in {'|', '!', '>'}
  }

  /** The distance in `|N` or `!N`; 1 when the operator stands alone. */
  function JumpOf(tok: string): int
    requires IsOp(tok)
  {
    if |tok| == 1 then 1 else Atoi(tok[1..])
  }

  /** `sscanf` finds a number in every `|N` and `!N`: otherwise the source uses an unset variable. */
  predicate Legible(tokens: seq<string>) {
    forall i | 0 <= i < |tokens| ::
      IsOp(tokens[i]) && tokens[i][0] != '>' && |tokens[i]| > 1 ==> Scan(tokens[i][1..]).Some?
  }

  function FileName(tokens: seq<string>): string {
    if |tokens| > 1 then tokens[1] else ""
  }

  function ReadOp(tokens: seq<string>): Op
    requires tokens != [] && IsOp(tokens[0])
  {
    if tokens[0][0] == '|' then Bar(JumpOf(tokens[0]))
    else if tokens[0][0] == '!' then Bang(JumpOf(tokens[0]))
    else if tokens[0] == ">&" then Err(FileName(tokens))
    else Out(FileName(tokens))
  }

  /** The tokens after one operator; a redirection also takes its file name. */
  function AfterOp(tokens: seq<string>): (rest: seq<string>)
    requires tokens != [] && IsOp(tokens[0])
    ensures |rest| < |tokens|
  {
    if tokens[0][0] == '>' && |tokens| > 1 then tokens[2..] else tokens[1..]
  }

  function ParseOps(tokens: seq<string>): seq<Op>
    decreases |tokens|
  {
    if tokens != [] && IsOp(tokens[0]) then [ReadOp(tokens)] + ParseOps(AfterOp(tokens)) else []
  }

  function AfterOps(tokens: seq<string>): (rest: seq<string>)
    ensures |rest| <= |tokens|
    ensures tokens != [] && IsOp(tokens[0]) ==> |rest| < |tokens|
    decreases |tokens|
  {
    if tokens != [] && IsOp(tokens[0]) then AfterOps(AfterOp(tokens)) else tokens
  }

  function ArgRun(tokens: seq<string>): (n: nat)
    ensures n <= |tokens| && (n < |tokens| ==> IsOp(tokens[n]))
    ensures forall i | 0 <= i < n :: !IsOp(tokens[i])
  {
    if tokens != [] && !IsOp(tokens[0]) then 1 + ArgRun(tokens[1..]) else 0
  }

  function ParseLine(tokens: seq<string>): seq<Command>
    decreases |tokens|
  {
    if tokens == [] then []
    else
      var n := ArgRun(tokens);
      [Command(tokens[..n], ParseOps(tokens[n..]))] + ParseLine(AfterOps(tokens[n..]))
  }

  /** Lines that `switch_command` or `launch` handle without touching the pipe table. */
  predicate Skipped(line: string) {
    line == "" || Contains(line, "printenv") || Contains(line, "setenv")
  }

  /** All commands of a session, up to `exit`. */
  function SessionCommands(lines: seq<string>): seq<Command> {
    if lines == [] || lines[0] == "exit" then []
    else LineCommands(lines[0]) + SessionCommands(lines[1..])
  }

  function LineCommands(line: string): seq<Command> {
    if Skipped(line) then [] else ParseLine(Tokenize(line, SPACE))
  }

  class Shell {
    const pick: Allocator
    const table: array<Slot>
    var count: nat
    var proc: Proc

    constructor (pick: Allocator)
      ensures View() == Init() && this.pick == pick && fresh(table)
    {
      this.pick := pick;
      table := new Slot[PIPE_NUMBER](_ => EMPTY);
      count, proc := 0, NEW_PROC;
      new;
      assert table[..] == Init().table;
    }

    function View(): State
      reads this, table
    {
      State(table[..], count, proc)
    }

    /** `pipe(pipe_table[k])` */
    method OpenPipeAt(k: nat)
      requires k < table.Length
      modifies this`proc, table
      ensures View() == OpenSlot(pick, old(View()), k)
    {
      var (p, r, w) := OpenPipe(pick, proc, k);
      proc, table[k] := p, Slot(r, w);
    }

    /** One pass of the operator loop: token `tok` with the tokens `rest` after it. */
    method ApplyOp(w: Wiring, tokens: seq<string>) returns (v: Wiring)
      requires tokens != [] && IsOp(tokens[0]) && OpFits(View(), ReadOp(tokens))
      modifies this`proc, table
      ensures View() == Reserve(pick, old(View()), ReadOp(tokens))
      ensures v == Wire(View(), w, ReadOp(tokens))
    {
      var tok := tokens[0];
      v := w;
      if tok[0] == '>' {
        v := v.(isWait := true);
        var file := if |tokens| > 1 then tokens[1] else "";
        if tok == ">&" { v := v.(stderr := ToFile(file)); } else { v := v.(stdout := ToFile(file)); }
      } else {
        var to := if |tok| == 1 then 1 else Atoi(tok[1..]);
        if table[count + to].write == 0 { OpenPipeAt(count + to); }
        v := v.(stdout := Fd(table[count + to].write));
        if tok[0] == '!' { v := v.(stderr := v.stdout); }
      }
    }

    /** The operator loop after the arguments of a command. */
    method ApplyOps(w: Wiring, tokens: seq<string>) returns (v: Wiring, rest: seq<string>)
      requires Fits(View(), ParseOps(tokens))
      modifies this`proc, table
      ensures (View(), v) == Apply(pick, old(View()), w, ParseOps(tokens))
      ensures rest == AfterOps(tokens)
    {
      v, rest := w, tokens;
      while rest != [] && IsOp(rest[0])
        invariant Fits(View(), ParseOps(rest))
        invariant Apply(pick, View(), v, ParseOps(rest)) == Apply(pick, old(View()), w, ParseOps(tokens))
        invariant AfterOps(rest) == AfterOps(tokens)
        decreases |rest|
      {
        var ops := ParseOps(rest);
        assert OpFits(View(), ops[0]) && ops[1..] == ParseOps(AfterOp(rest));
        assert forall i | 0 <= i < |ops[1..]| :: ops[1..][i] == ops[i + 1];
        v := ApplyOp(v, rest);
        rest := if rest[0][0] == '>' && |rest| > 1 then rest[2..] else rest[1..];
      }
    }

    /** Wire and fork the command at the head of `tokens`. */
    method RunCommand(tokens: seq<string>) returns (rest: seq<string>)
      requires tokens != [] && Fits(View(), ParseLine(tokens)[0].ops)
      modifies this, table
      ensures View() == Step(pick, old(View()), ParseLine(tokens)[0])
      ensures rest == AfterOps(tokens[ArgRun(tokens)..])
    {
      var w := Wiring(0, Terminal, Terminal, false);
      if table[count].read != 0 {
        w := w.(stdin := table[count].read);
        proc := CloseFd(proc, table[count].write);
        table[count] := table[count].(write := 0);
      }
      assert View() == Begin(old(View()));
      var argv: seq<string> := [];
      rest := tokens;
      while rest != [] && !IsOp(rest[0])
        invariant |argv| <= ArgRun(tokens)
        invariant argv == tokens[..|argv|] && rest == tokens[|argv|..]
        decreases |rest|
      {
        argv, rest := argv + [rest[0]], rest[1..];
      }
      assert |argv| == ArgRun(tokens);
      if rest == [] { w := w.(isWait := true); }
      assert Fits(View(), ParseOps(rest)) by {
        assert forall i | 0 <= i < |ParseOps(rest)| :: OpFits(old(View()), ParseOps(rest)[i]);
      }
      w, rest := ApplyOps(w, rest);
      ForkChild(w, argv);
    }

    /** `fork`, and what the parent does after it. */
    method ForkChild(w: Wiring, argv: seq<string>)
      requires count < table.Length
      modifies this, table
      ensures View() == Finish(old(View()), w, argv)
    {
      proc := Fork(proc, argv, PortOf(proc, w.stdin), TargetPort(proc, w.stdout), TargetPort(proc, w.stderr), w.isWait);
      if table[count].read != 0 {
        proc := CloseFd(proc, table[count].read);
        table[count] := table[count].(read := 0);
      }
      count := count + 1;
    }

    /** `handler`: all commands of one line. */
    method Handler(tokens: seq<string>)
      requires Legible(tokens) && StreamFits(View(), ParseLine(tokens))
      modifies this, table
      ensures View() == Run(pick, old(View()), ParseLine(tokens))
    {
      var rest := tokens;
      while rest != []
        invariant StreamFits(View(), ParseLine(rest))
        invariant Run(pick, View(), ParseLine(rest)) == Run(pick, old(View()), ParseLine(tokens))
        decreases |rest|
      {
        var cmds := ParseLine(rest);
        StreamFitsTail(pick, View(), cmds);
        assert cmds[1..] == ParseLine(AfterOps(rest[ArgRun(rest)..]));
        rest := RunCommand(rest);
      }
    }

    /** `launch` with `switch_command`: a whole session of input lines. */
    method Session(lines: seq<string>)
      requires forall i | 0 <= i < |lines| :: Legible(Tokenize(lines[i], SPACE))
      requires StreamFits(View(), SessionCommands(lines))
      modifies this, table
      ensures View() == Run(pick, old(View()), SessionCommands(lines))
      ensures old(View()) == Init() && Sound(pick) && AllForward(SessionCommands(lines))
              ==> Inv(View(), SessionCommands(lines))
    {
      assert old(View()) == Init() && Sound(pick) && AllForward(SessionCommands(lines))
             ==> Inv(Run(pick, View(), SessionCommands(lines)), SessionCommands(lines)) by {
        if View() == Init() && Sound(pick) && AllForward(SessionCommands(lines)) {
          InitOk();
          RunOk(pick, Init(), [], SessionCommands(lines));
          assert [] + SessionCommands(lines) == SessionCommands(lines);
        }
      }
      var i := 0;
      while i < |lines| && lines[i] != "exit"
        invariant 0 <= i <= |lines|
        invariant StreamFits(View(), SessionCommands(lines[i..]))
        invariant Run(pick, View(), SessionCommands(lines[i..])) == Run(pick, old(View()), SessionCommands(lines))
      {
        assert lines[i..][1..] == lines[i + 1..];
        RunAppend(pick, View(), LineCommands(lines[i]), SessionCommands(lines[i + 1..]));
        if !Skipped(lines[i]) { Handler(Tokenize(lines[i], SPACE)); }
        i := i + 1;
      }
    }
  }
}
