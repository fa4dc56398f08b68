/** The two numbered-pipe implementations do the same: on lines of commands, `|` and
    `|N`, the cursor of `handler` and the table of `execute_pipeline` open and close the
    same descriptors in the same order and fork the same children with the same streams. */
module TwoShells {
  import opened Kernel
  import opened NumberedPipes
  import opened PipeInvariant
  import opened PipeTheorems
  import opened CommandTable
  import opened PlainLines
  import Shell

  /** An entry of `pipe_table` and the same entry of `pipetable`. */
  ghost predicate Agree(x: Slot, y: Slot) {
    if x == EMPTY then y == UNUSED
    else y == x && x.read > 2 && x.write > 2
  }

  ghost predicate SlotsAgree(a: State, t: Table) {
    |a.table| <= |t.slots| && forall k | a.count <= k < |a.table| :: Agree(a.table[k], t.slots[k])
  }

  /** Jumps are at least 1, as for `handler` to keep its window. */
  predicate ForwardLine(line: Line) {
    forall i | 0 <= i < |line| :: line[i].link != Numbered(0)
  }

  ghost predicate Loaded(t: Table, line: Line, i: nat)
    requires Sized(t)
  {
    forall j | i <= j < |line| ::
      t.pos + j < |t.rows| && t.rows[t.pos + j] == line[j].argv && t.pipeN[t.pos + j] == Distance(line[j].link)
  }

  /** Both machines are about to run command i of the line. */
  ghost predicate Mid(a: State, m: Machine, line: Line, i: nat)
    requires Sized(m.t)
  {
    && a.count == m.t.pos + i && a.proc == m.proc && a.proc.std == STANDARD
    && m.t.flags == NO_FLAGS && SlotsAgree(a, m.t) && Loaded(m.t, line, i)
  }

  // ---- One command ----

  lemma {:induction false} InputAgrees(a: State, m: Machine, line: Line, i: nat)
    requires Sized(m.t) && Mid(a, m, line, i) && a.count < |a.table|
    ensures Begin(a).proc == TakeInput(m, i).proc && Begin(a).proc.std == STANDARD
    ensures a.table[a.count].read == m.t.slots[a.count].read
    ensures a.table[a.count].read == 0 || a.table[a.count].read > 2
    ensures forall k | a.count < k < |a.table| :: Agree(Begin(a).table[k], m.t.slots[k])
    ensures Begin(a).table[a.count] == Slot(a.table[a.count].read, 0)
  {
    assert Agree(a.table[a.count], m.t.slots[a.count]);
  }

  /** With one jump or none, `Apply` is one `Reserve` or nothing. */
  lemma {:induction false} ApplyOne(pick: Allocator, b: State, w: Wiring, link: Link)
    requires var ops := ToCommand(Simple([], link)).ops; Fits(b, ops)
    ensures var ops := ToCommand(Simple([], link)).ops;
      Apply(pick, b, w, ops) ==
      (if link.End? then (b, w)
       else (Reserve(pick, b, ops[0]), Wire(Reserve(pick, b, ops[0]), w, ops[0])))
  {
    if !link.End? {
      var ops := ToCommand(Simple([], link)).ops;
      assert OpFits(b, ops[0]);
      assert ops[1..] == [];
    }
  }

  lemma {:induction false} RowInRange(a: State, m: Machine, line: Line, i: nat)
    requires Sized(m.t) && Mid(a, m, line, i) && i < |line| && Fits(a, ToCommand(line[i]).ops)
    ensures RowFits(m.t, i, |line|)
  {
    assert m.t.pipeN[m.t.pos + i] == Distance(line[i].link);
    if !line[i].link.End? { assert OpFits(a, ToCommand(line[i]).ops[0]); }
  }

  lemma {:induction false} OutputAgrees(pick: Allocator, b: State, m: Machine, line: Line, i: nat, w: Wiring)
    requires Sound(pick) && RowFits(m.t, i, |line|) && i < |line| && line[i].link != Numbered(0)
    requires b.count == m.t.pos + i && b.proc == m.proc && b.proc.std == STANDARD && m.t.flags == NO_FLAGS
    requires |b.table| <= |m.t.slots|
    requires forall k | b.count < k < |b.table| :: Agree(b.table[k], m.t.slots[k])
    requires m.t.pipeN[m.t.pos + i] == Distance(line[i].link)
    requires Fits(b, ToCommand(line[i]).ops) && w.stdout == Terminal
    ensures var (c, v) := Apply(pick, b, w, ToCommand(line[i]).ops);
      var n := MakeOutput(pick, m, i, |line|);
      && RowFits(n.t, i, |line|)
      && c.proc == n.proc && c.proc.std == STANDARD && c.count == b.count && c.table[c.count] == b.table[b.count]
      && v == w.(stdout := Output(n.t, i, |line|))
      && n.t.slots[b.count] == m.t.slots[b.count]
      && (forall k | b.count < k < |b.table| :: Agree(c.table[k], n.t.slots[k]))
  {
    ApplyOne(pick, b, w, line[i].link);
    if !line[i].link.End? {
      var k := b.count + Distance(line[i].link);
      assert OpFits(b, ToCommand(line[i]).ops[0]);
      assert Agree(b.table[k], m.t.slots[k]);
      var (r, s) := pick(|b.proc.pipes|, InUse(b.proc));
      assert r > 2 && s > 2;
    }
  }

  /** Fork and release after the same input and output steps. */
  lemma {:induction false} FinishAgrees(c: State, v: Wiring, m: Machine, line: Line, i: nat)
    requires RowFits(m.t, i, |line|) && i < |line| && c.count == m.t.pos + i < |c.table| && c.proc == m.proc
    requires m.t.flags == NO_FLAGS && m.t.rows[c.count] == line[i].argv
    requires m.t.pipeN[c.count] == Distance(line[i].link)
    requires line[i].link != Numbered(0) && (line[i].link.End? ==> i + 1 == |line|)
    requires c.table[c.count].read == m.t.slots[c.count].read && c.proc.std == STANDARD
    requires c.table[c.count].read == 0 || c.table[c.count].read > 2
    requires v == Wiring(c.table[c.count].read, Output(m.t, i, |line|), Terminal, ToCommand(line[i]).ops == [])
    ensures Finish(c, v, line[i].argv).proc == Release(ForkRow(m, i, |line|), i, |line|).proc
    ensures Finish(c, v, line[i].argv).proc.std == STANDARD
  {
    var n := ForkRow(m, i, |line|);
    assert Spawn(c, v, line[i].argv).proc == n.proc;
    var pipes := n.t.pipeN[..c.count + 1];
    assert pipes[c.count] == m.t.pipeN[c.count];
  }

  lemma {:induction false} FinishSlots(c: State, v: Wiring, argv: seq<string>, m: Machine, i: nat, total: nat)
    requires RowFits(m.t, i, total) && c.count == m.t.pos + i < |c.table| <= |m.t.slots|
    requires forall k | c.count < k < |c.table| :: Agree(c.table[k], m.t.slots[k])
    ensures SlotsAgree(Finish(c, v, argv), Release(ForkRow(m, i, total), i, total).t)
  {
    hide Agree;
  }

  lemma {:induction false} StillLoaded(t: Table, u: Table, line: Line, i: nat)
    requires Sized(t) && Sized(u) && i < |line| && t.pos + i < |t.rows| && Loaded(t, line, i)
    requires u == t.(slots := u.slots, pipeN := t.pipeN[t.pos + i := 0])
    ensures Loaded(u, line, i + 1)
  {
    forall j | i + 1 <= j < |line|
      ensures u.pos + j < |u.rows| && u.rows[u.pos + j] == line[j].argv && u.pipeN[u.pos + j] == Distance(line[j].link)
    {
      assert line[j].argv == line[j].argv;
      assert t.pipeN[t.pos + j] == Distance(line[j].link);
    }
  }

  lemma {:induction false} RowAgrees(pick: Allocator, a: State, m: Machine, line: Line, i: nat)
    requires Sound(pick) && Sized(m.t) && Mid(a, m, line, i) && i < |line|
    requires PlainLine(line) && line[i].link != Numbered(0) && Fits(a, ToCommand(line[i]).ops)
    ensures RowFits(m.t, i, |line|)
    ensures Mid(Step(pick, a, ToCommand(line[i])), ExecRow(pick, m, i, |line|), line, i + 1)
  {
    hide Agree, PlainLine, Apply, Begin, TakeInput, MakeOutput, ForwardLine, Finish, ForkRow, Release;
    var cmd, total := ToCommand(line[i]), |line|;
    RowInRange(a, m, line, i);
    InputAgrees(a, m, line, i);
    var b, m1 := Begin(a), TakeInput(m, i);
    BeginShape(a, m, i);
    assert forall j | 0 <= j < |cmd.ops| :: OpFits(a, cmd.ops[j]) ==> OpFits(b, cmd.ops[j]);
    var w := FirstWiring(a, cmd.ops);
    OutputAgrees(pick, b, m1, line, i, w);
    var (c, v) := Apply(pick, b, w, cmd.ops);
    var m2 := MakeOutput(pick, m1, i, total);
    LinkOfLast(line, i);
    assert m.t.rows[m.t.pos + i] == line[i].argv;
    FinishAgrees(c, v, m2, line, i);
    FinishSlots(c, v, cmd.argv, m2, i, total);
    StillLoaded(m.t, ExecRow(pick, m, i, total).t, line, i);
  }

  lemma {:induction false} BeginShape(a: State, m: Machine, i: nat)
    requires a.count < |a.table| && Sized(m.t) && m.t.pos + i < |m.t.rows|
    ensures Begin(a).count == a.count && |Begin(a).table| == |a.table| && TakeInput(m, i).t == m.t
  {
  }

  lemma {:induction false} LinkOfLast(line: Line, i: nat)
    requires PlainLine(line) && i < |line|
    ensures line[i].link.End? ==> i + 1 == |line|
  {
  }

  // ---- One line ----

  lemma {:induction false} RowInRangeAt(a: State, m: Machine, line: Line, i: nat, k: nat)
    requires Sized(m.t) && Mid(a, m, line, i) && i <= k < |line| && StreamFits(a, ToCommands(line)[i..])
    ensures RowFits(m.t, k, |line|)
  {
    hide PlainLine, Agree;
    var c := ToCommands(line)[i..][k - i];
    assert c == ToCommand(line[k]);
    assert m.t.pipeN[m.t.pos + k] == Distance(line[k].link);
    if !line[k].link.End? {
      assert JumpsFit(|a.table|, a.count + (k - i), c.ops) && HasJump(c.ops[0]);
    }
  }

  /** Every row of a loaded line is in range when its command is in range for `handler`. */
  lemma {:induction false} RowsInRange(a: State, m: Machine, line: Line, i: nat)
    requires Sized(m.t) && Mid(a, m, line, i) && i <= |line| && StreamFits(a, ToCommands(line)[i..])
    ensures RowsFit(m.t, i, |line|)
  {
    hide RowFits;
    forall k: nat | i <= k < |line|
      ensures RowFits(m.t, k, |line|)
    {
      RowInRangeAt(a, m, line, i, k);
    }
  }

  lemma {:induction false} RowsAgree(pick: Allocator, a: State, m: Machine, line: Line, i: nat)
    requires Sound(pick) && Sized(m.t) && Mid(a, m, line, i) && i <= |line|
    requires PlainLine(line) && ForwardLine(line)
    requires StreamFits(a, ToCommands(line)[i..])
    ensures RowsFit(m.t, i, |line|)
    ensures Mid(Run(pick, a, ToCommands(line)[i..]), ExecRows(pick, m, i, |line|), line, |line|)
    decreases |line| - i
  {
    hide ExecRow, Step, RowFits, PlainLine, SlotsAgree;
    RowsInRange(a, m, line, i);
    var cmds := ToCommands(line)[i..];
    if i < |line| {
      StreamFitsTail(pick, a, cmds);
      assert cmds[0] == ToCommand(line[i]);
      assert cmds[1..] == ToCommands(line)[i + 1..];
      RowAgrees(pick, a, m, line, i);
      RowsAgree(pick, Step(pick, a, cmds[0]), ExecRow(pick, m, i, |line|), line, i + 1);
    }
  }

  // ---- Many lines ----

  /** Between lines. */
  ghost predicate Rel(a: State, m: Machine) {
    && Sized(m.t)
    && a.count == m.t.pos && a.proc == m.proc && a.proc.std == STANDARD && SlotsAgree(a, m.t)
    && forall k | m.t.pos <= k < |m.t.pipeN| :: m.t.pipeN[k] == 0
  }

  predicate Runnable(line: Line) {
    PlainLine(line) && line[0].argv[0] !in BUILTINS
  }

  function AllCommands(lines: seq<Line>): seq<Command> {
    if lines == [] then [] else ToCommands(lines[0]) + AllCommands(lines[1..])
  }

  lemma {:induction false} LineInTable(a: State, m: Machine, line: Line)
    requires Rel(a, m) && Runnable(line) && StreamFits(a, ToCommands(line))
    ensures m.t.pos + |line| <= |m.t.rows| && PlainLine(line)
  {
  }

  lemma {:induction false} LoadLine(a: State, m: Machine, line: Line)
    requires Rel(a, m) && Runnable(line) && StreamFits(a, ToCommands(line))
    ensures m.t.pos + RowEnds(Print(line)) < |m.t.rows|
    ensures var t := ParseTokens(m.t, Print(line));
      && t.num == |line| && t.flags == NO_FLAGS
      && Mid(a, m.(t := t), line, 0)
      && (forall k | t.pos + |line| <= k < |t.pipeN| :: t.pipeN[k] == 0)
  {
    hide Store, ParseTokens, ParseFrom, Agree, PlainLine, StreamFits, JumpsFit;
    LineInTable(a, m, line);
    TableReads(m.t, line);
    var reset := ResetFlags(m.t);
    StoredAt(reset, m.t.pos, line, m.t.pos);
    var t := ParseTokens(m.t, Print(line));
    forall k: nat | k < |t.rows|
      ensures if t.pos <= k < t.pos + |line| then
                t.rows[k] == line[k - t.pos].argv && t.pipeN[k] == Distance(line[k - t.pos].link)
              else t.pipeN[k] == m.t.pipeN[k]
    {
      StoredAt(reset, m.t.pos, line, k);
    }
    forall j: nat | j < |line|
      ensures t.rows[t.pos + j] == line[j].argv && t.pipeN[t.pos + j] == Distance(line[j].link)
    {
      var k: nat := t.pos + j;
      assert line[k - t.pos] == line[j];
    }
    assert SlotsAgree(a, t) by { SameSlots(a, m.t, t); }
  }

  lemma {:induction false} SameSlots(a: State, t: Table, u: Table)
    requires SlotsAgree(a, t) && u.slots == t.slots
    ensures SlotsAgree(a, u)
  {
  }

  lemma {:induction false} ExecRowsPipeN(pick: Allocator, m: Machine, i: nat, total: nat, k: nat)
    requires RowsFit(m.t, i, total) && i <= total && m.t.pos + total <= k < |m.t.rows|
    ensures ExecRows(pick, m, i, total).t.pipeN[k] == m.t.pipeN[k]
    decreases total - i
  {
    hide RowFits, TakeInput, MakeOutput, ForkRow, Release;
    if i < total {
      RowsFitTail(pick, m, i, total);
      assert RowFits(m.t, i, total);
      ExecRowsPipeN(pick, ExecRow(pick, m, i, total), i + 1, total, k);
    }
  }

  lemma {:induction false} LineAgrees(pick: Allocator, a: State, m: Machine, line: Line, known: set<int>)
    requires Sound(pick) && Rel(a, m) && Runnable(line) && ForwardLine(line) && StreamFits(a, ToCommands(line))
    ensures LineFits(m, Print(line))
    ensures Rel(Run(pick, a, ToCommands(line)), ExecLine(pick, m, Print(line), known))
  {
    hide ParseTokens, ExecRow, Step, RowFits, Run, StreamFits, ForwardLine, Print;
    LoadLine(a, m, line);
    var t := ParseTokens(m.t, Print(line));
    var n := m.(t := t);
    assert ToCommands(line)[0..] == ToCommands(line);
    RowsAgree(pick, a, n, line, 0);
    assert t.rows[t.pos + 0] == line[0].argv;
    assert Total(t) == |line|;
    var e := ExecRows(pick, n, 0, |line|);
    assert Exec(pick, n, known) == e;
    forall k | t.pos + |line| <= k < |t.rows|
      ensures e.t.pipeN[k] == 0
    {
      ExecRowsPipeN(pick, n, 0, |line|, k);
    }
    SameSlots(Run(pick, a, ToCommands(line)), e.t, e.t.(pos := e.t.pos + e.t.num));
  }

  /** The table machine on a sequence of lines, each with the registry's ids at that time. */
  function ExecLines(pick: Allocator, m: Machine, lines: seq<Line>, known: nat -> set<int>): Machine
    decreases |lines|
  {
    if lines == [] || !LineFits(m, Print(lines[0])) then m
    else ExecLines(pick, ExecLine(pick, m, Print(lines[0]), known(|lines|)), lines[1..], known)
  }

  lemma {:induction false} LinesAgree(pick: Allocator, a: State, m: Machine, lines: seq<Line>, known: nat -> set<int>)
    requires Sound(pick) && Rel(a, m) && (forall i | 0 <= i < |lines| :: Runnable(lines[i]))
    requires (forall i | 0 <= i < |lines| :: ForwardLine(lines[i])) && StreamFits(a, AllCommands(lines))
    ensures Rel(Run(pick, a, AllCommands(lines)), ExecLines(pick, m, lines, known))
    decreases |lines|
  {
    hide Runnable, LineFits, ExecLine, StreamFits, ForwardLine;
    if lines == [] {
      assert AllCommands(lines) == [];
    } else {
      var line := lines[0];
      assert Runnable(line);
      RunAppend(pick, a, ToCommands(line), AllCommands(lines[1..]));
      LineAgrees(pick, a, m, line, known(|lines|));
      assert forall i | 0 <= i < |lines[1..]| :: lines[1..][i] == lines[i + 1];
      LinesAgree(pick, Run(pick, a, ToCommands(line)), ExecLine(pick, m, Print(line), known(|lines|)), lines[1..], known);
    }
  }

  /** The commands that `handler` reads from the printed lines. */
  function HandlerCommands(lines: seq<Line>): seq<Command> {
    if lines == [] then [] else Shell.ParseLine(Print(lines[0])) + HandlerCommands(lines[1..])
  }

  lemma {:induction false} HandlerReadsLines(lines: seq<Line>)
    requires forall i | 0 <= i < |lines| :: Runnable(lines[i])
    ensures HandlerCommands(lines) == AllCommands(lines)
  {
    if lines != [] {
      HandlerReads(lines[0]);
      assert forall i | 0 <= i < |lines[1..]| :: lines[1..][i] == lines[i + 1];
      HandlerReadsLines(lines[1..]);
    }
  }

  lemma {:induction false} InitRel(id: int, cells: set<(int, int)>)
    ensures Rel(Init(), Machine(InitTable(id), NEW_PROC, cells))
  {
    assert forall k | 0 <= k < PIPE_NUMBER :: Init().table[k] == EMPTY && InitTable(id).slots[k] == UNUSED;
  }

  // ---- Where they part: `|0` ----

  lemma {:induction false} RunKeepsChildren(pick: Allocator, s: State, cmds: seq<Command>)
    requires StreamFits(s, cmds)
    ensures s.proc.children <= Run(pick, s, cmds).proc.children
    decreases |cmds|
  {
    hide Apply, Begin;
    if cmds != [] {
      StreamFitsTail(pick, s, cmds);
      StepAddsChild(pick, s, cmds[0]);
      RunKeepsChildren(pick, Step(pick, s, cmds[0]), cmds[1..]);
    }
  }

  lemma {:induction false} ApplyKeepsChildren(pick: Allocator, s: State, w: Wiring, ops: seq<Op>)
    requires Fits(s, ops)
    ensures Apply(pick, s, w, ops).0.proc.children == s.proc.children
    decreases |ops|
  {
    if ops != [] {
      var t := Reserve(pick, s, ops[0]);
      assert forall i | 0 <= i < |ops[1..]| :: ops[1..][i] == ops[i + 1];
      ApplyKeepsChildren(pick, t, Wire(t, w, ops[0]), ops[1..]);
    }
  }

  lemma {:induction false} StepAddsChild(pick: Allocator, s: State, c: Command)
    requires Fits(s, c.ops)
    ensures |Step(pick, s, c).proc.children| == |s.proc.children| + 1
    ensures s.proc.children <= Step(pick, s, c).proc.children
  {
    var b := Begin(s);
    assert forall i | 0 <= i < |c.ops| :: OpFits(s, c.ops[i]) ==> OpFits(b, c.ops[i]);
    ApplyKeepsChildren(pick, b, FirstWiring(s, c.ops), c.ops);
  }

  lemma {:induction false} ExecRowAddsChild(pick: Allocator, m: Machine, i: nat, total: nat)
    requires RowFits(m.t, i, total)
    ensures m.proc.children <= ExecRow(pick, m, i, total).proc.children
  {
  }

  lemma {:induction false} ExecRowsKeepsChildren(pick: Allocator, m: Machine, i: nat, total: nat)
    requires RowsFit(m.t, i, total)
    ensures m.proc.children <= ExecRows(pick, m, i, total).proc.children
    decreases total - i
  {
    hide RowFits, TakeInput, MakeOutput, ForkRow, Release;
    if i < total {
      RowsFitTail(pick, m, i, total);
      assert RowFits(m.t, i, total);
      ExecRowAddsChild(pick, m, i, total);
      ExecRowsKeepsChildren(pick, ExecRow(pick, m, i, total), i + 1, total);
    }
  }

  lemma {:induction false} ExecLinesKeepsChildren(pick: Allocator, m: Machine, lines: seq<Line>, known: nat -> set<int>)
    ensures m.proc.children <= ExecLines(pick, m, lines, known).proc.children
    decreases |lines|
  {
    if lines != [] && LineFits(m, Print(lines[0])) {
      var t := ParseTokens(m.t, Print(lines[0]));
      ExecRowsKeepsChildren(pick, m.(t := t), 0, Total(t));
      ExecLinesKeepsChildren(pick, ExecLine(pick, m, Print(lines[0]), known(|lines|)), lines[1..], known);
    }
  }

  ghost predicate PartedAt(p: Proc, q: Proc, n: nat) {
    n < |p.children| && n < |q.children| && p.children[n] != q.children[n]
  }

  /** `handler` gives a `|0` command a pipe, `execute_pipeline` treats it as no jump at all. */
  lemma {:induction false} ZeroParts(pick: Allocator, a: State, m: Machine, line: Line, i: nat)
    requires Sound(pick) && Sized(m.t) && Mid(a, m, line, i) && i < |line| && RowFits(m.t, i, |line|)
    requires line[i].link == Numbered(0) && Fits(a, ToCommand(line[i]).ops)
    ensures PartedAt(Step(pick, a, ToCommand(line[i])).proc, ExecRow(pick, m, i, |line|).proc, |a.proc.children|)
  {
    hide Agree;
    var cmd := ToCommand(line[i]);
    InputAgrees(a, m, line, i);
    BeginShape(a, m, i);
    var b, m1 := Begin(a), TakeInput(m, i);
    var w := FirstWiring(a, cmd.ops);
    assert OpFits(a, cmd.ops[0]);
    assert Fits(b, cmd.ops);
    ApplyOne(pick, b, w, line[i].link);
    var (r, s) := pick(|b.proc.pipes|, InUse(b.proc));
    assert r != s;
    assert MakeOutput(pick, m1, i, |line|).proc == m1.proc;
  }

  lemma {:induction false} RowsPart(pick: Allocator, a: State, m: Machine, line: Line, i: nat) returns (n: nat)
    requires Sound(pick) && Sized(m.t) && Mid(a, m, line, i) && PlainLine(line) && i <= |line|
    requires StreamFits(a, ToCommands(line)[i..]) && RowsFit(m.t, i, |line|)
    requires exists j | i <= j < |line| :: line[j].link == Numbered(0)
    ensures PartedAt(Run(pick, a, ToCommands(line)[i..]).proc, ExecRows(pick, m, i, |line|).proc, n)
    decreases |line| - i
  {
    hide ExecRow, Step, RowFits, PlainLine, SlotsAgree;
    var cmds := ToCommands(line)[i..];
    StreamFitsTail(pick, a, cmds);
    assert cmds[0] == ToCommand(line[i]);
    assert cmds[1..] == ToCommands(line)[i + 1..];
    assert RowFits(m.t, i, |line|);
    RowsFitTail(pick, m, i, |line|);
    var a1, m1 := Step(pick, a, cmds[0]), ExecRow(pick, m, i, |line|);
    if line[i].link == Numbered(0) {
      ZeroParts(pick, a, m, line, i);
      n := |a.proc.children|;
      RunKeepsChildren(pick, a1, cmds[1..]);
      ExecRowsKeepsChildren(pick, m1, i + 1, |line|);
    } else {
      RowAgrees(pick, a, m, line, i);
      n := RowsPart(pick, a1, m1, line, i + 1);
    }
  }

  lemma {:induction false} LineParts(pick: Allocator, a: State, m: Machine, line: Line, known: set<int>) returns (n: nat)
    requires Sound(pick) && Rel(a, m) && Runnable(line) && !ForwardLine(line) && StreamFits(a, ToCommands(line))
    ensures LineFits(m, Print(line))
    ensures PartedAt(Run(pick, a, ToCommands(line)).proc, ExecLine(pick, m, Print(line), known).proc, n)
  {
    hide ParseTokens, ExecRow, Step, RowFits, Run, StreamFits, Print;
    LoadLine(a, m, line);
    var t := ParseTokens(m.t, Print(line));
    var m1 := m.(t := t);
    assert ToCommands(line)[0..] == ToCommands(line);
    RowsInRange(a, m1, line, 0);
    assert t.rows[t.pos + 0] == line[0].argv;
    n := RowsPart(pick, a, m1, line, 0);
  }

  lemma {:induction false} LinesPart(pick: Allocator, a: State, m: Machine, lines: seq<Line>, known: nat -> set<int>)
    requires Sound(pick) && Rel(a, m) && (forall i | 0 <= i < |lines| :: Runnable(lines[i]))
    requires StreamFits(a, AllCommands(lines))
    requires exists i | 0 <= i < |lines| :: !ForwardLine(lines[i])
    ensures Run(pick, a, AllCommands(lines)).proc != ExecLines(pick, m, lines, known).proc
    decreases |lines|
  {
    hide Runnable, LineFits, ExecLine, StreamFits, ForwardLine;
    var line, rest := lines[0], lines[1..];
    assert Runnable(line);
    RunAppend(pick, a, ToCommands(line), AllCommands(rest));
    assert forall i | 0 <= i < |rest| :: rest[i] == lines[i + 1];
    if ForwardLine(line) {
      LineAgrees(pick, a, m, line, known(|lines|));
      LinesPart(pick, Run(pick, a, ToCommands(line)), ExecLine(pick, m, Print(line), known(|lines|)), rest, known);
    } else {
      var n := LineParts(pick, a, m, line, known(|lines|));
      RunKeepsChildren(pick, Run(pick, a, ToCommands(line)), AllCommands(rest));
      ExecLinesKeepsChildren(pick, ExecLine(pick, m, Print(line), known(|lines|)), rest, known);
    }
  }

  /** For every sequence of lines of commands, `|` and `|N` that do not begin with a built-in
      (`BuiltinLines` has those), starting both shells afresh and giving both the same tokens: the same descriptors are open, the same ends were
      closed in the same order, and the same children run with the same streams and
      inherited ends, exactly when no line contains `|0`. */
  lemma {:induction false} SameKernelHistory(pick: Allocator, lines: seq<Line>, id: int, cells: set<(int, int)>, known: nat -> set<int>)
    requires Sound(pick) && (forall i | 0 <= i < |lines| :: Runnable(lines[i]))
    requires StreamFits(Init(), HandlerCommands(lines))
    ensures Run(pick, Init(), HandlerCommands(lines)).proc ==
            ExecLines(pick, Machine(InitTable(id), NEW_PROC, cells), lines, known).proc
            <==> forall i | 0 <= i < |lines| :: ForwardLine(lines[i])
  {
    hide Runnable, StreamFits, SlotsAgree, Init, InitTable, Run, ExecLines, AllCommands, HandlerCommands, Sound, ForwardLine;
    HandlerReadsLines(lines);
    InitRel(id, cells);
    if forall i | 0 <= i < |lines| :: ForwardLine(lines[i]) {
      LinesAgree(pick, Init(), Machine(InitTable(id), NEW_PROC, cells), lines, known);
    } else {
      LinesPart(pick, Init(), Machine(InitTable(id), NEW_PROC, cells), lines, known);
    }
  }
}
