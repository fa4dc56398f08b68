/** Built-in lines between the two shells. `handler` is not called for `setenv` and
    `printenv`, so its cursor stays; the table's position moves past the line's rows. The
    shells go on doing the same while no pipe is pending at such a line, and part otherwise. */
module BuiltinLines {
  import opened Text
  import opened Kernel
  import opened NumberedPipes
  import opened PipeInvariant
  import opened PipeTheorems
  import opened CommandTable
  import opened PlainLines
  import opened TwoShells
  import opened RedirectLines
  import opened OpenRows
  import Shell

  /** The built-in commands that both shells have. */
  const COMMON := {"setenv", "printenv"}

  predicate Common(line: Line) {
    PlainLine(line) && ForwardLine(line) && line[0].argv[0] in COMMON
  }

  predicate Either(line: Line) {
    Common(line) || (Runnable(line) && ForwardLine(line))
  }

  predicate AllEither(lines: seq<Line>) {
    forall i | 0 <= i < |lines| :: Either(lines[i])
  }

  /** The commands that reach `handler`. */
  function LineCommands(line: Line): seq<Command> {
    if Common(line) then [] else Shell.ParseLine(Print(line))
  }

  function HandlerSession(lines: seq<Line>): seq<Command> {
    if lines == [] then [] else LineCommands(lines[0]) + HandlerSession(lines[1..])
  }

  lemma {:induction false} ContainsBehind(front: string, sub: string, rest: string)
    requires sub != []
    ensures Contains(front + (sub + rest), sub)
  {
    if front == [] {
      assert front + (sub + rest) == sub + rest;
      assert (sub + rest)[..|sub|] == sub;
    } else {
      assert (front + (sub + rest))[1..] == front[1..] + (sub + rest);
      ContainsBehind(front[1..], sub, rest);
    }
  }

  /** `switch_command` keeps such a line from `handler`, however it is spaced. */
  lemma {:induction false} CommonIsSkipped(line: Line, seps: seq<string>)
    requires Common(line) && |seps| == |Print(line)| + 1
    ensures Shell.Skipped(Weave(seps, Print(line)))
  {
    var tokens := Print(line);
    assert tokens[0] == line[0].argv[0];
    ContainsBehind(seps[0], tokens[0], Weave(seps[1..], tokens[1..]));
  }

  // ---- A plain line is a typed line ----

  lemma {:induction false} NoUserToks(tokens: seq<string>)
    requires forall i | 0 <= i < |tokens| :: !UserTok(tokens[i])
    ensures Strip(tokens) == tokens && Placed(tokens)
  {
    if tokens != [] {
      assert forall i | 0 <= i < |tokens[1..]| :: tokens[1..][i] == tokens[i + 1];
      NoUserToks(tokens[1..]);
      assert [tokens[0]] + tokens[1..] == tokens;
    }
  }

  lemma {:induction false} PrintNoUser(line: Line)
    requires PlainLine(line)
    ensures forall i | 0 <= i < |Print(line)| :: !UserTok(Print(line)[i])
    decreases |line|
  {
    var c, link, rest := line[0], PrintLink(line[0].link), Print(line[1..]);
    forall i | 0 <= i < |c.argv|
      ensures !UserTok(c.argv[i])
    {
      assert PlainWord(c.argv[i]);
    }
    if !c.link.End? { LinkToken(c.link); }
    if |line| > 1 {
      LineTail(line);
      PrintNoUser(line[1..]);
    }
    assert Print(line) == c.argv + link + rest;
  }

  function Plainly(line: Line): TypedLine {
    TypedLine(Print(line), FileLine(line, None))
  }

  lemma {:induction false} PlainlyTyped(line: Line)
    requires PlainLine(line) && ForwardLine(line)
    ensures Typed(Plainly(line))
  {
    PrintNoUser(line);
    NoUserToks(Print(line));
    assert PrintFile(FileLine(line, None)) == Print(line);
  }

  // ---- The table's executor and a cursor machine of its own size ----

  /** The cursor machine b does what the executor does, and its slots behind the cursor in
      `left` were passed. */
  ghost predicate Shadow(b: State, m: Machine, left: set<nat>) {
    Rel(b, m) && |b.table| == |m.t.rows| && Loose(b, left)
  }

  function PendingSlots(b: State): set<nat> {
    set k: nat | b.count <= k < |b.table| && b.table[k] != EMPTY
  }

  lemma {:induction false} ShadowFollows(b: State, m: Machine, left: set<nat>)
    requires Shadow(b, m, left)
    ensures Follows(b, m, left, PendingSlots(b))
  {
    hide Loose, SlotsAgree;
  }

  /** A built-in line moves the shadow past its rows. */
  lemma {:induction false} ShadowPasses(pick: Allocator, b: State, m: Machine, line: Line, known: set<int>, left: set<nat>)
    returns (more: set<nat>)
    requires Sound(pick) && Shadow(b, m, left) && Common(line) && LineFits(m, Print(line))
    ensures Shadow(b.(count := b.count + |line|), ExecLine(pick, m, Print(line), known), more)
  {
    hide Loose, SlotsAgree, ParseTokens, Print;
    PlainlyTyped(line);
    ShadowFollows(b, m, left);
    LoadTyped(b, m, Plainly(line), left, PendingSlots(b));
    var c := PassFollows(pick, b, m, Plainly(line), known, left, PendingSlots(b));
    more := left + LineLeaves(m, Plainly(line), known, PendingSlots(b));
  }

  lemma {:induction false} CommandsFit(b: State, m: Machine, line: Line, left: set<nat>)
    requires Shadow(b, m, left) && Runnable(line) && ForwardLine(line) && LineFits(m, Print(line))
    ensures StreamFits(b, ToCommands(line))
  {
    hide Loose, SlotsAgree, ParseTokens, Print, PlainLine, Rel, Follows, PendingSlots, NamedBy, Strip, Placed, RowEnds, RowFits;
    PlainlyTyped(line);
    ShadowFollows(b, m, left);
    LoadTyped(b, m, Plainly(line), left, PendingSlots(b));
    var t := ParseTokens(m.t, Print(line));
    assert Total(t) == |line|;
    forall i | 0 <= i < |ToCommands(line)|
      ensures JumpsFit(|b.table|, b.count + i, ToCommands(line)[i].ops)
    {
      assert RowFits(t, i, |line|);
      RowJump(t, line, i);
    }
  }

  lemma {:induction false} RowJump(t: Table, line: Line, i: nat)
    requires Sized(t) && i < |line| && Loaded(t, line, 0) && RowFits(t, i, |line|)
    ensures JumpsFit(|t.rows|, t.pos + i, ToCommand(line[i]).ops)
  {
    assert t.pipeN[t.pos + i] == Distance(line[i].link);
  }

  lemma {:induction false} RunLoose(pick: Allocator, b: State, cmds: seq<Command>, left: set<nat>)
    requires Sound(pick) && Loose(b, left) && StreamFits(b, cmds) && AllForward(cmds)
    ensures Loose(Run(pick, b, cmds), left)
    decreases |cmds|
  {
    hide Loose, Step, Fits, JumpsFit;
    if cmds != [] {
      StreamFitsTail(pick, b, cmds);
      StepLoose(pick, b, cmds[0], left);
      assert forall i | 0 <= i < |cmds[1..]| :: cmds[1..][i] == cmds[i + 1];
      RunLoose(pick, Step(pick, b, cmds[0]), cmds[1..], left);
    }
  }

  lemma {:induction false} LineForward(line: Line)
    requires ForwardLine(line)
    ensures AllForward(ToCommands(line))
  {
    forall i | 0 <= i < |line|
      ensures Forward(ToCommands(line)[i])
    {
      assert ToCommands(line)[i] == ToCommand(line[i]) && line[i].link != Numbered(0);
    }
  }

  /** An executed line is a run of the shadow. */
  lemma {:induction false} ShadowRuns(pick: Allocator, b: State, m: Machine, line: Line, known: set<int>, left: set<nat>)
    requires Sound(pick) && Shadow(b, m, left) && Runnable(line) && ForwardLine(line) && LineFits(m, Print(line))
    ensures StreamFits(b, ToCommands(line)) && AllForward(ToCommands(line))
    ensures Shadow(Run(pick, b, ToCommands(line)), ExecLine(pick, m, Print(line), known), left)
  {
    hide Loose, Rel, Run, StreamFits, Runnable, ForwardLine, Print, ParseTokens;
    CommandsFit(b, m, line, left);
    LineForward(line);
    LineAgrees(pick, b, m, line, known);
    RunLoose(pick, b, ToCommands(line), left);
  }

  // ---- In step ----

  /** The same but for the slots that the pipes are labelled with. */
  predicate SameKernel(p: Proc, q: Proc) {
    p == q.(pipes := p.pipes) && |p.pipes| == |q.pipes|
  }

  /** b is `shift` rows ahead of a, with the same pipes pending. */
  ghost predicate InStep(a: State, b: State, shift: nat) {
    && b.count == a.count + shift && SameKernel(a.proc, b.proc)
    && (forall j | b.count <= j < |b.table| :: b.table[j] == if j - shift < |a.table| then a.table[j - shift] else EMPTY)
  }

  lemma {:induction false} BeginInStep(a: State, b: State, shift: nat)
    requires InStep(a, b, shift) && a.count < |a.table| && b.count < |b.table|
    ensures InStep(Begin(a), Begin(b), shift) && Stdin(a) == Stdin(b)
  {
    assert b.table[a.count + shift] == a.table[a.count];
  }

  lemma {:induction false} ReserveInStep(pick: Allocator, a: State, b: State, shift: nat, n: nat)
    requires InStep(a, b, shift) && OpFits(a, Bar(n)) && OpFits(b, Bar(n))
    ensures var x, y := Reserve(pick, a, Bar(n)), Reserve(pick, b, Bar(n));
      InStep(x, y, shift) && x.table[a.count + n].write == y.table[b.count + n].write
  {
    assert b.table[(a.count + n) + shift] == a.table[a.count + n];
    assert InUse(a.proc) == InUse(b.proc);
  }

  lemma {:induction false} FinishInStep(a: State, b: State, shift: nat, v: Wiring, argv: seq<string>)
    requires InStep(a, b, shift) && a.count < |a.table| && b.count < |b.table|
    ensures InStep(Finish(a, v, argv), Finish(b, v, argv), shift)
  {
    assert b.table[a.count + shift] == a.table[a.count];
    var x, y := Spawn(a, v, argv), Spawn(b, v, argv);
    assert InStep(x, y, shift);
  }

  lemma {:induction false} StepInStep(pick: Allocator, a: State, b: State, shift: nat, c: Simple)
    requires InStep(a, b, shift) && Fits(a, ToCommand(c).ops) && Fits(b, ToCommand(c).ops)
    ensures InStep(Step(pick, a, ToCommand(c)), Step(pick, b, ToCommand(c)), shift)
  {
    hide InStep, Begin, Finish, Reserve, Apply;
    var cmd := ToCommand(c);
    BeginInStep(a, b, shift);
    var x, y := Begin(a), Begin(b);
    BeginCount(a);
    BeginCount(b);
    assert forall i | 0 <= i < |cmd.ops| :: OpFits(a, cmd.ops[i]) ==> OpFits(x, cmd.ops[i]);
    assert forall i | 0 <= i < |cmd.ops| :: OpFits(b, cmd.ops[i]) ==> OpFits(y, cmd.ops[i]);
    ApplyOne(pick, x, FirstWiring(a, cmd.ops), c.link);
    ApplyOne(pick, y, FirstWiring(b, cmd.ops), c.link);
    if !c.link.End? {
      assert OpFits(x, cmd.ops[0]) && OpFits(y, cmd.ops[0]);
      ReserveInStep(pick, x, y, shift, Distance(c.link));
      ReserveCount(pick, x, Distance(c.link));
      ReserveCount(pick, y, Distance(c.link));
    }
    var (s, v) := Apply(pick, x, FirstWiring(a, cmd.ops), cmd.ops);
    var (t, u) := Apply(pick, y, FirstWiring(b, cmd.ops), cmd.ops);
    assert v == u;
    FinishInStep(s, t, shift, v, cmd.argv);
  }

  lemma {:induction false} ReserveCount(pick: Allocator, s: State, n: nat)
    requires OpFits(s, Bar(n))
    ensures Reserve(pick, s, Bar(n)).count == s.count && |Reserve(pick, s, Bar(n)).table| == |s.table|
  {
  }

  lemma {:induction false} RunInStep(pick: Allocator, a: State, b: State, shift: nat, line: Line)
    requires InStep(a, b, shift) && StreamFits(a, ToCommands(line)) && StreamFits(b, ToCommands(line))
    ensures InStep(Run(pick, a, ToCommands(line)), Run(pick, b, ToCommands(line)), shift)
    decreases |line|
  {
    hide InStep, Step;
    if line != [] {
      var cmds := ToCommands(line);
      StreamFitsTail(pick, a, cmds);
      StreamFitsTail(pick, b, cmds);
      StepInStep(pick, a, b, shift, line[0]);
      assert cmds[1..] == ToCommands(line[1..]);
      RunInStep(pick, Step(pick, a, cmds[0]), Step(pick, b, cmds[0]), shift, line[1..]);
    }
  }

  ghost predicate NothingPending(a: State) {
    forall k | a.count <= k < |a.table| :: a.table[k] == EMPTY
  }

  lemma {:induction false} PassInStep(a: State, b: State, shift: nat, r: nat)
    requires InStep(a, b, shift) && NothingPending(a)
    ensures InStep(a, b.(count := b.count + r), shift + r)
  {
    assert forall j | b.count <= j < |b.table| :: b.table[j] == EMPTY;
  }

  // ---- Sessions ----

  /** All lines stay inside the table. */
  predicate LinesFit(pick: Allocator, m: Machine, lines: seq<Line>, known: nat -> set<int>)
    decreases |lines|
  {
    lines == [] ||
    (LineFits(m, Print(lines[0])) && LinesFit(pick, ExecLine(pick, m, Print(lines[0]), known(|lines|)), lines[1..], known))
  }

  /** Every built-in line comes when no pipe is pending. */
  ghost predicate MeetsNothing(pick: Allocator, a: State, lines: seq<Line>)
    requires StreamFits(a, HandlerSession(lines))
    decreases |lines|
  {
    lines == [] ||
    (RunAppend(pick, a, LineCommands(lines[0]), HandlerSession(lines[1..]));
     (Common(lines[0]) ==> NothingPending(a)) &&
     MeetsNothing(pick, Run(pick, a, LineCommands(lines[0])), lines[1..]))
  }

  lemma {:induction false} EitherTail(lines: seq<Line>)
    requires AllEither(lines) && lines != []
    ensures AllEither(lines[1..]) && Either(lines[0])
  {
    assert forall i | 0 <= i < |lines[1..]| :: lines[1..][i] == lines[i + 1];
  }

  lemma {:induction false} StaysInStep(pick: Allocator, a: State, b: State, m: Machine, lines: seq<Line>,
                                       known: nat -> set<int>, left: set<nat>, shift: nat)
    returns (c: State, more: set<nat>, further: nat)
    requires Sound(pick) && Shadow(b, m, left) && InStep(a, b, shift) && AllEither(lines)
    requires StreamFits(a, HandlerSession(lines)) && LinesFit(pick, m, lines, known) && MeetsNothing(pick, a, lines)
    ensures Shadow(c, ExecLines(pick, m, lines, known), more)
    ensures InStep(Run(pick, a, HandlerSession(lines)), c, further)
    decreases |lines|
  {
    hide Shadow, InStep, AllEither, StreamFits, LineFits, ExecLine, NothingPending, Run, Runnable, ForwardLine, PlainLine;
    if lines == [] {
      RunNone(pick, a);
      c, more, further := b, left, shift;
    } else {
      var line, rest := lines[0], lines[1..];
      EitherTail(lines);
      RunAppend(pick, a, LineCommands(line), HandlerSession(rest));
      var n := ExecLine(pick, m, Print(line), known(|lines|));
      if Common(line) {
        RunNone(pick, a);
        more := ShadowPasses(pick, b, m, line, known(|lines|), left);
        PassInStep(a, b, shift, |line|);
        c, more, further := StaysInStep(pick, a, b.(count := b.count + |line|), n, rest, known, more, shift + |line|);
      } else {
        RunnablePlain(line);
        HandlerReads(line);
        ShadowRuns(pick, b, m, line, known(|lines|), left);
        RunInStep(pick, a, b, shift, line);
        c, more, further := StaysInStep(pick, Run(pick, a, ToCommands(line)), Run(pick, b, ToCommands(line)), n, rest, known, left, shift);
      }
    }
  }

  lemma {:induction false} RunnablePlain(line: Line)
    requires Runnable(line)
    ensures PlainLine(line)
  {
  }

  lemma {:induction false} RunNone(pick: Allocator, a: State)
    requires StreamFits(a, [])
    ensures Run(pick, a, []) == a
  {
  }

  lemma {:induction false} StartsInStep(id: int, cells: set<(int, int)>)
    ensures Shadow(NEW_CURSOR, Start(id, cells), {}) && InStep(Init(), NEW_CURSOR, 0)
  {
    hide Loose, SlotsAgree;
    NewCursor(id, cells);
  }

  /** On every session of plain lines and common built-ins in which each built-in line comes
      when no pipe is pending, the two shells have the same kernel history, though their
      cursors drift apart. */
  lemma {:induction false} BuiltinsAgree(pick: Allocator, lines: seq<Line>, id: int, cells: set<(int, int)>, known: nat -> set<int>)
    requires Sound(pick) && AllEither(lines) && StreamFits(Init(), HandlerSession(lines))
    requires LinesFit(pick, Start(id, cells), lines, known) && MeetsNothing(pick, Init(), lines)
    ensures SameKernel(Run(pick, Init(), HandlerSession(lines)).proc, ExecLines(pick, Start(id, cells), lines, known).proc)
  {
    hide AllEither, StreamFits, LinesFit, MeetsNothing, Run, ExecLines, Init, Start, Loose, SlotsAgree;
    StartsInStep(id, cells);
    var c, more, further := StaysInStep(pick, Init(), NEW_CURSOR, Start(id, cells), lines, known, {}, 0);
  }

  // ---- What a child reads ----

  /** Child i reads the default input or the pipe of a row from `row` on. */
  ghost predicate ReadsFrom(p: Proc, i: nat, row: nat)
    requires i < |p.children|
  {
    var port := p.children[i].stdin;
    port == Default ||
    (port.Piped? && port.end.ReadEnd? && port.end.pipe < |p.pipes| && p.pipes[port.end.pipe] >= row)
  }

  lemma {:induction false} StepReads(pick: Allocator, a: State, c: Command, left: set<nat>)
    requires Sound(pick) && Loose(a, left) && Fits(a, c.ops) && Forward(c)
    ensures var t := Step(pick, a, c); var k := |a.proc.children|;
      && |t.proc.children| == k + 1 && a.proc.children <= t.proc.children && a.proc.pipes <= t.proc.pipes
      && ReadsFrom(t.proc, k, a.count)
      && (a.table[a.count] != EMPTY ==>
            (a.table[a.count].read in a.proc.fds &&
             t.proc.children[k].stdin == Piped(a.proc.fds[a.table[a.count].read])))
  {
    hide Waiting, Apply, Ledger, OpenEnds, OncePerSlot, Owned;
    StepAddsChild(pick, a, c);
    BeginMidway(a, left);
    var b, w := Begin(a), FirstWiring(a, c.ops);
    BeginCount(a);
    assert forall i | 0 <= i < |c.ops| :: OpFits(a, c.ops[i]) ==> OpFits(b, c.ops[i]);
    ApplyKeepsChildren(pick, b, w, c.ops);
    ApplyInput(pick, b, w, c.ops);
    ApplyMidway(pick, b, w, c.ops);
    BeginInput(a, left);
    var (m, v) := Apply(pick, b, w, c.ops);
    InputPort(b, m, a.table[a.count].read);
  }

  /** Operators open pipes and leave the input alone. */
  lemma {:induction false} ApplyInput(pick: Allocator, s: State, w: Wiring, ops: seq<Op>)
    requires Sound(pick) && Fits(s, ops)
    ensures var (t, v) := Apply(pick, s, w, ops);
      && v.stdin == w.stdin && s.proc.pipes <= t.proc.pipes && t.proc.std == s.proc.std
      && forall fd | fd in s.proc.fds :: fd in t.proc.fds && t.proc.fds[fd] == s.proc.fds[fd]
    decreases |ops|
  {
    if ops != [] {
      var t := Reserve(pick, s, ops[0]);
      assert forall i | 0 <= i < |ops[1..]| :: ops[1..][i] == ops[i + 1];
      ReserveOpens(pick, s, ops[0]);
      ApplyInput(pick, t, Wire(t, w, ops[0]), ops[1..]);
    }
  }

  lemma {:induction false} ReserveOpens(pick: Allocator, s: State, op: Op)
    requires Sound(pick) && OpFits(s, op)
    ensures var t := Reserve(pick, s, op);
      && s.proc.pipes <= t.proc.pipes && t.proc.std == s.proc.std
      && forall fd | fd in s.proc.fds :: fd in t.proc.fds && t.proc.fds[fd] == s.proc.fds[fd]
  {
    var (r, w) := pick(|s.proc.pipes|, InUse(s.proc));
    assert r !in InUse(s.proc) && w !in InUse(s.proc);
  }

  /** The cursor's read end, if any, is still open after `Begin`. */
  lemma {:induction false} BeginInput(a: State, left: set<nat>)
    requires Loose(a, left) && a.count < |a.table|
    ensures var b, fd := Begin(a), a.table[a.count].read;
      && b.proc.pipes == a.proc.pipes && b.table[a.count].read == fd && b.proc.std == STANDARD && 0 !in b.proc.fds
      && (fd != 0 ==> Holds(a, fd, a.count, true) && fd in b.proc.fds && b.proc.fds[fd] == a.proc.fds[fd])
      && (fd == 0 <==> a.table[a.count] == EMPTY)
  {
    assert Whole(a.table[a.count]);
    if a.table[a.count].read != 0 {
      assert Holds(a, a.table[a.count].read, a.count, true) && Holds(a, a.table[a.count].write, a.count, false);
    }
  }

  lemma {:induction false} InputPort(b: State, m: State, fd: int)
    requires Midway(m) && b.proc.std == STANDARD
    requires forall x | x in b.proc.fds :: x in m.proc.fds && m.proc.fds[x] == b.proc.fds[x]
    ensures fd == 0 ==> PortOf(m.proc, fd) == Default
    ensures fd in b.proc.fds ==> PortOf(m.proc, fd) == Piped(b.proc.fds[fd])
  {
    if fd == 0 { OwnInput(m); }
  }

  /** A full slot ahead stays as it is, and so do its descriptors. */
  lemma {:induction false} StepKeepsSlot(pick: Allocator, a: State, c: Command, left: set<nat>, k: nat)
    requires Sound(pick) && Loose(a, left) && Fits(a, c.ops) && Forward(c)
    requires a.count < k < |a.table| && a.table[k] != EMPTY
    ensures var t := Step(pick, a, c); var fd := a.table[k].read;
      && t.table[k] == a.table[k] && fd in a.proc.fds && fd in t.proc.fds && t.proc.fds[fd] == a.proc.fds[fd]
  {
    hide Apply;
    BeginMidway(a, left);
    var b, w := Begin(a), FirstWiring(a, c.ops);
    BeginCount(a);
    assert Whole(a.table[k]) && Holds(a, a.table[k].read, k, true);
    assert forall i | 0 <= i < |c.ops| :: OpFits(a, c.ops[i]) ==> OpFits(b, c.ops[i]);
    ApplyKeepsSlot(pick, b, w, c.ops, k);
    ApplyMidway(pick, b, w, c.ops);
    var (m, v) := Apply(pick, b, w, c.ops);
    FinishTable(m, v, c.argv);
    StepLoose(pick, a, c, left);
    StepReads(pick, a, c, left);
    SameReadEnd(a, Step(pick, a, c), k);
  }

  lemma {:induction false} SameReadEnd(a: State, t: State, k: nat)
    requires Books(a) && Books(t) && a.proc.pipes <= t.proc.pipes
    requires k < |a.table| == |t.table| && t.table[k] == a.table[k] && a.table[k].read != 0
    ensures var fd := a.table[k].read; fd in a.proc.fds && fd in t.proc.fds && t.proc.fds[fd] == a.proc.fds[fd]
  {
    assert Holds(a, a.table[k].read, k, true) && Holds(t, t.table[k].read, k, true);
  }

  lemma {:induction false} ApplyKeepsSlot(pick: Allocator, s: State, w: Wiring, ops: seq<Op>, k: nat)
    requires Sound(pick) && Fits(s, ops) && k < |s.table| && s.table[k].write != 0
    ensures Apply(pick, s, w, ops).0.table[k] == s.table[k]
    decreases |ops|
  {
    if ops != [] {
      var t := Reserve(pick, s, ops[0]);
      assert forall i | 0 <= i < |ops[1..]| :: ops[1..][i] == ops[i + 1];
      ApplyKeepsSlot(pick, t, Wire(t, w, ops[0]), ops[1..], k);
    }
  }

  lemma {:induction false} ReadsStay(p: Proc, q: Proc, i: nat, row: nat, low: nat)
    requires i < |p.children| && ReadsFrom(p, i, row) && low <= row
    requires p.children <= q.children && p.pipes <= q.pipes
    ensures ReadsFrom(q, i, low)
  {
  }

  /** In a run child j reads from its own row on, and the pipe that waits for it, if any. */
  lemma {:induction false} RunReads(pick: Allocator, a: State, cmds: seq<Command>, left: set<nat>, j: nat)
    requires Sound(pick) && Loose(a, left) && StreamFits(a, cmds) && AllForward(cmds)
    ensures var p, n := Run(pick, a, cmds).proc, |a.proc.children|;
      && |p.children| == n + |cmds| && a.proc.children <= p.children && a.proc.pipes <= p.pipes
      && (j < |cmds| ==>
            (ReadsFrom(p, n + j, a.count + j) && a.count + j < |a.table| &&
             (a.table[a.count + j] != EMPTY ==>
                (a.table[a.count + j].read in a.proc.fds &&
                 p.children[n + j].stdin == Piped(a.proc.fds[a.table[a.count + j].read])))))
    decreases |cmds|
  {
    hide Loose, Step, Fits, JumpsFit, Forward, ReadsFrom;
    if cmds != [] {
      var rest := cmds[1..];
      StreamFitsTail(pick, a, cmds);
      StepLoose(pick, a, cmds[0], left);
      StepReads(pick, a, cmds[0], left);
      assert forall i | 0 <= i < |rest| :: rest[i] == cmds[i + 1];
      var t := Step(pick, a, cmds[0]);
      if j == 0 {
        RunReads(pick, t, rest, left, 0);
        ReadsStay(t.proc, Run(pick, t, rest).proc, |a.proc.children|, a.count, a.count);
      } else {
        RunReads(pick, t, rest, left, j - 1);
        if j < |cmds| && a.table[a.count + j] != EMPTY { StepKeepsSlot(pick, a, cmds[0], left, a.count + j); }
      }
    }
  }

  lemma {:induction false} CommandsOf(line: Line)
    requires Runnable(line)
    ensures !Common(line) && LineCommands(line) == ToCommands(line) && |ToCommands(line)| == |line|
  {
    RunnablePlain(line);
    HandlerReads(line);
  }

  lemma {:induction false} NoCommands(line: Line)
    requires Common(line)
    ensures LineCommands(line) == []
  {
  }

  /** One line: rows never lag behind the children. */
  lemma {:induction false} LineReads(pick: Allocator, b: State, m: Machine, line: Line, ids: set<int>, left: set<nat>, i: nat)
    returns (c: State, more: set<nat>)
    requires Sound(pick) && Shadow(b, m, left) && Either(line) && LineFits(m, Print(line))
    ensures Shadow(c, ExecLine(pick, m, Print(line), ids), more)
    ensures |c.proc.children| == |b.proc.children| + |LineCommands(line)|
    ensures b.proc.children <= c.proc.children && b.proc.pipes <= c.proc.pipes
    ensures c.count + |b.proc.children| >= b.count + |c.proc.children|
    ensures |b.proc.children| <= i < |c.proc.children| ==> ReadsFrom(c.proc, i, b.count + (i - |b.proc.children|))
  {
    hide Shadow, LineFits, ExecLine, Run, Runnable, ForwardLine, PlainLine, StreamFits, ReadsFrom, AllForward, LineCommands,
      ToCommands, Print, Loose, Rel, Common;
    if Common(line) {
      NoCommands(line);
      more := ShadowPasses(pick, b, m, line, ids, left);
      c := b.(count := b.count + |line|);
    } else {
      CommandsOf(line);
      ShadowRuns(pick, b, m, line, ids, left);
      c, more := Run(pick, b, ToCommands(line)), left;
      RunReadsShadow(pick, b, m, line, left, if i >= |b.proc.children| then i - |b.proc.children| else 0);
    }
  }

  /** In the table a child reads from its own row on. */
  lemma {:induction false} LinesRead(pick: Allocator, b: State, m: Machine, lines: seq<Line>, known: nat -> set<int>, left: set<nat>, i: nat)
    requires Sound(pick) && Shadow(b, m, left) && AllEither(lines) && LinesFit(pick, m, lines, known)
    ensures var q, n := ExecLines(pick, m, lines, known).proc, |b.proc.children|;
      && |q.children| == n + |HandlerSession(lines)| && b.proc.children <= q.children && b.proc.pipes <= q.pipes
      && (n <= i < |q.children| ==> ReadsFrom(q, i, b.count + (i - n)))
    decreases |lines|
  {
    hide Shadow, AllEither, LineFits, ExecLine, LineCommands, Either, ReadsFrom;
    ShadowProc(b, m, left);
    if lines != [] {
      var line, rest, ids := lines[0], lines[1..], known(|lines|);
      EitherTail(lines);
      var c, more := LineReads(pick, b, m, line, ids, left, i);
      LinesRead(pick, c, ExecLine(pick, m, Print(line), ids), rest, known, more, i);
      var q, n, k := ExecLines(pick, m, lines, known).proc, |b.proc.children|, |c.proc.children|;
      if n <= i < k {
        ReadsStay(c.proc, q, i, b.count + (i - n), b.count + (i - n));
      } else if k <= i < |q.children| {
        ReadsStay(q, q, i, c.count + (i - k), b.count + (i - n));
      }
    }
  }

  lemma {:induction false} ShadowLoose(b: State, m: Machine, left: set<nat>)
    requires Shadow(b, m, left)
    ensures Loose(b, left)
  {
  }

  lemma {:induction false} ShadowProc(b: State, m: Machine, left: set<nat>)
    requires Shadow(b, m, left)
    ensures m.proc == b.proc
  {
  }

  lemma {:induction false} RunReadsShadow(pick: Allocator, b: State, m: Machine, line: Line, left: set<nat>, j: nat)
    requires Sound(pick) && Shadow(b, m, left) && StreamFits(b, ToCommands(line)) && AllForward(ToCommands(line))
    ensures var p, n := Run(pick, b, ToCommands(line)).proc, |b.proc.children|;
      && |p.children| == n + |line| && b.proc.children <= p.children && b.proc.pipes <= p.pipes
      && (j < |line| ==> ReadsFrom(p, n + j, b.count + j))
    ensures Run(pick, b, ToCommands(line)).count == b.count + |line|
  {
    hide Run, ReadsFrom, Rel, Loose, StreamFits, AllForward;
    RunReads(pick, b, ToCommands(line), left, j);
  }

  // ---- A built-in line with a pipe pending ----

  /** k is a slot that is pending at the first built-in line that meets any. */
  ghost predicate PendingAt(pick: Allocator, a: State, lines: seq<Line>, k: nat)
    requires StreamFits(a, HandlerSession(lines))
    decreases |lines|
  {
    lines != [] &&
    (RunAppend(pick, a, LineCommands(lines[0]), HandlerSession(lines[1..]));
     if Common(lines[0]) && !NothingPending(a) then a.count <= k < |a.table| && a.table[k] != EMPTY
     else PendingAt(pick, Run(pick, a, LineCommands(lines[0])), lines[1..], k))
  }

  /** The pipe of slot k was made, in the table, for a row that is at most `shift` further. */
  lemma {:induction false} LabelNear(a: State, b: State, shift: nat, left: set<nat>, k: nat)
    requires InStep(a, b, shift) && Loose(a, {}) && Loose(b, left) && a.count <= k < |a.table| && a.table[k] != EMPTY
    ensures var fd := a.table[k].read;
      && |b.proc.children| == |a.proc.children| && b.count == a.count + shift
      && fd in a.proc.fds && a.proc.fds[fd].ReadEnd? && a.proc.fds[fd].pipe < |b.proc.pipes|
      && b.proc.pipes[a.proc.fds[fd].pipe] <= k + shift
  {
    var fd := a.table[k].read;
    assert Whole(a.table[k]) && Holds(a, fd, k, true);
    var x := b.proc.pipes[a.proc.fds[fd].pipe];
    assert b.table[x].read == fd;
    assert forall y | a.count <= y < |a.table| && a.table[y].read == fd :: Holds(a, a.table[y].read, y, true);
  }

  /** After the built-in line: child k of `handler` reads the pending pipe, and that of the
      table something else. */
  lemma {:induction false} PartAfter(pick: Allocator, a: State, b: State, m: Machine, line: Line, rest: seq<Line>,
                                     known: nat -> set<int>, ids: set<int>, left: set<nat>, shift: nat, k: nat)
    requires Sound(pick) && Shadow(b, m, left) && InStep(a, b, shift) && Loose(a, {}) && |a.proc.children| == a.count
    requires Common(line) && LineFits(m, Print(line)) && AllEither(rest)
    requires StreamFits(a, HandlerSession(rest)) && AllForward(HandlerSession(rest))
    requires LinesFit(pick, ExecLine(pick, m, Print(line), ids), rest, known)
    requires a.count <= k < |a.table| && a.table[k] != EMPTY && k < a.count + |HandlerSession(rest)|
    ensures PartedAt(Run(pick, a, HandlerSession(rest)).proc,
                     ExecLines(pick, ExecLine(pick, m, Print(line), ids), rest, known).proc, k)
  {
    hide Loose, Shadow, InStep, LinesFit, AllEither, StreamFits, LineFits, ExecLine, ExecLines, Run, AllForward;
    ShadowLoose(b, m, left);
    RunReads(pick, a, HandlerSession(rest), {}, k - a.count);
    LabelNear(a, b, shift, left, k);
    var more := ShadowPasses(pick, b, m, line, ids, left);
    var c := b.(count := b.count + |line|);
    LinesRead(pick, c, ExecLine(pick, m, Print(line), ids), rest, known, more, k);
  }

  lemma {:induction false} SessionForward(lines: seq<Line>)
    requires AllEither(lines)
    ensures AllForward(HandlerSession(lines))
  {
    if lines != [] {
      EitherTail(lines);
      SessionForward(lines[1..]);
      var first, rest := LineCommands(lines[0]), HandlerSession(lines[1..]);
      if !Common(lines[0]) {
        RunnablePlain(lines[0]);
        HandlerReads(lines[0]);
        LineForward(lines[0]);
      }
      assert forall i | 0 <= i < |first + rest| :: (first + rest)[i] == if i < |first| then first[i] else rest[i - |first|];
    }
  }

  lemma {:induction false} PartsLater(pick: Allocator, a: State, b: State, m: Machine, lines: seq<Line>,
                                      known: nat -> set<int>, left: set<nat>, shift: nat, k: nat)
    requires Sound(pick) && Shadow(b, m, left) && InStep(a, b, shift) && Loose(a, {}) && |a.proc.children| == a.count
    requires AllEither(lines) && StreamFits(a, HandlerSession(lines)) && LinesFit(pick, m, lines, known)
    requires PendingAt(pick, a, lines, k) && k < a.count + |HandlerSession(lines)|
    ensures PartedAt(Run(pick, a, HandlerSession(lines)).proc, ExecLines(pick, m, lines, known).proc, k)
    decreases |lines|
  {
    hide Shadow, InStep, AllEither, StreamFits, LineFits, ExecLine, NothingPending, Run, Runnable, ForwardLine, PlainLine,
      Loose, PartedAt;
    var line, rest, ids := lines[0], lines[1..], known(|lines|);
    EitherTail(lines);
    RunAppend(pick, a, LineCommands(line), HandlerSession(rest));
    SessionForward(rest);
    var n := ExecLine(pick, m, Print(line), ids);
    if Common(line) {
      RunNone(pick, a);
      if NothingPending(a) {
        var more := ShadowPasses(pick, b, m, line, ids, left);
        PassInStep(a, b, shift, |line|);
        PartsLater(pick, a, b.(count := b.count + |line|), n, rest, known, more, shift + |line|, k);
      } else {
        PartAfter(pick, a, b, m, line, rest, known, ids, left, shift, k);
      }
    } else {
      RunnablePlain(line);
      HandlerReads(line);
      ShadowRuns(pick, b, m, line, ids, left);
      RunInStep(pick, a, b, shift, line);
      RunLoose(pick, a, ToCommands(line), {});
      RunReads(pick, a, ToCommands(line), {}, 0);
      PartsLater(pick, Run(pick, a, ToCommands(line)), Run(pick, b, ToCommands(line)), n, rest, known, left, shift, k);
    }
  }

  lemma {:induction false} InitLoose()
    ensures Loose(Init(), {}) && Init().proc.children == [] && Init().count == 0
  {
    hide OpenEnds;
    OpenEndsEmpty(PIPE_NUMBER);
  }

  /** When a built-in line comes while a pipe is pending, the shells part as soon as the
      cursor of `handler` has reached the pipe's slot: child k reads it there, and in the
      table it does not. */
  lemma {:induction false} BuiltinParts(pick: Allocator, lines: seq<Line>, id: int, cells: set<(int, int)>, known: nat -> set<int>, k: nat)
    requires Sound(pick) && AllEither(lines) && StreamFits(Init(), HandlerSession(lines))
    requires LinesFit(pick, Start(id, cells), lines, known)
    requires PendingAt(pick, Init(), lines, k) && k < |HandlerSession(lines)|
    ensures PartedAt(Run(pick, Init(), HandlerSession(lines)).proc, ExecLines(pick, Start(id, cells), lines, known).proc, k)
  {
    hide AllEither, StreamFits, LinesFit, PendingAt, Run, ExecLines, Start, SlotsAgree, PartedAt, Loose;
    StartsInStep(id, cells);
    InitLoose();
    PartsLater(pick, Init(), NEW_CURSOR, Start(id, cells), lines, known, {}, 0, k);
  }

  /** There is such a slot whenever some built-in line meets a pending pipe. */
  lemma {:induction false} SomePends(pick: Allocator, a: State, lines: seq<Line>) returns (k: nat)
    requires StreamFits(a, HandlerSession(lines)) && !MeetsNothing(pick, a, lines)
    ensures PendingAt(pick, a, lines, k)
    decreases |lines|
  {
    hide Run, StreamFits, LineCommands;
    RunAppend(pick, a, LineCommands(lines[0]), HandlerSession(lines[1..]));
    if Common(lines[0]) && !NothingPending(a) {
      k :| a.count <= k < |a.table| && a.table[k] != EMPTY;
    } else {
      k := SomePends(pick, Run(pick, a, LineCommands(lines[0])), lines[1..]);
    }
  }
}
