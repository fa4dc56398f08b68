/** Concrete lines for the two ways in which the table's rows go wrong: rows that are passed
    with a pipe pending, and a built-in line between a jump and its target. */
module RowExamples {
  import opened Text
  import opened Kernel
  import opened NumberedPipes
  import opened PipeInvariant
  import opened PipeTheorems
  import opened CommandTable
  import opened PlainLines
  import opened TwoShells
  import opened RedirectLines
  import opened OpenRows
  import opened BuiltinLines
  import Shell

  /** A line without `> file` fits when its jumps do. */
  lemma {:induction false} PlainFits(a: State, m: Machine, l: TypedLine, left: set<nat>, named: set<nat>)
    requires Follows(a, m, left, named) && Typed(l) && l.shape.file.None?
    requires m.t.pos + |l.shape.line| <= |m.t.rows|
    requires forall i | 0 <= i < |l.shape.line| :: m.t.pos + i + Distance(l.shape.line[i].link) < |m.t.rows|
    ensures LineFits(m, l.tokens)
  {
    hide Loose, NamedBy, SlotsAgree, ParseTokens, Strip, Placed, PlainLine;
    BodyPlain(l.shape);
    StripRowEnds(l.tokens);
    RowEndsOfLine(l.shape.line);
    assert PrintFile(l.shape) == Print(l.shape.line);
    LoadTyped(a, m, l, left, named);
    var t, total := ParseTokens(m.t, l.tokens), |l.shape.line|;
    assert Total(t) == total;
    forall i: nat | i < total
      ensures RowFits(t, i, total)
    {
      assert t.pipeN[t.pos + i] == Distance(l.shape.line[i].link);
    }
    assert t.rows[t.pos + 0] == l.shape.line[0].argv;
  }

  // ---- `ls > f` ----

  const LS_FILE := TypedLine(["ls", ">", "f"], FileLine([Simple(["ls"], End)], Some("f")))

  lemma {:induction false} LsFileParsed(id: int)
    ensures Typed(LS_FILE) && RowEnds(["ls", ">", "f"]) == 1
    ensures var t := ParseTokens(InitTable(id), ["ls", ">", "f"]);
      && t.flags == NO_FLAGS.(redirect := true) && t.num == 2 && t.pos == 0 && |t.rows| == TOKEN_BUFFSIZE
      && t.rows[0] == ["ls"] && t.pipeN[0] == 1 && t.rows[1] == ["f"]
  {
    hide Store, ParseTokens, ParseFrom;
    var line := [Simple(["ls"], End)];
    assert line[1..] == [] && Print([]) == [];
    assert PrintFile(LS_FILE.shape) == LS_FILE.tokens;
    NoUserToks(LS_FILE.tokens);
    TableReadsFile(InitTable(id), LS_FILE.shape);
    StoredAt(ResetFlags(InitTable(id)), 0, line, 0);
  }

  lemma {:induction false} LsFileFits(id: int, cells: set<(int, int)>, known: set<int>)
    ensures LineFits(Start(id, cells), LS_FILE.tokens) && Executes(Start(id, cells), LS_FILE, known)
  {
    hide ParseTokens;
    LsFileParsed(id);
    var t := ParseTokens(InitTable(id), ["ls", ">", "f"]);
    assert RowFits(t, 0, 1);
  }

  /** The first line is `ls > f`: whatever lines follow, both ends of the pipe for row 1,
      which holds the file name, are open. */
  lemma {:induction false} LsFileLeaks(pick: Allocator, id: int, cells: set<(int, int)>, more: seq<TypedLine>, known: nat -> set<int>)
    requires Sound(pick) && forall i | 0 <= i < |more| :: Typed(more[i])
    requires SessionFits(pick, Start(id, cells), [LS_FILE] + more, known)
    ensures var p := ExecSession(pick, Start(id, cells), [LS_FILE] + more, known).proc;
      BothEnds(p, FdsOfRow(p, 1))
  {
    hide ExecSession, SessionFits, Typed, FdsOfRow, BothEnds, Start, LineFits, Executes;
    LsFileParsed(id);
    var lines := [LS_FILE] + more;
    LsFileFits(id, cells, known(|lines|));
    assert lines[0] == LS_FILE && forall i | 1 <= i < |lines| :: lines[i] == more[i - 1];
    assert Start(id, cells).t.pos == 0 by { StartsAtZero(id, cells); }
    assert 1 in LeftOpen(pick, Start(id, cells), lines, known, {});
    OpenBehind(pick, lines, id, cells, known);
  }

  lemma {:induction false} StartsAtZero(id: int, cells: set<(int, int)>)
    ensures Start(id, cells).t.pos == 0 && |Start(id, cells).t.rows| == TOKEN_BUFFSIZE
  {
  }

  /** `handler` reads the same tokens as one redirection. */
  lemma {:induction false} LsFileInHandler()
    ensures Shell.ParseLine(["ls", ">", "f"]) == [Command(["ls"], [Out("f")])]
  {
    var tokens := ["ls", ">", "f"];
    assert tokens[1..] == [">", "f"] && [">", "f"][2..] == [] && tokens[..1] == ["ls"];
    assert Shell.ArgRun(tokens) == 1 by { assert Shell.ArgRun([">", "f"]) == 0; }
    assert Shell.ParseOps([">", "f"]) == [Out("f")] && Shell.AfterOps([">", "f"]) == [];
  }

  // ---- `ls |`, `who` ----

  const LS_BAR := [Simple(["ls"], Plain)]
  const WHO := [Simple(["who"], End)]

  lemma {:induction false} LinesTyped()
    ensures Typed(Plainly(LS_BAR)) && Plainly(LS_BAR).tokens == ["ls", "|"] && Runnable(LS_BAR)
    ensures Typed(Plainly(WHO)) && Plainly(WHO).tokens == ["who"]
  {
    assert LS_BAR[1..] == [] && WHO[1..] == [] && Print([]) == [];
    PlainlyTyped(LS_BAR);
    PlainlyTyped(WHO);
  }

  /** `ls |` is executed and names row 1; `who` is not and passes it. */
  lemma {:induction false} WhoPasses(pick: Allocator, id: int, cells: set<(int, int)>, known: set<int>, ids: set<int>)
    requires Sound(pick)
    ensures var m, l, w := Start(id, cells), Plainly(LS_BAR), Plainly(WHO);
      && LineFits(m, l.tokens) && Executes(m, l, known) && LineNames(m, l, known, {}) == {1}
      && var n := ExecLine(pick, m, l.tokens, known);
         && n.t.pos == 1 && LineFits(n, w.tokens) && !Executes(n, w, ids)
         && ExecLine(pick, n, w.tokens, ids).proc == n.proc
  {
    hide Follows, ParseTokens, Start, Typed, Print, RowEnds;
    var m, l, w := Start(id, cells), Plainly(LS_BAR), Plainly(WHO);
    LinesTyped();
    StartsAtZero(id, cells);
    NewCursor(id, cells);
    PlainFits(NEW_CURSOR, m, l, {}, {});
    FirstExecutes(NEW_CURSOR, m, l, {}, {}, known);
    OneTarget(m, l, known);
    var n := ExecLine(pick, m, l.tokens, known);
    var b := RunFollows(pick, NEW_CURSOR, m, l, known, {}, {});
    var left, named := {} + LineLeaves(m, l, known, {}), LineNames(m, l, known, {});
    SizeFollows(b, n, left, named);
    SizeFollows(NEW_CURSOR, m, {}, {});
    ExecLineRows(pick, m, l.tokens, known);
    PlainFits(b, n, w, left, named);
    FirstWord(b, n, w, left, named);
    var c := PassFollows(pick, b, n, w, ids, left, named);
  }

  lemma {:induction false} SizeFollows(a: State, m: Machine, left: set<nat>, named: set<nat>)
    requires Follows(a, m, left, named)
    ensures |a.table| == |m.t.rows|
  {
  }

  lemma {:induction false} ExecLineRows(pick: Allocator, m: Machine, tokens: seq<string>, known: set<int>)
    requires LineFits(m, tokens)
    ensures |ExecLine(pick, m, tokens, known).t.rows| == |m.t.rows|
  {
  }

  lemma {:induction false} FirstWord(a: State, m: Machine, l: TypedLine, left: set<nat>, named: set<nat>)
    requires Follows(a, m, left, named) && Typed(l) && LineFits(m, l.tokens)
    ensures l.shape.line != [] && ParseTokens(m.t, l.tokens).pos == m.t.pos
    ensures ParseTokens(m.t, l.tokens).rows[m.t.pos] == l.shape.line[0].argv
  {
    LoadTyped(a, m, l, left, named);
  }

  lemma {:induction false} FirstExecutes(a: State, m: Machine, l: TypedLine, left: set<nat>, named: set<nat>, known: set<int>)
    requires Follows(a, m, left, named) && Typed(l) && LineFits(m, l.tokens)
    requires l == Plainly(l.shape.line) && Runnable(l.shape.line)
    ensures Executes(m, l, known)
  {
    hide ParseTokens, Loose, NamedBy, SlotsAgree;
    LoadTyped(a, m, l, left, named);
    TableReads(m.t, l.shape.line);
    StoredAt(ResetFlags(m.t), m.t.pos, l.shape.line, m.t.pos);
  }

  lemma {:induction false} OneTarget(m: Machine, l: TypedLine, known: set<int>)
    requires l.shape == FileLine(LS_BAR, None) && m.t.pos == 0 && LineFits(m, l.tokens) && Executes(m, l, known)
    ensures LineNames(m, l, known, {}) == {1}
  {
    assert Targets(l.shape, 0, 1) == {};
  }

  /** The lines `ls |` and `who`: whatever lines follow, both ends of the pipe for row 1,
      which `who` took, are open. */
  lemma {:induction false} WhoLeaks(pick: Allocator, id: int, cells: set<(int, int)>, more: seq<TypedLine>, known: nat -> set<int>)
    requires Sound(pick) && forall i | 0 <= i < |more| :: Typed(more[i])
    requires SessionFits(pick, Start(id, cells), [Plainly(LS_BAR), Plainly(WHO)] + more, known)
    ensures var p := ExecSession(pick, Start(id, cells), [Plainly(LS_BAR), Plainly(WHO)] + more, known).proc;
      BothEnds(p, FdsOfRow(p, 1))
  {
    hide ExecSession, SessionFits, Typed, FdsOfRow, BothEnds, Start, LineFits, Executes, LineNames, Print, ExecLine;
    LinesTyped();
    var lines := [Plainly(LS_BAR), Plainly(WHO)] + more;
    var ids, later := known(|lines|), known(|lines[1..]|);
    WhoPasses(pick, id, cells, ids, later);
    assert lines[0] == Plainly(LS_BAR) && lines[1] == Plainly(WHO) && forall i | 2 <= i < |lines| :: lines[i] == more[i - 2];
    WhoLeavesOpen(pick, Start(id, cells), lines, known);
    OpenBehind(pick, lines, id, cells, known);
  }

  lemma {:induction false} WhoLeavesOpen(pick: Allocator, m: Machine, lines: seq<TypedLine>, known: nat -> set<int>)
    requires |lines| >= 2 && lines[1] == Plainly(WHO) && SessionFits(pick, m, lines, known)
    requires LineNames(m, lines[0], known(|lines|), {}) == {1}
    requires var n := ExecLine(pick, m, lines[0].tokens, known(|lines|));
      n.t.pos == 1 && LineFits(n, lines[1].tokens) && !Executes(n, lines[1], known(|lines[1..]|))
    ensures 1 in LeftOpen(pick, m, lines, known, {})
  {
    hide ExecLine, LineFits, Executes, LineNames;
    var n, rest := ExecLine(pick, m, lines[0].tokens, known(|lines|)), lines[1..];
    assert rest[0] == lines[1];
    assert 1 in LineLeaves(n, rest[0], known(|rest|), {1});
    assert 1 in LeftOpen(pick, n, rest, known, {1});
  }

  // ---- `ls |1`, `printenv PATH`, `cat` ----

  const LS_ONE := [Simple(["ls"], Numbered(1))]
  const PRINTENV := [Simple(["printenv", "PATH"], End)]
  const CAT := [Simple(["cat"], End)]
  const LINES := [LS_ONE, PRINTENV, CAT]

  lemma {:induction false} Kinds()
    ensures Runnable(LS_ONE) && ForwardLine(LS_ONE) && Common(PRINTENV) && Runnable(CAT) && ForwardLine(CAT)
  {
    assert PlainLine(LS_ONE) && PlainLine(PRINTENV) && PlainLine(CAT);
  }

  lemma {:induction false} TailSession()
    ensures HandlerSession([PRINTENV, CAT]) == ToCommands(CAT)
  {
    hide LineCommands, Common, Runnable, Print, ToCommands;
    Kinds();
    NoCommands(PRINTENV);
    CommandsOf(CAT);
    assert [PRINTENV, CAT][1..] == [CAT] && [CAT][1..] == [];
    assert HandlerSession([CAT]) == LineCommands(CAT) + HandlerSession([]);
    assert HandlerSession([PRINTENV, CAT]) == LineCommands(PRINTENV) + HandlerSession([CAT]);
  }

  lemma {:induction false} LinesEither()
    ensures AllEither(LINES) && Runnable(LS_ONE) && Common(PRINTENV) && Runnable(CAT)
    ensures HandlerSession(LINES) == ToCommands(LS_ONE) + ToCommands(CAT)
  {
    hide LineCommands, Common, Runnable, Print, ToCommands, ForwardLine;
    Kinds();
    TailSession();
    CommandsOf(LS_ONE);
    assert LINES[1..] == [PRINTENV, CAT];
    assert HandlerSession(LINES) == LineCommands(LS_ONE) + HandlerSession([PRINTENV, CAT]);
  }

  lemma {:induction false} ShadowFits(b: State, m: Machine, line: Line, left: set<nat>)
    requires Shadow(b, m, left) && Either(line) && m.t.pos + |line| < 1000 && |m.t.rows| == TOKEN_BUFFSIZE
    requires forall i | 0 <= i < |line| :: Distance(line[i].link) <= 1
    ensures LineFits(m, Print(line))
  {
    PlainlyTyped(line);
    ShadowFollows(b, m, left);
    PlainFits(b, m, Plainly(line), left, PendingSlots(b));
  }

  /** The three lines stay inside the table, and slot 1 is pending at the built-in line. */
  lemma {:induction false} LinesInTable(pick: Allocator, id: int, cells: set<(int, int)>, known: nat -> set<int>)
    requires Sound(pick)
    ensures LinesFit(pick, Start(id, cells), LINES, known)
  {
    hide Shadow, Start, LineFits, Either, Loose;
    LinesEither();
    StartsInStep(id, cells);
    StartsAtZero(id, cells);
    var m0 := Start(id, cells);
    assert Either(LINES[0]) && Either(LINES[1]) && Either(LINES[2]);
    ShadowFits(NEW_CURSOR, m0, LS_ONE, {});
    ShadowRuns(pick, NEW_CURSOR, m0, LS_ONE, known(3), {});
    var m1 := ExecLine(pick, m0, Print(LS_ONE), known(3));
    var b1 := Run(pick, NEW_CURSOR, ToCommands(LS_ONE));
    ShadowPos(b1, m1, {});
    ExecLineRows(pick, m0, Print(LS_ONE), known(3));
    ShadowFits(b1, m1, PRINTENV, {});
    var left := ShadowPasses(pick, b1, m1, PRINTENV, known(2), {});
    var m2, b2 := ExecLine(pick, m1, Print(PRINTENV), known(2)), b1.(count := b1.count + 1);
    ShadowPos(b2, m2, left);
    ExecLineRows(pick, m1, Print(PRINTENV), known(2));
    ShadowFits(b2, m2, CAT, left);
    assert LINES[1..] == [PRINTENV, CAT] && LINES[1..][1..] == [CAT] && [CAT][1..] == [];
    assert LinesFit(pick, ExecLine(pick, m2, Print(CAT), known(1)), [], known);
    assert LinesFit(pick, m2, [CAT], known);
    assert LinesFit(pick, m1, [PRINTENV, CAT], known);
  }

  lemma {:induction false} ShadowPos(b: State, m: Machine, left: set<nat>)
    requires Shadow(b, m, left)
    ensures m.t.pos == b.count
  {
  }

  lemma {:induction false} SlotOnePends(pick: Allocator)
    requires Sound(pick)
    ensures StreamFits(Init(), HandlerSession(LINES)) && PendingAt(pick, Init(), LINES, 1)
  {
    hide Run, Loose, OpenEnds, Init, StreamFits;
    LinesEither();
    FirstFits();
    var a := Init();
    RunAppend(pick, a, ToCommands(LS_ONE), ToCommands(CAT));
    InitLoose();
    LineForward(LS_ONE);
    HandlerReads(LS_ONE);
    var b := Run(pick, a, ToCommands(LS_ONE));
    OneSlot(pick);
    assert LINES[1..] == [PRINTENV, CAT];
    TailSession();
    RunAppend(pick, b, LineCommands(PRINTENV), HandlerSession([PRINTENV, CAT][1..]));
    assert PendingAt(pick, b, LINES[1..], 1);
  }

  lemma {:induction false} FirstFits()
    ensures StreamFits(Init(), ToCommands(LS_ONE) + ToCommands(CAT))
  {
    var cmds := ToCommands(LS_ONE) + ToCommands(CAT);
    assert cmds[0] == ToCommand(LS_ONE[0]) && cmds[1] == ToCommand(CAT[0]);
  }

  lemma {:induction false} OneSlot(pick: Allocator)
    requires Sound(pick)
    ensures StreamFits(Init(), ToCommands(LS_ONE))
    ensures var b := Run(pick, Init(), ToCommands(LS_ONE)); b.count == 1 && |b.table| == PIPE_NUMBER && b.table[1] != EMPTY
  {
    hide Loose, Step;
    var a, c := Init(), ToCommand(LS_ONE[0]);
    InitLoose();
    assert ToCommands(LS_ONE) == [c] && [c][1..] == [];
    assert Fits(a, c.ops) && NamedBy(a, {});
    StepNamed(pick, a, LS_ONE[0], {}, {});
    var t := Step(pick, a, c);
    assert Run(pick, t, []) == t;
    assert 1 in {} + OpenRows.Target(0, LS_ONE[0].link);
    assert t.table[1] != EMPTY;
  }

  /** `handler` gives `cat` the pipe of `ls`; in the table `printenv` took its row. */
  lemma {:induction false} PrintenvParts(pick: Allocator, id: int, cells: set<(int, int)>, known: nat -> set<int>)
    requires Sound(pick)
    ensures AllEither(LINES) && StreamFits(Init(), HandlerSession(LINES)) && LinesFit(pick, Start(id, cells), LINES, known)
    ensures PartedAt(Run(pick, Init(), HandlerSession(LINES)).proc, ExecLines(pick, Start(id, cells), LINES, known).proc, 1)
  {
    hide Run, ExecLines, LinesFit, PendingAt, StreamFits, PartedAt, Start, Init;
    LinesEither();
    LinesInTable(pick, id, cells, known);
    SlotOnePends(pick);
    assert |HandlerSession(LINES)| == 2;
    BuiltinParts(pick, LINES, id, cells, known, 1);
  }
}
