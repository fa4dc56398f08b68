/** Which descriptors the table's executor leaves open behind its position. The position
    moves past the row of a `> file` name, and past all rows of a built-in or refused line,
    without executing them; a pipe that an executed jump opened for such a row stays open. */
module OpenRows {
  import opened Text
  import opened Kernel
  import opened NumberedPipes
  import opened PipeInvariant
  import opened PipeTheorems
  import opened CommandTable
  import opened PlainLines
  import opened TwoShells
  import opened RedirectLines

  // ---- The cursor machine with abandoned slots behind the cursor ----

  predicate Full(slot: Slot) {
    Whole(slot) && slot != EMPTY
  }

  /** As between commands, except that the slots in `left`, all behind the cursor, still
      hold their pair. */
  ghost predicate Loose(a: State, left: set<nat>) {
    && a.count <= |a.table| && Books(a) && Waiting(a, a.count)
    && (forall k | 0 <= k < a.count :: if k in left then Full(a.table[k]) else a.table[k] == EMPTY)
    && (forall k | a.count <= k < |a.table| :: Whole(a.table[k]))
    && forall k | k in left :: k < a.count
  }

  /** The slots from the cursor on that hold a pipe. */
  ghost predicate NamedBy(a: State, named: set<nat>) {
    forall k: nat | a.count <= k < |a.table| :: a.table[k] != EMPTY <==> k in named
  }

  lemma {:induction false} BeginMidway(a: State, left: set<nat>)
    requires Loose(a, left) && a.count < |a.table|
    ensures Midway(Begin(a))
    ensures forall k | 0 <= k < |a.table| && k != a.count :: Begin(a).table[k] == a.table[k]
  {
    hide Recorded, Owned, Ledger, OpenEnds, OncePerSlot;
    assert Whole(a.table[a.count]);
    if a.table[a.count].read != 0 { ShutWriteBooks(a); }
  }

  lemma {:induction false} ApplyMidway(pick: Allocator, s: State, w: Wiring, ops: seq<Op>)
    requires Sound(pick) && Midway(s) && Fits(s, ops) && Forward(Command([], ops))
    ensures var t := Apply(pick, s, w, ops).0;
      Midway(t) && forall k | 0 <= k <= s.count :: t.table[k] == s.table[k]
    decreases |ops|
  {
    hide Midway, Reserve;
    if ops != [] {
      assert OpFits(s, ops[0]);
      ReserveTable(pick, s, ops[0]);
      assert forall i | 0 <= i < |ops[1..]| :: ops[1..][i] == ops[i + 1];
      var t := Reserve(pick, s, ops[0]);
      assert forall i | 0 <= i < |ops[1..]| :: OpFits(s, ops[i + 1]) ==> OpFits(t, ops[1..][i]);
      ApplyMidway(pick, t, Wire(t, w, ops[0]), ops[1..]);
    }
  }

  lemma {:induction false} StepLoose(pick: Allocator, a: State, c: Command, left: set<nat>)
    requires Sound(pick) && Loose(a, left) && Fits(a, c.ops) && Forward(c)
    ensures Loose(Step(pick, a, c), left)
  {
    hide Books, Waiting, Apply, Begin;
    BeginMidway(a, left);
    var b, w := Begin(a), FirstWiring(a, c.ops);
    BeginCount(a);
    assert forall i | 0 <= i < |c.ops| :: OpFits(a, c.ops[i]) ==> OpFits(b, c.ops[i]);
    ApplyMidway(pick, b, w, c.ops);
    var (m, v) := Apply(pick, b, w, c.ops);
    FinishTable(m, v, c.argv);
  }

  lemma {:induction false} BeginCount(a: State)
    requires a.count < |a.table|
    ensures Begin(a).count == a.count && |Begin(a).table| == |a.table|
  {
  }

  /** The slot that a jump names. */
  function Target(at: nat, link: Link): set<nat> {
    if link.End? then {} else {at + Distance(link)}
  }

  lemma {:induction false} StepNamed(pick: Allocator, a: State, c: Simple, left: set<nat>, named: set<nat>)
    requires Sound(pick) && Loose(a, left) && NamedBy(a, named)
    requires Fits(a, ToCommand(c).ops) && c.link != Numbered(0)
    ensures NamedBy(Step(pick, a, ToCommand(c)), named + Target(a.count, c.link))
  {
    hide Books, Waiting, Begin, Apply, Midway, Loose, Finish, Reserve, Whole;
    var cmd := ToCommand(c);
    BeginMidway(a, left);
    BeginCount(a);
    var b, w := Begin(a), FirstWiring(a, cmd.ops);
    assert forall i | 0 <= i < |cmd.ops| :: OpFits(a, cmd.ops[i]) ==> OpFits(b, cmd.ops[i]);
    ApplyOne(pick, b, w, c.link);
    ApplyMidway(pick, b, w, cmd.ops);
    var (m, v) := Apply(pick, b, w, cmd.ops);
    FinishTable(m, v, cmd.argv);
    if !c.link.End? { ReservedSlot(pick, b, Distance(c.link)); }
  }

  lemma {:induction false} ReservedSlot(pick: Allocator, s: State, n: nat)
    requires Sound(pick) && Midway(s) && 1 <= n && OpFits(s, Bar(n))
    ensures var t := Reserve(pick, s, Bar(n));
      t.table[s.count + n] != EMPTY && forall k | 0 <= k < |s.table| && k != s.count + n :: t.table[k] == s.table[k]
  {
    hide Books, Waiting, Whole;
    ReserveTable(pick, s, Bar(n));
  }

  /** Moving past r slots: those that hold a pipe keep it. */
  lemma {:induction false} SkipLoose(a: State, left: set<nat>, named: set<nat>, r: nat)
    requires Loose(a, left) && NamedBy(a, named) && a.count + r <= |a.table|
    ensures Loose(a.(count := a.count + r), left + Passed(named, a.count, a.count + r))
    ensures NamedBy(a.(count := a.count + r), named)
  {
    var b := a.(count := a.count + r);
    assert forall k, fd, w :: Holds(b, fd, k, w) <==> Holds(a, fd, k, w);
    assert Books(b);
  }

  function Passed(named: set<nat>, lo: nat, hi: nat): set<nat> {
    set k | k in named && lo <= k < hi
  }

  // ---- One row, whatever the flags ----

  predicate SameButChildren(p: Proc, q: Proc) {
    p == q.(children := p.children)
  }

  function Unflagged(t: Table): Table {
    t.(flags := NO_FLAGS)
  }

  /** The flags of a line change the children's streams and the cells only. */
  lemma {:induction false} RowBlind(pick: Allocator, m: Machine, n: Machine, i: nat, total: nat)
    requires i < total && RowFits(m.t, i, total) && n.t == Unflagged(m.t) && SameButChildren(m.proc, n.proc)
    ensures RowFits(n.t, i, total)
    ensures var e, r := ExecRow(pick, m, i, total), ExecRow(pick, n, i, total);
      e.t == r.t.(flags := m.t.flags) && SameButChildren(e.proc, r.proc)
  {
    hide TakeInput, MakeOutput, ForkRow, Release;
    BlindInput(m, n, i, total);
    BlindOutput(pick, TakeInput(m, i), TakeInput(n, i), i, total);
    var m1, n1 := MakeOutput(pick, TakeInput(m, i), i, total), MakeOutput(pick, TakeInput(n, i), i, total);
    BlindFork(m1, n1, i, total);
    BlindRelease(ForkRow(m1, i, total), ForkRow(n1, i, total), i, total);
  }

  lemma {:induction false} BlindInput(m: Machine, n: Machine, i: nat, total: nat)
    requires i < total && RowFits(m.t, i, total) && n.t == Unflagged(m.t) && SameButChildren(m.proc, n.proc)
    ensures RowFits(n.t, i, total) && TakeInput(m, i).t == m.t && TakeInput(n, i).t == n.t
    ensures SameButChildren(TakeInput(m, i).proc, TakeInput(n, i).proc)
  {
  }

  lemma {:induction false} BlindOutput(pick: Allocator, m: Machine, n: Machine, i: nat, total: nat)
    requires i < total && RowFits(m.t, i, total) && RowFits(n.t, i, total)
    requires n.t == Unflagged(m.t) && SameButChildren(m.proc, n.proc)
    ensures var m1, n1 := MakeOutput(pick, m, i, total), MakeOutput(pick, n, i, total);
      && n1.t == Unflagged(m1.t) && m1.t.flags == m.t.flags && SameButChildren(m1.proc, n1.proc)
      && RowFits(m1.t, i, total) && RowFits(n1.t, i, total)
  {
  }

  lemma {:induction false} BlindFork(m: Machine, n: Machine, i: nat, total: nat)
    requires i < total && RowFits(m.t, i, total) && RowFits(n.t, i, total)
    requires n.t == Unflagged(m.t) && SameButChildren(m.proc, n.proc)
    ensures var e, r := ForkRow(m, i, total), ForkRow(n, i, total);
      e.t == m.t && r.t == n.t && SameButChildren(e.proc, r.proc)
  {
  }

  lemma {:induction false} BlindRelease(m: Machine, n: Machine, i: nat, total: nat)
    requires i < total && RowFits(m.t, i, total) && RowFits(n.t, i, total)
    requires n.t == Unflagged(m.t) && SameButChildren(m.proc, n.proc)
    ensures var e, r := Release(m, i, total), Release(n, i, total);
      e.t == r.t.(flags := m.t.flags) && SameButChildren(e.proc, r.proc)
  {
    var pipes := m.t.pipeN[..m.t.pos + i + 1];
    assert pipes[m.t.pos + i] == m.t.pipeN[m.t.pos + i];
  }

  // ---- Rows and lines ----

  /** The cursor machine and the executor are about to run row i of the line. */
  ghost predicate At(a: State, m: Machine, l: FileLine, i: nat, left: set<nat>, named: set<nat>)
    requires l.line != []
  {
    && Sized(m.t) && |a.table| == |m.t.rows| && Mid(a, Machine(Unflagged(m.t), a.proc, m.cells), Body(l), i)
    && SameButChildren(m.proc, a.proc) && Loose(a, left) && NamedBy(a, named)
    && (m.t.flags.redirect <==> l.file.Some?)
  }

  lemma {:induction false} BodyPlain(l: FileLine)
    requires Acceptable(l)
    ensures l.line != [] && PlainLine(l.line) && PlainLine(Body(l)) && ForwardLine(Body(l))
    ensures forall i | 0 <= i < |l.line| :: Body(l)[i].argv == l.line[i].argv
    ensures l.file.Some? ==> Body(l)[|l.line| - 1].link == Plain
  {
    assert forall i | 0 <= i < |l.line| :: Body(l)[i].argv == l.line[i].argv;
  }

  lemma {:induction false} RowInReach(a: State, m: Machine, l: FileLine, i: nat, left: set<nat>, named: set<nat>)
    requires Acceptable(l) && l.line != [] && At(a, m, l, i, left, named) && i < |l.line| && RowFits(m.t, i, |l.line|)
    ensures Fits(a, ToCommand(Body(l)[i]).ops) && Forward(ToCommand(Body(l)[i]))
  {
    hide Loose, PlainLine, SlotsAgree;
    BodyPlain(l);
    assert m.t.pipeN[m.t.pos + i] == Distance(Body(l)[i].link);
    assert Body(l)[i].link != Numbered(0);
  }

  lemma {:induction false} RowFollows(pick: Allocator, a: State, m: Machine, l: FileLine, i: nat, left: set<nat>, named: set<nat>)
    requires Sound(pick) && Acceptable(l) && l.line != [] && At(a, m, l, i, left, named)
    requires i < |l.line| && RowFits(m.t, i, |l.line|)
    ensures Fits(a, ToCommand(Body(l)[i]).ops)
    ensures At(Step(pick, a, ToCommand(Body(l)[i])), ExecRow(pick, m, i, |l.line|), l, i + 1, left,
               named + Target(a.count, Body(l)[i].link))
  {
    hide Loose, NamedBy, PlainLine, SlotsAgree, Loaded, Step, RowFits, ExecRow, Fits;
    var c, n := Body(l)[i], Machine(Unflagged(m.t), a.proc, m.cells);
    BodyPlain(l);
    RowInReach(a, m, l, i, left, named);
    RowBlind(pick, m, n, i, |l.line|);
    RowAgrees(pick, a, n, Body(l), i);
    StepLoose(pick, a, ToCommand(c), left);
    StepNamed(pick, a, c, left, named);
  }

  /** The slots that rows i, i+1, ... name, for a line that starts at row `pos`. */
  function Targets(l: FileLine, pos: nat, i: nat): set<nat>
    requires l.line != []
    decreases |l.line| - i
  {
    if i >= |l.line| then {} else Target(pos + i, Body(l)[i].link) + Targets(l, pos, i + 1)
  }

  lemma {:induction false} FileRowNamed(l: FileLine, pos: nat, i: nat)
    requires l.line != [] && l.file.Some? && i < |l.line|
    ensures pos + |l.line| in Targets(l, pos, i)
    decreases |l.line| - i
  {
    if i + 1 < |l.line| { FileRowNamed(l, pos, i + 1); }
  }

  lemma {:induction false} RowsFollow(pick: Allocator, a: State, m: Machine, l: FileLine, i: nat, left: set<nat>, named: set<nat>)
    returns (b: State)
    requires Sound(pick) && Acceptable(l) && l.line != [] && At(a, m, l, i, left, named)
    requires i <= |l.line| && RowsFit(m.t, i, |l.line|)
    ensures At(b, ExecRows(pick, m, i, |l.line|), l, |l.line|, left, named + Targets(l, m.t.pos, i))
    decreases |l.line| - i
  {
    hide At, Step, ExecRow, RowFits, Acceptable;
    var total := |l.line|;
    if i == total {
      b := a;
      assert named + {} == named;
    } else {
      assert RowFits(m.t, i, total);
      CountAt(a, m, l, i, left, named);
      RowFollows(pick, a, m, l, i, left, named);
      RowsFitTail(pick, m, i, total);
      var more := named + Target(a.count, Body(l)[i].link);
      b := RowsFollow(pick, Step(pick, a, ToCommand(Body(l)[i])), ExecRow(pick, m, i, total), l, i + 1, left, more);
      assert more + Targets(l, m.t.pos, i + 1) == named + Targets(l, m.t.pos, i);
    }
  }

  lemma {:induction false} CountAt(a: State, m: Machine, l: FileLine, i: nat, left: set<nat>, named: set<nat>)
    requires l.line != [] && At(a, m, l, i, left, named)
    ensures a.count == m.t.pos + i
  {
  }

  // ---- Loading a typed line ----

  /** The cursor machine goes with the executor between lines. */
  ghost predicate Follows(a: State, m: Machine, left: set<nat>, named: set<nat>) {
    && Rel(a, Machine(m.t, a.proc, m.cells)) && SameButChildren(m.proc, a.proc)
    && |a.table| == |m.t.rows| && Loose(a, left) && NamedBy(a, named)
  }

  /** The table that the parser leaves, but for the user pipes. */
  function Parsed(t: Table, l: FileLine): Table
    requires Sized(t) && l.line != [] && t.pos + Rows(l) <= |t.rows|
  {
    var s := Store(ResetFlags(t), t.pos, l.line);
    (if l.file.Some? then WithFile(s, t.pos + |l.line| - 1, l.file.value) else s).(num := Rows(l))
  }

  lemma {:induction false} TypedParses(t: Table, l: TypedLine)
    requires Sized(t) && Typed(l) && l.shape.line != [] && t.pos + RowEnds(l.tokens) < |t.rows|
    ensures t.pos + Rows(l.shape) <= |t.rows|
    ensures SameRows(Parsed(t, l.shape), ParseTokens(t, l.tokens))
  {
    hide Store, ParseFrom, RowEnds, Print, Strip;
    var shape := l.shape;
    StripRowEnds(l.tokens);
    RowEndsOfLine(shape.line);
    if shape.file.Some? {
      RowEndsThen(shape.line, [">", shape.file.value]);
      FileRowEnds(shape.file.value);
      TableReadsFile(t, shape);
    } else {
      assert PrintFile(shape) == Print(shape.line);
      TableReads(t, shape.line);
    }
    StripParses(ResetFlags(t), ResetFlags(t), Cursor(0, 0), l.tokens);
  }

  /** What the parser stored for a line. */
  ghost predicate Holding(t: Table, l: FileLine)
    requires l.line != []
  {
    && Sized(t) && t.pos + Rows(l) <= |t.rows| && t.num == Rows(l) && (t.flags.redirect <==> l.file.Some?)
    && Loaded(t, Body(l), 0) && (forall k | t.pos + |l.line| <= k < |t.pipeN| :: t.pipeN[k] == 0)
  }

  lemma {:induction false} ParsedHolds(t: Table, l: FileLine)
    requires Sized(t) && Acceptable(l) && l.line != [] && t.pos + Rows(l) <= |t.rows|
    requires forall k | t.pos <= k < |t.pipeN| :: t.pipeN[k] == 0
    ensures Holding(Parsed(t, l), l) && Parsed(t, l).slots == t.slots && Parsed(t, l).pos == t.pos
  {
    hide Store, PlainLine, Body, Parsed;
    BodyPlain(l);
    var u := Parsed(t, l);
    ParsedShape(t, l);
    forall j | 0 <= j < |l.line|
      ensures u.pos + j < |u.rows| && u.rows[u.pos + j] == Body(l)[j].argv && u.pipeN[u.pos + j] == Distance(Body(l)[j].link)
    {
      ParsedRow(t, l, t.pos + j);
    }
    forall k | u.pos + |l.line| <= k < |u.pipeN|
      ensures u.pipeN[k] == 0
    {
      ParsedRow(t, l, k);
    }
  }

  lemma {:induction false} ParsedShape(t: Table, l: FileLine)
    requires Sized(t) && l.line != [] && t.pos + Rows(l) <= |t.rows|
    ensures var u := Parsed(t, l);
      && Sized(u) && |u.rows| == |t.rows| && u.pos == t.pos && u.slots == t.slots && u.num == Rows(l)
      && (u.flags.redirect <==> l.file.Some?)
  {
    hide Store;
    StoredAt(ResetFlags(t), t.pos, l.line, t.pos);
  }

  lemma {:induction false} ParsedRow(t: Table, l: FileLine, k: nat)
    requires Sized(t) && Acceptable(l) && l.line != [] && t.pos + Rows(l) <= |t.rows| && k < |t.rows|
    requires forall j | t.pos <= j < |t.pipeN| :: t.pipeN[j] == 0
    ensures var u := Parsed(t, l);
      && Sized(u) && |u.rows| == |t.rows|
      && if t.pos <= k < t.pos + |l.line| then
           u.rows[k] == l.line[k - t.pos].argv && u.pipeN[k] == Distance(Body(l)[k - t.pos].link)
         else u.pipeN[k] == t.pipeN[k]
  {
    hide Store, PlainLine;
    StoredAt(ResetFlags(t), t.pos, l.line, k);
  }

  lemma {:induction false} LoadTyped(a: State, m: Machine, l: TypedLine, left: set<nat>, named: set<nat>)
    requires Follows(a, m, left, named) && Typed(l) && m.t.pos + RowEnds(l.tokens) < |m.t.rows|
    ensures var t := ParseTokens(m.t, l.tokens);
      && l.shape.line != [] && Holding(t, l.shape) && t.slots == m.t.slots && t.pos == m.t.pos
      && At(a, m.(t := t), l.shape, 0, left, named) && t.rows[t.pos] == l.shape.line[0].argv
  {
    hide Store, ParseTokens, Loose, NamedBy, PlainLine, SlotsAgree, RowEnds;
    BodyPlain(l.shape);
    TypedParses(m.t, l);
    ParsedHolds(m.t, l.shape);
    var t, u := ParseTokens(m.t, l.tokens), Parsed(m.t, l.shape);
    assert t.rows == u.rows && t.pipeN == u.pipeN;
    assert t.rows[t.pos + 0] == Body(l.shape)[0].argv;
    SameSlots(a, m.t, Unflagged(t));
  }

  // ---- One line ----

  /** The line is neither a built-in command nor refused. */
  predicate Executes(m: Machine, l: TypedLine, known: set<int>)
    requires LineFits(m, l.tokens)
  {
    var n := m.(t := ParseTokens(m.t, l.tokens));
    n.t.rows[n.t.pos][0] !in BUILTINS && !Refused(n, known)
  }

  /** What the line leaves open: the pipe of its file name's row, or, when it is not
      executed, the pipes that wait for any of its rows. */
  function LineLeaves(m: Machine, l: TypedLine, known: set<int>, named: set<nat>): set<nat>
    requires LineFits(m, l.tokens)
  {
    var pos, n := m.t.pos, |l.shape.line|;
    if !Executes(m, l, known) then Passed(named, pos, pos + Rows(l.shape))
    else if l.shape.file.Some? then {pos + n}
    else {}
  }

  /** The rows named so far. */
  function LineNames(m: Machine, l: TypedLine, known: set<int>, named: set<nat>): set<nat>
    requires LineFits(m, l.tokens)
  {
    if l.shape.line != [] && Executes(m, l, known) then named + Targets(l.shape, m.t.pos, 0) else named
  }

  /** An executed line. */
  lemma {:induction false} RunFollows(pick: Allocator, a: State, m: Machine, l: TypedLine, known: set<int>, left: set<nat>, named: set<nat>)
    returns (b: State)
    requires Sound(pick) && Follows(a, m, left, named) && Typed(l) && LineFits(m, l.tokens) && Executes(m, l, known)
    ensures var n := ExecLine(pick, m, l.tokens, known);
      && n.t.pos == m.t.pos + Rows(l.shape)
      && Follows(b, n, left + LineLeaves(m, l, known, named), LineNames(m, l, known, named))
  {
    hide ParseTokens, ExecRow, RowFits, Loose, NamedBy, SlotsAgree, RowEnds, Acceptable, Strip, Placed;
    BodyPlain(l.shape);
    LoadTyped(a, m, l, left, named);
    var t := ParseTokens(m.t, l.tokens);
    var n, total := m.(t := t), |l.shape.line|;
    b := RowsFollow(pick, a, n, l.shape, 0, left, named);
    var e, more := ExecRows(pick, n, 0, total), named + Targets(l.shape, t.pos, 0);
    assert Total(t) == total && Exec(pick, n, known) == e;
    forall k | t.pos + total <= k < |t.rows|
      ensures e.t.pipeN[k] == 0
    {
      ExecRowsPipeN(pick, n, 0, total, k);
    }
    SameSlots(b, Unflagged(e.t), e.t);
    var rest := Rows(l.shape) - total;
    SkipLoose(b, left, more, rest);
    SlotsOn(b, e.t, rest);
    assert left + Passed(more, b.count, b.count + rest) == left + LineLeaves(m, l, known, named) by {
      if l.shape.file.Some? { FileRowNamed(l.shape, t.pos, 0); }
    }
    b := b.(count := b.count + rest);
    SameSlots(b, e.t, e.t.(pos := e.t.pos + e.t.num));
  }

  lemma {:induction false} SlotsOn(a: State, t: Table, r: nat)
    requires SlotsAgree(a, t)
    ensures SlotsAgree(a.(count := a.count + r), t)
  {
  }

  /** A built-in or refused line. */
  lemma {:induction false} PassFollows(pick: Allocator, a: State, m: Machine, l: TypedLine, known: set<int>, left: set<nat>, named: set<nat>)
    returns (b: State)
    requires Sound(pick) && Follows(a, m, left, named) && Typed(l) && LineFits(m, l.tokens) && !Executes(m, l, known)
    ensures var n := ExecLine(pick, m, l.tokens, known);
      && n.t.pos == m.t.pos + Rows(l.shape) && n.proc == m.proc
      && Follows(b, n, left + LineLeaves(m, l, known, named), LineNames(m, l, known, named))
      && b == a.(count := a.count + Rows(l.shape))
  {
    hide ParseTokens, Loose, NamedBy, SlotsAgree, RowEnds, Acceptable, Strip, Placed;
    BodyPlain(l.shape);
    LoadTyped(a, m, l, left, named);
    var t, r := ParseTokens(m.t, l.tokens), Rows(l.shape);
    SkipLoose(a, left, named, r);
    SlotsOn(a, m.t, r);
    b := a.(count := a.count + r);
    SameSlots(b, m.t, t.(pos := t.pos + t.num));
  }

  // ---- Sessions ----

  /** All lines stay inside the table. */
  predicate SessionFits(pick: Allocator, m: Machine, lines: seq<TypedLine>, known: nat -> set<int>)
    decreases |lines|
  {
    lines == [] ||
    (LineFits(m, lines[0].tokens) &&
     SessionFits(pick, ExecLine(pick, m, lines[0].tokens, known(|lines|)), lines[1..], known))
  }

  function ExecSession(pick: Allocator, m: Machine, lines: seq<TypedLine>, known: nat -> set<int>): Machine
    requires SessionFits(pick, m, lines, known)
    decreases |lines|
  {
    if lines == [] then m
    else ExecSession(pick, ExecLine(pick, m, lines[0].tokens, known(|lines|)), lines[1..], known)
  }

  /** The rows of file names of executed lines, and the rows of built-in and refused lines
      that an executed jump had named before. */
  function LeftOpen(pick: Allocator, m: Machine, lines: seq<TypedLine>, known: nat -> set<int>, named: set<nat>): set<nat>
    requires SessionFits(pick, m, lines, known)
    decreases |lines|
  {
    if lines == [] then {}
    else
      var ids := known(|lines|);
      LineLeaves(m, lines[0], ids, named) +
      LeftOpen(pick, ExecLine(pick, m, lines[0].tokens, ids), lines[1..], known, LineNames(m, lines[0], ids, named))
  }

  lemma {:induction false} LinesFollow(pick: Allocator, a: State, m: Machine, lines: seq<TypedLine>,
                                       known: nat -> set<int>, left: set<nat>, named: set<nat>)
    returns (b: State, names: set<nat>)
    requires Sound(pick) && Follows(a, m, left, named)
    requires (forall i | 0 <= i < |lines| :: Typed(lines[i])) && SessionFits(pick, m, lines, known)
    ensures Follows(b, ExecSession(pick, m, lines, known), left + LeftOpen(pick, m, lines, known, named), names)
    decreases |lines|
  {
    hide Follows, Typed, LineFits, ExecLine, LineLeaves, LineNames;
    if lines == [] {
      b, names := a, named;
      assert left + {} == left;
    } else {
      var l, rest, ids := lines[0], lines[1..], known(|lines|);
      if Executes(m, l, ids) {
        b := RunFollows(pick, a, m, l, ids, left, named);
      } else {
        b := PassFollows(pick, a, m, l, ids, left, named);
      }
      var n, now, more := ExecLine(pick, m, l.tokens, ids), LineLeaves(m, l, ids, named), LineNames(m, l, ids, named);
      assert forall i | 0 <= i < |rest| :: rest[i] == lines[i + 1];
      b, names := LinesFollow(pick, b, n, rest, known, left + now, more);
      assert left + now + LeftOpen(pick, n, rest, known, more) == left + (now + LeftOpen(pick, n, rest, known, more));
    }
  }

  /** The open descriptors of the pipes made for row k. */
  function FdsOfRow(p: Proc, k: nat): set<int> {
    set fd | fd in p.fds && p.fds[fd].pipe < |p.pipes| && p.pipes[p.fds[fd].pipe] == k
  }

  /** Exactly both ends of one pipe. */
  ghost predicate BothEnds(p: Proc, fds: set<int>) {
    exists r, w | r in p.fds && w in p.fds :: fds == {r, w} && p.fds[r].ReadEnd? && p.fds[w] == WriteEnd(p.fds[r].pipe)
  }

  lemma {:induction false} LooseRow(a: State, left: set<nat>, k: nat)
    requires Loose(a, left) && k < a.count
    ensures if k in left then BothEnds(a.proc, FdsOfRow(a.proc, k)) else FdsOfRow(a.proc, k) == {}
  {
    var p, slot := a.proc, a.table[k];
    forall fd | fd in FdsOfRow(p, k)
      ensures fd != 0 && fd in {slot.read, slot.write}
    {
    }
    if k in left {
      assert Holds(a, slot.read, k, true) && Holds(a, slot.write, k, false);
      assert p.fds[slot.read].pipe == p.fds[slot.write].pipe;
      assert FdsOfRow(p, k) == {slot.read, slot.write};
    }
  }

  lemma {:induction false} SameFdsOfRow(p: Proc, q: Proc, k: nat)
    requires SameButChildren(p, q)
    ensures FdsOfRow(p, k) == FdsOfRow(q, k)
    ensures forall fds :: BothEnds(p, fds) <==> BothEnds(q, fds)
  {
  }

  const NEW_CURSOR := State(seq(PROCESS_NUM, _ => EMPTY), 0, NEW_PROC)

  function Start(id: int, cells: set<(int, int)>): Machine {
    Machine(InitTable(id), NEW_PROC, cells)
  }

  lemma {:induction false} NewCursor(id: int, cells: set<(int, int)>)
    ensures Follows(NEW_CURSOR, Start(id, cells), {}, {})
  {
    hide OpenEnds;
    OpenEndsEmpty(PROCESS_NUM);
  }

  /** After every session of lines of commands, `|` and `|N` with N at least 1, with or
      without a final `> file` and user pipes, built-in and refused lines included: behind
      the position exactly the rows of `LeftOpen` have open descriptors, each both ends of
      its pipe. So none are open exactly when no executed line had a `> file` and no row of
      a built-in or refused line had been named by an executed jump. */
  lemma {:induction false} OpenBehind(pick: Allocator, lines: seq<TypedLine>, id: int, cells: set<(int, int)>, known: nat -> set<int>)
    requires Sound(pick) && (forall i | 0 <= i < |lines| :: Typed(lines[i]))
    requires SessionFits(pick, Start(id, cells), lines, known)
    ensures var m, left := ExecSession(pick, Start(id, cells), lines, known), LeftOpen(pick, Start(id, cells), lines, known, {});
      && (forall k: nat | k in left :: k < m.t.pos)
      && (forall k: nat | k < m.t.pos ::
            if k in left then BothEnds(m.proc, FdsOfRow(m.proc, k)) else FdsOfRow(m.proc, k) == {})
      && ((forall k: nat | k < m.t.pos :: FdsOfRow(m.proc, k) == {}) <==> left == {})
  {
    hide ExecSession, SessionFits, Typed, FdsOfRow, BothEnds, LeftOpen, SlotsAgree, Start;
    NewCursor(id, cells);
    var b, names := LinesFollow(pick, NEW_CURSOR, Start(id, cells), lines, known, {}, {});
    var m, left := ExecSession(pick, Start(id, cells), lines, known), LeftOpen(pick, Start(id, cells), lines, known, {});
    assert {} + left == left;
    forall k: nat | k < m.t.pos
      ensures if k in left then BothEnds(m.proc, FdsOfRow(m.proc, k)) else FdsOfRow(m.proc, k) == {}
    {
      LooseRow(b, left, k);
      SameFdsOfRow(m.proc, b.proc, k);
    }
    forall fds | BothEnds(m.proc, fds)
      ensures fds != {}
    {
      SomeEnd(m.proc, fds);
    }
  }

  lemma {:induction false} SomeEnd(p: Proc, fds: set<int>)
    requires BothEnds(p, fds)
    ensures fds != {}
  {
    var r, w :| r in p.fds && w in p.fds && fds == {r, w};
    assert r in fds;
  }

  /** `handler` leaves nothing open behind its cursor, with `>` as without. */
  lemma {:induction false} HandlerLeaksNothing(pick: Allocator, cmds: seq<Command>)
    requires Sound(pick) && AllForward(cmds) && StreamFits(Init(), cmds)
    ensures forall k: nat | k < |cmds| :: FdsOfRow(Run(pick, Init(), cmds).proc, k) == {}
  {
    hide Run, FdsOfRow, Books, Waiting, Made, ChildrenOk, Init;
    InitOk();
    RunOk(pick, Init(), [], cmds);
    assert [] + cmds == cmds;
    forall k: nat | k < |cmds|
      ensures FdsOfRow(Run(pick, Init(), cmds).proc, k) == {}
    {
      LooseRow(Run(pick, Init(), cmds), {}, k);
    }
  }
}
