/** The registry's step for a command is what the executor does with the typed line, when
    the ids it asks about are those that the registry has. */
module RegistryLink {
  import opened Text
  import opened Kernel
  import opened NumberedPipes
  import opened CommandTable
  import opened PlainLines
  import opened RedirectLines
  import opened OpenRows
  import opened TypedPipes
  import ProtocolLink
  import R = Registry

  /** The ids that some slot carries. */
  function Known(s: R.State): set<int>
    requires |s.info| == R.MAX_CLIENTS + 1
  {
    set i | 1 <= i <= R.MAX_CLIENTS :: s.info[i].id
  }

  function AsInt(n: Option<nat>): Option<int> {
    match n
    case Some(k) => Some(k)
    case None => None
  }

  /** One command with words, user pipes and nothing else. */
  predicate OneCommand(l: Spoken) {
    Speakable(l) && |l.shape.line| == 1 && l.shape.line[0].link.End? && l.shape.file.None? &&
    l.shape.line[0].argv[0] !in SERVER_COMMANDS
  }

  lemma {:induction false} NoJump(m: Machine, l: Spoken)
    requires Ready(m) && OneCommand(l) && m.t.pos + RowEnds(Render(l.pieces)) < |m.t.rows|
    ensures var t := ParseTokens(m.t, Render(l.pieces)); t.pos < |t.pipeN| && t.pipeN[t.pos] == 0 && t.slots == m.t.slots
  {
    hide Store, ParseFrom, RowEnds, Typed, PlainLine, Acceptable, Parsed;
    SpokenIsTyped(l);
    TypedParses(m.t, AsTyped(l));
    ParsedShape(m.t, l.shape);
    ParsedRow(m.t, l.shape, m.t.pos);
    SpokenParses(m, l);
    assert Body(l.shape)[0].link == l.shape.line[0].link;
  }

  /** On a row without a numbered pipe the executor changes the matrix as the registry does. */
  lemma {:induction false} CommandIsLine(pick: Allocator, m: Machine, l: Spoken, s: R.State, pid: int)
    requires R.Inv(s) && R.Enabled(s, R.Command(pid, AsInt(Taken(l.pieces)), AsInt(Given(l.pieces))))
    requires Ready(m) && OneCommand(l) && LineFits(m, Render(l.pieces))
    requires m.t.selfId == R.SelfId(s, pid) && m.cells == s.cells && m.t.slots[m.t.pos].read == 0
    ensures ExecLine(pick, m, Render(l.pieces), Known(s)).cells ==
            R.Next(s, R.Command(pid, AsInt(Taken(l.pieces)), AsInt(Given(l.pieces)))).cells
  {
    hide ParseTokens, RowEnds, FifoName, Speakable, Typed, ExecRow, RowFits, Acceptable, R.Inv, R.ById;
    var take, give, id := AsInt(Taken(l.pieces)), AsInt(Given(l.pieces)), R.SelfId(s, pid);
    LinePorts(pick, m, l, Known(s));
    SpokenIsTyped(l);
    BodyPlain(l.shape);
    assert l.shape.line[0].argv != [];
    var t := ParseTokens(m.t, Render(l.pieces));
    var u := m.(t := t);
    SpokenParses(m, l);
    NoJump(m, l);
    AcceptsIff(m, l, Known(s), t);
    R.CommandExactly(s, pid, take, give);
    KnownIff(s);
    assert Accepts(m, l, Known(s)) <==> R.Accepted(s, id, take, give);
    if Accepts(m, l, Known(s)) {
      assert Total(t) == 1;
      OneRow(pick, u);
      forall a: int, b: int
        ensures (a, b) in ExecRows(pick, u, 0, 1).cells <==> (a, b) in R.Next(s, R.Command(pid, take, give)).cells
      {
      }
      SameCells(ExecRows(pick, u, 0, 1).cells, R.Next(s, R.Command(pid, take, give)).cells);
    }
  }

  lemma {:induction false} SameCells(a: set<(int, int)>, b: set<(int, int)>)
    requires forall x: int, y: int :: (x, y) in a <==> (x, y) in b
    ensures a == b
  {
    forall c: (int, int)
      ensures c in a <==> c in b
    {
      var (x, y) := c;
      assert (x, y) in a <==> (x, y) in b;
    }
  }

  lemma {:induction false} KnownIff(s: R.State)
    requires |s.info| == R.MAX_CLIENTS + 1
    ensures forall id: int :: id in Known(s) <==> R.Found(s, id)
  {
  }

  lemma {:induction false} OneRow(pick: Allocator, m: Machine)
    requires RowsFit(m.t, 0, 1) && m.t.pipeN[m.t.pos] == 0 && m.t.slots[m.t.pos].read == 0
    ensures ExecRows(pick, m, 0, 1).cells ==
            (m.cells - {(m.t.fromId, m.t.selfId)}) + (if m.t.flags.send then {(m.t.selfId, m.t.toId)} else {})
  {
    hide ExecRow, RowFits;
    RowsFitTail(pick, m, 0, 1);
    assert RowFits(m.t, 0, 1);
    ProtocolLink.RowCells(pick, m, 0, 1);
    assert ExecRows(pick, m, 0, 1) == ExecRows(pick, ExecRow(pick, m, 0, 1), 1, 1);
  }
}
