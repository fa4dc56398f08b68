/** The interleaved user-pipe protocol is the one the shell executes: run without
    interference, a line of the protocol leaves the matrix as `execute` leaves it. */
module ProtocolLink {
  import opened Text
  import opened Kernel
  import C = CommandTable
  import P = UserPipes

  // ---- A process running alone ----

  /** What the registry answers to the check of the phase. */
  predicate Found(phase: P.Phase, known: set<int>) {
    (phase.AskReceive? && phase.line.receive.Some? ==> phase.line.receive.value in known) &&
    (phase.AskSend? && phase.line.send.Some? ==> phase.line.send.value in known)
  }

  function Alone(s: P.State, p: P.Id, known: set<int>): P.State
    decreases P.Rank(P.PhaseOf(s, p))
  {
    var phase := P.PhaseOf(s, p);
    if phase.Idle? then s
    else
      P.RankFalls(s, p, Found(phase, known));
      Alone(P.Next(s, p, P.Go(Found(phase, known))), p, known)
  }

  // ---- The line that a parsed table stands for ----

  /** For every row, whether a numbered pipe waits for it when it is reached. */
  function Inputs(pick: Allocator, m: C.Machine, i: nat, total: nat): seq<bool>
    requires C.RowsFit(m.t, i, total)
    decreases total - i
  {
    if i >= total then []
    else
      C.RowsFitTail(pick, m, i, total);
      [m.t.slots[m.t.pos + i].read != 0] + Inputs(pick, C.ExecRow(pick, m, i, total), i + 1, total)
  }

  function LineOf(pick: Allocator, m: C.Machine): P.Line
    requires C.ExecFits(m.t) && C.Total(m.t) > 0
  {
    P.Line(if m.t.flags.receive then Some(m.t.fromId) else None,
           if m.t.flags.send then Some(m.t.toId) else None,
           Inputs(pick, m, 0, C.Total(m.t)),
           m.t.pipeN[m.t.pos + C.Total(m.t) - 1] > 0)
  }

  /** The protocol is at row i of the line and the machine is, too. */
  ghost predicate AtRow(pick: Allocator, m: C.Machine, s: P.State, p: P.Id, line: P.Line, i: nat)
  {
    var total := |line.inputs|;
    && i < total && C.RowsFit(m.t, i, total)
    && P.PhaseOf(s, p) == P.Look(line, i)
    && s.cells == m.cells && m.t.selfId == p
    && m.t.fromId == P.From(line, p)
    && line.send == (if m.t.flags.send then Some(m.t.toId) else None)
    && line.inputs[i..] == Inputs(pick, m, i, total)
    && line.jumps == (m.t.pipeN[m.t.pos + total - 1] > 0)
  }

  lemma {:induction false} RowCells(pick: Allocator, m: C.Machine, i: nat, total: nat)
    requires C.RowFits(m.t, i, total)
    ensures var r := C.ExecRow(pick, m, i, total);
      var taken := if m.t.slots[m.t.pos + i].read != 0 then m.cells else m.cells - {(m.t.fromId, m.t.selfId)};
      r.cells == (if i + 1 == total && !(m.t.pipeN[m.t.pos + i] > 0) && m.t.flags.send
                  then taken + {(m.t.selfId, m.t.toId)} else taken)
  {
    hide C.FifoName;
  }

  lemma {:induction false} AloneStep(s: P.State, p: P.Id, known: set<int>)
    requires P.PhaseOf(s, p).Look? || P.PhaseOf(s, p).Lower? || P.PhaseOf(s, p).Fork?
    ensures Alone(s, p, known) == Alone(P.Next(s, p, P.Go(true)), p, known)
  {
    assert Found(P.PhaseOf(s, p), known);
  }

  /** The test and, when the cell is raised, the clearing. */
  lemma {:induction false} AloneLook(s: P.State, p: P.Id, line: P.Line, i: nat, known: set<int>) returns (t: P.State)
    requires P.PhaseOf(s, p) == P.Look(line, i) && i < |line.inputs|
    ensures Alone(s, p, known) == Alone(t, p, known) && P.PhaseOf(t, p) == P.Fork(line, i)
    ensures t.cells == (if line.inputs[i] then s.cells else s.cells - {(P.From(line, p), p)})
  {
    hide P.Next, P.PhaseOf, P.Run, Alone, P.Rank;
    P.GoStep(s, p);
    AloneStep(s, p, known);
    t := P.Next(s, p, P.Go(true));
    if P.PhaseOf(t, p).Lower? {
      P.GoStep(t, p);
      AloneStep(t, p, known);
      t := P.Next(t, p, P.Go(true));
    }
  }

  lemma {:induction false} AloneFork(s: P.State, p: P.Id, line: P.Line, i: nat, known: set<int>) returns (t: P.State)
    requires P.PhaseOf(s, p) == P.Fork(line, i) && i < |line.inputs|
    ensures Alone(s, p, known) == Alone(t, p, known)
    ensures P.PhaseOf(t, p) == (if i + 1 == |line.inputs| then P.Idle else P.Look(line, i + 1))
    ensures t.cells == (if i + 1 == |line.inputs| && !line.jumps && line.send.Some?
                        then s.cells + {(p, line.send.value)} else s.cells)
  {
    hide P.Next, P.PhaseOf, P.Run, Alone, P.Rank;
    P.GoStep(s, p);
    AloneStep(s, p, known);
    t := P.Next(s, p, P.Go(true));
  }

  lemma {:induction false} RowsMatch(pick: Allocator, m: C.Machine, s: P.State, p: P.Id, line: P.Line, i: nat, known: set<int>)
    requires AtRow(pick, m, s, p, line, i)
    ensures Alone(s, p, known).cells == C.ExecRows(pick, m, i, |line.inputs|).cells
    decreases |line.inputs| - i
  {
    hide C.ExecRow, Alone, C.RowFits, Inputs, P.PhaseOf;
    var total := |line.inputs|;
    C.RowsFitTail(pick, m, i, total);
    var n := C.ExecRow(pick, m, i, total);
    InputsStep(pick, m, i, total);
    assert line.inputs[i] == line.inputs[i..][0] && line.inputs[i + 1..] == line.inputs[i..][1..];
    RowCells(pick, m, i, total);
    var h := AloneLook(s, p, line, i, known);
    var t := AloneFork(h, p, line, i, known);
    if i + 1 < total {
      assert n.t.pipeN[n.t.pos + total - 1] == m.t.pipeN[m.t.pos + total - 1];
      RowsMatch(pick, n, t, p, line, i + 1, known);
    } else {
      IdleStays(t, p, known);
    }
  }

  lemma {:induction false} InputsStep(pick: Allocator, m: C.Machine, i: nat, total: nat)
    requires C.RowsFit(m.t, i, total) && i < total
    ensures C.RowFits(m.t, i, total) && C.RowsFit(C.ExecRow(pick, m, i, total).t, i + 1, total)
    ensures Inputs(pick, m, i, total) ==
            [m.t.slots[m.t.pos + i].read != 0] + Inputs(pick, C.ExecRow(pick, m, i, total), i + 1, total)
  {
    hide C.TakeInput, C.MakeOutput, C.ForkRow, C.Release;
    C.RowsFitTail(pick, m, i, total);
  }

  lemma {:induction false} InputsLength(pick: Allocator, m: C.Machine, i: nat, total: nat)
    requires C.RowsFit(m.t, i, total) && i <= total
    ensures |Inputs(pick, m, i, total)| == total - i
    decreases total - i
  {
    hide C.RowFits, C.TakeInput, C.MakeOutput, C.ForkRow, C.Release;
    if i < total {
      C.RowsFitTail(pick, m, i, total);
      InputsLength(pick, C.ExecRow(pick, m, i, total), i + 1, total);
    }
  }

  /** For every parsed line that is not a built-in command and every registry answer: the
      protocol run alone and `execute` agree on the whole matrix afterwards. */
  lemma {:induction false} ExecuteIsProtocol(pick: Allocator, m: C.Machine, s: P.State, known: set<int>)
    requires C.ExecFits(m.t) && C.Total(m.t) > 0 && m.t.rows[m.t.pos][0] !in C.BUILTINS
    requires !m.t.flags.receive ==> m.t.fromId == m.t.selfId
    requires s.cells == m.cells && P.PhaseOf(s, m.t.selfId) == P.AskReceive(LineOf(pick, m))
    ensures Alone(s, m.t.selfId, known).cells == C.Exec(pick, m, known).cells
  {
    hide C.ExecRow, C.RowFits, Alone, Inputs, P.Next;
    var p, line, total := m.t.selfId, LineOf(pick, m), C.Total(m.t);
    InputsLength(pick, m, 0, total);
    var t := Checks(s, p, line, known);
    if !Stops(s.cells, p, line, known) {
      assert line.inputs[0..] == line.inputs;
      RowsMatch(pick, m, t, p, line, 0, known);
    } else {
      IdleStays(t, p, known);
    }
  }

  lemma {:induction false} IdleStays(s: P.State, p: P.Id, known: set<int>)
    requires P.PhaseOf(s, p).Idle?
    ensures Alone(s, p, known) == s
  {
  }

  /** One of the two checks refuses the line. */
  predicate Stops(cells: P.Cells, p: P.Id, line: P.Line, known: set<int>) {
    (line.receive.Some? && (line.receive.value !in known || (line.receive.value, p) !in cells)) ||
    (line.send.Some? && (line.send.value !in known || (p, line.send.value) in cells))
  }

  lemma {:induction false} Checks(s: P.State, p: P.Id, line: P.Line, known: set<int>) returns (t: P.State)
    requires P.PhaseOf(s, p) == P.AskReceive(line)
    ensures Alone(s, p, known) == Alone(t, p, known) && t.cells == s.cells
    ensures P.PhaseOf(t, p) == (if Stops(s.cells, p, line, known) then P.Idle else P.Look(line, 0))
  {
    t := P.Next(s, p, P.Go(Found(P.AskReceive(line), known)));
    assert Alone(s, p, known) == Alone(t, p, known);
    if P.PhaseOf(t, p).AskSend? {
      var u := P.Next(t, p, P.Go(Found(P.AskSend(line), known)));
      assert Alone(t, p, known) == Alone(u, p, known);
      t := u;
    }
  }
}
