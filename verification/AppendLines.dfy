/** `>> f` in the multi-process server: only the flag for appending is set, not the one for
    redirecting, so the file name is executed as a command behind a pipe. */
module AppendLines {
  import opened Text
  import opened Kernel
  import opened NumberedPipes
  import opened CommandTable
  import opened PlainLines
  import opened RedirectLines

  function Appending(t: Table): Table {
    t.(flags := t.flags.(append := true))
  }

  lemma {:induction false} TwoTokens(t: Table, c: Cursor, file: string)
    requires Sized(t) && t.pos + c.n + 1 < |t.rows| && IsWord(file)
    ensures RowEnds([">>", file]) == 1 == RowEnds(["|", file])
    ensures ParseFrom(t, c, [">>", file]) == Appending(ParseFrom(t, c, ["|", file]))
  {
    var at := t.pos + c.n;
    var a, b := [">>", file], ["|", file];
    assert a[1..] == [file] && b[1..] == [file] && [file][1..] == [];
    assert RowEnds([file]) == 0;
    var u := t.(pipeN := t.pipeN[at := 1]);
    assert ParseFrom(t, c, a) == ParseFrom(Appending(u), Cursor(c.n + 1, 0), [file]);
    assert ParseFrom(t, c, b) == ParseFrom(u, Cursor(c.n + 1, 0), [file]);
    var v := ParseToken(u, at + 1, file, 0);
    assert ParseFrom(u, Cursor(c.n + 1, 0), [file]) == ParseFrom(v, Cursor(c.n + 1, 1), []);
    assert ParseFrom(Appending(u), Cursor(c.n + 1, 0), [file]) == ParseFrom(Appending(v), Cursor(c.n + 1, 1), []);
  }

  /** The parser stores `>> f` as `| f`, but for the flag. */
  lemma {:induction false} AppendParses(t: Table, line: Line, file: string)
    requires Sized(t) && PlainLine(line) && line[|line| - 1].link.End? && IsWord(file) && t.pos + |line| < |t.rows|
    ensures RowEnds(Print(line) + [">>", file]) == |line| == RowEnds(Print(line) + ["|", file])
    ensures ParseTokens(t, Print(line) + [">>", file]) == Appending(ParseTokens(t, Print(line) + ["|", file]))
  {
    hide Store, ParseFrom, RowEnds, Print;
    var u := ResetFlags(t);
    var c := Cursor(|line| - 1, |line[|line| - 1].argv|);
    StoredAt(u, t.pos, line, t.pos);
    TwoTokens(Store(u, t.pos, line), c, file);
    RowEndsThen(line, [">>", file]);
    RowEndsThen(line, ["|", file]);
    ParseLineThen(u, 0, line, [">>", file]);
    ParseLineThen(u, 0, line, ["|", file]);
  }

  // ---- The executor does not look at the flag ----

  function AppendingM(m: Machine): Machine {
    m.(t := Appending(m.t))
  }

  lemma {:induction false} RowsAppend(pick: Allocator, m: Machine, i: nat, total: nat)
    requires i <= total && RowsFit(m.t, i, total)
    ensures RowsFit(Appending(m.t), i, total)
    ensures ExecRows(pick, AppendingM(m), i, total) == AppendingM(ExecRows(pick, m, i, total))
    decreases total - i
  {
    hide ExecRow, RowFits;
    forall k: nat | i <= k < total
      ensures RowFits(Appending(m.t), k, total)
    {
      FitsAppend(m.t, k, total);
    }
    if i < total {
      RowsFitTail(pick, m, i, total);
      RowsFitTail(pick, AppendingM(m), i, total);
      RowAppend(pick, m, i, total);
      RowsAppend(pick, ExecRow(pick, m, i, total), i + 1, total);
    }
  }

  lemma {:induction false} FitsAppend(t: Table, i: nat, total: nat)
    ensures RowFits(Appending(t), i, total) == RowFits(t, i, total)
  {
  }

  lemma {:induction false} RowAppend(pick: Allocator, m: Machine, i: nat, total: nat)
    requires i < total && RowFits(m.t, i, total) && RowFits(Appending(m.t), i, total)
    ensures ExecRow(pick, AppendingM(m), i, total) == AppendingM(ExecRow(pick, m, i, total))
  {
    hide TakeInput, MakeOutput, ForkRow, Release;
    InputAppend(m, i, total);
    var n := TakeInput(m, i);
    OutputAppend(pick, n, i, total);
    var o := MakeOutput(pick, n, i, total);
    ForkAppend(o, i, total);
    ReleaseAppend(ForkRow(o, i, total), i, total);
  }

  lemma {:induction false} InputAppend(m: Machine, i: nat, total: nat)
    requires i < total && RowFits(m.t, i, total)
    ensures TakeInput(AppendingM(m), i) == AppendingM(TakeInput(m, i)) && TakeInput(m, i).t == m.t
    ensures RowFits(Appending(m.t), i, total)
  {
  }

  lemma {:induction false} OutputAppend(pick: Allocator, m: Machine, i: nat, total: nat)
    requires i < total && RowFits(m.t, i, total) && RowFits(Appending(m.t), i, total)
    ensures var r := MakeOutput(pick, m, i, total);
      MakeOutput(pick, AppendingM(m), i, total) == AppendingM(r) && RowFits(r.t, i, total) && RowFits(Appending(r.t), i, total)
  {
  }

  lemma {:induction false} ForkAppend(m: Machine, i: nat, total: nat)
    requires i < total && RowFits(m.t, i, total) && RowFits(Appending(m.t), i, total)
    ensures ForkRow(AppendingM(m), i, total) == AppendingM(ForkRow(m, i, total)) && ForkRow(m, i, total).t == m.t
  {
    hide FifoName;
  }

  lemma {:induction false} ReleaseAppend(m: Machine, i: nat, total: nat)
    requires i < total && RowFits(m.t, i, total) && RowFits(Appending(m.t), i, total)
    ensures Release(AppendingM(m), i, total) == AppendingM(Release(m, i, total))
  {
  }

  /** `line >> f` does exactly what `line | f` does: nothing is appended to a file, the last
      command writes into a pipe, and the file name is executed as a command that reads it. */
  lemma {:induction false} AppendIsPipe(pick: Allocator, m: Machine, line: Line, file: string, known: set<int>)
    requires Sized(m.t) && PlainLine(line) && line[|line| - 1].link.End? && IsWord(file)
    requires LineFits(m, Print(line) + ["|", file])
    ensures LineFits(m, Print(line) + [">>", file])
    ensures ExecLine(pick, m, Print(line) + [">>", file], known) == AppendingM(ExecLine(pick, m, Print(line) + ["|", file], known))
  {
    hide ParseTokens, RowEnds, Print, PlainLine, RowsFit, ExecRows, Refused, IsWord;
    RowEndsThen(line, ["|", file]);
    OneEnd(file);
    AppendParses(m.t, line, file);
    var t := ParseTokens(m.t, Print(line) + ["|", file]);
    var n := m.(t := t);
    RowsAppend(pick, n, 0, Total(t));
    assert Refused(AppendingM(n), known) == Refused(n, known) by { SameRefusal(n, known); }
  }

  lemma {:induction false} SameRefusal(m: Machine, known: set<int>)
    ensures Refused(AppendingM(m), known) == Refused(m, known)
  {
  }

  lemma {:induction false} OneEnd(file: string)
    requires IsWord(file)
    ensures RowEnds(["|", file]) == 1
  {
    assert ["|", file][1..] == [file] && [file][1..] == [];
    assert RowEnds([file]) == 0;
  }
}
