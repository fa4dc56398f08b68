/** From the typed line to the user-pipe protocol: a line with `<n` on its first command and
    only plain bars between its commands has the shape that the protocol needs. */
module ReceiveLines {
  import opened Text
  import opened Kernel
  import opened NumberedPipes
  import opened CommandTable
  import opened PlainLines
  import opened ProtocolLink
  import P = UserPipes

  /** `cmd <n | cmd | ... | cmd`; the last command may have a `|N`. */
  predicate BarLine(line: Line) {
    PlainLine(line) && forall i | 0 <= i < |line| - 1 :: Distance(line[i].link) == 1
  }

  function ReceiveTok(n: nat): string {
    "<" + Decimal(n)
  }

  function PrintReceive(line: Line, n: nat): seq<string>
    requires line != []
  {
    line[0].argv + ([ReceiveTok(n)] + (PrintLink(line[0].link) + Print(line[1..])))
  }

  // ---- The parser ----

  const RECEIVING := NO_FLAGS.(receive := true)

  function Receiving(t: Table, n: nat): Table {
    t.(fromId := n, flags := RECEIVING)
  }

  lemma {:induction false} ReceiveToken(n: nat)
    ensures var tok := ReceiveTok(n);
      !IsBar(tok) && '>' !in tok && '<' in tok && |tok| > 1 && !IsFile(tok) && forall id :: ScanId(tok, '<', id) == n
  {
    ScanDecimal(n);
    var tok := ReceiveTok(n);
    assert tok[0] == '<' && tok[1..] == Decimal(n);
    forall c | c in tok
      ensures c != '|' && c != '>'
    {
      var i :| 0 <= i < |tok| && tok[i] == c;
      assert i > 0 ==> IsDigit(tok[1..][i - 1]);
    }
  }

  lemma {:induction false} ReceiveStep(t: Table, c: Cursor, n: nat, rest: seq<string>)
    requires Sized(t) && t.pos + c.n + RowEnds(rest) < |t.rows| && t.flags == NO_FLAGS
    ensures RowEnds([ReceiveTok(n)] + rest) == RowEnds(rest)
    ensures ParseFrom(t, c, [ReceiveTok(n)] + rest) == ParseFrom(Receiving(t, n), c, rest)
  {
    ReceiveToken(n);
    var tokens := [ReceiveTok(n)] + rest;
    assert tokens[0] == ReceiveTok(n) && tokens[1..] == rest;
  }

  lemma {:induction false} ReceiveRowEnds(line: Line, n: nat)
    requires PlainLine(line)
    ensures RowEnds(PrintReceive(line, n)) == |line| - 1
  {
    var link := PrintLink(line[0].link) + Print(line[1..]);
    assert Print(line) == line[0].argv + link;
    RowEndsOfLine(line);
    RowEndsOfWords(line[0].argv, link);
    RowEndsOfWords(line[0].argv, [ReceiveTok(n)] + link);
    ReceiveToken(n);
    assert ([ReceiveTok(n)] + link)[1..] == link;
  }

  /** The parser stores the commands as without `<n`, and notes the sender. */
  lemma {:induction false} TableReadsReceive(t: Table, line: Line, n: nat)
    requires Sized(t) && PlainLine(line) && t.pos + |line| <= |t.rows|
    ensures RowEnds(PrintReceive(line, n)) == |line| - 1
    ensures ParseTokens(t, PrintReceive(line, n)) ==
            Store(Receiving(ResetFlags(t), n), t.pos, line).(num := |line|)
  {
    hide ParseFrom, Store, PlainWords, PrintLink, AddWords, RowEnds, ReceiveTok;
    var u, argv := ResetFlags(t), line[0].argv;
    var link := PrintLink(line[0].link) + Print(line[1..]);
    var v := Receiving(u, n);
    assert Print(line) == argv + link;
    RowEndsOfLine(line);
    RowEndsOfWords(argv, link);
    assert t.pos + RowEnds(link) < |t.rows|;
    var here := Cursor(0, |argv|);
    assert AddWords(u, Cursor(0, 0), argv).flags == NO_FLAGS && Sized(AddWords(u, Cursor(0, 0), argv))
           && AddWords(u, Cursor(0, 0), argv).pos == t.pos && |AddWords(u, Cursor(0, 0), argv).rows| == |t.rows|
      by { AddedWords(u, argv, n); }
    ReceiveStep(AddWords(u, Cursor(0, 0), argv), here, n, link);
    ParseWords(u, Cursor(0, 0), argv, [ReceiveTok(n)] + link);
    ParseWords(v, Cursor(0, 0), argv, link);
    AddedWords(u, argv, n);
    ParseLineFrom(v, 0, line);
  }

  lemma {:induction false} AddedWords(t: Table, words: seq<string>, n: nat)
    requires Sized(t) && t.pos < |t.rows|
    ensures var u := AddWords(t, Cursor(0, 0), words);
      && Sized(u) && u.pos == t.pos && |u.rows| == |t.rows| && u.flags == t.flags
      && Receiving(u, n) == AddWords(Receiving(t, n), Cursor(0, 0), words)
  {
  }

  // ---- The executor ----

  /** From row `lo` on the slots are unused or full, and 0 and 1 are not pipe ends. */
  ghost predicate Pairs(m: Machine, lo: nat) {
    && Sized(m.t) && m.proc.std == STANDARD && (forall fd | fd in m.proc.fds :: fd > 2)
    && forall k | lo <= k < |m.t.slots| :: m.t.slots[k] == UNUSED || (m.t.slots[k].read > 2 && m.t.slots[k].write > 2)
  }

  /** A row with a jump of 1 leaves a pipe in the next slot. */
  lemma {:induction false} RowFeedsNext(pick: Allocator, m: Machine, i: nat, total: nat)
    requires Sound(pick) && i + 1 < total && RowFits(m.t, i, total) && Pairs(m, m.t.pos + i)
    requires m.t.pipeN[m.t.pos + i] == 1
    ensures var r := ExecRow(pick, m, i, total);
      Pairs(r, r.t.pos + i + 1) && r.t.slots[r.t.pos + i + 1].read != 0
  {
    hide ForkRow;
    var cur := m.t.pos + i;
    var m1 := TakeInput(m, i);
    assert Pairs(m1, cur);
    var (r, w) := pick(|m1.proc.pipes|, InUse(m1.proc));
    assert r > 2 && w > 2;
    var m2 := MakeOutput(pick, m1, i, total);
    assert Pairs(m2, cur) && m2.t.slots[cur + 1].read > 2;
    var m3 := ForkRow(m2, i, total);
    assert m3.t == m2.t && m3.proc.std == STANDARD && m3.proc.fds == m2.proc.fds by { ForkOnly(m2, i, total); }
  }

  lemma {:induction false} ForkOnly(m: Machine, i: nat, total: nat)
    requires RowFits(m.t, i, total)
    ensures var r := ForkRow(m, i, total); r.t == m.t && r.proc.std == m.proc.std && r.proc.fds == m.proc.fds
  {
  }

  predicate JumpsOne(t: Table, lo: nat, hi: nat) {
    hi <= |t.pipeN| && forall k | lo <= k < hi :: t.pipeN[k] == 1
  }

  lemma {:induction false} BarInputs(pick: Allocator, m: Machine, i: nat, total: nat)
    requires Sound(pick) && i < total && RowsFit(m.t, i, total) && Pairs(m, m.t.pos + i)
    requires JumpsOne(m.t, m.t.pos + i, m.t.pos + total - 1)
    ensures var inputs := Inputs(pick, m, i, total);
      && |inputs| == total - i && inputs[0] == (m.t.slots[m.t.pos + i].read != 0)
      && forall j | 0 < j < total - i :: inputs[j]
    decreases total - i
  {
    hide RowFits, ExecRow, Pairs;
    InputsLength(pick, m, i, total);
    InputsStep(pick, m, i, total);
    if i + 1 < total {
      assert RowFits(m.t, i, total);
      RowFeedsNext(pick, m, i, total);
      var r := ExecRow(pick, m, i, total);
      BarInputs(pick, r, i + 1, total);
      var inputs, rest := Inputs(pick, m, i, total), Inputs(pick, r, i + 1, total);
      assert forall j | 0 < j < total - i :: inputs[j] == rest[j - 1];
    }
  }

  /** A typed line with `<n` on its first command, for which no numbered pipe waits, and
      plain bars inside: as a line of the protocol it receives from n once, so it is good. */
  lemma {:induction false} UsualShapeIsGood(pick: Allocator, m: Machine, line: Line, n: nat)
    requires Sound(pick) && BarLine(line) && Pairs(m, m.t.pos) && LineFits(m, PrintReceive(line, n))
    requires m.t.slots[m.t.pos] == UNUSED
    ensures var k := m.(t := ParseTokens(m.t, PrintReceive(line, n)));
      && Total(k.t) == |line|
      && var shape := LineOf(pick, k);
         && shape.receive == Some(n) && shape.send == None && |shape.inputs| == |line| && !shape.inputs[0]
         && (forall j | 0 < j < |line| :: shape.inputs[j])
         && P.Good(m.t.selfId, shape)
  {
    hide ParseTokens, ParseFrom, Store, RowsFit, Pairs;
    ReceiveRowEnds(line, n);
    TableReadsReceive(m.t, line, n);
    var t := ParseTokens(m.t, PrintReceive(line, n));
    var u, k := Receiving(ResetFlags(m.t), n), m.(t := t);
    StoredAt(u, m.t.pos, line, m.t.pos);
    forall k | t.pos <= k < t.pos + |line| - 1
      ensures t.pipeN[k] == 1
    {
      StoredAt(u, m.t.pos, line, k);
      assert Distance(line[k - t.pos].link) == 1;
    }
    assert Pairs(k, t.pos + 0) by { PairsKept(m, k, m.t.pos); }
    BarInputs(pick, k, 0, |line|);
    P.FreeOfRest(Inputs(pick, k, 0, |line|), |line|);
  }

  lemma {:induction false} PairsKept(m: Machine, k: Machine, lo: nat)
    requires Pairs(m, lo) && Sized(k.t) && k.t.slots == m.t.slots && k.proc == m.proc
    ensures Pairs(k, lo)
  {
  }
}
