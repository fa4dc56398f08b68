/** One shell process of the multi-process chat server, updating its tables in place. */
module MultiShell {
  import opened Text
  import opened Kernel
  import opened NumberedPipes
  import opened CommandTable

  class MultiShell {
    const pick: Allocator
    const rows: array<seq<string>>
    const pipeN: array<int>
    const slots: array<Slot>
    const selfId: int
    var fromId: int
    var toId: int
    var flags: Flags
    var num: nat
    var pos: nat
    var proc: Proc
    var cells: set<(int, int)>   // the raised cells of the shared matrix

    /** `init_CommandTable` */
    constructor (pick: Allocator, id: int, cells: set<(int, int)>)
      ensures View() == Machine(InitTable(id), NEW_PROC, cells) && this.pick == pick
      ensures fresh(rows) && fresh(pipeN) && fresh(slots)
    {
      this.pick, this.cells := pick, cells;
      rows := new seq<string>[TOKEN_BUFFSIZE](_ => []);
      pipeN := new int[TOKEN_BUFFSIZE](_ => 0);
      slots := new Slot[PROCESS_NUM](_ => UNUSED);
      selfId, fromId, toId, flags, num, pos, proc := id, id, id, NO_FLAGS, 0, 0, NEW_PROC;
      new;
      assert rows[..] == InitTable(id).rows;
      assert pipeN[..] == InitTable(id).pipeN;
      assert slots[..] == InitTable(id).slots;
    }

    function Tables(): Table
      reads this, rows, pipeN, slots
    {
      Table(rows[..], pipeN[..], slots[..], selfId, fromId, toId, flags, num, pos)
    }

    function View(): Machine
      reads this, rows, pipeN, slots
    {
      Machine(Tables(), proc, cells)
    }

    /** The branches of the parsing loop that update the table. */
    method StoreToken(tok: string, cur: nat, ptr: nat)
      requires Sized(Tables()) && cur < rows.Length
      modifies this`fromId, this`toId, this`flags, rows, pipeN
      ensures Tables() == ParseToken(old(Tables()), cur, tok, ptr)
    {
      if '|' in tok {
        pipeN[cur] := if |tok| == 1 then 1 else Atoi(tok[1..]);
      } else if tok == ">" || tok == ">>" {
        if tok == ">" { flags := flags.(redirect := true); } else { flags := flags.(append := true); }
        pipeN[cur] := 1;
      } else if '>' in tok {
        toId, flags := ScanId(tok, '>', toId), flags.(send := true);
      } else if '<' in tok && |tok| > 1 {
        fromId, flags := ScanId(tok, '<', fromId), flags.(receive := true);
      } else {
        rows[cur] := if ptr == 0 then [tok] else rows[cur] + [tok];
      }
    }

    /** `set_Command_Table` on the tokens of a line. */
    method SetCommandTable(tokens: seq<string>)
      requires Sized(Tables()) && pos + RowEnds(tokens) < rows.Length
      modifies this`fromId, this`toId, this`flags, this`num, rows, pipeN
      ensures Tables() == ParseTokens(old(Tables()), tokens)
    {
      hide ParseToken, ScanId;
      fromId, toId, flags, num := selfId, selfId, NO_FLAGS, 0;
      var numOfCommands, ptr, i := 0, 0, 0;
      assert tokens[0..] == tokens;
      while i < |tokens|
        invariant 0 <= i <= |tokens|
        invariant pos + numOfCommands + RowEnds(tokens[i..]) < rows.Length
        invariant ParseFrom(Tables(), Cursor(numOfCommands, ptr), tokens[i..]) == ParseTokens(old(Tables()), tokens)
      {
        var tok := tokens[i];
        assert tokens[i..][1..] == tokens[i + 1..];
        StoreToken(tok, pos + numOfCommands, ptr);
        if '|' in tok {
          if i != |tokens| - 1 { numOfCommands, ptr := numOfCommands + 1, 0; }
        } else if tok == ">" || tok == ">>" {
          numOfCommands, ptr := numOfCommands + 1, 0;
        } else if '>' !in tok && !('<' in tok && |tok| > 1) {
          ptr := ptr + 1;
        }
        i := i + 1;
      }
      num := numOfCommands + 1;
    }

    /** The loop that computes `finish_pre`. */
    method FinishPre(cur: nat) returns (finishPre: bool)
      requires cur < pipeN.Length
      ensures finishPre <==> AllZero(pipeN[..cur + 1])
    {
      finishPre := true;
      var k := 0;
      while k <= cur && finishPre
        invariant 0 <= k <= cur + 1
        invariant finishPre ==> AllZero(pipeN[..k])
        invariant !finishPre ==> exists j | 0 <= j <= cur :: pipeN[j] != 0
      {
        if pipeN[k] != 0 { finishPre := false; }
        k := k + 1;
      }
      if !finishPre {
        var j :| 0 <= j <= cur && pipeN[j] != 0;
        assert pipeN[..cur + 1][j] != 0;
      }
    }

    method TakeRowInput(i: nat)
      requires Sized(Tables()) && pos + i < rows.Length
      modifies this`proc, this`cells
      ensures View() == TakeInput(old(View()), i)
    {
      var cur := pos + i;
      if slots[cur].read != 0 {
        proc := CloseFd(proc, slots[cur].write);
      } else if (fromId, selfId) in cells {
        cells := cells - {(fromId, selfId)};
      }
    }

    method MakeRowOutput(i: nat, total: nat)
      requires RowFits(Tables(), i, total)
      modifies this`proc, this`cells, slots
      ensures View() == MakeOutput(pick, old(View()), i, total)
    {
      var cur := pos + i;
      if pipeN[cur] > 0 {
        var next := cur + pipeN[cur];
        if slots[next].write == 1 {
          var (p, r, w) := OpenPipe(pick, proc, next);
          proc, slots[next] := p, Slot(r, w);
        }
      } else if i + 1 == total && flags.send {
        cells := cells + {(selfId, toId)};
      }
    }

    /** The parent's side after the fork. The `close(out)` under `finish_pre` is dead code:
        `out` differs from the client's socket only when this row's own jump is nonzero. */
    method ReleaseRow(i: nat, total: nat)
      requires RowFits(Tables(), i, total)
      modifies this`proc, pipeN
      ensures View() == Release(old(View()), i, total)
    {
      var cur := pos + i;
      if slots[cur].read != 0 { proc := CloseFd(proc, slots[cur].read); }
      if !flags.send && pipeN[cur] > 0 {
        var finishPre := FinishPre(cur);
        assert pipeN[..cur + 1][cur] != 0;
        if finishPre { assert false; }
      }
      pipeN[cur] := 0;
    }

    /** One pass of the loop of `execute_pipeline`. */
    method ExecuteRow(i: nat, total: nat)
      requires RowFits(Tables(), i, total)
      modifies this`proc, this`cells, slots, pipeN
      ensures View() == ExecRow(pick, old(View()), i, total)
    {
      hide TakeInput, MakeOutput, ForkRow, Release;
      TakeRowInput(i);
      MakeRowOutput(i, total);
      ForkRowChild(i, total);
      ReleaseRow(i, total);
    }

    /** `fork`, and the child's redirections before `execvp`. */
    method ForkRowChild(i: nat, total: nat)
      requires RowFits(Tables(), i, total)
      modifies this`proc
      ensures View() == ForkRow(old(View()), i, total)
    {
      hide FifoName;
      var cur := pos + i;
      var last := i + 1 == total;
      var stdin := PortOf(proc, slots[cur].read);
      var stdout := if pipeN[cur] > 0 then PortOf(proc, slots[cur + pipeN[cur]].write) else Default;
      if i == 0 && flags.receive { stdin := Fifo(FifoName(fromId, selfId)); }
      if last && flags.send { stdout := Fifo(FifoName(selfId, toId)); }
      if last && flags.redirect { stdout := File(rows[cur + pipeN[cur]][0]); }
      var waited := last && (pipeN[cur] == 0 || flags.redirect) && !flags.send;
      proc := Fork(proc, rows[cur], stdin, stdout, Default, waited);
    }

    method ExecutePipeline()
      requires num > 0 && RowsFit(Tables(), 0, Total(Tables()))
      modifies this`proc, this`cells, slots, pipeN
      ensures View() == ExecRows(pick, old(View()), 0, Total(old(Tables())))
    {
      hide ExecRow, RowFits;
      var total := if flags.redirect then num - 1 else num;
      var i := 0;
      while i < total
        invariant 0 <= i <= total
        invariant RowsFit(Tables(), i, total)
        invariant ExecRows(pick, View(), i, total) == ExecRows(pick, old(View()), 0, total)
      {
        RowsFitTail(pick, View(), i, total);
        ExecuteRow(i, total);
        i := i + 1;
      }
    }

    /** `execute`: built-in commands, the user-pipe checks, then the pipeline. */
    method Execute(known: set<int>)
      requires num > 0 && ExecFits(Tables())
      modifies this`proc, this`cells, slots, pipeN
      ensures View() == Exec(pick, old(View()), known)
    {
      if rows[pos][0] in BUILTINS { return; }
      if flags.receive {
        if fromId !in known || (fromId, selfId) !in cells { return; }
      }
      if flags.send {
        if toId !in known || (selfId, toId) in cells { return; }
      }
      ExecutePipeline();
    }

    /** One turn of the loop of `launch`. */
    method RunLine(tokens: seq<string>, known: set<int>)
      requires LineFits(View(), tokens)
      modifies this, rows, pipeN, slots
      ensures View() == ExecLine(pick, old(View()), tokens, known)
    {
      ParsedSome(Tables(), tokens);
      SetCommandTable(tokens);
      Execute(known);
      pos := pos + num;
    }
  }

  lemma {:induction false} ParseFromSome(t: Table, c: Cursor, tokens: seq<string>)
    requires Sized(t) && t.pos + c.n + RowEnds(tokens) < |t.rows|
    ensures ParseFrom(t, c, tokens).num > 0
    decreases |tokens|
  {
    if tokens != [] {
      ParseFromSome(ParseToken(t, t.pos + c.n, tokens[0], c.ptr), NextCursor(c, tokens), tokens[1..]);
    }
  }

  lemma {:induction false} ParsedSome(t: Table, tokens: seq<string>)
    requires Sized(t) && t.pos + RowEnds(tokens) < |t.rows|
    ensures ParseTokens(t, tokens).num > 0
  {
    ParseFromSome(ResetFlags(t), Cursor(0, 0), tokens);
  }
}
