/** A run of the single-process server on the usual kernel, which hands out the least
    unused descriptors: two refused commands make it close its standard input and then the
    read end of a user pipe that is still in the list. */
module StdinLost {
  import opened Text
  import opened Kernel
  import opened NumberedPipes
  import opened Tubes
  import opened TubeRuns
  import opened UserList
  import opened SingleHandler
  import opened TubeBooks
  import opened TubeServer
  import Progress
  import SingleShell

  // ---- The least unused descriptors ----

  function Least(used: set<int>, from: nat): (n: nat)
    ensures from <= n && n !in used && forall k | from <= k < n :: k in used
    decreases set x | x in used && from <= x
  {
    if from in used then
      assert (set x | x in used && from <= x) == (set x | x in used && from + 1 <= x) + {from};
      Least(used, from + 1)
    else from
  }

  /** The listening socket and the sockets of the two users. */
  const SOCKETS := {3, 4, 5}

  function Two(used: set<int>): (int, int) {
    var r := Least(used + SOCKETS, 0);
    (r, Least(used + SOCKETS + {r}, 0))
  }

  const LOWEST: Allocator := (n, used) => Two(used)

  lemma {:induction false} LowestSound()
    ensures Sound(LOWEST)
  {
  }

  // ---- What matters of a state ----

  const USERS := [User(1, 4), User(2, 5)]

  /** The cursor's slot, the open pipe descriptors, the standard streams and the tubes; the
      slots ahead are empty. */
  ghost predicate At(v: Server, count: nat, slot: Slot, open: set<int>, std: set<int>, tubes: seq<Entry>) {
    && v.s.count == count && |v.s.table| == PIPE_NUMBER && count < 100
    && v.s.table[count] == slot && (forall k | count < k < PIPE_NUMBER :: v.s.table[k] == EMPTY)
    && v.s.proc.fds.Keys == open && v.s.proc.std == std && v.tubes == tubes && v.users == USERS
  }

  // ---- The four kinds of lines ----

  const LS_BAR := TubeCommand(["ls"], [Num(Bar(1))])
  const LS_SEND := TubeCommand(["ls"], [SendTo(2)])
  const CAT := TubeCommand(["cat"], [])
  const CAT_REFUSED := TubeCommand(["cat"], [SendTo(9)])
  const CAT_RECEIVE := TubeCommand(["cat"], [ReceiveFrom(1)])

  /** What `handler` reads from the typed lines. */
  lemma {:induction false} Typed()
    ensures SingleShell.ParseLine(["ls", "|1"]) == [LS_BAR] && SingleShell.ParseLine(["ls", ">2"]) == [LS_SEND]
    ensures SingleShell.ParseLine(["cat"]) == [CAT] && SingleShell.ParseLine(["cat", ">9"]) == [CAT_REFUSED]
    ensures SingleShell.ParseLine(["cat", "<1"]) == [CAT_RECEIVE]
  {
    ScanDecimal(1);
    ScanDecimal(2);
    ScanDecimal(9);
    assert Decimal(1) == "1" && Decimal(2) == "2" && Decimal(9) == "9";
    assert "|1"[1..] == "1" && ">2"[1..] == "2" && ">9"[1..] == "9" && "<1"[1..] == "1";
    OneOp("ls", "|1");
    OneOp("ls", ">2");
    OneOp("cat", ">9");
    OneOp("cat", "<1");
    assert SingleShell.ArgRun(["cat"]) == 1 && ["cat"][..1] == ["cat"] && ["cat"][1..] == [];
    assert SingleShell.ParseOps([]) == [] && SingleShell.AfterOps([]) == [];
  }

  lemma {:induction false} OneOp(word: string, tok: string)
    requires SingleShell.IsOp(tok) && !SingleShell.TakesFile(tok) && !SingleShell.IsOp(word)
    ensures SingleShell.ParseLine([word, tok]) == [TubeCommand([word], [SingleShell.ReadOp([tok])])]
  {
    var line := [word, tok];
    assert line[1..] == [tok] && [tok][1..] == [];
    assert SingleShell.ArgRun([tok]) == 0 && SingleShell.ArgRun(line) == 1;
    assert line[..1] == [word];
    assert SingleShell.ParseOps([]) == [] && SingleShell.AfterOps([]) == [];
    assert SingleShell.ParseOps([tok]) == [SingleShell.ReadOp([tok])];
  }

  lemma {:induction false} ApplySingle(v: Server, me: int, w: Wiring, op: TubeOp)
    requires TubeFits(v.s, [op])
    ensures TubeOpFits(v.s, op)
    ensures var r := ApplyTubeOp(LOWEST, v, me, w, None, op); ApplyTube(LOWEST, v, me, w, None, [op]) == r
  {
    ApplyTubeStep(LOWEST, v, me, w, None, [op]);
    assert [op][1..] == [];
  }

  /** A line of one command is one step. */
  lemma {:induction false} OneCommand(v: Server, me: int, c: TubeCommand)
    requires TubeStreamFits(v.s, [c])
    ensures TubeFits(v.s, c.ops)
    ensures RunTubeLine(LOWEST, v, me, None, [c]) == StepTube(LOWEST, v, me, None, c).v
  {
    TubeStreamTail(LOWEST, v, me, None, [c]);
    assert [c][1..] == [];
  }

  /** `ls |1` at an empty slot leaves the new pipe in the next one. */
  lemma {:induction false} BarLine(v: Server, count: nat, open: set<int>, std: set<int>, tubes: seq<Entry>, r: int, w: int)
    requires At(v, count, EMPTY, open, std, tubes) && count < 99 && Two(open + std) == (r, w) && r != 0 && w != 0
    ensures TubeStreamFits(v.s, [LS_BAR])
    ensures At(RunTubeLine(LOWEST, v, 1, None, [LS_BAR]), count + 1, Slot(r, w), open + {r, w}, std, tubes)
  {
    OneCommand(v, 1, LS_BAR);
    ApplySingle(v, 1, FirstTubeWiring(v.s, LS_BAR.ops), Num(Bar(1)));
  }

  /** `cat >9` closes the write end of its slot and is refused. */
  lemma {:induction false} RefusedLine(v: Server, count: nat, r: int, w: int, open: set<int>, std: set<int>, tubes: seq<Entry>)
    requires At(v, count, Slot(r, w), open, std, tubes) && r != 0 && w in open
    ensures TubeStreamFits(v.s, [CAT_REFUSED])
    ensures At(RunTubeLine(LOWEST, v, 1, None, [CAT_REFUSED]), count, Slot(r, 0), open - {w}, std, tubes)
  {
    OneCommand(v, 1, CAT_REFUSED);
    ApplySingle(v.(s := Begin(v.s)), 1, FirstTubeWiring(v.s, CAT_REFUSED.ops), SendTo(9));
  }

  /** `cat` at a stranded read end closes descriptor 0. */
  lemma {:induction false} CatLine(v: Server, count: nat, r: int, open: set<int>, std: set<int>, tubes: seq<Entry>)
    requires At(v, count, Slot(r, 0), open, std, tubes) && r != 0 && r in open && count < 99
    ensures TubeStreamFits(v.s, [CAT])
    ensures At(RunTubeLine(LOWEST, v, 1, None, [CAT]), count + 1, EMPTY, open - {0, r},
               if 0 in open then std else std - {0}, tubes)
  {
    OneCommand(v, 1, CAT);
  }

  /** `ls >2` makes a tube. */
  lemma {:induction false} SendLine(v: Server, count: nat, open: set<int>, std: set<int>, r: int, w: int)
    requires At(v, count, EMPTY, open, std, []) && count < 99 && Two(open + std) == (r, w)
    ensures TubeStreamFits(v.s, [LS_SEND])
    ensures At(RunTubeLine(LOWEST, v, 1, None, [LS_SEND]), count + 1, EMPTY, open + {r, w}, std, [Entry(1, 2, r, w)])
  {
    OneCommand(v, 1, LS_SEND);
    assert USERS[1].id == 2;
    ApplySingle(v, 1, FirstTubeWiring(v.s, LS_SEND.ops), SendTo(2));
  }

  // ---- The run ----

  const RUN := [
    Connect(4), Connect(5),
    Line(1, [LS_BAR]), Line(1, [CAT_REFUSED]), Line(1, [CAT]), Line(1, [LS_SEND]),
    Line(1, [LS_BAR]), Line(1, [CAT_REFUSED]), Line(1, [CAT])]

  lemma {:induction false} Then(v: Server, i: nat)
    requires i < |RUN| && EventFits(v, RUN[i]) && EventsFit(LOWEST, NextServer(LOWEST, v, RUN[i]), RUN[i + 1..])
    ensures EventsFit(LOWEST, v, RUN[i..])
    ensures RunServer(LOWEST, v, RUN[i..]) == RunServer(LOWEST, NextServer(LOWEST, v, RUN[i]), RUN[i + 1..])
  {
    assert RUN[i..][1..] == RUN[i + 1..];
  }

  lemma {:induction false} TwoAre(used: set<int>, r: nat, w: nat)
    requires r < w && r !in used + SOCKETS && w !in used + SOCKETS
    requires forall k | 0 <= k < w && k != r :: k in used + SOCKETS
    ensures Two(used) == (r, w)
  {
  }

  lemma {:induction false} Picks()
    ensures Two({} + STANDARD) == (6, 7) && Two({} + {1, 2}) == (0, 6) && Two({0, 6} + {1, 2}) == (7, 8)
  {
    TwoAre({} + STANDARD, 6, 7);
    TwoAre({} + {1, 2}, 0, 6);
    TwoAre({0, 6} + {1, 2}, 7, 8);
  }

  lemma {:induction false} FirstLines(v2: Server) returns (v5: Server)
    requires v2 == Server(Init(), [], USERS) && At(v2, 0, EMPTY, {}, STANDARD, [])
    ensures At(v5, 2, EMPTY, {}, {1, 2}, [])
    ensures EventsFit(LOWEST, v5, RUN[5..]) ==>
            EventsFit(LOWEST, v2, RUN[2..]) && RunServer(LOWEST, v2, RUN[2..]) == RunServer(LOWEST, v5, RUN[5..])
  {
    hide At, RunTubeLine, RunServer, EventsFit, Two, TubeStreamFits;
    Picks();
    BarLine(v2, 0, {}, STANDARD, [], 6, 7);
    var v3 := RunTubeLine(LOWEST, v2, 1, None, [LS_BAR]);
    RefusedLine(v3, 1, 6, 7, {6, 7}, STANDARD, []);
    var v4 := RunTubeLine(LOWEST, v3, 1, None, [CAT_REFUSED]);
    CatLine(v4, 1, 6, {6}, STANDARD, []);
    assert {6, 7} - {7} == {6} && {6} - {0, 6} == {} && STANDARD - {0} == {1, 2};
    v5 := RunTubeLine(LOWEST, v4, 1, None, [CAT]);
    if EventsFit(LOWEST, v5, RUN[5..]) {
      Then(v4, 4);
      Then(v3, 3);
      Then(v2, 2);
    }
  }

  lemma {:induction false} LastLines(v5: Server) returns (z: Server)
    requires At(v5, 2, EMPTY, {}, {1, 2}, [])
    ensures At(z, 5, EMPTY, {6}, {1, 2}, [Entry(1, 2, 0, 6)])
    ensures EventsFit(LOWEST, v5, RUN[5..]) && RunServer(LOWEST, v5, RUN[5..]) == z
  {
    hide At, RunTubeLine, RunServer, EventsFit, Two, TubeStreamFits;
    var es := [Entry(1, 2, 0, 6)];
    Picks();
    SendLine(v5, 2, {}, {1, 2}, 0, 6);
    var v6 := RunTubeLine(LOWEST, v5, 1, None, [LS_SEND]);
    BarLine(v6, 3, {0, 6}, {1, 2}, es, 7, 8);
    var v7 := RunTubeLine(LOWEST, v6, 1, None, [LS_BAR]);
    RefusedLine(v7, 4, 7, 8, {0, 6, 7, 8}, {1, 2}, es);
    var v8 := RunTubeLine(LOWEST, v7, 1, None, [CAT_REFUSED]);
    CatLine(v8, 4, 7, {0, 6, 7}, {1, 2}, es);
    assert {0, 6, 7, 8} - {8} == {0, 6, 7} && {0, 6, 7} - {0, 7} == {6};
    z := RunTubeLine(LOWEST, v8, 1, None, [CAT]);
    End(z);
    Then(v8, 8);
    Then(v7, 7);
    Then(v6, 6);
    Then(v5, 5);
  }

  /** Users 1 and 2 are connected. User 1 types `ls |1`, `cat >9` (refused), `cat`, `ls >2`,
      `ls |1`, `cat >9` (refused) and `cat`. The tube from 1 to 2 is in the list, and its
      read end, which got the number 0, is closed. */
  lemma {:induction false} TubeLosesReadEnd() returns (z: Server)
    ensures Sound(LOWEST) && EventsFit(LOWEST, NEW_SERVER, RUN)
    ensures z == RunServer(LOWEST, NEW_SERVER, RUN)
    ensures At(z, 5, EMPTY, {6}, {1, 2}, [Entry(1, 2, 0, 6)])
    ensures !TubesOpen(z.s.proc, z.tubes)
  {
    hide At, RunServer, EventsFit, Two;
    LowestSound();
    var v2 := Connected();
    var v5 := FirstLines(v2);
    z := LastLines(v5);
    Connects(v2);
    LostEnd(z);
  }

  lemma {:induction false} Connected() returns (v: Server)
    ensures v == Server(Init(), [], USERS) && At(v, 0, EMPTY, {}, STANDARD, [])
  {
    v := Server(Init(), [], USERS);
  }

  lemma {:induction false} End(z: Server)
    ensures EventsFit(LOWEST, z, RUN[9..]) && RunServer(LOWEST, z, RUN[9..]) == z
  {
  }

  lemma {:induction false} Connects(v: Server)
    requires v == Server(Init(), [], USERS) && EventsFit(LOWEST, v, RUN[2..])
    ensures EventsFit(LOWEST, NEW_SERVER, RUN) && RunServer(LOWEST, NEW_SERVER, RUN) == RunServer(LOWEST, v, RUN[2..])
  {
    var v1 := NextServer(LOWEST, NEW_SERVER, RUN[0]);
    assert NextServer(LOWEST, v1, RUN[1]) == v;
    Then(v1, 1);
    Then(NEW_SERVER, 0);
    assert RUN[0..] == RUN;
  }

  lemma {:induction false} LostEnd(z: Server)
    requires At(z, 5, EMPTY, {6}, {1, 2}, [Entry(1, 2, 0, 6)])
    ensures !TubesOpen(z.s.proc, z.tubes)
  {
    assert !TubeOpen(z.s.proc, z.tubes[0]);
  }

  /** After that run `cat <1` of user 2 is accepted and gets no input at all: its child can
      exit at once, although it should read the tube. */
  lemma {:induction false} ReceiverReadsNothing()
    ensures EventsFit(LOWEST, NEW_SERVER, RUN)
    ensures var z := RunServer(LOWEST, NEW_SERVER, RUN);
      && TubeFits(z.s, CAT_RECEIVE.ops)
      && var r := StepTube(LOWEST, z, 2, None, CAT_RECEIVE); var p, k := r.v.s.proc, |z.s.proc.children|;
      && r.Ran? && |p.children| == k + 1 && p.children[k].stdin == Dangling && k in Progress.Rounds(p, {}, 1)
  {
    hide RunServer, EventsFit;
    var z := TubeLosesReadEnd();
    var e := z.tubes[0];
    assert USERS[0].id == 1 && Hit(Pair(1, 2), e);
    ApplySingle(z, 2, FirstTubeWiring(z.s, CAT_RECEIVE.ops), ReceiveFrom(1));
    var u := Spawn(z.s, FirstTubeWiring(z.s, CAT_RECEIVE.ops).(stdin := 0), ["cat"]);
    var r := StepTube(LOWEST, z, 2, None, CAT_RECEIVE);
    CloseAllFds(Finish(z.s, FirstTubeWiring(z.s, CAT_RECEIVE.ops).(stdin := 0), ["cat"]).proc, HitFds(z.tubes, Pair(1, 2)));
    var p, k := r.v.s.proc, |z.s.proc.children|;
    assert p.children[k].stdin == Dangling;
    assert Progress.Rounds(p, {}, 1) == Progress.Round(p, Progress.Rounds(p, {}, 0));
    assert Progress.CanExit(p, {}, k);
  }
}
