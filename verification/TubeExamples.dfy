/** Runs of the single-process server from its start, with users 1 and 2, on every sound
    kernel: a wait that never ends, a pipe between users, and a tube that a stranger gets. */
module TubeExamples {
  import opened Text
  import opened Kernel
  import opened NumberedPipes
  import opened Tubes
  import opened TubeRuns
  import opened UserList
  import opened SingleHandler
  import opened TubeBooks
  import opened TubeServer
  import opened TubeTrace
  import opened TubeFlow
  import opened TubeFeeds
  import opened StdinLost
  import opened TypedLines
  import Progress
  import SingleShell

  const CAT_BAR := TubeCommand(["cat"], [ReceiveFrom(1), Num(Bar(1))])

  lemma {:induction false} OpToken(tok: string, rest: seq<string>)
    requires SingleShell.IsOp(tok) && !SingleShell.TakesFile(tok)
    ensures SingleShell.ParseOps([tok] + rest) == [SingleShell.ReadOp([tok] + rest)] + SingleShell.ParseOps(rest)
    ensures SingleShell.AfterOps([tok] + rest) == SingleShell.AfterOps(rest)
  {
    assert ([tok] + rest)[1..] == rest;
  }

  lemma {:induction false} OneWord(word: string, rest: seq<string>)
    requires !SingleShell.IsOp(word) && (rest != [] ==> SingleShell.IsOp(rest[0]))
    ensures SingleShell.ParseLine([word] + rest) ==
            [TubeCommand([word], SingleShell.ParseOps(rest))] + SingleShell.ParseLine(SingleShell.AfterOps(rest))
  {
    var line := [word] + rest;
    assert line[1..] == rest && line[..1] == [word];
    assert SingleShell.ArgRun(rest) == 0;
    assert SingleShell.ArgRun(line) == 1;
  }

  /** What `handler` reads from `cat <1 | cat`. */
  lemma {:induction false} TypedReceive()
    ensures SingleShell.ParseLine(["cat", "<1", "|", "cat"]) == [CAT_BAR, CAT]
  {
    hide SingleShell.ParseLine, SingleShell.ParseOps, SingleShell.AfterOps;
    StdinLost.Typed();
    ScanDecimal(1);
    assert Decimal(1) == "1" && "<1"[1..] == "1";
    OneWord("cat", ["<1", "|", "cat"]);
    OpToken("<1", ["|", "cat"]);
    OpToken("|", ["cat"]);
    NoOps();
    assert ["cat"] + ["<1", "|", "cat"] == ["cat", "<1", "|", "cat"];
    assert ["<1"] + ["|", "cat"] == ["<1", "|", "cat"] && ["|"] + ["cat"] == ["|", "cat"];
    assert SingleShell.ReadOp(["<1", "|", "cat"]) == ReceiveFrom(1);
    assert SingleShell.ReadOp(["|", "cat"]) == Num(Bar(1));
    assert [ReceiveFrom(1)] + ([Num(Bar(1))] + []) == CAT_BAR.ops;
    assert [CAT_BAR] + [CAT] == [CAT_BAR, CAT];
  }

  lemma {:induction false} NoOps()
    ensures SingleShell.ParseOps(["cat"]) == [] && SingleShell.AfterOps(["cat"]) == ["cat"]
  {
  }

  // ---- One event after the other ----

  lemma {:induction false} First(pick: Allocator, v: Server, e: Event, rest: seq<Event>, tr: Trace)
    requires EventFits(v, e) && EventsFit(pick, NextServer(pick, v, e), rest)
    requires e.Line? ==> LineClear(pick, v, e.me, None, e.cmds, false) && !LineStrands(pick, v, e.me, None, e.cmds, false)
    requires NothingAfterStranding(pick, NextServer(pick, v, e), rest, false)
    ensures EventsFit(pick, v, [e] + rest) && NothingAfterStranding(pick, v, [e] + rest, false)
    ensures RunServer(pick, v, [e] + rest) == RunServer(pick, NextServer(pick, v, e), rest)
    ensures RunTrace(pick, v, [e] + rest, tr) ==
            RunTrace(pick, NextServer(pick, v, e), rest, if e.Line? then LineTrace(pick, v, e.me, None, e.cmds, tr) else tr)
  {
    hide LineClear, LineStrands, LineTrace, NextServer;
    assert ([e] + rest)[1..] == rest;
  }

  lemma {:induction false} Last(pick: Allocator, v: Server, tr: Trace)
    ensures EventsFit(pick, v, []) && NothingAfterStranding(pick, v, [], false)
    ensures RunServer(pick, v, []) == v && RunTrace(pick, v, [], tr) == tr
  {
  }

  ghost predicate Now(v: Server, count: nat, tubes: nat) {
    && v.s.count == count < 100 && |v.s.table| == PIPE_NUMBER && |v.s.proc.children| == count && v.users == USERS
    && |v.tubes| == tubes && (forall i | 0 <= i < tubes :: v.tubes[i].sender == 1 && v.tubes[i].receiver == 2)
    && forall k | count <= k < PIPE_NUMBER :: v.s.table[k] == EMPTY
  }

  /** A command without any operator. */
  lemma {:induction false} CatStep(pick: Allocator, v: Server, me: int, receive: Option<int>)
    requires v.s.count < |v.s.table|
    ensures TubeFits(v.s, CAT.ops)
    ensures var r := StepTube(pick, v, me, receive, CAT); var p, k := r.v.s.proc, |v.s.proc.children|;
      && r.Ran? && |p.children| == k + 1 && p.children[k].waited && p.children[..k] == v.s.proc.children
      && r.v.users == v.users && r.v.s.count == v.s.count + 1 && |r.v.s.table| == |v.s.table|
  {
    BeginFits(v.s, CAT.ops);
    var b := v.(s := Begin(v.s));
    var w := FirstTubeWiring(v.s, CAT.ops);
    if receive.Some? { CloseAllFds(Finish(b.s, w, CAT.argv).proc, HitFds(b.tubes, Pair(receive.value, me))); }
  }

  lemma {:induction false} CatLast(pick: Allocator, v: Server, me: int, receive: Option<int>, tr: Trace)
    requires v.s.count < |v.s.table|
    ensures TubeStreamFits(v.s, [CAT])
    ensures LineTrace(pick, v, me, receive, [CAT], tr) == ForkTrace(tr, me, CAT.ops)
    ensures LineClear(pick, v, me, receive, [CAT], false) && !LineStrands(pick, v, me, receive, [CAT], false)
    ensures var p, k := RunTubeLine(pick, v, me, receive, [CAT]).s.proc, |v.s.proc.children|;
      |p.children| == k + 1 && p.children[k].waited
  {
    hide ForkTrace, StepTube;
    assert TubeStreamFits(v.s, [CAT]);
    TubeStreamTail(pick, v, me, receive, [CAT]);
    assert [CAT][1..] == [];
    CatStep(pick, v, me, receive);
  }

  const AFTER_SEND := Trace([Fork(1, None, ToTube(2), Own, false, {}, None)], {}, map[(1, 2) := Some(0)])

  lemma {:induction false} SendTrace()
    ensures ForkTrace(NO_TRACE, 1, LS_SEND.ops) == AFTER_SEND
  {
    Snoc([], SendTo(2), 0);
    assert [] + [SendTo(2)] == LS_SEND.ops;
    assert NewWriters(1, LS_SEND.ops, Some(0)) == map[(1, 2) := Some(0)];
  }

  /** User 1 types `ls >2`. */
  lemma {:induction false} SendEvent(pick: Allocator, v: Server)
    requires Now(v, 0, 0)
    ensures TubeStreamFits(v.s, [LS_SEND])
    ensures Now(RunTubeLine(pick, v, 1, None, [LS_SEND]), 1, 1)
    ensures LineTrace(pick, v, 1, None, [LS_SEND], NO_TRACE) == AFTER_SEND
    ensures LineClear(pick, v, 1, None, [LS_SEND], false) && !LineStrands(pick, v, 1, None, [LS_SEND], false)
  {
    hide ForkTrace;
    SendTrace();
    TubeStreamTail(pick, v, 1, None, [LS_SEND]);
    assert [LS_SEND][1..] == [];
    var w := FirstTubeWiring(v.s, LS_SEND.ops);
    ApplyTubeStep(pick, v, 1, w, None, LS_SEND.ops);
    assert LS_SEND.ops[1..] == [] && USERS[1].id == 2;
  }

  const AFTER_RECEIVE := Trace(
    [AFTER_SEND.forks[0], Fork(2, Some(1), Ahead(1), Own, false, {2}, Some(0))], {2}, map[(1, 2) := Some(0)])

  const AFTER_CAT := Trace(AFTER_RECEIVE.forks + [Fork(2, None, Own, Own, true, {2}, None)], {2}, map[(1, 2) := Some(0)])

  lemma {:induction false} ReceiveTrace()
    ensures ForkTrace(AFTER_SEND, 2, CAT_BAR.ops) == AFTER_RECEIVE
    ensures ForkTrace(AFTER_RECEIVE, 2, CAT.ops) == AFTER_CAT
  {
    Snoc([], ReceiveFrom(1), 1);
    Snoc([ReceiveFrom(1)], Num(Bar(1)), 1);
    assert [] + [ReceiveFrom(1)] == [ReceiveFrom(1)] && [ReceiveFrom(1)] + [Num(Bar(1))] == CAT_BAR.ops;
    assert AFTER_SEND.writers + NewWriters(2, CAT_BAR.ops, Some(1)) == AFTER_SEND.writers;
    assert AFTER_SEND.named + Named(1, CAT_BAR.ops) == {2};
    assert AFTER_RECEIVE.writers + NewWriters(2, CAT.ops, Some(2)) == AFTER_RECEIVE.writers;
    assert AFTER_RECEIVE.named + Named(2, CAT.ops) == {2};
  }

  lemma {:induction false} ReceiveStep(pick: Allocator, v: Server)
    requires Now(v, 1, 1)
    ensures TubeFits(v.s, CAT_BAR.ops)
    ensures var r := StepTube(pick, v, 2, None, CAT_BAR);
      && r.Ran? && r.receive == Some(1) && r.v.s.count == 2 && |r.v.s.table| == PIPE_NUMBER && |r.v.s.proc.children| == 2
  {
    BeginFits(v.s, CAT_BAR.ops);
    var w, ops := FirstTubeWiring(v.s, CAT_BAR.ops), CAT_BAR.ops;
    assert USERS[0].id == 1 && Hit(Pair(1, 2), v.tubes[0]);
    ApplyTubeStep(pick, v, 2, w, None, ops);
    var x := w.(stdin := FirstOf(v.tubes, 1, 2).readFd);
    assert ops[1..] == [Num(Bar(1))] && [Num(Bar(1))][1..] == [];
    ApplyTubeStep(pick, v, 2, x, Some(1), [Num(Bar(1))]);
    var r := ApplyTube(pick, v, 2, w, None, ops);
    CloseAllFds(Finish(r.v.s, r.w, CAT_BAR.argv).proc, HitFds(r.v.tubes, Pair(1, 2)));
  }

  /** User 2 types `cat <1 | cat`. */
  lemma {:induction false} ReceiveEvent(pick: Allocator, v: Server)
    requires Now(v, 1, 1)
    ensures TubeStreamFits(v.s, [CAT_BAR, CAT])
    ensures LineTrace(pick, v, 2, None, [CAT_BAR, CAT], AFTER_SEND) == AFTER_CAT
    ensures LineClear(pick, v, 2, None, [CAT_BAR, CAT], false) && !LineStrands(pick, v, 2, None, [CAT_BAR, CAT], false)
    ensures var p := RunTubeLine(pick, v, 2, None, [CAT_BAR, CAT]).s.proc; |p.children| == 3 && p.children[2].waited
  {
    hide ForkTrace, StepTube;
    var cmds := [CAT_BAR, CAT];
    assert TubeStreamFits(v.s, cmds);
    TubeStreamTail(pick, v, 2, None, cmds);
    ReceiveTrace();
    ReceiveStep(pick, v);
    var u := StepTube(pick, v, 2, None, CAT_BAR).v;
    assert cmds[1..] == [CAT];
    CatLast(pick, u, 2, Some(1), AFTER_RECEIVE);
  }

  const WAIT_RUN := [Connect(4), Connect(5), Line(1, [LS_SEND]), Line(2, [CAT_BAR, CAT])]

  lemma {:induction false} Connected(pick: Allocator, rest: seq<Event>)
    requires var v := Server(Init(), [], USERS); EventsFit(pick, v, rest) && NothingAfterStranding(pick, v, rest, false)
    ensures var v, all := Server(Init(), [], USERS), [Connect(4), Connect(5)] + rest;
      && EventsFit(pick, NEW_SERVER, all) && NothingAfterStranding(pick, NEW_SERVER, all, false)
      && RunServer(pick, NEW_SERVER, all) == RunServer(pick, v, rest)
      && RunTrace(pick, NEW_SERVER, all, NO_TRACE) == RunTrace(pick, v, rest, NO_TRACE)
  {
    hide RunServer, RunTrace, EventsFit, NothingAfterStranding;
    var v := NextServer(pick, NEW_SERVER, Connect(4));
    assert NextServer(pick, v, Connect(5)) == Server(Init(), [], USERS);
    First(pick, v, Connect(5), rest, NO_TRACE);
    First(pick, NEW_SERVER, Connect(4), [Connect(5)] + rest, NO_TRACE);
    assert [Connect(4)] + ([Connect(5)] + rest) == [Connect(4), Connect(5)] + rest;
  }

  lemma {:induction false} Waits(pick: Allocator)
    ensures EventsFit(pick, NEW_SERVER, WAIT_RUN) && NothingAfterStranding(pick, NEW_SERVER, WAIT_RUN, false)
    ensures RunTrace(pick, NEW_SERVER, WAIT_RUN, NO_TRACE) == AFTER_CAT
    ensures var p := RunServer(pick, NEW_SERVER, WAIT_RUN).s.proc; |p.children| == 3 && p.children[2].waited
  {
    hide RunServer, RunTrace, EventsFit, NothingAfterStranding, Now, LineClear, LineStrands, LineTrace, RunTubeLine, TubeStreamFits;
    var v := Server(Init(), [], USERS);
    assert Now(v, 0, 0) by { NowStart(); }
    var receives: seq<Event> := [Line(2, [CAT_BAR, CAT])];
    SendEvent(pick, v);
    var u := RunTubeLine(pick, v, 1, None, [LS_SEND]);
    ReceiveEvent(pick, u);
    var z := RunTubeLine(pick, u, 2, None, [CAT_BAR, CAT]);
    Last(pick, z, AFTER_CAT);
    First(pick, u, receives[0], [], AFTER_SEND);
    assert receives + [] == receives;
    First(pick, v, Line(1, [LS_SEND]), receives, NO_TRACE);
    Connected(pick, [Line(1, [LS_SEND])] + receives);
    assert [Connect(4), Connect(5)] + ([Line(1, [LS_SEND])] + receives) == WAIT_RUN;
  }

  lemma {:induction false} NowStart()
    ensures Now(Server(Init(), [], USERS), 0, 0)
  {
  }

  /** Users 1 and 2 connect, user 1 types `ls >2` and user 2 `cat <1 | cat`. On every kernel
      the server waits for the last child, which never exits: the child before it reads a
      tube and so is stuck, and its slot was named when that one was forked. */
  lemma {:induction false} WaitNeverReturns(pick: Allocator, n: nat)
    requires Sound(pick)
    ensures EventsFit(pick, NEW_SERVER, WAIT_RUN) && NothingAfterStranding(pick, NEW_SERVER, WAIT_RUN, false)
    ensures var p := RunServer(pick, NEW_SERVER, WAIT_RUN).s.proc;
      |p.children| == 3 && p.children[2].waited && 2 !in Progress.Rounds(p, {}, n)
  {
    hide RunServer, EventsFit, NothingAfterStranding, RunTrace, Progress.Rounds;
    Waits(pick);
    var forks := AFTER_CAT.forks;
    assert 2 in forks[1].named && StuckBy(forks, 1);
    assert StuckBy(forks, 2);
    WhoExits(pick, WAIT_RUN, 2, {}, n);
  }

  // ---- A pipe between users ----

  const FEED_RUN := [Connect(4), Connect(5), Line(1, [LS_BAR]), Line(2, [CAT])]

  const AFTER_BAR := Trace([Fork(1, None, Ahead(1), Own, false, {1}, None)], {1}, map[])
  const AFTER_FED := Trace(AFTER_BAR.forks + [Fork(2, None, Own, Own, true, {1}, None)], {1}, map[])

  lemma {:induction false} FeedTrace()
    ensures ForkTrace(NO_TRACE, 1, LS_BAR.ops) == AFTER_BAR && ForkTrace(AFTER_BAR, 2, CAT.ops) == AFTER_FED
  {
    Snoc([], Num(Bar(1)), 0);
    assert [] + [Num(Bar(1))] == LS_BAR.ops;
    assert NewWriters(1, LS_BAR.ops, Some(0)) == map[];
    assert NO_TRACE.writers + NewWriters(1, LS_BAR.ops, Some(0)) == map[];
    assert NO_TRACE.named + Named(0, LS_BAR.ops) == {1};
    assert AFTER_BAR.writers + NewWriters(2, CAT.ops, Some(1)) == AFTER_BAR.writers;
    assert AFTER_BAR.named + Named(1, CAT.ops) == {1};
  }

  lemma {:induction false} BarEvent(pick: Allocator, v: Server)
    requires Now(v, 0, 0)
    ensures TubeStreamFits(v.s, [LS_BAR])
    ensures var u := RunTubeLine(pick, v, 1, None, [LS_BAR]); u.s.count == 1 && |u.s.table| == PIPE_NUMBER
    ensures LineTrace(pick, v, 1, None, [LS_BAR], NO_TRACE) == AFTER_BAR
    ensures LineClear(pick, v, 1, None, [LS_BAR], false) && !LineStrands(pick, v, 1, None, [LS_BAR], false)
  {
    hide ForkTrace;
    FeedTrace();
    TubeStreamTail(pick, v, 1, None, [LS_BAR]);
    assert [LS_BAR][1..] == [] && LS_BAR.ops[1..] == [];
    ApplyTubeStep(pick, v, 1, FirstTubeWiring(v.s, LS_BAR.ops), None, LS_BAR.ops);
  }

  /** User 1 types `ls |1` and user 2 `cat`: the `cat` of user 2 reads what the `ls` of
      user 1 writes. */
  lemma {:induction false} PipeBetweenUsers(pick: Allocator)
    requires Sound(pick)
    ensures EventsFit(pick, NEW_SERVER, FEED_RUN) && NothingAfterStranding(pick, NEW_SERVER, FEED_RUN, false)
    ensures RunTrace(pick, NEW_SERVER, FEED_RUN, NO_TRACE) == AFTER_FED
    ensures var p := RunServer(pick, NEW_SERVER, FEED_RUN).s.proc; |p.children| == 2 && Feeds(p, 0, 1)
  {
    hide RunServer, RunTrace, EventsFit, NothingAfterStranding, Now, LineClear, LineStrands, LineTrace, RunTubeLine,
      TubeStreamFits, ForkTrace, Feeds;
    var v := Server(Init(), [], USERS);
    NowStart();
    BarEvent(pick, v);
    var u := RunTubeLine(pick, v, 1, None, [LS_BAR]);
    FeedTrace();
    CatLast(pick, u, 2, None, AFTER_BAR);
    var cats: seq<Event> := [Line(2, [CAT])];
    Last(pick, RunTubeLine(pick, u, 2, None, [CAT]), AFTER_FED);
    First(pick, u, cats[0], [], AFTER_BAR);
    assert cats + [] == cats;
    First(pick, v, Line(1, [LS_BAR]), cats, NO_TRACE);
    Connected(pick, [Line(1, [LS_BAR])] + cats);
    assert [Connect(4), Connect(5)] + ([Line(1, [LS_BAR])] + cats) == FEED_RUN;
    WhoFeedsWhom(pick, FEED_RUN);
    assert Aims(AFTER_FED.forks, 0, 1);
  }

  // ---- Errors into a pipe ----

  const LS_BANG := TubeCommand(["ls"], [Num(Bang(1))])

  lemma {:induction false} OneMark(word: string, m: Mark)
    requires word != [] && word[0] !in SINGLE_SYMBOLS
    ensures SingleShell.ParseLine([word] + PrintMark(m)) == [TubeCommand([word], [SingleOp(m)])]
    ensures SingleShell.ParseLine([word]) == [TubeCommand([word], [])]
  {
    hide SingleShell.ParseLine, PrintMark, SingleOp;
    var marked, plain := [Phrase([word], [m])], [Phrase([word], [])];
    assert [m][1..] == [] && marked[1..] == [] && plain[1..] == [];
    assert PrintMarks([m]) == PrintMark(m) && PrintMarks([]) == [];
    assert PrintLine([]) == [];
    assert PrintLine(marked) == [word] + PrintMark(m) && PrintLine(plain) == [word];
    SingleReads(marked);
    SingleReads(plain);
    assert SingleOps(marked[0].marks) == [SingleOp(m)] && SingleOps(plain[0].marks) == [];
    assert SingleCommands(marked) == [TubeCommand([word], [SingleOp(m)])];
    assert SingleCommands(plain) == [TubeCommand([word], [])];
  }

  /** What `handler` reads from the two typed lines. */
  lemma {:induction false} TypedBang()
    ensures SingleShell.ParseLine(["ls", "!1"]) == [LS_BANG] && SingleShell.ParseLine(["cat"]) == [CAT]
  {
    hide SingleShell.ParseLine;
    OneMark("ls", Both(Some(1)));
    OneMark("cat", Both(Some(1)));
    assert Decimal(1) == "1" && "!" + "1" == "!1";
    assert ["ls"] + PrintMark(Both(Some(1))) == ["ls", "!1"];
  }

  const BANG_RUN := [
    Connect(4), Connect(5), Line(1, SingleShell.ParseLine(["ls", "!1"])), Line(1, SingleShell.ParseLine(["cat"]))]

  const AFTER_BANG := Trace([Fork(1, None, Ahead(1), Ahead(1), false, {1}, None)], {1}, map[])
  const AFTER_ERRS := Trace(AFTER_BANG.forks + [Fork(1, None, Own, Own, true, {1}, None)], {1}, map[])

  lemma {:induction false} BangTrace()
    ensures ForkTrace(NO_TRACE, 1, LS_BANG.ops) == AFTER_BANG && ForkTrace(AFTER_BANG, 1, CAT.ops) == AFTER_ERRS
  {
    Snoc([], Num(Bang(1)), 0);
    assert [] + [Num(Bang(1))] == LS_BANG.ops;
    assert NewWriters(1, LS_BANG.ops, Some(0)) == map[];
    assert NO_TRACE.writers + NewWriters(1, LS_BANG.ops, Some(0)) == map[];
    assert NO_TRACE.named + Named(0, LS_BANG.ops) == {1};
    assert AFTER_BANG.writers + NewWriters(1, CAT.ops, Some(1)) == AFTER_BANG.writers;
    assert AFTER_BANG.named + Named(1, CAT.ops) == {1};
  }

  lemma {:induction false} BangEvent(pick: Allocator, v: Server)
    requires Now(v, 0, 0)
    ensures TubeStreamFits(v.s, [LS_BANG])
    ensures var u := RunTubeLine(pick, v, 1, None, [LS_BANG]); u.s.count == 1 && |u.s.table| == PIPE_NUMBER
    ensures LineTrace(pick, v, 1, None, [LS_BANG], NO_TRACE) == AFTER_BANG
    ensures LineClear(pick, v, 1, None, [LS_BANG], false) && !LineStrands(pick, v, 1, None, [LS_BANG], false)
  {
    hide ForkTrace;
    BangTrace();
    TubeStreamTail(pick, v, 1, None, [LS_BANG]);
    assert [LS_BANG][1..] == [] && LS_BANG.ops[1..] == [];
    ApplyTubeStep(pick, v, 1, FirstTubeWiring(v.s, LS_BANG.ops), None, LS_BANG.ops);
  }

  /** User 1 types `ls !1` and `cat`: `cat` reads both what `ls` writes and its errors. */
  lemma {:induction false} ErrorsIntoPipe(pick: Allocator)
    requires Sound(pick)
    ensures EventsFit(pick, NEW_SERVER, BANG_RUN) && NothingAfterStranding(pick, NEW_SERVER, BANG_RUN, false)
    ensures var p := RunServer(pick, NEW_SERVER, BANG_RUN).s.proc; |p.children| == 2 && Feeds(p, 0, 1) && Errs(p, 0, 1)
  {
    hide RunServer, RunTrace, EventsFit, NothingAfterStranding, Now, LineClear, LineStrands, LineTrace, RunTubeLine,
      TubeStreamFits, ForkTrace, Feeds, Errs, SingleShell.ParseLine;
    TypedBang();
    var v := Server(Init(), [], USERS);
    NowStart();
    BangEvent(pick, v);
    var u := RunTubeLine(pick, v, 1, None, [LS_BANG]);
    BangTrace();
    CatLast(pick, u, 1, None, AFTER_BANG);
    var cats: seq<Event> := [Line(1, [CAT])];
    Last(pick, RunTubeLine(pick, u, 1, None, [CAT]), AFTER_ERRS);
    First(pick, u, cats[0], [], AFTER_BANG);
    assert cats + [] == cats;
    First(pick, v, Line(1, [LS_BANG]), cats, NO_TRACE);
    Connected(pick, [Line(1, [LS_BANG])] + cats);
    assert [Connect(4), Connect(5)] + ([Line(1, [LS_BANG])] + cats) == BANG_RUN;
    WhoFeedsWhom(pick, BANG_RUN);
    assert Aims(AFTER_ERRS.forks, 0, 1) && AimsErr(AFTER_ERRS.forks, 0, 1);
  }

  // ---- A tube to a user who left ----

  const LEAVE_RUN := [Connect(4), Connect(5), Line(1, [LS_SEND]), Disconnect(5), Connect(6)]

  lemma {:induction false} Leaves(pick: Allocator, v: Server)
    requires Now(v, 1, 1)
    ensures EventFits(v, Disconnect(5))
    ensures var u := NextServer(pick, v, Disconnect(5)); u.tubes == v.tubes && u.users == [User(1, 4)]
    ensures var z := NextServer(pick, NextServer(pick, v, Disconnect(5)), Connect(6));
      z.tubes == v.tubes && z.users == [User(1, 4), User(2, 6)]
  {
    var u := NextServer(pick, v, Disconnect(5));
    assert u.users == [User(1, 4)] by {
      assert v.users[1..] == [User(2, 5)] && [User(2, 5)][1..] == [];
      assert DeleteFd([User(2, 5)], 5) == [];
    }
    NoHits(v.tubes, From(5));
    assert AvailableId(u.users) == 2 && StopAt(u.users, 2, 0) == 0;
  }

  /** Users 1 and 2 connect, user 1 types `ls >2`, and user 2 leaves. The next connection gets
      the id 2, and the tube that was meant for the user who left still waits for it. */
  lemma {:induction false} ReusedIdInherits(pick: Allocator)
    ensures EventsFit(pick, NEW_SERVER, LEAVE_RUN) && NothingAfterStranding(pick, NEW_SERVER, LEAVE_RUN, false)
    ensures var z := RunServer(pick, NEW_SERVER, LEAVE_RUN); z.users == [User(1, 4), User(2, 6)] && HasPair(z.tubes, 1, 2)
  {
    hide RunServer, RunTrace, EventsFit, NothingAfterStranding, Now, LineClear, LineStrands, LineTrace, RunTubeLine, TubeStreamFits;
    var v := Server(Init(), [], USERS);
    NowStart();
    SendEvent(pick, v);
    var u := RunTubeLine(pick, v, 1, None, [LS_SEND]);
    Leaves(pick, u);
    var x := NextServer(pick, u, Disconnect(5));
    var z := NextServer(pick, x, Connect(6));
    Last(pick, z, AFTER_SEND);
    First(pick, x, Connect(6), [], AFTER_SEND);
    assert [Connect(6)] + [] == [Connect(6)];
    First(pick, u, Disconnect(5), [Connect(6)], AFTER_SEND);
    First(pick, v, Line(1, [LS_SEND]), [Disconnect(5)] + [Connect(6)], NO_TRACE);
    Connected(pick, [Line(1, [LS_SEND])] + ([Disconnect(5)] + [Connect(6)]));
    assert [Connect(4), Connect(5)] + ([Line(1, [LS_SEND])] + ([Disconnect(5)] + [Connect(6)])) == LEAVE_RUN;
    assert Hit(Pair(1, 2), z.tubes[0]) by { NowTube(u); }
  }

  lemma {:induction false} NowTube(v: Server)
    requires Now(v, 1, 1)
    ensures |v.tubes| == 1 && Hit(Pair(1, 2), v.tubes[0])
  {
  }
}
