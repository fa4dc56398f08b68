/** Whole runs of the single-process server: connections, disconnections and lines of all
    users, refused ones included. When does it close its own standard input, and what
    holds of the user pipes as long as it does not? */
module TubeServer {
  import opened Text
  import opened Kernel
  import opened NumberedPipes
  import opened Tubes
  import opened TubeRuns
  import opened UserList
  import opened SingleHandler
  import opened TubeBooks

  /** What the server does for one ready descriptor: a line of a user, a connection, or a
      disconnection, which deletes tubes by the descriptor unless the deletion faults. */
  datatype Event = Line(me: int, cmds: seq<TubeCommand>) | Connect(fd: int) | Disconnect(fd: int)

  const NEW_SERVER := Server(Init(), [], [])

  predicate EventFits(v: Server, e: Event) {
    match e
    case Line(_, cmds) => TubeStreamFits(v.s, cmds)
    case Connect(_) => true
    case Disconnect(fd) => !StartsWithTwo(v.tubes, From(fd))
  }

  function NextServer(pick: Allocator, v: Server, e: Event): Server
    requires EventFits(v, e)
  {
    match e
    case Line(me, cmds) => RunTubeLine(pick, v, me, None, cmds)
    case Connect(fd) => v.(users := Insert(v.users, fd))
    case Disconnect(fd) => Deleted(v, From(fd)).(users := DeleteFd(v.users, fd))
  }

  predicate EventsFit(pick: Allocator, v: Server, events: seq<Event>)
    decreases |events|
  {
    events == [] || (EventFits(v, events[0]) && EventsFit(pick, NextServer(pick, v, events[0]), events[1..]))
  }

  function RunServer(pick: Allocator, v: Server, events: seq<Event>): Server
    requires EventsFit(pick, v, events)
    decreases |events|
  {
    if events == [] then v else RunServer(pick, NextServer(pick, v, events[0]), events[1..])
  }

  // ---- Stranding: a command refused while a numbered pipe waits for it ----

  predicate ZeroJump(op: TubeOp) {
    op.Num? && HasJump(op.op) && op.op.jump == 0
  }

  /** The command reaches a `|0` or `!0`, which makes its own slot a new pipe. */
  predicate Renews(pick: Allocator, v: Server, me: int, w: Wiring, receive: Option<int>, ops: seq<TubeOp>)
    requires TubeFits(v.s, ops)
    decreases |ops|
  {
    ops != [] &&
    (ApplyTubeStep(pick, v, me, w, receive, ops);
     var r := ApplyTubeOp(pick, v, me, w, receive, ops[0]);
     r.Wired? && (ZeroJump(ops[0]) || Renews(pick, r.v, me, r.w, r.receive, ops[1..])))
  }

  /** The command is refused while a numbered pipe waits for it, and does not renew it. */
  predicate Strands(pick: Allocator, v: Server, me: int, receive: Option<int>, c: TubeCommand)
    requires TubeFits(v.s, c.ops)
  {
    BeginFits(v.s, c.ops);
    && v.s.table[v.s.count].read != 0
    && StepTube(pick, v, me, receive, c).Stopped?
    && !Renews(pick, v.(s := Begin(v.s)), me, FirstTubeWiring(v.s, c.ops), receive, c.ops)
  }

  /** No command of the line starts right after a stranding. */
  predicate LineClear(pick: Allocator, v: Server, me: int, receive: Option<int>, cmds: seq<TubeCommand>, stranded: bool)
    requires TubeStreamFits(v.s, cmds)
    decreases |cmds|
  {
    cmds == [] ||
    (!stranded &&
     (TubeStreamTail(pick, v, me, receive, cmds);
      var r := StepTube(pick, v, me, receive, cmds[0]);
      r.Ran? ==> LineClear(pick, r.v, me, r.receive, cmds[1..], false)))
  }

  /** Whether the last command that started before or in the line stranded a pipe. */
  predicate LineStrands(pick: Allocator, v: Server, me: int, receive: Option<int>, cmds: seq<TubeCommand>, stranded: bool)
    requires TubeStreamFits(v.s, cmds)
    decreases |cmds|
  {
    if cmds == [] then stranded
    else
      TubeStreamTail(pick, v, me, receive, cmds);
      match StepTube(pick, v, me, receive, cmds[0])
      case Stopped(_) => Strands(pick, v, me, receive, cmds[0])
      case Ran(u, rec) => LineStrands(pick, u, me, rec, cmds[1..], false)
  }

  /** No command of any user follows a command that was refused while a numbered pipe was
      waiting for it. */
  predicate NothingAfterStranding(pick: Allocator, v: Server, events: seq<Event>, stranded: bool)
    requires EventsFit(pick, v, events)
    decreases |events|
  {
    events == [] ||
    match events[0]
    case Line(me, cmds) =>
      LineClear(pick, v, me, None, cmds, stranded) &&
      NothingAfterStranding(pick, NextServer(pick, v, events[0]), events[1..],
                            LineStrands(pick, v, me, None, cmds, stranded))
    case _ => NothingAfterStranding(pick, NextServer(pick, v, events[0]), events[1..], stranded)
  }

  // ---- The slot at the cursor ----

  predicate AheadWhole(s: State) {
    forall k | s.count < k < |s.table| :: Whole(s.table[k])
  }

  /** The slot at the cursor is a stranded read end, or else empty or a full pair. */
  predicate AtCursor(s: State, stranded: bool) {
    if s.count < |s.table| then
      (if stranded then s.table[s.count].read != 0 && s.table[s.count].write == 0 else Whole(s.table[s.count]))
    else !stranded
  }

  ghost predicate Sane(v: Server, stranded: bool) {
    TubeBooks.Books(v) && AheadWhole(v.s) && AtCursor(v.s, stranded)
  }

  lemma {:induction false} OpCursor(pick: Allocator, v: Server, me: int, w: Wiring, receive: Option<int>, op: TubeOp)
    requires Sound(pick) && 0 in v.s.proc.std && TubeOpFits(v.s, op) && AheadWhole(v.s) && v.s.count < |v.s.table|
    requires var slot := v.s.table[v.s.count]; slot.write == 0 || Whole(slot)
    ensures var r := ApplyTubeOp(pick, v, me, w, receive, op); var slot := v.s.table[v.s.count];
      && AheadWhole(r.v.s) && r.v.s.proc.std == v.s.proc.std && r.v.s.count == v.s.count && |r.v.s.table| == |v.s.table|
      && (if r.Wired? && ZeroJump(op) then Whole(r.v.s.table[v.s.count]) && r.v.s.table[v.s.count] != EMPTY
          else r.v.s.table[v.s.count] == slot)
  {
    var (r, w) := pick(|v.s.proc.pipes|, InUse(v.s.proc));
    assert r != 0 && w != 0 && r != w;
  }

  lemma {:induction false} ApplyCursor(pick: Allocator, v: Server, me: int, w: Wiring, receive: Option<int>, ops: seq<TubeOp>)
    requires Sound(pick) && 0 in v.s.proc.std && TubeFits(v.s, ops) && AheadWhole(v.s)
    requires var slot := v.s.table[v.s.count]; slot.write == 0 || Whole(slot)
    ensures var u := ApplyTube(pick, v, me, w, receive, ops).v; var slot := v.s.table[v.s.count];
      && AheadWhole(u.s) && u.s.proc.std == v.s.proc.std
      && (slot.write != 0 ==> Whole(u.s.table[u.s.count]) && u.s.table[u.s.count] != EMPTY)
      && (if Renews(pick, v, me, w, receive, ops) then Whole(u.s.table[u.s.count]) && u.s.table[u.s.count] != EMPTY
          else u.s.table[u.s.count] == slot)
    decreases |ops|
  {
    hide ApplyTubeOp, TubeFits, AheadWhole;
    if ops != [] {
      FitsHere(v.s, ops);
      ApplyTubeStep(pick, v, me, w, receive, ops);
      OpCursor(pick, v, me, w, receive, ops[0]);
      var r := ApplyTubeOp(pick, v, me, w, receive, ops[0]);
      if r.Wired? { ApplyCursor(pick, r.v, me, r.w, r.receive, ops[1..]); }
    }
  }

  /** A command at a whole slot leaves a whole slot under the cursor unless it strands. */
  lemma {:induction false} StepSane(pick: Allocator, v: Server, me: int, receive: Option<int>, c: TubeCommand)
    requires Sound(pick) && Sane(v, false) && TubeFits(v.s, c.ops)
    ensures var r := StepTube(pick, v, me, receive, c); Sane(r.v, r.Stopped? && Strands(pick, v, me, receive, c))
  {
    hide Recorded, TubesOpen, Unique, ApplyTube, TubeFits, Renews, ReceivedGone;
    FitsHere(v.s, c.ops);
    BeginFits(v.s, c.ops);
    StepBooks(pick, v, me, receive, c);
    BeginBooks(v);
    var b, w := v.(s := Begin(v.s)), FirstTubeWiring(v.s, c.ops);
    ApplyCursor(pick, b, me, w, receive, c.ops);
    var r := ApplyTube(pick, b, me, w, receive, c.ops);
    if r.Wired? { FinishCursor(r.v, me, r.w, r.receive, c.argv); }
  }

  lemma {:induction false} FinishCursor(v: Server, me: int, w: Wiring, receive: Option<int>, argv: seq<string>)
    requires v.s.count < |v.s.table| && AheadWhole(v.s)
    ensures var u := FinishTube(v, me, w, receive, argv); AheadWhole(u.s) && AtCursor(u.s, false)
  {
  }

  /** The command after a stranding closes descriptor 0. */
  lemma {:induction false} StepCloses(pick: Allocator, v: Server, me: int, receive: Option<int>, c: TubeCommand)
    requires Sane(v, true) && TubeFits(v.s, c.ops)
    ensures 0 !in StepTube(pick, v, me, receive, c).v.s.proc.std
  {
    BeginFits(v.s, c.ops);
    assert 0 !in Begin(v.s).proc.std;
    StepStd(pick, v, me, receive, c);
  }

  // ---- A closed standard stream never comes back ----

  lemma {:induction false} ApplyStd(pick: Allocator, v: Server, me: int, w: Wiring, receive: Option<int>, ops: seq<TubeOp>)
    requires TubeFits(v.s, ops)
    ensures ApplyTube(pick, v, me, w, receive, ops).v.s.proc.std == v.s.proc.std
    decreases |ops|
  {
    hide TubeFits;
    if ops != [] {
      ApplyTubeStep(pick, v, me, w, receive, ops);
      var r := ApplyTubeOp(pick, v, me, w, receive, ops[0]);
      if r.Wired? { ApplyStd(pick, r.v, me, r.w, r.receive, ops[1..]); }
    }
  }

  lemma {:induction false} StepStd(pick: Allocator, v: Server, me: int, receive: Option<int>, c: TubeCommand)
    requires TubeFits(v.s, c.ops)
    ensures StepTube(pick, v, me, receive, c).v.s.proc.std <= Begin(v.s).proc.std <= v.s.proc.std
  {
    hide ApplyTube;
    BeginFits(v.s, c.ops);
    var b, w := v.(s := Begin(v.s)), FirstTubeWiring(v.s, c.ops);
    ApplyStd(pick, b, me, w, receive, c.ops);
    var r := ApplyTube(pick, b, me, w, receive, c.ops);
    if r.Wired? && r.receive.Some? {
      CloseAllFds(Finish(r.v.s, r.w, c.argv).proc, HitFds(r.v.tubes, Pair(r.receive.value, me)));
    }
  }

  lemma {:induction false} LineStd(pick: Allocator, v: Server, me: int, receive: Option<int>, cmds: seq<TubeCommand>)
    requires TubeStreamFits(v.s, cmds)
    ensures RunTubeLine(pick, v, me, receive, cmds).s.proc.std <= v.s.proc.std
    decreases |cmds|
  {
    hide StepTube, TubeFits, TubeStreamFits;
    if cmds != [] {
      TubeStreamTail(pick, v, me, receive, cmds);
      FitsHere(v.s, cmds[0].ops);
      StepStd(pick, v, me, receive, cmds[0]);
      var r := StepTube(pick, v, me, receive, cmds[0]);
      if r.Ran? { LineStd(pick, r.v, me, r.receive, cmds[1..]); }
    }
  }

  lemma {:induction false} RunStd(pick: Allocator, v: Server, events: seq<Event>)
    requires EventsFit(pick, v, events)
    ensures RunServer(pick, v, events).s.proc.std <= v.s.proc.std
    decreases |events|
  {
    hide RunTubeLine;
    if events != [] {
      match events[0] {
        case Line(me, cmds) => LineStd(pick, v, me, None, cmds);
        case Connect(fd) =>
        case Disconnect(fd) => CloseAllFds(v.s.proc, HitFds(v.tubes, From(fd)));
      }
      RunStd(pick, NextServer(pick, v, events[0]), events[1..]);
    }
  }

  // ---- Lines and runs ----

  lemma {:induction false} LineSane(pick: Allocator, v: Server, me: int, receive: Option<int>, cmds: seq<TubeCommand>, stranded: bool)
    requires Sound(pick) && Sane(v, stranded) && TubeStreamFits(v.s, cmds)
    ensures if LineClear(pick, v, me, receive, cmds, stranded)
            then Sane(RunTubeLine(pick, v, me, receive, cmds), LineStrands(pick, v, me, receive, cmds, stranded))
            else 0 !in RunTubeLine(pick, v, me, receive, cmds).s.proc.std
    decreases |cmds|
  {
    hide Sane, StepTube, TubeFits, TubeStreamFits, Strands;
    if cmds != [] {
      TubeStreamTail(pick, v, me, receive, cmds);
      var r := StepTube(pick, v, me, receive, cmds[0]);
      if stranded {
        StepCloses(pick, v, me, receive, cmds[0]);
        if r.Ran? { LineStd(pick, r.v, me, r.receive, cmds[1..]); }
      } else {
        StepSane(pick, v, me, receive, cmds[0]);
        if r.Ran? { LineSane(pick, r.v, me, r.receive, cmds[1..], false); }
      }
    }
  }

  lemma {:induction false} OtherEventSane(pick: Allocator, v: Server, e: Event, stranded: bool)
    requires Sane(v, stranded) && !e.Line? && EventFits(v, e)
    ensures Sane(NextServer(pick, v, e), stranded)
  {
    hide Recorded, TubesOpen, Unique;
    if e.Disconnect? { DeletedBooks(v, From(e.fd)); }
  }

  ghost predicate Steady(v: Server) {
    Sane(v, false) || Sane(v, true)
  }

  lemma {:induction false} SaneIsSteady(v: Server, stranded: bool)
    requires Sane(v, stranded)
    ensures Steady(v)
  {
  }

  lemma {:induction false} RunSane(pick: Allocator, v: Server, events: seq<Event>, stranded: bool)
    requires Sound(pick) && Sane(v, stranded) && EventsFit(pick, v, events)
    ensures if NothingAfterStranding(pick, v, events, stranded)
            then Steady(RunServer(pick, v, events))
            else 0 !in RunServer(pick, v, events).s.proc.std
    decreases |events|
  {
    hide Sane, Steady, LineClear, LineStrands, RunTubeLine, TubeStreamFits;
    if events == [] {
      SaneIsSteady(v, stranded);
    } else {
      var u, rest := NextServer(pick, v, events[0]), events[1..];
      match events[0] {
        case Line(me, cmds) =>
          LineSane(pick, v, me, None, cmds, stranded);
          if LineClear(pick, v, me, None, cmds, stranded) {
            RunSane(pick, u, rest, LineStrands(pick, v, me, None, cmds, stranded));
          } else {
            RunStd(pick, u, rest);
          }
        case _ =>
          OtherEventSane(pick, v, events[0], stranded);
          RunSane(pick, u, rest, stranded);
      }
    }
  }

  lemma {:induction false} NewServerSane()
    ensures Sane(NEW_SERVER, false)
  {
  }

  /** Over every run from the empty server: descriptor 0 is never closed exactly when no
      command follows one that was refused while a numbered pipe was waiting for it. */
  lemma {:induction false} StdinStaysIff(pick: Allocator, events: seq<Event>)
    requires Sound(pick) && EventsFit(pick, NEW_SERVER, events)
    ensures 0 in RunServer(pick, NEW_SERVER, events).s.proc.std
            <==> NothingAfterStranding(pick, NEW_SERVER, events, false)
  {
    hide RunServer, EventsFit, NothingAfterStranding, Recorded, TubesOpen, Unique, AheadWhole, AtCursor;
    NewServerSane();
    RunSane(pick, NEW_SERVER, events, false);
  }

  /** After a run, refused commands included, the books are in order exactly under the same
      condition: every tube in the list has its own two open descriptors, which no entry of
      the pipe table shares, pairs are unique, and the standard streams are open. Without the
      condition it is the last part that fails for certain: descriptor 0 is closed, and a tube
      loses an end only when a later pipe got that number (`StdinLost`). */
  lemma {:induction false} TubesStayOpen(pick: Allocator, events: seq<Event>)
    requires Sound(pick) && EventsFit(pick, NEW_SERVER, events)
    ensures TubeBooks.Books(RunServer(pick, NEW_SERVER, events))
            <==> NothingAfterStranding(pick, NEW_SERVER, events, false)
  {
    hide RunServer, EventsFit, NothingAfterStranding, Recorded, TubesOpen, Unique, AheadWhole, AtCursor;
    NewServerSane();
    RunSane(pick, NEW_SERVER, events, false);
  }

  // ---- The tube list of a run as a map ----

  /** What the events do to the tubes. */
  function ServerSteps(pick: Allocator, v: Server, events: seq<Event>): seq<Step>
    requires EventsFit(pick, v, events)
    decreases |events|
  {
    if events == [] then []
    else
      (match events[0]
       case Line(me, cmds) => LineSteps(pick, v, me, None, cmds)
       case Connect(_) => []
       case Disconnect(fd) => [Leave(fd)])
      + ServerSteps(pick, NextServer(pick, v, events[0]), events[1..])
  }

  lemma {:induction false} ServerIsRun(pick: Allocator, v: Server, events: seq<Event>)
    requires EventsFit(pick, v, events)
    ensures RunServer(pick, v, events).tubes == RunList(v.tubes, ServerSteps(pick, v, events))
    decreases |events|
  {
    hide RunTubeLine, LineSteps, TubeStreamFits, NextList;
    if events != [] {
      var u := NextServer(pick, v, events[0]);
      ServerIsRun(pick, u, events[1..]);
      var now := match events[0]
        case Line(me, cmds) => LineSteps(pick, v, me, None, cmds)
        case Connect(_) => []
        case Disconnect(fd) => [Leave(fd)];
      assert u.tubes == RunList(v.tubes, now) by { EventIsRun(pick, v, events[0]); }
      RunListAppend(v.tubes, now, ServerSteps(pick, u, events[1..]));
    }
  }

  lemma {:induction false} EventIsRun(pick: Allocator, v: Server, e: Event)
    requires EventFits(v, e)
    ensures var now := match e
        case Line(me, cmds) => LineSteps(pick, v, me, None, cmds)
        case Connect(_) => []
        case Disconnect(fd) => [Leave(fd)];
      NextServer(pick, v, e).tubes == RunList(v.tubes, now)
  {
    hide RunTubeLine, LineSteps, TubeStreamFits;
    match e
    case Line(me, cmds) => LineIsRun(pick, v, me, None, cmds);
    case Connect(fd) =>
    case Disconnect(fd) => assert [Leave(fd)][1..] == [];
  }

  /** Over every run from the empty server, refused commands and strandings included, no two
      tubes have the same pair, and the list is the map from (sender, receiver) to a pipe that
      the accepted sends, the receives and the logouts give. */
  lemma {:induction false} ServerRefinesMap(pick: Allocator, events: seq<Event>)
    requires EventsFit(pick, NEW_SERVER, events)
    ensures var es := RunServer(pick, NEW_SERVER, events).tubes;
      Unique(es) && AsMap(es) == RunMap(map[], ServerSteps(pick, NEW_SERVER, events))
  {
    hide RunServer, EventsFit, ServerSteps, RunList, RunMap;
    ServerIsRun(pick, NEW_SERVER, events);
    RunRefinesMap([], ServerSteps(pick, NEW_SERVER, events));
  }

  /** After every run and the logout of the client with the descriptor `fd`, no tube goes from
      or to the id exactly when every pair from or to it that the run left pending was sent
      under the descriptor's number. */
  lemma {:induction false} LogoutClean(pick: Allocator, events: seq<Event>, fd: int, id: int)
    requires EventsFit(pick, NEW_SERVER, events) && EventFits(RunServer(pick, NEW_SERVER, events), Disconnect(fd))
    ensures var es := NextServer(pick, RunServer(pick, NEW_SERVER, events), Disconnect(fd)).tubes;
      (forall s, r | HasPair(es, s, r) :: s != id && r != id)
      <==> forall key | key in RunMap(map[], ServerSteps(pick, NEW_SERVER, events)) && (key.0 == id || key.1 == id) :: key.0 == fd
  {
    hide RunServer, EventsFit, ServerSteps, RunMap, HasPair;
    var v := RunServer(pick, NEW_SERVER, events);
    var es, m := NextServer(pick, v, Disconnect(fd)).tubes, AsMap(v.tubes);
    ServerRefinesMap(pick, events);
    WithoutSenderMap(v.tubes, fd);
    forall s, r
      ensures HasPair(es, s, r) <==> (s, r) in m && s != fd
    {
      InMap(es, s, r);
    }
    CleanIff(es, m, fd, id);
  }

  lemma {:induction false} CleanIff(es: seq<Entry>, m: Pipes, fd: int, id: int)
    requires forall s, r :: HasPair(es, s, r) <==> (s, r) in m && s != fd
    ensures (forall s, r | HasPair(es, s, r) :: s != id && r != id)
            <==> forall key | key in m && (key.0 == id || key.1 == id) :: key.0 == fd
  {
    hide HasPair;
    if forall s, r | HasPair(es, s, r) :: s != id && r != id {
      forall key | key in m && (key.0 == id || key.1 == id)
        ensures key.0 == fd
      {
        assert key == (key.0, key.1) && !HasPair(es, key.0, key.1);
      }
    }
  }
}
