/** Which children of the single-process server ever exit. A child that reads a user pipe
    holds that pipe's write end and never sees end-of-file; so does every child whose input
    pipe such a child has inherited the write end of. All others exit. */
module TubeProgress {
  import opened Text
  import opened Kernel
  import opened NumberedPipes
  import opened Tubes
  import opened TubeRuns
  import opened UserList
  import opened SingleHandler
  import opened TubeBooks
  import opened TubeServer
  import opened Progress

  // ---- The children of `<n` commands ----

  predicate Receives(c: TubeCommand) {
    exists i | 0 <= i < |c.ops| :: c.ops[i].ReceiveFrom?
  }

  /** The children that the line forks for commands with `<n`. */
  function LineReceivers(pick: Allocator, v: Server, me: int, receive: Option<int>, cmds: seq<TubeCommand>): set<nat>
    requires TubeStreamFits(v.s, cmds)
    decreases |cmds|
  {
    if cmds == [] then {}
    else
      TubeStreamTail(pick, v, me, receive, cmds);
      match StepTube(pick, v, me, receive, cmds[0])
      case Stopped(_) => {}
      case Ran(u, rec) => Receiver(v, cmds[0]) + LineReceivers(pick, u, me, rec, cmds[1..])
  }

  function Receiver(v: Server, c: TubeCommand): set<nat> {
    if Receives(c) then {|v.s.proc.children|} else {}
  }

  function Receivers(pick: Allocator, v: Server, events: seq<Event>): set<nat>
    requires EventsFit(pick, v, events)
    decreases |events|
  {
    if events == [] then {}
    else
      (match events[0]
       case Line(me, cmds) => LineReceivers(pick, v, me, None, cmds)
       case _ => {})
      + Receivers(pick, NextServer(pick, v, events[0]), events[1..])
  }

  /** Child k has a `<n`, or a stuck child before it holds the write end of its input. */
  ghost predicate Stuck(p: Proc, receivers: set<nat>, k: nat)
    requires k < |p.children|
    decreases k
  {
    k in receivers ||
    (p.children[k].stdin.Piped? &&
     exists j | 0 <= j < k :: InputWrite(p, k) in p.children[j].held && Stuck(p, receivers, j))
  }

  function InputWrite(p: Proc, k: nat): End
    requires k < |p.children| && p.children[k].stdin.Piped?
  {
    WriteEnd(p.children[k].stdin.end.pipe)
  }

  // ---- What holds of every child ----

  ghost predicate KidOk(p: Proc, receivers: set<nat>, k: nat)
    requires k < |p.children|
  {
    if k in receivers then
      p.children[k].stdin.Piped? && InputWrite(p, k) in p.children[k].held
    else
      p.children[k].stdin.Piped? ==>
        && p.children[k].stdin.end.pipe < |p.pipes| && InputWrite(p, k) !in EndsOf(p.fds)
        && forall j | 0 <= j < |p.children| && InputWrite(p, k) in p.children[j].held :: j < k
  }

  ghost predicate Kids(p: Proc, receivers: set<nat>) {
    (forall k | 0 <= k < |p.children| :: KidOk(p, receivers, k)) && forall k | k in receivers :: k < |p.children|
  }

  /** Descriptors are of pipes that were made, and no end has two of them. */
  ghost predicate FdsOk(p: Proc) {
    (forall fd | fd in p.fds :: p.fds[fd].pipe < |p.pipes|) &&
    forall a, b | a in p.fds && b in p.fds && a != b :: p.fds[a] != p.fds[b]
  }

  /** The two descriptors of a slot are the ends of one pipe. */
  ghost predicate Paired(s: State) {
    forall k | 0 <= k < |s.table| :: PairedSlot(s.proc, s.table[k])
  }

  ghost predicate PairedSlot(p: Proc, slot: Slot) {
    slot.read != 0 && slot.write != 0 && slot.read in p.fds && slot.write in p.fds ==>
      p.fds[slot.write] == WriteEnd(p.fds[slot.read].pipe)
  }

  ghost predicate Tidy(s: State) {
    FdsOk(s.proc) && Paired(s)
  }

  // ---- Descriptors come and go ----

  /** q has opened new pipes only. */
  ghost predicate Extends(p: Proc, q: Proc) {
    && p.pipes <= q.pipes && q.children == p.children
    && (forall fd | fd in p.fds :: fd in q.fds && q.fds[fd] == p.fds[fd])
    && forall fd | fd in q.fds :: q.fds[fd].pipe >= |p.pipes| || (fd in p.fds && q.fds[fd] == p.fds[fd])
  }

  ghost predicate Shrinks(p: Proc, q: Proc) {
    q.pipes == p.pipes && q.children == p.children && forall fd | fd in q.fds :: fd in p.fds && q.fds[fd] == p.fds[fd]
  }

  lemma {:induction false} KidsAfter(p: Proc, q: Proc, receivers: set<nat>)
    requires Kids(p, receivers) && (Extends(p, q) || Shrinks(p, q))
    ensures Kids(q, receivers)
  {
    forall k | 0 <= k < |q.children|
      ensures KidOk(q, receivers, k)
    {
      assert KidOk(p, receivers, k);
    }
  }

  /** The new child has everything that is open. */
  lemma {:induction false} KidsFork(p: Proc, q: Proc, receivers: set<nat>, c: Child, receives: bool)
    requires Kids(p, receivers) && q == p.(children := p.children + [c]) && c.held == EndsOf(p.fds)
    requires receives ==> c.stdin.Piped? && WriteEnd(c.stdin.end.pipe) in c.held
    requires !receives && c.stdin.Piped? ==> c.stdin.end.pipe < |p.pipes| && WriteEnd(c.stdin.end.pipe) !in c.held
    ensures Kids(q, receivers + if receives then {|p.children|} else {})
  {
    var k, all := |p.children|, receivers + if receives then {|p.children|} else {};
    forall i | 0 <= i < |q.children|
      ensures KidOk(q, all, i)
    {
      if i < k { assert KidOk(p, receivers, i); }
    }
  }

  lemma {:induction false} OpenExtends(pick: Allocator, p: Proc, slot: int)
    requires Sound(pick) && p.std == STANDARD && FdsOk(p)
    ensures var q := OpenPipe(pick, p, slot).0; Extends(p, q) && FdsOk(q)
  {
    OpenKeeps(pick, p, slot);
  }

  lemma {:induction false} PairedAfter(s: State, t: State)
    requires Paired(s) && Recorded(s) && t.table == s.table
    requires forall fd | fd in s.proc.fds :: fd in t.proc.fds && t.proc.fds[fd] == s.proc.fds[fd]
    ensures Paired(t)
  {
    forall k | 0 <= k < |t.table|
      ensures PairedSlot(t.proc, t.table[k])
    {
      assert PairedSlot(s.proc, s.table[k]);
      assert s.table[k].read != 0 ==> Holds(s, s.table[k].read, k, true);
      assert s.table[k].write != 0 ==> Holds(s, s.table[k].write, k, false);
    }
  }

  lemma {:induction false} ReserveTidy(pick: Allocator, s: State, op: Op)
    requires Sound(pick) && Tidy(s) && Recorded(s) && s.proc.std == STANDARD && OpFits(s, op)
    ensures Tidy(Reserve(pick, s, op)) && Extends(s.proc, Reserve(pick, s, op).proc)
  {
    if HasJump(op) && s.table[s.count + op.jump].write == 0 {
      var k: nat := s.count + op.jump;
      var t := OpenSlot(pick, s, k);
      OpenExtends(pick, s.proc, k);
      PairedAfter(s, s.(proc := t.proc));
      forall j | 0 <= j < |t.table|
        ensures PairedSlot(t.proc, t.table[j])
      {
        if j != k { assert PairedSlot(t.proc, s.table[j]); } else { OpenKeeps(pick, s.proc, k); }
      }
    }
  }

  /** One operator opens pipes and does nothing else; only `<n` changes the input. */
  lemma {:induction false} OpTidy(pick: Allocator, v: Server, me: int, w: Wiring, receive: Option<int>, op: TubeOp)
    requires Sound(pick) && TubeBooks.Books(v) && Tidy(v.s) && TubeOpFits(v.s, op)
    ensures var r := ApplyTubeOp(pick, v, me, w, receive, op);
      && Tidy(r.v.s) && Extends(v.s.proc, r.v.s.proc)
      && (r.Wired? && !op.ReceiveFrom? ==> r.w.stdin == w.stdin)
  {
    hide Recorded, TubesOpen, Unique, Paired, FdsOk;
    match op
    case Num(op) => ReserveTidy(pick, v.s, op);
    case SendTo(n) =>
      if Has(v.users, n) && !HasPair(v.tubes, me, n) {
        OpenExtends(pick, v.s.proc, NO_SLOT);
        PairedAfter(v.s, WithTube(pick, v, me, n).s);
      }
    case ReceiveFrom(n) =>
  }

  lemma {:induction false} ExtendsOn(p: Proc, q: Proc, r: Proc)
    requires Extends(p, q) && Extends(q, r)
    ensures Extends(p, r)
  {
  }

  lemma {:induction false} ApplyTidy(pick: Allocator, v: Server, me: int, w: Wiring, receive: Option<int>, ops: seq<TubeOp>)
    requires Sound(pick) && TubeBooks.Books(v) && Tidy(v.s) && TubeFits(v.s, ops)
    ensures var r := ApplyTube(pick, v, me, w, receive, ops);
      && Tidy(r.v.s) && Extends(v.s.proc, r.v.s.proc)
      && (r.Wired? && (forall i | 0 <= i < |ops| :: !ops[i].ReceiveFrom?) ==> r.w.stdin == w.stdin)
    decreases |ops|
  {
    hide TubeBooks.Books, Tidy, ApplyTubeOp, TubeFits, Extends;
    if ops == [] {
      ExtendsSelf(v.s.proc);
    } else {
      ApplyTubeStep(pick, v, me, w, receive, ops);
      OpBooks(pick, v, me, w, receive, ops[0]);
      OpTidy(pick, v, me, w, receive, ops[0]);
      var r := ApplyTubeOp(pick, v, me, w, receive, ops[0]);
      if r.Wired? {
        ApplyTidy(pick, r.v, me, r.w, r.receive, ops[1..]);
        var q := ApplyTube(pick, r.v, me, r.w, r.receive, ops[1..]);
        ExtendsOn(v.s.proc, r.v.s.proc, q.v.s.proc);
        assert forall i | 0 <= i < |ops[1..]| :: ops[1..][i] == ops[i + 1];
      }
    }
  }

  lemma {:induction false} ExtendsSelf(p: Proc)
    ensures Extends(p, p)
  {
  }

  lemma {:induction false} TidyShrinks(s: State, t: State)
    requires Tidy(s) && Shrinks(s.proc, t.proc) && |t.table| == |s.table|
    requires forall k | 0 <= k < |s.table| :: t.table[k].read in {0, s.table[k].read} && t.table[k].write in {0, s.table[k].write}
    ensures Tidy(t)
  {
    forall k | 0 <= k < |t.table|
      ensures PairedSlot(t.proc, t.table[k])
    {
      assert PairedSlot(s.proc, s.table[k]);
    }
  }

  /** After `Begin` the write end that belongs to the input is closed. */
  lemma {:induction false} BeginTidy(s: State)
    requires Tidy(s) && Recorded(s) && Ready(s) && s.count < |s.table| && s.proc.std == STANDARD
    ensures var t := Begin(s);
      && Tidy(t) && Shrinks(s.proc, t.proc)
      && (Stdin(s) != 0 ==> Stdin(s) in t.proc.fds && WriteEnd(t.proc.fds[Stdin(s)].pipe) !in EndsOf(t.proc.fds))
  {
    var t := Begin(s);
    TidyShrinks(s, t);
    if Stdin(s) != 0 {
      assert Holds(s, s.table[s.count].read, s.count, true);
      assert Holds(s, s.table[s.count].write, s.count, false);
      assert PairedSlot(s.proc, s.table[s.count]);
      assert t.proc.fds == s.proc.fds - {s.table[s.count].write};
    }
  }

  lemma {:induction false} FinishTidy(v: Server, me: int, w: Wiring, receive: Option<int>, argv: seq<string>)
    requires Tidy(v.s) && v.s.count < |v.s.table|
    ensures var t := FinishTube(v, me, w, receive, argv).s;
      && Tidy(t) && Shrinks(Spawn(v.s, w, argv).proc, t.proc)
  {
    var s1 := Spawn(v.s, w, argv);
    var t := Finish(v.s, w, argv);
    TidyShrinks(v.s, s1.(proc := s1.proc.(children := v.s.proc.children)));
    TidyShrinks(s1, t);
    if receive.Some? {
      CloseAllFds(t.proc, HitFds(v.tubes, Pair(receive.value, me)));
      TidyShrinks(t, t.(proc := CloseAll(t.proc, HitFds(v.tubes, Pair(receive.value, me)))));
    }
  }

  // ---- Commands, lines and runs ----

  ghost predicate Good(v: Server, stranded: bool, receivers: set<nat>) {
    Sane(v, stranded) && Tidy(v.s) && Kids(v.s.proc, receivers)
  }

  lemma {:induction false} SpawnKids(v: Server, receivers: set<nat>, w: Wiring, c: TubeCommand)
    requires TubeBooks.Books(v) && FdsOk(v.s.proc) && Kids(v.s.proc, receivers)
    requires Receives(c) ==> FromTube(v.s.proc, w)
    requires !Receives(c) && w.stdin != 0 ==>
      w.stdin in v.s.proc.fds && WriteEnd(v.s.proc.fds[w.stdin].pipe) !in EndsOf(v.s.proc.fds)
    ensures Kids(Spawn(v.s, w, c.argv).proc, receivers + if Receives(c) then {|v.s.proc.children|} else {})
  {
    hide Recorded, TubesOpen, Unique, Kids;
    var p := v.s.proc;
    var q := Spawn(v.s, w, c.argv).proc;
    if Receives(c) {
      var e: Entry :| TubeOpen(p, e) && w.stdin == e.readFd;
      assert p.fds[e.writeFd] in EndsOf(p.fds);
    }
    KidsFork(p, q, receivers, q.children[|p.children|], Receives(c));
  }

  lemma {:induction false} StepGood(pick: Allocator, v: Server, me: int, receive: Option<int>, c: TubeCommand, receivers: set<nat>)
    requires Sound(pick) && Good(v, false, receivers) && TubeFits(v.s, c.ops)
    ensures var r := StepTube(pick, v, me, receive, c);
      Good(r.v, r.Stopped? && Strands(pick, v, me, receive, c), if r.Ran? then receivers + Receiver(v, c) else receivers)
  {
    hide Recorded, TubesOpen, Unique, ApplyTube, TubeFits, Kids, FdsOk, Paired, Extends, Shrinks, FromTube, FinishTube, Spawn;
    FitsHere(v.s, c.ops);
    BeginFits(v.s, c.ops);
    StepSane(pick, v, me, receive, c);
    BeginBooks(v);
    BeginTidy(v.s);
    var b, w := v.(s := Begin(v.s)), FirstTubeWiring(v.s, c.ops);
    KidsAfter(v.s.proc, b.s.proc, receivers);
    ApplyTidy(pick, b, me, w, receive, c.ops);
    ApplyBooks(pick, b, me, w, receive, c.ops);
    var r := ApplyTube(pick, b, me, w, receive, c.ops);
    KidsAfter(b.s.proc, r.v.s.proc, receivers);
    if r.Wired? {
      InputStays(v.s, b.s.proc, r.v.s.proc, w.stdin);
      SpawnKids(r.v, receivers, r.w, c);
      FinishTidy(r.v, me, r.w, r.receive, c.argv);
      KidsAfter(Spawn(r.v.s, r.w, c.argv).proc, FinishTube(r.v, me, r.w, r.receive, c.argv).s.proc,
                receivers + Receiver(v, c));
    }
  }

  lemma {:induction false} InputStays(s: State, p: Proc, q: Proc, fd: int)
    requires Extends(p, q) && FdsOk(p)
    requires fd != 0 ==> fd in p.fds && WriteEnd(p.fds[fd].pipe) !in EndsOf(p.fds)
    ensures fd != 0 ==> fd in q.fds && WriteEnd(q.fds[fd].pipe) !in EndsOf(q.fds)
  {
  }

  lemma {:induction false} LineGood(pick: Allocator, v: Server, me: int, receive: Option<int>, cmds: seq<TubeCommand>,
                                    stranded: bool, receivers: set<nat>)
    requires Sound(pick) && Good(v, stranded, receivers) && TubeStreamFits(v.s, cmds)
    requires LineClear(pick, v, me, receive, cmds, stranded)
    ensures Good(RunTubeLine(pick, v, me, receive, cmds), LineStrands(pick, v, me, receive, cmds, stranded),
                 receivers + LineReceivers(pick, v, me, receive, cmds))
    decreases |cmds|
  {
    hide Good, StepTube, TubeFits, TubeStreamFits, Strands, Receiver;
    if cmds == [] {
      assert receivers + {} == receivers;
    } else {
      TubeStreamTail(pick, v, me, receive, cmds);
      StepGood(pick, v, me, receive, cmds[0], receivers);
      var r := StepTube(pick, v, me, receive, cmds[0]);
      if r.Ran? {
        var more := receivers + Receiver(v, cmds[0]);
        LineGood(pick, r.v, me, r.receive, cmds[1..], false, more);
        var rest := LineReceivers(pick, r.v, me, r.receive, cmds[1..]);
        assert more + rest == receivers + (Receiver(v, cmds[0]) + rest);
      } else {
        assert receivers + {} == receivers;
      }
    }
  }

  lemma {:induction false} OtherEventGood(pick: Allocator, v: Server, e: Event, stranded: bool, receivers: set<nat>)
    requires Good(v, stranded, receivers) && !e.Line? && EventFits(v, e)
    ensures Good(NextServer(pick, v, e), stranded, receivers)
  {
    hide Sane, Kids;
    OtherEventSane(pick, v, e, stranded);
    if e.Disconnect? {
      var u := Deleted(v, From(e.fd));
      CloseAllFds(v.s.proc, HitFds(v.tubes, From(e.fd)));
      TidyShrinks(v.s, u.s);
      KidsAfter(v.s.proc, u.s.proc, receivers);
    }
  }

  lemma {:induction false} RunKids(pick: Allocator, v: Server, events: seq<Event>, stranded: bool, receivers: set<nat>)
    requires Sound(pick) && Good(v, stranded, receivers) && EventsFit(pick, v, events)
    requires NothingAfterStranding(pick, v, events, stranded)
    ensures Kids(RunServer(pick, v, events).s.proc, receivers + Receivers(pick, v, events))
    decreases |events|
  {
    hide Good, LineClear, LineStrands, LineReceivers, RunTubeLine, TubeStreamFits, Kids;
    if events == [] {
      assert receivers + {} == receivers;
      GoodKids(v, stranded, receivers);
    } else {
      var u, rest := NextServer(pick, v, events[0]), events[1..];
      match events[0] {
        case Line(me, cmds) =>
          LineGood(pick, v, me, None, cmds, stranded, receivers);
          var more := LineReceivers(pick, v, me, None, cmds);
          RunKids(pick, u, rest, LineStrands(pick, v, me, None, cmds, stranded), receivers + more);
          assert receivers + more + Receivers(pick, u, rest) == receivers + (more + Receivers(pick, u, rest));
        case _ =>
          OtherEventGood(pick, v, events[0], stranded, receivers);
          RunKids(pick, u, rest, stranded, receivers);
          assert {} + Receivers(pick, u, rest) == Receivers(pick, u, rest);
      }
    }
  }

  lemma {:induction false} GoodKids(v: Server, stranded: bool, receivers: set<nat>)
    requires Good(v, stranded, receivers)
    ensures Kids(v.s.proc, receivers)
  {
  }

  // ---- Who exits ----

  /** The stuck children hold each other up. */
  lemma {:induction false} StuckStays(p: Proc, receivers: set<nat>, exited: set<nat>, n: nat, k: nat)
    requires Kids(p, receivers) && k < |p.children| && Stuck(p, receivers, k)
    requires forall j | 0 <= j < |p.children| && Stuck(p, receivers, j) :: j !in exited
    ensures k !in Rounds(p, exited, n)
    decreases n
  {
    if n > 0 {
      StuckStays(p, receivers, exited, n - 1, k);
      assert KidOk(p, receivers, k);
      if k !in receivers {
        var j :| 0 <= j < k && InputWrite(p, k) in p.children[j].held && Stuck(p, receivers, j);
        StuckStays(p, receivers, exited, n - 1, j);
      }
      assert !CanExit(p, Rounds(p, exited, n - 1), k);
    }
  }

  lemma {:induction false} FreeExits(p: Proc, receivers: set<nat>, exited: set<nat>, k: nat)
    requires Kids(p, receivers) && k < |p.children| && !Stuck(p, receivers, k)
    ensures k in Rounds(p, exited, k + 1)
    decreases k
  {
    hide Stuck;
    var now := Rounds(p, exited, k);
    assert KidOk(p, receivers, k) && k !in receivers by { NotReceiver(p, receivers, k); }
    if p.children[k].stdin.Piped? {
      forall j | 0 <= j < |p.children| && InputWrite(p, k) in p.children[j].held
        ensures j in now
      {
        HolderFree(p, receivers, k, j);
        FreeExits(p, receivers, exited, j);
        RoundsGrow(p, exited, j + 1, k);
      }
    }
    assert CanExit(p, now, k);
  }

  lemma {:induction false} NotReceiver(p: Proc, receivers: set<nat>, k: nat)
    requires Kids(p, receivers) && k < |p.children| && !Stuck(p, receivers, k)
    ensures KidOk(p, receivers, k) && k !in receivers
  {
  }

  lemma {:induction false} HolderFree(p: Proc, receivers: set<nat>, k: nat, j: nat)
    requires Kids(p, receivers) && k < |p.children| && j < |p.children| && !Stuck(p, receivers, k)
    requires p.children[k].stdin.Piped? && InputWrite(p, k) in p.children[j].held
    ensures j < k && !Stuck(p, receivers, j)
  {
    assert KidOk(p, receivers, k);
  }

  /** After every run from the empty server in which no command follows a stranding:
      child k exits within k + 1 rounds, whoever has exited already, unless it is stuck,
      that is, unless it was forked for a command with `<n` or the write end of its input
      was inherited by a stuck child before it. The stuck children never exit. As a wait is
      for the child forked last, this says which waits return. */
  lemma {:induction false} StuckOrExits(pick: Allocator, events: seq<Event>, k: nat, exited: set<nat>, n: nat)
    requires Sound(pick) && EventsFit(pick, NEW_SERVER, events)
    requires NothingAfterStranding(pick, NEW_SERVER, events, false)
    requires k < |RunServer(pick, NEW_SERVER, events).s.proc.children|
    ensures var p, receivers := RunServer(pick, NEW_SERVER, events).s.proc, Receivers(pick, NEW_SERVER, events);
      if !Stuck(p, receivers, k) then k in Rounds(p, exited, k + 1)
      else (forall j | 0 <= j < |p.children| && Stuck(p, receivers, j) :: j !in exited) ==> k !in Rounds(p, exited, n)
  {
    hide RunServer, EventsFit, NothingAfterStranding, Stuck, Rounds, Receivers;
    RunKids(pick, NEW_SERVER, events, false, {});
    var p, receivers := RunServer(pick, NEW_SERVER, events).s.proc, Receivers(pick, NEW_SERVER, events);
    assert {} + receivers == receivers;
    if !Stuck(p, receivers, k) {
      FreeExits(p, receivers, exited, k);
    } else if forall j | 0 <= j < |p.children| && Stuck(p, receivers, j) :: j !in exited {
      StuckStays(p, receivers, exited, n, k);
    }
  }

  /** In particular a child that reads a user pipe never exits: it holds that pipe's write
      end itself, and no other child's exit matters. */
  lemma {:induction false} ReceiverNeverExits(pick: Allocator, events: seq<Event>, k: nat, exited: set<nat>, n: nat)
    requires Sound(pick) && EventsFit(pick, NEW_SERVER, events)
    requires NothingAfterStranding(pick, NEW_SERVER, events, false)
    requires k in Receivers(pick, NEW_SERVER, events) && k !in exited
    ensures var p := RunServer(pick, NEW_SERVER, events).s.proc;
      k < |p.children| && k !in Rounds(p, exited, n)
  {
    hide RunServer, EventsFit, NothingAfterStranding, Rounds, Receivers;
    RunKids(pick, NEW_SERVER, events, false, {});
    var p, receivers := RunServer(pick, NEW_SERVER, events).s.proc, Receivers(pick, NEW_SERVER, events);
    assert {} + receivers == receivers;
    assert KidOk(p, receivers, k);
    SelfHeldNeverExits(p, exited, k, n);
  }
}
