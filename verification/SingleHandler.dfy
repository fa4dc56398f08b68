/** `handler` of the single-process server: numbered pipes as in the first shell, with the
    user pipes `>n` and `<n` on top (NP_Project2/np_single_proc_/src/shell.c:181-360), as
    functions on values. */
module SingleHandler {
  import opened Text
  import opened Kernel
  import opened NumberedPipes
  import opened Tubes
  import opened TubeRuns
  import opened UserList

  datatype TubeOp = Num(op: Op) | SendTo(peer: int) | ReceiveFrom(peer: int)

  datatype TubeCommand = TubeCommand(argv: seq<string>, ops: seq<TubeOp>)

  datatype Server = Server(s: State, tubes: seq<Entry>, users: seq<User>)

  /** `receive` is the peer of the last `<n` of the line, with `receive_pipe` set. */
  datatype Attempt = Wired(v: Server, w: Wiring, receive: Option<int>) | Refused(v: Server)

  datatype Outcome = Ran(v: Server, receive: Option<int>) | Stopped(v: Server)

  const NO_SLOT := -1

  predicate TubeOpFits(s: State, op: TubeOp) {
    op.Num? ==> OpFits(s, op.op)
  }

  predicate TubeFits(s: State, ops: seq<TubeOp>) {
    s.count < |s.table| && forall i | 0 <= i < |ops| :: TubeOpFits(s, ops[i])
  }

  function FirstOf(es: seq<Entry>, sender: int, receiver: int): Entry
    requires HasPair(es, sender, receiver)
  {
    if Hit(Pair(sender, receiver), es[0]) then es[0]
    else
      assert HasPair(es[1..], sender, receiver) by {
        var i :| 0 <= i < |es| && Hit(Pair(sender, receiver), es[i]);
        assert es[1..][i - 1] == es[i];
      }
      FirstOf(es[1..], sender, receiver)
  }

  /** A new pipe at the front of the tube list. */
  function WithTube(pick: Allocator, v: Server, me: int, peer: int): (r: Server)
    ensures r.tubes != []
  {
    var (proc, r, wr) := OpenPipe(pick, v.s.proc, NO_SLOT);
    v.(s := v.s.(proc := proc), tubes := [Entry(me, peer, r, wr)] + v.tubes)
  }

  function ApplyTubeOp(pick: Allocator, v: Server, me: int, w: Wiring, receive: Option<int>, op: TubeOp): Attempt
    requires TubeOpFits(v.s, op)
  {
    match op
    case Num(op) =>
      var t := Reserve(pick, v.s, op);
      Wired(v.(s := t), Wire(t, w, op), receive)
    case SendTo(n) =>
      if !Has(v.users, n) || HasPair(v.tubes, me, n) then Refused(v)
      else
        var u := WithTube(pick, v, me, n);
        Wired(u, w.(stdout := Fd(u.tubes[0].writeFd)), receive)
    case ReceiveFrom(n) =>
      if !Has(v.users, n) || !HasPair(v.tubes, n, me) then Refused(v)
      else Wired(v, w.(stdin := FirstOf(v.tubes, n, me).readFd), Some(n))
  }

  function ApplyTube(pick: Allocator, v: Server, me: int, w: Wiring, receive: Option<int>, ops: seq<TubeOp>): (r: Attempt)
    requires TubeFits(v.s, ops)
    ensures r.v.s.count == v.s.count && |r.v.s.table| == |v.s.table| && r.v.users == v.users
    decreases |ops|
  {
    if ops == [] then Wired(v, w, receive)
    else
      match ApplyTubeOp(pick, v, me, w, receive, ops[0])
      case Refused(u) => Refused(u)
      case Wired(u, x, rec) =>
        assert forall i | 0 <= i < |ops[1..]| :: TubeOpFits(u.s, ops[1..][i]) by {
          assert forall i | 0 <= i < |ops[1..]| :: ops[1..][i] == ops[i + 1];
        }
        ApplyTube(pick, u, me, x, rec, ops[1..])
  }

  /** `ApplyTube` one operator at a time. */
  lemma {:induction false} ApplyTubeStep(pick: Allocator, v: Server, me: int, w: Wiring, receive: Option<int>, ops: seq<TubeOp>)
    requires TubeFits(v.s, ops) && ops != []
    ensures TubeOpFits(v.s, ops[0])
    ensures var r := ApplyTubeOp(pick, v, me, w, receive, ops[0]);
      if r.Refused? then ApplyTube(pick, v, me, w, receive, ops) == r
      else TubeFits(r.v.s, ops[1..]) &&
           ApplyTube(pick, v, me, w, receive, ops) == ApplyTube(pick, r.v, me, r.w, r.receive, ops[1..])
  {
    assert TubeOpFits(v.s, ops[0]);
    assert forall i | 0 <= i < |ops[1..]| :: ops[1..][i] == ops[i + 1];
  }

  lemma {:induction false} BeginFits(s: State, ops: seq<TubeOp>)
    requires TubeFits(s, ops)
    ensures TubeFits(Begin(s), ops)
  {
    assert forall i | 0 <= i < |ops| :: TubeOpFits(s, ops[i]) ==> TubeOpFits(Begin(s), ops[i]);
  }

  function CloseAll(p: Proc, fds: seq<int>): Proc
    decreases |fds|
  {
    if fds == [] then p else CloseAll(CloseFd(p, fds[0]), fds[1..])
  }

  /** Fork, close the numbered pipe, delete the received tube, move the cursor. */
  function FinishTube(v: Server, me: int, w: Wiring, receive: Option<int>, argv: seq<string>): Server
    requires v.s.count < |v.s.table|
  {
    var t := Finish(v.s, w, argv);
    if receive.None? then v.(s := t) else ReceivedGone(v.(s := t), me, receive.value)
  }

  /** `delete_id_tube` for the pair from `peer` to `me`. */
  function ReceivedGone(v: Server, me: int, peer: int): Server {
    v.(s := v.s.(proc := CloseAll(v.s.proc, HitFds(v.tubes, Pair(peer, me)))), tubes := Without(v.tubes, Pair(peer, me)))
  }

  function FirstTubeWiring(s: State, ops: seq<TubeOp>): Wiring
    requires s.count < |s.table|
  {
    Wiring(Stdin(s), Terminal, Terminal, ops == [])
  }

  function StepTube(pick: Allocator, v: Server, me: int, receive: Option<int>, c: TubeCommand): (r: Outcome)
    requires TubeFits(v.s, c.ops)
    ensures |r.v.s.table| == |v.s.table| && r.v.users == v.users
    ensures r.v.s.count == (if r.Ran? then v.s.count + 1 else v.s.count)
  {
    var b := Begin(v.s);
    BeginFits(v.s, c.ops);
    match ApplyTube(pick, v.(s := b), me, FirstTubeWiring(v.s, c.ops), receive, c.ops)
    case Refused(u) => Stopped(u)
    case Wired(u, w, rec) => Ran(FinishTube(u, me, w, rec, c.argv), rec)
  }

  predicate TubeStreamFits(s: State, cmds: seq<TubeCommand>) {
    s.count + |cmds| <= |s.table| &&
    forall i | 0 <= i < |cmds| :: TubeJumpsFit(|s.table|, s.count + i, cmds[i].ops)
  }

  predicate TubeJumpsFit(size: nat, at: nat, ops: seq<TubeOp>) {
    forall i | 0 <= i < |ops| :: ops[i].Num? && HasJump(ops[i].op) ==> 0 <= at + ops[i].op.jump < size
  }

  lemma {:induction false} TubeStreamTail(pick: Allocator, v: Server, me: int, receive: Option<int>, cmds: seq<TubeCommand>)
    requires TubeStreamFits(v.s, cmds) && cmds != []
    ensures TubeFits(v.s, cmds[0].ops)
    ensures var r := StepTube(pick, v, me, receive, cmds[0]); r.Ran? ==> TubeStreamFits(r.v.s, cmds[1..])
  {
    assert TubeJumpsFit(|v.s.table|, v.s.count + 0, cmds[0].ops);
    var r := StepTube(pick, v, me, receive, cmds[0]);
    if r.Ran? {
      forall i | 0 <= i < |cmds[1..]|
        ensures TubeJumpsFit(|r.v.s.table|, r.v.s.count + i, cmds[1..][i].ops)
      {
        assert TubeJumpsFit(|v.s.table|, v.s.count + (i + 1), cmds[i + 1].ops);
      }
    }
  }

  /** One line of the user `me`; a refused `>n` or `<n` ends it. */
  function RunTubeLine(pick: Allocator, v: Server, me: int, receive: Option<int>, cmds: seq<TubeCommand>): (r: Server)
    requires TubeStreamFits(v.s, cmds)
    ensures |r.s.table| == |v.s.table| && r.users == v.users
    decreases |cmds|
  {
    if cmds == [] then v
    else
      TubeStreamTail(pick, v, me, receive, cmds);
      match StepTube(pick, v, me, receive, cmds[0])
      case Stopped(u) => u
      case Ran(u, rec) => RunTubeLine(pick, u, me, rec, cmds[1..])
  }

  // ---- The tube list during lines ----

  lemma {:induction false} ApplyKeepsUnique(pick: Allocator, v: Server, me: int, w: Wiring, receive: Option<int>, ops: seq<TubeOp>)
    requires TubeFits(v.s, ops) && Unique(v.tubes)
    ensures Unique(ApplyTube(pick, v, me, w, receive, ops).v.tubes)
    decreases |ops|
  {
    if ops != [] {
      var r := ApplyTubeOp(pick, v, me, w, receive, ops[0]);
      if ops[0].SendTo? && r.Wired? {
        var e := r.v.tubes[0];
        NextRefines(v.tubes, Send(me, ops[0].peer, e.readFd, e.writeFd));
      }
      if r.Wired? {
        assert forall i | 0 <= i < |ops[1..]| :: ops[1..][i] == ops[i + 1];
        ApplyKeepsUnique(pick, r.v, me, r.w, r.receive, ops[1..]);
      }
    }
  }

  /** No line of any user, whatever it does and wherever it stops, makes two tubes of the
      same pair; so `delete_id_tube` is never called on a list where it would go wrong. */
  lemma {:induction false} LineKeepsUnique(pick: Allocator, v: Server, me: int, receive: Option<int>, cmds: seq<TubeCommand>)
    requires TubeStreamFits(v.s, cmds) && Unique(v.tubes)
    ensures Unique(RunTubeLine(pick, v, me, receive, cmds).tubes)
    decreases |cmds|
  {
    if cmds != [] {
      TubeStreamTail(pick, v, me, receive, cmds);
      var c := cmds[0];
      var b := Begin(v.s);
      BeginFits(v.s, c.ops);
      ApplyKeepsUnique(pick, v.(s := b), me, FirstTubeWiring(v.s, c.ops), receive, c.ops);
      var r := StepTube(pick, v, me, receive, c);
      if r.Ran? {
        var u := ApplyTube(pick, v.(s := b), me, FirstTubeWiring(v.s, c.ops), receive, c.ops);
        if r.receive.Some? { WithoutUnique(u.v.tubes, Pair(r.receive.value, me)); }
        LineKeepsUnique(pick, r.v, me, r.receive, cmds[1..]);
      }
    }
  }

  // ---- The tube list of a line as a map ----

  /** The tubes that the operators of a command make before it is forked or refused. */
  function OpSteps(pick: Allocator, v: Server, me: int, w: Wiring, receive: Option<int>, ops: seq<TubeOp>): seq<Step>
    requires TubeFits(v.s, ops)
    decreases |ops|
  {
    if ops == [] then []
    else
      ApplyTubeStep(pick, v, me, w, receive, ops);
      var r := ApplyTubeOp(pick, v, me, w, receive, ops[0]);
      if r.Refused? then []
      else
        (if ops[0].SendTo? then
           var u := WithTube(pick, v, me, ops[0].peer);
           [Send(me, ops[0].peer, u.tubes[0].readFd, u.tubes[0].writeFd)]
         else [])
        + OpSteps(pick, r.v, me, r.w, r.receive, ops[1..])
  }

  /** The sends and receives of a line: a send for every accepted `>n`, also of a command
      refused later on, and after every forked command one receive from the peer of the last
      `<n` of the line so far. */
  function LineSteps(pick: Allocator, v: Server, me: int, receive: Option<int>, cmds: seq<TubeCommand>): seq<Step>
    requires TubeStreamFits(v.s, cmds)
    decreases |cmds|
  {
    if cmds == [] then []
    else
      TubeStreamTail(pick, v, me, receive, cmds);
      BeginFits(v.s, cmds[0].ops);
      OpSteps(pick, v.(s := Begin(v.s)), me, FirstTubeWiring(v.s, cmds[0].ops), receive, cmds[0].ops) +
      match StepTube(pick, v, me, receive, cmds[0])
      case Stopped(_) => []
      case Ran(u, rec) =>
        (if rec.Some? then [Receive(rec.value, me)] else []) + LineSteps(pick, u, me, rec, cmds[1..])
  }

  lemma {:induction false} ApplyIsRun(pick: Allocator, v: Server, me: int, w: Wiring, receive: Option<int>, ops: seq<TubeOp>)
    requires TubeFits(v.s, ops)
    ensures ApplyTube(pick, v, me, w, receive, ops).v.tubes == RunList(v.tubes, OpSteps(pick, v, me, w, receive, ops))
    decreases |ops|
  {
    hide TubeFits;
    if ops != [] {
      ApplyTubeStep(pick, v, me, w, receive, ops);
      var r := ApplyTubeOp(pick, v, me, w, receive, ops[0]);
      if r.Wired? {
        ApplyIsRun(pick, r.v, me, r.w, r.receive, ops[1..]);
        var rest := OpSteps(pick, r.v, me, r.w, r.receive, ops[1..]);
        if ops[0].SendTo? {
          var step := OpSteps(pick, v, me, w, receive, ops)[0];
          assert ([step] + rest)[1..] == rest;
          assert NextList(v.tubes, step) == r.v.tubes;
        } else {
          assert [] + rest == rest;
        }
      }
    }
  }

  lemma {:induction false} LineIsRun(pick: Allocator, v: Server, me: int, receive: Option<int>, cmds: seq<TubeCommand>)
    requires TubeStreamFits(v.s, cmds)
    ensures RunTubeLine(pick, v, me, receive, cmds).tubes == RunList(v.tubes, LineSteps(pick, v, me, receive, cmds))
    decreases |cmds|
  {
    hide ApplyTube, OpSteps, NextList, TubeFits, TubeStreamFits, Begin;
    if cmds != [] {
      TubeStreamTail(pick, v, me, receive, cmds);
      var c := cmds[0];
      BeginFits(v.s, c.ops);
      var b, w := v.(s := Begin(v.s)), FirstTubeWiring(v.s, c.ops);
      ApplyIsRun(pick, b, me, w, receive, c.ops);
      var made := OpSteps(pick, b, me, w, receive, c.ops);
      match StepTube(pick, v, me, receive, c) {
        case Stopped(_) => assert made + [] == made;
        case Ran(u, rec) =>
          LineIsRun(pick, u, me, rec, cmds[1..]);
          var gone := if rec.Some? then [Receive(rec.value, me)] else [];
          var rest := LineSteps(pick, u, me, rec, cmds[1..]);
          var es := RunList(v.tubes, made);
          assert u.tubes == RunList(es, gone) by {
            if rec.Some? { ReceiveDeletes(es, rec.value, me); assert gone[1..] == []; }
          }
          RunListAppend(es, gone, rest);
          RunListAppend(v.tubes, made, gone + rest);
      }
    }
  }

  /** Every line of every user, wherever it stops, acts on the tube list as its sends and
      receives act on a map from (sender, receiver) to a pipe. */
  lemma {:induction false} LineRefinesMap(pick: Allocator, v: Server, me: int, receive: Option<int>, cmds: seq<TubeCommand>)
    requires TubeStreamFits(v.s, cmds) && Unique(v.tubes)
    ensures AsMap(RunTubeLine(pick, v, me, receive, cmds).tubes) ==
            RunMap(AsMap(v.tubes), LineSteps(pick, v, me, receive, cmds))
  {
    hide RunTubeLine, LineSteps, AsMap, TubeStreamFits;
    LineIsRun(pick, v, me, receive, cmds);
    RunRefinesMap(v.tubes, LineSteps(pick, v, me, receive, cmds));
  }

  // ---- A refused command and the window ----

  predicate ForwardOps(ops: seq<TubeOp>) {
    forall i | 0 <= i < |ops| :: ops[i].Num? && HasJump(ops[i].op) ==> ops[i].op.jump >= 1
  }

  ghost predicate WholeAround(s: State) {
    s.count < |s.table| &&
    (forall k | 0 <= k < s.count :: s.table[k] == EMPTY) &&
    (forall k | s.count < k < |s.table| :: Whole(s.table[k]))
  }

  lemma {:induction false} ApplyAround(pick: Allocator, v: Server, me: int, w: Wiring, receive: Option<int>, ops: seq<TubeOp>)
    requires Sound(pick) && 0 in v.s.proc.std && TubeFits(v.s, ops) && ForwardOps(ops) && WholeAround(v.s)
    ensures var u := ApplyTube(pick, v, me, w, receive, ops).v;
      WholeAround(u.s) && u.s.table[u.s.count] == v.s.table[v.s.count]
    decreases |ops|
  {
    if ops != [] {
      var r := ApplyTubeOp(pick, v, me, w, receive, ops[0]);
      assert TubeOpFits(v.s, ops[0]);
      if r.Wired? {
        assert forall i | 0 <= i < |ops[1..]| :: ops[1..][i] == ops[i + 1];
        assert WholeAround(r.v.s);
        ApplyAround(pick, r.v, me, r.w, r.receive, ops[1..]);
      }
    }
  }

  /** A command refused for its `>n` or `<n` leaves the window intact exactly when no
      numbered pipe was waiting for it: otherwise the slot keeps its read end without the
      write end, and the cursor stays on it. */
  lemma {:induction false} RefusedWindow(pick: Allocator, v: Server, me: int, receive: Option<int>, c: TubeCommand)
    requires Sound(pick) && 0 in v.s.proc.std && TubeFits(v.s, c.ops) && ForwardOps(c.ops) && Window(v.s)
    requires StepTube(pick, v, me, receive, c).Stopped?
    ensures var u := StepTube(pick, v, me, receive, c).v;
      && (Window(u.s) <==> v.s.table[v.s.count] == EMPTY)
      && u.s.table[u.s.count] == Slot(v.s.table[v.s.count].read, 0)
  {
    var b := Begin(v.s);
    assert Whole(v.s.table[v.s.count]);
    BeginFits(v.s, c.ops);
    assert WholeAround(b);
    ApplyAround(pick, v.(s := b), me, FirstTubeWiring(v.s, c.ops), receive, c.ops);
    var u := StepTube(pick, v, me, receive, c).v;
    assert Whole(u.s.table[u.s.count]) <==> v.s.table[v.s.count] == EMPTY;
  }
}
