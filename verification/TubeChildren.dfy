/** The children of the single-process server: one for every command up to a refusal, in the
    order of the lines of all users, with its words, and awaited or not. */
module TubeChildren {
  import opened Text
  import opened Kernel
  import opened NumberedPipes
  import opened Tubes
  import opened TubeRuns
  import opened UserList
  import opened SingleHandler
  import opened TubeBooks
  import opened TubeServer

  /** The commands of the line before the first refused one. */
  function LineForked(pick: Allocator, v: Server, me: int, receive: Option<int>, cmds: seq<TubeCommand>): (r: seq<TubeCommand>)
    requires TubeStreamFits(v.s, cmds)
    ensures r <= cmds
    decreases |cmds|
  {
    if cmds == [] then []
    else
      TubeStreamTail(pick, v, me, receive, cmds);
      match StepTube(pick, v, me, receive, cmds[0])
      case Stopped(_) => []
      case Ran(u, rec) => [cmds[0]] + LineForked(pick, u, me, rec, cmds[1..])
  }

  function Forked(pick: Allocator, v: Server, events: seq<Event>): seq<TubeCommand>
    requires EventsFit(pick, v, events)
    decreases |events|
  {
    if events == [] then []
    else
      (match events[0]
       case Line(me, cmds) => LineForked(pick, v, me, None, cmds)
       case _ => [])
      + Forked(pick, NextServer(pick, v, events[0]), events[1..])
  }

  predicate ToFileOp(op: TubeOp) {
    op.Num? && (op.op.Out? || op.op.Err?)
  }

  /** `isWait`: no operator at all, or a redirection to a file. */
  predicate Awaited(c: TubeCommand) {
    c.ops == [] || exists op | op in c.ops :: ToFileOp(op)
  }

  /** The children from n on are those of the commands. */
  ghost predicate ChildrenOf(p: Proc, n: nat, cmds: seq<TubeCommand>) {
    |p.children| == n + |cmds| &&
    forall k | n <= k < |p.children| ::
      p.children[k].argv == cmds[k - n].argv && (p.children[k].waited <==> Awaited(cmds[k - n]))
  }

  lemma {:induction false} SomeFile(ops: seq<TubeOp>)
    requires ops != []
    ensures (exists op | op in ops :: ToFileOp(op)) <==> ToFileOp(ops[0]) || exists op | op in ops[1..] :: ToFileOp(op)
  {
    assert ops == [ops[0]] + ops[1..];
    assert forall op :: op in ops <==> (op == ops[0] || op in ops[1..]);
  }

  lemma {:induction false} ApplyTubeWaits(pick: Allocator, v: Server, me: int, w: Wiring, receive: Option<int>, ops: seq<TubeOp>)
    requires TubeFits(v.s, ops)
    ensures var r := ApplyTube(pick, v, me, w, receive, ops);
      && r.v.s.proc.children == v.s.proc.children
      && (r.Wired? ==> (r.w.isWait <==> (w.isWait || exists op | op in ops :: ToFileOp(op))))
    decreases |ops|
  {
    hide TubeFits;
    if ops != [] {
      ApplyTubeStep(pick, v, me, w, receive, ops);
      var r := ApplyTubeOp(pick, v, me, w, receive, ops[0]);
      SomeFile(ops);
      assert r.Wired? ==> (r.w.isWait <==> (w.isWait || ToFileOp(ops[0])));
      if r.Wired? { ApplyTubeWaits(pick, r.v, me, r.w, r.receive, ops[1..]); }
    }
  }

  lemma {:induction false} StepChildren(pick: Allocator, v: Server, me: int, receive: Option<int>, c: TubeCommand)
    requires TubeFits(v.s, c.ops)
    ensures var r, n := StepTube(pick, v, me, receive, c), |v.s.proc.children|;
      && (r.Stopped? ==> r.v.s.proc.children == v.s.proc.children)
      && (r.Ran? ==> ChildrenOf(r.v.s.proc, n, [c]) && r.v.s.proc.children[..n] == v.s.proc.children)
  {
    hide ApplyTube, TubeFits, Awaited, ChildrenOf, FinishTube;
    BeginFits(v.s, c.ops);
    FitsHere(v.s, c.ops);
    var b, w := v.(s := Begin(v.s)), FirstTubeWiring(v.s, c.ops);
    ApplyTubeWaits(pick, b, me, w, receive, c.ops);
    var r := ApplyTube(pick, b, me, w, receive, c.ops);
    if r.Wired? {
      AwaitedIs(c);
      FinishChild(r.v, me, r.w, r.receive, c);
    }
  }

  lemma {:induction false} FinishChild(v: Server, me: int, w: Wiring, receive: Option<int>, c: TubeCommand)
    requires v.s.count < |v.s.table| && (w.isWait <==> Awaited(c))
    ensures var p, n := FinishTube(v, me, w, receive, c.argv).s.proc, |v.s.proc.children|;
      ChildrenOf(p, n, [c]) && p.children[..n] == v.s.proc.children
  {
    hide Awaited;
    if receive.Some? { CloseAllFds(Finish(v.s, w, c.argv).proc, HitFds(v.tubes, Pair(receive.value, me))); }
  }

  lemma {:induction false} AwaitedIs(c: TubeCommand)
    ensures Awaited(c) <==> c.ops == [] || exists op | op in c.ops :: ToFileOp(op)
  {
  }

  lemma {:induction false} AtLeast(p: Proc, n: nat, cmds: seq<TubeCommand>)
    requires ChildrenOf(p, n, cmds)
    ensures n <= |p.children|
  {
  }

  lemma {:induction false} NoMore(p: Proc)
    ensures ChildrenOf(p, |p.children|, []) && p.children[..|p.children|] == p.children
  {
  }

  lemma {:induction false} ChildrenJoin(p: Proc, q: Proc, n: nat, a: seq<TubeCommand>, b: seq<TubeCommand>)
    requires ChildrenOf(p, n, a) && ChildrenOf(q, |p.children|, b) && p.children == q.children[..|p.children|]
    ensures |p.children| == n + |a| && ChildrenOf(q, n, a + b) && q.children[..n] == p.children[..n]
  {
    assert |p.children| == n + |a|;
    forall k | n <= k < |q.children|
      ensures q.children[k].argv == (a + b)[k - n].argv && (q.children[k].waited <==> Awaited((a + b)[k - n]))
    {
      if k < n + |a| { assert q.children[k] == p.children[k]; }
    }
  }

  lemma {:induction false} LineChildren(pick: Allocator, v: Server, me: int, receive: Option<int>, cmds: seq<TubeCommand>)
    requires TubeStreamFits(v.s, cmds)
    ensures var p, n := RunTubeLine(pick, v, me, receive, cmds).s.proc, |v.s.proc.children|;
      ChildrenOf(p, n, LineForked(pick, v, me, receive, cmds)) && p.children[..n] == v.s.proc.children
    decreases |cmds|
  {
    hide StepTube, TubeFits, TubeStreamFits, ChildrenOf;
    NoMore(v.s.proc);
    if cmds != [] {
      TubeStreamTail(pick, v, me, receive, cmds);
      StepChildren(pick, v, me, receive, cmds[0]);
      var r, n := StepTube(pick, v, me, receive, cmds[0]), |v.s.proc.children|;
      NoMore(r.v.s.proc);
      if r.Ran? {
        LineChildren(pick, r.v, me, r.receive, cmds[1..]);
        var p := RunTubeLine(pick, r.v, me, r.receive, cmds[1..]).s.proc;
        ChildrenJoin(r.v.s.proc, p, n, [cmds[0]], LineForked(pick, r.v, me, r.receive, cmds[1..]));
      }
    }
  }

  lemma {:induction false} RunForks(pick: Allocator, v: Server, events: seq<Event>)
    requires EventsFit(pick, v, events)
    ensures var p, n := RunServer(pick, v, events).s.proc, |v.s.proc.children|;
      ChildrenOf(p, n, Forked(pick, v, events)) && p.children[..n] == v.s.proc.children
    decreases |events|
  {
    hide RunTubeLine, LineForked, TubeStreamFits, ChildrenOf;
    NoMore(v.s.proc);
    if events != [] {
      var u, n := NextServer(pick, v, events[0]), |v.s.proc.children|;
      var now := match events[0]
        case Line(me, cmds) => LineForked(pick, v, me, None, cmds)
        case _ => [];
      match events[0] {
        case Line(me, cmds) => LineChildren(pick, v, me, None, cmds);
        case Connect(fd) =>
        case Disconnect(fd) => CloseAllFds(v.s.proc, HitFds(v.tubes, From(fd)));
      }
      NoMore(u.s.proc);
      assert ChildrenOf(u.s.proc, n, now);
      AtLeast(u.s.proc, n, now);
      assert u.s.proc.children[..n] == v.s.proc.children;
      RunForks(pick, u, events[1..]);
      var p := RunServer(pick, u, events[1..]).s.proc;
      ChildrenJoin(u.s.proc, p, n, now, Forked(pick, u, events[1..]));
    }
  }

  /** Over every run from the empty server there is one child for every command of every line
      up to the line's first refusal, in order, with exactly its words, and the server waits
      for it exactly when it has no operator or writes to a file. */
  lemma {:induction false} ServerForks(pick: Allocator, events: seq<Event>)
    requires EventsFit(pick, NEW_SERVER, events)
    ensures var p, cmds := RunServer(pick, NEW_SERVER, events).s.proc, Forked(pick, NEW_SERVER, events);
      && |p.children| == |cmds|
      && forall k | 0 <= k < |cmds| :: p.children[k].argv == cmds[k].argv && (p.children[k].waited <==> Awaited(cmds[k]))
  {
    hide RunServer, EventsFit, Forked, ChildrenOf, Awaited, Init;
    RunForks(pick, NEW_SERVER, events);
    NoneYet();
    FromFirst(RunServer(pick, NEW_SERVER, events).s.proc, Forked(pick, NEW_SERVER, events));
  }

  lemma {:induction false} NoneYet()
    ensures NEW_SERVER.s.proc.children == []
  {
  }

  lemma {:induction false} FromFirst(p: Proc, cmds: seq<TubeCommand>)
    requires ChildrenOf(p, 0, cmds)
    ensures |p.children| == |cmds|
    ensures forall k | 0 <= k < |cmds| :: p.children[k].argv == cmds[k].argv && (p.children[k].waited <==> Awaited(cmds[k]))
  {
    assert forall k | 0 <= k < |cmds| :: cmds[k - 0] == cmds[k];
  }
}
