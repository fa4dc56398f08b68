/** What users can see of the single-process server: who is connected and for whom a tube
    waits. Which commands are accepted, and so the trace, depends on nothing else; the
    kernel's choice of descriptors does not matter. */
module TubeViews {
  import opened Text
  import opened Kernel
  import opened NumberedPipes
  import opened Tubes
  import opened TubeRuns
  import opened UserList
  import opened SingleHandler
  import opened TubeBooks
  import opened TubeServer
  import opened TubeTrace

  ghost predicate SamePairs(es: seq<Entry>, fs: seq<Entry>) {
    |es| == |fs| && forall i | 0 <= i < |es| :: es[i].sender == fs[i].sender && es[i].receiver == fs[i].receiver
  }

  ghost predicate SameView(v: Server, u: Server) {
    v.s.count == u.s.count && |v.s.table| == |u.s.table| && v.users == u.users && SamePairs(v.tubes, u.tubes)
  }

  lemma {:induction false} SameHits(es: seq<Entry>, fs: seq<Entry>, key: Key)
    requires SamePairs(es, fs)
    ensures forall i | 0 <= i < |es| :: Hit(key, es[i]) == Hit(key, fs[i])
    ensures StartsWithTwo(es, key) == StartsWithTwo(fs, key)
    ensures key.Pair? ==> HasPair(es, key.sender, key.receiver) == HasPair(fs, key.sender, key.receiver)
  {
    if key.Pair? {
      HasToo(es, fs, key.sender, key.receiver);
      HasToo(fs, es, key.sender, key.receiver);
    }
  }

  lemma {:induction false} HasToo(es: seq<Entry>, fs: seq<Entry>, sender: int, receiver: int)
    requires SamePairs(es, fs)
    ensures HasPair(es, sender, receiver) ==> HasPair(fs, sender, receiver)
  {
    if HasPair(es, sender, receiver) {
      var i :| 0 <= i < |es| && Hit(Pair(sender, receiver), es[i]);
      assert Hit(Pair(sender, receiver), fs[i]);
    }
  }

  lemma {:induction false} SameWithout(es: seq<Entry>, fs: seq<Entry>, key: Key)
    requires SamePairs(es, fs)
    ensures SamePairs(Without(es, key), Without(fs, key))
  {
    if es != [] { SameWithout(es[1..], fs[1..], key); }
  }

  lemma {:induction false} OpViews(p: Allocator, q: Allocator, v: Server, u: Server, me: int, w: Wiring, x: Wiring,
                                   receive: Option<int>, op: TubeOp)
    requires SameView(v, u) && TubeOpFits(v.s, op) && TubeOpFits(u.s, op)
    ensures var a, b := ApplyTubeOp(p, v, me, w, receive, op), ApplyTubeOp(q, u, me, x, receive, op);
      && SameView(a.v, b.v) && (a.Wired? <==> b.Wired?) && (a.Wired? ==> a.receive == b.receive)
  {
    if op.SendTo? { SameHits(v.tubes, u.tubes, Pair(me, op.peer)); }
    if op.ReceiveFrom? { SameHits(v.tubes, u.tubes, Pair(op.peer, me)); }
  }

  lemma {:induction false} ApplyViews(p: Allocator, q: Allocator, v: Server, u: Server, me: int, w: Wiring, x: Wiring,
                                      receive: Option<int>, ops: seq<TubeOp>)
    requires SameView(v, u) && TubeFits(v.s, ops) && TubeFits(u.s, ops)
    ensures Accepted(p, v, me, w, receive, ops) == Accepted(q, u, me, x, receive, ops)
    ensures var a, b := ApplyTube(p, v, me, w, receive, ops), ApplyTube(q, u, me, x, receive, ops);
      && SameView(a.v, b.v) && (a.Wired? <==> b.Wired?) && (a.Wired? ==> a.receive == b.receive)
    decreases |ops|
  {
    hide ApplyTubeOp, TubeFits, SameView;
    if ops != [] {
      ApplyTubeStep(p, v, me, w, receive, ops);
      ApplyTubeStep(q, u, me, x, receive, ops);
      OpViews(p, q, v, u, me, w, x, receive, ops[0]);
      var a, b := ApplyTubeOp(p, v, me, w, receive, ops[0]), ApplyTubeOp(q, u, me, x, receive, ops[0]);
      if a.Wired? { ApplyViews(p, q, a.v, b.v, me, a.w, b.w, a.receive, ops[1..]); }
    }
  }

  lemma {:induction false} FinishViews(v: Server, u: Server, me: int, w: Wiring, x: Wiring, receive: Option<int>, argv: seq<string>)
    requires SameView(v, u) && v.s.count < |v.s.table|
    ensures SameView(FinishTube(v, me, w, receive, argv), FinishTube(u, me, x, receive, argv))
  {
    if receive.Some? { SameWithout(v.tubes, u.tubes, Pair(receive.value, me)); }
  }

  lemma {:induction false} StepViews(p: Allocator, q: Allocator, v: Server, u: Server, me: int, receive: Option<int>, c: TubeCommand, tr: Trace)
    requires SameView(v, u) && TubeFits(v.s, c.ops) && TubeFits(u.s, c.ops)
    ensures StepTrace(p, v, me, receive, c, tr) == StepTrace(q, u, me, receive, c, tr)
    ensures var a, b := StepTube(p, v, me, receive, c), StepTube(q, u, me, receive, c);
      && SameView(a.v, b.v) && (a.Ran? <==> b.Ran?) && (a.Ran? ==> a.receive == b.receive)
  {
    hide ApplyTube, TubeFits, FinishTube, Accepted, ForkTrace, RefuseTrace;
    FitsHere(v.s, c.ops);
    FitsHere(u.s, c.ops);
    BeginFits(v.s, c.ops);
    BeginFits(u.s, c.ops);
    var b, d := v.(s := Begin(v.s)), u.(s := Begin(u.s));
    var w, x := FirstTubeWiring(v.s, c.ops), FirstTubeWiring(u.s, c.ops);
    ApplyViews(p, q, b, d, me, w, x, receive, c.ops);
    var r, t := ApplyTube(p, b, me, w, receive, c.ops), ApplyTube(q, d, me, x, receive, c.ops);
    if r.Wired? { FinishViews(r.v, t.v, me, r.w, t.w, r.receive, c.argv); }
  }

  lemma {:induction false} LineViews(p: Allocator, q: Allocator, v: Server, u: Server, me: int, receive: Option<int>,
                                     cmds: seq<TubeCommand>, tr: Trace)
    requires SameView(v, u) && TubeStreamFits(v.s, cmds) && TubeStreamFits(u.s, cmds)
    ensures LineTrace(p, v, me, receive, cmds, tr) == LineTrace(q, u, me, receive, cmds, tr)
    ensures SameView(RunTubeLine(p, v, me, receive, cmds), RunTubeLine(q, u, me, receive, cmds))
    decreases |cmds|
  {
    hide SameView, StepTube, TubeFits, TubeStreamFits, StepTrace;
    if cmds != [] {
      TubeStreamTail(p, v, me, receive, cmds);
      TubeStreamTail(q, u, me, receive, cmds);
      StepViews(p, q, v, u, me, receive, cmds[0], tr);
      var a, b := StepTube(p, v, me, receive, cmds[0]), StepTube(q, u, me, receive, cmds[0]);
      if a.Ran? { LineViews(p, q, a.v, b.v, me, a.receive, cmds[1..], StepTrace(p, v, me, receive, cmds[0], tr)); }
    }
  }

  lemma {:induction false} EventViews(p: Allocator, q: Allocator, v: Server, u: Server, e: Event, tr: Trace)
    requires SameView(v, u)
    ensures EventFits(v, e) <==> EventFits(u, e)
    ensures EventFits(v, e) ==> SameView(NextServer(p, v, e), NextServer(q, u, e))
    ensures e.Line? && EventFits(v, e) ==> LineTrace(p, v, e.me, None, e.cmds, tr) == LineTrace(q, u, e.me, None, e.cmds, tr)
  {
    hide RunTubeLine, LineTrace, Without;
    match e
    case Line(me, cmds) => if TubeStreamFits(v.s, cmds) { LineViews(p, q, v, u, me, None, cmds, tr); }
    case Connect(fd) =>
    case Disconnect(fd) =>
      SameHits(v.tubes, u.tubes, From(fd));
      SameWithout(v.tubes, u.tubes, From(fd));
  }

  /** Whatever descriptors the kernel hands out, the same events are possible and have the
      same trace: it can be told from the commands before anything is run. */
  lemma {:induction false} TraceOfEvents(p: Allocator, q: Allocator, v: Server, u: Server, events: seq<Event>, tr: Trace)
    requires SameView(v, u)
    ensures EventsFit(p, v, events) <==> EventsFit(q, u, events)
    ensures EventsFit(p, v, events) ==> RunTrace(p, v, events, tr) == RunTrace(q, u, events, tr)
    ensures EventsFit(p, v, events) ==> SameView(RunServer(p, v, events), RunServer(q, u, events))
    decreases |events|
  {
    hide SameView, EventFits, NextServer, LineTrace;
    if events != [] {
      EventViews(p, q, v, u, events[0], tr);
      if EventFits(v, events[0]) {
        var t := if events[0].Line? then LineView(p, v, events[0], tr) else tr;
        TraceOfEvents(p, q, NextServer(p, v, events[0]), NextServer(q, u, events[0]), events[1..], t);
      }
    }
  }

  function LineView(pick: Allocator, v: Server, e: Event, tr: Trace): Trace
    requires e.Line? && EventFits(v, e)
  {
    LineTrace(pick, v, e.me, None, e.cmds, tr)
  }

  // ---- Which commands are accepted ----

  function Ids(users: seq<User>): set<int> {
    set i | 0 <= i < |users| :: users[i].id
  }

  /** The command gets through its user pipes, one after the other: every `>n` needs a user n
      and no pending tube to n, which it makes, and every `<n` a user n and a pending tube
      from n. */
  predicate Passes(ids: set<int>, pending: set<(int, int)>, me: int, ops: seq<TubeOp>)
    decreases |ops|
  {
    ops == [] ||
    match ops[0]
    case Num(_) => Passes(ids, pending, me, ops[1..])
    case SendTo(n) => n in ids && (me, n) !in pending && Passes(ids, pending + {(me, n)}, me, ops[1..])
    case ReceiveFrom(n) => n in ids && (n, me) in pending && Passes(ids, pending, me, ops[1..])
  }

  lemma {:induction false} ApplyPasses(pick: Allocator, v: Server, me: int, w: Wiring, receive: Option<int>, ops: seq<TubeOp>)
    requires TubeFits(v.s, ops)
    ensures ApplyTube(pick, v, me, w, receive, ops).Wired? <==> Passes(Ids(v.users), AsMap(v.tubes).Keys, me, ops)
    decreases |ops|
  {
    hide TubeFits, AsMap, HasPair;
    if ops != [] {
      ApplyTubeStep(pick, v, me, w, receive, ops);
      assert forall n :: n in Ids(v.users) <==> Has(v.users, n);
      var r := ApplyTubeOp(pick, v, me, w, receive, ops[0]);
      match ops[0] {
        case Num(_) =>
        case SendTo(n) =>
          InMap(v.tubes, me, n);
          if r.Wired? { WithTubeKeys(pick, v, me, n); }
        case ReceiveFrom(n) => InMap(v.tubes, n, me);
      }
      if r.Wired? { ApplyPasses(pick, r.v, me, r.w, r.receive, ops[1..]); }
    }
  }

  lemma {:induction false} WithTubeKeys(pick: Allocator, v: Server, me: int, n: int)
    ensures AsMap(WithTube(pick, v, me, n).tubes).Keys == AsMap(v.tubes).Keys + {(me, n)}
  {
    var es := WithTube(pick, v, me, n).tubes;
    assert es[1..] == v.tubes;
  }

  /** A command of a user is forked exactly when its user pipes let it through, given who is
      connected and which tubes are pending. */
  lemma {:induction false} RanIff(pick: Allocator, v: Server, me: int, receive: Option<int>, c: TubeCommand)
    requires TubeFits(v.s, c.ops)
    ensures StepTube(pick, v, me, receive, c).Ran? <==> Passes(Ids(v.users), AsMap(v.tubes).Keys, me, c.ops)
  {
    hide ApplyTube, TubeFits, Passes, AsMap, Ids;
    BeginFits(v.s, c.ops);
    FitsHere(v.s, c.ops);
    ApplyPasses(pick, v.(s := Begin(v.s)), me, FirstTubeWiring(v.s, c.ops), receive, c.ops);
  }
}
