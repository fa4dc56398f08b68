/** Who feeds whom in the single-process server, who reads which tube, and which children
    exit, all told by the commands alone. */
module TubeFeeds {
  import opened Text
  import opened Kernel
  import opened NumberedPipes
  import opened Tubes
  import opened TubeRuns
  import opened UserList
  import opened SingleHandler
  import opened TubeBooks
  import opened TubeServer
  import opened Progress
  import opened TubeProgress
  import opened TubeTrace
  import opened TubeFlow

  /** Child k reads what child j writes to its standard output. */
  ghost predicate Feeds(p: Proc, j: nat, k: nat)
    requires j < |p.children| && k < |p.children|
  {
    p.children[k].stdin.Piped? && p.children[k].stdin.end.ReadEnd? && WritesTo(p, j, p.children[k].stdin.end.pipe)
  }

  /** Child k reads what child j writes to its standard error. */
  ghost predicate Errs(p: Proc, j: nat, k: nat)
    requires j < |p.children| && k < |p.children|
  {
    p.children[k].stdin.Piped? && p.children[k].stdin.end.ReadEnd? && ErrsTo(p, j, p.children[k].stdin.end.pipe)
  }

  /** `Feeds` by the commands: the writer of the tube, or an earlier command that jumps to the
      slot of child k, whoever's command it is. */
  predicate Aims(forks: seq<Fork>, j: nat, k: nat)
    requires j < |forks| && k < |forks|
  {
    if forks[k].source.Some? then forks[k].writer == Some(j) else j < k && forks[j].out == Ahead(k - j)
  }

  predicate AimsErr(forks: seq<Fork>, j: nat, k: nat)
    requires j < |forks| && k < |forks|
  {
    forks[k].source.None? && j < k && forks[j].err == Ahead(k - j)
  }

  lemma {:induction false} NewServerFlows()
    ensures Flows(NEW_SERVER, NO_TRACE, false)
  {
    NewServerSane();
  }

  lemma {:induction false} FinalFlow(pick: Allocator, events: seq<Event>)
    requires Sound(pick) && EventsFit(pick, NEW_SERVER, events)
    requires NothingAfterStranding(pick, NEW_SERVER, events, false)
    ensures Family(RunServer(pick, NEW_SERVER, events).s.proc, RunTrace(pick, NEW_SERVER, events, NO_TRACE).forks)
  {
    hide RunServer, EventsFit, NothingAfterStranding, RunTrace, Sane, Tidy, Family;
    NewServerFlows();
    RunFlow(pick, NEW_SERVER, events, false, NO_TRACE);
  }

  /** After every run from the empty server in which no command follows a stranding: child k
      reads the server's own input exactly when it has no `<n` and no earlier command of any
      user had named its slot; child j feeds child k exactly when j writes the tube that k's
      `<n` took, or k has no `<n` and the last redirection of j's output jumps to the slot of
      k, which was not made anew in between; and the same of its standard error, but that
      never goes into a tube. */
  lemma {:induction false} WhoFeedsWhom(pick: Allocator, events: seq<Event>)
    requires Sound(pick) && EventsFit(pick, NEW_SERVER, events)
    requires NothingAfterStranding(pick, NEW_SERVER, events, false)
    ensures var p, forks := RunServer(pick, NEW_SERVER, events).s.proc, RunTrace(pick, NEW_SERVER, events, NO_TRACE).forks;
      && |forks| == |p.children|
      && (forall k | 0 <= k < |forks| :: p.children[k].stdin == Default <==> forks[k].source.None? && !forks[k].fed)
      && (forall j, k | 0 <= j < |forks| && 0 <= k < |forks| ::
            (Feeds(p, j, k) <==> Aims(forks, j, k)) && (Errs(p, j, k) <==> AimsErr(forks, j, k)))
  {
    hide RunServer, EventsFit, NothingAfterStranding, RunTrace;
    FinalFlow(pick, events);
    var p, forks := RunServer(pick, NEW_SERVER, events).s.proc, RunTrace(pick, NEW_SERVER, events, NO_TRACE).forks;
    forall k: nat | k < |forks|
      ensures p.children[k].stdin == Default <==> forks[k].source.None? && !forks[k].fed
      ensures forall j | 0 <= j < |forks| :: (Feeds(p, j, k) <==> Aims(forks, j, k)) && (Errs(p, j, k) <==> AimsErr(forks, j, k))
    {
      assert ChildFlow(p, forks, k);
      forall j: nat | j < |forks|
        ensures (Feeds(p, j, k) <==> Aims(forks, j, k)) && (Errs(p, j, k) <==> AimsErr(forks, j, k))
      {
        OneFeeds(p, forks, j, k);
      }
    }
  }

  lemma {:induction false} OneFeeds(p: Proc, forks: seq<Fork>, j: nat, k: nat)
    requires |forks| == |p.children| && j < |forks| && k < |forks| && ChildFlow(p, forks, k)
    ensures (Feeds(p, j, k) <==> Aims(forks, j, k)) && (Errs(p, j, k) <==> AimsErr(forks, j, k))
  {
    if forks[k].source.None? && forks[k].fed {
      var x := p.children[k].stdin.end.pipe;
      if j < k { assert Tied(p, forks[j], j, x, k); } else { assert Untied(p, j, x); }
    } else if forks[k].source.Some? {
      var x := p.children[k].stdin.end.pipe;
      assert (WritesTo(p, j, x) <==> forks[k].writer == Some(j)) && !ErrsTo(p, j, x);
    }
  }

  /** The users are isolated from each other's numbered pipes exactly when every command that
      jumps to the slot of another one, which has no `<n`, is of the same user. */
  lemma {:induction false} IsolatedIff(pick: Allocator, events: seq<Event>)
    requires Sound(pick) && EventsFit(pick, NEW_SERVER, events)
    requires NothingAfterStranding(pick, NEW_SERVER, events, false)
    ensures var p, forks := RunServer(pick, NEW_SERVER, events).s.proc, RunTrace(pick, NEW_SERVER, events, NO_TRACE).forks;
      && |forks| == |p.children|
      && ((forall j, k | 0 <= j < |forks| && 0 <= k < |forks| && (Feeds(p, j, k) || Errs(p, j, k)) && forks[k].source.None? ::
             forks[j].me == forks[k].me)
          <==> forall j, k | 0 <= j < k < |forks| && forks[k].source.None? && Ahead(k - j) in {forks[j].out, forks[j].err} ::
                 forks[j].me == forks[k].me)
  {
    hide RunServer, EventsFit, NothingAfterStranding, RunTrace, Feeds, Errs;
    WhoFeedsWhom(pick, events);
    var forks := RunTrace(pick, NEW_SERVER, events, NO_TRACE).forks;
    assert forall j, k | 0 <= j < |forks| && 0 <= k < |forks| && forks[k].source.None? ::
      Aims(forks, j, k) || AimsErr(forks, j, k) <==> (j < k && Ahead(k - j) in {forks[j].out, forks[j].err});
  }

  // ---- Tubes ----

  /** Child j is the last one before n that writes a tube from the sender to the receiver. */
  ghost predicate Latest(forks: seq<Fork>, n: nat, sender: int, receiver: int, j: nat) {
    && j < n <= |forks| && forks[j].me == sender && forks[j].out == ToTube(receiver)
    && forall i | j < i < n :: !(forks[i].me == sender && forks[i].out == ToTube(receiver))
  }

  ghost predicate TubesTrue(tr: Trace) {
    && (forall s, r | WriterOf(tr.writers, s, r).Some? :: Latest(tr.forks, |tr.forks|, s, r, WriterOf(tr.writers, s, r).value))
    && forall k | 0 <= k < |tr.forks| && tr.forks[k].source.Some? && tr.forks[k].writer.Some? ::
         Latest(tr.forks, k + 1, tr.forks[k].source.value, tr.forks[k].me, tr.forks[k].writer.value)
  }

  lemma {:induction false} OutletSent(ops: seq<TubeOp>)
    ensures OutletOf(ops).ToTube? ==> OutletOf(ops).peer in SentTo(ops)
    decreases |ops|
  {
    if ops != [] { OutletSent(ops[..|ops| - 1]); }
  }

  lemma {:induction false} LatestStays(forks: seq<Fork>, more: seq<Fork>, n: nat, sender: int, receiver: int, j: nat)
    requires Latest(forks, n, sender, receiver, j) && n <= |more|
    requires forall i | 0 <= i < n :: more[i].me == forks[i].me && (more[i].out == ToTube(receiver) <==> forks[i].out == ToTube(receiver))
    ensures Latest(more, n, sender, receiver, j)
  {
  }

  lemma {:induction false} ForkTrue(tr: Trace, me: int, ops: seq<TubeOp>)
    requires TubesTrue(tr)
    ensures TubesTrue(ForkTrace(tr, me, ops))
  {
    hide NewWriters, Latest;
    var t, n := ForkTrace(tr, me, ops), |tr.forks|;
    OutletSent(ops);
    assert forall i | 0 <= i < n :: t.forks[i] == tr.forks[i];
    forall s, r | WriterOf(t.writers, s, r).Some?
      ensures Latest(t.forks, n + 1, s, r, WriterOf(t.writers, s, r).value)
    {
      NewWriterOf(tr.writers, me, ops, n, s, r);
      LatestNow(tr, t, me, ops, s, r);
    }
    forall k | 0 <= k < n && t.forks[k].source.Some? && t.forks[k].writer.Some?
      ensures Latest(t.forks, k + 1, t.forks[k].source.value, t.forks[k].me, t.forks[k].writer.value)
    {
      LatestStays(tr.forks, t.forks, k + 1, t.forks[k].source.value, t.forks[k].me, t.forks[k].writer.value);
    }
  }

  lemma {:induction false} LatestNow(tr: Trace, t: Trace, me: int, ops: seq<TubeOp>, s: int, r: int)
    requires TubesTrue(tr) && t == ForkTrace(tr, me, ops) && WriterOf(t.writers, s, r).Some?
    requires OutletOf(ops).ToTube? ==> OutletOf(ops).peer in SentTo(ops)
    requires WriterOf(t.writers, s, r) ==
             if !(s == me && r in SentTo(ops)) then WriterOf(tr.writers, s, r)
             else if OutletOf(ops) == ToTube(r) then Some(|tr.forks|) else None
    ensures Latest(t.forks, |t.forks|, s, r, WriterOf(t.writers, s, r).value)
  {
    hide NewWriters;
    var n := |tr.forks|;
    assert forall i | 0 <= i < n :: t.forks[i] == tr.forks[i];
  }

  lemma {:induction false} RefuseTrue(tr: Trace, me: int, ops: seq<TubeOp>)
    requires TubesTrue(tr)
    ensures TubesTrue(RefuseTrace(tr, me, ops))
  {
    hide NewWriters, Latest;
    var t, n := RefuseTrace(tr, me, ops), |tr.forks|;
    forall i | 0 <= i < n
      ensures t.forks[i].me == tr.forks[i].me && t.forks[i].source == tr.forks[i].source && t.forks[i].writer == tr.forks[i].writer
      ensures forall r :: t.forks[i].out == ToTube(r) <==> tr.forks[i].out == ToTube(r)
    {
      if n in Named(n, ops) { assert t.forks[i] == Voided(tr.forks[i], i, n); }
    }
    forall s, r | WriterOf(t.writers, s, r).Some?
      ensures Latest(t.forks, n, s, r, WriterOf(t.writers, s, r).value)
    {
      NewWriterOf(tr.writers, me, ops, n, s, r);
      LatestStays(tr.forks, t.forks, n, s, r, WriterOf(t.writers, s, r).value);
    }
    forall k | 0 <= k < n && t.forks[k].source.Some? && t.forks[k].writer.Some?
      ensures Latest(t.forks, k + 1, t.forks[k].source.value, t.forks[k].me, t.forks[k].writer.value)
    {
      LatestStays(tr.forks, t.forks, k + 1, t.forks[k].source.value, t.forks[k].me, t.forks[k].writer.value);
    }
  }

  lemma {:induction false} LineTrue(pick: Allocator, v: Server, me: int, receive: Option<int>, cmds: seq<TubeCommand>, tr: Trace)
    requires TubeStreamFits(v.s, cmds) && TubesTrue(tr)
    ensures TubesTrue(LineTrace(pick, v, me, receive, cmds, tr))
    decreases |cmds|
  {
    hide TubesTrue, StepTube, TubeFits, TubeStreamFits, ForkTrace, RefuseTrace, Accepted;
    if cmds != [] {
      TubeStreamTail(pick, v, me, receive, cmds);
      var c := cmds[0];
      BeginFits(v.s, c.ops);
      FitsHere(v.s, c.ops);
      var n := Accepted(pick, v.(s := Begin(v.s)), me, FirstTubeWiring(v.s, c.ops), receive, c.ops);
      ForkTrue(tr, me, c.ops);
      RefuseTrue(tr, me, c.ops[..n]);
      var r := StepTube(pick, v, me, receive, c);
      if r.Ran? { LineTrue(pick, r.v, me, r.receive, cmds[1..], ForkTrace(tr, me, c.ops)); }
    }
  }

  lemma {:induction false} RunTrue(pick: Allocator, v: Server, events: seq<Event>, tr: Trace)
    requires EventsFit(pick, v, events) && TubesTrue(tr)
    ensures TubesTrue(RunTrace(pick, v, events, tr))
    decreases |events|
  {
    hide TubesTrue, LineTrace, TubeStreamFits, RunTubeLine;
    if events != [] {
      var u := NextServer(pick, v, events[0]);
      match events[0] {
        case Line(me, cmds) =>
          LineTrue(pick, v, me, None, cmds, tr);
          RunTrue(pick, u, events[1..], LineTrace(pick, v, me, None, cmds, tr));
        case _ => RunTrue(pick, u, events[1..], tr);
      }
    }
  }

  /** A child with `<n` reads what the last child before it wrote that user n forked with its
      output in a tube to the reader; it gets nothing at all when the tube was made by a
      command that was refused later on, or whose output went elsewhere in the end. */
  lemma {:induction false} TubeReader(pick: Allocator, events: seq<Event>, k: nat)
    requires Sound(pick) && EventsFit(pick, NEW_SERVER, events)
    requires NothingAfterStranding(pick, NEW_SERVER, events, false)
    requires var forks := RunTrace(pick, NEW_SERVER, events, NO_TRACE).forks; k < |forks| && forks[k].source.Some?
    ensures var p, forks := RunServer(pick, NEW_SERVER, events).s.proc, RunTrace(pick, NEW_SERVER, events, NO_TRACE).forks;
      && |p.children| == |forks|
      && match forks[k].writer
         case Some(j) => Latest(forks, k + 1, forks[k].source.value, forks[k].me, j) &&
                         forall i | 0 <= i < |forks| :: (Feeds(p, i, k) <==> i == j) && !Errs(p, i, k)
         case None => forall i | 0 <= i < |forks| :: !Feeds(p, i, k) && !Errs(p, i, k)
  {
    hide RunServer, EventsFit, NothingAfterStranding, RunTrace, Feeds, Errs, Latest;
    WhoFeedsWhom(pick, events);
    assert TubesTrue(NO_TRACE);
    RunTrue(pick, NEW_SERVER, events, NO_TRACE);
    var forks := RunTrace(pick, NEW_SERVER, events, NO_TRACE).forks;
    assert forall i: nat | i < |forks| :: (Aims(forks, i, k) <==> forks[k].writer == Some(i)) && !AimsErr(forks, i, k);
  }

  // ---- Who exits ----

  /** Child k has a `<n`, or its slot had been named when an earlier child that is stuck was
      forked, which so inherited the write end. */
  predicate StuckBy(forks: seq<Fork>, k: nat)
    requires k < |forks|
    decreases k
  {
    forks[k].source.Some? || exists j | 0 <= j < k :: k in forks[j].named && StuckBy(forks, j)
  }

  lemma {:induction false} ReceiverIs(p: Proc, forks: seq<Fork>, receivers: set<nat>, k: nat)
    requires Family(p, forks) && Kids(p, receivers) && k < |forks|
    ensures k in receivers <==> forks[k].source.Some?
  {
    assert ChildFlow(p, forks, k) && KidOk(p, receivers, k);
    if forks[k].source.Some? {
      assert HoldsWrite(p, k, p.children[k].stdin.end.pipe);
    } else if forks[k].fed {
      assert !HoldsWrite(p, k, p.children[k].stdin.end.pipe);
    }
  }

  lemma {:induction false} HoldsIff(p: Proc, forks: seq<Fork>, j: nat, k: nat)
    requires Family(p, forks) && j < k < |forks| && forks[k].source.None?
    ensures p.children[k].stdin.Piped? && InputWrite(p, k) in p.children[j].held <==> k in forks[j].named
  {
    assert ChildFlow(p, forks, k);
    if forks[k].fed {
      assert HoldsWrite(p, j, p.children[k].stdin.end.pipe) <==> k in forks[j].named;
    }
  }

  lemma {:induction false} StuckIff(p: Proc, forks: seq<Fork>, receivers: set<nat>, k: nat)
    requires Family(p, forks) && Kids(p, receivers) && k < |forks|
    ensures Stuck(p, receivers, k) <==> StuckBy(forks, k)
    decreases k
  {
    hide Family, Kids;
    FamilySize(p, forks);
    ReceiverIs(p, forks, receivers, k);
    if forks[k].source.None? {
      forall j: nat | j < k
        ensures p.children[k].stdin.Piped? && InputWrite(p, k) in p.children[j].held <==> k in forks[j].named
        ensures Stuck(p, receivers, j) <==> StuckBy(forks, j)
      {
        HoldsIff(p, forks, j, k);
        StuckIff(p, forks, receivers, j);
      }
    }
  }

  /** After every run from the empty server in which no command follows a stranding: child k
      exits within k + 1 rounds, whoever has exited already, unless the commands make it
      stuck; and no stuck child ever exits, however many rounds pass. As a wait is for the
      child forked last, this says which waits return. */
  lemma {:induction false} WhoExits(pick: Allocator, events: seq<Event>, k: nat, exited: set<nat>, n: nat)
    requires Sound(pick) && EventsFit(pick, NEW_SERVER, events)
    requires NothingAfterStranding(pick, NEW_SERVER, events, false)
    requires k < |RunTrace(pick, NEW_SERVER, events, NO_TRACE).forks|
    ensures var p, forks := RunServer(pick, NEW_SERVER, events).s.proc, RunTrace(pick, NEW_SERVER, events, NO_TRACE).forks;
      && |p.children| == |forks|
      && if !StuckBy(forks, k) then k in Rounds(p, exited, k + 1)
         else (forall j | 0 <= j < |forks| && StuckBy(forks, j) :: j !in exited) ==> k !in Rounds(p, exited, n)
  {
    hide RunServer, EventsFit, NothingAfterStranding, RunTrace, Stuck, StuckBy, Rounds, Receivers, Family, Kids;
    var p, forks := RunServer(pick, NEW_SERVER, events).s.proc, RunTrace(pick, NEW_SERVER, events, NO_TRACE).forks;
    FinalFlow(pick, events);
    FamilySize(p, forks);
    StuckOrExits(pick, events, k, exited, n);
    NewServerGood();
    RunKids(pick, NEW_SERVER, events, false, {});
    var receivers := Receivers(pick, NEW_SERVER, events);
    assert {} + receivers == receivers;
    forall j: nat | j < |forks| { StuckIff(p, forks, receivers, j); }
  }

  lemma {:induction false} NewServerGood()
    ensures Good(NEW_SERVER, false, {})
  {
    NewServerSane();
  }
}
