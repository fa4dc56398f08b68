/** Every command with jumps of at least 1 keeps the invariant of the numbered-pipe
    machine, so every run from the start has it. */
module PipeInvariant {
  import opened Kernel
  import opened NumberedPipes

  // ---- Counting ends ----

  lemma {:induction false} OpenEndsUpdate(table: seq<Slot>, k: nat, slot: Slot)
    requires k < |table|
    ensures OpenEnds(table[k := slot]) == OpenEnds(table) - Ends(table[k]) + Ends(slot)
  {
    if k > 0 {
      assert table[k := slot][1..] == table[1..][k - 1 := slot];
      OpenEndsUpdate(table[1..], k - 1, slot);
    } else {
      assert table[k := slot][1..] == table[1..];
    }
  }

  lemma {:induction false} OpenEndsArePairs(table: seq<Slot>)
    requires forall k | 0 <= k < |table| :: Whole(table[k])
    ensures OpenEnds(table) == 2 * Pending(table)
  {
    if table != [] {
      assert Whole(table[0]);
      assert forall k | 0 <= k < |table[1..]| :: table[1..][k] == table[k + 1];
      OpenEndsArePairs(table[1..]);
    }
  }

  lemma {:induction false} OpenEndsEmpty(n: nat)
    ensures OpenEnds(seq(n, _ => EMPTY)) == 0
  {
    if n > 0 {
      assert seq(n, _ => EMPTY)[1..] == seq(n - 1, _ => EMPTY);
      OpenEndsEmpty(n - 1);
    }
  }

  // ---- The three transitions of the table keep the books ----

  lemma {:induction false} OpenSlotBooks(pick: Allocator, s: State, k: nat)
    requires Sound(pick) && Books(s)
    requires k < |s.table| && s.table[k] == EMPTY && k !in s.proc.pipes
    ensures Books(OpenSlot(pick, s, k))
    ensures Whole(OpenSlot(pick, s, k).table[k]) && OpenSlot(pick, s, k).table[k] != EMPTY
  {
    hide Recorded, Ledger, Owned, OpenEnds;
    var (r, w) := pick(|s.proc.pipes|, InUse(s.proc));
    OpenEndsUpdate(s.table, k, Slot(r, w));
    OpenSlotLedger(pick, s, k);
    OpenSlotOwned(pick, s, k);
    OpenSlotRecorded(pick, s, k);
  }

  lemma {:induction false} OpenSlotLedger(pick: Allocator, s: State, k: nat)
    requires Sound(pick) && Ledger(s.proc) && k < |s.table|
    ensures Ledger(OpenSlot(pick, s, k).proc) && |OpenSlot(pick, s, k).proc.fds| == |s.proc.fds| + 2
  {
    var (r, w) := pick(|s.proc.pipes|, InUse(s.proc));
    var t := OpenSlot(pick, s, k);
    assert t.proc.fds.Keys == s.proc.fds.Keys + {r, w};
    assert |t.proc.fds| == |s.proc.fds| + 2 by {
      assert |t.proc.fds.Keys| == |s.proc.fds.Keys| + |{r, w}|;
    }
  }

  lemma {:induction false} OpenSlotOwned(pick: Allocator, s: State, k: nat)
    requires Sound(pick) && PipesInTable(s) && Owned(s) && s.proc.std == STANDARD
    requires k < |s.table| && s.table[k] == EMPTY && k !in s.proc.pipes
    ensures PipesInTable(OpenSlot(pick, s, k)) && Owned(OpenSlot(pick, s, k))
  {
  }

  lemma {:induction false} OpenSlotRecorded(pick: Allocator, s: State, k: nat)
    requires Sound(pick) && Recorded(s) && k < |s.table|
    ensures Recorded(OpenSlot(pick, s, k))
  {
    var t := OpenSlot(pick, s, k);
    forall j | 0 <= j < |t.table|
      ensures (t.table[j].read != 0 ==> Holds(t, t.table[j].read, j, true)) &&
              (t.table[j].write != 0 ==> Holds(t, t.table[j].write, j, false))
    {
      if j != k {
        assert s.table[j].read != 0 ==> Holds(s, s.table[j].read, j, true);
        assert s.table[j].write != 0 ==> Holds(s, s.table[j].write, j, false);
      }
    }
  }

  lemma {:induction false} CloseLedger(p: Proc, fd: int)
    requires fd in p.fds && Ledger(p) && p.fds[fd].pipe < |p.pipes|
    requires forall a, b | a in p.fds && b in p.fds && a != b :: p.fds[a] != p.fds[b]
    ensures Ledger(CloseFd(p, fd))
    ensures |CloseFd(p, fd).fds| == |p.fds| - 1
  {
    var q := CloseFd(p, fd);
    assert q.fds.Keys == p.fds.Keys - {fd};
    assert |q.fds.Keys| == |p.fds.Keys| - 1;
  }

  /** No two open descriptors are the same end. */
  lemma {:induction false} OwnedApart(s: State)
    requires PipesInTable(s) && Owned(s)
    ensures forall a, b | a in s.proc.fds && b in s.proc.fds && a != b :: s.proc.fds[a] != s.proc.fds[b]
    ensures forall fd | fd in s.proc.fds :: s.proc.fds[fd].pipe < |s.proc.pipes|
  {
  }

  /** A recorded descriptor stands in one entry only. */
  lemma {:induction false} OnlyEntry(s: State, fd: int, k: nat, reading: bool)
    requires Recorded(s) && k < |s.table| && Holds(s, fd, k, reading) && fd != 0
    ensures forall j | 0 <= j < |s.table| && (j != k || !reading) :: s.table[j].read != fd
    ensures forall j | 0 <= j < |s.table| && (j != k || reading) :: s.table[j].write != fd
  {
    forall j | 0 <= j < |s.table|
      ensures j != k || !reading ==> s.table[j].read != fd
      ensures j != k || reading ==> s.table[j].write != fd
    {
      assert s.table[j].read != 0 ==> Holds(s, s.table[j].read, j, true);
      assert s.table[j].write != 0 ==> Holds(s, s.table[j].write, j, false);
    }
  }

  /** Clearing the entry of a closed descriptor leaves the others owned. */
  lemma {:induction false} CloseOwned(s: State, t: State, fd: int)
    requires PipesInTable(s) && Owned(s) && fd in s.proc.fds && t.proc == CloseFd(s.proc, fd) && |t.table| == |s.table|
    requires forall j | 0 <= j < |s.table| ::
      (s.table[j].read != fd ==> t.table[j].read == s.table[j].read) && (s.table[j].write != fd ==> t.table[j].write == s.table[j].write)
    ensures PipesInTable(t) && Owned(t)
  {
  }

  lemma {:induction false} ShutWriteBooks(s: State)
    requires Books(s) && s.count < |s.table| && s.table[s.count].write != 0
    ensures Books(ShutWrite(s))
  {
    hide Ledger, Owned, OpenEnds, Recorded;
    var t, fd := ShutWrite(s), s.table[s.count].write;
    RecordedAt(s, s.count);
    OnlyEntry(s, fd, s.count, false);
    OwnedApart(s);
    CloseLedger(s.proc, fd);
    OpenEndsUpdate(s.table, s.count, s.table[s.count].(write := 0));
    CloseOwned(s, t, fd);
    CloseRecorded(s, t, fd);
  }

  lemma {:induction false} RecordedAt(s: State, k: nat)
    requires Recorded(s) && k < |s.table|
    ensures s.table[k].read != 0 ==> Holds(s, s.table[k].read, k, true)
    ensures s.table[k].write != 0 ==> Holds(s, s.table[k].write, k, false)
  {
  }

  lemma {:induction false} ShutReadBooks(s: State)
    requires Books(s) && s.count < |s.table| && s.table[s.count].read != 0
    ensures Books(ShutRead(s))
  {
    hide Ledger, Owned, OpenEnds, Recorded;
    var t, fd := ShutRead(s), s.table[s.count].read;
    RecordedAt(s, s.count);
    OnlyEntry(s, fd, s.count, true);
    OwnedApart(s);
    CloseLedger(s.proc, fd);
    OpenEndsUpdate(s.table, s.count, s.table[s.count].(read := 0));
    CloseOwned(s, t, fd);
    CloseRecorded(s, t, fd);
  }

  lemma {:induction false} CloseRecorded(s: State, t: State, fd: int)
    requires Books(s) && PipesInTable(t) && |t.table| == |s.table|
    requires fd in s.proc.fds && t.proc == CloseFd(s.proc, fd)
    requires forall k | 0 <= k < |s.table| :: t.table[k].read in {0, s.table[k].read} && t.table[k].write in {0, s.table[k].write}
    requires forall k | 0 <= k < |s.table| :: t.table[k].read != fd && t.table[k].write != fd
    ensures Recorded(t)
  {
    forall k | 0 <= k < |t.table|
      ensures (t.table[k].read != 0 ==> Holds(t, t.table[k].read, k, true)) &&
              (t.table[k].write != 0 ==> Holds(t, t.table[k].write, k, false))
    {
      assert s.table[k].read != 0 ==> Holds(s, s.table[k].read, k, true);
      assert s.table[k].write != 0 ==> Holds(s, s.table[k].write, k, false);
    }
  }

  // ---- Inside one command ----

  ghost predicate TargetOk(s: State, t: Target, sink: Sink) {
    match sink
    case Screen => t == Terminal
    case Disk(f) => t == ToFile(f)
    case Jump(n) =>
      1 <= n && s.count + n < |s.table| && s.table[s.count + n].write != 0 && t == Fd(s.table[s.count + n].write)
  }

  /** The table while a command is being wired: the cursor's slot has lost its write end. */
  ghost predicate HalfOpen(s: State) {
    s.count < |s.table| &&
    (forall k | 0 <= k < s.count :: s.table[k] == EMPTY) &&
    s.table[s.count].write == 0 &&
    (forall k | s.count < k < |s.table| :: Whole(s.table[k]))
  }

  /** The books while a command is being wired, whatever the slots behind the cursor hold. */
  ghost predicate Midway(s: State) {
    && s.count < |s.table| && s.table[s.count].write == 0
    && (forall k | s.count < k < |s.table| :: Whole(s.table[k]))
    && Books(s) && Waiting(s, s.count + 1)
  }

  ghost predicate MadeSoFar(s: State, cmds: seq<Command>, done: seq<Op>) {
    forall k: int :: k in s.proc.pipes <==> (Fed(cmds, k) || Names(done, k - s.count))
  }

  /** Between `Begin` and `Finish`, after the operators `done`. */
  ghost predicate During(s: State, cmds: seq<Command>, done: seq<Op>, w: Wiring) {
    && s.count == |cmds|
    && HalfOpen(s)
    && Books(s)
    && Waiting(s, s.count + 1)
    && MadeSoFar(s, cmds, done)
    && ChildrenOk(s.proc, cmds)
    && w.stdin == s.table[s.count].read
    && (w.stdin != 0 <==> Fed(cmds, s.count))
    && TargetOk(s, w.stdout, StdoutOf(done))
    && TargetOk(s, w.stderr, StderrOf(done))
  }

  lemma {:induction false} MemberAt<T>(s: seq<T>, x: T) returns (i: nat)
    requires x in s
    ensures i < |s| && s[i] == x
  {
    i :| 0 <= i < |s| && s[i] == x;
  }

  lemma {:induction false} BeginOk(s: State, c: Command, cmds: seq<Command>)
    requires Inv(s, cmds) && s.count < |s.table|
    ensures During(Begin(s), cmds, [], FirstWiring(s, c.ops))
  {
    hide Ledger, OpenEnds, OncePerSlot;
    assert Whole(s.table[s.count]);
    if s.table[s.count].read != 0 { ShutWriteBooks(s); }
    var b := Begin(s);
    assert b.proc.pipes == s.proc.pipes && b.proc.children == s.proc.children;
    assert MadeSoFar(b, cmds, []);
    ChildrenStay(s.proc, b.proc, cmds);
  }

  /** More pipes never change what holds of the children forked so far. */
  lemma {:induction false} ChildrenStay(p: Proc, q: Proc, cmds: seq<Command>)
    requires ChildrenOk(p, cmds)
    requires p.pipes <= q.pipes && q.children == p.children
    ensures ChildrenOk(q, cmds)
  {
    forall k | 0 <= k < |cmds|
      ensures ChildOk(q, cmds, k)
    {
      assert ChildOk(p, cmds, k);
    }
  }

  lemma {:induction false} SlotIsNamed(s: State, k: int)
    requires Midway(s) && s.count < k < |s.table|
    ensures if s.table[k].write == 0 then s.table[k] == EMPTY && k !in s.proc.pipes else k in s.proc.pipes
  {
    assert Whole(s.table[k]);
    if s.table[k].write == 0 {
      assert forall p | 0 <= p < |s.proc.pipes| && s.proc.pipes[p] == k :: s.table[s.proc.pipes[p]].write != 0;
    } else {
      assert Holds(s, s.table[k].write, k, false);
      assert s.proc.pipes[s.proc.fds[s.table[k].write].pipe] in s.proc.pipes;
    }
  }

  lemma {:induction false} MadeMore(s: State, t: State, cmds: seq<Command>, done: seq<Op>, op: Op)
    requires MadeSoFar(s, cmds, done) && t.count == s.count
    requires t.proc.pipes == s.proc.pipes || (HasJump(op) && t.proc.pipes == s.proc.pipes + [s.count + op.jump])
    requires HasJump(op) ==> s.count + op.jump in t.proc.pipes
    ensures MadeSoFar(t, cmds, done + [op])
  {
    forall k: int
      ensures k in t.proc.pipes <==> (Fed(cmds, k) || Names(done + [op], k - t.count))
    {
      assert k in s.proc.pipes <==> (Fed(cmds, k) || Names(done, k - s.count));
    }
  }

  lemma {:induction false} ReserveTable(pick: Allocator, s: State, op: Op)
    requires Sound(pick) && Midway(s)
    requires OpFits(s, op) && (HasJump(op) ==> op.jump >= 1)
    ensures var t := Reserve(pick, s, op);
      && Midway(t) && t.count == s.count && |t.table| == |s.table|
      && (forall k | 0 <= k <= s.count :: t.table[k] == s.table[k])
      && (t.proc.pipes == s.proc.pipes || (HasJump(op) && t.proc.pipes == s.proc.pipes + [s.count + op.jump]))
      && (HasJump(op) ==> s.count + op.jump in t.proc.pipes && t.table[t.count + op.jump].write != 0)
      && (forall k | 0 <= k < |s.table| && s.table[k].write != 0 :: t.table[k] == s.table[k])
  {
    hide Owned, Recorded, Ledger, OncePerSlot, OpenEnds;
    if HasJump(op) {
      SlotIsNamed(s, s.count + op.jump);
      if s.table[s.count + op.jump].write == 0 { OpenSlotBooks(pick, s, s.count + op.jump); }
    }
  }

  lemma {:induction false} ReserveOk(pick: Allocator, s: State, cmds: seq<Command>, done: seq<Op>, w: Wiring, op: Op)
    requires Sound(pick) && During(s, cmds, done, w)
    requires OpFits(s, op) && (HasJump(op) ==> op.jump >= 1)
    ensures During(Reserve(pick, s, op), cmds, done + [op], Wire(Reserve(pick, s, op), w, op))
  {
    hide Books, Waiting, ChildrenOk, MadeSoFar, Fed;
    var t := Reserve(pick, s, op);
    ReserveTable(pick, s, op);
    MadeMore(s, t, cmds, done, op);
    ChildrenStay(s.proc, t.proc, cmds);
    assert (done + [op])[..|done|] == done;
  }

  lemma {:induction false} ApplyOk(pick: Allocator, s: State, cmds: seq<Command>, done: seq<Op>, w: Wiring, ops: seq<Op>)
    requires Sound(pick) && During(s, cmds, done, w)
    requires Fits(s, ops) && Forward(Command([], ops))
    ensures var (t, v) := Apply(pick, s, w, ops); During(t, cmds, done + ops, v)
    ensures Apply(pick, s, w, ops).1.isWait == (w.isWait || Redirects(ops))
    decreases |ops|
  {
    hide Books, HalfOpen, MadeSoFar, ChildrenOk, TargetOk, StdoutOf, StderrOf, Waiting;
    if ops == [] {
      assert done + ops == done;
    } else {
      var op, rest := ops[0], ops[1..];
      assert OpFits(s, op);
      ReserveOk(pick, s, cmds, done, w, op);
      var t := Reserve(pick, s, op);
      assert forall i | 0 <= i < |rest| :: rest[i] == ops[i + 1];
      ApplyOk(pick, t, cmds, done + [op], Wire(t, w, op), rest);
      assert done + [op] + rest == done + ops;
      if Redirects(rest) {
        var i :| 0 <= i < |rest| && !HasJump(rest[i]);
        assert !HasJump(ops[i + 1]);
      }
    }
  }

  // ---- Finishing the command ----

  lemma {:induction false} FedMore(cmds: seq<Command>, c: Command, k: int)
    ensures Fed(cmds + [c], k) <==> (Fed(cmds, k) || Names(c.ops, k - |cmds|))
  {
    var all := cmds + [c];
    if Fed(cmds, k) {
      var j :| 0 <= j < |cmds| && Names(cmds[j].ops, k - j);
      assert Names(all[j].ops, k - j);
    }
    if Names(c.ops, k - |cmds|) { assert Names(all[|cmds|].ops, k - |cmds|); }
    if Fed(all, k) {
      var j :| 0 <= j < |all| && Names(all[j].ops, k - j);
      assert j < |cmds| ==> Names(cmds[j].ops, k - j);
    }
  }

  /** A command with forward jumps does not change who feeds the slots up to its own. */
  lemma {:induction false} EarlierFedStays(cmds: seq<Command>, c: Command, k: int)
    requires Forward(c) && k <= |cmds|
    ensures Fed(cmds + [c], k) <==> Fed(cmds, k)
  {
    FedMore(cmds, c, k);
  }

  lemma {:induction false} HolderOf(fds: map<int, End>, e: End) returns (fd: int)
    requires e in EndsOf(fds)
    ensures fd in fds && fds[fd] == e
  {
    fd :| fd in fds && fds[fd] == e;
  }

  lemma {:induction false} NewChildOk(s: State, cmds: seq<Command>, c: Command, w: Wiring)
    requires During(s, cmds, c.ops, w) && Forward(c) && w.isWait == Waits(c.ops)
    requires |s.proc.children| == |cmds|
    ensures |Spawn(s, w, c.argv).proc.children| == |cmds| + 1
    ensures ChildOk(Spawn(s, w, c.argv).proc, cmds + [c], |cmds|)
  {
    hide ChildrenOk, MadeSoFar, Ledger, OncePerSlot, OpenEnds, HoldsAhead, StdoutOf, StderrOf, Waiting;
    var n := |cmds|;
    EarlierFedStays(cmds, c, n);
    if w.stdin != 0 { assert Holds(s, w.stdin, n, true); } else { OwnInput(s); }
    forall j | n < j < |s.table| && s.table[j].write != 0
      ensures Holds(s, s.table[j].write, j, false)
    {
    }
    NewChildHolds(s, w, c.argv);
  }

  /** A child that is not given a pipe reads what the shell reads. */
  lemma {:induction false} OwnInput(s: State)
    requires Books(s)
    ensures PortOf(s.proc, 0) == Default
  {
  }

  lemma {:induction false} NewChildHolds(s: State, w: Wiring, argv: seq<string>)
    requires Books(s) && HalfOpen(s) && |s.proc.children| == s.count
    ensures HoldsAhead(Spawn(s, w, argv).proc, s.count)
  {
    var q := Spawn(s, w, argv).proc;
    forall e | e in q.children[s.count].held
      ensures e.pipe < |q.pipes| && (e.WriteEnd? ==> q.pipes[e.pipe] > s.count)
    {
      var fd := HolderOf(s.proc.fds, e);
      assert EndIn(s.table[s.proc.pipes[e.pipe]], e) == fd;
    }
  }

  lemma {:induction false} OldChildrenOk(p: Proc, q: Proc, cmds: seq<Command>, c: Command)
    requires ChildrenOk(p, cmds) && Forward(c)
    requires q.pipes == p.pipes && p.children <= q.children
    ensures forall k | 0 <= k < |cmds| :: ChildOk(q, cmds + [c], k)
  {
    forall k | 0 <= k < |cmds|
      ensures ChildOk(q, cmds + [c], k)
    {
      assert ChildOk(p, cmds, k);
      assert q.children[k] == p.children[k];
      EarlierFedStays(cmds, c, k);
    }
  }

  lemma {:induction false} FinishMade(s: State, cmds: seq<Command>, c: Command)
    requires MadeSoFar(s, cmds, c.ops) && s.count == |cmds|
    ensures Made(s.proc, cmds + [c])
  {
    forall k: int
      ensures k in s.proc.pipes <==> Fed(cmds + [c], k)
    {
      assert k in s.proc.pipes <==> (Fed(cmds, k) || Names(c.ops, k - s.count));
      FedMore(cmds, c, k);
    }
  }

  lemma {:induction false} FinishTable(s: State, w: Wiring, argv: seq<string>)
    requires Midway(s)
    ensures var t := Finish(s, w, argv);
      && Books(t) && Waiting(t, t.count)
      && t.count == s.count + 1 && t.table == s.table[s.count := EMPTY]
      && t.proc.pipes == s.proc.pipes && t.proc.children == Spawn(s, w, argv).proc.children
  {
    hide Owned, Recorded, Ledger, OncePerSlot, OpenEnds;
    var s1 := Spawn(s, w, argv);
    SameFds(s, s1);
    if s1.table[s1.count].read != 0 { ShutReadBooks(s1); }
    SameFds(if s1.table[s1.count].read != 0 then ShutRead(s1) else s1, Finish(s, w, argv));
  }

  lemma {:induction false} FinishOk(s: State, cmds: seq<Command>, c: Command, w: Wiring)
    requires During(s, cmds, c.ops, w) && Forward(c) && w.isWait == Waits(c.ops)
    ensures Inv(Finish(s, w, c.argv), cmds + [c])
  {
    hide Books, Waiting, MadeSoFar, TargetOk, ChildOk, Made;
    var t := Finish(s, w, c.argv);
    FinishTable(s, w, c.argv);
    NewChildOk(s, cmds, c, w);
    OldChildrenOk(s.proc, t.proc, cmds, c);
    FinishMade(s, cmds, c);
    MadeOfPipes(s.proc, t.proc, cmds + [c]);
    ChildOfPipes(Spawn(s, w, c.argv).proc, t.proc, cmds + [c], |cmds|);
  }

  lemma {:induction false} MadeOfPipes(p: Proc, q: Proc, cmds: seq<Command>)
    requires Made(p, cmds) && q.pipes == p.pipes
    ensures Made(q, cmds)
  {
    assert forall k: int :: k in p.pipes <==> Fed(cmds, k);
  }

  lemma {:induction false} ChildOfPipes(p: Proc, q: Proc, cmds: seq<Command>, k: nat)
    requires k < |p.children| && k < |cmds| && ChildOk(p, cmds, k)
    requires q.pipes == p.pipes && q.children == p.children
    ensures ChildOk(q, cmds, k)
  {
  }

  lemma {:induction false} SameFds(s: State, t: State)
    requires Books(s) && t.table == s.table
    requires t.proc.fds == s.proc.fds && t.proc.pipes == s.proc.pipes
    requires t.proc.closed == s.proc.closed && t.proc.badCloses == s.proc.badCloses && t.proc.std == s.proc.std
    ensures Books(t)
  {
    assert forall k, fd, r :: Holds(t, fd, k, r) <==> Holds(s, fd, k, r);
  }

  // ---- Runs ----

  lemma {:induction false} StepOk(pick: Allocator, s: State, cmds: seq<Command>, c: Command)
    requires Sound(pick) && Inv(s, cmds) && Fits(s, c.ops) && Forward(c)
    ensures Inv(Step(pick, s, c), cmds + [c])
  {
    var b, w := Begin(s), FirstWiring(s, c.ops);
    BeginOk(s, c, cmds);
    assert forall i | 0 <= i < |c.ops| :: OpFits(s, c.ops[i]) ==> OpFits(b, c.ops[i]);
    ApplyOk(pick, b, cmds, [], w, c.ops);
    assert [] + c.ops == c.ops;
    var (m, v) := Apply(pick, b, w, c.ops);
    FinishOk(m, cmds, c, v);
  }

  lemma {:induction false} InitOk()
    ensures Inv(Init(), [])
  {
    hide OpenEnds;
    OpenEndsEmpty(PIPE_NUMBER);
  }

  lemma {:induction false} RunOk(pick: Allocator, s: State, before: seq<Command>, cmds: seq<Command>)
    requires Sound(pick) && Inv(s, before) && StreamFits(s, cmds) && AllForward(cmds)
    ensures Inv(Run(pick, s, cmds), before + cmds)
    decreases |cmds|
  {
    hide Books, Window, Waiting, Made, ChildrenOk, Step, Forward, JumpsFit, Fits;
    if cmds == [] {
      assert before + cmds == before;
    } else {
      StreamFitsTail(pick, s, cmds);
      StepOk(pick, s, before, cmds[0]);
      assert forall i | 0 <= i < |cmds[1..]| :: cmds[1..][i] == cmds[i + 1];
      RunOk(pick, Step(pick, s, cmds[0]), before + [cmds[0]], cmds[1..]);
      assert before + [cmds[0]] + cmds[1..] == before + cmds;
    }
  }
}
