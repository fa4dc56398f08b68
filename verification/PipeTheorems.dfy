/** What the numbered-pipe machine promises over whole runs. */
module PipeTheorems {
  import opened Kernel
  import opened NumberedPipes
  import opened PipeInvariant

  // ---- Dataflow ----

  /** Command j's standard output and command k's standard input are the two ends of one pipe. */
  ghost predicate Feeds(p: Proc, j: nat, k: nat)
    requires j < |p.children| && k < |p.children|
  {
    p.children[j].stdout.Piped? && p.children[k].stdin.Piped? &&
    p.children[k].stdin.end.ReadEnd? &&
    p.children[j].stdout.end == WriteEnd(p.children[k].stdin.end.pipe)
  }

  ghost predicate FeedsErrors(p: Proc, j: nat, k: nat)
    requires j < |p.children| && k < |p.children|
  {
    p.children[j].stderr.Piped? && p.children[k].stdin.Piped? &&
    p.children[k].stdin.end.ReadEnd? &&
    p.children[j].stderr.end == WriteEnd(p.children[k].stdin.end.pipe)
  }

  lemma {:induction false} SinkNamed(ops: seq<Op>, n: int)
    requires StdoutOf(ops) == Jump(n) || StderrOf(ops) == Jump(n)
    ensures Names(ops, n)
    decreases |ops|
  {
    var last, front := ops[|ops| - 1], ops[..|ops| - 1];
    assert ops == front + [last];
    if !(last == Bar(n) || last == Bang(n)) { SinkNamed(front, n); }
  }

  lemma {:induction false} PortMeetsSlot(s: State, cmds: seq<Command>, j: nat, k: nat, port: Port, sink: Sink)
    requires Inv(s, cmds) && AllForward(cmds) && j < |cmds| && k < |cmds|
    requires Meets(s.proc, port, sink, j)
    requires sink.Jump? ==> Names(cmds[j].ops, sink.distance)
    ensures (port.Piped? && s.proc.children[k].stdin.Piped? && port.end == WriteEnd(s.proc.children[k].stdin.end.pipe))
       <==> (j < k && sink == Jump(k - j))
  {
    assert ChildOk(s.proc, cmds, k);
    if sink.Jump? {
      if sink.distance == k - j { assert Fed(cmds, k); }
    }
  }

  lemma {:induction false} FedFromBefore(cmds: seq<Command>, k: nat)
    requires AllForward(cmds)
    ensures Fed(cmds, k) <==> exists i | 0 <= i < k && i < |cmds| :: Names(cmds[i].ops, k - i)
  {
    forall i | 0 <= i < |cmds| && Names(cmds[i].ops, k - i)
      ensures i < k
    {
    }
  }

  lemma {:induction false} SinkIsNamed(ops: seq<Op>)
    ensures StdoutOf(ops).Jump? ==> Names(ops, StdoutOf(ops).distance)
    ensures StderrOf(ops).Jump? ==> Names(ops, StderrOf(ops).distance)
  {
    if StdoutOf(ops).Jump? { SinkNamed(ops, StdoutOf(ops).distance); }
    if StderrOf(ops).Jump? { SinkNamed(ops, StderrOf(ops).distance); }
  }

  lemma {:induction false} DataflowOf(s: State, cmds: seq<Command>, j: nat, k: nat)
    requires Inv(s, cmds) && AllForward(cmds) && j < |cmds| && k < |cmds|
    ensures Feeds(s.proc, j, k) <==> (j < k && StdoutOf(cmds[j].ops) == Jump(k - j))
    ensures FeedsErrors(s.proc, j, k) <==> (j < k && StderrOf(cmds[j].ops) == Jump(k - j))
    ensures s.proc.children[k].argv == cmds[k].argv
    ensures s.proc.children[k].stdin == Default <==> !Fed(cmds, k)
    ensures s.proc.children[k].stdin == Default || (s.proc.children[k].stdin.Piped? && s.proc.children[k].stdin.end.ReadEnd?)
    ensures s.proc.children[j].stdout == Default <==> StdoutOf(cmds[j].ops) == Screen
    ensures s.proc.children[j].stderr == Default <==> StderrOf(cmds[j].ops) == Screen
    ensures forall f :: s.proc.children[j].stdout == File(f) <==> StdoutOf(cmds[j].ops) == Disk(f)
    ensures forall f :: s.proc.children[j].stderr == File(f) <==> StderrOf(cmds[j].ops) == Disk(f)
  {
    hide Books, Window, Waiting, StdoutOf, StderrOf, AllForward, Names, Made, Fed, HoldsAhead;
    assert ChildOk(s.proc, cmds, k) && ChildOk(s.proc, cmds, j);
    SinkIsNamed(cmds[j].ops);
    PortMeetsSlot(s, cmds, j, k, s.proc.children[j].stdout, StdoutOf(cmds[j].ops));
    PortMeetsSlot(s, cmds, j, k, s.proc.children[j].stderr, StderrOf(cmds[j].ops));
  }

  /** Whatever the table, cursor and descriptors did on the way, command k reads the
      default input exactly when no earlier command named its slot, and otherwise one
      pipe whose writers are exactly the earlier commands whose last operator on that
      stream jumps k - j ahead; and its own streams go to the screen or to a file exactly
      when its last operator on that stream says so. */
  lemma {:induction false} Dataflow(pick: Allocator, cmds: seq<Command>, j: nat, k: nat)
    requires Sound(pick) && AllForward(cmds) && StreamFits(Init(), cmds)
    requires j < |cmds| && k < |cmds|
    ensures var p := Run(pick, Init(), cmds).proc;
      && |p.children| == |cmds|
      && p.children[k].argv == cmds[k].argv
      && (p.children[k].stdin == Default <==> !exists i | 0 <= i < k :: Names(cmds[i].ops, k - i))
      && (p.children[k].stdin == Default || (p.children[k].stdin.Piped? && p.children[k].stdin.end.ReadEnd?))
      && (Feeds(p, j, k) <==> (j < k && StdoutOf(cmds[j].ops) == Jump(k - j)))
      && (FeedsErrors(p, j, k) <==> (j < k && StderrOf(cmds[j].ops) == Jump(k - j)))
      && (p.children[j].stdout == Default <==> StdoutOf(cmds[j].ops) == Screen)
      && (p.children[j].stderr == Default <==> StderrOf(cmds[j].ops) == Screen)
      && (forall f :: p.children[j].stdout == File(f) <==> StdoutOf(cmds[j].ops) == Disk(f))
      && (forall f :: p.children[j].stderr == File(f) <==> StderrOf(cmds[j].ops) == Disk(f))
  {
    hide Books, Window, Waiting, StdoutOf, StderrOf, Made, ChildOk, Feeds, FeedsErrors;
    InitOk();
    RunOk(pick, Init(), [], cmds);
    assert [] + cmds == cmds;
    DataflowOf(Run(pick, Init(), cmds), cmds, j, k);
    FedFromBefore(cmds, k);
  }

  // ---- The window and the ledger ----

  lemma {:induction false} PendingAhead(table: seq<Slot>, n: nat)
    requires n <= |table| && forall k | 0 <= k < n :: table[k] == EMPTY
    ensures Pending(table) == Pending(table[n..])
  {
    if n > 0 {
      assert forall k | 0 <= k < n - 1 :: table[1..][k] == table[k + 1];
      PendingAhead(table[1..], n - 1);
      assert table[1..][n - 1..] == table[n..];
    } else {
      assert table[0..] == table;
    }
  }

  /** Before every command: slots behind the cursor are empty, the others empty or a full
      pair of distinct open descriptors; every end was closed at most once and never while
      not open; and opened minus closed is twice the number of pending slots. */
  lemma {:induction false} WindowAndLedger(pick: Allocator, cmds: seq<Command>, n: nat)
    requires Sound(pick) && AllForward(cmds) && StreamFits(Init(), cmds) && n <= |cmds|
    ensures StreamFits(Init(), cmds[..n])
    ensures var s := Run(pick, Init(), cmds[..n]);
      && Window(s)
      && s.proc.badCloses == 0 && s.proc.std == STANDARD
      && (forall i, j | 0 <= i < j < |s.proc.closed| :: s.proc.closed[i] != s.proc.closed[j])
      && (forall fd | fd in s.proc.fds :: s.proc.fds[fd] !in s.proc.closed)
      && 2 * |s.proc.pipes| - |s.proc.closed| == 2 * Pending(s.table[s.count..])
  {
    InitOk();
    RunOk(pick, Init(), [], cmds[..n]);
    assert [] + cmds[..n] == cmds[..n];
    var s := Run(pick, Init(), cmds[..n]);
    OpenEndsArePairs(s.table);
    PendingAhead(s.table, s.count);
  }

  // ---- The window holds exactly for forward jumps ----

  lemma {:induction false} ApplyKeepsWrites(pick: Allocator, s: State, w: Wiring, ops: seq<Op>, k: nat)
    requires Sound(pick) && 0 in s.proc.std && Fits(s, ops) && k < |s.table| && s.table[k].write != 0
    ensures Apply(pick, s, w, ops).0.table[k].write != 0
    decreases |ops|
  {
    if ops != [] {
      var s1 := Reserve(pick, s, ops[0]);
      assert forall i | 0 <= i < |ops[1..]| :: ops[1..][i] == ops[i + 1];
      ApplyKeepsWrites(pick, s1, Wire(s1, w, ops[0]), ops[1..], k);
    }
  }

  lemma {:induction false} JumpTargetStaysOpen(pick: Allocator, s: State, w: Wiring, ops: seq<Op>, i: nat)
    requires Sound(pick) && 0 in s.proc.std && Fits(s, ops) && i < |ops| && HasJump(ops[i])
    ensures 0 <= s.count + ops[i].jump < |s.table|
    ensures Apply(pick, s, w, ops).0.table[s.count + ops[i].jump].write != 0
    decreases |ops|
  {
    var s1 := Reserve(pick, s, ops[0]);
    assert OpFits(s, ops[i]);
    assert forall i | 0 <= i < |ops[1..]| :: ops[1..][i] == ops[i + 1];
    if i == 0 {
      ApplyKeepsWrites(pick, s1, Wire(s1, w, ops[0]), ops[1..], s.count + ops[0].jump);
    } else {
      JumpTargetStaysOpen(pick, s1, Wire(s1, w, ops[0]), ops[1..], i - 1);
    }
  }

  /** A jump of 0 or less leaves a write end in a slot that the cursor has passed, as long
      as standard input was not closed, so that no pipe end is numbered 0. */
  lemma {:induction false} BackwardBreaksWindow(pick: Allocator, s: State, c: Command)
    requires Sound(pick) && Fits(s, c.ops) && !Forward(c) && 0 in Begin(s).proc.std
    ensures !Window(Step(pick, s, c))
  {
    var i :| 0 <= i < |c.ops| && HasJump(c.ops[i]) && c.ops[i].jump < 1;
    var b := Begin(s);
    assert OpFits(s, c.ops[i]);
    assert forall i | 0 <= i < |c.ops| :: OpFits(s, c.ops[i]) ==> OpFits(b, c.ops[i]);
    JumpTargetStaysOpen(pick, b, FirstWiring(s, c.ops), c.ops, i);
    var k := s.count + c.ops[i].jump;
    assert Step(pick, s, c).table[k].write != 0;
  }

  lemma {:induction false} RunSnoc(pick: Allocator, s: State, cmds: seq<Command>, c: Command)
    requires StreamFits(s, cmds + [c])
    ensures StreamFits(s, cmds) && Fits(Run(pick, s, cmds), c.ops)
    ensures Run(pick, s, cmds + [c]) == Step(pick, Run(pick, s, cmds), c)
    decreases |cmds|
  {
    assert (cmds + [c])[..|cmds|] == cmds;
    StreamFitsTail(pick, s, cmds + [c]);
    if cmds == [] {
      assert (cmds + [c])[1..] == [];
    } else {
      assert (cmds + [c])[1..] == cmds[1..] + [c];
      RunSnoc(pick, Step(pick, s, cmds[0]), cmds[1..], c);
    }
  }

  lemma {:induction false} FirstBackward(cmds: seq<Command>) returns (i: nat)
    requires !AllForward(cmds)
    ensures i < |cmds| && !Forward(cmds[i]) && AllForward(cmds[..i])
  {
    i := 0;
    while Forward(cmds[i])
      invariant i < |cmds| && forall j | 0 <= j < i :: Forward(cmds[j])
      decreases |cmds| - i
    {
      if i + 1 == |cmds| { assert forall j | 0 <= j < |cmds| :: Forward(cmds[j]); }
      i := i + 1;
    }
  }

  /** Over whole runs the window holds before every command exactly when every jump is at least 1. */
  lemma {:induction false} WindowIffForward(pick: Allocator, cmds: seq<Command>)
    requires Sound(pick) && StreamFits(Init(), cmds)
    ensures AllForward(cmds) <==>
      forall n | 0 <= n <= |cmds| :: StreamFits(Init(), cmds[..n]) && Window(Run(pick, Init(), cmds[..n]))
  {
    forall n | 0 <= n <= |cmds|
      ensures StreamFits(Init(), cmds[..n])
    {
    }
    if AllForward(cmds) {
      forall n | 0 <= n <= |cmds|
        ensures Window(Run(pick, Init(), cmds[..n]))
      {
        WindowAndLedger(pick, cmds, n);
      }
    } else {
      var i := FirstBackward(cmds);
      assert cmds[..i + 1] == cmds[..i] + [cmds[i]];
      RunSnoc(pick, Init(), cmds[..i], cmds[i]);
      InitOk();
      RunOk(pick, Init(), [], cmds[..i]);
      assert [] + cmds[..i] == cmds[..i];
      BeginOk(Run(pick, Init(), cmds[..i]), cmds[i], cmds[..i]);
      BackwardBreaksWindow(pick, Run(pick, Init(), cmds[..i]), cmds[i]);
      assert !Window(Run(pick, Init(), cmds[..i + 1]));
    }
  }

  /** `|0` as the very first command. */
  lemma {:induction false} JumpZeroExample(pick: Allocator)
    requires Sound(pick)
    ensures var c := Command(["ls"], [Bar(0)]);
      Fits(Init(), c.ops) && Step(pick, Init(), c).table[0].write != 0 && Step(pick, Init(), c).count == 1
  {
    var c := Command(["ls"], [Bar(0)]);
    assert Fits(Init(), c.ops);
    assert Begin(Init()) == Init();
    JumpTargetStaysOpen(pick, Init(), FirstWiring(Init(), c.ops), c.ops, 0);
  }

  // ---- Lines ----

  /** Running two streams one after the other is running their concatenation: where a
      line ends makes no difference. */
  lemma {:induction false} RunAppend(pick: Allocator, s: State, a: seq<Command>, b: seq<Command>)
    requires StreamFits(s, a + b)
    ensures StreamFits(s, a) && StreamFits(Run(pick, s, a), b)
    ensures Run(pick, s, a + b) == Run(pick, Run(pick, s, a), b)
    decreases |a|
  {
    assert (a + b)[..|a|] == a;
    if a == [] {
      assert a + b == b;
    } else {
      StreamFitsTail(pick, s, a + b);
      assert (a + b)[1..] == a[1..] + b;
      RunAppend(pick, Step(pick, s, a[0]), a[1..], b);
    }
  }
}
