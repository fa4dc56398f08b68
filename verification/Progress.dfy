/** Every `waitpid` of the numbered-pipe shell returns.

    A child that reads to end-of-file can exit once nobody but exited children holds
    the write end of its standard input. Pipes have unbounded capacity, so writing
    never blocks, and a child with the default input can always exit. */
module Progress {
  import opened Kernel
  import opened NumberedPipes
  import opened PipeInvariant

  /** Child k sees end-of-file on its standard input once the children in `exited` are gone. */
  ghost predicate CanExit(p: Proc, exited: set<nat>, k: nat)
    requires k < |p.children|
  {
    p.children[k].stdin.Piped? ==>
      var w := WriteEnd(p.children[k].stdin.end.pipe);
      w !in EndsOf(p.fds) && forall j | 0 <= j < |p.children| :: w in p.children[j].held ==> j in exited
  }

  /** Everybody who can exit does. */
  ghost function Round(p: Proc, exited: set<nat>): set<nat> {
    exited + set k | 0 <= k < |p.children| && CanExit(p, exited, k)
  }

  ghost function Rounds(p: Proc, exited: set<nat>, n: nat): set<nat> {
    if n == 0 then exited else Round(p, Rounds(p, exited, n - 1))
  }

  /** All holders of the write end behind child k's input are children before k. */
  lemma {:induction false} WriteHoldersAreEarlier(s: State, cmds: seq<Command>, k: nat, w: End)
    requires Inv(s, cmds) && k < |cmds|
    requires s.proc.children[k].stdin.Piped? && w == WriteEnd(s.proc.children[k].stdin.end.pipe)
    ensures w !in EndsOf(s.proc.fds)
    ensures forall j | 0 <= j < |s.proc.children| && w in s.proc.children[j].held :: j < k
  {
    assert ChildOk(s.proc, cmds, k);
    assert s.table[k] == EMPTY;
    assert forall fd | fd in s.proc.fds :: EndIn(s.table[s.proc.pipes[s.proc.fds[fd].pipe]], s.proc.fds[fd]) == fd;
    forall j | 0 <= j < |s.proc.children| && w in s.proc.children[j].held
      ensures j < k
    {
      assert ChildOk(s.proc, cmds, j);
    }
  }

  lemma {:induction false} RoundsGrow(p: Proc, exited: set<nat>, m: nat, n: nat)
    requires m <= n
    ensures Rounds(p, exited, m) <= Rounds(p, exited, n)
  {
    if m < n { RoundsGrow(p, exited, m, n - 1); }
  }

  /** From any set of exited children, child k has exited after at most k + 1 rounds. */
  lemma {:induction false} ExitsWithinRounds(s: State, cmds: seq<Command>, exited: set<nat>, k: nat)
    requires Inv(s, cmds) && k < |cmds|
    ensures k in Rounds(s.proc, exited, k + 1)
    decreases k
  {
    var now := Rounds(s.proc, exited, k);
    if s.proc.children[k].stdin.Piped? {
      var w := WriteEnd(s.proc.children[k].stdin.end.pipe);
      WriteHoldersAreEarlier(s, cmds, k, w);
      forall j | 0 <= j < |s.proc.children| && w in s.proc.children[j].held
        ensures j in now
      {
        ExitsWithinRounds(s, cmds, exited, j);
        RoundsGrow(s.proc, exited, j + 1, k);
      }
    }
    assert CanExit(s.proc, now, k);
  }

  /** At the moment of the n-th wait of any run, whichever children have already exited,
      the awaited child exits after finitely many rounds: the wait returns. */
  lemma {:induction false} WaitReturns(pick: Allocator, cmds: seq<Command>, n: nat, exited: set<nat>)
    requires Sound(pick) && AllForward(cmds) && StreamFits(Init(), cmds) && 0 < n <= |cmds|
    ensures StreamFits(Init(), cmds[..n])
    ensures var p := Run(pick, Init(), cmds[..n]).proc;
      |p.children| == n && n - 1 in Rounds(p, exited, n)
  {
    hide Books, Window, Waiting, Made, ChildOk, Rounds, Forward, Init;
    InitOk();
    RunOk(pick, Init(), [], cmds[..n]);
    assert [] + cmds[..n] == cmds[..n];
    ExitsWithinRounds(Run(pick, Init(), cmds[..n]), cmds[..n], exited, n - 1);
  }

  /** As long as some child is running, one of the running children can exit. */
  lemma {:induction false} NoDeadlock(s: State, cmds: seq<Command>, exited: set<nat>, k: nat)
    requires Inv(s, cmds) && k < |cmds| && k !in exited
    ensures exists j: nat | j <= k :: j !in exited && CanExit(s.proc, exited, j)
    decreases k
  {
    if !CanExit(s.proc, exited, k) {
      var w := WriteEnd(s.proc.children[k].stdin.end.pipe);
      WriteHoldersAreEarlier(s, cmds, k, w);
      var j :| 0 <= j < |s.proc.children| && w in s.proc.children[j].held && j !in exited;
      NoDeadlock(s, cmds, exited, j);
    }
  }

  /** Why the write end is closed before the fork: a child that inherits the write end
      of its own input never sees end-of-file. */
  lemma {:induction false} SelfHeldNeverExits(p: Proc, exited: set<nat>, k: nat, n: nat)
    requires k < |p.children| && k !in exited
    requires p.children[k].stdin.Piped? && WriteEnd(p.children[k].stdin.end.pipe) in p.children[k].held
    ensures k !in Rounds(p, exited, n)
  {
    if n > 0 { SelfHeldNeverExits(p, exited, k, n - 1); }
  }
}
