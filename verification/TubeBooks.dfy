/** The descriptors of the user pipes over whole runs of the single-process server, and
    what they mean for a child that reads one. */
module TubeBooks {
  import opened Text
  import opened Kernel
  import opened NumberedPipes
  import opened PipeInvariant
  import opened Tubes
  import opened TubeRuns
  import opened UserList
  import opened SingleHandler
  import Progress

  /** Both ends of the tube are open, and they are the ends of one pipe made for a tube. */
  ghost predicate TubeOpen(p: Proc, e: Entry) {
    && e.readFd in p.fds && p.fds[e.readFd].ReadEnd?
    && e.writeFd in p.fds && p.fds[e.writeFd] == WriteEnd(p.fds[e.readFd].pipe)
    && p.fds[e.readFd].pipe < |p.pipes| && p.pipes[p.fds[e.readFd].pipe] == NO_SLOT
  }

  ghost predicate TubesOpen(p: Proc, es: seq<Entry>) {
    (forall i | 0 <= i < |es| :: TubeOpen(p, es[i])) &&
    forall i, j | 0 <= i < j < |es| :: es[i].readFd != es[j].readFd && es[i].writeFd != es[j].writeFd
  }

  /** Every entry of the pipe table and every tube in the list is open and belongs to its
      slot or tube alone, no two tubes have the same pair, and the standard streams are open. */
  ghost predicate Books(v: Server) {
    && Recorded(v.s) && TubesOpen(v.s.proc, v.tubes) && Unique(v.tubes)
    && v.s.proc.std == STANDARD && forall fd | fd in v.s.proc.fds :: fd > 2
  }

  /** A slot that holds a read end holds a write end. */
  predicate Ready(s: State) {
    s.count < |s.table| && s.table[s.count].read != 0 ==> s.table[s.count].write != 0
  }

  // ---- Closing ----

  /** The entries of the table are different descriptors. */
  lemma {:induction false} SlotsApart(s: State, k: nat, l: nat)
    requires Recorded(s) && k < |s.table| && l < |s.table|
    ensures k != l && s.table[k].read != 0 ==> s.table[l].read != s.table[k].read
    ensures k != l && s.table[k].write != 0 ==> s.table[l].write != s.table[k].write
    ensures s.table[k].read != 0 ==> s.table[l].write != s.table[k].read
    ensures s.table[k].write != 0 ==> s.table[l].read != s.table[k].write
  {
    assert s.table[k].read != 0 ==> Holds(s, s.table[k].read, k, true);
    assert s.table[k].write != 0 ==> Holds(s, s.table[k].write, k, false);
    assert s.table[l].read != 0 ==> Holds(s, s.table[l].read, l, true);
    assert s.table[l].write != 0 ==> Holds(s, s.table[l].write, l, false);
  }

  lemma {:induction false} BeginBooks(v: Server)
    requires Books(v) && v.s.count < |v.s.table| && Ready(v.s)
    ensures Books(v.(s := Begin(v.s)))
  {
    if v.s.table[v.s.count].read != 0 {
      forall k: nat | k < |v.s.table| { SlotsApart(v.s, v.s.count, k); }
    }
  }

  lemma {:induction false} FinishBooks(v: Server, w: Wiring, argv: seq<string>)
    requires Books(v) && v.s.count < |v.s.table|
    ensures Books(v.(s := Finish(v.s, w, argv)))
  {
    var s1 := Spawn(v.s, w, argv);
    var s2 := if s1.table[s1.count].read != 0 then ShutRead(s1) else s1;
    if s1.table[s1.count].read != 0 {
      forall k: nat | k < |s1.table| { SlotsApart(s1, s1.count, k); }
    }
  }

  // ---- Opening ----

  lemma {:induction false} KeepsTubes(p: Proc, q: Proc, es: seq<Entry>)
    requires TubesOpen(p, es) && p.pipes <= q.pipes
    requires forall fd | fd in p.fds :: fd in q.fds && q.fds[fd] == p.fds[fd]
    ensures TubesOpen(q, es)
    ensures forall e: Entry | TubeOpen(p, e) :: TubeOpen(q, e)
  {
    assert forall i | 0 <= i < |es| :: TubeOpen(p, es[i]);
  }

  lemma {:induction false} OpenKeeps(pick: Allocator, p: Proc, slot: int)
    requires Sound(pick) && p.std == STANDARD
    ensures var (q, r, w) := OpenPipe(pick, p, slot);
      && (forall fd | fd in p.fds :: fd in q.fds && q.fds[fd] == p.fds[fd]) && p.pipes <= q.pipes
      && r !in p.fds && w !in p.fds && r != w && r > 2 && w > 2
      && q.pipes == p.pipes + [slot] && q.std == p.std
      && q.fds == p.fds[r := ReadEnd(|p.pipes|)][w := WriteEnd(|p.pipes|)]
  {
    var (r, w) := pick(|p.pipes|, InUse(p));
    assert r !in InUse(p) && w !in InUse(p) && r != w;
  }

  lemma {:induction false} ReserveBooks(pick: Allocator, v: Server, op: Op)
    requires Sound(pick) && Books(v) && OpFits(v.s, op)
    ensures Books(v.(s := Reserve(pick, v.s, op)))
    ensures forall e: Entry | TubeOpen(v.s.proc, e) :: TubeOpen(Reserve(pick, v.s, op).proc, e)
  {
    if HasJump(op) && v.s.table[v.s.count + op.jump].write == 0 {
      var k: nat := v.s.count + op.jump;
      OpenKeeps(pick, v.s.proc, k);
      OpenSlotRecorded(pick, v.s, k);
      KeepsTubes(v.s.proc, OpenSlot(pick, v.s, k).proc, v.tubes);
    }
  }

  lemma {:induction false} WithTubeBooks(pick: Allocator, v: Server, me: int, peer: int)
    requires Sound(pick) && Books(v) && !HasPair(v.tubes, me, peer)
    ensures Books(WithTube(pick, v, me, peer))
    ensures forall e: Entry | TubeOpen(v.s.proc, e) :: TubeOpen(WithTube(pick, v, me, peer).s.proc, e)
  {
    hide Recorded, Unique, TubesOpen;
    var u := WithTube(pick, v, me, peer);
    var e := u.tubes[0];
    OpenKeeps(pick, v.s.proc, NO_SLOT);
    KeepsTubes(v.s.proc, u.s.proc, v.tubes);
    NextRefines(v.tubes, Send(me, peer, e.readFd, e.writeFd));
    RecordedMore(v.s, u.s);
    OneMoreTube(v.s.proc, u.s.proc, v.tubes, e);
  }

  lemma {:induction false} RecordedMore(s: State, t: State)
    requires Recorded(s) && t.table == s.table && s.proc.pipes <= t.proc.pipes
    requires forall fd | fd in s.proc.fds :: fd in t.proc.fds && t.proc.fds[fd] == s.proc.fds[fd]
    ensures Recorded(t)
  {
    assert forall fd, k, r | Holds(s, fd, k, r) :: Holds(t, fd, k, r);
  }

  lemma {:induction false} OneMoreTube(p: Proc, q: Proc, es: seq<Entry>, e: Entry)
    requires TubesOpen(p, es) && TubesOpen(q, es) && TubeOpen(q, e)
    requires e.readFd !in p.fds && e.writeFd !in p.fds
    ensures TubesOpen(q, [e] + es)
  {
    var all := [e] + es;
    assert forall i | 1 <= i < |all| :: all[i] == es[i - 1];
    assert forall i | 0 <= i < |es| :: TubeOpen(p, es[i]) && TubeOpen(q, es[i]);
  }

  // ---- Deleting ----

  lemma {:induction false} CloseAllFds(p: Proc, fds: seq<int>)
    ensures CloseAll(p, fds).fds == p.fds - (set fd | fd in fds)
    ensures CloseAll(p, fds).pipes == p.pipes && CloseAll(p, fds).children == p.children
    ensures CloseAll(p, fds).std <= p.std && ((forall fd | fd in fds :: fd !in p.std) ==> CloseAll(p, fds).std == p.std)
    decreases |fds|
  {
    if fds != [] {
      CloseAllFds(CloseFd(p, fds[0]), fds[1..]);
      assert (set fd | fd in fds) == {fds[0]} + set fd | fd in fds[1..];
      assert CloseFd(p, fds[0]).fds == p.fds - {fds[0]};
    } else {
      assert p.fds - (set fd | fd in fds) == p.fds;
    }
  }

  lemma {:induction false} HitFdsFrom(es: seq<Entry>, key: Key, fd: int)
    requires fd in HitFds(es, key)
    ensures exists i | 0 <= i < |es| :: Hit(key, es[i]) && fd in {es[i].readFd, es[i].writeFd}
  {
    if !(Hit(key, es[0]) && fd in {es[0].readFd, es[0].writeFd}) {
      HitFdsFrom(es[1..], key, fd);
      var i :| 0 <= i < |es[1..]| && Hit(key, es[1..][i]) && fd in {es[1..][i].readFd, es[1..][i].writeFd};
      assert es[i + 1] == es[1..][i];
    }
  }

  lemma {:induction false} WithoutOrder(es: seq<Entry>, key: Key)
    requires forall i, j | 0 <= i < j < |es| :: es[i].readFd != es[j].readFd && es[i].writeFd != es[j].writeFd
    ensures var r := Without(es, key);
      forall i, j | 0 <= i < j < |r| :: r[i].readFd != r[j].readFd && r[i].writeFd != r[j].writeFd
  {
    if es != [] {
      var rest := Without(es[1..], key);
      assert forall i | 0 <= i < |es[1..]| :: es[1..][i] == es[i + 1];
      WithoutOrder(es[1..], key);
      forall j | 0 <= j < |rest|
        ensures rest[j].readFd != es[0].readFd && rest[j].writeFd != es[0].writeFd
      {
        WithoutFrom(es[1..], key, rest[j]);
        var i :| 0 <= i < |es[1..]| && es[1..][i] == rest[j];
        assert es[i + 1] == rest[j];
      }
    }
  }

  /** A tube that stays does not lose a descriptor to the ones that go. */
  lemma {:induction false} StaysOpen(p: Proc, es: seq<Entry>, key: Key, e: Entry)
    requires TubesOpen(p, es) && e in es && !Hit(key, e)
    ensures e.readFd !in HitFds(es, key) && e.writeFd !in HitFds(es, key)
  {
    var j :| 0 <= j < |es| && es[j] == e;
    forall fd | fd in HitFds(es, key)
      ensures fd != e.readFd && fd != e.writeFd
    {
      HitFdsFrom(es, key, fd);
      var i :| 0 <= i < |es| && Hit(key, es[i]) && fd in {es[i].readFd, es[i].writeFd};
      assert TubeOpen(p, es[i]) && TubeOpen(p, es[j]) && i != j;
    }
  }

  lemma {:induction false} HitFdsApart(s: State, es: seq<Entry>, key: Key, fd: int, k: nat, reading: bool)
    requires TubesOpen(s.proc, es) && Holds(s, fd, k, reading)
    ensures fd !in HitFds(es, key)
  {
    forall f | f in HitFds(es, key)
      ensures f != fd
    {
      HitFdsFrom(es, key, f);
      var i :| 0 <= i < |es| && Hit(key, es[i]) && f in {es[i].readFd, es[i].writeFd};
      assert TubeOpen(s.proc, es[i]);
    }
  }

  lemma {:induction false} HitFdsHave(es: seq<Entry>, key: Key, i: nat)
    requires i < |es| && Hit(key, es[i])
    ensures es[i].readFd in HitFds(es, key) && es[i].writeFd in HitFds(es, key)
  {
    if i > 0 { HitFdsHave(es[1..], key, i - 1); }
  }

  /** Deleting tubes of any kind keeps the books and closes both ends of the tubes that go. */
  function Deleted(v: Server, key: Key): Server {
    v.(s := v.s.(proc := CloseAll(v.s.proc, HitFds(v.tubes, key))), tubes := Without(v.tubes, key))
  }

  lemma {:induction false} DeletedBooks(v: Server, key: Key)
    requires Books(v)
    ensures Books(Deleted(v, key))
    ensures forall i | 0 <= i < |v.tubes| && Hit(key, v.tubes[i]) ::
      v.tubes[i].readFd !in Deleted(v, key).s.proc.fds && v.tubes[i].writeFd !in Deleted(v, key).s.proc.fds
  {
    forall i: nat | i < |v.tubes| && Hit(key, v.tubes[i])
      ensures v.tubes[i].readFd in HitFds(v.tubes, key) && v.tubes[i].writeFd in HitFds(v.tubes, key)
    {
      HitFdsHave(v.tubes, key, i);
    }
    var u, gone := Deleted(v, key), HitFds(v.tubes, key);
    CloseAllFds(v.s.proc, gone);
    forall fd | fd in gone
      ensures fd !in v.s.proc.std
    {
      HitFdsFrom(v.tubes, key, fd);
      var i :| 0 <= i < |v.tubes| && Hit(key, v.tubes[i]) && fd in {v.tubes[i].readFd, v.tubes[i].writeFd};
      assert TubeOpen(v.s.proc, v.tubes[i]);
    }
    WithoutUnique(v.tubes, key);
    WithoutOrder(v.tubes, key);
    forall k: nat | k < |u.s.table|
      ensures (u.s.table[k].read != 0 ==> Holds(u.s, u.s.table[k].read, k, true)) &&
              (u.s.table[k].write != 0 ==> Holds(u.s, u.s.table[k].write, k, false))
    {
      if u.s.table[k].read != 0 { HitFdsApart(v.s, v.tubes, key, u.s.table[k].read, k, true); }
      if u.s.table[k].write != 0 { HitFdsApart(v.s, v.tubes, key, u.s.table[k].write, k, false); }
    }
    forall i | 0 <= i < |u.tubes|
      ensures TubeOpen(u.s.proc, u.tubes[i])
    {
      var e := u.tubes[i];
      WithoutFrom(v.tubes, key, e);
      StaysOpen(v.s.proc, v.tubes, key, e);
      assert TubeOpen(v.s.proc, e);
    }
  }

  // ---- Commands and lines ----

  /** The input is the read end of some tube whose two ends are open. */
  ghost predicate FromTube(p: Proc, w: Wiring) {
    exists e: Entry :: TubeOpen(p, e) && w.stdin == e.readFd
  }

  lemma {:induction false} FirstIn(es: seq<Entry>, sender: int, receiver: int)
    requires HasPair(es, sender, receiver)
    ensures exists i | 0 <= i < |es| :: es[i] == FirstOf(es, sender, receiver)
  {
    if Hit(Pair(sender, receiver), es[0]) {
      assert es[0] == FirstOf(es, sender, receiver);
    } else {
      assert HasPair(es[1..], sender, receiver) by {
        var i :| 0 <= i < |es| && Hit(Pair(sender, receiver), es[i]);
        assert es[1..][i - 1] == es[i];
      }
      FirstIn(es[1..], sender, receiver);
      var i :| 0 <= i < |es[1..]| && es[1..][i] == FirstOf(es[1..], sender, receiver);
      assert es[i + 1] == FirstOf(es, sender, receiver);
    }
  }

  /** One operator keeps the books; after `<n` the input comes from a tube, and no other
      operator changes the input. */
  lemma {:induction false} OpBooks(pick: Allocator, v: Server, me: int, w: Wiring, receive: Option<int>, op: TubeOp)
    requires Sound(pick) && Books(v) && TubeOpFits(v.s, op)
    ensures var r := ApplyTubeOp(pick, v, me, w, receive, op);
      && Books(r.v) && r.v.s.proc.children == v.s.proc.children
      && (r.Wired? && (op.ReceiveFrom? || FromTube(v.s.proc, w)) ==> FromTube(r.v.s.proc, r.w))
  {
    hide Recorded, TubesOpen, TubeOpen, Unique;
    match op
    case Num(op) => ReserveBooks(pick, v, op);
    case SendTo(n) => if Has(v.users, n) && !HasPair(v.tubes, me, n) { WithTubeBooks(pick, v, me, n); }
    case ReceiveFrom(n) =>
      if HasPair(v.tubes, n, me) {
        FirstIn(v.tubes, n, me);
        InListOpen(v.s.proc, v.tubes, FirstOf(v.tubes, n, me));
      }
  }

  lemma {:induction false} InListOpen(p: Proc, es: seq<Entry>, e: Entry)
    requires TubesOpen(p, es) && exists i | 0 <= i < |es| :: es[i] == e
    ensures TubeOpen(p, e)
  {
  }

  lemma {:induction false} ApplyBooks(pick: Allocator, v: Server, me: int, w: Wiring, receive: Option<int>, ops: seq<TubeOp>)
    requires Sound(pick) && Books(v) && TubeFits(v.s, ops)
    ensures var r := ApplyTube(pick, v, me, w, receive, ops);
      && Books(r.v) && r.v.s.proc.children == v.s.proc.children
      && (r.Wired? && (FromTube(v.s.proc, w) || exists i | 0 <= i < |ops| :: ops[i].ReceiveFrom?)
          ==> FromTube(r.v.s.proc, r.w))
    decreases |ops|
  {
    hide Books, FromTube, ApplyTubeOp, TubeFits;
    if ops != [] {
      ApplyTubeStep(pick, v, me, w, receive, ops);
      OpBooks(pick, v, me, w, receive, ops[0]);
      var r := ApplyTubeOp(pick, v, me, w, receive, ops[0]);
      if r.Wired? {
        ApplyBooks(pick, r.v, me, r.w, r.receive, ops[1..]);
      }
    }
  }

  lemma {:induction false} StepBooks(pick: Allocator, v: Server, me: int, receive: Option<int>, c: TubeCommand)
    requires Sound(pick) && Books(v) && TubeFits(v.s, c.ops) && Ready(v.s)
    ensures Books(StepTube(pick, v, me, receive, c).v)
  {
    hide Books, ApplyTube, Begin, Finish, TubeFits;
    FitsHere(v.s, c.ops);
    BeginFits(v.s, c.ops);
    BeginBooks(v);
    var w := FirstTubeWiring(v.s, c.ops);
    ApplyBooks(pick, v.(s := Begin(v.s)), me, w, receive, c.ops);
    var r := ApplyTube(pick, v.(s := Begin(v.s)), me, w, receive, c.ops);
    if r.Wired? {
      FinishBooks(r.v, r.w, c.argv);
      if r.receive.Some? { DeletedBooks(r.v.(s := Finish(r.v.s, r.w, c.argv)), Pair(r.receive.value, me)); }
    }
  }

  lemma {:induction false} FitsHere(s: State, ops: seq<TubeOp>)
    requires TubeFits(s, ops)
    ensures s.count < |s.table| && Begin(s).count == s.count && |Begin(s).table| == |s.table|
  {
  }
}
