/** Who feeds whom in the single-process server, over whole runs of all users: the
    descriptors of every child against the trace of the commands. */
module TubeFlow {
  import opened Text
  import opened Kernel
  import opened NumberedPipes
  import opened Tubes
  import opened TubeRuns
  import opened UserList
  import opened SingleHandler
  import opened TubeBooks
  import opened TubeServer
  import opened TubeProgress
  import opened TubeTrace

  // ---- Children, slots and tubes against the trace ----

  ghost predicate WritesTo(p: Proc, j: nat, q: nat)
    requires j < |p.children|
  {
    p.children[j].stdout == Piped(WriteEnd(q))
  }

  ghost predicate ErrsTo(p: Proc, j: nat, q: nat)
    requires j < |p.children|
  {
    p.children[j].stderr == Piped(WriteEnd(q))
  }

  ghost predicate HoldsWrite(p: Proc, j: nat, q: nat)
    requires j < |p.children|
  {
    WriteEnd(q) in p.children[j].held
  }

  /** Child j knows and uses pipe q as its command says of the slot k. */
  ghost predicate Tied(p: Proc, f: Fork, j: nat, q: nat, k: int)
    requires j < |p.children|
  {
    && (HoldsWrite(p, j, q) <==> k in f.named)
    && (WritesTo(p, j, q) <==> f.out == Ahead(k - j))
    && (ErrsTo(p, j, q) <==> f.err == Ahead(k - j))
  }

  ghost predicate Untied(p: Proc, j: nat, q: nat)
    requires j < |p.children|
  {
    !HoldsWrite(p, j, q) && !WritesTo(p, j, q) && !ErrsTo(p, j, q)
  }

  ghost predicate SameTies(p: Proc, r: Proc, j: nat, q: nat)
    requires j < |p.children| && j < |r.children|
  {
    HoldsWrite(p, j, q) == HoldsWrite(r, j, q) && WritesTo(p, j, q) == WritesTo(r, j, q) && ErrsTo(p, j, q) == ErrsTo(r, j, q)
  }

  /** Pipe q is the one that waits for the command at index k. */
  ghost predicate PipeOf(p: Proc, forks: seq<Fork>, q: nat, k: int)
    requires |forks| == |p.children|
  {
    forall j | 0 <= j < |forks| :: Tied(p, forks[j], j, q, k)
  }

  ghost predicate SlotFlow(p: Proc, forks: seq<Fork>, slot: Slot, k: int)
    requires |forks| == |p.children|
  {
    slot.write in p.fds && PipeOf(p, forks, p.fds[slot.write].pipe, k)
  }

  ghost predicate Slots(s: State, forks: seq<Fork>, named: set<int>, lo: nat) {
    && |forks| == |s.proc.children|
    && forall k | lo <= k < |s.table| ::
         (s.table[k] != EMPTY <==> k in named) && (s.table[k] != EMPTY ==> SlotFlow(s.proc, forks, s.table[k], k))
  }

  /** Children knew only slots that had been named, and read tubes of earlier writers. */
  ghost predicate Within(forks: seq<Fork>, named: set<int>) {
    forall j | 0 <= j < |forks| ::
      forks[j].named <= named && AimsWithin(forks[j].out, j, named) && AimsWithin(forks[j].err, j, named) &&
      (forks[j].writer.Some? ==> forks[j].writer.value <= j)
  }

  predicate AimsWithin(o: Outlet, j: nat, named: set<int>) {
    o.Ahead? ==> j + o.distance in named
  }

  ghost predicate TubeFed(p: Proc, writers: Writers, e: Entry) {
    e.readFd in p.fds &&
    forall j | 0 <= j < |p.children| ::
      (WritesTo(p, j, p.fds[e.readFd].pipe) <==> WriterOf(writers, e.sender, e.receiver) == Some(j)) &&
      !ErrsTo(p, j, p.fds[e.readFd].pipe)
  }

  ghost predicate TubesFed(v: Server, writers: Writers) {
    forall i | 0 <= i < |v.tubes| :: TubeFed(v.s.proc, writers, v.tubes[i])
  }

  ghost predicate WritersBefore(writers: Writers, n: nat) {
    forall key | key in writers && writers[key].Some? :: writers[key].value < n
  }

  ghost predicate ReadsPipe(p: Proc, k: nat)
    requires k < |p.children|
  {
    p.children[k].stdin.Piped? && p.children[k].stdin.end.ReadEnd? && p.children[k].stdin.end.pipe < |p.pipes|
  }

  /** The input of child k and who writes to it. */
  ghost predicate ChildFlow(p: Proc, forks: seq<Fork>, k: nat)
    requires |forks| == |p.children| && k < |forks|
  {
    var f := forks[k];
    if f.source.Some? then
      ReadsPipe(p, k) && HoldsWrite(p, k, p.children[k].stdin.end.pipe) &&
      forall j | 0 <= j < |forks| ::
        (WritesTo(p, j, p.children[k].stdin.end.pipe) <==> f.writer == Some(j)) && !ErrsTo(p, j, p.children[k].stdin.end.pipe)
    else if f.fed then
      ReadsPipe(p, k) &&
      forall j | 0 <= j < |forks| ::
        if j < k then Tied(p, forks[j], j, p.children[k].stdin.end.pipe, k) else Untied(p, j, p.children[k].stdin.end.pipe)
    else
      p.children[k].stdin == Default &&
      forall j | 0 <= j < k :: k !in forks[j].named && forks[j].out != Ahead(k - j) && forks[j].err != Ahead(k - j)
  }

  /** Nobody can write to the input of child k any more but children that do already. */
  ghost predicate Spent(p: Proc, k: nat)
    requires k < |p.children|
  {
    p.children[k].stdin.Piped? ==>
      p.children[k].stdin.end.pipe < |p.pipes| && WriteEnd(p.children[k].stdin.end.pipe) !in EndsOf(p.fds)
  }

  ghost predicate Family(p: Proc, forks: seq<Fork>) {
    |forks| == |p.children| && forall k | 0 <= k < |forks| :: ChildFlow(p, forks, k) && Spent(p, k)
  }

  /** What children hold and write to are pipes that were made. */
  ghost predicate EndsMade(p: Proc) {
    forall j | 0 <= j < |p.children| ::
      (p.children[j].stdout.Piped? ==> p.children[j].stdout.end.pipe < |p.pipes|) &&
      (p.children[j].stderr.Piped? ==> p.children[j].stderr.end.pipe < |p.pipes|) &&
      forall e | e in p.children[j].held :: e.pipe < |p.pipes|
  }

  ghost predicate Flow(v: Server, tr: Trace, stranded: bool) {
    && |tr.forks| == v.s.count && Family(v.s.proc, tr.forks) && EndsMade(v.s.proc) && Within(tr.forks, tr.named)
    && Slots(v.s, tr.forks, tr.named, if stranded then v.s.count + 1 else v.s.count)
    && TubesFed(v, tr.writers) && WritersBefore(tr.writers, |tr.forks|)
  }

  // ---- Inside a command ----

  /** The input that the slot offers. */
  ghost predicate Offer(p: Proc, forks: seq<Fork>, fd: int, k: nat, fed: bool)
    requires |forks| == |p.children|
  {
    if fed then
      fd != 0 && fd in p.fds && p.fds[fd].ReadEnd? && p.fds[fd].pipe < |p.pipes| &&
      PipeOf(p, forks, p.fds[fd].pipe, k) && WriteEnd(p.fds[fd].pipe) !in EndsOf(p.fds)
    else fd == 0
  }

  ghost predicate Unwritten(p: Proc, q: nat) {
    forall j | 0 <= j < |p.children| :: Untied(p, j, q)
  }

  /** The cursor's own slot: half a pipe, or one that the command itself made. */
  ghost predicate OwnSlot(s: State, renewed: bool) {
    s.count < |s.table| &&
    if renewed then s.table[s.count] != EMPTY && Whole(s.table[s.count]) && s.table[s.count].write in s.proc.fds &&
                    Unwritten(s.proc, s.proc.fds[s.table[s.count].write].pipe)
    else s.table[s.count].write == 0
  }

  /** After the operators `done` of a command that was offered the input `fd`. */
  ghost predicate Midst(v: Server, tr: Trace, me: int, done: seq<TubeOp>, fd: int) {
    && TubeBooks.Books(v) && Tidy(v.s) && AheadWhole(v.s)
    && |tr.forks| == v.s.count && Family(v.s.proc, tr.forks) && EndsMade(v.s.proc) && Within(tr.forks, tr.named)
    && Slots(v.s, tr.forks, tr.named + Named(v.s.count, done), v.s.count + 1)
    && OwnSlot(v.s, v.s.count in Named(v.s.count, done))
    && TubesFed(v, tr.writers + NewWriters(me, done, None)) && WritersBefore(tr.writers, |tr.forks|)
    && Offer(v.s.proc, tr.forks, fd, v.s.count, v.s.count in tr.named)
  }

  ghost predicate OutTube(es: seq<Entry>, me: int, peer: int, t: Target) {
    exists i | 0 <= i < |es| :: es[i].sender == me && es[i].receiver == peer && t == Fd(es[i].writeFd)
  }

  ghost predicate InTube(es: seq<Entry>, sender: int, me: int, fd: int) {
    exists i | 0 <= i < |es| :: es[i].sender == sender && es[i].receiver == me && fd == es[i].readFd
  }

  ghost predicate OutOk(v: Server, me: int, o: Outlet, sent: set<int>, t: Target) {
    match o
    case Own => t == Terminal
    case Ahead(n) => 0 <= v.s.count + n < |v.s.table| && v.s.table[v.s.count + n].write != 0 && t == Fd(v.s.table[v.s.count + n].write)
    case Saved(f) => t == ToFile(f)
    case ToTube(n) => n in sent && OutTube(v.tubes, me, n, t)
    case Lost => false
  }

  /** Both output streams of the wiring are as the operators say. */
  ghost predicate Wires(v: Server, me: int, done: seq<TubeOp>, w: Wiring) {
    OutOk(v, me, OutletOf(done), SentTo(done), w.stdout) && OutOk(v, me, ErrletOf(done), SentTo(done), w.stderr)
  }

  ghost predicate InOk(v: Server, me: int, done: seq<TubeOp>, fd: int, stdin: int, receive: Option<int>) {
    match SourceOf(done)
    case None => stdin == fd
    case Some(n) => InTube(v.tubes, n, me, stdin) && receive == Some(n)
  }

  // ---- One operator ----

  lemma {:induction false} ChildSame(p: Proc, q: Proc, forks: seq<Fork>, k: nat)
    requires |forks| == |p.children| && k < |forks| && ChildFlow(p, forks, k)
    requires q.children == p.children && |p.pipes| <= |q.pipes|
    ensures ChildFlow(q, forks, k)
  {
    if forks[k].source.None? && forks[k].fed {
      var x := p.children[k].stdin.end.pipe;
      assert forall j | 0 <= j < |forks| ::
        Tied(q, forks[j], j, x, k) == Tied(p, forks[j], j, x, k) && Untied(q, j, x) == Untied(p, j, x);
    }
  }

  lemma {:induction false} FamilyExtends(p: Proc, q: Proc, forks: seq<Fork>)
    requires Family(p, forks) && EndsMade(p) && Extends(p, q)
    ensures Family(q, forks) && EndsMade(q)
  {
    forall k | 0 <= k < |forks|
      ensures ChildFlow(q, forks, k) && Spent(q, k)
    {
      assert ChildFlow(p, forks, k) && Spent(p, k);
      ChildSame(p, q, forks, k);
    }
  }

  lemma {:induction false} OfferExtends(p: Proc, q: Proc, forks: seq<Fork>, fd: int, k: nat, fed: bool)
    requires |forks| == |p.children| && Offer(p, forks, fd, k, fed) && Extends(p, q)
    ensures Offer(q, forks, fd, k, fed)
  {
    assert fed ==> forall j | 0 <= j < |forks| :: Tied(q, forks[j], j, q.fds[fd].pipe, k) <==> Tied(p, forks[j], j, p.fds[fd].pipe, k);
  }

  /** A slot that keeps its descriptors keeps its pipe. */
  lemma {:induction false} SlotExtends(p: Proc, q: Proc, forks: seq<Fork>, slot: Slot, k: int)
    requires |forks| == |p.children| && SlotFlow(p, forks, slot, k) && q.children == p.children
    requires slot.write in q.fds && q.fds[slot.write] == p.fds[slot.write]
    ensures SlotFlow(q, forks, slot, k)
  {
    forall j | 0 <= j < |forks|
      ensures Tied(q, forks[j], j, q.fds[slot.write].pipe, k)
    {
      assert Tied(p, forks[j], j, p.fds[slot.write].pipe, k);
    }
  }

  lemma {:induction false} FreshUnwritten(p: Proc, q: nat)
    requires EndsMade(p) && q >= |p.pipes|
    ensures Unwritten(p, q)
  {
  }

  lemma {:induction false} FreshSlot(p: Proc, q: Proc, forks: seq<Fork>, named: set<int>, slot: Slot, k: int)
    requires |forks| == |p.children| && EndsMade(p) && Within(forks, named) && k !in named
    requires q.children == p.children && slot.write in q.fds && q.fds[slot.write].pipe >= |p.pipes|
    ensures SlotFlow(q, forks, slot, k)
  {
    FreshUnwritten(p, q.fds[slot.write].pipe);
    forall j | 0 <= j < |forks|
      ensures Tied(q, forks[j], j, q.fds[slot.write].pipe, k)
    {
      assert Untied(p, j, q.fds[slot.write].pipe);
    }
  }

  /** What `Reserve` does to the slots. */
  lemma {:induction false} ReserveShape(pick: Allocator, s: State, op: Op)
    requires Sound(pick) && s.proc.std == STANDARD && OpFits(s, op)
    ensures var t := Reserve(pick, s, op);
      && t.count == s.count && |t.table| == |s.table| && t.proc.children == s.proc.children
      && (forall fd | fd in s.proc.fds :: fd in t.proc.fds && t.proc.fds[fd] == s.proc.fds[fd])
      && (forall k | 0 <= k < |s.table| && (HasJump(op) ==> k != s.count + op.jump) :: t.table[k] == s.table[k])
      && (HasJump(op) ==> var x, y := s.table[s.count + op.jump], t.table[s.count + op.jump];
            y.write != 0 &&
            (x.write != 0 ==> y == x) &&
            (x.write == 0 ==> Whole(y) && y.write in t.proc.fds && t.proc.fds[y.write] == WriteEnd(|s.proc.pipes|)))
  {
    if HasJump(op) && s.table[s.count + op.jump].write == 0 { OpenKeeps(pick, s.proc, s.count + op.jump); }
  }

  lemma {:induction false} SlotsReserve(pick: Allocator, s: State, tr: Trace, done: seq<TubeOp>, op: Op)
    requires Sound(pick) && s.proc.std == STANDARD && OpFits(s, op) && AheadWhole(s) && EndsMade(s.proc)
    requires Within(tr.forks, tr.named) && Slots(s, tr.forks, tr.named + Named(s.count, done), s.count + 1)
    ensures Slots(Reserve(pick, s, op), tr.forks, tr.named + Named(s.count, done + [Num(op)]), s.count + 1)
  {
    hide Reserve, SlotFlow, Within, EndsMade;
    var t, forks := Reserve(pick, s, op), tr.forks;
    var named := tr.named + Named(s.count, done);
    ReserveShape(pick, s, op);
    Snoc(done, Num(op), s.count);
    var more := tr.named + Named(s.count, done + [Num(op)]);
    forall k | s.count + 1 <= k < |t.table|
      ensures (t.table[k] != EMPTY <==> k in more) && (t.table[k] != EMPTY ==> SlotFlow(t.proc, forks, t.table[k], k))
    {
      assert s.table[k] != EMPTY <==> k in named;
      assert Whole(s.table[k]);
      if HasJump(op) && k == s.count + op.jump && s.table[k].write == 0 {
        FreshSlot(s.proc, t.proc, forks, tr.named, t.table[k], k);
      } else if s.table[k] != EMPTY {
        SlotOpen(s.proc, forks, s.table[k], k);
        SlotExtends(s.proc, t.proc, forks, s.table[k], k);
      }
    }
  }

  lemma {:induction false} SlotOpen(p: Proc, forks: seq<Fork>, slot: Slot, k: int)
    requires |forks| == |p.children| && SlotFlow(p, forks, slot, k)
    ensures slot.write in p.fds
  {
  }

  lemma {:induction false} OwnReserve(pick: Allocator, s: State, done: seq<TubeOp>, op: Op)
    requires Sound(pick) && s.proc.std == STANDARD && OpFits(s, op) && EndsMade(s.proc)
    requires OwnSlot(s, s.count in Named(s.count, done))
    ensures OwnSlot(Reserve(pick, s, op), s.count in Named(s.count, done + [Num(op)]))
  {
    hide Reserve, EndsMade;
    ReserveShape(pick, s, op);
    Snoc(done, Num(op), s.count);
    var t := Reserve(pick, s, op);
    if HasJump(op) && op.jump == 0 && s.table[s.count].write == 0 {
      FreshUnwritten(s.proc, |s.proc.pipes|);
      SameUnwritten(s.proc, t.proc, |s.proc.pipes|);
    } else if s.count in Named(s.count, done) {
      SameUnwritten(s.proc, t.proc, s.proc.fds[s.table[s.count].write].pipe);
    }
  }

  lemma {:induction false} SameUnwritten(p: Proc, q: Proc, pipe: nat)
    requires Unwritten(p, pipe) && q.children == p.children
    ensures Unwritten(q, pipe)
  {
    assert forall j | 0 <= j < |q.children| :: Untied(q, j, pipe) == Untied(p, j, pipe);
  }

  lemma {:induction false} TubeExtends(p: Proc, q: Proc, writers: Writers, others: Writers, e: Entry)
    requires TubeFed(p, writers, e) && q.children == p.children
    requires e.readFd in q.fds && q.fds[e.readFd] == p.fds[e.readFd]
    requires WriterOf(others, e.sender, e.receiver) == WriterOf(writers, e.sender, e.receiver)
    ensures TubeFed(q, others, e)
  {
    assert forall j | 0 <= j < |q.children| :: SameTies(q, p, j, p.fds[e.readFd].pipe);
  }

  lemma {:induction false} TubesExtend(v: Server, u: Server, writers: Writers)
    requires TubesFed(v, writers) && u.tubes == v.tubes && u.s.proc.children == v.s.proc.children
    requires forall fd | fd in v.s.proc.fds :: fd in u.s.proc.fds && u.s.proc.fds[fd] == v.s.proc.fds[fd]
    ensures TubesFed(u, writers)
  {
    forall i | 0 <= i < |u.tubes|
      ensures TubeFed(u.s.proc, writers, u.tubes[i])
    {
      assert TubeFed(v.s.proc, writers, v.tubes[i]);
      TubeExtends(v.s.proc, u.s.proc, writers, writers, v.tubes[i]);
    }
  }

  lemma {:induction false} WritersSnoc(writers: Writers, me: int, done: seq<TubeOp>, op: TubeOp, sender: int, receiver: int)
    ensures WriterOf(writers + NewWriters(me, done + [op], None), sender, receiver) ==
            if op.SendTo? && (sender, receiver) == (me, op.peer) then None
            else WriterOf(writers + NewWriters(me, done, None), sender, receiver)
  {
    Snoc(done, op, 0);
    var key := (sender, receiver);
    assert key in NewWriters(me, done + [op], None) <==> (sender == me && receiver in SentTo(done + [op]));
    assert key in NewWriters(me, done, None) <==> (sender == me && receiver in SentTo(done));
  }

  lemma {:induction false} SendTubes(pick: Allocator, v: Server, writers: Writers, me: int, done: seq<TubeOp>, peer: int)
    requires Sound(pick) && v.s.proc.std == STANDARD && EndsMade(v.s.proc) && !HasPair(v.tubes, me, peer)
    requires TubesFed(v, writers + NewWriters(me, done, None))
    ensures TubesFed(WithTube(pick, v, me, peer), writers + NewWriters(me, done + [SendTo(peer)], None))
  {
    hide NewWriters, EndsMade;
    var u, now, later := WithTube(pick, v, me, peer), writers + NewWriters(me, done, None),
      writers + NewWriters(me, done + [SendTo(peer)], None);
    OpenKeeps(pick, v.s.proc, NO_SLOT);
    forall i | 0 <= i < |u.tubes|
      ensures TubeFed(u.s.proc, later, u.tubes[i])
    {
      var e := u.tubes[i];
      WritersSnoc(writers, me, done, SendTo(peer), e.sender, e.receiver);
      if i == 0 {
        FreshUnwritten(v.s.proc, |v.s.proc.pipes|);
        SameUnwritten(v.s.proc, u.s.proc, |v.s.proc.pipes|);
        FreshTube(u.s.proc, later, e);
      } else {
        assert e == v.tubes[i - 1] && TubeFed(v.s.proc, now, v.tubes[i - 1]);
        assert !Hit(Pair(me, peer), v.tubes[i - 1]);
        TubeExtends(v.s.proc, u.s.proc, now, later, e);
      }
    }
  }

  lemma {:induction false} FreshTube(p: Proc, writers: Writers, e: Entry)
    requires e.readFd in p.fds && Unwritten(p, p.fds[e.readFd].pipe) && WriterOf(writers, e.sender, e.receiver) == None
    ensures TubeFed(p, writers, e)
  {
    forall j: nat | j < |p.children|
      ensures !WritesTo(p, j, p.fds[e.readFd].pipe) && !ErrsTo(p, j, p.fds[e.readFd].pipe)
    {
      assert Untied(p, j, p.fds[e.readFd].pipe);
    }
  }

  /** One accepted operator. */
  lemma {:induction false} OpMidst(pick: Allocator, v: Server, tr: Trace, me: int, w: Wiring, receive: Option<int>,
                                   done: seq<TubeOp>, op: TubeOp, fd: int)
    requires Sound(pick) && Midst(v, tr, me, done, fd) && TubeOpFits(v.s, op)
    requires ApplyTubeOp(pick, v, me, w, receive, op).Wired?
    ensures Midst(ApplyTubeOp(pick, v, me, w, receive, op).v, tr, me, done + [op], fd)
  {
    hide TubeBooks.Books, Tidy, AheadWhole, Family, EndsMade, Within, Slots, OwnSlot, TubesFed, WritersBefore, Offer, NewWriters;
    BookStd(v);
    OpBooks(pick, v, me, w, receive, op);
    OpTidy(pick, v, me, w, receive, op);
    OwnAt(v.s, v.s.count in Named(v.s.count, done));
    OwnWhole(v.s, v.s.count in Named(v.s.count, done));
    OpCursor(pick, v, me, w, receive, op);
    var u := ApplyTubeOp(pick, v, me, w, receive, op).v;
    FamilyExtends(v.s.proc, u.s.proc, tr.forks);
    FamilySize(v.s.proc, tr.forks);
    OfferExtends(v.s.proc, u.s.proc, tr.forks, fd, v.s.count, v.s.count in tr.named);
    ExtendsFds(v.s.proc, u.s.proc);
    match op {
      case Num(o) =>
        SlotsReserve(pick, v.s, tr, done, o);
        OwnReserve(pick, v.s, done, o);
        TubesExtend(v, u, tr.writers + NewWriters(me, done, None));
        SameWriters(me, done, op);
      case SendTo(n) =>
        SendTubes(pick, v, tr.writers, me, done, n);
        SameSlots(v.s, u.s, tr, done, op);
      case ReceiveFrom(n) =>
        SameWriters(me, done, op);
        SameSlots(v.s, u.s, tr, done, op);
    }
  }

  lemma {:induction false} BookStd(v: Server)
    requires TubeBooks.Books(v)
    ensures v.s.proc.std == STANDARD
  {
  }

  lemma {:induction false} OwnAt(s: State, renewed: bool)
    requires OwnSlot(s, renewed)
    ensures s.count < |s.table|
  {
  }

  lemma {:induction false} OwnWhole(s: State, renewed: bool)
    requires OwnSlot(s, renewed)
    ensures s.count < |s.table| && (s.table[s.count].write == 0 || Whole(s.table[s.count]))
  {
  }

  lemma {:induction false} FamilySize(p: Proc, forks: seq<Fork>)
    requires Family(p, forks)
    ensures |forks| == |p.children|
  {
  }

  lemma {:induction false} ExtendsFds(p: Proc, q: Proc)
    requires Extends(p, q)
    ensures q.children == p.children && forall fd | fd in p.fds :: fd in q.fds && q.fds[fd] == p.fds[fd]
  {
  }

  lemma {:induction false} SameWriters(me: int, done: seq<TubeOp>, op: TubeOp)
    requires !op.SendTo?
    ensures NewWriters(me, done + [op], None) == NewWriters(me, done, None)
  {
    Snoc(done, op, 0);
  }

  /** An operator that touches no slot. */
  lemma {:induction false} SameSlots(s: State, t: State, tr: Trace, done: seq<TubeOp>, op: TubeOp)
    requires !op.Num? && t.table == s.table && t.count == s.count && t.proc.children == s.proc.children
    requires forall fd | fd in s.proc.fds :: fd in t.proc.fds && t.proc.fds[fd] == s.proc.fds[fd]
    requires Slots(s, tr.forks, tr.named + Named(s.count, done), s.count + 1)
    requires OwnSlot(s, s.count in Named(s.count, done))
    ensures Slots(t, tr.forks, tr.named + Named(s.count, done + [op]), s.count + 1)
    ensures OwnSlot(t, s.count in Named(s.count, done + [op]))
  {
    hide SlotFlow;
    Snoc(done, op, s.count);
    assert Named(s.count, done + [op]) == Named(s.count, done);
    forall k | s.count + 1 <= k < |t.table| && t.table[k] != EMPTY
      ensures SlotFlow(t.proc, tr.forks, t.table[k], k)
    {
      SlotOpen(s.proc, tr.forks, s.table[k], k);
      SlotExtends(s.proc, t.proc, tr.forks, s.table[k], k);
    }
    if s.count in Named(s.count, done) { SameUnwritten(s.proc, t.proc, s.proc.fds[s.table[s.count].write].pipe); }
  }

  /** The wiring follows the operators. */
  lemma {:induction false} OpWires(pick: Allocator, v: Server, me: int, w: Wiring, receive: Option<int>,
                                   done: seq<TubeOp>, op: TubeOp, fd: int)
    requires Sound(pick) && v.s.proc.std == STANDARD && TubeOpFits(v.s, op) && v.s.count < |v.s.table|
    requires Wires(v, me, done, w) && InOk(v, me, done, fd, w.stdin, receive)
    requires ApplyTubeOp(pick, v, me, w, receive, op).Wired?
    ensures var r := ApplyTubeOp(pick, v, me, w, receive, op);
      Wires(r.v, me, done + [op], r.w) && InOk(r.v, me, done + [op], fd, r.w.stdin, r.receive)
  {
    Snoc(done, op, v.s.count);
    match op
    case Num(o) => ReserveShape(pick, v.s, o);
    case SendTo(n) =>
      var u := WithTube(pick, v, me, n);
      assert forall i | 0 <= i < |v.tubes| :: u.tubes[i + 1] == v.tubes[i];
      assert u.tubes[0].sender == me;
    case ReceiveFrom(n) =>
      FirstIn(v.tubes, n, me);
      FirstHit(v.tubes, n, me);
  }

  lemma {:induction false} FirstHit(es: seq<Entry>, sender: int, receiver: int)
    requires HasPair(es, sender, receiver)
    ensures Hit(Pair(sender, receiver), FirstOf(es, sender, receiver))
  {
    if !Hit(Pair(sender, receiver), es[0]) {
      assert HasPair(es[1..], sender, receiver) by {
        var i :| 0 <= i < |es| && Hit(Pair(sender, receiver), es[i]);
        assert es[1..][i - 1] == es[i];
      }
      FirstHit(es[1..], sender, receiver);
    }
  }

  lemma {:induction false} ApplyMidst(pick: Allocator, v: Server, tr: Trace, me: int, w: Wiring, receive: Option<int>,
                                      done: seq<TubeOp>, ops: seq<TubeOp>, fd: int)
    requires Sound(pick) && Midst(v, tr, me, done, fd) && TubeFits(v.s, ops)
    requires Wires(v, me, done, w) && InOk(v, me, done, fd, w.stdin, receive)
    ensures var n, r := Accepted(pick, v, me, w, receive, ops), ApplyTube(pick, v, me, w, receive, ops);
      && Midst(r.v, tr, me, done + ops[..n], fd)
      && (r.Wired? ==> Wires(r.v, me, done + ops, r.w) && InOk(r.v, me, done + ops, fd, r.w.stdin, r.receive))
    decreases |ops|
  {
    hide Midst, Wires, InOk, ApplyTubeOp, TubeFits;
    if ops == [] {
      assert done + ops == done && done + ops[..0] == done;
    } else {
      ApplyTubeStep(pick, v, me, w, receive, ops);
      MidstStd(v, tr, me, done, fd);
      var r := ApplyTubeOp(pick, v, me, w, receive, ops[0]);
      if r.Wired? {
        OpMidst(pick, v, tr, me, w, receive, done, ops[0], fd);
        OpWires(pick, v, me, w, receive, done, ops[0], fd);
        ApplyMidst(pick, r.v, tr, me, r.w, r.receive, done + [ops[0]], ops[1..], fd);
        var n := Accepted(pick, r.v, me, r.w, r.receive, ops[1..]);
        assert done + [ops[0]] + ops[1..][..n] == done + ops[..n + 1];
        assert done + [ops[0]] + ops[1..] == done + ops;
      } else {
        RefusedSame(pick, v, me, w, receive, ops[0]);
        assert done + ops[..0] == done;
      }
    }
  }

  lemma {:induction false} MidstStd(v: Server, tr: Trace, me: int, done: seq<TubeOp>, fd: int)
    requires Midst(v, tr, me, done, fd)
    ensures v.s.proc.std == STANDARD && v.s.count < |v.s.table|
  {
  }

  lemma {:induction false} RefusedSame(pick: Allocator, v: Server, me: int, w: Wiring, receive: Option<int>, op: TubeOp)
    requires TubeOpFits(v.s, op) && ApplyTubeOp(pick, v, me, w, receive, op).Refused?
    ensures ApplyTubeOp(pick, v, me, w, receive, op).v == v
  {
  }

  // ---- The beginning of a command ----

  lemma {:induction false} FamilyShrinks(p: Proc, q: Proc, forks: seq<Fork>)
    requires Family(p, forks) && EndsMade(p) && Shrinks(p, q)
    ensures Family(q, forks) && EndsMade(q)
  {
    forall k | 0 <= k < |forks|
      ensures ChildFlow(q, forks, k) && Spent(q, k)
    {
      assert ChildFlow(p, forks, k) && Spent(p, k);
      ChildSame(p, q, forks, k);
    }
  }

  /** Slots above the cursor are not touched by closing one of its ends. */
  lemma {:induction false} SlotsStay(s: State, t: State, forks: seq<Fork>, named: set<int>, lo: nat)
    requires Slots(s, forks, named, lo) && Recorded(t) && t.proc.children == s.proc.children
    requires |t.table| == |s.table| && forall k | lo <= k < |s.table| :: t.table[k] == s.table[k] && Whole(s.table[k])
    requires forall fd | fd in t.proc.fds :: fd in s.proc.fds && t.proc.fds[fd] == s.proc.fds[fd]
    ensures Slots(t, forks, named, lo)
  {
    hide SlotFlow, Holds;
    forall k | lo <= k < |t.table| && t.table[k] != EMPTY
      ensures SlotFlow(t.proc, forks, t.table[k], k)
    {
      RecordedWrite(t, k);
      SlotExtends(s.proc, t.proc, forks, s.table[k], k);
    }
  }

  lemma {:induction false} RecordedWrite(s: State, k: nat)
    requires Recorded(s) && k < |s.table| && s.table[k].write != 0
    ensures s.table[k].write in s.proc.fds && s.proc.fds[s.table[k].write].WriteEnd?
    ensures s.proc.fds[s.table[k].write].pipe < |s.proc.pipes| && s.proc.pipes[s.proc.fds[s.table[k].write].pipe] == k
  {
    assert Holds(s, s.table[k].write, k, false);
  }

  lemma {:induction false} RecordedRead(s: State, k: nat)
    requires Recorded(s) && k < |s.table| && s.table[k].read != 0
    ensures s.table[k].read in s.proc.fds && s.proc.fds[s.table[k].read].ReadEnd?
    ensures s.proc.fds[s.table[k].read].pipe < |s.proc.pipes| && s.proc.pipes[s.proc.fds[s.table[k].read].pipe] == k
  {
    assert Holds(s, s.table[k].read, k, true);
  }

  lemma {:induction false} TubesShrink(v: Server, u: Server, writers: Writers)
    requires TubesFed(v, writers) && TubesOpen(u.s.proc, u.tubes) && u.s.proc.children == v.s.proc.children
    requires forall e | e in u.tubes :: e in v.tubes
    requires forall fd | fd in u.s.proc.fds :: fd in v.s.proc.fds && u.s.proc.fds[fd] == v.s.proc.fds[fd]
    ensures TubesFed(u, writers)
  {
    forall i | 0 <= i < |u.tubes|
      ensures TubeFed(u.s.proc, writers, u.tubes[i])
    {
      var e := u.tubes[i];
      assert TubeOpen(u.s.proc, e) && e in v.tubes;
      var k :| 0 <= k < |v.tubes| && v.tubes[k] == e;
      assert TubeFed(v.s.proc, writers, v.tubes[k]);
      TubeExtends(v.s.proc, u.s.proc, writers, writers, e);
    }
  }

  lemma {:induction false} CursorOffer(s: State, tr: Trace)
    requires Recorded(s) && Tidy(s) && s.count < |s.table| && Whole(s.table[s.count]) && s.proc.std == STANDARD
    requires Slots(s, tr.forks, tr.named, s.count)
    ensures Offer(Begin(s).proc, tr.forks, Stdin(s), s.count, s.count in tr.named)
  {
    BeginTidy(s);
    var slot, t := s.table[s.count], Begin(s);
    if slot != EMPTY {
      RecordedRead(s, s.count);
      RecordedWrite(s, s.count);
      assert PairedSlot(s.proc, slot);
      assert SlotFlow(s.proc, tr.forks, slot, s.count);
      var q := s.proc.fds[slot.read].pipe;
        assert forall j | 0 <= j < |tr.forks| :: Tied(t.proc, tr.forks[j], j, q, s.count) == Tied(s.proc, tr.forks[j], j, q, s.count);
    }
  }

  lemma {:induction false} BeginMidst(v: Server, tr: Trace, me: int, ops: seq<TubeOp>)
    requires Sane(v, false) && Tidy(v.s) && Flow(v, tr, false) && v.s.count < |v.s.table|
    ensures var u, w := v.(s := Begin(v.s)), FirstTubeWiring(v.s, ops);
      && Midst(u, tr, me, [], Stdin(v.s)) && Wires(u, me, [], w)
      && forall receive: Option<int> :: InOk(u, me, [], Stdin(v.s), w.stdin, receive)
  {
    hide Family, EndsMade, Within, Slots, TubesFed, WritersBefore, Offer, Tidy, Recorded, TubesOpen, Unique, Extends;
    var u := v.(s := Begin(v.s));
    BeginBooks(v);
    BeginTidy(v.s);
    FamilyShrinks(v.s.proc, u.s.proc, tr.forks);
    CursorOffer(v.s, tr);
    BeginAbove(v.s, tr);
    assert TubesFed(u, tr.writers) by { TubesShrink(v, u, tr.writers); }
    NoNewWriters(me, tr.writers);
    assert tr.named + Named(v.s.count, []) == tr.named;
  }

  lemma {:induction false} NoNewWriters(me: int, writers: Writers)
    ensures writers + NewWriters(me, [], None) == writers
  {
  }

  lemma {:induction false} BeginAbove(s: State, tr: Trace)
    requires s.count < |s.table| && Slots(s, tr.forks, tr.named, s.count) && Recorded(Begin(s)) && AheadWhole(s)
    requires Whole(s.table[s.count])
    ensures Slots(Begin(s), tr.forks, tr.named, s.count + 1)
    ensures AheadWhole(Begin(s)) && Begin(s).table[s.count].write == 0 && Begin(s).count == s.count
  {
    hide SlotFlow, Recorded;
    SlotsFrom(s, tr.forks, tr.named);
    SlotsStay(s, Begin(s), tr.forks, tr.named, s.count + 1);
  }

  lemma {:induction false} SlotsFrom(s: State, forks: seq<Fork>, named: set<int>)
    requires Slots(s, forks, named, s.count)
    ensures Slots(s, forks, named, s.count + 1)
  {
  }

  // ---- The fork ----

  /** A stream of the new child, which goes where `o` says. */
  ghost predicate NewWrites(v: Server, me: int, o: Outlet, port: Port) {
    && (port.Piped? ==> port.end in EndsOf(v.s.proc.fds))
    && (forall k | v.s.count < k < |v.s.table| && v.s.table[k] != EMPTY ::
          v.s.table[k].write in v.s.proc.fds &&
          (port == Piped(WriteEnd(v.s.proc.fds[v.s.table[k].write].pipe)) <==> o == Ahead(k - v.s.count)))
    && forall i | 0 <= i < |v.tubes| ::
         v.tubes[i].readFd in v.s.proc.fds &&
         (port == Piped(WriteEnd(v.s.proc.fds[v.tubes[i].readFd].pipe)) <==>
          (v.tubes[i].sender == me && o == ToTube(v.tubes[i].receiver)))
  }

  /** Two open descriptors of one end are the same. */
  lemma {:induction false} OneFd(p: Proc, a: int, b: int)
    requires FdsOk(p) && a in p.fds && b in p.fds && p.fds[a] == p.fds[b]
    ensures a == b
  {
  }

  lemma {:induction false} OutWrites(v: Server, me: int, o: Outlet, sent: set<int>, t: Target)
    requires TubeBooks.Books(v) && FdsOk(v.s.proc) && AheadWhole(v.s) && OutOk(v, me, o, sent, t)
    ensures NewWrites(v, me, o, TargetPort(v.s.proc, t))
  {
    hide Recorded, TubesOpen, Unique, FdsOk;
    var p, port := v.s.proc, TargetPort(v.s.proc, t);
    if t.Fd? { OutFd(v, me, o, sent, t); }
    forall k: nat | v.s.count < k < |v.s.table| && v.s.table[k] != EMPTY
      ensures v.s.table[k].write in p.fds
      ensures port == Piped(WriteEnd(p.fds[v.s.table[k].write].pipe)) <==> o == Ahead(k - v.s.count)
    {
      assert Whole(v.s.table[k]);
      RecordedWrite(v.s, k);
      if t.Fd? {
        FdOfSlot(v, me, o, sent, t, k);
        if p.fds[t.fd] == p.fds[v.s.table[k].write] { OneFd(p, t.fd, v.s.table[k].write); }
      }
    }
    forall i: nat | i < |v.tubes|
      ensures v.tubes[i].readFd in p.fds
      ensures port == Piped(WriteEnd(p.fds[v.tubes[i].readFd].pipe)) <==>
              (v.tubes[i].sender == me && o == ToTube(v.tubes[i].receiver))
    {
      OpenTube(v, i);
      if t.Fd? {
        FdOfTube(v, me, o, sent, t, i);
        if p.fds[t.fd] == p.fds[v.tubes[i].writeFd] { OneFd(p, t.fd, v.tubes[i].writeFd); }
      }
    }
  }

  lemma {:induction false} OpenTube(v: Server, i: nat)
    requires TubesOpen(v.s.proc, v.tubes) && i < |v.tubes|
    ensures TubeOpen(v.s.proc, v.tubes[i])
  {
  }

  lemma {:induction false} OutFd(v: Server, me: int, o: Outlet, sent: set<int>, t: Target)
    requires TubeBooks.Books(v) && OutOk(v, me, o, sent, t) && t.Fd?
    ensures t.fd in v.s.proc.fds && v.s.proc.fds[t.fd].WriteEnd?
  {
    if o.Ahead? {
      RecordedWrite(v.s, v.s.count + o.distance);
    } else {
      var i :| 0 <= i < |v.tubes| && t == Fd(v.tubes[i].writeFd);
      assert TubeOpen(v.s.proc, v.tubes[i]);
    }
  }

  /** The target is the write end of slot k exactly when the last jump says so. */
  lemma {:induction false} FdOfSlot(v: Server, me: int, o: Outlet, sent: set<int>, t: Target, k: nat)
    requires TubeBooks.Books(v) && OutOk(v, me, o, sent, t) && t.Fd?
    requires v.s.count < k < |v.s.table| && v.s.table[k].write != 0
    ensures t.fd == v.s.table[k].write <==> o == Ahead(k - v.s.count)
  {
    RecordedWrite(v.s, k);
    if o.Ahead? {
      SlotsApart(v.s, k, v.s.count + o.distance);
    } else {
      var i :| 0 <= i < |v.tubes| && t == Fd(v.tubes[i].writeFd);
      assert TubeOpen(v.s.proc, v.tubes[i]);
    }
  }

  lemma {:induction false} FdOfTube(v: Server, me: int, o: Outlet, sent: set<int>, t: Target, i: nat)
    requires TubeBooks.Books(v) && OutOk(v, me, o, sent, t) && t.Fd? && i < |v.tubes|
    ensures t.fd == v.tubes[i].writeFd <==> (v.tubes[i].sender == me && o == ToTube(v.tubes[i].receiver))
  {
    assert TubeOpen(v.s.proc, v.tubes[i]);
    if o.Ahead? {
      RecordedWrite(v.s, v.s.count + o.distance);
    } else {
      var j :| 0 <= j < |v.tubes| && v.tubes[j].sender == me && v.tubes[j].receiver == o.peer &&
               t == Fd(v.tubes[j].writeFd);
      assert i != j ==> v.tubes[i].writeFd != v.tubes[j].writeFd;
    }
  }

  /** q is p with one more child, which holds all that is open. */
  ghost predicate Forked(p: Proc, q: Proc, c: Child) {
    q == p.(children := p.children + [c]) && c.held == EndsOf(p.fds) &&
    (c.stdout.Piped? ==> c.stdout.end in EndsOf(p.fds)) && (c.stderr.Piped? ==> c.stderr.end in EndsOf(p.fds))
  }

  lemma {:induction false} OldFlow(p: Proc, q: Proc, forks: seq<Fork>, f: Fork, c: Child, named: set<int>, k: nat)
    requires Family(p, forks) && Within(forks, named) && Forked(p, q, c) && k < |forks|
    ensures ChildFlow(q, forks + [f], k) && Spent(q, k)
  {
    var n, all := |forks|, forks + [f];
    assert ChildFlow(p, forks, k) && Spent(p, k);
    forall j | 0 <= j < n
      ensures all[j] == forks[j] && q.children[j] == p.children[j]
    {
    }
    assert q.children[n] == c;
    if p.children[k].stdin.Piped? {
      var x := p.children[k].stdin.end.pipe;
      assert Untied(q, n, x);
      assert forall j | 0 <= j < n :: SameTies(q, p, j, x);
    }
  }

  /** A child that reads a numbered pipe, or its user's input. */
  lemma {:induction false} OfferFlow(p: Proc, q: Proc, forks: seq<Fork>, named: set<int>, f: Fork, c: Child, fd: int)
    requires |forks| == |p.children| && Forked(p, q, c) && Offer(p, forks, fd, |forks|, f.fed)
    requires f.source.None? && c.stdin == PortOf(p, fd) && p.std == STANDARD && 0 !in p.fds
    requires Within(forks, named) && f.fed == (|forks| in named)
    ensures ChildFlow(q, forks + [f], |forks|) && Spent(q, |forks|)
  {
    var n, all := |forks|, forks + [f];
    assert q.children[n] == c && all[n] == f;
    assert forall j | 0 <= j < n :: all[j] == forks[j] && q.children[j] == p.children[j];
    if f.fed {
      var x := p.fds[fd].pipe;
      assert Untied(q, n, x);
      assert forall j | 0 <= j < n :: SameTies(q, p, j, x);
    }
  }

  /** A child that reads a tube. */
  lemma {:induction false} TubeFlow(p: Proc, q: Proc, forks: seq<Fork>, f: Fork, c: Child, writers: Writers, e: Entry)
    requires |forks| == |p.children| && Forked(p, q, c) && TubeOpen(p, e) && TubeFed(q, writers, e)
    requires f.source.Some? && f.writer == WriterOf(writers, e.sender, e.receiver)
    requires c.stdin == PortOf(p, e.readFd)
    ensures ChildFlow(q, forks + [f], |forks|)
  {
    var n, all := |forks|, forks + [f];
    assert q.children[n] == c && all[n] == f;
  }

  lemma {:induction false} SlotsFork(s: State, p: Proc, q: Proc, forks: seq<Fork>, f: Fork, c: Child, me: int, v: Server)
    requires v.s == s && s.proc == p && Forked(p, q, c) && |forks| == s.count
    requires NewWrites(v, me, f.out, c.stdout) && NewWrites(v, me, f.err, c.stderr)
    requires Slots(s, forks, f.named, s.count + 1) && Recorded(s) && AheadWhole(s)
    ensures Slots(s.(proc := q), forks + [f], f.named, s.count + 1)
  {
    hide SlotFlow, Recorded, NewWrites, Forked;
    var all := forks + [f];
    ForkedSize(p, q, c);
    forall k: nat | s.count + 1 <= k < |s.table| && s.table[k] != EMPTY
      ensures SlotFlow(q, all, s.table[k], k)
    {
      assert Whole(s.table[k]) && SlotFlow(p, forks, s.table[k], k) && k in f.named;
      RecordedWrite(s, k);
      NewWritesSlot(v, me, f.out, c.stdout, k);
      NewWritesSlot(v, me, f.err, c.stderr, k);
      SlotInherited(v, q, c, k);
      SlotFork(p, q, forks, f, c, s.table[k], k);
    }
  }

  lemma {:induction false} ForkedSize(p: Proc, q: Proc, c: Child)
    requires Forked(p, q, c)
    ensures |q.children| == |p.children| + 1
  {
  }

  lemma {:induction false} NewWritesSlot(v: Server, me: int, o: Outlet, port: Port, k: nat)
    requires NewWrites(v, me, o, port) && v.s.count < k < |v.s.table| && v.s.table[k] != EMPTY
    ensures v.s.table[k].write in v.s.proc.fds
    ensures port == Piped(WriteEnd(v.s.proc.fds[v.s.table[k].write].pipe)) <==> o == Ahead(k - v.s.count)
  {
  }

  lemma {:induction false} SlotFork(p: Proc, q: Proc, forks: seq<Fork>, f: Fork, c: Child, slot: Slot, k: int)
    requires Forked(p, q, c) && |forks| == |p.children| && SlotFlow(p, forks, slot, k) && k in f.named
    requires WriteEnd(p.fds[slot.write].pipe) in c.held
    requires c.stdout == Piped(WriteEnd(p.fds[slot.write].pipe)) <==> f.out == Ahead(k - |forks|)
    requires c.stderr == Piped(WriteEnd(p.fds[slot.write].pipe)) <==> f.err == Ahead(k - |forks|)
    ensures SlotFlow(q, forks + [f], slot, k)
  {
    var n, all, x := |forks|, forks + [f], p.fds[slot.write].pipe;
    assert q.children[n] == c && all[n] == f;
    forall j | 0 <= j < |all|
      ensures Tied(q, all[j], j, x, k)
    {
      if j < n {
        assert all[j] == forks[j] && q.children[j] == p.children[j];
        assert Tied(p, forks[j], j, x, k) && SameTies(q, p, j, x);
      }
    }
  }

  lemma {:induction false} SlotInherited(v: Server, q: Proc, c: Child, k: nat)
    requires Forked(v.s.proc, q, c) && k < |v.s.table| && v.s.table[k].write in v.s.proc.fds
    ensures v.s.proc.fds[v.s.table[k].write] in c.held
  {
  }

  /** Who writes a tube once the command is forked. */
  lemma {:induction false} NewWriterOf(writers: Writers, me: int, ops: seq<TubeOp>, n: nat, sender: int, receiver: int)
    ensures var own := sender == me && receiver in SentTo(ops);
      && WriterOf(writers + NewWriters(me, ops, None), sender, receiver) == (if own then None else WriterOf(writers, sender, receiver))
      && WriterOf(writers + NewWriters(me, ops, Some(n)), sender, receiver) ==
           (if !own then WriterOf(writers, sender, receiver) else if OutletOf(ops) == ToTube(receiver) then Some(n) else None)
  {
    var key := (sender, receiver);
    assert key in NewWriters(me, ops, None) <==> (sender == me && receiver in SentTo(ops));
    assert key in NewWriters(me, ops, Some(n)) <==> (sender == me && receiver in SentTo(ops));
  }

  lemma {:induction false} TubesFork(v: Server, q: Proc, c: Child, me: int, ops: seq<TubeOp>, writers: Writers)
    requires Forked(v.s.proc, q, c) && NewWrites(v, me, OutletOf(ops), c.stdout) && NewWrites(v, me, ErrletOf(ops), c.stderr)
    requires TubesFed(v, writers + NewWriters(me, ops, None)) && WritersBefore(writers, |v.s.proc.children|)
    requires OutletOf(ops).ToTube? ==> OutletOf(ops).peer in SentTo(ops)
    ensures TubesFed(v.(s := v.s.(proc := q)), writers + NewWriters(me, ops, Some(|v.s.proc.children|)))
  {
    hide NewWriters;
    var n, later := |v.s.proc.children|, writers + NewWriters(me, ops, Some(|v.s.proc.children|));
    assert q.children[n] == c;
    forall i | 0 <= i < |v.tubes|
      ensures TubeFed(q, later, v.tubes[i])
    {
      var e := v.tubes[i];
      assert TubeFed(v.s.proc, writers + NewWriters(me, ops, None), e);
      NewWriterOf(writers, me, ops, n, e.sender, e.receiver);
      var x := v.s.proc.fds[e.readFd].pipe;
      assert forall j | 0 <= j < n :: SameTies(q, v.s.proc, j, x);
    }
  }

  lemma {:induction false} OutletNamed(at: int, ops: seq<TubeOp>)
    ensures OutletOf(ops).Ahead? ==> at + OutletOf(ops).distance in Named(at, ops)
    ensures ErrletOf(ops).Ahead? ==> at + ErrletOf(ops).distance in Named(at, ops)
    ensures OutletOf(ops) != Lost
    decreases |ops|
  {
    if ops != [] { OutletNamed(at, ops[..|ops| - 1]); }
  }

  lemma {:induction false} WithinFork(tr: Trace, me: int, ops: seq<TubeOp>)
    requires Within(tr.forks, tr.named) && WritersBefore(tr.writers, |tr.forks|)
    ensures var t := ForkTrace(tr, me, ops); Within(t.forks, t.named) && WritersBefore(t.writers, |t.forks|)
  {
    hide NewWriters;
    var t, n := ForkTrace(tr, me, ops), |tr.forks|;
    OutletNamed(n, ops);
    forall key | key in t.writers && t.writers[key].Some?
      ensures t.writers[key].value < n + 1
    {
      NewWriterOf(tr.writers, me, ops, n, key.0, key.1);
    }
    assert forall j | 0 <= j < n :: t.forks[j] == tr.forks[j];
  }

  lemma {:induction false} EndsForked(p: Proc, q: Proc, c: Child)
    requires EndsMade(p) && FdsOk(p) && Forked(p, q, c)
    ensures EndsMade(q)
  {
    forall j | 0 <= j < |q.children|
      ensures (q.children[j].stdout.Piped? ==> q.children[j].stdout.end.pipe < |q.pipes|) &&
              (q.children[j].stderr.Piped? ==> q.children[j].stderr.end.pipe < |q.pipes|) &&
              forall e | e in q.children[j].held :: e.pipe < |q.pipes|
    {
      if j < |p.children| { assert q.children[j] == p.children[j]; }
    }
  }

  /** Forking the command keeps the flow, but for the tube that it reads, which is still open. */
  ghost predicate AfterFork(v: Server, tr: Trace) {
    && |tr.forks| == |v.s.proc.children| == v.s.count + 1
    && (forall k | 0 <= k < |tr.forks| :: ChildFlow(v.s.proc, tr.forks, k))
    && (forall k | 0 <= k < |tr.forks| && (k < v.s.count || tr.forks[k].source.None?) :: Spent(v.s.proc, k))
    && EndsMade(v.s.proc) && Within(tr.forks, tr.named)
    && Slots(v.s, tr.forks, tr.named, v.s.count + 1)
    && TubesFed(v, tr.writers) && WritersBefore(tr.writers, |tr.forks|)
  }

  lemma {:induction false} SpawnFlow(v: Server, tr: Trace, me: int, w: Wiring, receive: Option<int>, argv: seq<string>, ops: seq<TubeOp>, fd: int)
    requires Midst(v, tr, me, ops, fd) && Wires(v, me, ops, w) && InOk(v, me, ops, fd, w.stdin, receive)
    ensures AfterFork(v.(s := Spawn(v.s, w, argv)), ForkTrace(tr, me, ops))
  {
    hide TubeBooks.Books, Tidy, AheadWhole, Within, Slots, OwnSlot, TubesFed, WritersBefore, Offer, NewWriters, Forked, ChildFlow,
      Spent, NewWrites, EndsMade, OutOk, InOk, TargetPort;
    var p, q, t := v.s.proc, Spawn(v.s, w, argv).proc, ForkTrace(tr, me, ops);
    var c, n := q.children[|p.children|], |tr.forks|;
    TidyFds(v.s);
    OutWrites(v, me, OutletOf(ops), SentTo(ops), w.stdout);
    OutWrites(v, me, ErrletOf(ops), SentTo(ops), w.stderr);
    SpawnForks(v, w, me, ops, argv);
    forall k: nat | k < n
      ensures ChildFlow(q, t.forks, k) && Spent(q, k)
    {
      OldFlow(p, q, tr.forks, t.forks[n], c, tr.named, k);
    }
    BookRecords(v);
    SlotsFork(v.s, p, q, tr.forks, t.forks[n], c, me, v);
    SentOut(v, me, ops, w.stdout);
    TubesFork(v, q, c, me, ops, tr.writers);
    WithinFork(tr, me, ops);
    EndsForked(p, q, c);
    InputFlow(v, q, c, tr, me, w, receive, ops, fd);
  }

  lemma {:induction false} BookRecords(v: Server)
    requires TubeBooks.Books(v)
    ensures Recorded(v.s)
  {
  }

  lemma {:induction false} TidyFds(s: State)
    requires Tidy(s)
    ensures FdsOk(s.proc)
  {
  }

  lemma {:induction false} SentOut(v: Server, me: int, ops: seq<TubeOp>, t: Target)
    requires OutOk(v, me, OutletOf(ops), SentTo(ops), t)
    ensures OutletOf(ops).ToTube? ==> OutletOf(ops).peer in SentTo(ops)
  {
  }

  lemma {:induction false} SpawnForks(v: Server, w: Wiring, me: int, ops: seq<TubeOp>, argv: seq<string>)
    requires NewWrites(v, me, OutletOf(ops), TargetPort(v.s.proc, w.stdout))
    requires NewWrites(v, me, ErrletOf(ops), TargetPort(v.s.proc, w.stderr))
    ensures var q := Spawn(v.s, w, argv).proc; var c := q.children[|v.s.proc.children|];
      && Forked(v.s.proc, q, c) && NewWrites(v, me, OutletOf(ops), c.stdout) && NewWrites(v, me, ErrletOf(ops), c.stderr)
      && c.stdin == PortOf(v.s.proc, w.stdin)
  {
  }

  lemma {:induction false} InputFlow(v: Server, q: Proc, c: Child, tr: Trace, me: int, w: Wiring, receive: Option<int>, ops: seq<TubeOp>, fd: int)
    requires TubeBooks.Books(v) && |tr.forks| == |v.s.proc.children| == v.s.count && Forked(v.s.proc, q, c)
    requires Offer(v.s.proc, tr.forks, fd, v.s.count, v.s.count in tr.named)
    requires InOk(v, me, ops, fd, w.stdin, receive) && c.stdin == PortOf(v.s.proc, w.stdin) && Within(tr.forks, tr.named)
    requires TubesFed(v.(s := v.s.(proc := q)), ForkTrace(tr, me, ops).writers)
    ensures var t := ForkTrace(tr, me, ops);
      ChildFlow(q, t.forks, v.s.count) && (SourceOf(ops).None? ==> Spent(q, v.s.count))
  {
    hide Recorded, Unique, Offer, ChildFlow, Spent, Forked, NewWriters;
    var t, n := ForkTrace(tr, me, ops), v.s.count;
    if SourceOf(ops).None? {
      OfferFlow(v.s.proc, q, tr.forks, tr.named, t.forks[n], c, fd);
    } else {
      var i :| 0 <= i < |v.tubes| && v.tubes[i].sender == SourceOf(ops).value && v.tubes[i].receiver == me && w.stdin == v.tubes[i].readFd;
      OpenTube(v, i);
      assert TubeFed(q, t.writers, v.tubes[i]);
      TubeFlow(v.s.proc, q, tr.forks, t.forks[n], c, t.writers, v.tubes[i]);
    }
  }

  // ---- The end of a command ----

  /** The write end of the tube that was read is closed behind the child. */
  lemma {:induction false} ReceivedSpent(v: Server, u: Proc, me: int, peer: int, x: nat)
    requires TubesOpen(v.s.proc, v.tubes) && FdsOk(v.s.proc)
    requires exists i | 0 <= i < |v.tubes| ::
      v.tubes[i].sender == peer && v.tubes[i].receiver == me && v.s.proc.fds[v.tubes[i].readFd].pipe == x
    requires forall fd | fd in u.fds :: fd in v.s.proc.fds && u.fds[fd] == v.s.proc.fds[fd] && fd !in HitFds(v.tubes, Pair(peer, me))
    ensures WriteEnd(x) !in EndsOf(u.fds)
  {
    var i :| 0 <= i < |v.tubes| && v.tubes[i].sender == peer && v.tubes[i].receiver == me && v.s.proc.fds[v.tubes[i].readFd].pipe == x;
    OpenTube(v, i);
    HitFdsHave(v.tubes, Pair(peer, me), i);
    forall fd | fd in u.fds
      ensures u.fds[fd] != WriteEnd(x)
    {
      assert fd != v.tubes[i].writeFd;
    }
  }

  /** What is left of the command after its fork. */
  ghost predicate Finished(v: Server, u: Server, me: int, w: Wiring, receive: Option<int>, argv: seq<string>) {
    var p := Spawn(v.s, w, argv).proc;
    && u.s.count == v.s.count + 1 && |u.s.table| == |v.s.table|
    && (forall k | v.s.count < k < |v.s.table| :: u.s.table[k] == v.s.table[k])
    && Shrinks(p, u.s.proc)
    && (forall e | e in u.tubes :: e in v.tubes)
    && (receive.Some? ==> forall fd | fd in u.s.proc.fds :: fd !in HitFds(v.tubes, Pair(receive.value, me)))
  }

  lemma {:induction false} FinishShape(v: Server, me: int, w: Wiring, receive: Option<int>, argv: seq<string>)
    requires Tidy(v.s) && v.s.count < |v.s.table|
    ensures Finished(v, FinishTube(v, me, w, receive, argv), me, w, receive, argv)
  {
    hide Tidy;
    FinishTidy(v, me, w, receive, argv);
    if receive.Some? {
      var key := Pair(receive.value, me);
      CloseAllFds(Finish(v.s, w, argv).proc, HitFds(v.tubes, key));
      forall e: Entry { WithoutFrom(v.tubes, key, e); }
    }
  }

  lemma {:induction false} SpentShrinks(p: Proc, q: Proc, k: nat)
    requires k < |p.children| && Spent(p, k) && Shrinks(p, q)
    ensures Spent(q, k)
  {
  }

  lemma {:induction false} FlowShrinks(p: Proc, q: Proc, forks: seq<Fork>, k: nat)
    requires |forks| == |p.children| && k < |forks| && ChildFlow(p, forks, k) && Shrinks(p, q)
    ensures ChildFlow(q, forks, k)
  {
    ChildSame(p, q, forks, k);
  }

  lemma {:induction false} EndsShrink(p: Proc, q: Proc)
    requires EndsMade(p) && Shrinks(p, q)
    ensures EndsMade(q)
  {
  }

  lemma {:induction false} FinishFlow(v: Server, u: Server, tr: Trace, me: int, w: Wiring, receive: Option<int>, argv: seq<string>)
    requires AfterFork(v.(s := Spawn(v.s, w, argv)), tr) && Finished(v, u, me, w, receive, argv)
    requires AheadWhole(v.s) && Recorded(u.s) && TubesOpen(u.s.proc, u.tubes) && v.s.count < |v.s.table|
    requires tr.forks[v.s.count].source.Some? ==> Spent(u.s.proc, v.s.count)
    ensures Flow(u, tr, false)
  {
    hide EndsMade, Within, Slots, TubesFed, WritersBefore, ChildFlow, Spent, Recorded, TubesOpen, Spawn;
    var s1 := Spawn(v.s, w, argv);
    var p, q := s1.proc, u.s.proc;
    SpawnShape(v.s, w, argv);
    forall k: nat | k < |tr.forks|
      ensures ChildFlow(q, tr.forks, k) && Spent(q, k)
    {
      FlowShrinks(p, q, tr.forks, k);
      if k < v.s.count || tr.forks[k].source.None? { SpentShrinks(p, q, k); }
    }
    EndsShrink(p, q);
    SlotsStay(s1, u.s, tr.forks, tr.named, v.s.count + 1);
    TubesShrink(v.(s := s1), u, tr.writers);
  }

  lemma {:induction false} SpawnShape(s: State, w: Wiring, argv: seq<string>)
    ensures var t := Spawn(s, w, argv);
      && t.table == s.table && t.count == s.count && |t.proc.children| == |s.proc.children| + 1
      && t.proc.fds == s.proc.fds && t.proc.pipes == s.proc.pipes
      && t.proc.children[|s.proc.children|].stdin == PortOf(s.proc, w.stdin)
  {
  }

  /** The `<n` child. */
  lemma {:induction false} TubeSpent(v: Server, u: Server, tr: Trace, me: int, w: Wiring, receive: Option<int>, argv: seq<string>,
                                     ops: seq<TubeOp>, fd: int)
    requires TubeBooks.Books(v) && FdsOk(v.s.proc) && Finished(v, u, me, w, receive, argv)
    requires |v.s.proc.children| == v.s.count && InOk(v, me, ops, fd, w.stdin, receive) && SourceOf(ops).Some?
    ensures v.s.count < |u.s.proc.children| && Spent(u.s.proc, v.s.count)
  {
    hide Recorded, TubesOpen, Unique, FdsOk, Spawn, Whole;
    SpawnShape(v.s, w, argv);
    var peer := SourceOf(ops).value;
    var i :| 0 <= i < |v.tubes| && v.tubes[i].sender == peer && v.tubes[i].receiver == me && w.stdin == v.tubes[i].readFd;
    OpenTube(v, i);
    ReceivedSpent(v, u.s.proc, me, peer, v.s.proc.fds[w.stdin].pipe);
  }

  lemma {:induction false} RanFlow(v: Server, u: Server, tr: Trace, me: int, w: Wiring, receive: Option<int>, argv: seq<string>,
                                   ops: seq<TubeOp>, fd: int)
    requires Midst(v, tr, me, ops, fd) && Wires(v, me, ops, w) && InOk(v, me, ops, fd, w.stdin, receive)
    requires u == FinishTube(v, me, w, receive, argv) && TubeBooks.Books(u)
    ensures Flow(u, ForkTrace(tr, me, ops), false)
  {
    hide AheadWhole, Family, EndsMade, Within, Slots, OwnSlot, TubesFed, WritersBefore, Offer, NewWriters, AfterFork,
      Wires, InOk, FinishTube, Finished, Recorded, Unique, TubesOpen, Spent, Paired, FdsOk;
    MidstStd(v, tr, me, ops, fd);
    SpawnFlow(v, tr, me, w, receive, argv, ops, fd);
    FinishShape(v, me, w, receive, argv);
    FamilySize(v.s.proc, tr.forks);
    if SourceOf(ops).Some? { TubeSpent(v, u, tr, me, w, receive, argv, ops, fd); }
    FinishFlow(v, u, ForkTrace(tr, me, ops), me, w, receive, argv);
  }

  // ---- A refusal ----

  /** The command reaches a zero jump exactly when the operators before its refusal name its
      own slot. */
  lemma {:induction false} RenewsIff(pick: Allocator, v: Server, me: int, w: Wiring, receive: Option<int>, done: seq<TubeOp>, ops: seq<TubeOp>)
    requires TubeFits(v.s, ops)
    ensures var n := Accepted(pick, v, me, w, receive, ops);
      v.s.count in Named(v.s.count, done + ops[..n]) <==>
      (v.s.count in Named(v.s.count, done) || Renews(pick, v, me, w, receive, ops))
    decreases |ops|
  {
    hide ApplyTubeOp, TubeFits, Named;
    if ops == [] {
      assert done + ops[..0] == done;
    } else {
      ApplyTubeStep(pick, v, me, w, receive, ops);
      var r := ApplyTubeOp(pick, v, me, w, receive, ops[0]);
      if r.Wired? {
        SameCount(pick, v, me, w, receive, ops[0]);
        Snoc(done, ops[0], v.s.count);
        RenewsIff(pick, r.v, me, r.w, r.receive, done + [ops[0]], ops[1..]);
        var n := Accepted(pick, r.v, me, r.w, r.receive, ops[1..]);
        assert done + [ops[0]] + ops[1..][..n] == done + ops[..n + 1];
      } else {
        assert done + ops[..0] == done;
      }
    }
  }

  lemma {:induction false} SameCount(pick: Allocator, v: Server, me: int, w: Wiring, receive: Option<int>, op: TubeOp)
    requires TubeOpFits(v.s, op)
    ensures ApplyTubeOp(pick, v, me, w, receive, op).v.s.count == v.s.count
  {
  }

  /** Renewing a slot that nobody behind the cursor waits for changes no child's flow. */
  lemma {:induction false} FamilyVoids(p: Proc, forks: seq<Fork>, slot: nat)
    requires Family(p, forks) && |forks| <= slot
    ensures Family(p, VoidAll(forks, slot))
  {
    var after := VoidAll(forks, slot);
    forall k | 0 <= k < |after|
      ensures ChildFlow(p, after, k) && Spent(p, k)
    {
      assert ChildFlow(p, forks, k) && Spent(p, k);
      assert after[k] == Voided(forks[k], k, slot);
      forall j | 0 <= j < |after|
        ensures k in after[j].named <==> k in forks[j].named
        ensures after[j].out == Ahead(k - j) <==> forks[j].out == Ahead(k - j)
        ensures after[j].err == Ahead(k - j) <==> forks[j].err == Ahead(k - j)
      {
        assert after[j] == Voided(forks[j], j, slot);
      }
    }
  }

  lemma {:induction false} WithinVoids(forks: seq<Fork>, named: set<int>, more: set<int>, slot: nat)
    requires Within(forks, named) && named <= more
    ensures Within(VoidAll(forks, slot), more)
  {
    var after := VoidAll(forks, slot);
    forall j | 0 <= j < |after|
      ensures after[j].named <= more && AimsWithin(after[j].out, j, more) && AimsWithin(after[j].err, j, more) &&
              (after[j].writer.Some? ==> after[j].writer.value <= j)
    {
      assert after[j] == Voided(forks[j], j, slot);
    }
  }

  lemma {:induction false} SlotVoids(p: Proc, forks: seq<Fork>, slot: Slot, k: int, gone: nat)
    requires |forks| == |p.children| && SlotFlow(p, forks, slot, k) && k != gone
    ensures SlotFlow(p, VoidAll(forks, gone), slot, k)
  {
    var after := VoidAll(forks, gone);
    forall j | 0 <= j < |after|
      ensures Tied(p, after[j], j, p.fds[slot.write].pipe, k)
    {
      assert after[j] == Voided(forks[j], j, gone) && Tied(p, forks[j], j, p.fds[slot.write].pipe, k);
    }
  }

  lemma {:induction false} SlotUnwritten(p: Proc, forks: seq<Fork>, slot: Slot, k: nat)
    requires |forks| == |p.children| && slot.write in p.fds && Unwritten(p, p.fds[slot.write].pipe)
    ensures SlotFlow(p, VoidAll(forks, k), slot, k)
  {
    var after := VoidAll(forks, k);
    forall j | 0 <= j < |after|
      ensures Tied(p, after[j], j, p.fds[slot.write].pipe, k)
    {
      assert after[j] == Voided(forks[j], j, k);
      assert Untied(p, j, p.fds[slot.write].pipe);
    }
  }

  lemma {:induction false} SlotsVoid(s: State, forks: seq<Fork>, named: set<int>)
    requires Slots(s, forks, named, s.count + 1) && OwnSlot(s, true) && s.count in named
    ensures Slots(s, VoidAll(forks, s.count), named, s.count)
  {
    hide SlotFlow, Unwritten;
    forall k: nat | s.count <= k < |s.table| && s.table[k] != EMPTY
      ensures SlotFlow(s.proc, VoidAll(forks, s.count), s.table[k], k)
    {
      if k == s.count { SlotUnwritten(s.proc, forks, s.table[k], k); } else { SlotVoids(s.proc, forks, s.table[k], k, s.count); }
    }
  }

  lemma {:induction false} RefuseFlow(v: Server, tr: Trace, me: int, done: seq<TubeOp>, fd: int, stranded: bool)
    requires Midst(v, tr, me, done, fd) && AtCursor(v.s, stranded)
    requires stranded == (fd != 0 && v.s.count !in Named(v.s.count, done))
    ensures Flow(v, RefuseTrace(tr, me, done), stranded)
  {
    hide TubeBooks.Books, Tidy, AheadWhole, Family, EndsMade, Within, TubesFed, NewWriters, SlotFlow, Unwritten;
    var t, k, named := RefuseTrace(tr, me, done), v.s.count, tr.named + Named(v.s.count, done);
    assert WritersBefore(t.writers, |t.forks|) by { NoneBefore(tr.writers, me, done, |tr.forks|); }
    if k in Named(k, done) {
      FamilyVoids(v.s.proc, tr.forks, k);
      WithinVoids(tr.forks, tr.named, named, k);
      SlotsVoid(v.s, tr.forks, named);
    } else {
      assert Within(tr.forks, named) by { WithinMore(tr.forks, tr.named, named); }
    }
  }

  lemma {:induction false} WithinMore(forks: seq<Fork>, named: set<int>, more: set<int>)
    requires Within(forks, named) && named <= more
    ensures Within(forks, more)
  {
  }

  lemma {:induction false} NoneBefore(writers: Writers, me: int, done: seq<TubeOp>, n: nat)
    requires WritersBefore(writers, n)
    ensures WritersBefore(writers + NewWriters(me, done, None), n)
  {
  }

  // ---- Commands, lines and runs ----

  lemma {:induction false} StepFlow(pick: Allocator, v: Server, me: int, receive: Option<int>, c: TubeCommand, tr: Trace)
    requires Sound(pick) && Sane(v, false) && Tidy(v.s) && Flow(v, tr, false) && TubeFits(v.s, c.ops)
    ensures var r := StepTube(pick, v, me, receive, c);
      Flow(r.v, StepTrace(pick, v, me, receive, c, tr), r.Stopped? && Strands(pick, v, me, receive, c))
  {
    hide Flow, Midst, Wires, InOk, ApplyTube, TubeFits, Renews, Begin, FinishTube, AheadWhole, AtCursor, Tidy, TubeBooks.Books,
      RefuseTrace, ForkTrace;
    FitsHere(v.s, c.ops);
    BeginFits(v.s, c.ops);
    StepSane(pick, v, me, receive, c);
    BeginMidst(v, tr, me, c.ops);
    var b, w, fd := v.(s := Begin(v.s)), FirstTubeWiring(v.s, c.ops), Stdin(v.s);
    var n, r := Accepted(pick, b, me, w, receive, c.ops), ApplyTube(pick, b, me, w, receive, c.ops);
    ApplyMidst(pick, b, tr, me, w, receive, [], c.ops, fd);
    RenewsIff(pick, b, me, w, receive, [], c.ops);
    assert [] + c.ops[..n] == c.ops[..n] && [] + c.ops == c.ops;
    if r.Wired? {
      assert c.ops[..n] == c.ops;
      RanFlow(r.v, FinishTube(r.v, me, r.w, r.receive, c.argv), tr, me, r.w, r.receive, c.argv, c.ops, fd);
    } else {
      RefuseFlow(r.v, tr, me, c.ops[..n], fd, Strands(pick, v, me, receive, c));
    }
  }

  ghost predicate Flows(v: Server, tr: Trace, stranded: bool) {
    Sane(v, stranded) && Tidy(v.s) && Flow(v, tr, stranded)
  }

  lemma {:induction false} LineFlow(pick: Allocator, v: Server, me: int, receive: Option<int>, cmds: seq<TubeCommand>, stranded: bool, tr: Trace)
    requires Sound(pick) && Flows(v, tr, stranded) && TubeStreamFits(v.s, cmds)
    requires LineClear(pick, v, me, receive, cmds, stranded)
    ensures Flows(RunTubeLine(pick, v, me, receive, cmds), LineTrace(pick, v, me, receive, cmds, tr),
                  LineStrands(pick, v, me, receive, cmds, stranded))
    decreases |cmds|
  {
    hide Sane, Tidy, Flow, StepTube, TubeFits, TubeStreamFits, Strands, StepTrace;
    if cmds != [] {
      TubeStreamTail(pick, v, me, receive, cmds);
      StepTidy(pick, v, me, receive, cmds[0]);
      StepSane(pick, v, me, receive, cmds[0]);
      StepFlow(pick, v, me, receive, cmds[0], tr);
      var r := StepTube(pick, v, me, receive, cmds[0]);
      if r.Ran? { LineFlow(pick, r.v, me, r.receive, cmds[1..], false, StepTrace(pick, v, me, receive, cmds[0], tr)); }
    }
  }

  lemma {:induction false} StepTidy(pick: Allocator, v: Server, me: int, receive: Option<int>, c: TubeCommand)
    requires Sound(pick) && Sane(v, false) && Tidy(v.s) && TubeFits(v.s, c.ops)
    ensures Tidy(StepTube(pick, v, me, receive, c).v.s)
  {
    hide Recorded, TubesOpen, Unique, ApplyTube, TubeFits, Paired, FdsOk, FinishTube;
    FitsHere(v.s, c.ops);
    BeginFits(v.s, c.ops);
    BeginBooks(v);
    BeginTidy(v.s);
    var b, w := v.(s := Begin(v.s)), FirstTubeWiring(v.s, c.ops);
    ApplyTidy(pick, b, me, w, receive, c.ops);
    var r := ApplyTube(pick, b, me, w, receive, c.ops);
    if r.Wired? { FinishTidy(r.v, me, r.w, r.receive, c.argv); }
  }

  lemma {:induction false} DeletedFlow(v: Server, key: Key, tr: Trace, stranded: bool)
    requires Flows(v, tr, stranded) && Sane(Deleted(v, key), stranded)
    ensures Flows(Deleted(v, key), tr, stranded)
  {
    hide Family, EndsMade, Within, Slots, TubesFed, WritersBefore, Recorded, TubesOpen, Unique;
    var u := Deleted(v, key);
    CloseAllFds(v.s.proc, HitFds(v.tubes, key));
    TidyShrinks(v.s, u.s);
    FamilyShrinks(v.s.proc, u.s.proc, tr.forks);
    forall e: Entry { WithoutFrom(v.tubes, key, e); }
    TubesShrink(v, u, tr.writers);
    var lo := if stranded then v.s.count + 1 else v.s.count;
    assert forall k | lo <= k < |v.s.table| :: Whole(v.s.table[k]);
    SlotsStay(v.s, u.s, tr.forks, tr.named, lo);
  }

  lemma {:induction false} OtherEventFlow(pick: Allocator, v: Server, e: Event, stranded: bool, tr: Trace)
    requires Flows(v, tr, stranded) && !e.Line? && EventFits(v, e)
    ensures Flows(NextServer(pick, v, e), tr, stranded)
  {
    hide Recorded, TubesOpen, Unique, Slots, Family, TubesFed, Tidy, EndsMade, Within, WritersBefore;
    OtherEventSane(pick, v, e, stranded);
    match e {
      case Connect(fd) => SameFlow(v, NextServer(pick, v, e), tr, stranded);
      case Disconnect(fd) =>
        SaneUsers(Deleted(v, From(fd)), NextServer(pick, v, e), stranded);
        DeletedFlow(v, From(fd), tr, stranded);
        SameFlow(Deleted(v, From(fd)), NextServer(pick, v, e), tr, stranded);
    }
  }

  lemma {:induction false} SaneUsers(v: Server, u: Server, stranded: bool)
    requires u == v.(users := u.users)
    ensures Sane(u, stranded) == Sane(v, stranded)
  {
  }

  lemma {:induction false} SameFlow(v: Server, u: Server, tr: Trace, stranded: bool)
    requires Flows(v, tr, stranded) && u == v.(users := u.users)
    ensures Flows(u, tr, stranded)
  {
    hide Slots, Family, TubeFed, Tidy, EndsMade, Within, WritersBefore;
    SaneUsers(v, u, stranded);
  }

  lemma {:induction false} RunFlow(pick: Allocator, v: Server, events: seq<Event>, stranded: bool, tr: Trace)
    requires Sound(pick) && Flows(v, tr, stranded) && EventsFit(pick, v, events)
    requires NothingAfterStranding(pick, v, events, stranded)
    ensures var t := RunTrace(pick, v, events, tr);
      Flows(RunServer(pick, v, events), t, false) || Flows(RunServer(pick, v, events), t, true)
    decreases |events|
  {
    hide Flows, LineClear, LineStrands, LineTrace, RunTubeLine, TubeStreamFits;
    if events != [] {
      var u, rest := NextServer(pick, v, events[0]), events[1..];
      match events[0] {
        case Line(me, cmds) =>
          LineFlow(pick, v, me, None, cmds, stranded, tr);
          RunFlow(pick, u, rest, LineStrands(pick, v, me, None, cmds, stranded), LineTrace(pick, v, me, None, cmds, tr));
        case _ =>
          OtherEventFlow(pick, v, events[0], stranded, tr);
          RunFlow(pick, u, rest, stranded, tr);
      }
    }
  }
}
