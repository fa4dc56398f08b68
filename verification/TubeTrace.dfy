/** What the commands of a run of the single-process server say about its children, without
    any descriptors: who forked them, what they read and write, and which slots had been
    named when they were forked. The numbered pipes are shared by all users. */
module TubeTrace {
  import opened Text
  import opened Kernel
  import opened NumberedPipes
  import opened Tubes
  import opened TubeRuns
  import opened UserList
  import opened SingleHandler
  import opened TubeBooks
  import opened TubeServer

  /** Where an output stream goes. `Lost` is the pipe of a slot that was made anew before
      anybody read it. */
  datatype Outlet = Own | Ahead(distance: int) | Saved(name: string) | ToTube(peer: int) | Lost

  /** Where standard output goes: the last `|N`, `!N`, `> file` or `>n` says. */
  function OutletOf(ops: seq<TubeOp>): Outlet {
    if ops == [] then Own
    else
      var front := ops[..|ops| - 1];
      match ops[|ops| - 1]
      case Num(op) =>
        (match op
         case Bar(n) => Ahead(n)
         case Bang(n) => Ahead(n)
         case Out(f) => Saved(f)
         case Err(_) => OutletOf(front))
      case SendTo(n) => ToTube(n)
      case ReceiveFrom(_) => OutletOf(front)
  }

  /** Where standard error goes: the last `!N` or `>& file` says. */
  function ErrletOf(ops: seq<TubeOp>): (o: Outlet)
    ensures !o.ToTube? && o != Lost
  {
    if ops == [] then Own
    else
      var front := ops[..|ops| - 1];
      match ops[|ops| - 1]
      case Num(op) =>
        (match op
         case Bar(_) => ErrletOf(front)
         case Bang(n) => Ahead(n)
         case Out(_) => ErrletOf(front)
         case Err(f) => Saved(f))
      case SendTo(_) => ErrletOf(front)
      case ReceiveFrom(_) => ErrletOf(front)
  }

  /** The last `<n`. */
  function SourceOf(ops: seq<TubeOp>): Option<int> {
    if ops == [] then None
    else if ops[|ops| - 1].ReceiveFrom? then Some(ops[|ops| - 1].peer)
    else SourceOf(ops[..|ops| - 1])
  }

  /** The slots that the operators of the command at index `at` name. */
  function Named(at: int, ops: seq<TubeOp>): set<int> {
    if ops == [] then {} else Named(at, ops[..|ops| - 1]) + NamedOne(at, ops[|ops| - 1])
  }

  function NamedOne(at: int, op: TubeOp): set<int> {
    if op.Num? && HasJump(op.op) then {at + op.op.jump} else {}
  }

  /** The users that the operators send to. */
  function SentTo(ops: seq<TubeOp>): set<int> {
    if ops == [] then {}
    else SentTo(ops[..|ops| - 1]) + if ops[|ops| - 1].SendTo? then {ops[|ops| - 1].peer} else {}
  }

  /** A child: its user, the user it receives from, its output and error streams, whether a
      numbered pipe was waiting for it, the slots named by all commands up to its own, and, if
      it receives, the child that writes its tube. */
  datatype Fork = Fork(
    me: int, source: Option<int>, out: Outlet, err: Outlet, fed: bool, named: set<int>, writer: Option<nat>)

  type Writers = map<(int, int), Option<nat>>

  datatype Trace = Trace(forks: seq<Fork>, named: set<int>, writers: Writers)

  const NO_TRACE := Trace([], {}, map[])

  function WriterOf(writers: Writers, sender: int, receiver: int): Option<nat> {
    if (sender, receiver) in writers then writers[(sender, receiver)] else None
  }

  /** The tubes that the command makes, with their writer. */
  function NewWriters(me: int, ops: seq<TubeOp>, writer: Option<nat>): Writers {
    map n | n in SentTo(ops) :: (me, n) := if OutletOf(ops) == ToTube(n) then writer else None
  }

  /** The pipe of the slot is made anew: who wrote to the old one writes to nobody. */
  function Voided(f: Fork, j: nat, slot: int): Fork {
    f.(named := f.named - {slot}, out := Cut(f.out, slot - j), err := Cut(f.err, slot - j))
  }

  function Cut(o: Outlet, distance: int): Outlet {
    if o == Ahead(distance) then Lost else o
  }

  function VoidAll(forks: seq<Fork>, slot: int): (r: seq<Fork>)
    ensures |r| == |forks| && forall j | 0 <= j < |r| :: r[j] == Voided(forks[j], j, slot)
  {
    seq(|forks|, j requires 0 <= j < |forks| => Voided(forks[j], j, slot))
  }

  /** A forked command with the operators `ops`. */
  function ForkTrace(tr: Trace, me: int, ops: seq<TubeOp>): Trace {
    var k, named := |tr.forks|, tr.named + Named(|tr.forks|, ops);
    var writers := tr.writers + NewWriters(me, ops, Some(k));
    var source := SourceOf(ops);
    var writer := if source.Some? then WriterOf(writers, source.value, me) else None;
    Trace(tr.forks + [Fork(me, source, OutletOf(ops), ErrletOf(ops), k in tr.named, named, writer)], named, writers)
  }

  /** A refused command of which the operators `ops` had been applied. */
  function RefuseTrace(tr: Trace, me: int, ops: seq<TubeOp>): Trace {
    var k := |tr.forks|;
    Trace(if k in Named(k, ops) then VoidAll(tr.forks, k) else tr.forks, tr.named + Named(k, ops),
          tr.writers + NewWriters(me, ops, None))
  }

  /** How many operators are applied before a refusal. */
  function Accepted(pick: Allocator, v: Server, me: int, w: Wiring, receive: Option<int>, ops: seq<TubeOp>): (n: nat)
    requires TubeFits(v.s, ops)
    ensures n <= |ops|
    ensures n == |ops| <==> ApplyTube(pick, v, me, w, receive, ops).Wired?
    decreases |ops|
  {
    if ops == [] then 0
    else
      ApplyTubeStep(pick, v, me, w, receive, ops);
      var r := ApplyTubeOp(pick, v, me, w, receive, ops[0]);
      if r.Refused? then 0 else 1 + Accepted(pick, r.v, me, r.w, r.receive, ops[1..])
  }

  function StepTrace(pick: Allocator, v: Server, me: int, receive: Option<int>, c: TubeCommand, tr: Trace): Trace
    requires TubeFits(v.s, c.ops)
  {
    BeginFits(v.s, c.ops);
    var n := Accepted(pick, v.(s := Begin(v.s)), me, FirstTubeWiring(v.s, c.ops), receive, c.ops);
    if StepTube(pick, v, me, receive, c).Ran? then ForkTrace(tr, me, c.ops) else RefuseTrace(tr, me, c.ops[..n])
  }

  function LineTrace(pick: Allocator, v: Server, me: int, receive: Option<int>, cmds: seq<TubeCommand>, tr: Trace): Trace
    requires TubeStreamFits(v.s, cmds)
    decreases |cmds|
  {
    if cmds == [] then tr
    else
      TubeStreamTail(pick, v, me, receive, cmds);
      var t := StepTrace(pick, v, me, receive, cmds[0], tr);
      match StepTube(pick, v, me, receive, cmds[0])
      case Stopped(_) => t
      case Ran(u, rec) => LineTrace(pick, u, me, rec, cmds[1..], t)
  }

  function RunTrace(pick: Allocator, v: Server, events: seq<Event>, tr: Trace): Trace
    requires EventsFit(pick, v, events)
    decreases |events|
  {
    if events == [] then tr
    else
      var t := match events[0]
        case Line(me, cmds) => LineTrace(pick, v, me, None, cmds, tr)
        case _ => tr;
      RunTrace(pick, NextServer(pick, v, events[0]), events[1..], t)
  }

  // ---- Snoc ----

  lemma {:induction false} Snoc(ops: seq<TubeOp>, op: TubeOp, at: int)
    ensures Named(at, ops + [op]) == Named(at, ops) + NamedOne(at, op)
    ensures SentTo(ops + [op]) == SentTo(ops) + if op.SendTo? then {op.peer} else {}
    ensures SourceOf(ops + [op]) == if op.ReceiveFrom? then Some(op.peer) else SourceOf(ops)
    ensures OutletOf(ops + [op]) ==
      match op
      case Num(o) =>
        (match o
         case Bar(n) => Ahead(n)
         case Bang(n) => Ahead(n)
         case Out(f) => Saved(f)
         case Err(_) => OutletOf(ops))
      case SendTo(n) => ToTube(n)
      case ReceiveFrom(_) => OutletOf(ops)
    ensures ErrletOf(ops + [op]) ==
      if op.Num? && op.op.Bang? then Ahead(op.op.jump)
      else if op.Num? && op.op.Err? then Saved(op.op.file)
      else ErrletOf(ops)
  {
    assert (ops + [op])[..|ops|] == ops;
  }
}
