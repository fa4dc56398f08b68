/** The numbered-pipe machine of `handler` (NP_Project1/src/shell.c:67-180) as a
    function on values: one command at a time, on an unbounded stream of commands. */
module NumberedPipes {
  import opened Kernel

  const PIPE_NUMBER := 10000

  /** The two descriptors of one row of `pipe_table`; 0 marks an empty entry. */
  datatype Slot = Slot(read: int, write: int)

  const EMPTY := Slot(0, 0)

  /** One operator after a command: `|N`, `!N`, `> file` or `>& file`. */
  datatype Op = Bar(jump: int) | Bang(jump: int) | Out(file: string) | Err(file: string)

  datatype Command = Command(argv: seq<string>, ops: seq<Op>)

  datatype Target = Terminal | Fd(fd: int) | ToFile(name: string)

  /** The source's `Command` struct: where the next child's streams will go. */
  datatype Wiring = Wiring(stdin: int, stdout: Target, stderr: Target, isWait: bool)

  datatype State = State(table: seq<Slot>, count: nat, proc: Proc)

  function Init(): State {
    State(seq(PIPE_NUMBER, _ => EMPTY), 0, NEW_PROC)
  }

  predicate HasJump(op: Op) {
    op.Bar? || op.Bang?
  }

  /** Every slot a command names lies inside `pipe_table`: the source indexes it unchecked. */
  predicate OpFits(s: State, op: Op) {
    HasJump(op) ==> 0 <= s.count + op.jump < |s.table|
  }

  predicate Fits(s: State, ops: seq<Op>) {
    s.count < |s.table| && forall i | 0 <= i < |ops| :: OpFits(s, ops[i])
  }

  // ---- The steps of one command ----

  function OpenSlot(pick: Allocator, s: State, k: nat): State
    requires k < |s.table|
  {
    var (proc, r, w) := OpenPipe(pick, s.proc, k);
    s.(table := s.table[k := Slot(r, w)], proc := proc)
  }

  function ShutWrite(s: State): State
    requires s.count < |s.table|
  {
    var slot := s.table[s.count];
    s.(table := s.table[s.count := slot.(write := 0)], proc := CloseFd(s.proc, slot.write))
  }

  function ShutRead(s: State): State
    requires s.count < |s.table|
  {
    var slot := s.table[s.count];
    s.(table := s.table[s.count := slot.(read := 0)], proc := CloseFd(s.proc, slot.read))
  }

  /** Reaching a slot: take its read end as standard input and close its write end. */
  function Begin(s: State): State
    requires s.count < |s.table|
  {
    if s.table[s.count].read != 0 then ShutWrite(s) else s
  }

  function Stdin(s: State): int
    requires s.count < |s.table|
  {
    s.table[s.count].read
  }

  function Reserve(pick: Allocator, s: State, op: Op): State
    requires OpFits(s, op)
  {
    if HasJump(op) && s.table[s.count + op.jump].write == 0
    then OpenSlot(pick, s, s.count + op.jump)
    else s
  }

  /** `s` is the state after `Reserve`. */
  function Wire(s: State, w: Wiring, op: Op): Wiring
    requires OpFits(s, op)
  {
    match op
    case Bar(n) => w.(stdout := Fd(s.table[s.count + n].write))
    case Bang(n) => w.(stdout := Fd(s.table[s.count + n].write), stderr := Fd(s.table[s.count + n].write))
    case Out(f) => w.(stdout := ToFile(f), isWait := true)
    case Err(f) => w.(stderr := ToFile(f), isWait := true)
  }

  function Apply(pick: Allocator, s: State, w: Wiring, ops: seq<Op>): (r: (State, Wiring))
    requires Fits(s, ops)
    ensures r.0.count == s.count && |r.0.table| == |s.table|
    decreases |ops|
  {
    if ops == [] then (s, w)
    else
      var s1 := Reserve(pick, s, ops[0]);
      assert forall i | 0 <= i < |ops[1..]| :: OpFits(s1, ops[1..][i]) by {
        assert forall i | 0 <= i < |ops[1..]| :: ops[1..][i] == ops[i + 1];
      }
      Apply(pick, s1, Wire(s1, w, ops[0]), ops[1..])
  }

  function TargetPort(p: Proc, t: Target): Port {
    match t
    case Terminal => Default
    case Fd(fd) => PortOf(p, fd)
    case ToFile(f) => File(f)
  }

  /** The child's standard input is the descriptor `stdin`, by `dup2` unless it is 0 already. */
  function Spawn(s: State, w: Wiring, argv: seq<string>): State {
    s.(proc := Fork(s.proc, argv, PortOf(s.proc, w.stdin), TargetPort(s.proc, w.stdout), TargetPort(s.proc, w.stderr), w.isWait))
  }

  /** Fork, close the read end that was handed over, move the cursor. */
  function Finish(s: State, w: Wiring, argv: seq<string>): State
    requires s.count < |s.table|
  {
    var s1 := Spawn(s, w, argv);
    var s2 := if s1.table[s1.count].read != 0 then ShutRead(s1) else s1;
    s2.(count := s2.count + 1)
  }

  function FirstWiring(s: State, ops: seq<Op>): Wiring
    requires s.count < |s.table|
  {
    Wiring(Stdin(s), Terminal, Terminal, ops == [])
  }

  function Step(pick: Allocator, s: State, c: Command): (r: State)
    requires Fits(s, c.ops)
    ensures r.count == s.count + 1 && |r.table| == |s.table|
  {
    var b := Begin(s);
    assert forall i | 0 <= i < |c.ops| :: OpFits(s, c.ops[i]) ==> OpFits(b, c.ops[i]);
    var (m, w) := Apply(pick, b, FirstWiring(s, c.ops), c.ops);
    Finish(m, w, c.argv)
  }

  /** A whole stream of commands stays inside the table. */
  predicate StreamFits(s: State, cmds: seq<Command>) {
    s.count + |cmds| <= |s.table| &&
    forall i | 0 <= i < |cmds| :: JumpsFit(|s.table|, s.count + i, cmds[i].ops)
  }

  predicate JumpsFit(size: nat, at: nat, ops: seq<Op>) {
    forall i | 0 <= i < |ops| :: HasJump(ops[i]) ==> 0 <= at + ops[i].jump < size
  }

  function Run(pick: Allocator, s: State, cmds: seq<Command>): (r: State)
    requires StreamFits(s, cmds)
    ensures r.count == s.count + |cmds| && |r.table| == |s.table|
    decreases |cmds|
  {
    if cmds == [] then s
    else
      StreamFitsTail(pick, s, cmds);
      Run(pick, Step(pick, s, cmds[0]), cmds[1..])
  }

  lemma {:induction false} StreamFitsTail(pick: Allocator, s: State, cmds: seq<Command>)
    requires StreamFits(s, cmds) && cmds != []
    ensures Fits(s, cmds[0].ops)
    ensures StreamFits(Step(pick, s, cmds[0]), cmds[1..])
  {
    assert JumpsFit(|s.table|, s.count + 0, cmds[0].ops);
    assert Fits(s, cmds[0].ops);
    var s1 := Step(pick, s, cmds[0]);
    forall i | 0 <= i < |cmds[1..]|
      ensures JumpsFit(|s1.table|, s1.count + i, cmds[1..][i].ops)
    {
      assert JumpsFit(|s.table|, s.count + (i + 1), cmds[i + 1].ops);
    }
  }

  // ---- What the commands ask for, without any descriptors ----

  datatype Sink = Screen | Jump(distance: int) | Disk(name: string)

  /** Standard output goes where the last `|`, `!` or `>` says. */
  function StdoutOf(ops: seq<Op>): Sink {
    if ops == [] then Screen
    else
      match ops[|ops| - 1]
      case Bar(n) => Jump(n)
      case Bang(n) => Jump(n)
      case Out(f) => Disk(f)
      case Err(_) => StdoutOf(ops[..|ops| - 1])
  }

  /** Standard error goes where the last `!` or `>&` says. */
  function StderrOf(ops: seq<Op>): Sink {
    if ops == [] then Screen
    else
      match ops[|ops| - 1]
      case Bang(n) => Jump(n)
      case Err(f) => Disk(f)
      case _ => StderrOf(ops[..|ops| - 1])
  }

  /** Some operator of the command names the slot `n` positions ahead. */
  predicate Names(ops: seq<Op>, n: int) {
    Bar(n) in ops || Bang(n) in ops
  }

  predicate Redirects(ops: seq<Op>) {
    exists i | 0 <= i < |ops| :: !HasJump(ops[i])
  }

  /** The shell waits for a command without operators, or with a redirection to a file. */
  predicate Waits(ops: seq<Op>) {
    ops == [] || Redirects(ops)
  }

  predicate Forward(c: Command) {
    forall i | 0 <= i < |c.ops| :: HasJump(c.ops[i]) ==> c.ops[i].jump >= 1
  }

  predicate AllForward(cmds: seq<Command>) {
    forall i | 0 <= i < |cmds| :: Forward(cmds[i])
  }

  /** Some command of the stream names slot `k`. */
  ghost predicate Fed(cmds: seq<Command>, k: int) {
    exists j | 0 <= j < |cmds| :: Names(cmds[j].ops, k - j)
  }

  // ---- The invariant between commands ----

  function EndIn(slot: Slot, e: End): int {
    if e.ReadEnd? then slot.read else slot.write
  }

  ghost predicate PipesInTable(s: State) {
    forall p | 0 <= p < |s.proc.pipes| :: 0 <= s.proc.pipes[p] < |s.table|
  }

  /** Every open descriptor is the one its pipe's slot records. */
  ghost predicate Owned(s: State)
    requires PipesInTable(s)
  {
    forall fd | fd in s.proc.fds ::
      2 < fd && s.proc.fds[fd].pipe < |s.proc.pipes| &&
      EndIn(s.table[s.proc.pipes[s.proc.fds[fd].pipe]], s.proc.fds[fd]) == fd
  }

  ghost predicate Holds(s: State, fd: int, k: int, reading: bool) {
    fd in s.proc.fds && s.proc.fds[fd].ReadEnd? == reading &&
    s.proc.fds[fd].pipe < |s.proc.pipes| && s.proc.pipes[s.proc.fds[fd].pipe] == k
  }

  /** Every nonzero entry of the table is an open descriptor of a pipe made for that slot. */
  ghost predicate Recorded(s: State) {
    forall k | 0 <= k < |s.table| ::
      (s.table[k].read != 0 ==> Holds(s, s.table[k].read, k, true)) &&
      (s.table[k].write != 0 ==> Holds(s, s.table[k].write, k, false))
  }

  ghost predicate OncePerSlot(p: Proc) {
    forall i, j | 0 <= i < j < |p.pipes| :: p.pipes[i] != p.pipes[j]
  }

  /** Every end is closed at most once, only while open, and none is lost; the standard
      streams are never closed. */
  ghost predicate Ledger(p: Proc) {
    && p.badCloses == 0 && p.std == STANDARD
    && (forall i, j | 0 <= i < j < |p.closed| :: p.closed[i] != p.closed[j])
    && (forall i | 0 <= i < |p.closed| :: p.closed[i].pipe < |p.pipes|)
    && (forall fd | fd in p.fds :: p.fds[fd] !in p.closed)
    && |p.closed| + |p.fds| == 2 * |p.pipes|
  }

  /** The number of nonzero entries of the table. */
  function OpenEnds(table: seq<Slot>): nat {
    if table == [] then 0
    else Ends(table[0]) + OpenEnds(table[1..])
  }

  function Ends(slot: Slot): nat {
    (if slot.read != 0 then 1 else 0) + (if slot.write != 0 then 1 else 0)
  }

  /** The number of slots that hold something. */
  function Pending(table: seq<Slot>): nat {
    if table == [] then 0
    else (if table[0] != EMPTY then 1 else 0) + Pending(table[1..])
  }

  ghost predicate Books(s: State) {
    && PipesInTable(s)
    && Owned(s)
    && Recorded(s)
    && OncePerSlot(s.proc)
    && Ledger(s.proc)
    && |s.proc.fds| == OpenEnds(s.table)
  }

  predicate Whole(slot: Slot) {
    slot == EMPTY || (slot.read != 0 && slot.write != 0 && slot.read != slot.write)
  }

  /** Slots behind the cursor are empty; the others are empty or a full pair. */
  ghost predicate Window(s: State) {
    s.count <= |s.table| &&
    (forall k | 0 <= k < s.count :: s.table[k] == EMPTY) &&
    (forall k | s.count <= k < |s.table| :: Whole(s.table[k]))
  }

  ghost predicate Meets(p: Proc, port: Port, sink: Sink, at: nat) {
    match sink
    case Screen => port == Default
    case Disk(f) => port == File(f)
    case Jump(n) =>
      port.Piped? && port.end.WriteEnd? && port.end.pipe < |p.pipes| && p.pipes[port.end.pipe] == at + n
  }

  /** Child k reads the pipe of slot k if some command names that slot, and the default input otherwise. */
  ghost predicate Reads(p: Proc, cmds: seq<Command>, k: nat)
    requires k < |p.children|
  {
    var port := p.children[k].stdin;
    if Fed(cmds, k) then
      port.Piped? && port.end.ReadEnd? && port.end.pipe < |p.pipes| && p.pipes[port.end.pipe] == k
    else port == Default
  }

  /** Child k holds write ends of later slots only. */
  ghost predicate HoldsAhead(p: Proc, k: nat)
    requires k < |p.children|
  {
    forall e | e in p.children[k].held :: e.pipe < |p.pipes| && (e.WriteEnd? ==> p.pipes[e.pipe] > k)
  }

  ghost predicate ChildOk(p: Proc, cmds: seq<Command>, k: nat)
    requires k < |p.children| && k < |cmds|
  {
    && p.children[k].argv == cmds[k].argv
    && Reads(p, cmds, k)
    && Meets(p, p.children[k].stdout, StdoutOf(cmds[k].ops), k)
    && Meets(p, p.children[k].stderr, StderrOf(cmds[k].ops), k)
    && HoldsAhead(p, k)
    && p.children[k].waited == Waits(cmds[k].ops)
  }

  ghost predicate ChildrenOk(p: Proc, cmds: seq<Command>)
  {
    |p.children| == |cmds| && forall k | 0 <= k < |cmds| :: ChildOk(p, cmds, k)
  }

  /** The pipes ever made are those of the slots that commands named. */
  ghost predicate Made(p: Proc, cmds: seq<Command>) {
    forall k: int :: k in p.pipes <==> Fed(cmds, k)
  }

  /** Pipes of slots from `lo` on are still in the table. */
  ghost predicate Waiting(s: State, lo: nat)
    requires PipesInTable(s)
  {
    forall p | 0 <= p < |s.proc.pipes| && s.proc.pipes[p] >= lo :: s.table[s.proc.pipes[p]].write != 0
  }

  /** The state after the commands `cmds`, all run from the start. */
  ghost predicate Inv(s: State, cmds: seq<Command>) {
    && s.count == |cmds|
    && Books(s)
    && Window(s)
    && Waiting(s, s.count)
    && Made(s.proc, cmds)
    && ChildrenOk(s.proc, cmds)
  }
}
