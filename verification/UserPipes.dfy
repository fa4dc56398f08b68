/** The user pipes of the multi-process server: one shared cell per ordered pair of
    clients, tested and set without a lock by the two processes
    (NP_Project2/np_multi_proc_/src/shell.c:300-351 and 418-452).

    Every shared access is a step of its own and the steps of all processes interleave
    freely. What the registry answers and which commands of a line find a numbered pipe
    waiting are arbitrary inputs. */
module UserPipes {
  import opened Text

  type Id = int

  /** A submitted line: `<f` and `>t`, for every command whether a numbered pipe waits for
      it, and whether the last command has a numbered pipe as its output. */
  datatype Line = Line(receive: Option<Id>, send: Option<Id>, inputs: seq<bool>, jumps: bool)

  datatype Phase =
    | Idle
    | AskReceive(line: Line)
    | AskSend(line: Line)
    | Look(line: Line, i: nat)    // about to test the input cell for command i
    | Lower(line: Line, i: nat)   // the test said raised; about to clear
    | Fork(line: Line, i: nat)    // about to set the output cell and fork

  datatype State = State(
    cells: set<(Id, Id)>,             // the raised cells (from, to)
    procs: map<Id, Phase>,
    raised: multiset<(Id, Id)>,       // how often each cell was raised
    lowered: multiset<(Id, Id)>,      // and lowered,
    sent: multiset<(Id, Id)>,         // and its pipe opened by a child for `>t`
    received: multiset<(Id, Id)>)     // and by a child for `<f`

  const START := State({}, map[], multiset{}, multiset{}, multiset{}, multiset{})

  datatype Event = Submit(line: Line) | Go(found: bool)

  function PhaseOf(s: State, p: Id): Phase {
    if p in s.procs then s.procs[p] else Idle
  }

  /** `from_id` is the process's own id when the line has no `<f`. */
  function From(line: Line, p: Id): Id {
    match line.receive
    case Some(f) => f
    case None => p
  }

  type Cells = set<(Id, Id)>
  type Counts = multiset<(Id, Id)>

  predicate Last(line: Line, i: nat) {
    i + 1 >= |line.inputs|
  }

  /** The phase after one step of a process that is not idle. */
  function PhaseAfter(phase: Phase, p: Id, found: bool, cells: Cells): Phase
    requires !phase.Idle?
  {
    match phase
    case AskReceive(line) =>
      if line.receive.Some? && (!found || (line.receive.value, p) !in cells) then Idle else AskSend(line)
    case AskSend(line) =>
      if line.send.Some? && (!found || (p, line.send.value) in cells) then Idle else Look(line, 0)
    case Look(line, i) =>
      if i < |line.inputs| && !line.inputs[i] && (From(line, p), p) in cells then Lower(line, i) else Fork(line, i)
    case Lower(line, i) => Fork(line, i)
    case Fork(line, i) => if Last(line, i) then Idle else Look(line, i + 1)
  }

  /** The cell that the step raises: the output of the last command. */
  function Raises(phase: Phase, p: Id): Counts {
    if phase.Fork? && Last(phase.line, phase.i) && !phase.line.jumps && phase.line.send.Some?
    then multiset{(p, phase.line.send.value)} else multiset{}
  }

  function Lowers(phase: Phase, p: Id): Counts {
    if phase.Lower? then multiset{(From(phase.line, p), p)} else multiset{}
  }

  /** The last command's child opens the pipe it sends to, whatever its numbered output. */
  function Sends(phase: Phase, p: Id): Counts {
    if phase.Fork? && Last(phase.line, phase.i) && phase.line.send.Some?
    then multiset{(p, phase.line.send.value)} else multiset{}
  }

  /** The first command's child opens the received pipe. */
  function Receives(phase: Phase, p: Id): Counts {
    if phase.Fork? && phase.i == 0 && phase.line.receive.Some?
    then multiset{(phase.line.receive.value, p)} else multiset{}
  }

  function CellsAfter(phase: Phase, p: Id, cells: Cells): Cells {
    if phase.Fork? && Last(phase.line, phase.i) && !phase.line.jumps && phase.line.send.Some?
    then cells + {(p, phase.line.send.value)}
    else if phase.Lower? then cells - {(From(phase.line, p), p)}
    else cells
  }

  /** One atomic step of process p. */
  function Next(s: State, p: Id, e: Event): State {
    var phase := PhaseOf(s, p);
    if phase.Idle? then
      if e.Submit? then s.(procs := s.procs[p := AskReceive(e.line)]) else s
    else if e.Submit? then s
    else
      State(CellsAfter(phase, p, s.cells), s.procs[p := PhaseAfter(phase, p, e.found, s.cells)],
            s.raised + Raises(phase, p), s.lowered + Lowers(phase, p),
            s.sent + Sends(phase, p), s.received + Receives(phase, p))
  }

  function Run(s: State, events: seq<(Id, Event)>): State
    decreases |events|
  {
    if events == [] then s else Run(Next(s, events[0].0, events[0].1), events[1..])
  }

  // ---- Ownership of the transitions ----

  /** A step of p raises only cells from p and lowers only cells to p. */
  lemma {:induction false} OnlyOwnCells(s: State, p: Id, e: Event, a: Id, b: Id)
    ensures (a, b) !in s.cells && (a, b) in Next(s, p, e).cells ==> a == p
    ensures (a, b) in s.cells && (a, b) !in Next(s, p, e).cells ==> b == p
  {
    hide PhaseOf;
  }

  lemma {:induction false} OthersKeepPhase(s: State, p: Id, e: Event, q: Id)
    requires q != p
    ensures PhaseOf(Next(s, p, e), q) == PhaseOf(s, q)
  {
  }

  // ---- No overwriting, for every line and every interleaving ----

  function Bit(s: State, a: Id, b: Id): nat {
    if (a, b) in s.cells then 1 else 0
  }

  /** Raises minus lowers of a cell is the cell. */
  ghost predicate Balanced(s: State) {
    forall a: Id, b: Id | a != b :: s.raised[(a, b)] == s.lowered[(a, b)] + Bit(s, a, b)
  }

  /** A process past its send check still has the cell to itself; one about to clear its
      input cell still finds it raised. */
  ghost predicate ChecksHold(s: State, p: Id) {
    match PhaseOf(s, p)
    case Look(line, _) => SendFree(s, p, line)
    case Lower(line, _) => SendFree(s, p, line) && (From(line, p), p) in s.cells
    case Fork(line, _) => SendFree(s, p, line)
    case _ => true
  }

  ghost predicate SendFree(s: State, p: Id, line: Line) {
    line.send.Some? && line.send.value != p ==> (p, line.send.value) !in s.cells
  }

  ghost predicate Safe(s: State) {
    Balanced(s) && forall p: Id :: ChecksHold(s, p)
  }

  lemma {:induction false} OthersChecksHold(s: State, p: Id, e: Event, q: Id)
    requires ChecksHold(s, q) && q != p
    ensures ChecksHold(Next(s, p, e), q)
  {
    hide Next;
    OnlyOwnCells(s, p, e, q, SendTarget(PhaseOf(s, q)));
    if PhaseOf(s, q).Lower? { OnlyOwnCells(s, p, e, From(PhaseOf(s, q).line, q), q); }
    OthersKeepPhase(s, p, e, q);
  }

  lemma {:induction false} OwnChecksHold(s: State, p: Id, e: Event)
    requires ChecksHold(s, p)
    ensures ChecksHold(Next(s, p, e), p)
  {
  }

  lemma {:induction false} BalanceStep(s: State, p: Id, e: Event, a: Id, b: Id)
    requires a != b && ChecksHold(s, p) && s.raised[(a, b)] == s.lowered[(a, b)] + Bit(s, a, b)
    ensures var t := Next(s, p, e); t.raised[(a, b)] == t.lowered[(a, b)] + Bit(t, a, b)
  {
  }

  lemma {:induction false} NextSafe(s: State, p: Id, e: Event)
    requires Safe(s)
    ensures Safe(Next(s, p, e))
  {
    hide Next, ChecksHold, Bit;
    var t := Next(s, p, e);
    forall q: Id
      ensures ChecksHold(t, q)
    {
      assert ChecksHold(s, q);
      if q == p { OwnChecksHold(s, p, e); } else { OthersChecksHold(s, p, e, q); }
    }
    forall a: Id, b: Id | a != b
      ensures t.raised[(a, b)] == t.lowered[(a, b)] + Bit(t, a, b)
    {
      assert ChecksHold(s, p);
      assert s.raised[(a, b)] == s.lowered[(a, b)] + Bit(s, a, b);
      BalanceStep(s, p, e, a, b);
    }
  }

  function SendTarget(phase: Phase): Id {
    if phase.Idle? || phase.line.send.None? then 0 else phase.line.send.value
  }

  lemma {:induction false} RunSafe(s: State, events: seq<(Id, Event)>)
    requires Safe(s)
    ensures Safe(Run(s, events))
    decreases |events|
  {
    if events != [] {
      NextSafe(s, events[0].0, events[0].1);
      RunSafe(Next(s, events[0].0, events[0].1), events[1..]);
    }
  }

  /** In every run, whatever the lines and the interleaving: a step that raises a cell
      between two different clients finds it clear, so no unread pipe is overwritten; a
      step that lowers one finds it raised; and raises minus lowers is the cell. */
  lemma {:induction false} NeverOverwritten(events: seq<(Id, Event)>, p: Id, e: Event, a: Id, b: Id)
    requires a != b
    ensures var s := Run(START, events);
      var t := Next(s, p, e);
      && (t.raised[(a, b)] != s.raised[(a, b)] ==> a == p && (a, b) !in s.cells && (a, b) in t.cells)
      && (t.lowered[(a, b)] != s.lowered[(a, b)] ==> b == p && (a, b) in s.cells && (a, b) !in t.cells)
      && s.raised[(a, b)] == s.lowered[(a, b)] + Bit(s, a, b)
  {
    hide Run, Next, ChecksHold, Bit;
    StartSafe();
    RunSafe(START, events);
    var s := Run(START, events);
    assert ChecksHold(s, p);
    StepFinds(s, p, e, a, b);
  }

  lemma {:induction false} StartSafe()
    ensures Safe(START)
  {
  }

  lemma {:induction false} StepFinds(s: State, p: Id, e: Event, a: Id, b: Id)
    requires a != b && ChecksHold(s, p)
    ensures var t := Next(s, p, e);
      && (t.raised[(a, b)] != s.raised[(a, b)] ==> a == p && (a, b) !in s.cells && (a, b) in t.cells)
      && (t.lowered[(a, b)] != s.lowered[(a, b)] ==> b == p && (a, b) in s.cells && (a, b) !in t.cells)
  {
    hide PhaseAfter, Sends, Receives;
    var phase := PhaseOf(s, p);
    if phase.Fork? {
      assert Lowers(phase, p) == multiset{};
    } else {
      assert Raises(phase, p) == multiset{};
    }
  }

  // ---- Sends and receives ----

  /** The commands of the line, up to n, that find no numbered pipe. */
  function Free(inputs: seq<bool>, n: nat): nat
    requires n <= |inputs|
  {
    if n == 0 then 0 else Free(inputs, n - 1) + (if inputs[n - 1] then 0 else 1)
  }

  /** A line with `<f` has exactly one command without a numbered pipe as its input. */
  predicate ReceivesOnce(p: Id, line: Line) {
    line.receive.Some? && line.receive.value != p ==> Free(line.inputs, |line.inputs|) == 1
  }

  /** The last command of a line with `>t` has no numbered pipe as its output. */
  predicate Delivers(p: Id, line: Line) {
    line.send.Some? && line.send.value != p ==> !line.jumps
  }

  predicate Good(p: Id, line: Line) {
    line.inputs != [] && ReceivesOnce(p, line) && Delivers(p, line)
  }

  lemma {:induction false} FreeOfRest(inputs: seq<bool>, n: nat)
    requires 0 < n <= |inputs| && !inputs[0] && forall i | 0 < i < |inputs| :: inputs[i]
    ensures Free(inputs, n) == 1
  {
    if n > 1 { FreeOfRest(inputs, n - 1); }
  }

  lemma {:induction false} FreeGrows(inputs: seq<bool>, m: nat, n: nat)
    requires m <= n <= |inputs|
    ensures Free(inputs, m) <= Free(inputs, n)
  {
    if m < n { FreeGrows(inputs, m, n - 1); }
  }

  predicate GoodEvents(events: seq<(Id, Event)>) {
    forall k | 0 <= k < |events| && events[k].1.Submit? :: Good(events[k].0, events[k].1.line)
  }

  /** By how much the receives of cell (a, b) are ahead of its lowers, given b's phase. */
  function Ahead(phase: Phase, a: Id): int {
    match phase
    case Look(line, i) => if line.receive == Some(a) && i <= |line.inputs| then Started(i) - Free(line.inputs, i) else 0
    case Lower(line, i) => if line.receive == Some(a) && i <= |line.inputs| then Started(i) - Free(line.inputs, i) else 0
    case Fork(line, i) => if line.receive == Some(a) && i < |line.inputs| then Started(i) - Free(line.inputs, i + 1) else 0
    case _ => 0
  }

  function Started(i: nat): int {
    if i > 0 then 1 else 0
  }

  /** While p has accepted `<f` and not yet lowered the cell, the cell stays raised. */
  ghost predicate Kept(s: State, p: Id) {
    match PhaseOf(s, p)
    case Idle => true
    case AskReceive(line) => Good(p, line)
    case AskSend(line) => Good(p, line) && Present(s, p, line, 0)
    case Look(line, i) => Good(p, line) && i < |line.inputs| && Present(s, p, line, i)
    case Lower(line, i) => Good(p, line) && i < |line.inputs| && !line.inputs[i] && Present(s, p, line, i)
    case Fork(line, i) => Good(p, line) && i < |line.inputs| && Present(s, p, line, i + 1)
  }

  ghost predicate Present(s: State, p: Id, line: Line, n: nat)
    requires n <= |line.inputs|
  {
    line.receive.Some? && line.receive.value != p && Free(line.inputs, n) == 0 ==> (line.receive.value, p) in s.cells
  }

  ghost predicate Counted(s: State) {
    && (forall p: Id :: Kept(s, p))
    && (forall a: Id, b: Id | a != b :: s.sent[(a, b)] == s.raised[(a, b)])
    && forall a: Id, b: Id | a != b ::
      s.received[(a, b)] == s.lowered[(a, b)] + Ahead(PhaseOf(s, b), a)
  }

  lemma {:induction false} KeptByOthers(s: State, p: Id, e: Event, q: Id)
    requires Kept(s, q) && q != p
    ensures Kept(Next(s, p, e), q)
  {
    OthersKeepPhase(s, p, e, q);
    var phase := PhaseOf(s, q);
    if !phase.Idle? && phase.line.receive.Some? {
      OnlyOwnCells(s, p, e, phase.line.receive.value, q);
    }
  }

  lemma {:induction false} KeptBySelf(s: State, p: Id, e: Event)
    requires Kept(s, p) && (e.Submit? ==> Good(p, e.line))
    ensures Kept(Next(s, p, e), p)
  {
    var phase := PhaseOf(s, p);
    if phase.Look? || phase.Lower? || phase.Fork? {
      var inputs := phase.line.inputs;
      assert Free(inputs, phase.i + 1) == Free(inputs, phase.i) + (if inputs[phase.i] then 0 else 1);
    }
  }

  lemma {:induction false} CountPhase(s: State, p: Id, found: bool, a: Id)
    requires Kept(s, p) && a != p && !PhaseOf(s, p).Idle?
    ensures var phase := PhaseOf(s, p);
      Ahead(PhaseAfter(phase, p, found, s.cells), a) + Lowers(phase, p)[(a, p)] ==
      Ahead(phase, a) + Receives(phase, p)[(a, p)]
  {
    var phase := PhaseOf(s, p);
    if phase.Look? || phase.Lower? || phase.Fork? {
      var inputs, i := phase.line.inputs, phase.i;
      assert Free(inputs, i + 1) == Free(inputs, i) + (if inputs[i] then 0 else 1);
      FreeGrows(inputs, i + 1, |inputs|);
    }
  }

  lemma {:induction false} CountStep(s: State, p: Id, e: Event, a: Id, b: Id)
    requires Counted(s) && a != b
    ensures var t := Next(s, p, e); t.received[(a, b)] == t.lowered[(a, b)] + Ahead(PhaseOf(t, b), a)
  {
    hide Ahead, Kept;
    assert s.received[(a, b)] == s.lowered[(a, b)] + Ahead(PhaseOf(s, b), a);
    if b != p {
      OthersKeepPhase(s, p, e, b);
    } else if !PhaseOf(s, p).Idle? && e.Go? {
      assert Kept(s, p);
      CountPhase(s, p, e.found, a);
    } else {
      AheadOfIdle(s, p, e, a);
    }
  }

  lemma {:induction false} AheadOfIdle(s: State, p: Id, e: Event, a: Id)
    requires PhaseOf(s, p).Idle? || e.Submit?
    ensures Ahead(PhaseOf(Next(s, p, e), p), a) == Ahead(PhaseOf(s, p), a)
  {
  }

  lemma {:induction false} NextCounted(s: State, p: Id, e: Event)
    requires Counted(s) && (e.Submit? ==> Good(p, e.line))
    ensures Counted(Next(s, p, e))
  {
    var t := Next(s, p, e);
    forall q: Id
      ensures Kept(t, q)
    {
      assert Kept(s, q);
      if q == p { KeptBySelf(s, p, e); } else { KeptByOthers(s, p, e, q); }
    }
    forall a: Id, b: Id | a != b
      ensures t.sent[(a, b)] == t.raised[(a, b)]
    {
      assert Kept(s, p);
    }
    forall a: Id, b: Id | a != b
      ensures t.received[(a, b)] == t.lowered[(a, b)] + Ahead(PhaseOf(t, b), a)
    {
      CountStep(s, p, e, a, b);
    }
  }

  lemma {:induction false} RunCounted(s: State, events: seq<(Id, Event)>)
    requires Counted(s) && GoodEvents(events)
    ensures Counted(Run(s, events))
    decreases |events|
  {
    if events != [] {
      NextCounted(s, events[0].0, events[0].1);
      assert forall k | 0 <= k < |events[1..]| :: events[1..][k] == events[k + 1];
      RunCounted(Next(s, events[0].0, events[0].1), events[1..]);
    }
  }

  /** For every interleaving of good lines: whenever the receiver is between lines, sends
      minus receives is the cell, 0 or 1; and a receiver that has been let through its
      check cannot lose the pipe before it clears the cell. */
  lemma {:induction false} SendsMinusReceives(events: seq<(Id, Event)>, a: Id, b: Id)
    requires GoodEvents(events) && a != b
    ensures var s := Run(START, events);
      && (PhaseOf(s, b).Idle? ==> s.sent[(a, b)] == s.received[(a, b)] + Bit(s, a, b))
      && (PhaseOf(s, b).AskSend? && PhaseOf(s, b).line.receive == Some(a) ==> (a, b) in s.cells)
  {
    RunSafe(START, events);
    RunCounted(START, events);
    var s := Run(START, events);
    assert Kept(s, b);
  }

  // ---- A bad line has a bad schedule ----

  /** A line of one command that only sends to p, with no numbered pipe waiting for it. */
  function SendLine(p: Id): Line {
    Line(None, Some(p), [false], false)
  }

  /** All steps of one `>p` by f. */
  function SendEvents(f: Id, p: Id): seq<(Id, Event)> {
    [(f, Submit(SendLine(p))), (f, Go(true)), (f, Go(true)), (f, Go(true)), (f, Go(true))]
  }

  lemma {:induction false} RunAppend(s: State, a: seq<(Id, Event)>, b: seq<(Id, Event)>)
    ensures Run(s, a + b) == Run(Run(s, a), b)
    decreases |a|
  {
    if a == [] {
      assert a + b == b;
    } else {
      assert (a + b)[1..] == a[1..] + b;
      RunAppend(Next(s, a[0].0, a[0].1), a[1..], b);
    }
  }

  /** What `Next` does to a process inside a line. */
  lemma {:induction false} GoStep(s: State, p: Id)
    requires !PhaseOf(s, p).Idle?
    ensures var t, phase := Next(s, p, Go(true)), PhaseOf(s, p);
      && Run(s, [(p, Go(true))]) == t
      && t.cells == CellsAfter(phase, p, s.cells)
      && PhaseOf(t, p) == PhaseAfter(phase, p, true, s.cells)
      && (forall q | q != p :: PhaseOf(t, q) == PhaseOf(s, q))
      && t.raised == s.raised + Raises(phase, p)
      && t.lowered == s.lowered + Lowers(phase, p)
      && t.sent == s.sent + Sends(phase, p)
      && t.received == s.received + Receives(phase, p)
  {
    assert Run(Next(s, p, Go(true)), [(p, Go(true))][1..]) == Next(s, p, Go(true));
  }

  lemma {:induction false} SubmitStep(s: State, p: Id, line: Line)
    requires PhaseOf(s, p).Idle?
    ensures var t := Next(s, p, Submit(line));
      && Run(s, [(p, Submit(line))]) == t
      && t == s.(procs := t.procs)
      && PhaseOf(t, p) == AskReceive(line)
      && (forall q | q != p :: PhaseOf(t, q) == PhaseOf(s, q))
  {
    assert Run(Next(s, p, Submit(line)), [(p, Submit(line))][1..]) == Next(s, p, Submit(line));
  }

  lemma {:induction false} SendChecks(s: State, f: Id, p: Id) returns (t: State)
    requires PhaseOf(s, f) == Idle && (f, p) !in s.cells
    ensures t == Run(s, [(f, Submit(SendLine(p))), (f, Go(true)), (f, Go(true))])
    ensures PhaseOf(t, f) == Look(SendLine(p), 0) && (forall q | q != f :: PhaseOf(t, q) == PhaseOf(s, q))
    ensures t == s.(procs := t.procs)
  {
    hide Next, PhaseOf, Run;
    var submit, go := [(f, Submit(SendLine(p)))], [(f, Go(true))];
    var s1 := Next(s, f, Submit(SendLine(p)));
    var s2 := Next(s1, f, Go(true));
    SubmitStep(s, f, SendLine(p));
    GoStep(s1, f);
    GoStep(s2, f);
    RunAppend(s, submit, go);
    RunAppend(s, submit + go, go);
    assert submit + go + go == [(f, Submit(SendLine(p))), (f, Go(true)), (f, Go(true))];
    t := Next(s2, f, Go(true));
  }

  lemma {:induction false} SendFork(s: State, f: Id, p: Id) returns (t: State)
    requires PhaseOf(s, f) == Look(SendLine(p), 0) && (f, f) !in s.cells
    ensures t == Run(s, [(f, Go(true)), (f, Go(true))])
    ensures PhaseOf(t, f) == Idle && (forall q | q != f :: PhaseOf(t, q) == PhaseOf(s, q))
    ensures t.cells == s.cells + {(f, p)} && t.raised == s.raised + multiset{(f, p)}
    ensures t.sent == s.sent + multiset{(f, p)} && t.lowered == s.lowered && t.received == s.received
  {
    hide Next, PhaseOf, Run;
    var go := [(f, Go(true))];
    var s1 := Next(s, f, Go(true));
    GoStep(s, f);
    GoStep(s1, f);
    RunAppend(s, go, go);
    assert go + go == [(f, Go(true)), (f, Go(true))];
    t := Next(s1, f, Go(true));
  }

  /** The send passes its checks and raises the cell; it reads no cell but its own diagonal
      one, which is clear. */
  lemma {:induction false} Send(s: State, f: Id, p: Id)
    requires PhaseOf(s, f) == Idle && (f, p) !in s.cells && (f, f) !in s.cells
    ensures var t := Run(s, SendEvents(f, p));
      && t.cells == s.cells + {(f, p)} && t.raised == s.raised + multiset{(f, p)}
      && t.sent == s.sent + multiset{(f, p)} && t.lowered == s.lowered && t.received == s.received
      && PhaseOf(t, f) == Idle && (forall q | q != f :: PhaseOf(t, q) == PhaseOf(s, q))
  {
    hide Next, PhaseOf, Run;
    var checks, fork := [(f, Submit(SendLine(p))), (f, Go(true)), (f, Go(true))], [(f, Go(true)), (f, Go(true))];
    var s1 := SendChecks(s, f, p);
    var t := SendFork(s1, f, p);
    RunAppend(s, checks, fork);
    assert checks + fork == SendEvents(f, p);
  }

  /** One row of p; when p clears the cell, f sends again before p forks. */
  function RowEvents(line: Line, f: Id, p: Id, i: nat): seq<(Id, Event)>
    requires i < |line.inputs|
  {
    (if line.inputs[i] then [(p, Go(true))] else [(p, Go(true)), (p, Go(true))] + SendEvents(f, p)) + [(p, Go(true))]
  }

  /** The schedule in which f sends again right after every clearing by p. */
  function Chase(line: Line, f: Id, p: Id, i: nat): seq<(Id, Event)>
    requires i <= |line.inputs|
    decreases |line.inputs| - i
  {
    if i == |line.inputs| then [] else RowEvents(line, f, p, i) + Chase(line, f, p, i + 1)
  }

  ghost predicate Chasing(s: State, line: Line, f: Id, p: Id, i: nat)
    requires i <= |line.inputs|
  {
    && line.receive == Some(f) && f != p
    && PhaseOf(s, f) == Idle && (f, p) in s.cells && (f, f) !in s.cells
    && PhaseOf(s, p) == (if i == |line.inputs| then Idle else Look(line, i))
  }

  lemma {:induction false} ChaseRow(s: State, line: Line, f: Id, p: Id, i: nat)
    requires i < |line.inputs| && Chasing(s, line, f, p, i)
    ensures var t := Run(s, RowEvents(line, f, p, i));
      && Chasing(t, line, f, p, i + 1)
      && t.sent[(f, p)] == s.sent[(f, p)] + (if line.inputs[i] then 0 else 1)
      && t.received[(f, p)] == s.received[(f, p)] + (if i == 0 then 1 else 0)
  {
    hide Next, PhaseOf, Run, SendEvents, Chasing;
    var go := [(p, Go(true))];
    if line.inputs[i] {
      var s1 := ChaseLook(s, line, f, p, i);
      var t := ChaseFork(s1, line, f, p, i);
      RunAppend(s, go, go);
    } else {
      var s1 := ChaseLook(s, line, f, p, i);
      var s2 := ChaseLower(s1, line, f, p, i);
      RunAppend(s, go, go);
      assert go + go == [(p, Go(true)), (p, Go(true))];
      Send(s2, f, p);
      RunAppend(s, go + go, SendEvents(f, p));
      var t := ChaseFork(Run(s2, SendEvents(f, p)), line, f, p, i);
      RunAppend(s, go + go + SendEvents(f, p), go);
    }
  }

  lemma {:induction false} ChaseLook(s: State, line: Line, f: Id, p: Id, i: nat) returns (t: State)
    requires i < |line.inputs| && Chasing(s, line, f, p, i)
    ensures t == Run(s, [(p, Go(true))]) && t.cells == s.cells
    ensures PhaseOf(t, f) == Idle && (f, p) in t.cells && (f, f) !in t.cells && f != p && line.receive == Some(f)
    ensures PhaseOf(t, p) == (if line.inputs[i] then Fork(line, i) else Lower(line, i))
    ensures t.sent[(f, p)] == s.sent[(f, p)] && t.received[(f, p)] == s.received[(f, p)]
  {
    hide Next, PhaseOf, Run;
    GoStep(s, p);
    t := Next(s, p, Go(true));
  }

  lemma {:induction false} ChaseLower(s: State, line: Line, f: Id, p: Id, i: nat) returns (t: State)
    requires i < |line.inputs| && PhaseOf(s, p) == Lower(line, i) && PhaseOf(s, f) == Idle && f != p && line.receive == Some(f)
    requires (f, f) !in s.cells
    ensures t == Run(s, [(p, Go(true))]) && (f, p) !in t.cells && (f, f) !in t.cells
    ensures PhaseOf(t, f) == Idle && PhaseOf(t, p) == Fork(line, i)
    ensures t.sent[(f, p)] == s.sent[(f, p)] && t.received[(f, p)] == s.received[(f, p)]
  {
    hide Next, PhaseOf, Run;
    GoStep(s, p);
    t := Next(s, p, Go(true));
  }

  lemma {:induction false} ChaseFork(s: State, line: Line, f: Id, p: Id, i: nat) returns (t: State)
    requires i < |line.inputs| && PhaseOf(s, p) == Fork(line, i) && PhaseOf(s, f) == Idle && f != p
    requires line.receive == Some(f) && (f, p) in s.cells && (f, f) !in s.cells
    ensures t == Run(s, [(p, Go(true))]) && Chasing(t, line, f, p, i + 1)
    ensures t.sent[(f, p)] == s.sent[(f, p)]
    ensures t.received[(f, p)] == s.received[(f, p)] + (if i == 0 then 1 else 0)
  {
    hide Next, PhaseOf, Run;
    GoStep(s, p);
    t := Next(s, p, Go(true));
  }

  lemma {:induction false} ChaseAll(s: State, line: Line, f: Id, p: Id, i: nat)
    requires i <= |line.inputs| && Chasing(s, line, f, p, i)
    ensures var t := Run(s, Chase(line, f, p, i));
      && Chasing(t, line, f, p, |line.inputs|)
      && t.sent[(f, p)] == s.sent[(f, p)] + Free(line.inputs, |line.inputs|) - Free(line.inputs, i)
      && t.received[(f, p)] == s.received[(f, p)] + (if i == 0 && line.inputs != [] then 1 else 0)
    decreases |line.inputs| - i
  {
    hide Next, SendEvents;
    if i < |line.inputs| {
      var e := RowEvents(line, f, p, i);
      ChaseRow(s, line, f, p, i);
      RunAppend(s, e, Chase(line, f, p, i + 1));
      ChaseAll(Run(s, e), line, f, p, i + 1);
    }
  }

  /** f sends once, p submits the line and passes both checks, then the chase. */
  function WholeChase(line: Line, f: Id, p: Id): seq<(Id, Event)> {
    SendEvents(f, p) + [(p, Submit(line)), (p, Go(true)), (p, Go(true))] + Chase(line, f, p, 0)
  }

  /** Without the first condition the count goes wrong: for every receiving line, whether
      it sends too or not, the chase ends with both processes between lines, the cell
      raised, and sends minus receives equal to the number of commands without a numbered
      pipe. So the line keeps sends minus receives equal to the cell in every interleaving
      only when that number is 1. */
  lemma {:induction false} ChaseCount(line: Line, f: Id, p: Id)
    requires line.inputs != [] && line.receive == Some(f) && f != p
    ensures var s := Run(START, WholeChase(line, f, p));
      && PhaseOf(s, p) == Idle && Bit(s, f, p) == 1
      && s.sent[(f, p)] == s.received[(f, p)] + Free(line.inputs, |line.inputs|)
      && (s.sent[(f, p)] == s.received[(f, p)] + Bit(s, f, p) <==> ReceivesOnce(p, line))
  {
    hide Next, PhaseOf, Run, SendEvents, Chase;
    assert forall q :: PhaseOf(START, q) == Idle by { IdleAtStart(); }
    Send(START, f, p);
    var s0 := Run(START, SendEvents(f, p));
    var enter := [(p, Submit(line)), (p, Go(true)), (p, Go(true))];
    var s3 := ChaseEnter(s0, line, f, p);
    RunAppend(START, SendEvents(f, p), enter);
    RunAppend(START, SendEvents(f, p) + enter, Chase(line, f, p, 0));
    ChaseAll(s3, line, f, p, 0);
  }

  /** The line passes both checks. */
  lemma {:induction false} ChaseEnter(s: State, line: Line, f: Id, p: Id) returns (t: State)
    requires line.inputs != [] && line.receive == Some(f) && f != p && s.cells == {(f, p)}
    requires PhaseOf(s, f) == Idle && PhaseOf(s, p) == Idle
    ensures t == Run(s, [(p, Submit(line)), (p, Go(true)), (p, Go(true))]) && Chasing(t, line, f, p, 0)
    ensures t.sent == s.sent && t.received == s.received
  {
    hide Next, PhaseOf, Run;
    var submit, go := [(p, Submit(line))], [(p, Go(true))];
    var s1 := Next(s, p, Submit(line));
    var s2 := Next(s1, p, Go(true));
    SubmitStep(s, p, line);
    GoStep(s1, p);
    GoStep(s2, p);
    RunAppend(s, submit, go);
    RunAppend(s, submit + go, go);
    assert submit + go + go == [(p, Submit(line)), (p, Go(true)), (p, Go(true))];
    t := Next(s2, p, Go(true));
  }

  // ---- A send that is never seen ----

  /** How many steps a process inside a line has left at most. */
  function Rank(phase: Phase): nat {
    match phase
    case Idle => 0
    case AskReceive(line) => 3 * |line.inputs| + 5
    case AskSend(line) => 3 * |line.inputs| + 4
    case Look(line, i) => 3 * Left(line, i) + 3
    case Lower(line, i) => 3 * Left(line, i) + 2
    case Fork(line, i) => 3 * Left(line, i) + 1
  }

  function Left(line: Line, i: nat): nat {
    if i < |line.inputs| then |line.inputs| - i else 0
  }

  lemma {:induction false} RankFalls(s: State, p: Id, found: bool)
    requires !PhaseOf(s, p).Idle?
    ensures Rank(PhaseOf(Next(s, p, Go(found)), p)) < Rank(PhaseOf(s, p))
  {
    hide Rank, PhaseAfter;
    RankAfter(PhaseOf(s, p), p, found, s.cells);
    assert PhaseOf(Next(s, p, Go(found)), p) == PhaseAfter(PhaseOf(s, p), p, found, s.cells);
  }

  lemma {:induction false} RankAfter(phase: Phase, p: Id, found: bool, cells: Cells)
    requires !phase.Idle?
    ensures Rank(PhaseAfter(phase, p, found, cells)) < Rank(phase)
  {
  }

  /** n steps of p, with every lookup succeeding. */
  function Gos(p: Id, n: nat): seq<(Id, Event)> {
    if n == 0 then [] else [(p, Go(true))] + Gos(p, n - 1)
  }

  lemma {:induction false} GosIdle(s: State, p: Id, n: nat)
    requires PhaseOf(s, p).Idle?
    ensures Run(s, Gos(p, n)) == s
  {
    if n > 0 {
      assert Gos(p, n)[1..] == Gos(p, n - 1);
      GosIdle(s, p, n - 1);
    }
  }

  /** A process past its checks, whose line sends to t behind a numbered output. */
  ghost predicate Unseen(s: State, f: Id, line: Line, t: Id) {
    var phase := PhaseOf(s, f);
    && f != t && line.send == Some(t) && line.jumps && (f, t) !in s.cells
    && (phase.Look? || phase.Lower? || phase.Fork?) && phase.line == line && phase.i < |line.inputs|
  }

  lemma {:induction false} UnseenStep(s: State, f: Id, line: Line, t: Id)
    requires Unseen(s, f, line, t)
    ensures var u, phase := Next(s, f, Go(true)), PhaseOf(s, f);
      var done := phase.Fork? && Last(line, phase.i);
      && (if done then PhaseOf(u, f).Idle? else Unseen(u, f, line, t))
      && (f, t) !in u.cells && u.raised[(f, t)] == s.raised[(f, t)] && u.received[(f, t)] == s.received[(f, t)]
      && u.sent[(f, t)] == s.sent[(f, t)] + if done then 1 else 0
  {
    hide Next, PhaseOf, Run;
    GoStep(s, f);
  }

  lemma {:induction false} UnseenRun(s: State, f: Id, line: Line, t: Id, n: nat)
    requires Unseen(s, f, line, t) && n >= Rank(PhaseOf(s, f))
    ensures var u := Run(s, Gos(f, n));
      && PhaseOf(u, f).Idle? && (f, t) !in u.cells
      && u.raised[(f, t)] == s.raised[(f, t)] && u.received[(f, t)] == s.received[(f, t)]
      && u.sent[(f, t)] == s.sent[(f, t)] + 1
    decreases n
  {
    hide Next, PhaseOf, Rank;
    RankFalls(s, f, true);
    UnseenStep(s, f, line, t);
    var u := Next(s, f, Go(true));
    assert Gos(f, n)[1..] == Gos(f, n - 1);
    if PhaseOf(u, f).Idle? { GosIdle(u, f, n - 1); } else { UnseenRun(u, f, line, t, n - 1); }
  }

  /** If the line receives, its sender has sent before. */
  function Before(line: Line, f: Id): seq<(Id, Event)> {
    if line.receive.Some? then SendEvents(line.receive.value, f) else []
  }

  /** Without the second condition the count goes wrong, too: for every line that sends to t
      behind a numbered output there is a schedule in which the line passes its checks, its
      last child opens the pipe to t, and the cell is never raised: t cannot receive. */
  lemma {:induction false} SendUnseen(line: Line, f: Id, t: Id)
    requires line.inputs != [] && line.send == Some(t) && line.jumps && f != t
    ensures var s := Run(START, Before(line, f) + [(f, Submit(line))] + Gos(f, 3 * |line.inputs| + 5));
      && PhaseOf(s, f) == Idle && PhaseOf(s, t) == Idle
      && s.sent[(f, t)] == 1 && s.received[(f, t)] == 0 && s.raised[(f, t)] == 0 && (f, t) !in s.cells
  {
    hide Next, PhaseOf, Run, SendEvents, Gos, Unseen, Before;
    var submit, n := [(f, Submit(line))], 3 * |line.inputs| + 5;
    var s0 := UnseenBefore(line, f, t);
    var s3 := UnseenEnter(s0, line, f, t, n);
    UnseenRun(s3, f, line, t, n - 2);
    RunAppend(START, Before(line, f), submit + Gos(f, n));
    assert Before(line, f) + (submit + Gos(f, n)) == Before(line, f) + submit + Gos(f, n);
    OthersIdle(s3, f, n - 2, t);
  }

  lemma {:induction false} UnseenBefore(line: Line, f: Id, t: Id) returns (s: State)
    requires f != t
    ensures s == Run(START, Before(line, f)) && (forall q :: PhaseOf(s, q) == Idle) && (f, t) !in s.cells
    ensures line.receive.Some? ==> (line.receive.value, f) in s.cells
    ensures s.sent[(f, t)] == 0 && s.received[(f, t)] == 0 && s.raised[(f, t)] == 0
  {
    hide Next, PhaseOf, Run, SendEvents;
    IdleAtStart();
    s := Run(START, Before(line, f));
    if line.receive.Some? { Send(START, line.receive.value, f); } else { RunNothing(START); }
  }

  /** The line passes both checks. */
  lemma {:induction false} UnseenEnter(s: State, line: Line, f: Id, t: Id, n: nat) returns (u: State)
    requires line.inputs != [] && line.send == Some(t) && line.jumps && f != t && n >= 2
    requires (forall q :: PhaseOf(s, q) == Idle) && (f, t) !in s.cells
    requires line.receive.Some? ==> (line.receive.value, f) in s.cells
    ensures Run(s, [(f, Submit(line))] + Gos(f, n)) == Run(u, Gos(f, n - 2))
    ensures Unseen(u, f, line, t) && PhaseOf(u, f) == Look(line, 0) && PhaseOf(u, t) == Idle
    ensures u.sent == s.sent && u.received == s.received && u.raised == s.raised
  {
    hide Next, PhaseOf, Run, Gos;
    SubmitStep(s, f, line);
    var s1 := Next(s, f, Submit(line));
    RunAppend(s, [(f, Submit(line))], Gos(f, n));
    GosStep(s1, f, n);
    GoStep(s1, f);
    var s2 := Next(s1, f, Go(true));
    GosStep(s2, f, n - 1);
    GoStep(s2, f);
    u := Next(s2, f, Go(true));
  }

  lemma {:induction false} RunNothing(s: State)
    ensures Run(s, []) == s
  {
  }

  lemma {:induction false} GosStep(s: State, p: Id, n: nat)
    requires n > 0
    ensures Run(s, Gos(p, n)) == Run(Next(s, p, Go(true)), Gos(p, n - 1))
  {
    assert Gos(p, n)[1..] == Gos(p, n - 1);
  }

  lemma {:induction false} OthersIdle(s: State, p: Id, n: nat, q: Id)
    requires q != p && PhaseOf(s, q).Idle?
    ensures PhaseOf(Run(s, Gos(p, n)), q).Idle?
    decreases n
  {
    if n > 0 {
      OthersKeepPhase(s, p, Go(true), q);
      GosStep(s, p, n);
      OthersIdle(Next(s, p, Go(true)), p, n - 1, q);
    }
  }

  lemma {:induction false} IdleAtStart()
    ensures forall q :: PhaseOf(START, q) == Idle
  {
  }

  // ---- Exactly the good lines ----

  /** Nobody submits anything but p this line, and others plain sends. */
  ghost predicate Company(events: seq<(Id, Event)>, p: Id, line: Line) {
    forall k | 0 <= k < |events| && events[k].1.Submit? ::
      (events[k].0 == p && events[k].1.line == line) || exists q: Id :: events[k].1.line == SendLine(q)
  }

  ghost predicate CountHolds(s: State) {
    forall a: Id, b: Id | a != b && PhaseOf(s, b).Idle? :: s.sent[(a, b)] == s.received[(a, b)] + Bit(s, a, b)
  }

  lemma {:induction false} CompanyIsGood(events: seq<(Id, Event)>, p: Id, line: Line)
    requires Company(events, p, line) && Good(p, line)
    ensures GoodEvents(events)
  {
  }

  lemma {:induction false} CompanyJoins(a: seq<(Id, Event)>, b: seq<(Id, Event)>, p: Id, line: Line)
    requires Company(a, p, line) && Company(b, p, line)
    ensures Company(a + b, p, line)
  {
  }

  lemma {:induction false} SendCompany(f: Id, t: Id, p: Id, line: Line)
    ensures Company(SendEvents(f, t), p, line)
  {
    assert SendEvents(f, t)[0].1.line == SendLine(t);
  }

  lemma {:induction false} ChaseCompany(line: Line, f: Id, p: Id, i: nat)
    requires i <= |line.inputs|
    ensures Company(Chase(line, f, p, i), p, line)
    decreases |line.inputs| - i
  {
    hide Company, SendEvents;
    if i == |line.inputs| {
      GosCompany(p, 0, p, line);
    } else {
      ChaseCompany(line, f, p, i + 1);
      SendCompany(f, p, p, line);
      GosCompany(p, 1, p, line);
      var go := Gos(p, 1);
      assert Gos(p, 0) == [] && go == [(p, Go(true))] + Gos(p, 0);
      CompanyJoins(go, go, p, line);
      assert go + go == [(p, Go(true)), (p, Go(true))];
      CompanyJoins(go + go, SendEvents(f, p), p, line);
      var e := if line.inputs[i] then go else go + go + SendEvents(f, p);
      CompanyJoins(e, go, p, line);
      CompanyJoins(e + go, Chase(line, f, p, i + 1), p, line);
      assert Chase(line, f, p, i) == e + go + Chase(line, f, p, i + 1);
    }
  }

  lemma {:induction false} GosCompany(q: Id, n: nat, p: Id, line: Line)
    ensures Company(Gos(q, n), p, line)
  {
    if n > 0 { GosCompany(q, n - 1, p, line); }
  }

  lemma {:induction false} WholeCompany(line: Line, f: Id, p: Id)
    ensures Company(WholeChase(line, f, p), p, line)
    ensures Company(Before(line, p) + [(p, Submit(line))] + Gos(p, 3 * |line.inputs| + 5), p, line)
  {
    hide Company, SendEvents, Gos, Chase;
    SendCompany(f, p, p, line);
    ChaseCompany(line, f, p, 0);
    CompanyJoins(SendEvents(f, p), [(p, Submit(line)), (p, Go(true)), (p, Go(true))], p, line);
    CompanyJoins(SendEvents(f, p) + [(p, Submit(line)), (p, Go(true)), (p, Go(true))], Chase(line, f, p, 0), p, line);
    if line.receive.Some? { SendCompany(line.receive.value, p, p, line); }
    GosCompany(p, 3 * |line.inputs| + 5, p, line);
    CompanyJoins(Before(line, p), [(p, Submit(line))], p, line);
    CompanyJoins(Before(line, p) + [(p, Submit(line))], Gos(p, 3 * |line.inputs| + 5), p, line);
  }

  /** A line, submitted by p any number of times among the plain sends of others, keeps
      sends minus receives equal to the cell in every interleaving exactly when it is good:
      one command without numbered input if it receives, no numbered output if it sends. */
  lemma {:induction false} GoodExactly(line: Line, p: Id)
    requires line.inputs != []
    ensures Good(p, line) <==> forall events | Company(events, p, line) :: CountHolds(Run(START, events))
  {
    hide Company, Run, GoodEvents, WholeChase, SendEvents, Gos, Before;
    if Good(p, line) {
      forall events | Company(events, p, line)
        ensures CountHolds(Run(START, events))
      {
        CompanyIsGood(events, p, line);
        forall a: Id, b: Id | a != b { SendsMinusReceives(events, a, b); }
      }
    } else if !ReceivesOnce(p, line) {
      var f := line.receive.value;
      WholeCompany(line, f, p);
      ChaseCount(line, f, p);
      assert !CountHolds(Run(START, WholeChase(line, f, p)));
    } else {
      var t := line.send.value;
      WholeCompany(line, t, p);
      SendUnseen(line, p, t);
      assert !CountHolds(Run(START, Before(line, p) + [(p, Submit(line))] + Gos(p, 3 * |line.inputs| + 5)));
    }
  }
}
