/** The client table and the user-pipe matrix of the multi-process server, over whole
    logins, commands and logouts (NP_Project2/np_multi_proc_/src/client.c, socket.c and
    the user-pipe part of shell.c). */
module Registry {
  import opened Text

  const MAX_CLIENTS := 150

  datatype Record = Record(id: int, pid: int, fd: int, enable: bool)

  const ZERO := Record(0, 0, 0, false)

  type Cell = (int, int)

  datatype State = State(info: seq<Record>, cells: set<Cell>)

  const EMPTY_TABLE: seq<Record> := seq(MAX_CLIENTS + 1, _ => ZERO)

  // ---- Lookups: each scans slots 1 to MAX_CLIENTS ----

  /** `get_client_by_id` keeps the last match. */
  function ById(info: seq<Record>, id: int, n: nat): (r: Option<nat>)
    requires n < |info|
    ensures r.Some? ==> 1 <= r.value <= n && info[r.value].id == id && forall k | r.value < k <= n :: info[k].id != id
    ensures r.None? ==> forall i | 1 <= i <= n :: info[i].id != id
  {
    if n == 0 then None else if info[n].id == id then Some(n) else ById(info, id, n - 1)
  }

  function ByPid(info: seq<Record>, pid: int, n: nat): (r: Option<nat>)
    requires n < |info|
    ensures r.Some? ==> 1 <= r.value <= n && info[r.value].pid == pid && forall k | r.value < k <= n :: info[k].pid != pid
    ensures r.None? ==> forall i | 1 <= i <= n :: info[i].pid != pid
  {
    if n == 0 then None else if info[n].pid == pid then Some(n) else ByPid(info, pid, n - 1)
  }

  /** `get_available_client`: the first slot from `i` on without a descriptor. */
  function Available(info: seq<Record>, i: nat): (r: Option<nat>)
    requires 1 <= i <= |info|
    ensures r.Some? ==> i <= r.value < |info| && info[r.value].fd == 0 && forall k | i <= k < r.value :: info[k].fd != 0
    ensures r.None? ==> forall k | i <= k < |info| :: info[k].fd != 0
    decreases |info| - i
  {
    if i == |info| then None else if info[i].fd == 0 then Some(i) else Available(info, i + 1)
  }

  // ---- Steps ----

  datatype Step =
    | Login(fd: int, pid: int)
    | Command(pid: int, receive: Option<int>, send: Option<int>)
    | Logout(pid: int)

  /** `reset_client` clears row `id` entirely and column `id` in rows 1 to MAX_CLIENTS. */
  function Cleared(cells: set<Cell>, id: int): set<Cell> {
    set c | c in cells && !(c.0 == id || (c.1 == id && 1 <= c.0 <= MAX_CLIENTS))
  }

  /** The checks of `execute` before the pipeline runs. */
  predicate Refused(s: State, self: int, receive: Option<int>, send: Option<int>)
    requires |s.info| == MAX_CLIENTS + 1
  {
    (receive.Some? && (ById(s.info, receive.value, MAX_CLIENTS).None? || (receive.value, self) !in s.cells)) ||
    (send.Some? && (ById(s.info, send.value, MAX_CLIENTS).None? || (self, send.value) in s.cells))
  }

  function RunCommand(s: State, self: int, receive: Option<int>, send: Option<int>): State
    requires |s.info| == MAX_CLIENTS + 1
  {
    if Refused(s, self, receive, send) then s
    else
      var from := if receive.Some? then receive.value else self;
      var lowered := s.cells - {(from, self)};
      s.(cells := if send.Some? then lowered + {(self, send.value)} else lowered)
  }

  function SelfId(s: State, pid: int): int
    requires |s.info| == MAX_CLIENTS + 1 && ByPid(s.info, pid, MAX_CLIENTS).Some?
  {
    s.info[ByPid(s.info, pid, MAX_CLIENTS).value].id
  }

  /** The step can be taken: a login has a new process, an open descriptor and a free slot,
      the others come from a client that is logged in. */
  predicate Enabled(s: State, step: Step) {
    |s.info| == MAX_CLIENTS + 1 &&
    match step
    case Login(fd, pid) => fd > 0 && pid > 0 && ByPid(s.info, pid, MAX_CLIENTS).None? && Available(s.info, 1).Some?
    case Command(pid, _, _) => pid > 0 && ByPid(s.info, pid, MAX_CLIENTS).Some?
    case Logout(pid) => pid > 0 && ByPid(s.info, pid, MAX_CLIENTS).Some?
  }

  function Next(s: State, step: Step): State
    requires Enabled(s, step)
  {
    match step
    case Login(fd, pid) =>
      var i := Available(s.info, 1).value;
      s.(info := s.info[i := Record(i, pid, fd, true)])
    case Command(pid, receive, send) => RunCommand(s, SelfId(s, pid), receive, send)
    case Logout(pid) =>
      var i := ByPid(s.info, pid, MAX_CLIENTS).value;
      State(s.info[i := ZERO], Cleared(s.cells, s.info[i].id))
  }

  // ---- The invariant ----

  predicate Live(s: State, id: int) {
    1 <= id <= MAX_CLIENTS && id < |s.info| && s.info[id].enable
  }

  /** A slot in use has its own index as id; a free slot is all zero. */
  predicate SlotOk(info: seq<Record>, i: nat)
    requires i < |info|
  {
    if info[i].enable then info[i].id == i && info[i].fd > 0 && info[i].pid > 0 else info[i] == ZERO
  }

  ghost predicate Inv(s: State) {
    && |s.info| == MAX_CLIENTS + 1
    && (forall i | 1 <= i <= MAX_CLIENTS :: SlotOk(s.info, i))
    && (forall i, j | 1 <= i < j <= MAX_CLIENTS && s.info[i].enable && s.info[j].enable :: s.info[i].pid != s.info[j].pid)
    && (forall c | c in s.cells :: Live(s, c.0) && (Live(s, c.1) || c.1 == 0))
  }

  /** Every raised cell joins two clients that are logged in. */
  ghost predicate EndpointsLive(s: State) {
    forall c | c in s.cells :: Live(s, c.0) && Live(s, c.1)
  }

  /** A lookup by a nonzero id finds exactly the slot of that index, when it is in use. The
      id 0 is found whenever some slot is free. */
  lemma {:induction false} LookupById(s: State, id: int)
    requires Inv(s)
    ensures id != 0 ==> ById(s.info, id, MAX_CLIENTS) == (if Live(s, id) then Some(id) else None)
    ensures ById(s.info, 0, MAX_CLIENTS).Some? <==> exists i | 1 <= i <= MAX_CLIENTS :: !s.info[i].enable
  {
    var r, z := ById(s.info, id, MAX_CLIENTS), ById(s.info, 0, MAX_CLIENTS);
    if r.Some? { assert SlotOk(s.info, r.value); }
    if Live(s, id) { assert SlotOk(s.info, id); }
    if z.Some? { assert SlotOk(s.info, z.value); }
    if z.None? { assert forall i | 1 <= i <= MAX_CLIENTS :: SlotOk(s.info, i) && s.info[i].id != 0; }
  }

  lemma {:induction false} LookupByPid(s: State, pid: int)
    requires Inv(s) && pid > 0
    ensures var r := ByPid(s.info, pid, MAX_CLIENTS);
      r.Some? ==> Live(s, r.value) && s.info[r.value].id == r.value
  {
    var r := ByPid(s.info, pid, MAX_CLIENTS);
    if r.Some? { assert SlotOk(s.info, r.value); }
  }

  lemma {:induction false} FreeSlot(s: State)
    requires Inv(s) && Available(s.info, 1).Some?
    ensures !Live(s, Available(s.info, 1).value)
  {
    var i := Available(s.info, 1).value;
    assert SlotOk(s.info, i);
  }

  lemma {:induction false} NextInv(s: State, step: Step)
    requires Inv(s) && Enabled(s, step)
    ensures Inv(Next(s, step))
  {
    match step
    case Login(fd, pid) =>
      FreeSlot(s);
      var i, t := Available(s.info, 1).value, Next(s, step);
      forall k | 1 <= k <= MAX_CLIENTS
        ensures SlotOk(t.info, k)
      {
        assert SlotOk(s.info, k);
      }
    case Command(pid, receive, send) =>
      LookupByPid(s, pid);
      if send.Some? { LookupById(s, send.value); }
    case Logout(pid) =>
      LookupByPid(s, pid);
      var i, t := ByPid(s.info, pid, MAX_CLIENTS).value, Next(s, step);
      forall k | 1 <= k <= MAX_CLIENTS
        ensures SlotOk(t.info, k)
      {
        assert SlotOk(s.info, k);
      }
  }

  /** A logout frees exactly the client's own slot and clears exactly the cells from it and
      to it. */
  lemma {:induction false} LogoutExactly(s: State, pid: int)
    requires Inv(s) && Enabled(s, Logout(pid))
    ensures var t, id := Next(s, Logout(pid)), SelfId(s, pid);
      && Live(s, id) && !Live(t, id)
      && (forall k | 0 <= k <= MAX_CLIENTS && k != id :: t.info[k] == s.info[k])
      && (forall c: Cell :: c in t.cells <==> c in s.cells && c.0 != id && c.1 != id)
  {
    LookupByPid(s, pid);
  }

  /** Whoever logs in, the least free slot gets its process and descriptor, nothing else
      changes, and the slot has no pending pipe in either direction, even when an earlier
      client used the same id. */
  lemma {:induction false} LoginStartsClean(s: State, fd: int, pid: int)
    requires Inv(s) && Enabled(s, Login(fd, pid))
    ensures var t := Next(s, Login(fd, pid)); var id := Available(s.info, 1).value;
      && Live(t, id) && SelfId(t, pid) == id
      && t.info == s.info[id := Record(id, pid, fd, true)] && t.cells == s.cells
      && (forall k | 1 <= k < id :: Live(s, k))
      && (forall c: Cell | c in t.cells :: c.0 != id && c.1 != id)
  {
    FreeSlot(s);
    var id, t := Available(s.info, 1).value, Next(s, Login(fd, pid));
    NextInv(s, Login(fd, pid));
    var r := ByPid(t.info, pid, MAX_CLIENTS);
    assert t.info[id].pid == pid;
    assert r.Some? && SlotOk(t.info, r.value);
    forall k | 1 <= k < id
      ensures Live(s, k)
    {
      assert SlotOk(s.info, k) && s.info[k].fd != 0;
    }
  }

  /** Some slot carries the id. */
  predicate Found(s: State, id: int)
    requires |s.info| == MAX_CLIENTS + 1
  {
    exists i | 1 <= i <= MAX_CLIENTS :: s.info[i].id == id
  }

  /** The user pipes of the line are there and free: a sender that is found and has sent, a
      receiver that is found and has nothing pending from this client. */
  predicate Accepted(s: State, id: int, receive: Option<int>, send: Option<int>)
    requires |s.info| == MAX_CLIENTS + 1
  {
    (receive.Some? ==> Found(s, receive.value) && (receive.value, id) in s.cells) &&
    (send.Some? ==> Found(s, send.value) && (id, send.value) !in s.cells)
  }

  /** A command is of the client whose process it is. A refused one changes nothing. An
      accepted one clears the cell that it receives from, without `<n` its own cell to itself,
      raises the cell that it sends to, and leaves all others as they were. */
  lemma {:induction false} CommandExactly(s: State, pid: int, receive: Option<int>, send: Option<int>)
    requires Inv(s) && Enabled(s, Command(pid, receive, send))
    ensures var t, id := Next(s, Command(pid, receive, send)), SelfId(s, pid);
      && Live(s, id) && s.info[id].pid == pid && t.info == s.info
      && (!Accepted(s, id, receive, send) ==> t.cells == s.cells)
      && (Accepted(s, id, receive, send) ==>
            forall a: int, b: int :: (a, b) in t.cells <==>
              (a == id && send == Some(b)) ||
              ((a, b) in s.cells && !(b == id && a == if receive.Some? then receive.value else id)))
  {
    LookupByPid(s, pid);
    assert forall id: int :: ById(s.info, id, MAX_CLIENTS).Some? <==> Found(s, id) by {
      forall id: int
        ensures ById(s.info, id, MAX_CLIENTS).Some? <==> Found(s, id)
      {
        var r := ById(s.info, id, MAX_CLIENTS);
        if r.Some? { assert s.info[r.value].id == id; }
      }
    }
  }

  /** A command keeps every raised cell between two live clients exactly when it is not an
      accepted `>0`. */
  lemma {:induction false} CommandEndpoints(s: State, pid: int, receive: Option<int>, send: Option<int>)
    requires Inv(s) && EndpointsLive(s) && Enabled(s, Command(pid, receive, send))
    ensures EndpointsLive(Next(s, Command(pid, receive, send)))
            <==> (send != Some(0) || Refused(s, SelfId(s, pid), receive, send))
  {
    LookupByPid(s, pid);
    var t := Next(s, Command(pid, receive, send));
    if send.Some? {
      LookupById(s, send.value);
      if send.value == 0 && !Refused(s, SelfId(s, pid), receive, send) {
        assert (SelfId(s, pid), 0) in t.cells;
      }
    }
  }

  /** `>0` is accepted from any client while some slot is free and it sent no `>0` before. */
  lemma {:induction false} ZeroAccepted(s: State, pid: int)
    requires Inv(s) && Enabled(s, Command(pid, None, Some(0)))
    ensures !Refused(s, SelfId(s, pid), None, Some(0))
            <==> (SelfId(s, pid), 0) !in s.cells && exists i | 1 <= i <= MAX_CLIENTS :: !s.info[i].enable
  {
    LookupById(s, 0);
  }

  // ---- Runs ----

  predicate Runs(s: State, steps: seq<Step>)
    decreases |steps|
  {
    steps == [] || (Enabled(s, steps[0]) && Runs(Next(s, steps[0]), steps[1..]))
  }

  function Run(s: State, steps: seq<Step>): State
    requires Runs(s, steps)
    decreases |steps|
  {
    if steps == [] then s else Run(Next(s, steps[0]), steps[1..])
  }

  lemma {:induction false} RunInv(s: State, steps: seq<Step>)
    requires Inv(s) && Runs(s, steps)
    ensures Inv(Run(s, steps))
    decreases |steps|
  {
    if steps != [] {
      NextInv(s, steps[0]);
      RunInv(Next(s, steps[0]), steps[1..]);
    }
  }

  /** The clients with an accepted `>0` since they logged in. */
  function ZeroSenders(s: State, steps: seq<Step>, senders: set<int>): set<int>
    requires Runs(s, steps)
    decreases |steps|
  {
    if steps == [] then senders
    else
      var now := match steps[0]
        case Login(_, _) => senders
        case Command(pid, receive, send) =>
          if send == Some(0) && !Refused(s, SelfId(s, pid), receive, send) then senders + {SelfId(s, pid)} else senders
        case Logout(pid) => senders - {SelfId(s, pid)};
      ZeroSenders(Next(s, steps[0]), steps[1..], now)
  }

  ghost predicate Zeros(s: State, senders: set<int>) {
    forall a: int :: (a, 0) in s.cells <==> a in senders
  }

  lemma {:induction false} RunZeros(s: State, steps: seq<Step>, senders: set<int>)
    requires Inv(s) && Runs(s, steps) && Zeros(s, senders)
    ensures Zeros(Run(s, steps), ZeroSenders(s, steps, senders))
    decreases |steps|
  {
    if steps != [] {
      NextInv(s, steps[0]);
      match steps[0] {
        case Login(_, _) => RunZeros(Next(s, steps[0]), steps[1..], senders);
        case Command(pid, receive, send) =>
          LookupByPid(s, pid);
          var more := if send == Some(0) && !Refused(s, SelfId(s, pid), receive, send) then {SelfId(s, pid)} else {};
          assert senders + {} == senders;
          RunZeros(Next(s, steps[0]), steps[1..], senders + more);
        case Logout(pid) =>
          LookupByPid(s, pid);
          RunZeros(Next(s, steps[0]), steps[1..], senders - {SelfId(s, pid)});
      }
    }
  }

  /** After every run of logins, commands and logouts from the empty server: slots in use
      carry their index as id, lookups by id return exactly the live slot, and every raised
      cell joins two live clients exactly when no client that is logged in has had a `>0`
      accepted. */
  lemma {:induction false} LiveEndpoints(steps: seq<Step>, id: int)
    requires Runs(State(EMPTY_TABLE, {}), steps) && id != 0
    ensures var s := Run(State(EMPTY_TABLE, {}), steps);
      && Inv(s)
      && ById(s.info, id, MAX_CLIENTS) == (if Live(s, id) then Some(id) else None)
      && (EndpointsLive(s) <==> ZeroSenders(State(EMPTY_TABLE, {}), steps, {}) == {})
  {
    hide Run, Runs, ZeroSenders;
    var start := State(EMPTY_TABLE, {});
    var s := Run(start, steps);
    RunInv(start, steps);
    RunZeros(start, steps, {});
    LookupById(s, id);
    ZerosLive(s, ZeroSenders(start, steps, {}));
  }

  lemma {:induction false} ZerosLive(s: State, senders: set<int>)
    requires Inv(s) && Zeros(s, senders)
    ensures EndpointsLive(s) <==> senders == {}
  {
    forall a: int | a in senders
      ensures (a, 0) in s.cells && !EndpointsLive(s)
    {
      assert (a, 0) in s.cells;
    }
    if EndpointsLive(s) {
      assert forall a: int :: a !in senders;
    } else {
      var c :| c in s.cells && !(Live(s, c.0) && Live(s, c.1));
      assert c == (c.0, 0);
    }
  }
}
