/** The shared memory that the server's processes update in place: `client_info` and the
    matrix `user_pipe`. */
module SharedMemory {
  import opened Text
  import opened Registry

  class SharedMemory {
    const info: array<Record>
    const pipe: array2<int>

    ghost predicate Valid()
      reads this
    {
      info.Length == MAX_CLIENTS + 1 && pipe.Length0 == MAX_CLIENTS + 1 && pipe.Length1 == MAX_CLIENTS + 1
    }

    /** `init_client_info` */
    constructor ()
      ensures Valid() && View() == State(EMPTY_TABLE, {}) && fresh(info) && fresh(pipe)
    {
      info := new Record[MAX_CLIENTS + 1](_ => ZERO);
      pipe := new int[MAX_CLIENTS + 1, MAX_CLIENTS + 1]((_, _) => 0);
      new;
      assert info[..] == EMPTY_TABLE;
    }

    ghost function Cells(): set<Cell>
      requires Valid()
      reads this, pipe
    {
      set i: int, j: int | 0 <= i <= MAX_CLIENTS && 0 <= j <= MAX_CLIENTS && pipe[i, j] != 0 :: (i, j)
    }

    ghost function View(): State
      requires Valid()
      reads this, info, pipe
    {
      State(info[..], Cells())
    }

    method GetClientById(id: int) returns (r: Option<nat>)
      requires Valid()
      ensures r == ById(info[..], id, MAX_CLIENTS)
    {
      r := None;
      var i := 1;
      while i <= MAX_CLIENTS
        invariant 1 <= i <= MAX_CLIENTS + 1
        invariant r == ById(info[..], id, i - 1)
      {
        if info[i].id == id { r := Some(i); }
        i := i + 1;
      }
    }

    method GetClientByPid(pid: int) returns (r: Option<nat>)
      requires Valid()
      ensures r == ByPid(info[..], pid, MAX_CLIENTS)
    {
      r := None;
      var i := 1;
      while i <= MAX_CLIENTS
        invariant 1 <= i <= MAX_CLIENTS + 1
        invariant r == ByPid(info[..], pid, i - 1)
      {
        if info[i].pid == pid { r := Some(i); }
        i := i + 1;
      }
    }

    method GetAvailableClient() returns (r: Option<nat>)
      requires Valid()
      ensures r == Available(info[..], 1)
    {
      var target := 1;
      while target <= MAX_CLIENTS
        invariant 1 <= target <= MAX_CLIENTS + 1
        invariant Available(info[..], target) == Available(info[..], 1)
      {
        if info[target].fd == 0 { return Some(target); }
        target := target + 1;
      }
      r := None;
    }

    /** `init_client` */
    method InitClient(fd: int, pid: int)
      requires Valid() && Enabled(View(), Login(fd, pid))
      modifies info
      ensures View() == Next(old(View()), Login(fd, pid))
    {
      var r := GetAvailableClient();
      info[r.value] := ZERO;
      info[r.value] := Record(r.value, pid, fd, true);
      assert info[..] == Next(old(View()), Login(fd, pid)).info;
    }

    /** `reset_client`: the row, then the column entry by entry, then the record. */
    method ResetClient(pid: int)
      requires Valid() && Enabled(View(), Logout(pid)) && 0 <= SelfId(View(), pid) <= MAX_CLIENTS
      modifies info, pipe
      ensures View() == Next(old(View()), Logout(pid))
    {
      var r := GetClientByPid(pid);
      var id := info[r.value].id;
      forall j | 0 <= j <= MAX_CLIENTS { pipe[id, j] := 0; }
      var i := 1;
      while i <= MAX_CLIENTS
        invariant 1 <= i <= MAX_CLIENTS + 1
        invariant info[..] == old(info[..])
        invariant forall a, b | 0 <= a <= MAX_CLIENTS && 0 <= b <= MAX_CLIENTS ::
          pipe[a, b] == if a == id || (b == id && 1 <= a < i) then 0 else old(pipe[a, b])
      {
        pipe[i, id] := 0;
        i := i + 1;
      }
      info[r.value] := ZERO;
      assert info[..] == Next(old(View()), Logout(pid)).info;
      assert Cells() == Cleared(old(Cells()), id);
    }

    method SetCell(from: int, to: int, value: int)
      requires Valid() && 0 <= from <= MAX_CLIENTS && 0 <= to <= MAX_CLIENTS
      modifies pipe
      ensures Cells() == if value == 0 then old(Cells()) - {(from, to)} else old(Cells()) + {(from, to)}
    {
      pipe[from, to] := value;
    }

    /** `execute` on a line of one command without numbered pipes: the two checks, then the
        input cell and the output cell as in `execute_pipeline`. */
    method Execute(self: int, receive: Option<int>, send: Option<int>)
      requires Valid() && Inv(View()) && 0 <= self <= MAX_CLIENTS
      modifies pipe
      ensures View() == RunCommand(old(View()), self, receive, send)
    {
      var from := self;
      if receive.Some? {
        from := receive.value;
        var r := GetClientById(from);
        if r.None? { return; }
        LookupById(View(), from);
        if pipe[from, self] == 0 { return; }
      }
      if send.Some? {
        var r := GetClientById(send.value);
        if r.None? { return; }
        LookupById(View(), send.value);
        if pipe[self, send.value] != 0 { return; }
      }
      if pipe[from, self] != 0 { SetCell(from, self, 0); }
      if send.Some? { SetCell(self, send.value, 1); }
    }
  }
}
