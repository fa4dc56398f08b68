/** The single-process server's shell with its global pipe table, tube list and user list,
    updated in place (NP_Project2/np_single_proc_/src/shell.c:181-360). */
module SingleShell {
  import opened Text
  import opened Kernel
  import opened NumberedPipes
  import opened Tubes
  import opened TubeRuns
  import opened UserList
  import opened SingleHandler
  import Shell

  predicate IsOp(tok: string) {
    tok != [] && tok[0] in {'|', '!', '>', '<'}
  }

  /** `>` with a number is a user pipe, `>` and `>&` take the next token as a file. */
  predicate TakesFile(tok: string) {
    IsOp(tok) && tok[0] == '>' && (|tok| == 1 || tok == ">&")
  }

  /** `sscanf` finds a number in every `|N`, `!N`, `>N` and `<N`. */
  predicate Legible(tokens: seq<string>) {
    forall i | 0 <= i < |tokens| ::
      IsOp(tokens[i]) && !TakesFile(tokens[i]) && (|tokens[i]| > 1 || tokens[i][0] == '<') ==> Scan(tokens[i][1..]).Some?
  }

  function FileName(tokens: seq<string>): string {
    if |tokens| > 1 then tokens[1] else ""
  }

  function ReadOp(tokens: seq<string>): TubeOp
    requires tokens != [] && IsOp(tokens[0])
  {
    var tok := tokens[0];
    if TakesFile(tok) then
      (if FileName(tokens) == ">&" then Num(Err(">&")) else Num(Out(FileName(tokens))))
    else if tok[0] == '>' then SendTo(Atoi(tok[1..]))
    else if tok[0] == '<' then ReceiveFrom(Atoi(tok[1..]))
    else
      var to := if |tok| == 1 then 1 else Atoi(tok[1..]);
      Num(if tok[0] == '|' then Bar(to) else Bang(to))
  }

  function AfterOp(tokens: seq<string>): (rest: seq<string>)
    requires tokens != [] && IsOp(tokens[0])
    ensures |rest| < |tokens|
  {
    if TakesFile(tokens[0]) && |tokens| > 1 then tokens[2..] else tokens[1..]
  }

  function ParseOps(tokens: seq<string>): seq<TubeOp>
    decreases |tokens|
  {
    if tokens != [] && IsOp(tokens[0]) then [ReadOp(tokens)] + ParseOps(AfterOp(tokens)) else []
  }

  function AfterOps(tokens: seq<string>): (rest: seq<string>)
    ensures |rest| <= |tokens|
    ensures tokens != [] && IsOp(tokens[0]) ==> |rest| < |tokens|
    decreases |tokens|
  {
    if tokens != [] && IsOp(tokens[0]) then AfterOps(AfterOp(tokens)) else tokens
  }

  function ArgRun(tokens: seq<string>): (n: nat)
    ensures n <= |tokens| && (n < |tokens| ==> IsOp(tokens[n]))
    ensures forall i | 0 <= i < n :: !IsOp(tokens[i])
  {
    if tokens != [] && !IsOp(tokens[0]) then 1 + ArgRun(tokens[1..]) else 0
  }

  function ParseLine(tokens: seq<string>): seq<TubeCommand>
    decreases |tokens|
  {
    if tokens == [] then []
    else
      var n := ArgRun(tokens);
      [TubeCommand(tokens[..n], ParseOps(tokens[n..]))] + ParseLine(AfterOps(tokens[n..]))
  }

  class SingleShell {
    const shell: Shell.Shell     // `pipe_table`, `count` and the process's descriptors
    const tubes: TubeList
    const users: UserList

    ghost predicate Valid()
      reads tubes, tubes.nodes, users, users.nodes
    {
      tubes.Valid() && users.Valid() && Unique(tubes.Contents())
    }

    ghost function View(): Server
      reads shell, shell.table, tubes, users
    {
      Server(shell.View(), tubes.Contents(), users.users)
    }

    constructor (pick: Allocator)
      ensures Valid() && View() == Server(Init(), [], []) && shell.pick == pick
      ensures fresh(shell) && fresh(shell.table) && fresh(tubes) && fresh(users)
    {
      shell := new Shell.Shell(pick);
      tubes := new TubeList();
      users := new UserList();
    }

    /** `connect_client`: a new user in the list. */
    method ConnectClient(fd: int)
      requires Valid()
      modifies users, users.nodes
      ensures Valid() && View() == old(View()).(users := Insert(old(users.users), fd))
    {
      var c := new Client(fd);
      users.InsertClient(c);
    }

    /** `free_resource`: the user goes, and `delete_all_id_tube` gets the descriptor. */
    method FreeResource(fd: int) returns (fault: bool)
      requires Valid() && exists u | u in users.users :: u.fd == fd
      modifies shell`proc, users, users.nodes, tubes, tubes.nodes
      ensures users.Valid() && tubes.Valid() && users.users == DeleteFd(old(users.users), fd)
      ensures shell.count == old(shell.count)
      ensures fault <==> StartsWithTwo(old(tubes.Contents()), From(fd))
      ensures !fault ==> var es := old(tubes.Contents());
        && Valid() && tubes.Contents() == Without(es, From(fd))
        && shell.proc == CloseAll(old(shell.proc), HitFds(es, From(fd)))
    {
      hide Unique, Items, TubeList.Valid, UserList.Valid;
      users.DeleteClient(fd);
      fault := DeleteSent(fd);
    }

    method DeleteSent(sender: int) returns (fault: bool)
      requires Valid()
      modifies shell`proc, tubes, tubes.nodes
      ensures users.Valid() && tubes.Valid() && users.users == old(users.users)
      ensures fault <==> StartsWithTwo(old(tubes.Contents()), From(sender))
      ensures !fault ==> var es := old(tubes.Contents());
        && Valid() && tubes.Contents() == Without(es, From(sender))
        && shell.proc == CloseAll(old(shell.proc), HitFds(es, From(sender)))
    {
      hide Unique, Without, HitFds, Items, CloseAll, UserList.Valid;
      var before := tubes.closed;
      WithoutUnique(tubes.Contents(), From(sender));
      fault := tubes.DeleteAllIdTube(sender);
      if !fault {
        assert tubes.closed[|before|..] == HitFds(old(tubes.Contents()), From(sender));
        shell.proc := CloseAll(shell.proc, tubes.closed[|before|..]);
      }
    }

    /** `|N`, `!N` and `> file`. */
    method ApplyNum(w: Wiring, op: Op) returns (x: Wiring)
      requires Valid() && OpFits(shell.View(), op)
      modifies shell`proc, shell.table
      ensures Valid() && View() == old(View()).(s := Reserve(shell.pick, old(shell.View()), op))
      ensures x == Wire(shell.View(), w, op)
    {
      hide Unique, Items, TubeList.Valid, UserList.Valid, OpenSlot;
      x := w;
      match op {
        case Out(f) => x := x.(stdout := ToFile(f), isWait := true);
        case Err(f) => x := x.(stderr := ToFile(f), isWait := true);
        case _ =>
          var k := shell.count + op.jump;
          if shell.table[k].write == 0 { shell.OpenPipeAt(k); }
          x := x.(stdout := Fd(shell.table[k].write));
          if op.Bang? { x := x.(stderr := x.stdout); }
      }
    }

    /** `create_tube` and `push_tube` for a pair that has no tube yet. */
    method CreateTube(me: int, peer: int) returns (wr: int)
      requires Valid() && !HasPair(tubes.Contents(), me, peer)
      modifies shell`proc, tubes
      ensures Valid() && fresh(set t | t in tubes.nodes && t !in old(tubes.nodes))
      ensures View() == WithTube(shell.pick, old(View()), me, peer)
      ensures wr == tubes.Contents()[0].writeFd
    {
      hide Unique, Items, AsMap;
      var (p, r, w) := OpenPipe(shell.pick, shell.proc, NO_SLOT);
      wr := w;
      NextRefines(tubes.Contents(), Send(me, peer, r, wr));
      var t := new Tube(me, peer, r, wr);
      tubes.Push(t);
      shell.proc := p;
    }

    /** `>n`: refused when the peer does not exist or the pipe does. */
    method SendPipe(me: int, peer: int, w: Wiring) returns (ok: bool, x: Wiring)
      requires Valid()
      modifies shell`proc, tubes
      ensures Valid() && fresh(set t | t in tubes.nodes && t !in old(tubes.nodes))
      ensures forall receive: Option<int> ::
        ApplyTubeOp(shell.pick, old(View()), me, w, receive, SendTo(peer)) ==
        (if ok then Wired(View(), x, receive) else Refused(View()))
    {
      hide Unique, Items, OpenPipe;
      x := w;
      var known := users.FindId(peer);
      var tube := tubes.Find(me, peer);
      ok := known && tube == null;
      if ok {
        var wr := CreateTube(me, peer);
        x := x.(stdout := Fd(wr));
      }
    }

    /** `<n`: refused when the peer or the pipe does not exist. */
    method ReceivePipe(me: int, peer: int, w: Wiring) returns (ok: bool, x: Wiring)
      requires Valid()
      ensures forall receive: Option<int> ::
        ApplyTubeOp(shell.pick, View(), me, w, receive, ReceiveFrom(peer)) ==
        (if ok then Wired(View(), x, Some(peer)) else Refused(View()))
    {
      x := w;
      var known := users.FindId(peer);
      var tube := tubes.Find(peer, me);
      if !known { return false, x; }
      if tube == null { return false, x; }
      ghost var k :| 0 <= k < |tubes.nodes| && tubes.nodes[k] == tube && Hit(Pair(peer, me), tube.Item()) &&
        forall i | 0 <= i < k :: !Hit(Pair(peer, me), tubes.nodes[i].Item());
      FirstAt(tubes.Contents(), peer, me, k);
      x := x.(stdin := tube.readFd);
      ok := true;
    }

    /** `delete_id_tube` after the fork. */
    method DeleteReceived(me: int, peer: int)
      requires Valid()
      modifies shell`proc, tubes, tubes.nodes
      ensures Valid() && fresh(set t | t in tubes.nodes && t !in old(tubes.nodes))
      ensures View() == ReceivedGone(old(View()), me, peer)
    {
      hide Unique, Without, HitFds, Items, CloseAll;
      var before := tubes.closed;
      WithoutUnique(tubes.Contents(), Pair(peer, me));
      var fault := tubes.DeleteIdTube(peer, me);
      assert tubes.closed[|before|..] == HitFds(old(tubes.Contents()), Pair(peer, me));
      shell.proc := CloseAll(shell.proc, tubes.closed[|before|..]);
    }

    /** The operator loop after the arguments of a command. */
    method ApplyOps(me: int, w: Wiring, receive: Option<int>, tokens: seq<string>)
      returns (ok: bool, x: Wiring, rec: Option<int>, rest: seq<string>)
      requires Valid() && TubeFits(shell.View(), ParseOps(tokens))
      modifies shell`proc, shell.table, tubes
      ensures Valid() && fresh(set t | t in tubes.nodes && t !in old(tubes.nodes))
      ensures ApplyTube(shell.pick, old(View()), me, w, receive, ParseOps(tokens)) ==
              (if ok then Wired(View(), x, rec) else Refused(View()))
      ensures ok ==> rest == AfterOps(tokens)
    {
      hide Unique, ReadOp, Items, ApplyTubeOp, ApplyTube, TubeFits;
      ok, x, rec, rest := true, w, receive, tokens;
      while rest != [] && IsOp(rest[0])
        invariant Valid() && fresh(set t | t in tubes.nodes && t !in old(tubes.nodes))
        invariant TubeFits(shell.View(), ParseOps(rest))
        invariant ApplyTube(shell.pick, View(), me, x, rec, ParseOps(rest)) ==
                  ApplyTube(shell.pick, old(View()), me, w, receive, ParseOps(tokens))
        invariant AfterOps(rest) == AfterOps(tokens)
        decreases |rest|
      {
        var ops := ParseOps(rest);
        assert ops[1..] == ParseOps(AfterOp(rest));
        ApplyTubeStep(shell.pick, View(), me, x, rec, ops);
        ok, x, rec := ApplyTubeToken(me, x, rec, ops[0]);
        if !ok { return; }
        rest := AfterOp(rest);
      }
      ApplyTubeEnd(shell.pick, View(), me, x, rec);
    }

    /** One operator. */
    method ApplyTubeToken(me: int, w: Wiring, receive: Option<int>, op: TubeOp)
      returns (ok: bool, x: Wiring, rec: Option<int>)
      requires Valid() && TubeOpFits(shell.View(), op)
      modifies shell`proc, shell.table, tubes
      ensures Valid() && fresh(set t | t in tubes.nodes && t !in old(tubes.nodes))
      ensures shell.count == old(shell.count)
      ensures ApplyTubeOp(shell.pick, old(View()), me, w, receive, op) ==
              (if ok then Wired(View(), x, rec) else Refused(View()))
    {
      hide Unique, Items;
      rec := receive;
      match op {
        case Num(op) =>
          x := ApplyNum(w, op);
          ok := true;
        case SendTo(n) =>
          ok, x := SendPipe(me, n, w);
        case ReceiveFrom(n) =>
          ok, x := ReceivePipe(me, n, w);
          if ok { rec := Some(n); }
      }
    }

    /** The argument loop. */
    method TakeArgs(tokens: seq<string>) returns (argv: seq<string>, rest: seq<string>)
      ensures argv == tokens[..ArgRun(tokens)] && rest == tokens[ArgRun(tokens)..]
    {
      argv, rest := [], tokens;
      while rest != [] && !IsOp(rest[0])
        invariant |argv| <= ArgRun(tokens)
        invariant argv == tokens[..|argv|] && rest == tokens[|argv|..]
        decreases |rest|
      {
        argv, rest := argv + [rest[0]], rest[1..];
      }
      assert |argv| == ArgRun(tokens);
    }

    /** The parent's side of a command that was wired. */
    method ForkCommand(me: int, w: Wiring, receive: Option<int>, argv: seq<string>)
      requires Valid() && shell.count < shell.table.Length
      modifies shell, shell.table, tubes, tubes.nodes
      ensures Valid() && fresh(set t | t in tubes.nodes && t !in old(tubes.nodes))
      ensures View() == FinishTube(old(View()), me, w, receive, argv)
    {
      hide Unique, Items, Finish, ReceivedGone;
      shell.ForkChild(w, argv);
      if receive.Some? { DeleteReceived(me, receive.value); }
    }

    /** A command with its arguments read: take the slot, wire the operators, fork. */
    method WireAndFork(me: int, receive: Option<int>, argv: seq<string>, tokens: seq<string>)
      returns (ok: bool, rec: Option<int>, rest: seq<string>)
      requires Valid() && TubeFits(shell.View(), ParseOps(tokens)) && (tokens != [] ==> IsOp(tokens[0]))
      modifies shell, shell.table, tubes, tubes.nodes
      ensures Valid() && fresh(set t | t in tubes.nodes && t !in old(tubes.nodes))
      ensures StepTube(shell.pick, old(View()), me, receive, TubeCommand(argv, ParseOps(tokens))) ==
              (if ok then Ran(View(), rec) else Stopped(View()))
      ensures ok ==> rest == AfterOps(tokens)
    {
      hide Unique, Items, ApplyTube, TubeFits, Begin, FinishTube, ParseOps, AfterOps, TubeList.Valid, UserList.Valid;
      BeginFits(shell.View(), ParseOps(tokens));
      FitsInTable(shell.View(), ParseOps(tokens));
      NoOps(tokens);
      var w := TakeSlot();
      if tokens == [] { w := w.(isWait := true); }
      ok, w, rec, rest := ApplyOps(me, w, receive, tokens);
      if ok { ForkCommand(me, w, rec, argv); }
    }

    /** The command at the head of `tokens`; `ok` is false when the line ends with an error. */
    method RunCommand(me: int, receive: Option<int>, tokens: seq<string>)
      returns (ok: bool, rec: Option<int>, rest: seq<string>)
      requires Valid() && tokens != [] && TubeFits(shell.View(), ParseLine(tokens)[0].ops)
      modifies shell, shell.table, tubes, tubes.nodes
      ensures Valid() && fresh(set t | t in tubes.nodes && t !in old(tubes.nodes))
      ensures StepTube(shell.pick, old(View()), me, receive, ParseLine(tokens)[0]) ==
              (if ok then Ran(View(), rec) else Stopped(View()))
      ensures ok ==> rest == AfterOps(tokens[ArgRun(tokens)..])
    {
      hide Unique, Items, StepTube, TubeFits, ParseOps, AfterOps;
      var argv, ops := TakeArgs(tokens);
      ok, rec, rest := WireAndFork(me, receive, argv, ops);
    }

    /** The test of the slot at the head of the loop. */
    method TakeSlot() returns (w: Wiring)
      requires Valid() && shell.count < shell.table.Length
      modifies shell`proc, shell.table
      ensures Valid() && View() == old(View()).(s := Begin(old(shell.View())))
      ensures w == Wiring(Stdin(old(shell.View())), Terminal, Terminal, false)
    {
      w := Wiring(0, Terminal, Terminal, false);
      var slot := shell.table[shell.count];
      if slot.read != 0 {
        w := w.(stdin := slot.read);
        shell.proc := CloseFd(shell.proc, slot.write);
        shell.table[shell.count] := slot.(write := 0);
      }
    }

    /** `handler` for user `me`: the commands of a line until one is refused. */
    method Handler(me: int, tokens: seq<string>)
      requires Valid() && Legible(tokens) && TubeStreamFits(shell.View(), ParseLine(tokens))
      modifies shell, shell.table, tubes, tubes.nodes
      ensures Valid() && View() == RunTubeLine(shell.pick, old(View()), me, None, ParseLine(tokens))
    {
      hide Unique, Items, StepTube, TubeFits, TubeStreamFits;
      var rest, receive: Option<int> := tokens, None;
      while rest != []
        invariant Valid() && fresh(set t | t in tubes.nodes && t !in old(tubes.nodes))
        invariant TubeStreamFits(shell.View(), ParseLine(rest))
        invariant RunTubeLine(shell.pick, View(), me, receive, ParseLine(rest)) ==
                  RunTubeLine(shell.pick, old(View()), me, None, ParseLine(tokens))
        decreases |rest|
      {
        var cmds := ParseLine(rest);
        TubeStreamTail(shell.pick, View(), me, receive, cmds);
        assert cmds[1..] == ParseLine(AfterOps(rest[ArgRun(rest)..]));
        var ok;
        ok, receive, rest := RunCommand(me, receive, rest);
        if !ok { return; }
      }
    }
  }

  lemma {:induction false} NoOps(tokens: seq<string>)
    ensures ParseOps(tokens) == [] <==> tokens == [] || !IsOp(tokens[0])
  {
  }

  lemma {:induction false} FitsInTable(s: State, ops: seq<TubeOp>)
    requires TubeFits(s, ops)
    ensures s.count < |s.table|
  {
  }

  lemma {:induction false} ApplyTubeEnd(pick: Allocator, v: Server, me: int, w: Wiring, receive: Option<int>)
    requires TubeFits(v.s, [])
    ensures ApplyTube(pick, v, me, w, receive, []) == Wired(v, w, receive)
  {
  }

  lemma {:induction false} FirstAt(es: seq<Entry>, sender: int, receiver: int, k: nat)
    requires k < |es| && Hit(Pair(sender, receiver), es[k])
    requires forall i | 0 <= i < k :: !Hit(Pair(sender, receiver), es[i])
    ensures HasPair(es, sender, receiver) && FirstOf(es, sender, receiver) == es[k]
  {
    if k > 0 {
      assert forall i | 0 <= i < k - 1 :: es[1..][i] == es[i + 1];
      FirstAt(es[1..], sender, receiver, k - 1);
    }
  }
}
