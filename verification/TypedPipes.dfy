/** Typed lines of the multi-process server with `<n`, `>n` and `> f` anywhere: when they are
    accepted, and which pipe or file each child gets. */
module TypedPipes {
  import opened Text
  import opened Kernel
  import opened NumberedPipes
  import opened CommandTable
  import opened PlainLines
  import opened RedirectLines
  import opened OpenRows
  import opened FifoNames

  // ---- Typed lines ----

  /** A word or operator, or a user pipe. */
  datatype Piece = Tok(tok: string) | Take(peer: nat) | Give(peer: nat)

  function Written(x: Piece): string {
    match x
    case Tok(tok) => tok
    case Take(n) => "<" + Decimal(n)
    case Give(n) => ">" + Decimal(n)
  }

  function Render(xs: seq<Piece>): (r: seq<string>)
    ensures |r| == |xs| && forall i | 0 <= i < |r| :: r[i] == Written(xs[i])
  {
    if xs == [] then [] else [Written(xs[0])] + Render(xs[1..])
  }

  /** The last `<n` of the line. */
  function Taken(xs: seq<Piece>): Option<nat> {
    if xs == [] then None
    else if Taken(xs[1..]).Some? then Taken(xs[1..])
    else if xs[0].Take? then Some(xs[0].peer)
    else None
  }

  /** The last `>n`. */
  function Given(xs: seq<Piece>): Option<nat> {
    if xs == [] then None
    else if Given(xs[1..]).Some? then Given(xs[1..])
    else if xs[0].Give? then Some(xs[0].peer)
    else None
  }

  /** What is typed, and the line without its user pipes. */
  datatype Spoken = Spoken(pieces: seq<Piece>, shape: FileLine)

  predicate Speakable(l: Spoken) {
    && (forall i | 0 <= i < |l.pieces| :: l.pieces[i].Tok? ==> !UserTok(l.pieces[i].tok))
    && Typed(AsTyped(l)) && l.shape.line != []
  }

  function AsTyped(l: Spoken): TypedLine {
    TypedLine(Render(l.pieces), l.shape)
  }

  // ---- The parser ----

  lemma {:induction false} PeerToken(x: Piece)
    requires !x.Tok?
    ensures var tok := Written(x);
      && UserTok(tok) && tok[1..] == Decimal(x.peer) && Scan(tok[1..]) == Some(x.peer)
      && tok[0] == (if x.Take? then '<' else '>') && |tok| > 1 && ('>' in tok <==> x.Give?)
  {
    ScanDecimal(x.peer);
    var tok := Written(x);
    assert tok[1..] == Decimal(x.peer);
    forall i | 1 <= i < |tok|
      ensures IsDigit(tok[i])
    {
      assert tok[i] == Decimal(x.peer)[i - 1];
    }
  }

  /** What a table remembers of the user pipes. */
  predicate Peers(t: Table, from: int, to: int, receive: bool, send: bool) {
    t.fromId == from && t.toId == to && t.flags.receive == receive && t.flags.send == send
  }

  function Or(n: Option<nat>, id: int): int {
    match n
    case Some(k) => k
    case None => id
  }

  lemma {:induction false} PieceParses(t: Table, at: nat, x: Piece, ptr: nat)
    requires Sized(t) && at < |t.rows| && (x.Tok? ==> !UserTok(x.tok))
    ensures var u := ParseToken(t, at, Written(x), ptr);
      && Sized(u) && |u.rows| == |t.rows| && u.pos == t.pos
      && Peers(u, if x.Take? then x.peer else t.fromId, if x.Give? then x.peer else t.toId,
               t.flags.receive || x.Take?, t.flags.send || x.Give?)
  {
    if !x.Tok? { PeerToken(x); }
  }

  lemma {:induction false} PiecesParse(t: Table, c: Cursor, xs: seq<Piece>)
    requires Sized(t) && t.pos + c.n + RowEnds(Render(xs)) < |t.rows|
    requires forall i | 0 <= i < |xs| :: xs[i].Tok? ==> !UserTok(xs[i].tok)
    ensures Peers(ParseFrom(t, c, Render(xs)), Or(Taken(xs), t.fromId), Or(Given(xs), t.toId),
                  t.flags.receive || Taken(xs).Some?, t.flags.send || Given(xs).Some?)
    decreases |xs|
  {
    hide ParseToken, Written, UserTok, NextCursor, Advances;
    if xs != [] {
      var tokens := Render(xs);
      assert tokens[1..] == Render(xs[1..]);
      assert forall i | 0 <= i < |xs[1..]| :: xs[1..][i] == xs[i + 1];
      PieceParses(t, t.pos + c.n, xs[0], c.ptr);
      NextAt(c, tokens);
      PiecesParse(ParseToken(t, t.pos + c.n, tokens[0], c.ptr), NextCursor(c, tokens), xs[1..]);
    }
  }

  lemma {:induction false} NextAt(c: Cursor, tokens: seq<string>)
    requires tokens != []
    ensures NextCursor(c, tokens).n + RowEnds(tokens[1..]) == c.n + RowEnds(tokens)
  {
  }

  // ---- The children of a line ----

  /** Whether the executor waits for the last child, which is at row `cur`. */
  predicate Awaits(t: Table, cur: nat)
    requires cur < |t.pipeN|
  {
    (t.pipeN[cur] == 0 || t.flags.redirect) && !t.flags.send
  }

  /** The row's child. */
  lemma {:induction false} RowChild(pick: Allocator, m: Machine, i: nat, total: nat)
    requires i < total && RowFits(m.t, i, total)
    ensures var r, n, cur, last := ExecRow(pick, m, i, total), |m.proc.children|, m.t.pos + i, i + 1 == total;
      && |r.proc.children| == n + 1 && r.proc.children[..n] == m.proc.children
      && r.t.rows == m.t.rows && r.t.pos == m.t.pos && r.t.flags == m.t.flags
      && r.t.selfId == m.t.selfId && r.t.fromId == m.t.fromId && r.t.toId == m.t.toId
      && (forall k | cur < k < |m.t.rows| :: r.t.pipeN[k] == m.t.pipeN[k])
      && var c := r.proc.children[n];
         && c.argv == m.t.rows[cur] && c.stderr == Default
         && (c.waited <==> last && Awaits(m.t, cur))
         && (i == 0 && m.t.flags.receive ==> c.stdin == Fifo(FifoName(m.t.fromId, m.t.selfId)))
         && (last && m.t.flags.redirect ==> c.stdout == File(m.t.rows[cur + m.t.pipeN[cur]][0]))
         && (last && m.t.flags.send && !m.t.flags.redirect ==> c.stdout == Fifo(FifoName(m.t.selfId, m.t.toId)))
  {
    hide FifoName;
  }

  /** The port is the file whose name the last row's jump leads to. */
  predicate NamedFile(t: Table, total: nat, port: Port) {
    Sized(t) && 0 < total && t.pos + total <= |t.rows| &&
    (var at := t.pos + total - 1;
     0 <= at + t.pipeN[at] < |t.rows| && t.rows[at + t.pipeN[at]] != [] && port == File(t.rows[at + t.pipeN[at]][0]))
  }

  /** The children of rows i, i + 1, ... */
  lemma {:induction false} RowsChildren(pick: Allocator, m: Machine, i: nat, total: nat)
    requires i <= total && RowsFit(m.t, i, total)
    ensures var p, n := ExecRows(pick, m, i, total).proc, |m.proc.children|;
      && |p.children| == n + total - i && p.children[..n] == m.proc.children
      && (forall j | n <= j < n + total - i :: p.children[j].argv == m.t.rows[m.t.pos + i + (j - n)] && p.children[j].stderr == Default)
      && (forall j | n <= j < n + total - i :: p.children[j].waited <==> j == n + total - i - 1 && Awaits(m.t, m.t.pos + total - 1))
      && (i == 0 < total && m.t.flags.receive ==> p.children[n].stdin == Fifo(FifoName(m.t.fromId, m.t.selfId)))
      && (i < total && m.t.flags.redirect ==> NamedFile(m.t, total, p.children[n + total - 1 - i].stdout))
      && (i < total && m.t.flags.send && !m.t.flags.redirect ==>
            p.children[n + total - 1 - i].stdout == Fifo(FifoName(m.t.selfId, m.t.toId)))
    decreases total - i
  {
    hide ExecRow, FifoName, RowFits;
    if i < total {
      RowsFitTail(pick, m, i, total);
      assert RowFits(m.t, i, total);
      RowChild(pick, m, i, total);
      var r, n := ExecRow(pick, m, i, total), |m.proc.children|;
      RowsChildren(pick, r, i + 1, total);
      var p := ExecRows(pick, r, i + 1, total).proc;
      assert p.children[n] == p.children[..n + 1][n] == r.proc.children[n];
      assert p.children[..n] == p.children[..n + 1][..n];
      forall j | n <= j < n + total - i
        ensures p.children[j].argv == m.t.rows[m.t.pos + i + (j - n)] && p.children[j].stderr == Default
      {
        if j > n { assert p.children[j].argv == r.t.rows[r.t.pos + (i + 1) + (j - (n + 1))]; }
      }
      assert i + 1 < total ==> Awaits(r.t, r.t.pos + total - 1) == Awaits(m.t, m.t.pos + total - 1);
      if m.t.flags.redirect { LastFits(m.t, i, total); }
    }
  }

  lemma {:induction false} LastFits(t: Table, i: nat, total: nat)
    requires i < total && RowsFit(t, i, total) && t.flags.redirect
    ensures var at := t.pos + total - 1; 0 <= at + t.pipeN[at] < |t.rows| && t.rows[at + t.pipeN[at]] != []
  {
    assert RowFits(t, total - 1, total);
  }

  // ---- What the flags change ----

  /** Two children of the same row differ at most in the input of the first, in the output of
      the last, and in whether it is waited for. */
  predicate Alike(c: Child, d: Child, flags: Flags, first: bool, last: bool) {
    && c.argv == d.argv && c.stderr == d.stderr && c.held == d.held
    && ((first && flags.receive) || c.stdin == d.stdin)
    && ((last && (flags.send || flags.redirect)) || (c.stdout == d.stdout && c.waited == d.waited))
  }

  lemma {:induction false} ForkAlike(m: Machine, n: Machine, i: nat, total: nat)
    requires i < total && RowFits(m.t, i, total) && RowFits(n.t, i, total)
    requires n.t == Unflagged(m.t) && SameButChildren(m.proc, n.proc)
    ensures var e, r := ForkRow(m, i, total).proc, ForkRow(n, i, total).proc;
      && |e.children| == |m.proc.children| + 1 && |r.children| == |n.proc.children| + 1
      && Alike(e.children[|m.proc.children|], r.children[|n.proc.children|], m.t.flags, i == 0, i + 1 == total)
  {
    hide FifoName;
  }

  lemma {:induction false} RowAlike(pick: Allocator, m: Machine, n: Machine, i: nat, total: nat)
    requires i < total && RowFits(m.t, i, total) && n.t == Unflagged(m.t) && SameButChildren(m.proc, n.proc)
    ensures RowFits(n.t, i, total)
    ensures var e, r := ExecRow(pick, m, i, total), ExecRow(pick, n, i, total);
      && r.t == Unflagged(e.t) && e.t.flags == m.t.flags && SameButChildren(e.proc, r.proc)
      && |e.proc.children| == |m.proc.children| + 1 && |r.proc.children| == |n.proc.children| + 1
      && Alike(e.proc.children[|m.proc.children|], r.proc.children[|n.proc.children|], m.t.flags, i == 0, i + 1 == total)
  {
    hide TakeInput, MakeOutput, ForkRow, Release, Alike;
    RowBlind(pick, m, n, i, total);
    BlindInput(m, n, i, total);
    var m0, n0 := TakeInput(m, i), TakeInput(n, i);
    BlindOutput(pick, m0, n0, i, total);
    var m1, n1 := MakeOutput(pick, m0, i, total), MakeOutput(pick, n0, i, total);
    ForkAlike(m1, n1, i, total);
    SameChildren(pick, m, i, total);
    SameChildren(pick, n, i, total);
  }

  /** Only the fork makes a child. */
  lemma {:induction false} SameChildren(pick: Allocator, m: Machine, i: nat, total: nat)
    requires i < total && RowFits(m.t, i, total)
    ensures TakeInput(m, i).t == m.t
    ensures var o := MakeOutput(pick, TakeInput(m, i), i, total);
      && o.proc.children == m.proc.children && o.t.flags == m.t.flags && RowFits(o.t, i, total)
      && ExecRow(pick, m, i, total).proc.children == ForkRow(o, i, total).proc.children
  {
    hide ForkRow;
  }

  lemma {:induction false} RowsKeep(pick: Allocator, m: Machine, i: nat, total: nat)
    requires i <= total && RowsFit(m.t, i, total)
    ensures var p, n := ExecRows(pick, m, i, total).proc, |m.proc.children|;
      |p.children| == n + total - i && p.children[..n] == m.proc.children
  {
    hide ExecRow, RowFits, NamedFile, FifoName;
    RowsChildren(pick, m, i, total);
  }

  /** Whatever the flags of a line, its children have the words, error streams, inherited
      ends and pipes that they have without any flag, but for the two ends of the line. */
  lemma {:induction false} RowsAlike(pick: Allocator, m: Machine, n: Machine, i: nat, total: nat)
    requires i <= total && RowsFit(m.t, i, total) && n.t == Unflagged(m.t) && SameButChildren(m.proc, n.proc)
    ensures RowsFit(n.t, i, total)
    ensures var e, r := ExecRows(pick, m, i, total).proc, ExecRows(pick, n, i, total).proc; var a, b := |m.proc.children|, |n.proc.children|;
      && SameButChildren(e, r) && |e.children| == a + total - i && |r.children| == b + total - i
      && forall j | a <= j < a + total - i ::
           Alike(e.children[j], r.children[b + (j - a)], m.t.flags, i == 0 && j == a, j == a + total - i - 1)
    decreases total - i
  {
    hide ExecRow, RowFits, Alike;
    forall k: nat | i <= k < total
      ensures RowFits(n.t, k, total)
    {
      assert RowFits(m.t, k, total);
      RowAlike(pick, m, n, k, total);
    }
    if i < total {
      assert RowFits(m.t, i, total);
      RowAlike(pick, m, n, i, total);
      RowsFitTail(pick, m, i, total);
      RowsFitTail(pick, n, i, total);
      var e, r := ExecRow(pick, m, i, total), ExecRow(pick, n, i, total);
      var a, b := |m.proc.children|, |n.proc.children|;
      RowsAlike(pick, e, r, i + 1, total);
      RowsKeep(pick, e, i + 1, total);
      RowsKeep(pick, r, i + 1, total);
      var p, q := ExecRows(pick, e, i + 1, total).proc, ExecRows(pick, r, i + 1, total).proc;
      forall j | a <= j < a + total - i
        ensures Alike(p.children[j], q.children[b + (j - a)], m.t.flags, i == 0 && j == a, j == a + total - i - 1)
      {
        if j == a {
          assert p.children[a] == p.children[..a + 1][a] && q.children[b] == q.children[..b + 1][b];
        } else {
          assert b + (j - a) == b + 1 + (j - (a + 1));
        }
      }
    }
  }

  // ---- Lines ----

  /** Nothing is stored from the position on. */
  predicate Ready(m: Machine) {
    Sized(m.t) && forall k | m.t.pos <= k < |m.t.pipeN| :: m.t.pipeN[k] == 0
  }

  const SERVER_COMMANDS := {"setenv", "printenv", "who", "tell", "yell", "name"}

  /** The line is executed: no command of the server itself, and its user pipes are there or
      free. */
  predicate Accepts(m: Machine, l: Spoken, known: set<int>)
    requires Speakable(l)
  {
    var take, give := Taken(l.pieces), Given(l.pieces);
    && (l.shape.line[0].argv != [] ==> l.shape.line[0].argv[0] !in SERVER_COMMANDS)
    && (take.Some? ==> take.value in known && (take.value as int, m.t.selfId) in m.cells)
    && (give.Some? ==> give.value in known && (m.t.selfId, give.value as int) !in m.cells)
  }

  /** What the parser leaves of the line's rows. */
  ghost predicate StoredRows(t: Table, m: Machine, l: FileLine) {
    var n := |l.line|;
    && Sized(t) && |t.rows| == |m.t.rows| && t.pos == m.t.pos && t.selfId == m.t.selfId
    && 0 < n && t.pos + Rows(l) <= |t.rows| && t.num == Rows(l) && (t.flags.redirect <==> l.file.Some?)
    && (forall k | t.pos <= k < t.pos + n :: t.rows[k] == l.line[k - t.pos].argv)
    && (if l.file.Some? then t.rows[t.pos + n] == [l.file.value] && t.pipeN[t.pos + n - 1] == 1
        else t.pipeN[t.pos + n - 1] == Distance(l.line[n - 1].link))
    && forall k | t.pos + n <= k < |t.pipeN| :: t.pipeN[k] == 0
  }

  ghost predicate Stored(t: Table, m: Machine, l: Spoken) {
    StoredRows(t, m, l.shape) &&
    Peers(t, Or(Taken(l.pieces), m.t.selfId), Or(Given(l.pieces), m.t.selfId), Taken(l.pieces).Some?, Given(l.pieces).Some?)
  }

  lemma {:induction false} ShapeStored(m: Machine, l: FileLine, t: Table)
    requires Ready(m) && Acceptable(l) && l.line != [] && m.t.pos + Rows(l) <= |m.t.rows|
    requires SameRows(Parsed(m.t, l), t) && t.selfId == m.t.selfId
    ensures StoredRows(t, m, l)
  {
    hide Parsed, PlainLine, Acceptable, Body, Distance;
    ParsedShape(m.t, l);
    var u, n := Parsed(m.t, l), |l.line|;
    forall k: nat | t.pos <= k < |t.rows|
      ensures k < t.pos + n ==> t.rows[k] == l.line[k - t.pos].argv
      ensures k >= t.pos + n ==> t.pipeN[k] == 0
    {
      ParsedRow(m.t, l, k);
    }
    LastJump(m.t, l);
    if l.file.Some? { FileStored(m.t, l); }
  }

  lemma {:induction false} LastJump(t: Table, l: FileLine)
    requires Sized(t) && Acceptable(l) && l.line != [] && t.pos + Rows(l) <= |t.rows|
    requires forall j | t.pos <= j < |t.pipeN| :: t.pipeN[j] == 0
    ensures var u := Parsed(t, l);
      |u.pipeN| == |t.pipeN| &&
      u.pipeN[t.pos + |l.line| - 1] == if l.file.Some? then 1 else Distance(l.line[|l.line| - 1].link)
  {
    hide Parsed, PlainLine, Acceptable;
    BodyPlain(l);
    ParsedShape(t, l);
    ParsedRow(t, l, t.pos + |l.line| - 1);
  }

  lemma {:induction false} SpokenParses(m: Machine, l: Spoken)
    requires Ready(m) && Speakable(l) && m.t.pos + RowEnds(Render(l.pieces)) < |m.t.rows|
    ensures Stored(ParseTokens(m.t, Render(l.pieces)), m, l)
  {
    hide Store, ParseFrom, RowEnds, Typed, Parsed, PlainLine, Acceptable, SameRows, StoredRows;
    SpokenIsTyped(l);
    TypedParses(m.t, AsTyped(l));
    ShapeStored(m, l.shape, ParseTokens(m.t, Render(l.pieces)));
    PiecesParse(ResetFlags(m.t), Cursor(0, 0), l.pieces);
  }

  lemma {:induction false} SpokenIsTyped(l: Spoken)
    requires Speakable(l)
    ensures Typed(AsTyped(l)) && Acceptable(l.shape) && l.shape.line != []
    ensures forall i | 0 <= i < |l.pieces| :: l.pieces[i].Tok? ==> !UserTok(l.pieces[i].tok)
  {
  }

  lemma {:induction false} FileStored(t: Table, l: FileLine)
    requires Sized(t) && l.line != [] && l.file.Some? && t.pos + Rows(l) <= |t.rows|
    ensures var u := Parsed(t, l); |u.rows| == |t.rows| && u.rows[t.pos + |l.line|] == [l.file.value]
  {
    hide Store;
    StoredAt(ResetFlags(t), t.pos, l.line, t.pos);
  }

  /** The last child writes where `> f`, or else `>n`, says. */
  predicate Writes(l: Spoken, self: int, port: Port) {
    match l.shape.file
    case Some(f) => port == File(f)
    case None => Given(l.pieces).Some? ==> port == Fifo(FifoName(self, Given(l.pieces).value))
  }

  predicate ReadsPeer(l: Spoken, self: int, port: Port) {
    Taken(l.pieces).Some? ==> port == Fifo(FifoName(Taken(l.pieces).value, self))
  }

  /** The line's last child writes to the client or a file. */
  predicate WaitedFor(l: Spoken)
    requires l.shape.line != []
  {
    Given(l.pieces).None? && (l.shape.file.Some? || l.shape.line[|l.shape.line| - 1].link.End?)
  }

  /** A typed line is executed exactly when its first word is none of the server's commands, the
      peer of its last `<n` is known and has sent, and the peer of its last `>n` is known and
      has nothing pending; otherwise no child is forked and no cell changes. When it is
      executed its commands become children in order; the first one reads the pipe from n to
      this client, the last one writes the file, or else the pipe from this client to n, and
      only the last one is waited for, when it writes to the file or the client. */
  lemma {:induction false} LinePorts(pick: Allocator, m: Machine, l: Spoken, known: set<int>)
    requires Ready(m) && Speakable(l) && LineFits(m, Render(l.pieces))
    ensures var r, n, k := ExecLine(pick, m, Render(l.pieces), known), |m.proc.children|, |l.shape.line|;
      && Ready(r) && r.t.selfId == m.t.selfId && r.t.pos == m.t.pos + Rows(l.shape)
      && (!Accepts(m, l, known) ==> r.proc == m.proc && r.cells == m.cells)
      && (Accepts(m, l, known) ==>
            && |r.proc.children| == n + k && r.proc.children[..n] == m.proc.children
            && (forall j | n <= j < n + k :: r.proc.children[j].argv == l.shape.line[j - n].argv)
            && (forall j | n <= j < n + k :: r.proc.children[j].waited <==> j == n + k - 1 && WaitedFor(l))
            && ReadsPeer(l, m.t.selfId, r.proc.children[n].stdin)
            && Writes(l, m.t.selfId, r.proc.children[n + k - 1].stdout))
  {
    hide ParseTokens, RowEnds, FifoName, Speakable, Typed, ExecRow, RowFits, Peers, Acceptable;
    SpokenIsTyped(l);
    SpokenParses(m, l);
    var t := ParseTokens(m.t, Render(l.pieces));
    var u := m.(t := t);
    assert Total(t) == |l.shape.line|;
    AcceptsIff(m, l, known, t);
    assert t.rows[t.pos] == l.shape.line[0].argv;
    if Accepts(m, l, known) { ExecutedPorts(pick, m, l, t); }
  }

  lemma {:induction false} ExecutedPorts(pick: Allocator, m: Machine, l: Spoken, t: Table)
    requires Ready(m) && Acceptable(l.shape) && l.shape.line != [] && Stored(t, m, l) && RowsFit(t, 0, |l.shape.line|)
    ensures var k, n := |l.shape.line|, |m.proc.children|; var r := ExecRows(pick, m.(t := t), 0, k);
      && r.t.selfId == m.t.selfId && (forall j | m.t.pos + k <= j < |r.t.pipeN| :: r.t.pipeN[j] == 0)
      && |r.proc.children| == n + k && r.proc.children[..n] == m.proc.children
      && (forall j | n <= j < n + k :: r.proc.children[j].argv == l.shape.line[j - n].argv)
      && (forall j | n <= j < n + k :: r.proc.children[j].waited <==> j == n + k - 1 && WaitedFor(l))
      && ReadsPeer(l, m.t.selfId, r.proc.children[n].stdin)
      && Writes(l, m.t.selfId, r.proc.children[n + k - 1].stdout)
  {
    hide FifoName, ExecRow, RowFits, Peers, Acceptable, Awaits, WaitedFor;
    var u, k := m.(t := t), |l.shape.line|;
    RowsChildren(pick, u, 0, k);
    RowsReady(pick, u, 0, k);
    PortsOf(m, l, t);
    WaitsIff(m, l, t);
  }

  lemma {:induction false} WaitsIff(m: Machine, l: Spoken, t: Table)
    requires Stored(t, m, l) && Acceptable(l.shape)
    ensures Awaits(t, t.pos + |l.shape.line| - 1) <==> WaitedFor(l)
  {
    assert l.shape.line[|l.shape.line| - 1].link != Numbered(0);
  }

  lemma {:induction false} AcceptsIff(m: Machine, l: Spoken, known: set<int>, t: Table)
    requires Speakable(l) && Stored(t, m, l) && t.rows[t.pos] != []
    ensures Accepts(m, l, known) <==> t.rows[t.pos][0] !in BUILTINS && !Refused(m.(t := t), known)
  {
    hide Speakable, Typed;
    assert t.rows[t.pos] == l.shape.line[0].argv;
    assert BUILTINS == SERVER_COMMANDS;
  }

  lemma {:induction false} PortsOf(m: Machine, l: Spoken, t: Table)
    requires Stored(t, m, l)
    ensures t.flags.receive ==> t.fromId == Taken(l.pieces).value && t.selfId == m.t.selfId
    ensures t.flags.send ==> t.toId == Given(l.pieces).value
    ensures t.flags.receive <==> Taken(l.pieces).Some?
    ensures t.flags.send <==> Given(l.pieces).Some?
    ensures forall port | NamedFile(t, |l.shape.line|, port) && l.shape.file.Some? :: port == File(l.shape.file.value)
  {
  }

  lemma {:induction false} RowsReady(pick: Allocator, m: Machine, i: nat, total: nat)
    requires i <= total && RowsFit(m.t, i, total)
    ensures var r := ExecRows(pick, m, i, total);
      && r.t.selfId == m.t.selfId && Sized(r.t) && |r.t.rows| == |m.t.rows|
      && forall k | m.t.pos + total <= k < |m.t.pipeN| :: r.t.pipeN[k] == m.t.pipeN[k]
    decreases total - i
  {
    hide RowFits, TakeInput, MakeOutput, ForkRow, Release, ExecRow;
    if i < total {
      RowsFitTail(pick, m, i, total);
      assert RowFits(m.t, i, total);
      RowChild(pick, m, i, total);
      RowsReady(pick, ExecRow(pick, m, i, total), i + 1, total);
    }
  }

  // ---- One pipe for both ----

  /** When client s has an accepted `>r` and another client `me` an accepted `<n`, the last
      child of the first line writes the very pipe that the first child of the second line
      reads exactly when both are about the same pair, or the names of the two pairs' files
      happen to agree. */
  lemma {:induction false} SamePipe(pick: Allocator, a: Machine, b: Machine, send: Spoken, receive: Spoken,
                                    known: set<int>, known': set<int>, s: nat, r: nat, n: nat, me: nat)
    requires Ready(a) && Speakable(send) && LineFits(a, Render(send.pieces)) && a.t.selfId == s
    requires Ready(b) && Speakable(receive) && LineFits(b, Render(receive.pieces)) && b.t.selfId == me
    requires Given(send.pieces) == Some(r) && send.shape.file.None? && Accepts(a, send, known)
    requires Taken(receive.pieces) == Some(n) && Accepts(b, receive, known')
    ensures var x, y := ExecLine(pick, a, Render(send.pieces), known).proc, ExecLine(pick, b, Render(receive.pieces), known').proc;
      var i, j := |a.proc.children| + |send.shape.line| - 1, |b.proc.children|;
      && i < |x.children| && j < |y.children| && x.children[i].stdout.Fifo? && y.children[j].stdin.Fifo?
      && (x.children[i].stdout == y.children[j].stdin <==> SameFile(s, r, n, me))
  {
    hide ExecLine, LineFits, Speakable, Accepts, FifoName, SameFile;
    LinePorts(pick, a, send, known);
    LinePorts(pick, b, receive, known');
    HasCommands(send);
    HasCommands(receive);
    NamesIff(s, r, n, me);
  }

  lemma {:induction false} HasCommands(l: Spoken)
    requires Speakable(l)
    ensures l.shape.line != []
  {
  }
}
