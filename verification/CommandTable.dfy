/** The second implementation of numbered pipes: a line is first parsed into absolute
    rows and jump distances (NP_Project2/np_multi_proc_/src/CommandTable.c), then the
    rows are executed (NP_Project2/np_multi_proc_/src/shell.c). Here as functions on
    values; the class that updates arrays in place is in MultiShell.dfy. */
module CommandTable {
  import opened Text
  import opened Kernel
  import opened NumberedPipes

  const TOKEN_BUFFSIZE := 30000
  const PROCESS_NUM := 30000

  /** An unused row of `pipetable` holds STDIN_FILENO and STDOUT_FILENO. */
  const UNUSED := Slot(0, 1)

  datatype Flags = Flags(redirect: bool, append: bool, receive: bool, send: bool)

  const NO_FLAGS := Flags(false, false, false, false)

  datatype Table = Table(
    rows: seq<seq<string>>,   // cmdTable
    pipeN: seq<int>,
    slots: seq<Slot>,         // pipetable
    selfId: int, fromId: int, toId: int,
    flags: Flags,
    num: nat,                 // numOfCommands
    pos: nat)                 // currentPosition

  function InitTable(id: int): Table {
    Table(seq(TOKEN_BUFFSIZE, _ => []), seq(TOKEN_BUFFSIZE, _ => 0), seq(PROCESS_NUM, _ => UNUSED),
          id, id, id, NO_FLAGS, 0, 0)
  }

  predicate Sized(t: Table) {
    |t.rows| == |t.pipeN| == |t.slots|
  }

  // ---- set_Command_Table ----

  /** The tokens' cursor: `numOfCommands` and `command_pointer`. */
  datatype Cursor = Cursor(n: nat, ptr: nat)

  predicate IsBar(tok: string) {
    '|' in tok
  }

  predicate IsFile(tok: string) {
    tok == ">" || tok == ">>"
  }

  /** The head of `tokens` ends a row. */
  predicate Advances(tokens: seq<string>)
    requires tokens != []
  {
    (IsBar(tokens[0]) && |tokens| > 1) || (!IsBar(tokens[0]) && IsFile(tokens[0]))
  }

  function RowEnds(tokens: seq<string>): nat {
    if tokens == [] then 0
    else (if Advances(tokens) then 1 else 0) + RowEnds(tokens[1..])
  }

  /** `sscanf(tok, "<mark>%d", &id)`: `id` keeps its value when the text does not match. */
  function ScanId(tok: string, mark: char, id: int): int {
    if tok != [] && tok[0] == mark && Scan(tok[1..]).Some? then Scan(tok[1..]).value else id
  }

  function ParseToken(t: Table, at: nat, tok: string, ptr: nat): Table
    requires Sized(t) && at < |t.rows|
  {
    if IsBar(tok) then
      t.(pipeN := t.pipeN[at := if |tok| == 1 then 1 else Atoi(tok[1..])])
    else if IsFile(tok) then
      t.(pipeN := t.pipeN[at := 1],
         flags := if tok == ">" then t.flags.(redirect := true) else t.flags.(append := true))
    else if '>' in tok then
      t.(toId := ScanId(tok, '>', t.toId), flags := t.flags.(send := true))
    else if '<' in tok && |tok| > 1 then
      t.(fromId := ScanId(tok, '<', t.fromId), flags := t.flags.(receive := true))
    else
      t.(rows := t.rows[at := if ptr == 0 then [tok] else t.rows[at] + [tok]])
  }

  predicate IsWord(tok: string) {
    !IsBar(tok) && '>' !in tok && !('<' in tok && |tok| > 1)
  }

  function NextCursor(c: Cursor, tokens: seq<string>): Cursor
    requires tokens != []
  {
    if Advances(tokens) then Cursor(c.n + 1, 0)
    else if IsWord(tokens[0]) then c.(ptr := c.ptr + 1)
    else c
  }

  function ParseFrom(t: Table, c: Cursor, tokens: seq<string>): (r: Table)
    requires Sized(t) && t.pos + c.n + RowEnds(tokens) < |t.rows|
    ensures Sized(r) && |r.rows| == |t.rows| && r.pos == t.pos && r.slots == t.slots && r.selfId == t.selfId
    decreases |tokens|
  {
    if tokens == [] then t.(num := c.n + 1)
    else ParseFrom(ParseToken(t, t.pos + c.n, tokens[0], c.ptr), NextCursor(c, tokens), tokens[1..])
  }

  function ResetFlags(t: Table): Table {
    t.(fromId := t.selfId, toId := t.selfId, flags := NO_FLAGS, num := 0)
  }

  function ParseTokens(t: Table, tokens: seq<string>): (r: Table)
    requires Sized(t) && t.pos + RowEnds(tokens) < |t.rows|
    ensures Sized(r) && |r.rows| == |t.rows| && r.pos == t.pos && r.slots == t.slots && r.selfId == t.selfId
  {
    ParseFrom(ResetFlags(t), Cursor(0, 0), tokens)
  }

  // ---- execute_pipeline ----

  /** One process's view while it executes: its table, its descriptors and children, and
      the raised cells (from, to) of the shared user-pipe matrix. */
  datatype Machine = Machine(t: Table, proc: Proc, cells: set<(int, int)>)

  predicate RowFits(t: Table, i: nat, total: nat) {
    Sized(t) && t.pos + i < |t.rows| &&
    (t.pipeN[t.pos + i] > 0 ==> t.pos + i + t.pipeN[t.pos + i] < |t.rows|) &&
    (t.flags.redirect && i + 1 == total ==>
       0 <= t.pos + i + t.pipeN[t.pos + i] < |t.rows| && t.rows[t.pos + i + t.pipeN[t.pos + i]] != [])
  }

  /** Take the numbered pipe of the row, or else lower the user-pipe cell. */
  function TakeInput(m: Machine, i: nat): Machine
    requires Sized(m.t) && m.t.pos + i < |m.t.rows|
  {
    var slot := m.t.slots[m.t.pos + i];
    if slot.read != 0 then m.(proc := CloseFd(m.proc, slot.write))
    else m.(cells := m.cells - {(m.t.fromId, m.t.selfId)})
  }

  /** Open the target pipe of the row, or else raise the user-pipe cell. */
  function MakeOutput(pick: Allocator, m: Machine, i: nat, total: nat): (r: Machine)
    requires RowFits(m.t, i, total)
    ensures Sized(r.t) && |r.t.rows| == |m.t.rows|
    ensures r.t == m.t.(slots := r.t.slots)
  {
    var cur := m.t.pos + i;
    if m.t.pipeN[cur] > 0 then
      var next := cur + m.t.pipeN[cur];
      if m.t.slots[next].write == 1 then
        var (proc, r, w) := OpenPipe(pick, m.proc, next);
        m.(t := m.t.(slots := m.t.slots[next := Slot(r, w)]), proc := proc)
      else m
    else if i + 1 == total && m.t.flags.send then m.(cells := m.cells + {(m.t.selfId, m.t.toId)})
    else m
  }

  function Output(t: Table, i: nat, total: nat): Target
    requires RowFits(t, i, total)
  {
    var cur := t.pos + i;
    if t.pipeN[cur] > 0 then Fd(t.slots[cur + t.pipeN[cur]].write) else Terminal
  }

  /** `getFIFONAME`: the two numbers stand side by side. */
  function FifoName(from: int, to: int): string {
    "./user_pipe/userpipe" + Printed(from) + Printed(to)
  }

  function ForkRow(m: Machine, i: nat, total: nat): Machine
    requires RowFits(m.t, i, total)
  {
    var t := m.t;
    var cur, last := t.pos + i, i + 1 == total;
    var stdin := if i == 0 && t.flags.receive then Fifo(FifoName(t.fromId, t.selfId))
                 else PortOf(m.proc, t.slots[cur].read);
    var stdout := if t.flags.redirect && last then File(t.rows[cur + t.pipeN[cur]][0])
                  else if last && t.flags.send then Fifo(FifoName(t.selfId, t.toId))
                  else TargetPort(m.proc, Output(t, i, total));
    var waited := last && (t.pipeN[cur] == 0 || t.flags.redirect) && !t.flags.send;
    m.(proc := Fork(m.proc, t.rows[cur], stdin, stdout, Default, waited))
  }

  predicate AllZero(pipeN: seq<int>) {
    forall k | 0 <= k < |pipeN| :: pipeN[k] == 0
  }

  /** Close the input that was handed over, and the output when `finish_pre` says that no
      row up to this one has a pending jump. */
  function Release(m: Machine, i: nat, total: nat): Machine
    requires RowFits(m.t, i, total)
  {
    var cur := m.t.pos + i;
    var p := if m.t.slots[cur].read != 0 then CloseFd(m.proc, m.t.slots[cur].read) else m.proc;
    var out := Output(m.t, i, total);
    var q := if !m.t.flags.send && out.Fd? && AllZero(m.t.pipeN[..cur + 1]) then CloseFd(p, out.fd) else p;
    m.(proc := q, t := m.t.(pipeN := m.t.pipeN[cur := 0]))
  }

  function ExecRow(pick: Allocator, m: Machine, i: nat, total: nat): (r: Machine)
    requires RowFits(m.t, i, total)
    ensures Sized(r.t) && |r.t.rows| == |m.t.rows| && r.t.pos == m.t.pos
    ensures r.t == m.t.(slots := r.t.slots, pipeN := m.t.pipeN[m.t.pos + i := 0])
  {
    Release(ForkRow(MakeOutput(pick, TakeInput(m, i), i, total), i, total), i, total)
  }

  predicate RowsFit(t: Table, i: nat, total: nat) {
    Sized(t) && t.pos + total <= |t.rows| && forall k: nat | i <= k < total :: RowFits(t, k, total)
  }

  lemma {:induction false} RowsFitTail(pick: Allocator, m: Machine, i: nat, total: nat)
    requires i < total && RowsFit(m.t, i, total)
    ensures RowsFit(ExecRow(pick, m, i, total).t, i + 1, total)
  {
    var r := ExecRow(pick, m, i, total);
    forall k: nat | i + 1 <= k < total
      ensures RowFits(r.t, k, total)
    {
      assert RowFits(m.t, k, total);
    }
  }

  function ExecRows(pick: Allocator, m: Machine, i: nat, total: nat): (r: Machine)
    requires RowsFit(m.t, i, total)
    ensures Sized(r.t) && |r.t.rows| == |m.t.rows| && r.t.pos == m.t.pos && r.t.num == m.t.num
    decreases total - i
  {
    if i >= total then m
    else
      RowsFitTail(pick, m, i, total);
      ExecRows(pick, ExecRow(pick, m, i, total), i + 1, total)
  }

  /** The filename of a `>` takes the last row, which is not a command. */
  function Total(t: Table): nat {
    if t.flags.redirect && t.num > 0 then t.num - 1 else t.num
  }

  // ---- execute ----

  const BUILTINS := {"setenv", "printenv", "who", "tell", "yell", "name"}

  /** `known` are the ids that the client registry finds. */
  predicate Refused(m: Machine, known: set<int>) {
    (m.t.flags.receive && (m.t.fromId !in known || (m.t.fromId, m.t.selfId) !in m.cells)) ||
    (m.t.flags.send && (m.t.toId !in known || (m.t.selfId, m.t.toId) in m.cells))
  }

  predicate ExecFits(t: Table) {
    Sized(t) && t.pos < |t.rows| && t.rows[t.pos] != [] && RowsFit(t, 0, Total(t))
  }

  function Exec(pick: Allocator, m: Machine, known: set<int>): (r: Machine)
    requires ExecFits(m.t)
    ensures Sized(r.t) && |r.t.rows| == |m.t.rows| && r.t.pos == m.t.pos && r.t.num == m.t.num
  {
    if m.t.rows[m.t.pos][0] in BUILTINS || Refused(m, known) then m
    else ExecRows(pick, m, 0, Total(m.t))
  }

  /** One line: parse, execute, and move on by the number of rows. */
  function ExecLine(pick: Allocator, m: Machine, tokens: seq<string>, known: set<int>): (r: Machine)
    requires LineFits(m, tokens)
    ensures Sized(r.t) && |r.t.rows| == |m.t.rows|
  {
    var e := Exec(pick, m.(t := ParseTokens(m.t, tokens)), known);
    e.(t := e.t.(pos := e.t.pos + e.t.num))
  }

  predicate LineFits(m: Machine, tokens: seq<string>) {
    Sized(m.t) && m.t.pos + RowEnds(tokens) < |m.t.rows| && ExecFits(ParseTokens(m.t, tokens))
  }
}
