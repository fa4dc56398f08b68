/** Lines made of commands, `|` and `|N` only: how they print, and what each of the two
    parsers makes of the printed tokens. */
module PlainLines {
  import opened Text
  import opened Kernel
  import opened NumberedPipes
  import opened CommandTable
  import Shell

  /** What follows a command: nothing, `|`, or `|N`. */
  datatype Link = End | Plain | Numbered(n: nat)

  datatype Simple = Simple(argv: seq<string>, link: Link)

  type Line = seq<Simple>

  function Distance(link: Link): nat {
    match link
    case End => 0
    case Plain => 1
    case Numbered(n) => n
  }

  predicate PlainWord(w: string) {
    w != [] && w[0] != '!' && IsWord(w)
  }

  predicate PlainWords(words: seq<string>) {
    forall i | 0 <= i < |words| :: PlainWord(words[i])
  }

  /** Every command has words, and all but the last are followed by `|` or `|N`. */
  predicate PlainLine(line: Line) {
    line != [] &&
    forall i | 0 <= i < |line| ::
      line[i].argv != [] && PlainWords(line[i].argv) && (i + 1 < |line| ==> !line[i].link.End?)
  }

  function PrintLink(link: Link): seq<string> {
    match link
    case End => []
    case Plain => ["|"]
    case Numbered(n) => ["|" + Decimal(n)]
  }

  function Print(line: Line): seq<string> {
    if line == [] then [] else line[0].argv + PrintLink(line[0].link) + Print(line[1..])
  }

  /** `|` is written out as `|1`; `|0` is no jump at all, so its bar is lost. */
  function NormalLink(link: Link): Link {
    match link
    case Plain => Numbered(1)
    case Numbered(n) => if n == 0 then End else link
    case End => End
  }

  function Normalise(line: Line): Line {
    if line == [] then [] else [line[0].(link := NormalLink(line[0].link))] + Normalise(line[1..])
  }

  lemma {:induction false} LineTail(line: Line)
    requires PlainLine(line) && |line| > 1
    ensures PlainLine(line[1..])
  {
    assert forall i | 0 <= i < |line[1..]| :: line[1..][i] == line[i + 1];
  }

  lemma {:induction false} LinkToken(link: Link)
    requires !link.End?
    ensures var tok := PrintLink(link)[0];
      |PrintLink(link)| == 1 && IsBar(tok) && tok[0] == '|' &&
      (if |tok| == 1 then 1 else Atoi(tok[1..])) == Distance(link)
  {
    if link.Numbered? {
      ScanDecimal(link.n);
      var tok := "|" + Decimal(link.n);
      assert tok[1..] == Decimal(link.n) && tok[0] == '|';
    }
  }

  // ---- The parser of `handler` ----

  function ToCommand(c: Simple): Command {
    Command(c.argv, if c.link.End? then [] else [Bar(Distance(c.link))])
  }

  function ToCommands(line: Line): (r: seq<Command>)
    ensures |r| == |line| && forall i | 0 <= i < |r| :: r[i] == ToCommand(line[i])
  {
    if line == [] then [] else [ToCommand(line[0])] + ToCommands(line[1..])
  }

  lemma {:induction false} ArgRunOfWords(words: seq<string>, rest: seq<string>)
    requires PlainWords(words) && (rest != [] ==> Shell.IsOp(rest[0]))
    ensures Shell.ArgRun(words + rest) == |words|
  {
    if words == [] {
      assert words + rest == rest;
    } else {
      assert PlainWord(words[0]);
      assert (words + rest)[1..] == words[1..] + rest;
      assert forall i | 0 <= i < |words[1..]| :: words[1..][i] == words[i + 1];
      ArgRunOfWords(words[1..], rest);
    }
  }

  /** `handler` reads a printed line back as its commands. */
  lemma {:induction false} HandlerReads(line: Line)
    requires PlainLine(line)
    ensures Shell.ParseLine(Print(line)) == ToCommands(line)
    decreases |line|
  {
    var c, rest := line[0], Print(line[1..]);
    var link := PrintLink(c.link);
    var tokens := Print(line);
    assert tokens == c.argv + (link + rest);
    if c.link.End? {
      assert line[1..] == [] && link + rest == [];
      assert tokens == c.argv;
      ArgRunOfWords(c.argv, []);
      assert c.argv + [] == c.argv;
      assert tokens[..|c.argv|] == c.argv && tokens[|c.argv|..] == [];
    } else {
      LinkToken(c.link);
      ArgRunOfWords(c.argv, link + rest);
      assert tokens[..|c.argv|] == c.argv && tokens[|c.argv|..] == link + rest;
      assert (link + rest)[1..] == rest;
      if |line| > 1 {
        LineTail(line);
        assert PlainWord(line[1].argv[0]) && rest[0] == line[1].argv[0];
        HandlerReads(line[1..]);
      }
      assert Shell.ParseOps(link + rest) == [Bar(Distance(c.link))];
      assert Shell.AfterOps(link + rest) == rest;
    }
  }

  // ---- The parser into the table ----

  /** The commands of a line stored in consecutive rows. */
  function Store(t: Table, at: nat, line: Line): (r: Table)
    requires Sized(t) && at + |line| <= |t.rows|
    ensures Sized(r) && |r.rows| == |t.rows| && r.pos == t.pos
    decreases |line|
  {
    if line == [] then t
    else Store(StoreOne(t, at, line[0]), at + 1, line[1..])
  }

  function StoreOne(t: Table, at: nat, c: Simple): (r: Table)
    requires Sized(t) && at < |t.rows|
    ensures Sized(r) && |r.rows| == |t.rows| && r.pos == t.pos
  {
    t.(rows := t.rows[at := c.argv],
       pipeN := if c.link.End? then t.pipeN else t.pipeN[at := Distance(c.link)])
  }

  lemma {:induction false} RowEndsOfWords(words: seq<string>, rest: seq<string>)
    requires PlainWords(words)
    ensures RowEnds(words + rest) == RowEnds(rest)
  {
    if words == [] {
      assert words + rest == rest;
    } else {
      assert PlainWord(words[0]);
      assert (words + rest)[1..] == words[1..] + rest;
      assert forall i | 0 <= i < |words[1..]| :: words[1..][i] == words[i + 1];
      RowEndsOfWords(words[1..], rest);
    }
  }

  /** Parsing one plain word appends it to the current row. */
  lemma {:induction false} WordStep(t: Table, c: Cursor, tokens: seq<string>)
    requires Sized(t) && tokens != [] && PlainWord(tokens[0])
    requires t.pos + c.n + RowEnds(tokens[1..]) < |t.rows|
    ensures RowEnds(tokens) == RowEnds(tokens[1..])
    ensures ParseFrom(t, c, tokens) == ParseFrom(AddWords(t, c, [tokens[0]]), Cursor(c.n, c.ptr + 1), tokens[1..])
  {
    hide ParseToken, IsWord;
    WordToken(t, c, tokens);
    var u := ParseToken(t, t.pos + c.n, tokens[0], c.ptr);
    assert ParseFrom(t, c, tokens) == ParseFrom(u, NextCursor(c, tokens), tokens[1..]);
  }

  lemma {:induction false} WordToken(t: Table, c: Cursor, tokens: seq<string>)
    requires Sized(t) && tokens != [] && PlainWord(tokens[0]) && t.pos + c.n < |t.rows|
    ensures !Advances(tokens) && NextCursor(c, tokens) == Cursor(c.n, c.ptr + 1)
    ensures ParseToken(t, t.pos + c.n, tokens[0], c.ptr) == AddWords(t, c, [tokens[0]])
  {
    assert [] + [tokens[0]] == [tokens[0]];
  }

  function AddWords(t: Table, c: Cursor, words: seq<string>): Table
    requires Sized(t) && t.pos + c.n < |t.rows|
  {
    var at := t.pos + c.n;
    t.(rows := t.rows[at := (if c.ptr == 0 then [] else t.rows[at]) + words])
  }

  lemma {:induction false} AddMore(t: Table, c: Cursor, words: seq<string>)
    requires Sized(t) && t.pos + c.n < |t.rows| && words != []
    ensures AddWords(AddWords(t, c, [words[0]]), Cursor(c.n, c.ptr + 1), words[1..]) == AddWords(t, c, words)
  {
    var at := t.pos + c.n;
    var before := if c.ptr == 0 then [] else t.rows[at];
    assert words == [words[0]] + words[1..];
    assert before + [words[0]] + words[1..] == before + words;
    assert t.rows[at := before + [words[0]]][at := before + words] == t.rows[at := before + words];
  }

  lemma {:induction false} ParseWords(t: Table, c: Cursor, words: seq<string>, rest: seq<string>)
    requires Sized(t) && t.pos + c.n + RowEnds(rest) < |t.rows| && PlainWords(words) && words != []
    ensures RowEnds(words + rest) == RowEnds(rest)
    ensures ParseFrom(t, c, words + rest) == ParseFrom(AddWords(t, c, words), Cursor(c.n, c.ptr + |words|), rest)
    decreases |words|
  {
    hide ParseFrom, RowEnds, PlainWord;
    var tokens := words + rest;
    assert tokens[0] == words[0] && tokens[1..] == words[1..] + rest;
    RowEndsOfWords(words, rest);
    assert forall i | 0 <= i < |words[1..]| :: words[1..][i] == words[i + 1];
    RowEndsOfWords(words[1..], rest);
    WordStep(t, c, tokens);
    if |words| == 1 {
      assert tokens[1..] == rest && [words[0]] == words;
    } else {
      ParseWords(AddWords(t, c, [words[0]]), Cursor(c.n, c.ptr + 1), words[1..], rest);
      AddMore(t, c, words);
    }
  }

  lemma {:induction false} RowEndsOfLine(line: Line)
    requires PlainLine(line)
    ensures RowEnds(Print(line)) == |line| - 1
    decreases |line|
  {
    var c, rest := line[0], Print(line[1..]);
    var link := PrintLink(c.link);
    assert Print(line) == c.argv + (link + rest);
    RowEndsOfWords(c.argv, link + rest);
    if !c.link.End? {
      LinkToken(c.link);
      assert (link + rest)[1..] == rest;
      if |line| > 1 {
        LineTail(line);
        assert rest[0] == line[1].argv[0];
        RowEndsOfLine(line[1..]);
      }
    }
  }

  lemma {:induction false} LinkStep(t: Table, n: nat, argc: nat, c: Simple, rest: seq<string>)
    requires Sized(t) && !c.link.End? && t.pos + n < |t.rows|
    requires t.rows[t.pos + n] == c.argv
    ensures var tokens := PrintLink(c.link) + rest;
      tokens != [] && tokens[1..] == rest &&
      ParseToken(t, t.pos + n, tokens[0], argc) == StoreOne(t, t.pos + n, c) &&
      NextCursor(Cursor(n, argc), tokens) == (if rest == [] then Cursor(n, argc) else Cursor(n + 1, 0)) &&
      RowEnds(tokens) == (if rest == [] then 0 else 1 + RowEnds(rest))
  {
    LinkToken(c.link);
    var tokens := PrintLink(c.link) + rest;
    assert tokens[0] == PrintLink(c.link)[0] && tokens[1..] == rest;
    assert t.rows[t.pos + n := c.argv] == t.rows;
  }

  lemma {:induction false} ParseLineFrom(t: Table, n: nat, line: Line)
    requires Sized(t) && PlainLine(line) && t.pos + n + |line| <= |t.rows|
    ensures RowEnds(Print(line)) == |line| - 1
    ensures ParseFrom(t, Cursor(n, 0), Print(line)) == Store(t, t.pos + n, line).(num := n + |line|)
    decreases |line|
  {
    hide ParseToken, NextCursor, Advances, PlainWords, RowEnds, StoreOne, AddWords, PrintLink;
    RowEndsOfLine(line);
    var at, c, rest := t.pos + n, line[0], Print(line[1..]);
    var link := PrintLink(c.link);
    assert Print(line) == c.argv + (link + rest);
    RowEndsOfWords(c.argv, link + rest);
    ParseWords(t, Cursor(n, 0), c.argv, link + rest);
    var u := t.(rows := t.rows[at := c.argv]);
    assert u == AddWords(t, Cursor(n, 0), c.argv) by { AddFirst(t, Cursor(n, 0), c.argv); }
    assert StoreOne(t, at, c) == StoreOne(u, at, c) by { StoreOneTwice(t, at, c); }
    if c.link.End? {
      EndPrints(c.link);
      assert line[1..] == [] && link + rest == [];
      assert StoreOne(t, at, c) == u by { StoreOneTwice(t, at, c); }
    } else {
      LinkStep(u, n, |c.argv|, c, rest);
      if |line| > 1 {
        LineTail(line);
        assert line[1..][0].argv != [];
        RowEndsOfLine(line[1..]);
        ParseLineFrom(StoreOne(u, at, c), n + 1, line[1..]);
      } else {
        assert rest == [];
      }
    }
  }

  lemma {:induction false} AddFirst(t: Table, c: Cursor, words: seq<string>)
    requires Sized(t) && t.pos + c.n < |t.rows| && c.ptr == 0
    ensures AddWords(t, c, words) == t.(rows := t.rows[t.pos + c.n := words])
  {
    assert [] + words == words;
  }

  lemma {:induction false} EndPrints(link: Link)
    ensures link.End? ==> PrintLink(link) == []
  {
  }

  lemma {:induction false} StoreOneTwice(t: Table, at: nat, c: Simple)
    requires Sized(t) && at < |t.rows|
    ensures StoreOne(t.(rows := t.rows[at := c.argv]), at, c) == StoreOne(t, at, c)
    ensures c.link.End? ==> StoreOne(t, at, c) == t.(rows := t.rows[at := c.argv])
    ensures StoreOne(t, at, c).pos == t.pos
  {
    assert t.rows[at := c.argv][at := c.argv] == t.rows[at := c.argv];
  }

  /** `set_Command_Table` stores a printed line command by command from `currentPosition`. */
  lemma {:induction false} TableReads(t: Table, line: Line)
    requires Sized(t) && PlainLine(line) && t.pos + |line| <= |t.rows|
    ensures RowEnds(Print(line)) == |line| - 1
    ensures ParseTokens(t, Print(line)) == Store(ResetFlags(t), t.pos, line).(num := |line|)
  {
    ParseLineFrom(ResetFlags(t), 0, line);
  }

  /** Storing a line fills exactly its own rows. */
  lemma {:induction false} StoredAt(t: Table, at: nat, line: Line, k: nat)
    requires Sized(t) && at + |line| <= |t.rows| && k < |t.rows|
    ensures var r := Store(t, at, line);
      if at <= k < at + |line| then
        r.rows[k] == line[k - at].argv &&
        r.pipeN[k] == (if line[k - at].link.End? then t.pipeN[k] else Distance(line[k - at].link))
      else r.rows[k] == t.rows[k] && r.pipeN[k] == t.pipeN[k]
    ensures Store(t, at, line) == t.(rows := Store(t, at, line).rows, pipeN := Store(t, at, line).pipeN)
    decreases |line|
  {
    if line != [] { StoredAt(StoreOne(t, at, line[0]), at + 1, line[1..], k); }
  }

  // ---- Printing the table again ----

  /** The line that rows `at`, `at+1`, ... spell out. */
  function PrintRows(t: Table, at: nat, n: nat): seq<string>
    requires Sized(t) && at + n <= |t.rows|
    decreases n
  {
    if n == 0 then []
    else
      t.rows[at] + (if t.pipeN[at] > 0 then ["|" + Decimal(t.pipeN[at])] else []) + PrintRows(t, at + 1, n - 1)
  }

  lemma {:induction false} PrintStored(t: Table, at: nat, line: Line)
    requires Sized(t) && at + |line| <= |t.rows|
    requires forall i | 0 <= i < |line| ::
      t.rows[at + i] == line[i].argv && t.pipeN[at + i] == Distance(line[i].link)
    ensures PrintRows(t, at, |line|) == Print(Normalise(line))
    decreases |line|
  {
    if line != [] {
      assert forall i | 0 <= i < |line[1..]| :: line[1..][i] == line[i + 1] && t.rows[at + 1 + i] == t.rows[at + (i + 1)];
      PrintStored(t, at + 1, line[1..]);
      assert t.rows[at + 0] == line[0].argv;
    }
  }

  /** Parsing a line into unused rows and printing those rows gives the line back, with
      `|` written as `|1` and the bar of a `|0` left out; the row range starts where the previous line's ended, and all
      rows outside it, all descriptors and the position are unchanged. */
  lemma {:induction false} ParsePrintRoundTrip(t: Table, line: Line)
    requires Sized(t) && PlainLine(line) && t.pos + |line| <= |t.rows|
    requires forall k | t.pos <= k < |t.rows| :: t.pipeN[k] == 0
    ensures RowEnds(Print(line)) == |line| - 1
    ensures var r := ParseTokens(t, Print(line));
      && r.num == |line| && r.flags == NO_FLAGS && r.pos == t.pos && r.slots == t.slots
      && PrintRows(r, t.pos, r.num) == Print(Normalise(line))
      && (forall k | 0 <= k < |t.rows| && !(t.pos <= k < t.pos + r.num) ::
            r.rows[k] == t.rows[k] && r.pipeN[k] == t.pipeN[k])
  {
    hide Store, ParseTokens, ParseFrom;
    TableReads(t, line);
    StoredAt(ResetFlags(t), t.pos, line, t.pos);
    var r := ParseTokens(t, Print(line));
    forall k: nat | k < |t.rows|
      ensures if t.pos <= k < t.pos + |line| then
                r.rows[k] == line[k - t.pos].argv && r.pipeN[k] == Distance(line[k - t.pos].link)
              else r.rows[k] == t.rows[k] && r.pipeN[k] == t.pipeN[k]
    {
      StoredAt(ResetFlags(t), t.pos, line, k);
    }
    forall i | 0 <= i < |line|
      ensures r.rows[t.pos + i] == line[i].argv && r.pipeN[t.pos + i] == Distance(line[i].link)
    {
      var k: nat := t.pos + i;
      assert line[k - t.pos] == line[i];
    }
    PrintStored(r, t.pos, line);
  }
}
