/** What the parser of the multi-process server makes of lines with `> file`, `<n` and `>n`:
    the file name takes a row and the command before it a jump of 1, and a user-pipe token
    sets an id and a flag wherever it stands. */
module RedirectLines {
  import opened Text
  import opened CommandTable
  import opened PlainLines

  /** Commands with `|` and `|N`, and perhaps `> file` at the end. */
  datatype FileLine = FileLine(line: Line, file: Option<string>)

  predicate Acceptable(l: FileLine) {
    && PlainLine(l.line) && (forall i | 0 <= i < |l.line| :: l.line[i].link != Numbered(0))
    && (l.file.Some? ==> l.line[|l.line| - 1].link.End? && IsWord(l.file.value))
  }

  function PrintFile(l: FileLine): seq<string> {
    Print(l.line) + (if l.file.Some? then [">", l.file.value] else [])
  }

  /** The rows that the line takes. */
  function Rows(l: FileLine): nat {
    |l.line| + if l.file.Some? then 1 else 0
  }

  /** What the table holds of the line: with a file name the last jump is 1. */
  function Body(l: FileLine): (r: Line)
    requires l.line != []
    ensures |r| == |l.line|
  {
    var last := |l.line| - 1;
    if l.file.Some? then l.line[last := l.line[last].(link := Plain)] else l.line
  }

  // ---- The parser ----

  lemma {:induction false} RowEndsThen(line: Line, rest: seq<string>)
    requires PlainLine(line) && line[|line| - 1].link.End?
    ensures RowEnds(Print(line) + rest) == |line| - 1 + RowEnds(rest)
    decreases |line|
  {
    var c, more := line[0], Print(line[1..]) + rest;
    var link := PrintLink(c.link);
    assert Print(line) + rest == c.argv + (link + more);
    RowEndsOfWords(c.argv, link + more);
    if |line| == 1 {
      assert line[1..] == [] && link + more == rest;
    } else {
      LinkToken(c.link);
      LineTail(line);
      assert (link + more)[0] == link[0] && (link + more)[1..] == more;
      assert line[1..][0].argv != [];
      RowEndsThen(line[1..], rest);
    }
  }

  /** A line whose last command has no link, with more tokens behind it. */
  lemma {:induction false} ParseLineThen(t: Table, n: nat, line: Line, rest: seq<string>)
    requires Sized(t) && PlainLine(line) && line[|line| - 1].link.End?
    requires t.pos + n + |line| - 1 + RowEnds(rest) < |t.rows|
    ensures RowEnds(Print(line) + rest) == |line| - 1 + RowEnds(rest)
    ensures ParseFrom(t, Cursor(n, 0), Print(line) + rest) ==
            ParseFrom(Store(t, t.pos + n, line), Cursor(n + |line| - 1, |line[|line| - 1].argv|), rest)
    decreases |line|
  {
    hide ParseToken, NextCursor, Advances, PlainWords, RowEnds, StoreOne, AddWords, PrintLink, ParseFrom;
    RowEndsThen(line, rest);
    var at, c, more := t.pos + n, line[0], Print(line[1..]) + rest;
    var link := PrintLink(c.link);
    assert Print(line) + rest == c.argv + (link + more);
    RowEndsOfWords(c.argv, link + more);
    ParseWords(t, Cursor(n, 0), c.argv, link + more);
    var u := t.(rows := t.rows[at := c.argv]);
    assert u == AddWords(t, Cursor(n, 0), c.argv) by { AddFirst(t, Cursor(n, 0), c.argv); }
    assert StoreOne(t, at, c) == StoreOne(u, at, c) by { StoreOneTwice(t, at, c); }
    if |line| == 1 {
      EndPrints(c.link);
      assert line[1..] == [] && link + more == rest;
      assert StoreOne(t, at, c) == u by { StoreOneTwice(t, at, c); }
    } else {
      LineTail(line);
      LinkStep(u, n, |c.argv|, c, more);
      assert line[1..][0].argv != [];
      RowEndsThen(line[1..], rest);
      LinkParses(u, n, |c.argv|, c, more);
      assert StoreOne(u, at, c).pos == t.pos && |StoreOne(u, at, c).rows| == |t.rows| by { StoreOneTwice(t, at, c); }
      ParseLineThen(StoreOne(u, at, c), n + 1, line[1..], rest);
    }
  }

  lemma {:induction false} LinkParses(t: Table, n: nat, argc: nat, c: Simple, rest: seq<string>)
    requires Sized(t) && !c.link.End? && t.pos + n + RowEnds(PrintLink(c.link) + rest) < |t.rows| && rest != []
    requires t.rows[t.pos + n] == c.argv
    ensures ParseFrom(t, Cursor(n, argc), PrintLink(c.link) + rest) ==
            ParseFrom(StoreOne(t, t.pos + n, c), Cursor(n + 1, 0), rest)
  {
    hide ParseToken, NextCursor, StoreOne, PrintLink;
    LinkStep(t, n, argc, c, rest);
  }

  /** The table after `> file`. */
  function WithFile(t: Table, at: nat, file: string): Table
    requires Sized(t) && at + 1 < |t.rows|
  {
    t.(pipeN := t.pipeN[at := 1], flags := t.flags.(redirect := true), rows := t.rows[at + 1 := [file]])
  }

  lemma {:induction false} FileRowEnds(file: string)
    requires IsWord(file)
    ensures RowEnds([">", file]) == 1
  {
    assert [">", file][1..] == [file] && [file][1..] == [];
    assert RowEnds([file]) == 0;
  }

  lemma {:induction false} ParseFile(t: Table, c: Cursor, file: string)
    requires Sized(t) && t.pos + c.n + 1 < |t.rows| && IsWord(file)
    ensures RowEnds([">", file]) == 1
    ensures ParseFrom(t, c, [">", file]) == WithFile(t, t.pos + c.n, file).(num := c.n + 2)
  {
    var tokens := [">", file];
    FileRowEnds(file);
    assert tokens[1..] == [file] && [file][1..] == [];
    var u := ParseToken(t, t.pos + c.n, ">", c.ptr);
    assert ParseFrom(t, c, tokens) == ParseFrom(u, Cursor(c.n + 1, 0), [file]);
    var v := ParseToken(u, u.pos + c.n + 1, file, 0);
    assert ParseFrom(u, Cursor(c.n + 1, 0), [file]) == ParseFrom(v, Cursor(c.n + 1, 1), []);
  }

  /** What the parser makes of a line with `> file`. */
  lemma {:induction false} TableReadsFile(t: Table, l: FileLine)
    requires Sized(t) && Acceptable(l) && l.file.Some? && t.pos + |l.line| < |t.rows|
    ensures RowEnds(PrintFile(l)) == |l.line|
    ensures ParseTokens(t, PrintFile(l)) ==
            WithFile(Store(ResetFlags(t), t.pos, l.line), t.pos + |l.line| - 1, l.file.value).(num := |l.line| + 1)
  {
    hide Store, ParseFrom, RowEnds, Print;
    var u := ResetFlags(t);
    var s := Store(u, t.pos, l.line);
    StoredAt(u, t.pos, l.line, t.pos);
    ParseFile(s, Cursor(|l.line| - 1, |l.line[|l.line| - 1].argv|), l.file.value);
    ParseLineThen(u, 0, l.line, [">", l.file.value]);
  }

  // ---- User-pipe tokens ----

  predicate UserTok(tok: string) {
    !IsBar(tok) && !IsFile(tok) && ('>' in tok || ('<' in tok && |tok| > 1))
  }

  /** The tokens without `<n` and `>n`. */
  function Strip(tokens: seq<string>): seq<string> {
    if tokens == [] then [] else (if UserTok(tokens[0]) then [] else [tokens[0]]) + Strip(tokens[1..])
  }

  /** No bar has user-pipe tokens only behind it: the parser would begin a row there. */
  predicate Placed(tokens: seq<string>) {
    tokens == [] || ((IsBar(tokens[0]) && |tokens| > 1 ==> Strip(tokens[1..]) != []) && Placed(tokens[1..]))
  }

  /** The tables differ at most in the user pipes of the line. */
  predicate SameRows(t: Table, u: Table) {
    u == t.(fromId := u.fromId, toId := u.toId, flags := t.flags.(receive := u.flags.receive, send := u.flags.send))
  }

  lemma {:induction false} SameToken(t: Table, u: Table, at: nat, tok: string, ptr: nat)
    requires Sized(t) && at < |t.rows| && SameRows(t, u)
    ensures SameRows(if UserTok(tok) then t else ParseToken(t, at, tok, ptr), ParseToken(u, at, tok, ptr))
  {
  }

  /** Wherever the user-pipe tokens stand, rows and jumps are those of the line without them. */
  lemma {:induction false} StripParses(t: Table, u: Table, c: Cursor, tokens: seq<string>)
    requires Sized(t) && SameRows(t, u) && Placed(tokens) && t.pos + c.n + RowEnds(Strip(tokens)) < |t.rows|
    ensures RowEnds(tokens) == RowEnds(Strip(tokens))
    ensures SameRows(ParseFrom(t, c, Strip(tokens)), ParseFrom(u, c, tokens))
    decreases |tokens|
  {
    hide ParseToken;
    if tokens != [] {
      var tok, rest := tokens[0], Strip(tokens[1..]);
      StripRowEnds(tokens);
      SameToken(t, u, t.pos + c.n, tok, c.ptr);
      if UserTok(tok) {
        assert Strip(tokens) == rest;
        StripParses(t, ParseToken(u, u.pos + c.n, tok, c.ptr), c, tokens[1..]);
      } else {
        assert Strip(tokens)[0] == tok && Strip(tokens)[1..] == rest;
        assert NextCursor(c, tokens) == NextCursor(c, Strip(tokens));
        TokenKeeps(t, t.pos + c.n, tok, c.ptr);
        StripParses(ParseToken(t, t.pos + c.n, tok, c.ptr), ParseToken(u, u.pos + c.n, tok, c.ptr), NextCursor(c, tokens), tokens[1..]);
      }
    }
  }

  lemma {:induction false} TokenKeeps(t: Table, at: nat, tok: string, ptr: nat)
    requires Sized(t) && at < |t.rows|
    ensures var u := ParseToken(t, at, tok, ptr); Sized(u) && |u.rows| == |t.rows| && u.pos == t.pos
  {
  }

  lemma {:induction false} StripRowEnds(tokens: seq<string>)
    requires Placed(tokens)
    ensures RowEnds(tokens) == RowEnds(Strip(tokens))
  {
    if tokens != [] {
      StripRowEnds(tokens[1..]);
      if UserTok(tokens[0]) {
        assert Strip(tokens) == Strip(tokens[1..]);
      } else {
        assert Strip(tokens)[0] == tokens[0] && Strip(tokens)[1..] == Strip(tokens[1..]);
        assert |tokens| == 1 ==> Strip(tokens[1..]) == [];
        assert Advances(tokens) == Advances(Strip(tokens));
      }
    }
  }

  /** A typed line, and its shape without the user-pipe tokens. */
  datatype TypedLine = TypedLine(tokens: seq<string>, shape: FileLine)

  predicate Typed(l: TypedLine) {
    Acceptable(l.shape) && Placed(l.tokens) && Strip(l.tokens) == PrintFile(l.shape)
  }
}
