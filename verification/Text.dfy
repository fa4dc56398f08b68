/** The C string functions the shells use on their input. */
module Text {

  datatype Option<T> = None | Some(value: T)

  predicate IsDigit(c: char) {
    '0' <= c <= '9'
  }

  function DigitRun(s: string): (n: nat)
    ensures n <= |s| && (forall i | 0 <= i < n :: IsDigit(s[i])) && (n < |s| ==> !IsDigit(s[n]))
  {
    if s != [] && IsDigit(s[0]) then 1 + DigitRun(s[1..]) else 0
  }

  function Value(digits: string): nat
    requires forall i | 0 <= i < |digits| :: IsDigit(digits[i])
  {
    if digits == [] then 0
    else
      assert IsDigit(digits[|digits| - 1]);
      10 * Value(digits[..|digits| - 1]) + ((digits[|digits| - 1] as int) - ('0' as int))
  }

  /** `sscanf` with `%d`: an optional sign and the longest run of digits after it. */
  function Scan(s: string): Option<int> {
    var signed := s != [] && s[0] in {'-', '+'};
    var body := if signed then s[1..] else s;
    var n := DigitRun(body);
    if n == 0 then None
    else
      var value: int := Value(body[..n]);
      Some(if signed && s[0] == '-' then -value else value)
  }

  /** `atoi`: 0 when there is no number. */
  function Atoi(s: string): int {
    match Scan(s)
    case Some(n) => n
    case None => 0
  }

  /** `sprintf` with `%d`, for a nonnegative number. */
  function Decimal(n: nat): (s: string)
    ensures s != [] && forall i | 0 <= i < |s| :: IsDigit(s[i])
  {
    var last := [(n % 10 + '0' as int) as char];
    if n < 10 then last else Decimal(n / 10) + last
  }

  lemma {:induction false} ValueDecimal(n: nat)
    ensures Value(Decimal(n)) == n
  {
    var s := Decimal(n);
    if n >= 10 {
      assert s[..|s| - 1] == Decimal(n / 10);
      ValueDecimal(n / 10);
    }
  }

  /** Reading back a printed number gives the number. */
  lemma {:induction false} ScanDecimal(n: nat)
    ensures Scan(Decimal(n)) == Some(n) && Atoi(Decimal(n)) == n
  {
    var s := Decimal(n);
    assert IsDigit(s[0]);
    assert DigitRun(s) == |s|;
    assert s[..|s|] == s;
    ValueDecimal(n);
  }

  /** `sprintf` with `%d`. */
  function Printed(n: int): string {
    if n < 0 then "-" + Decimal(-n) else Decimal(n)
  }

  lemma {:induction false} DigitRunIs(digits: string, tail: string)
    requires (forall i | 0 <= i < |digits| :: IsDigit(digits[i])) && (tail != [] ==> !IsDigit(tail[0]))
    ensures DigitRun(digits + tail) == |digits|
  {
    assert forall i | 0 <= i < |digits| :: (digits + tail)[i] == digits[i];
    assert tail != [] ==> (digits + tail)[|digits|] == tail[0];
  }

  /** Reading a printed number, negative or not, gives the number, whatever stands behind it
      that is no digit. */
  lemma {:induction false} ScanPrinted(n: int, tail: string)
    requires tail != [] ==> !IsDigit(tail[0])
    ensures Scan(Printed(n) + tail) == Some(n) && Atoi(Printed(n) + tail) == n
  {
    var digits := Decimal(if n < 0 then -n else n);
    DigitRunIs(digits, tail);
    ValueDecimal(if n < 0 then -n else n);
    assert (digits + tail)[..|digits|] == digits;
    assert IsDigit(digits[0]);
    if n < 0 {
      assert (Printed(n) + tail)[1..] == digits + tail;
    }
  }

  /** There is a number exactly when a digit stands in front, perhaps behind one sign; a plus
      sign changes nothing. */
  lemma {:induction false} ScanSome(s: string, n: nat)
    ensures Scan(s).Some? <==> s != [] && (IsDigit(s[0]) || (s[0] in {'-', '+'} && |s| > 1 && IsDigit(s[1])))
    ensures Scan("+" + Decimal(n)) == Some(n)
  {
    ScanDecimal(n);
    var digits := Decimal(n);
    assert ("+" + digits)[1..] == digits;
    assert DigitRun(digits) == |digits| && digits[..|digits|] == digits;
    ValueDecimal(n);
  }

  function WordRun(line: string, delims: set<char>): (n: nat)
    ensures n <= |line| && (forall i | 0 <= i < n :: line[i] !in delims) && (n < |line| ==> line[n] in delims)
  {
    if line != [] && line[0] !in delims then 1 + WordRun(line[1..], delims) else 0
  }

  /** Repeated `strtok`: the maximal runs of characters that are no delimiters. */
  function Tokenize(line: string, delims: set<char>): (tokens: seq<string>)
    ensures forall i | 0 <= i < |tokens| :: tokens[i] != [] && forall c | c in tokens[i] :: c !in delims
    decreases |line|
  {
    if line == [] then []
    else if line[0] in delims then Tokenize(line[1..], delims)
    else
      var n := WordRun(line, delims);
      [line[..n]] + Tokenize(line[n..], delims)
  }

  /** Tokens with separators before, between and after them. */
  function Weave(seps: seq<string>, tokens: seq<string>): string
    requires |seps| == |tokens| + 1
    decreases |tokens|
  {
    if tokens == [] then seps[0] else seps[0] + (tokens[0] + Weave(seps[1..], tokens[1..]))
  }

  /** Separators are delimiters only, and those between two tokens are not empty. */
  predicate Separates(seps: seq<string>, tokens: seq<string>, delims: set<char>) {
    && |seps| == |tokens| + 1
    && (forall i | 0 <= i < |seps| :: forall c | c in seps[i] :: c in delims)
    && (forall i | 0 < i < |tokens| :: seps[i] != [])
    && (forall i | 0 <= i < |tokens| :: tokens[i] != [] && forall c | c in tokens[i] :: c !in delims)
  }

  lemma {:induction false} SeparatesTail(seps: seq<string>, tokens: seq<string>, delims: set<char>)
    requires Separates(seps, tokens, delims) && tokens != []
    ensures Separates(seps[1..], tokens[1..], delims)
  {
    assert forall i | 0 <= i < |seps[1..]| :: seps[1..][i] == seps[i + 1];
    assert forall i | 0 <= i < |tokens[1..]| :: tokens[1..][i] == tokens[i + 1];
  }

  lemma {:induction false} WordRunIs(word: string, rest: string, delims: set<char>)
    requires (forall c | c in word :: c !in delims) && (rest != [] ==> rest[0] in delims)
    ensures WordRun(word + rest, delims) == |word|
  {
    assert forall i | 0 <= i < |word| :: (word + rest)[i] == word[i] && word[i] in word;
    assert rest != [] ==> (word + rest)[|word|] == rest[0];
  }

  lemma {:induction false} WeaveStart(seps: seq<string>, tokens: seq<string>, delims: set<char>)
    requires Separates(seps, tokens, delims) && (tokens != [] ==> seps[0] != [])
    ensures Weave(seps, tokens) != [] ==> Weave(seps, tokens)[0] in delims
  {
    if seps[0] != [] { assert Weave(seps, tokens)[0] == seps[0][0] && seps[0][0] in seps[0]; }
  }

  lemma {:induction false} FirstWord(word: string, rest: string, delims: set<char>)
    requires word != [] && (forall c | c in word :: c !in delims) && (rest != [] ==> rest[0] in delims)
    ensures Tokenize(word + rest, delims) == [word] + Tokenize(rest, delims)
  {
    var line := word + rest;
    WordRunIs(word, rest, delims);
    assert line[0] == word[0] && word[0] in word;
    assert line[..|word|] == word && line[|word|..] == rest;
  }

  /** Whatever separators stand around and between some words, the tokens are those words
      in order: the maximal runs without delimiters. */
  lemma {:induction false} TokenizeWeave(seps: seq<string>, tokens: seq<string>, delims: set<char>)
    requires Separates(seps, tokens, delims)
    ensures Tokenize(Weave(seps, tokens), delims) == tokens
    decreases |tokens|, |seps[0]|
  {
    var line := Weave(seps, tokens);
    if seps[0] != [] {
      var fewer := seps[0 := seps[0][1..]];
      assert forall c | c in seps[0][1..] :: c in seps[0];
      assert fewer[1..] == seps[1..];
      assert line[0] == seps[0][0] && seps[0][0] in seps[0] && line[1..] == Weave(fewer, tokens);
      TokenizeWeave(fewer, tokens, delims);
    } else if tokens != [] {
      SeparatesTail(seps, tokens, delims);
      var rest := Weave(seps[1..], tokens[1..]);
      WeaveStart(seps[1..], tokens[1..], delims);
      assert line == tokens[0] + rest;
      FirstWord(tokens[0], rest, delims);
      TokenizeWeave(seps[1..], tokens[1..], delims);
      assert [tokens[0]] + tokens[1..] == tokens;
    }
  }

  /** Every line is such a weave of its tokens. */
  lemma {:induction false} EveryLineWeaves(line: string, delims: set<char>) returns (seps: seq<string>)
    ensures Separates(seps, Tokenize(line, delims), delims) && line == Weave(seps, Tokenize(line, delims))
    decreases |line|
  {
    if line == [] {
      seps := [[]];
    } else if line[0] in delims {
      seps := EveryLineWeaves(line[1..], delims);
      DelimInFront(line[0], seps, Tokenize(line[1..], delims), delims);
      seps := seps[0 := [line[0]] + seps[0]];
      assert line == [line[0]] + line[1..];
    } else {
      var n := WordRun(line, delims);
      var rest := EveryLineWeaves(line[n..], delims);
      seps := [[]] + rest;
      if Tokenize(line[n..], delims) != [] { FirstSeparator(line, n, rest, delims); }
      WordInFront(line[..n], rest, Tokenize(line[n..], delims), delims);
      assert line == line[..n] + line[n..];
    }
  }

  lemma {:induction false} DelimInFront(c: char, seps: seq<string>, tokens: seq<string>, delims: set<char>)
    requires Separates(seps, tokens, delims) && c in delims
    ensures Separates(seps[0 := [c] + seps[0]], tokens, delims)
    ensures Weave(seps[0 := [c] + seps[0]], tokens) == [c] + Weave(seps, tokens)
  {
    var more := seps[0 := [c] + seps[0]];
    assert more[1..] == seps[1..];
    assert forall d | d in more[0] :: d == c || d in seps[0];
  }

  lemma {:induction false} WordInFront(word: string, seps: seq<string>, tokens: seq<string>, delims: set<char>)
    requires Separates(seps, tokens, delims) && word != [] && (forall c | c in word :: c !in delims)
    requires tokens != [] ==> seps[0] != []
    ensures Separates([[]] + seps, [word] + tokens, delims)
    ensures Weave([[]] + seps, [word] + tokens) == word + Weave(seps, tokens)
  {
    var more, words := [[]] + seps, [word] + tokens;
    assert more[1..] == seps && words[1..] == tokens;
    assert forall i | 0 < i < |more| :: more[i] == seps[i - 1];
    assert forall i | 0 < i < |words| :: words[i] == tokens[i - 1];
  }

  lemma {:induction false} FirstSeparator(line: string, n: nat, rest: seq<string>, delims: set<char>)
    requires n == WordRun(line, delims) && Separates(rest, Tokenize(line[n..], delims), delims)
    requires line[n..] == Weave(rest, Tokenize(line[n..], delims)) && Tokenize(line[n..], delims) != []
    ensures rest[0] != []
  {
    var tokens := Tokenize(line[n..], delims);
    assert tokens[0][0] in tokens[0];
    assert line[n..] == rest[0] + (tokens[0] + Weave(rest[1..], tokens[1..]));
    assert line[n] == line[n..][0];
  }

  /** `strstr(s, sub) != NULL`. */
  predicate Contains(s: string, sub: string)
    requires sub != []
  {
    |sub| <= |s| && (s[..|sub|] == sub || Contains(s[1..], sub))
  }

  /** The index of the first `sep`, or the length. */
  function Find(s: string, sep: char): (n: nat)
    ensures n <= |s| && (forall i | 0 <= i < n :: s[i] != sep) && (n < |s| ==> s[n] == sep)
  {
    if s == [] || s[0] == sep then 0 else 1 + Find(s[1..], sep)
  }

  function SkipAll(s: string, sep: char): (r: string)
    ensures |r| <= |s|
  {
    if s != [] && s[0] == sep then SkipAll(s[1..], sep) else s
  }

  /** `boost::split` at one character with `token_compress_on`. */
  function Split(s: string, sep: char): (r: seq<string>)
    ensures r != []
    decreases |s|
  {
    var n := Find(s, sep);
    if n == |s| then [s] else [s[..n]] + Split(SkipAll(s[n..][1..], sep), sep)
  }
}
