/** The HTML escaping of the console (NP_Project4/Console.cpp:224-231): seven replacement
    passes over the text, one after the other. */
module Escape {

  const ORIGINAL := ['<', '>', ' ', '\"', '\'', '\n', '\r']
  const REPLACES := ["&lt;", "&gt;", "&nbsp;", "&quot;", "&apos;", "&NewLine;", "&NewLine;"]

  predicate Special(c: char) {
    c in ORIGINAL
  }

  /** The replacement of one character. */
  function Entity(c: char): string {
    match c
    case '<' => "&lt;"
    case '>' => "&gt;"
    case ' ' => "&nbsp;"
    case '\"' => "&quot;"
    case '\'' => "&apos;"
    case '\n' => "&NewLine;"
    case '\r' => "&NewLine;"
    case _ => [c]
  }

  /** `replace_all` of a one-character string. */
  function ReplaceAll(s: string, c: char, rep: string): string {
    if s == [] then [] else (if s[0] == c then rep else [s[0]]) + ReplaceAll(s[1..], c, rep)
  }

  /** Passes i to 6. */
  function PassesFrom(s: string, i: nat): string
    requires i <= 7
    decreases 7 - i
  {
    if i == 7 then s else PassesFrom(ReplaceAll(s, ORIGINAL[i], REPLACES[i]), i + 1)
  }

  /** Every character replaced at once. */
  function EscapeAll(s: string): string {
    if s == [] then [] else Entity(s[0]) + EscapeAll(s[1..])
  }

  /** `network_entity` */
  method NetworkEntity(s: string) returns (buffer: string)
    ensures buffer == EscapeAll(s)
  {
    buffer := s;
    var i := 0;
    while i < 7
      invariant 0 <= i <= 7 && PassesFrom(buffer, i) == PassesFrom(s, 0)
    {
      buffer := ReplaceAll(buffer, ORIGINAL[i], REPLACES[i]);
      i := i + 1;
    }
    Fusion(s);
  }

  // ---- Fusion ----

  lemma {:induction false} ReplaceAppend(s: string, t: string, c: char, rep: string)
    ensures ReplaceAll(s + t, c, rep) == ReplaceAll(s, c, rep) + ReplaceAll(t, c, rep)
  {
    if s == [] {
      assert s + t == t;
    } else {
      assert (s + t)[1..] == s[1..] + t;
      ReplaceAppend(s[1..], t, c, rep);
    }
  }

  lemma {:induction false} ReplaceNone(s: string, c: char, rep: string)
    requires c !in s
    ensures ReplaceAll(s, c, rep) == s
  {
    if s != [] { ReplaceNone(s[1..], c, rep); }
  }

  lemma {:induction false} PassesAppend(s: string, t: string, i: nat)
    requires i <= 7
    ensures PassesFrom(s + t, i) == PassesFrom(s, i) + PassesFrom(t, i)
    decreases 7 - i
  {
    if i < 7 {
      ReplaceAppend(s, t, ORIGINAL[i], REPLACES[i]);
      PassesAppend(ReplaceAll(s, ORIGINAL[i], REPLACES[i]), ReplaceAll(t, ORIGINAL[i], REPLACES[i]), i + 1);
    }
  }

  /** The passes leave a text without special characters alone. */
  lemma {:induction false} PassesNone(s: string, i: nat)
    requires i <= 7 && forall c | c in s :: !Special(c)
    ensures PassesFrom(s, i) == s
    decreases 7 - i
  {
    if i < 7 {
      assert Special(ORIGINAL[i]);
      ReplaceNone(s, ORIGINAL[i], REPLACES[i]);
      PassesNone(s, i + 1);
    }
  }

  lemma {:induction false} EntityPlain(c: char)
    ensures forall d | d in Entity(c) :: !Special(d)
    ensures Entity(c) != []
  {
  }

  /** On one character: only its own pass changes it, and its entity contains nothing that
      a later pass looks for. */
  lemma {:induction false} PassesOne(c: char, i: nat)
    requires i <= 7 && forall j | 0 <= j < i :: ORIGINAL[j] != c
    ensures PassesFrom([c], i) == Entity(c)
    decreases 7 - i
  {
    if i == 7 {
      assert !Special(c);
    } else if ORIGINAL[i] == c {
      var rep := REPLACES[i];
      assert rep == Entity(c);
      assert [c][1..] == [];
      assert ReplaceAll([c], c, rep) == rep + [] == rep;
      EntityPlain(c);
      PassesNone(rep, i + 1);
    } else {
      assert [c][1..] == [] && [c] + [] == [c];
      assert ReplaceAll([c], ORIGINAL[i], REPLACES[i]) == [c];
      PassesOne(c, i + 1);
    }
  }

  /** The seven passes are one simultaneous replacement. */
  lemma {:induction false} Fusion(s: string)
    ensures PassesFrom(s, 0) == EscapeAll(s)
  {
    if s == [] {
      PassesNone(s, 0);
    } else {
      assert s == [s[0]] + s[1..];
      PassesAppend([s[0]], s[1..], 0);
      PassesOne(s[0], 0);
      Fusion(s[1..]);
    }
  }

  // ---- What escaping gives ----

  lemma {:induction false} EscapedIsPlain(s: string, c: char)
    requires c in EscapeAll(s)
    ensures !Special(c)
  {
    if c in Entity(s[0]) { EntityPlain(s[0]); } else { EscapedIsPlain(s[1..], c); }
  }

  lemma {:induction false} EscapeNone(s: string)
    requires forall c | c in s :: !Special(c)
    ensures EscapeAll(s) == s
  {
    if s != [] {
      assert !Special(s[0]) && Entity(s[0]) == [s[0]];
      EscapeNone(s[1..]);
    }
  }

  /** The result contains none of the seven characters, and escaping it again changes nothing. */
  lemma {:induction false} EscapedOnce(s: string)
    ensures (forall c | c in EscapeAll(s) :: !Special(c)) && EscapeAll(EscapeAll(s)) == EscapeAll(s)
  {
    forall c | c in EscapeAll(s)
      ensures !Special(c)
    {
      EscapedIsPlain(s, c);
    }
    EscapeNone(EscapeAll(s));
  }

  // ---- Decoding ----

  /** The named references that the console writes; see the named character references of
      the WHATWG HTML Standard, section 13.5. */
  function EntityAt(s: string): (r: (nat, char))
    ensures r.0 <= |s| && (r.0 > 0 ==> r.0 >= 4 && s[0] == '&' && s[..r.0] == Entity(r.1) && Special(r.1) && r.1 != '\r')
  {
    if "&lt;" <= s then (4, '<')
    else if "&gt;" <= s then (4, '>')
    else if "&nbsp;" <= s then (6, ' ')
    else if "&quot;" <= s then (6, '\"')
    else if "&apos;" <= s then (6, '\'')
    else if "&NewLine;" <= s then (9, '\n')
    else (0, '&')
  }

  /** Read the references back from left to right. */
  function Decode(s: string): string
    decreases |s|
  {
    if s == [] then []
    else
      var (n, c) := EntityAt(s);
      if n > 0 then [c] + Decode(s[n..]) else [s[0]] + Decode(s[1..])
  }

  /** The text already contains one of the references. */
  predicate HasEntity(s: string) {
    s != [] && (EntityAt(s).0 > 0 || HasEntity(s[1..]))
  }

  lemma {:induction false} EntityPrefix(c: char, rest: string)
    requires Special(c)
    ensures EntityAt(Entity(c) + rest) == (|Entity(c)|, if c == '\r' then '\n' else c)
  {
    var s := Entity(c) + rest;
    assert Entity(c) <= s;
    assert s[1] == Entity(c)[1] && s[2] == Entity(c)[2];
  }

  /** Where an escaped text starts with a reference that does not come from its first
      character, the text itself started with that reference. */
  lemma {:induction false} EntityFromText(s: string)
    requires s != [] && !Special(s[0])
    ensures EntityAt(EscapeAll(s)).0 > 0 <==> EntityAt(s).0 > 0
    ensures EntityAt(s).0 > 0 ==> EntityAt(EscapeAll(s)) == EntityAt(s)
  {
    hide EscapeAll, Special;
    NameKept(s, '<');
    NameKept(s, '>');
    NameKept(s, ' ');
    NameKept(s, '\"');
    NameKept(s, '\'');
    NameKept(s, '\n');
  }

  lemma {:induction false} NameKept(s: string, c: char)
    requires s != [] && !Special(s[0])
    ensures Special(c) ==> (Entity(c) <= EscapeAll(s) <==> Entity(c) <= s)
    ensures c in {'<', '>', ' ', '\"', '\'', '\n'} ==> Special(c)
  {
    if Special(c) {
      assert forall i | 1 <= i < |Entity(c)| :: Entity(c)[i] != '&' && !Special(Entity(c)[i]);
      SamePrefix(s, Entity(c));
    }
  }

  /** A reference at the front of an escaped text was already there before. */
  lemma {:induction false} SamePrefix(s: string, name: string)
    requires forall i | 1 <= i < |name| :: name[i] != '&' && !Special(name[i])
    requires name != [] ==> s == [] || !Special(s[0])
    ensures name <= EscapeAll(s) <==> name <= s
    decreases |name|
  {
    if name != [] && s != [] && s[0] == name[0] {
      var rest := name[1..];
      assert EscapeAll(s) == [s[0]] + EscapeAll(s[1..]);
      assert name == [name[0]] + rest;
      if s[1..] != [] && Special(s[1]) && rest != [] {
        assert EscapeAll(s[1..])[0] == '&' && rest[0] != '&' && s[1..][0] != rest[0];
      } else {
        SamePrefix(s[1..], rest);
      }
    }
  }

  lemma {:induction false} EscapeAppend(s: string, t: string)
    ensures EscapeAll(s + t) == EscapeAll(s) + EscapeAll(t)
  {
    if s == [] {
      assert s + t == t;
    } else {
      assert (s + t)[1..] == s[1..] + t;
      EscapeAppend(s[1..], t);
    }
  }

  /** Texts are escaped character by character, into these references and no others. */
  lemma {:induction false} EachCharacter(s: string, t: string, c: char)
    ensures EscapeAll(s + t) == EscapeAll(s) + EscapeAll(t)
    ensures EscapeAll("<") == "&lt;" && EscapeAll(">") == "&gt;" && EscapeAll(" ") == "&nbsp;"
    ensures EscapeAll("\"") == "&quot;" && EscapeAll("'") == "&apos;"
    ensures EscapeAll("\n") == "&NewLine;" && EscapeAll("\r") == "&NewLine;"
    ensures c !in "<> \"'\n\r" ==> EscapeAll([c]) == [c]
  {
    EscapeAppend(s, t);
    forall d: char
      ensures EscapeAll([d]) == Entity(d)
    {
      assert [d][1..] == [];
      assert Entity(d) + [] == Entity(d);
    }
    assert "<" == ['<'] && ">" == ['>'] && " " == [' '] && "'" == ['\''];
    assert "\"" == ['\"'] && "\n" == ['\n'] && "\r" == ['\r'];
  }

  /** A reference already in the text is read as one character. */
  lemma {:induction false} EntityKept(s: string)
    requires s != [] && EntityAt(s).0 > 0
    ensures var n := EntityAt(s).0; EscapeAll(s) == s[..n] + EscapeAll(s[n..])
  {
    var (n, c) := EntityAt(s);
    assert s == s[..n] + s[n..];
    EscapeAppend(s[..n], s[n..]);
    EntityPlain(c);
    EscapeNone(s[..n]);
  }

  /** Decoding an escaped text: the first character, or the first reference the text had. */
  lemma {:induction false} DecodeStep(s: string)
    requires s != []
    ensures var (n, c) := EntityAt(s);
      Decode(EscapeAll(s)) ==
      (if Special(s[0]) then [if s[0] == '\r' then '\n' else s[0]] + Decode(EscapeAll(s[1..]))
       else if n > 0 then [c] + Decode(EscapeAll(s[n..]))
       else [s[0]] + Decode(EscapeAll(s[1..])))
  {
    var e, rest := EscapeAll(s), EscapeAll(s[1..]);
    if Special(s[0]) {
      EntityPrefix(s[0], rest);
      EntityPlain(s[0]);
      assert e[|Entity(s[0])|..] == rest;
    } else {
      EntityFromText(s);
      if EntityAt(s).0 > 0 {
        EntityKept(s);
        assert e[EntityAt(s).0..] == EscapeAll(s[EntityAt(s).0..]);
      } else {
        assert e[1..] == rest && e[0] == s[0];
      }
    }
  }

  lemma {:induction false} DecodeLength(s: string)
    ensures |Decode(EscapeAll(s))| <= |s|
    ensures HasEntity(s) ==> |Decode(EscapeAll(s))| < |s|
    decreases |s|
  {
    if s != [] {
      DecodeStep(s);
      DecodeLength(s[1..]);
      var n := EntityAt(s).0;
      if n > 0 { DecodeLength(s[n..]); }
    }
  }

  lemma {:induction false} DecodedNoReturn(s: string)
    requires '\r' !in s
    ensures '\r' !in Decode(s)
    decreases |s|
  {
    if s != [] {
      var n := EntityAt(s).0;
      DecodedNoReturn(if n > 0 then s[n..] else s[1..]);
    }
  }

  lemma {:induction false} DecodeBack(s: string)
    requires '\r' !in s && !HasEntity(s)
    ensures Decode(EscapeAll(s)) == s
  {
    if s != [] {
      DecodeStep(s);
      DecodeBack(s[1..]);
    }
  }

  /** Decoding recovers the text exactly when it contains no carriage return and none of
      the references already; in particular whenever it is free of `&` and carriage return. */
  lemma {:induction false} DecodeIff(s: string)
    ensures Decode(EscapeAll(s)) == s <==> '\r' !in s && !HasEntity(s)
    ensures '&' !in s ==> !HasEntity(s)
  {
    if '\r' !in s && !HasEntity(s) { DecodeBack(s); }
    DecodeLength(s);
    EscapedOnce(s);
    assert Special('\r');
    DecodedNoReturn(EscapeAll(s));
    if '&' !in s { NoAmpersand(s); }
  }

  lemma {:induction false} NoAmpersand(s: string)
    requires '&' !in s
    ensures !HasEntity(s)
  {
    if s != [] { NoAmpersand(s[1..]); }
  }
}
