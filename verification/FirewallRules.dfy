/** The rule file as it is written, `permit c 140.113.*.*`, and what a client gets under
    such rules. */
module FirewallRules {
  import opened Text
  import opened Socks
  import opened Firewall

  /** A rule: a verb that is not looked at, a class, and up to four numbers, with stars for
      the rest of the address; `gap` is the number of blanks between the fields. */
  datatype Rule = Rule(verb: string, kind: string, octets: seq<nat>, gap: nat)

  predicate Writable(r: Rule) {
    ' ' !in r.verb && ' ' !in r.kind && r.kind != "" && |r.octets| <= 4 && r.gap > 0
  }

  function Blanks(n: nat): string {
    if n == 0 then "" else " " + Blanks(n - 1)
  }

  function Starred(n: nat): seq<string> {
    if n == 0 then [] else ["*"] + Starred(n - 1)
  }

  function Numbers(octets: seq<nat>): (r: seq<string>)
    ensures |r| == |octets| && forall i | 0 <= i < |r| :: r[i] == Decimal(octets[i])
  {
    if octets == [] then [] else [Decimal(octets[0])] + Numbers(octets[1..])
  }

  function Fields(r: Rule): seq<string>
    requires |r.octets| <= 4
  {
    Numbers(r.octets) + Starred(4 - |r.octets|)
  }

  function Dotted(words: seq<string>): string {
    if words == [] then "" else if |words| == 1 then words[0] else words[0] + "." + Dotted(words[1..])
  }

  function WriteRule(r: Rule): string
    requires Writable(r)
  {
    r.verb + Blanks(r.gap) + (r.kind + Blanks(r.gap) + Dotted(Fields(r)))
  }

  function WriteRules(rules: seq<Rule>): (lines: seq<string>)
    requires forall i | 0 <= i < |rules| :: Writable(rules[i])
    ensures |lines| == |rules| && forall i | 0 <= i < |rules| :: lines[i] == WriteRule(rules[i])
  {
    if rules == [] then [] else [WriteRule(rules[0])] + WriteRules(rules[1..])
  }

  /** The rule is for the request's command, and every number is the byte of the address at
      its place, modulo 256. */
  predicate Admits(req: Bytes, r: Rule)
    requires |req| >= 8 && Writable(r)
  {
    && (req[1] == 1 ==> r.kind != "b") && (req[1] == 2 ==> r.kind != "c")
    && forall j | 0 <= j < |r.octets| :: r.octets[j] % 256 == req[4 + j] as nat
  }

  // ---- Splitting ----

  lemma {:induction false} FindIs(a: string, sep: char, rest: string)
    requires sep !in a
    ensures Find(a + [sep] + rest, sep) == |a| && Find(a, sep) == |a|
  {
    if a != [] {
      assert (a + [sep] + rest)[1..] == a[1..] + [sep] + rest;
      FindIs(a[1..], sep, rest);
    }
  }

  lemma {:induction false} SplitFirst(a: string, sep: char, rest: string)
    requires sep !in a && (rest != [] ==> rest[0] != sep)
    ensures Split(a + [sep] + rest, sep) == [a] + Split(rest, sep)
    ensures Split(a, sep) == [a]
  {
    var s := a + [sep] + rest;
    FindIs(a, sep, rest);
    assert s[..|a|] == a && s[|a|..][1..] == rest;
  }

  lemma {:induction false} SkipBlanks(n: nat, rest: string)
    requires rest != [] ==> rest[0] != ' '
    ensures SkipAll(Blanks(n) + rest, ' ') == rest
  {
    if n == 0 {
      assert Blanks(n) + rest == rest;
    } else {
      assert (Blanks(n) + rest)[1..] == Blanks(n - 1) + rest;
      SkipBlanks(n - 1, rest);
    }
  }

  lemma {:induction false} SplitGap(a: string, n: nat, rest: string)
    requires ' ' !in a && n > 0 && (rest != [] ==> rest[0] != ' ')
    ensures Split(a + Blanks(n) + rest, ' ') == [a] + Split(rest, ' ')
  {
    var s, more := a + Blanks(n) + rest, Blanks(n - 1) + rest;
    assert s == a + [' '] + more;
    FindIs(a, ' ', more);
    assert s[..|a|] == a && s[|a|..][1..] == more;
    SkipBlanks(n - 1, rest);
  }

  predicate Field(w: string) {
    w != [] && forall i | 0 <= i < |w| :: IsDigit(w[i]) || w[i] == '*'
  }

  lemma {:induction false} SplitDotted(words: seq<string>)
    requires words != [] && forall i | 0 <= i < |words| :: Field(words[i])
    ensures Split(Dotted(words), '.') == words
    ensures Dotted(words) != [] && Dotted(words)[0] != '.' && ' ' !in Dotted(words)
    decreases |words|
  {
    hide Split;
    assert Field(words[0]) && '.' !in words[0] && ' ' !in words[0];
    if |words| == 1 {
      SplitFirst(words[0], '.', []);
      assert words == [words[0]];
    } else {
      assert forall i | 0 <= i < |words[1..]| :: words[1..][i] == words[i + 1];
      SplitDotted(words[1..]);
      SplitFirst(words[0], '.', Dotted(words[1..]));
      assert Dotted(words) == words[0] + ['.'] + Dotted(words[1..]);
      assert words == [words[0]] + words[1..];
    }
  }

  lemma {:induction false} StarsOf(n: nat)
    ensures |Starred(n)| == n && Stars(Starred(n)) == n && forall i | 0 <= i < n :: Starred(n)[i] == "*"
  {
    if n > 0 {
      StarsOf(n - 1);
      assert Starred(n)[1..] == Starred(n - 1);
    }
  }

  lemma {:induction false} StarsBehind(octets: seq<nat>, rest: seq<string>)
    ensures Stars(Numbers(octets) + rest) == Stars(rest)
    decreases |octets|
  {
    if octets == [] {
      assert Numbers(octets) + rest == rest;
    } else {
      StarsBehind(octets[1..], rest);
      assert (Numbers(octets) + rest)[1..] == Numbers(octets[1..]) + rest;
      assert IsDigit(Decimal(octets[0])[0]);
    }
  }

  lemma {:induction false} FieldsAre(r: Rule)
    requires |r.octets| <= 4
    ensures |Fields(r)| == 4 && Stars(Fields(r)) == 4 - |r.octets|
    ensures forall i | 0 <= i < |Fields(r)| :: Field(Fields(r)[i])
    ensures forall i | 0 <= i < |r.octets| :: Fields(r)[i] == Decimal(r.octets[i])
  {
    StarsOf(4 - |r.octets|);
    StarsBehind(r.octets, Starred(4 - |r.octets|));
    forall i | 0 <= i < 4
      ensures Field(Fields(r)[i])
    {
      if i < |r.octets| {
        assert Fields(r)[i] == Decimal(r.octets[i]);
      } else {
        assert Fields(r)[i] == Starred(4 - |r.octets|)[i - |r.octets|];
      }
    }
  }

  /** The three fields of a written rule. */
  lemma {:induction false} RuleReads(r: Rule)
    requires Writable(r)
    ensures Split(WriteRule(r), ' ') == [r.verb, r.kind, Dotted(Fields(r))]
    ensures Readable(WriteRule(r)) && Octets(WriteRule(r)) == Fields(r) && Class(WriteRule(r)) == r.kind
  {
    hide Split, Fields, Stars;
    FieldsAre(r);
    SplitDotted(Fields(r));
    var address := Dotted(Fields(r));
    SplitFirst(address, ' ', []);
    SplitGap(r.kind, r.gap, address);
    assert r.kind[0] in r.kind;
    SplitGap(r.verb, r.gap, r.kind + Blanks(r.gap) + address);
    assert [r.verb] + ([r.kind] + [address]) == [r.verb, r.kind, address];
  }

  // ---- Verdicts ----

  lemma {:induction false} NumberIs(n: nat)
    ensures Octet(Decimal(n)) == Some((n % 256) as Byte)
  {
    ScanDecimal(n);
  }

  /** A written rule accepts exactly the requests that it admits. */
  lemma {:induction false} RuleAdmits(req: Bytes, r: Rule)
    requires |req| >= 8 && Writable(r)
    ensures Readable(WriteRule(r))
    ensures RuleVerdict(req, WriteRule(r)) == if Admits(req, r) then Accept else Reject
  {
    hide Split, Fields, Stars, WriteRule, Octet, Decimal, Compare;
    RuleReads(r);
    FieldsAre(r);
    var ip, n := Fields(r), |r.octets|;
    forall j | 0 <= j < n
      ensures Octet(ip[j]) == Some((r.octets[j] % 256) as Byte)
    {
      NumberIs(r.octets[j]);
    }
    CompareIsPrefix(req, ip, 0, n);
  }

  /** `fire_wall` on a written rule file accepts exactly the requests that some rule admits. */
  lemma {:induction false} FileAdmits(req: Bytes, rules: seq<Rule>)
    requires |req| >= 8 && forall i | 0 <= i < |rules| :: Writable(rules[i])
    ensures AllReadable(WriteRules(rules))
    ensures FireWall(req, WriteRules(rules)) == if exists i | 0 <= i < |rules| :: Admits(req, rules[i]) then Accept else Reject
    decreases |rules|
  {
    hide RuleVerdict, WriteRule, Readable, Admits;
    if rules != [] {
      var rest := rules[1..];
      assert forall i | 0 <= i < |rest| :: rest[i] == rules[i + 1];
      assert Writable(rules[0]);
      RuleAdmits(req, rules[0]);
      FileAdmits(req, rest);
      assert WriteRules(rules)[1..] == WriteRules(rest);
      assert forall i | 0 <= i < |rules| :: Admits(req, rules[i]) ==> i == 0 || Admits(req, rest[i - 1]);
    }
  }

  /** A reply with the code, and behind it port and address of the request. */
  predicate Answers(reply: Bytes, code: Byte, req: Bytes)
    requires |req| >= 8
  {
    |reply| == 8 && reply[0] == 0 && reply[1] == code && forall k | 2 <= k < 8 :: reply[k] == req[k]
  }

  /** A client under a written rule file: another version than 4 and a name that does not
      resolve are dropped; a CONNECT is relayed with code 0x5A exactly when the destination
      connects and some rule admits it, and refused with 0x5B otherwise; a BIND goes on exactly
      when some rule admits it, and is dropped without a reply otherwise; with any other
      command the server goes on without a destination. */
  lemma {:induction false} ClientGets(b: Bytes, resolve: Resolver, rules: seq<Rule>, connect: (nat, nat) -> bool)
    requires |b| >= 8 && Words(resolve) && (Is4A(b) ==> TwoNuls(b)) && forall i | 0 <= i < |rules| :: Writable(rules[i])
    ensures AllReadable(WriteRules(rules))
    ensures var d := Decide(b, resolve, WriteRules(rules), connect);
      if b[0] != 4 then d == Drop
      else match Parse(b, resolve)
        case Failed => d == Drop
        case Request(target, req) =>
          |req| >= 8 &&
          var admitted := exists i | 0 <= i < |rules| :: Admits(req, rules[i]);
          if b[1] == 1 then
            (if connect(target.ip, target.port) && admitted then d.Relay? && Answers(d.reply, 0x5A, req)
             else d.Refuse? && Answers(d.reply, 0x5B, req))
          else if b[1] == 2 then d == (if admitted then Bind else Drop)
          else d == Unset
  {
    hide Parse, FireWall, Admits, Is4A, TwoNuls, Pack, ByteOf, Decide, Answers;
    var parsed := Parse(b, resolve);
    if parsed.Request? {
      OneAddress(b, resolve);
      FileAdmits(parsed.bytes, rules);
      var accepted := exists i | 0 <= i < |rules| :: Admits(parsed.bytes, rules[i]);
      ClientBy(b, resolve, WriteRules(rules), connect, accepted);
    } else {
      FileAdmits(b, rules);
      assert Decide(b, resolve, WriteRules(rules), connect) == Drop by { Unresolved(b, resolve, WriteRules(rules), connect); }
    }
  }

  lemma {:induction false} Unresolved(b: Bytes, resolve: Resolver, lines: seq<string>, connect: (nat, nat) -> bool)
    requires |b| >= 8 && (Is4A(b) ==> TwoNuls(b)) && AllReadable(lines) && Parse(b, resolve).Failed?
    ensures Decide(b, resolve, lines, connect) == Drop
  {
    hide Parse, FireWall, Is4A, TwoNuls;
  }

  lemma {:induction false} ClientBy(b: Bytes, resolve: Resolver, lines: seq<string>, connect: (nat, nat) -> bool, accepted: bool)
    requires |b| >= 8 && (Is4A(b) ==> TwoNuls(b)) && AllReadable(lines) && Parse(b, resolve).Request?
    requires |Parse(b, resolve).bytes| >= 8 && Parse(b, resolve).bytes[1] == b[1]
    requires FireWall(Parse(b, resolve).bytes, lines) == if accepted then Accept else Reject
    ensures var d, target, req := Decide(b, resolve, lines, connect), Parse(b, resolve).target, Parse(b, resolve).bytes;
      if b[0] != 4 then d == Drop
      else if b[1] == 1 then
        (if connect(target.ip, target.port) && accepted then d.Relay? && Answers(d.reply, 0x5A, req)
         else d.Refuse? && Answers(d.reply, 0x5B, req))
      else if b[1] == 2 then d == (if accepted then Bind else Drop)
      else d == Unset
  {
    hide Parse, FireWall, Is4A, TwoNuls;
  }
}
