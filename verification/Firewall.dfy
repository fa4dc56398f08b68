/** The rule file of the SOCKS server: `fire_wall`, and the decision of `client_handler`
    that uses it (NP_Project4/sock_server.cpp:69-176 and 328-392). */
module Firewall {
  import opened Text
  import opened Socks

  datatype Verdict = Accept | Reject | Throws

  /** The `std::count` of stars. */
  function Stars(ip: seq<string>): nat {
    if ip == [] then 0 else (if ip[0] == "*" then 1 else 0) + Stars(ip[1..])
  }

  function Class(line: string): string
    requires Readable(line)
  {
    Split(line, ' ')[1]
  }

  function Octets(line: string): seq<string>
    requires Readable(line)
  {
    Split(Split(line, ' ')[2], '.')
  }

  /** The line has the three fields and as many octets as the code indexes. */
  predicate Readable(line: string) {
    var rs := Split(line, ' ');
    |rs| >= 3 && |Split(rs[2], '.')| + Stars(Split(rs[2], '.')) >= 4
  }

  /** A CONNECT request skips the rules of class b, a BIND request those of class c. */
  predicate Applies(cd: Byte, line: string)
    requires Readable(line)
  {
    !((cd == 1 && Class(line) == "b") || (cd == 2 && Class(line) == "c"))
  }

  /** `(uint8_t)stoi(...)`; `None` when stoi throws. */
  function Octet(s: string): Option<Byte> {
    match Scan(s)
    case Some(n) => Some((n % 256) as Byte)
    case None => None
  }

  /** The comparisons of the first `n` octets from `i` on, with `&&` stopping early. */
  function Compare(req: Bytes, ip: seq<string>, i: nat, n: nat): Verdict
    requires |req| >= 8 && i <= n <= 4 && n <= |ip|
    decreases n - i
  {
    if i == n then Accept
    else
      match Octet(ip[i])
      case None => Throws
      case Some(o) => if o != req[4 + i] then Reject else Compare(req, ip, i + 1, n)
  }

  /** One rule; `Reject` means that the loop goes on. */
  function RuleVerdict(req: Bytes, line: string): Verdict
    requires |req| >= 8 && Readable(line)
  {
    var ip := Octets(line);
    if !Applies(req[1], line) || Stars(ip) > 4 then Reject else Compare(req, ip, 0, 4 - Stars(ip))
  }

  predicate AllReadable(lines: seq<string>) {
    forall i | 0 <= i < |lines| :: Readable(lines[i])
  }

  /** The first rule that accepts or throws decides. */
  function FireWall(req: Bytes, lines: seq<string>): Verdict
    requires |req| >= 8 && AllReadable(lines)
  {
    if lines == [] then Reject
    else
      assert Readable(lines[0]) && forall i | 0 <= i < |lines[1..]| :: lines[1..][i] == lines[i + 1];
      var v := RuleVerdict(req, lines[0]);
      if v == Reject then FireWall(req, lines[1..]) else v
  }

  method CountStars(ip: seq<string>) returns (n: nat)
    ensures n == Stars(ip)
  {
    n := 0;
    var i := 0;
    assert ip[0..] == ip;
    while i < |ip|
      invariant 0 <= i <= |ip| && n + Stars(ip[i..]) == Stars(ip)
    {
      assert ip[i..][1..] == ip[i + 1..];
      if ip[i] == "*" { n := n + 1; }
      i := i + 1;
    }
  }

  /** The comparisons of one `case`, stopping at the first difference. */
  method CompareOctets(req: Bytes, ip: seq<string>, n: nat) returns (v: Verdict)
    requires |req| >= 8 && n <= 4 && n <= |ip|
    ensures v == Compare(req, ip, 0, n)
  {
    var i := 0;
    while i < n
      invariant 0 <= i <= n && Compare(req, ip, i, n) == Compare(req, ip, 0, n)
    {
      var o := Octet(ip[i]);
      if o.None? { return Throws; }
      if o.value != req[4 + i] { return Reject; }
      i := i + 1;
    }
    v := Accept;
  }

  /** `fire_wall` on an open rule file. */
  method RunFireWall(req: Bytes, lines: seq<string>) returns (v: Verdict)
    requires |req| >= 8 && AllReadable(lines)
    ensures v == FireWall(req, lines)
  {
    hide Split, Compare, Stars;
    var n := 0;
    assert lines[0..] == lines;
    while n < |lines|
      invariant 0 <= n <= |lines| && FireWall(req, lines[n..]) == FireWall(req, lines)
    {
      var line := lines[n];
      assert Readable(line) && lines[n..][1..] == lines[n + 1..];
      var rs := Split(line, ' ');
      var ip := Split(rs[2], '.');
      n := n + 1;
      if (req[1] == 1 && rs[1] == "b") || (req[1] == 2 && rs[1] == "c") { continue; }
      var stars := CountStars(ip);
      if stars > 4 { continue; }
      v := CompareOctets(req, ip, 4 - stars);
      if v != Reject { return; }
    }
    v := Reject;
  }

  // ---- Rules as address blocks ----

  /** A rule of the intended form: numbers, then k stars. */
  predicate WellFormed(line: string) {
    Readable(line) && Form(Octets(line))
  }

  predicate Form(ip: seq<string>) {
    |ip| == 4 && Stars(ip) <= 4 &&
    (forall i | 0 <= i < 4 - Stars(ip) :: ip[i] != "*" && Octet(ip[i]).Some?) &&
    forall i | 4 - Stars(ip) <= i < 4 :: ip[i] == "*"
  }

  /** The address of a request as one 32-bit number, first byte highest. */
  function Address(req: Bytes): nat
    requires |req| >= 8
  {
    0x100_0000 * (req[4] as nat) + 0x1_0000 * (req[5] as nat) + 0x100 * (req[6] as nat) + req[7] as nat
  }

  function Power256(k: nat): nat
    ensures Power256(k) > 0
  {
    if k == 0 then 1 else 256 * Power256(k - 1)
  }

  /** The number that the first n octets of a rule spell. */
  function Prefix(ip: seq<string>, n: nat): nat
    requires n <= |ip| && forall i | 0 <= i < n :: Octet(ip[i]).Some?
  {
    if n == 0 then 0 else 256 * Prefix(ip, n - 1) + Octet(ip[n - 1]).value as nat
  }

  /** The number that the first n bytes of the address spell. */
  function Head(req: Bytes, n: nat): nat
    requires |req| >= 8 && n <= 4
  {
    if n == 0 then 0 else 256 * Head(req, n - 1) + req[3 + n] as nat
  }

  lemma {:induction false} HeadIsQuotient(req: Bytes, k: nat)
    requires |req| >= 8 && k <= 4
    ensures Head(req, 4 - k) == Address(req) / Power256(k)
  {
    var a, b, c, d := req[4] as nat, req[5] as nat, req[6] as nat, req[7] as nat;
    assert Head(req, 1) == a;
    assert Head(req, 2) == 256 * a + b;
    assert Head(req, 3) == 256 * (256 * a + b) + c;
    assert Power256(1) == 256 && Power256(2) == 0x1_0000;
    assert Power256(3) == 0x100_0000 && Power256(4) == 0x1_0000_0000;
    var n := Address(req);
    assert n / 0x100 == 0x1_0000 * a + 0x100 * b + c;
    assert n / 0x1_0000 == 0x100 * a + b;
    assert n / 0x100_0000 == a;
  }

  lemma {:induction false} CompareIsPrefix(req: Bytes, ip: seq<string>, i: nat, n: nat)
    requires |req| >= 8 && i <= n <= 4 && n <= |ip|
    requires forall j | 0 <= j < n :: Octet(ip[j]).Some?
    requires forall j | 0 <= j < i :: Octet(ip[j]).value == req[4 + j]
    ensures Compare(req, ip, i, n) != Throws
    ensures Compare(req, ip, i, n) == Accept <==> forall j | 0 <= j < n :: Octet(ip[j]).value == req[4 + j]
    decreases n - i
  {
    if i < n && Octet(ip[i]).value == req[4 + i] { CompareIsPrefix(req, ip, i + 1, n); }
  }

  lemma {:induction false} PrefixIsHead(req: Bytes, ip: seq<string>, n: nat)
    requires |req| >= 8 && n <= 4 && n <= |ip| && forall j | 0 <= j < n :: Octet(ip[j]).Some?
    ensures Prefix(ip, n) == Head(req, n) <==> forall j | 0 <= j < n :: Octet(ip[j]).value == req[4 + j]
  {
    if n > 0 {
      PrefixIsHead(req, ip, n - 1);
      assert (forall j | 0 <= j < n :: Octet(ip[j]).value == req[4 + j]) <==>
        ((forall j | 0 <= j < n - 1 :: Octet(ip[j]).value == req[4 + j]) && Octet(ip[n - 1]).value == req[4 + (n - 1)]);
    }
  }

  /** The address lies in the block of the rule: with k stars, address div 256^k is the
      number the rule spells. */
  predicate InBlock(req: Bytes, line: string)
    requires |req| >= 8 && WellFormed(line)
  {
    var ip := Octets(line);
    Address(req) / Power256(Stars(ip)) == Prefix(ip, 4 - Stars(ip))
  }

  lemma {:induction false} RuleIsBlock(req: Bytes, line: string)
    requires |req| >= 8 && WellFormed(line)
    ensures RuleVerdict(req, line) == (if Applies(req[1], line) && InBlock(req, line) then Accept else Reject)
  {
    var ip := Octets(line);
    CompareIsPrefix(req, ip, 0, 4 - Stars(ip));
    PrefixIsHead(req, ip, 4 - Stars(ip));
    HeadIsQuotient(req, Stars(ip));
  }

  predicate Covers(req: Bytes, line: string)
    requires |req| >= 8
  {
    WellFormed(line) && Applies(req[1], line) && InBlock(req, line)
  }

  /** On well-formed rules the firewall accepts exactly when some rule of the request's
      class has the address in its block, and it never throws. The first word of a rule
      plays no role. */
  lemma {:induction false} AcceptIff(req: Bytes, lines: seq<string>)
    requires |req| >= 8 && forall i | 0 <= i < |lines| :: WellFormed(lines[i])
    ensures AllReadable(lines)
    ensures FireWall(req, lines) == (if exists i | 0 <= i < |lines| :: Covers(req, lines[i]) then Accept else Reject)
    decreases |lines|
  {
    if lines != [] {
      var rest := lines[1..];
      assert WellFormed(lines[0]);
      RuleIsBlock(req, lines[0]);
      assert forall i | 0 <= i < |rest| :: rest[i] == lines[i + 1];
      AcceptIff(req, rest);
      assert forall i | 0 <= i < |lines| :: Covers(req, lines[i]) ==> i == 0 || Covers(req, rest[i - 1]);
    }
  }

  /** Adding rules anywhere, or reordering them, never turns an accepted request into a
      rejected one; so the answer depends only on the set of rules. */
  lemma {:induction false} MoreRules(req: Bytes, lines: seq<string>, more: seq<string>)
    requires |req| >= 8
    requires forall i | 0 <= i < |lines| :: WellFormed(lines[i])
    requires forall i | 0 <= i < |more| :: WellFormed(more[i])
    requires forall line | line in lines :: line in more
    ensures AllReadable(lines) && AllReadable(more)
    ensures FireWall(req, lines) == Accept ==> FireWall(req, more) == Accept
    ensures (forall line | line in more :: line in lines) ==> FireWall(req, lines) == FireWall(req, more)
  {
    AcceptIff(req, lines);
    AcceptIff(req, more);
    CoverMoves(req, lines, more);
    if forall line | line in more :: line in lines { CoverMoves(req, more, lines); }
  }

  lemma {:induction false} CoverMoves(req: Bytes, lines: seq<string>, more: seq<string>)
    requires |req| >= 8 && forall line | line in lines :: line in more
    ensures (exists i | 0 <= i < |lines| :: Covers(req, lines[i])) ==> exists i | 0 <= i < |more| :: Covers(req, more[i])
  {
    if i :| 0 <= i < |lines| && Covers(req, lines[i]) {
      assert lines[i] in lines;
      var j :| 0 <= j < |more| && more[j] == lines[i];
      assert Covers(req, more[j]);
    }
  }

  // ---- The decision ----

  /** What happens to a client: `Relay` and `Bind` go on with the connection, `Refuse` sends
      the reply and closes, `Drop` closes without a reply, `Unset` relays to a socket that
      was never assigned. */
  datatype Decision = Relay(reply: Bytes) | Bind | Refuse(reply: Bytes) | Drop | Unset | Crash

  /** The first eight bytes of the request with 0 and the code in front. */
  function Reply(req: Bytes, code: Byte): Bytes
    requires |req| >= 8
  {
    req[..8][0 := 0][1 := code]
  }

  /** `client_handler` up to the relay, for any outcome of `connect`. */
  function Decide(b: Bytes, resolve: Resolver, lines: seq<string>, connect: (nat, nat) -> bool): Decision
    requires |b| >= 8 && AllReadable(lines) && (Is4A(b) ==> TwoNuls(b))
  {
    if b[0] != 4 then Drop
    else
      match Parse(b, resolve)
      case Failed => Drop
      case Request(target, req) =>
        if req[1] == 1 then
          (if !connect(target.ip, target.port) then
             (if FireWall(req, lines) == Throws then Crash else Refuse(Reply(req, 0x5B)))
           else match FireWall(req, lines)
             case Throws => Crash
             case Reject => Refuse(Reply(req, 0x5B))
             case Accept => Relay(Reply(req, 0x5A)))
        else if req[1] == 2 then
          (match FireWall(req, lines)
           case Throws => Crash
           case Reject => Drop
           case Accept => Bind)
        else Unset
  }

  lemma {:induction false} SameVerdict(req: Bytes, other: Bytes, lines: seq<string>)
    requires |req| >= 8 && |other| >= 8 && AllReadable(lines) && req[..8] == other[..8]
    ensures FireWall(req, lines) == FireWall(other, lines)
  {
    assert forall k | 0 <= k < 8 :: req[k] == req[..8][k] == other[..8][k] == other[k];
    if lines != [] {
      assert Readable(lines[0]);
      if Applies(req[1], lines[0]) && Stars(Octets(lines[0])) <= 4 {
        SameCompare(req, other, Octets(lines[0]), 0, 4 - Stars(Octets(lines[0])));
      }
      assert forall i | 0 <= i < |lines[1..]| :: lines[1..][i] == lines[i + 1];
      SameVerdict(req, other, lines[1..]);
    }
  }

  lemma {:induction false} SameCompare(req: Bytes, other: Bytes, ip: seq<string>, i: nat, n: nat)
    requires |req| >= 8 && |other| >= 8 && i <= n <= 4 && n <= |ip|
    requires forall k | 0 <= k < 8 :: req[k] == other[k]
    ensures Compare(req, ip, i, n) == Compare(other, ip, i, n)
    decreases n - i
  {
    if i < n { SameCompare(req, other, ip, i + 1, n); }
  }

  /** A 4A request whose name resolves gets the same decision, the same reply bytes and the
      same destination as a plain request for the resolved address, whatever user id that
      one carries; unless the address is of the form 0.0.0.x with x not 0. */
  lemma {:induction false} SameDecision(b: Bytes, resolve: Resolver, tail: Bytes, lines: seq<string>, connect: (nat, nat) -> bool)
    requires |b| >= 8 && Words(resolve) && Is4A(b) && TwoNuls(b) && AllReadable(lines)
    requires Parse(b, resolve).Request? && b[0] == 4
    requires var ip := Parse(b, resolve).target.ip; ip == 0 || ip % 0x100_0000 != 0
    ensures var r := Parse(b, resolve); var plain := r.bytes[..8] + tail;
      && |r.bytes| >= 8 && !Is4A(plain)
      && Decide(plain, resolve, lines, connect) == Decide(b, resolve, lines, connect)
  {
    hide Parse, Is4A, TwoNuls, FireWall, Pack, ByteOf;
    var r := Parse(b, resolve);
    OneAddress(b, resolve);
    SameAsPlain(b, resolve, tail);
    var plain := r.bytes[..8] + tail;
    assert plain[..8] == r.bytes[..8];
    assert forall k | 0 <= k < 8 :: plain[k] == r.bytes[k];
    SameVerdict(plain, r.bytes, lines);
    assert Reply(plain, 0x5A) == Reply(r.bytes, 0x5A) && Reply(plain, 0x5B) == Reply(r.bytes, 0x5B);
  }

  /** A relayed request: the firewall accepted exactly the address that was connected to,
      and the reply carries that address and the port that was connected to. */
  lemma {:induction false} RelayedWasAccepted(b: Bytes, resolve: Resolver, lines: seq<string>, connect: (nat, nat) -> bool)
    requires |b| >= 8 && Words(resolve) && AllReadable(lines) && (Is4A(b) ==> TwoNuls(b))
    requires Decide(b, resolve, lines, connect).Relay?
    ensures var r := Parse(b, resolve); var reply := Decide(b, resolve, lines, connect).reply;
      && r.Request? && connect(r.target.ip, r.target.port)
      && FireWall(r.bytes, lines) == Accept
      && |reply| == 8 && reply[0] == 0 && reply[1] == 0x5A
      && PackOf(reply) == PackOf(r.bytes) == r.target.ip && Port(reply) == r.target.port
  {
    OneAddress(b, resolve);
  }

  /** What a client learns: a request of another version is dropped; a CONNECT request is relayed, with code 0x5A, exactly when the
      destination can be connected and some rule covers it, and is refused with code 0x5B
      otherwise; a BIND request is served exactly when some rule covers it, and otherwise
      dropped without a reply. */
  lemma {:induction false} DecisionIff(b: Bytes, resolve: Resolver, lines: seq<string>, connect: (nat, nat) -> bool)
    requires |b| >= 8 && Words(resolve) && (Is4A(b) ==> TwoNuls(b))
    requires Parse(b, resolve).Request? && forall i | 0 <= i < |lines| :: WellFormed(lines[i])
    ensures AllReadable(lines) && |Parse(b, resolve).bytes| >= 8
    ensures var r := Parse(b, resolve); var d := Decide(b, resolve, lines, connect);
      var covered := exists i | 0 <= i < |lines| :: Covers(r.bytes, lines[i]);
      && (b[0] != 4 ==> d == Drop)
      && (b[0] == 4 && b[1] == 1 ==> d == if connect(r.target.ip, r.target.port) && covered
                             then Relay(Reply(r.bytes, 0x5A)) else Refuse(Reply(r.bytes, 0x5B)))
      && (b[0] == 4 && b[1] == 2 ==> d == if covered then Bind else Drop)
      && (b[0] == 4 && b[1] != 1 && b[1] != 2 ==> d == Unset)
  {
    hide Parse, FireWall, Covers, Reply, Is4A, TwoNuls, Pack, ByteOf, WellFormed, Decide;
    OneAddress(b, resolve);
    AcceptIff(Parse(b, resolve).bytes, lines);
    DecideBy(b, resolve, lines, connect);
  }

  lemma {:induction false} DecideBy(b: Bytes, resolve: Resolver, lines: seq<string>, connect: (nat, nat) -> bool)
    requires |b| >= 8 && (Is4A(b) ==> TwoNuls(b)) && AllReadable(lines)
    requires Parse(b, resolve).Request? && |Parse(b, resolve).bytes| >= 8 && Parse(b, resolve).bytes[1] == b[1]
    requires FireWall(Parse(b, resolve).bytes, lines) != Throws
    ensures var r := Parse(b, resolve); var d := Decide(b, resolve, lines, connect);
      var accepted := FireWall(r.bytes, lines) == Accept;
      && (b[0] != 4 ==> d == Drop)
      && (b[0] == 4 && b[1] != 1 && b[1] != 2 ==> d == Unset)
      && (b[0] == 4 && b[1] == 1 ==> d == if connect(r.target.ip, r.target.port) && accepted
                             then Relay(Reply(r.bytes, 0x5A)) else Refuse(Reply(r.bytes, 0x5B)))
      && (b[0] == 4 && b[1] == 2 ==> d == if accepted then Bind else Drop)
  {
    hide FireWall, Reply, Parse, Is4A, TwoNuls;
  }
}
