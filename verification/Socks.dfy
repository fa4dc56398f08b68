/** SOCKS4 and SOCKS4A requests: how the console builds them, how the server reads them,
    and which address the server checks and connects to (NP_Project4/Console.cpp:43-62,
    NP_Project4/sock_server.cpp:69-225 and 309-325). */
module Socks {
  import opened Text

  const BUFFER_SIZE := 4096
  const CLIENT_SIZE := 500

  newtype Byte = x: int | 0 <= x < 256

  type Bytes = seq<Byte>

  predicate NulFree(s: Bytes) {
    forall i | 0 <= i < |s| :: s[i] != 0
  }

  // ---- Scanning for NUL ----

  /** The index of the first NUL from `i` on, or the length. */
  function NextNul(b: Bytes, i: nat): (n: nat)
    requires i <= |b|
    ensures i <= n <= |b| && (n < |b| ==> b[n] == 0) && forall k | i <= k < n :: b[k] != 0
    decreases |b| - i
  {
    if i == |b| || b[i] == 0 then i else NextNul(b, i + 1)
  }

  lemma {:induction false} NextNulBefore(b: Bytes, i: nat, j: nat)
    requires i <= j < |b| && b[j] == 0
    ensures NextNul(b, i) <= j
    decreases j - i
  {
    if i < j { NextNulBefore(b, i + 1, j); }
  }

  /** The bytes are a C string area that both scans of a 4A request stay inside. */
  predicate TwoNuls(b: Bytes) {
    |b| > 8 && NextNul(b, 8) < |b| && NextNul(b, NextNul(b, 8) + 1) < |b|
  }

  predicate Is4A(b: Bytes)
    requires |b| >= 8
  {
    b[4] == 0 && b[5] == 0 && b[6] == 0 && b[7] != 0
  }

  /** The domain of a 4A request: what lies between the two NULs. */
  function Domain(b: Bytes): Bytes
    requires TwoNuls(b)
  {
    var start := NextNul(b, 8) + 1;
    b[start..NextNul(b, start)]
  }

  function Port(b: Bytes): nat
    requires |b| >= 4
  {
    b[2] as nat * 256 + b[3] as nat
  }

  // ---- Address words ----

  /** `sin_addr.s_addr`: four bytes in memory order, lowest first. */
  function Pack(a: Byte, b: Byte, c: Byte, d: Byte): nat {
    a as nat + 0x100 * b as nat + 0x1_0000 * c as nat + 0x100_0000 * d as nat
  }

  function PackOf(b: Bytes): nat
    requires |b| >= 8
  {
    Pack(b[4], b[5], b[6], b[7])
  }

  /** Byte k of a 32-bit word, `(word & 0xff << 8k) >> 8k`. */
  function ByteOf(word: nat, k: nat): Byte
    requires k < 4
  {
    ((match k case 0 => word case 1 => word / 0x100 case 2 => word / 0x1_0000 case _ => word / 0x100_0000) % 0x100) as Byte
  }

  lemma {:induction false} PackUnpack(word: nat)
    requires word < 0x1_0000_0000
    ensures Pack(ByteOf(word, 0), ByteOf(word, 1), ByteOf(word, 2), ByteOf(word, 3)) == word
  {
    assert word / 0x1_0000 == (word / 0x100) / 0x100;
    assert word / 0x100_0000 == (word / 0x1_0000) / 0x100;
  }

  lemma {:induction false} UnpackPack(a: Byte, b: Byte, c: Byte, d: Byte)
    ensures var w := Pack(a, b, c, d);
      w < 0x1_0000_0000 &&
      ByteOf(w, 0) == a && ByteOf(w, 1) == b && ByteOf(w, 2) == c && ByteOf(w, 3) == d
  {
    var w := Pack(a, b, c, d);
    assert w / 0x100 == b as nat + 0x100 * c as nat + 0x1_0000 * d as nat;
    assert w / 0x1_0000 == c as nat + 0x100 * d as nat;
    assert w / 0x100_0000 == d as nat;
  }

  // ---- parse_request ----

  /** `socks_server`: what `tcp_connect` will use. */
  datatype Target = Target(cd: Byte, port: nat, ip: nat)

  /** The resolver's answer to a domain name and port, `None` when it fails; a word in
      network order. */
  type Resolver = (Bytes, nat) -> Option<nat>

  ghost predicate Words(resolve: Resolver) {
    forall d: Bytes, p: nat :: resolve(d, p).Some? ==> resolve(d, p).value < 0x1_0000_0000
  }

  datatype Parsed = Failed | Request(target: Target, bytes: Bytes)

  /** `parse_request`: the target, and the request with bytes 4 to 7 rewritten. */
  function Parse(b: Bytes, resolve: Resolver): Parsed
    requires |b| >= 8 && (Is4A(b) ==> TwoNuls(b))
  {
    if Is4A(b) then
      match resolve(Domain(b), Port(b))
      case None => Failed
      case Some(ip) =>
        Request(Target(b[1], Port(b), ip),
                b[4 := ByteOf(ip, 0)][5 := ByteOf(ip, 1)][6 := ByteOf(ip, 2)][7 := ByteOf(ip, 3)])
    else Request(Target(b[1], Port(b), PackOf(b)), b)
  }

  /** The loop that skips the user id, then the loop that collects the domain. Both stay
      inside the buffer because it has the two NULs. */
  method ReadDomain(request: array<Byte>) returns (domain: Bytes)
    requires TwoNuls(request[..])
    ensures domain == Domain(request[..])
  {
    ghost var b := request[..];
    var start := 8;
    while request[start] != 0
      invariant 8 <= start < |b| && NextNul(b, start) == NextNul(b, 8)
      decreases |b| - start
    {
      assert NextNul(b, start) == NextNul(b, start + 1);
      start := start + 1;
    }
    domain := [];
    var i := start + 1;
    while request[i] != 0
      invariant start + 1 <= i < |b| && NextNul(b, i) == NextNul(b, start + 1)
      invariant domain == b[start + 1..i]
      decreases |b| - i
    {
      assert NextNul(b, i) == NextNul(b, i + 1);
      domain := domain + [request[i]];
      i := i + 1;
    }
  }

  /** `parse_request` on the request buffer, in place. */
  method ParseRequest(request: array<Byte>, resolve: Resolver) returns (ok: bool, target: Target)
    requires request.Length >= 8 && Words(resolve)
    requires Is4A(request[..]) ==> TwoNuls(request[..])
    modifies request
    ensures Parse(old(request[..]), resolve) == (if ok then Request(target, request[..]) else Failed)
  {
    hide ByteOf, Pack, Domain, TwoNuls;
    ghost var b := request[..];
    var port := request[2] as nat * 256 + request[3] as nat;
    if request[4] == 0 && request[5] == 0 && request[6] == 0 && request[7] != 0 {
      var domain := ReadDomain(request);
      var answer := resolve(domain, port);
      match answer {
        case None => return false, Target(0, 0, 0);
        case Some(ip) =>
          target := Target(request[1], port, ip);
          request[4] := ByteOf(ip, 0);
          request[5] := ByteOf(ip, 1);
          request[6] := ByteOf(ip, 2);
          request[7] := ByteOf(ip, 3);
      }
    } else {
      target := Target(request[1], port, Pack(request[4], request[5], request[6], request[7]));
    }
    ok := true;
  }

  /** The two scans of a 4A request stay inside the buffer exactly when it holds a NUL
      after the header and another one behind it. */
  lemma {:induction false} InBoundsIff(b: Bytes)
    requires |b| >= 8
    ensures TwoNuls(b) <==> exists i, j | 8 <= i < j < |b| :: b[i] == 0 && b[j] == 0
  {
    if TwoNuls(b) {
      var i := NextNul(b, 8);
      var j := NextNul(b, i + 1);
      assert b[i] == 0 && b[j] == 0;
    }
    if i, j :| 8 <= i < j < |b| && b[i] == 0 && b[j] == 0 {
      NextNulBefore(b, 8, i);
      NextNulBefore(b, NextNul(b, 8) + 1, j);
    }
  }

  // ---- The client's layout ----

  function Zeros(n: nat): Bytes {
    seq(n, _ => 0)
  }

  /** A CONNECT request of SOCKS4A for a port, a user id and a domain. */
  function Build(port: nat, userId: Bytes, domain: Bytes): Bytes
    requires port < 0x1_0000
  {
    [4, 1, (port / 256) as Byte, (port % 256) as Byte, 0, 0, 0, 1] + userId + [0] + domain + [0]
  }

  /** The request construction of `do_connect`, for any user id and domain: the source has
      them fixed. The rest of the array stays zero. */
  method BuildRequest(port: nat, userId: Bytes, domain: Bytes) returns (request: array<Byte>)
    requires port < 0x1_0000 && 10 + |userId| + |domain| <= CLIENT_SIZE
    ensures fresh(request) && request.Length == CLIENT_SIZE
    ensures request[..] == Build(port, userId, domain) + Zeros(CLIENT_SIZE - 10 - |userId| - |domain|)
  {
    request := new Byte[CLIENT_SIZE](_ => 0);
    request[0], request[1] := 4, 1;
    request[2], request[3] := (port / 256) as Byte, (port % 256) as Byte;
    request[7] := 1;
    ghost var header := request[..8];
    assert header == Build(port, userId, domain)[..8];
    hide Build;
    var i := 0;
    while i < |userId|
      invariant 0 <= i <= |userId|
      invariant request[..8] == header
      invariant forall k | 0 <= k < i :: request[8 + k] == userId[k]
      invariant forall k | 8 + i <= k < CLIENT_SIZE :: request[k] == 0
    {
      request[8 + i] := userId[i];
      i := i + 1;
    }
    var start := 9 + |userId|;
    i := 0;
    while i < |domain|
      invariant 0 <= i <= |domain|
      invariant request[..8] == header
      invariant forall k | 0 <= k < |userId| :: request[8 + k] == userId[k]
      invariant request[8 + |userId|] == 0
      invariant forall k | 0 <= k < i :: request[start + k] == domain[k]
      invariant forall k | start + i <= k < CLIENT_SIZE :: request[k] == 0
    {
      request[start + i] := domain[i];
      i := i + 1;
    }
    LayoutAt(request[..], port, userId, domain);
  }

  lemma {:induction false} LayoutAt(b: Bytes, port: nat, userId: Bytes, domain: Bytes)
    requires port < 0x1_0000 && |b| >= 10 + |userId| + |domain|
    requires b[..8] == Build(port, userId, domain)[..8]
    requires forall k | 0 <= k < |userId| :: b[8 + k] == userId[k]
    requires b[8 + |userId|] == 0
    requires forall k | 0 <= k < |domain| :: b[9 + |userId| + k] == domain[k]
    requires forall k | 9 + |userId| + |domain| <= k < |b| :: b[k] == 0
    ensures b == Build(port, userId, domain) + Zeros(|b| - 10 - |userId| - |domain|)
  {
    var c := Build(port, userId, domain) + Zeros(|b| - 10 - |userId| - |domain|);
    forall k | 0 <= k < |b|
      ensures b[k] == c[k]
    {
      if k < 8 {
        assert b[..8][k] == Build(port, userId, domain)[..8][k];
      } else if 8 <= k < 8 + |userId| {
        assert b[8 + (k - 8)] == userId[k - 8];
      } else if 9 + |userId| <= k < 9 + |userId| + |domain| {
        assert b[9 + |userId| + (k - 9 - |userId|)] == domain[k - 9 - |userId|];
      }
    }
  }

  /** The layout byte by byte: version, command, port with the high byte first, the address
      0.0.0.1, the user id, a NUL, the domain and a NUL. */
  lemma {:induction false} BuildLayout(port: nat, userId: Bytes, domain: Bytes)
    requires port < 0x1_0000
    ensures var b, i := Build(port, userId, domain), 8 + |userId|;
      && |b| == 10 + |userId| + |domain|
      && b[0] == 4 && b[1] == 1 && b[2] as nat == port / 0x100 && b[3] as nat == port % 0x100
      && b[4] == 0 && b[5] == 0 && b[6] == 0 && b[7] == 1
      && b[8..i] == userId && b[i] == 0 && b[i + 1..i + 1 + |domain|] == domain && b[i + 1 + |domain|] == 0
  {
  }

  /** Whatever follows in the server's buffer, the server takes the 4A branch on a built
      request, stays inside it, and reads the same port and domain. */
  lemma {:induction false} RoundTrip(port: nat, userId: Bytes, domain: Bytes, rest: Bytes)
    requires port < 0x1_0000 && NulFree(userId) && NulFree(domain)
    ensures var b := Build(port, userId, domain) + rest;
      && Is4A(b) && TwoNuls(b)
      && b[0] == 4 && b[1] == 1 && Port(b) == port && Domain(b) == domain
      && b[8..NextNul(b, 8)] == userId
  {
    var b := Build(port, userId, domain) + rest;
    BuildLayout(port, userId, domain);
    var i, j := 8 + |userId|, 9 + |userId| + |domain|;
    assert forall k | 8 <= k < i :: b[k] == userId[k - 8];
    assert b[i] == 0;
    assert forall k | i + 1 <= k < j :: b[k] == domain[k - i - 1];
    assert b[j] == 0;
    assert b[i + 1..j] == domain;
  }

  /** The server asks the resolver for exactly the domain and port that the client put in, and
      connects to the answer with that port; without an answer the request fails. */
  lemma {:induction false} ParseBuilt(port: nat, userId: Bytes, domain: Bytes, rest: Bytes, resolve: Resolver)
    requires port < 0x1_0000 && NulFree(userId) && NulFree(domain)
    ensures var b := Build(port, userId, domain) + rest;
      && Is4A(b) && TwoNuls(b)
      && match resolve(domain, port)
         case None => Parse(b, resolve) == Failed
         case Some(ip) => Parse(b, resolve).Request? && Parse(b, resolve).target == Target(1, port, ip)
  {
    hide TwoNuls, Is4A, Domain, Port, Build, ByteOf;
    RoundTrip(port, userId, domain, rest);
  }

  /** The server's buffer after it has read the client's 500 bytes. */
  lemma {:induction false} RoundTripOnTheWire(port: nat, userId: Bytes, domain: Bytes)
    requires port < 0x1_0000 && NulFree(userId) && NulFree(domain)
    requires 10 + |userId| + |domain| <= CLIENT_SIZE
    ensures var b := Build(port, userId, domain) + Zeros(CLIENT_SIZE - 10 - |userId| - |domain|) + Zeros(BUFFER_SIZE - CLIENT_SIZE);
      && |b| == BUFFER_SIZE && Is4A(b) && TwoNuls(b) && Port(b) == port && Domain(b) == domain
  {
    var rest := Zeros(CLIENT_SIZE - 10 - |userId| - |domain|) + Zeros(BUFFER_SIZE - CLIENT_SIZE);
    var b := Build(port, userId, domain) + Zeros(CLIENT_SIZE - 10 - |userId| - |domain|) + Zeros(BUFFER_SIZE - CLIENT_SIZE);
    assert b == Build(port, userId, domain) + rest;
    RoundTrip(port, userId, domain, rest);
  }

  // ---- One address everywhere ----

  /** For every request and every resolver: the four bytes that the firewall will look at
      are exactly the bytes of the word that `tcp_connect` uses, and the command, port and
      everything outside bytes 4 to 7 are as they came in. */
  lemma {:induction false} OneAddress(b: Bytes, resolve: Resolver)
    requires |b| >= 8 && Words(resolve) && (Is4A(b) ==> TwoNuls(b)) && Parse(b, resolve).Request?
    ensures var r := Parse(b, resolve);
      && |r.bytes| == |b|
      && PackOf(r.bytes) == r.target.ip && r.target.ip < 0x1_0000_0000
      && (forall k | 0 <= k < 4 :: r.bytes[4 + k] == ByteOf(r.target.ip, k))
      && r.target.cd == b[1] == r.bytes[1] && r.target.port == Port(b) == Port(r.bytes)
      && (forall k | 0 <= k < |b| && !(4 <= k < 8) :: r.bytes[k] == b[k])
  {
    if Is4A(b) {
      PackUnpack(resolve(Domain(b), Port(b)).value);
    } else {
      UnpackPack(b[4], b[5], b[6], b[7]);
    }
  }

  lemma {:induction false} LowBytesZero(ip: nat)
    requires ip < 0x1_0000_0000
    ensures ByteOf(ip, 0) == 0 && ByteOf(ip, 1) == 0 && ByteOf(ip, 2) == 0 && ByteOf(ip, 3) != 0
            <==> ip != 0 && ip % 0x100_0000 == 0
  {
    PackUnpack(ip);
    var a, b, c, d := ByteOf(ip, 0), ByteOf(ip, 1), ByteOf(ip, 2), ByteOf(ip, 3);
    assert ip % 0x100_0000 == a as nat + 0x100 * b as nat + 0x1_0000 * c as nat;
  }

  /** A 4A request and a plain request for the address it resolves to, with any user id
      behind the header: the plain one is read as a plain one exactly when the address is
      not of the form 0.0.0.x with x not 0, and then both have the same target and the
      same first eight bytes, which is all that the firewall and the reply look at. */
  lemma {:induction false} SameAsPlain(b: Bytes, resolve: Resolver, tail: Bytes)
    requires |b| >= 8 && Words(resolve) && Is4A(b) && TwoNuls(b) && Parse(b, resolve).Request?
    ensures var r := Parse(b, resolve);
      && |r.bytes| >= 8
      && (Is4A(r.bytes[..8] + tail) <==> r.target.ip != 0 && r.target.ip % 0x100_0000 == 0)
      && (!Is4A(r.bytes[..8] + tail) ==> Parse(r.bytes[..8] + tail, resolve) == Request(r.target, r.bytes[..8] + tail))
  {
    hide ByteOf, Pack, Domain, TwoNuls;
    var r := Parse(b, resolve);
    OneAddress(b, resolve);
    LowBytesZero(r.target.ip);
    assert r.bytes[4 + 0] == ByteOf(r.target.ip, 0) && r.bytes[4 + 1] == ByteOf(r.target.ip, 1);
    assert r.bytes[4 + 2] == ByteOf(r.target.ip, 2) && r.bytes[4 + 3] == ByteOf(r.target.ip, 3);
  }
}
