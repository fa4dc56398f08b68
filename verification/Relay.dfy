/** The relay loop of the SOCKS server (NP_Project4/sock_server.cpp:394-465), with full
    writes and reads that do not fail. */
module Relay {
  import opened Text

  type Data = seq<bv8>

  /** What `select` and `read` yield in one pass: for each ready socket the bytes of one
      read, empty at end-of-file. */
  datatype Pass = Pass(source: Option<Data>, dest: Option<Data>)

  datatype Side = Source | Dest

  /** One read, in the order in which the loop over descriptors performs them. */
  datatype Read = Read(from: Side, data: Data)

  function One(side: Side, data: Option<Data>): seq<Read> {
    match data
    case None => []
    case Some(d) => [Read(side, d)]
  }

  /** The lower descriptor number is served first. */
  function ReadsOf(p: Pass, sourceFirst: bool): seq<Read> {
    if sourceFirst then One(Source, p.source) + One(Dest, p.dest) else One(Dest, p.dest) + One(Source, p.source)
  }

  function AllReads(passes: seq<Pass>, sourceFirst: bool): seq<Read> {
    if passes == [] then [] else ReadsOf(passes[0], sourceFirst) + AllReads(passes[1..], sourceFirst)
  }

  /** The reads before the first end-of-file of either side. */
  function BeforeEnd(log: seq<Read>): seq<Read> {
    if log == [] || log[0].data == [] then [] else [log[0]] + BeforeEnd(log[1..])
  }

  predicate Ends(log: seq<Read>) {
    exists i | 0 <= i < |log| :: log[i].data == []
  }

  /** Everything read from one side, in order. */
  function From(log: seq<Read>, side: Side): Data {
    if log == [] then [] else (if log[0].from == side then log[0].data else []) + From(log[1..], side)
  }

  lemma {:induction false} FromAppend(a: seq<Read>, b: seq<Read>, side: Side)
    ensures From(a + b, side) == From(a, side) + From(b, side)
  {
    if a == [] {
      assert a + b == b;
    } else {
      assert (a + b)[1..] == a[1..] + b;
      FromAppend(a[1..], b, side);
    }
  }

  lemma {:induction false} EndsAppend(a: seq<Read>, b: seq<Read>)
    ensures Ends(a + b) <==> Ends(a) || Ends(b)
  {
    var ab := a + b;
    if i :| 0 <= i < |a| && a[i].data == [] { assert ab[i].data == []; }
    if i :| 0 <= i < |b| && b[i].data == [] { assert ab[|a| + i].data == []; }
    if i :| 0 <= i < |ab| && ab[i].data == [] { assert if i < |a| then a[i].data == [] else b[i - |a|].data == []; }
  }

  lemma {:induction false} BeforeEndAppend(a: seq<Read>, b: seq<Read>)
    ensures BeforeEnd(a + b) == if Ends(a) then BeforeEnd(a) else a + BeforeEnd(b)
  {
    hide Ends;
    if a == [] {
      assert a + b == b;
      assert !Ends(a) by { NoneEnds(); }
    } else {
      var rest := a[1..];
      assert (a + b)[1..] == rest + b && (a + b)[0] == a[0];
      EndsHead(a);
      BeforeEndAppend(rest, b);
      assert [a[0]] + (rest + BeforeEnd(b)) == a + BeforeEnd(b);
    }
  }

  lemma {:induction false} NoneEnds()
    ensures !Ends([])
  {
  }

  lemma {:induction false} EndsHead(a: seq<Read>)
    requires a != []
    ensures Ends(a) <==> a[0].data == [] || Ends(a[1..])
  {
    if Ends(a[1..]) {
      var i :| 0 <= i < |a[1..]| && a[1..][i].data == [];
      assert a[i + 1].data == [];
    }
    if Ends(a) && a[0].data != [] {
      var i :| 0 <= i < |a| && a[i].data == [];
      assert a[1..][i - 1].data == [];
    }
  }

  /** The two directions after some reads. */
  datatype Flow = Flow(toDest: Data, toSource: Data, open: bool)

  /** The bytes written to each side are the bytes read from the other before the first
      end-of-file, and the relay is closed exactly when one was read. */
  ghost predicate Faithful(f: Flow, log: seq<Read>) {
    && f.toDest == From(BeforeEnd(log), Source)
    && f.toSource == From(BeforeEnd(log), Dest)
    && f.open == !Ends(log)
  }

  lemma {:induction false} OneRead(side: Side, d: Data, to: Side)
    ensures From([Read(side, d)], to) == (if to == side then d else [])
    ensures Ends([Read(side, d)]) <==> d == []
    ensures BeforeEnd([Read(side, d)]) == (if d == [] then [] else [Read(side, d)])
  {
    assert d + [] == d;
    assert [Read(side, d)][0].data == d;
  }

  lemma {:induction false} OneMore(before: seq<Read>, side: Side, d: Data, to: Side)
    requires !Ends(before)
    ensures var log := before + [Read(side, d)];
      && (Ends(log) <==> d == [])
      && From(BeforeEnd(log), to) == From(BeforeEnd(before), to) + (if to == side then d else [])
  {
    hide From, Ends, BeforeEnd;
    OneRead(side, d, to);
    BeforeEndAppend(before, [Read(side, d)]);
    EndsAppend(before, [Read(side, d)]);
    BeforeEndAppend(before, []);
    assert before + [] == before;
    assert BeforeEnd([]) == [] by { BeforeEndNone(); }
    FromAppend(before, BeforeEnd([Read(side, d)]), to);
    assert before + BeforeEnd([Read(side, d)]) == (if d == [] then before else before + [Read(side, d)]);
  }

  lemma {:induction false} BeforeEndNone()
    ensures BeforeEnd([]) == []
  {
  }

  /** One branch of the descriptor loop: a ready socket is read and written to the other;
      an empty read closes both. */
  method Forward(f: Flow, side: Side, data: Option<Data>, ghost before: seq<Read>) returns (g: Flow)
    requires Faithful(f, before) && f.open
    ensures Faithful(g, before + One(side, data))
  {
    hide From, Ends, BeforeEnd;
    match data {
      case None =>
        assert before + One(side, data) == before;
        g := f;
      case Some(d) =>
        OneMore(before, side, d, Source);
        OneMore(before, side, d, Dest);
        if d == [] {
          g := f.(open := false);
        } else if side == Source {
          g := f.(toDest := f.toDest + d);
        } else {
          g := f.(toSource := f.toSource + d);
        }
    }
  }

  lemma {:induction false} ClosedStays(f: Flow, log: seq<Read>, more: seq<Read>)
    requires Faithful(f, log) && !f.open
    ensures Faithful(f, log + more)
  {
    BeforeEndAppend(log, more);
    EndsAppend(log, more);
  }

  /** The loop over the descriptors for one answer of `select`. */
  method OnePass(f: Flow, p: Pass, sourceFirst: bool, ghost before: seq<Read>) returns (g: Flow)
    requires Faithful(f, before) && f.open
    ensures Faithful(g, before + ReadsOf(p, sourceFirst))
  {
    hide Faithful;
    var first, second := if sourceFirst then Source else Dest, if sourceFirst then Dest else Source;
    var a, b := if sourceFirst then p.source else p.dest, if sourceFirst then p.dest else p.source;
    g := Forward(f, first, a, before);
    ghost var log := before + One(first, a);
    assert log + One(second, b) == before + ReadsOf(p, sourceFirst);
    if g.open {
      g := Forward(g, second, b, log);
    } else {
      ClosedStays(g, log, One(second, b));
    }
  }

  /** `do_transfer`: after an end-of-file the `for` loop stops, and the next `select` fails
      on the closed descriptors, which ends the process. */
  method DoTransfer(passes: seq<Pass>, sourceFirst: bool) returns (f: Flow)
    ensures Faithful(f, AllReads(passes, sourceFirst))
  {
    hide Faithful, ReadsOf;
    f := Flow([], [], true);
    assert Faithful(f, []) by { NothingRead(); }
    var n := 0;
    ghost var done: seq<Read> := [];
    assert passes[0..] == passes;
    while n < |passes| && f.open
      invariant 0 <= n <= |passes| && Faithful(f, done)
      invariant done + AllReads(passes[n..], sourceFirst) == AllReads(passes, sourceFirst)
    {
      assert passes[n..][1..] == passes[n + 1..];
      f := OnePass(f, passes[n], sourceFirst, done);
      done := done + ReadsOf(passes[n], sourceFirst);
      n := n + 1;
    }
    if f.open {
      assert passes[n..] == [];
      assert done + [] == done;
    } else {
      ClosedStays(f, done, AllReads(passes[n..], sourceFirst));
    }
  }

  lemma {:induction false} NothingRead()
    ensures Faithful(Flow([], [], true), [])
  {
  }

  // ---- What the cut means ----

  /** The delivered reads are a prefix of all reads, none of them is an end-of-file, and
      the read that follows them, if any, is the first end-of-file. */
  lemma {:induction false} CutAtFirstEnd(log: seq<Read>)
    ensures var cut := BeforeEnd(log);
      && cut <= log
      && (forall i | 0 <= i < |cut| :: cut[i].data != [])
      && (|cut| < |log| ==> log[|cut|].data == [])
      && (|cut| == |log| <==> !Ends(log))
  {
    if log != [] {
      CutAtFirstEnd(log[1..]);
      EndsHead(log);
    }
  }

  /** Once a side has ended, nothing that is read later reaches anybody, in either direction. */
  lemma {:induction false} NothingAfterEnd(log: seq<Read>, more: seq<Read>, side: Side)
    requires Ends(log)
    ensures From(BeforeEnd(log + more), side) == From(BeforeEnd(log), side)
  {
    BeforeEndAppend(log, more);
  }

  // ---- By the answers of `select` ----

  function Got(data: Option<Data>): Data {
    match data
    case None => []
    case Some(d) => d
  }

  /** All that one side sends in some passes. */
  function Sent(passes: seq<Pass>, side: Side): Data {
    if passes == [] then []
    else Got(if side == Source then passes[0].source else passes[0].dest) + Sent(passes[1..], side)
  }

  /** One of the sides ends in the pass. */
  predicate Ending(p: Pass) {
    p.source == Some([]) || p.dest == Some([])
  }

  /** What the side still delivers in pass n: nothing when the other side's end is read first. */
  function LastOf(passes: seq<Pass>, n: nat, side: Side, sourceFirst: bool): Data
    requires n <= |passes|
  {
    if n == |passes| then []
    else match side
      case Source => if passes[n].dest == Some([]) && !sourceFirst then [] else Got(passes[n].source)
      case Dest => if passes[n].source == Some([]) && sourceFirst then [] else Got(passes[n].dest)
  }

  lemma {:induction false} OneEnds(side: Side, data: Option<Data>)
    ensures Ends(One(side, data)) <==> data == Some([])
    ensures BeforeEnd(One(side, data)) == if data == Some([]) then [] else One(side, data)
    ensures forall to: Side :: From(One(side, data), to) == if to == side then Got(data) else []
  {
    match data
    case None => NoneEnds();
    case Some(d) =>
      OneRead(side, d, Source);
      OneRead(side, d, Dest);
  }

  /** The delivered data of one pass: a side that ends cuts off what is read after it, and the
      lower descriptor is read first. */
  lemma {:induction false} PassDelivers(p: Pass, sourceFirst: bool)
    ensures Ends(ReadsOf(p, sourceFirst)) <==> Ending(p)
    ensures From(BeforeEnd(ReadsOf(p, sourceFirst)), Source) == if p.dest == Some([]) && !sourceFirst then [] else Got(p.source)
    ensures From(BeforeEnd(ReadsOf(p, sourceFirst)), Dest) == if p.source == Some([]) && sourceFirst then [] else Got(p.dest)
    ensures !Ending(p) ==> BeforeEnd(ReadsOf(p, sourceFirst)) == ReadsOf(p, sourceFirst)
  {
    hide From, Ends, BeforeEnd, One;
    OneEnds(Source, p.source);
    OneEnds(Dest, p.dest);
    var a, b := One(Source, p.source), One(Dest, p.dest);
    EndsAppend(a, b);
    EndsAppend(b, a);
    BeforeEndAppend(a, b);
    BeforeEndAppend(b, a);
    FromNone();
    forall side: Side
      ensures From(a + BeforeEnd(b), side) == From(a, side) + From(BeforeEnd(b), side)
      ensures From(b + BeforeEnd(a), side) == From(b, side) + From(BeforeEnd(a), side)
    {
      FromAppend(a, BeforeEnd(b), side);
      FromAppend(b, BeforeEnd(a), side);
    }
  }

  /** What reaches each side when n is the first pass in which a side ends: all that the
      other sent before, and what it sent in that pass unless the end was read first. */
  lemma {:induction false} DeliveredIs(passes: seq<Pass>, sourceFirst: bool, n: nat)
    requires n <= |passes| && (forall i | 0 <= i < n :: !Ending(passes[i])) && (n < |passes| ==> Ending(passes[n]))
    ensures var log := AllReads(passes, sourceFirst);
      && (Ends(log) <==> n < |passes|)
      && From(BeforeEnd(log), Source) == Sent(passes[..n], Source) + LastOf(passes, n, Source, sourceFirst)
      && From(BeforeEnd(log), Dest) == Sent(passes[..n], Dest) + LastOf(passes, n, Dest, sourceFirst)
    decreases |passes|
  {
    hide From, Ends, BeforeEnd, ReadsOf;
    if passes == [] {
      NoneEnds();
      BeforeEndNone();
      FromNone();
    } else {
      var now, rest := ReadsOf(passes[0], sourceFirst), AllReads(passes[1..], sourceFirst);
      PassDelivers(passes[0], sourceFirst);
      EndsAppend(now, rest);
      BeforeEndAppend(now, rest);
      if n == 0 {
        assert passes[..0] == [];
      } else {
        assert !Ending(passes[0]);
        assert forall i | 0 <= i < |passes[1..]| :: passes[1..][i] == passes[i + 1];
        DeliveredIs(passes[1..], sourceFirst, n - 1);
        assert passes[..n][1..] == passes[1..][..n - 1];
        SentHead(passes[..n], Source);
        SentHead(passes[..n], Dest);
        Assoc(Got(passes[0].source), Sent(passes[..n][1..], Source), LastOf(passes, n, Source, sourceFirst));
        Assoc(Got(passes[0].dest), Sent(passes[..n][1..], Dest), LastOf(passes, n, Dest, sourceFirst));
        FromAppend(now, BeforeEnd(rest), Source);
        FromAppend(now, BeforeEnd(rest), Dest);
      }
    }
  }

  lemma {:induction false} SentHead(passes: seq<Pass>, side: Side)
    requires passes != []
    ensures Sent(passes, side) == Got(if side == Source then passes[0].source else passes[0].dest) + Sent(passes[1..], side)
  {
  }

  lemma {:induction false} Assoc(a: Data, b: Data, c: Data)
    ensures a + (b + c) == a + b + c
  {
  }

  lemma {:induction false} FromNone()
    ensures forall side: Side :: From([], side) == []
  {
  }
}
