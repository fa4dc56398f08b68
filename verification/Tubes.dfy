/** The linked list of user pipes ("tubes") of the single-process server
    (NP_Project2/np_single_proc_/src/tube.c). */
module Tubes {

  datatype Entry = Entry(sender: int, receiver: int, readFd: int, writeFd: int)

  /** Which tubes a deletion is after: all of one sender, or one pair. */
  datatype Key = From(sender: int) | Pair(sender: int, receiver: int)

  predicate Hit(key: Key, e: Entry) {
    e.sender == key.sender && (key.Pair? ==> e.receiver == key.receiver)
  }

  function Without(es: seq<Entry>, key: Key): seq<Entry> {
    if es == [] then []
    else (if Hit(key, es[0]) then [] else [es[0]]) + Without(es[1..], key)
  }

  /** The descriptors of the hit tubes, in list order. */
  function HitFds(es: seq<Entry>, key: Key): seq<int> {
    if es == [] then []
    else (if Hit(key, es[0]) then [es[0].readFd, es[0].writeFd] else []) + HitFds(es[1..], key)
  }

  /** The list begins with two tubes that the deletion is after. */
  predicate StartsWithTwo(es: seq<Entry>, key: Key) {
    |es| >= 2 && Hit(key, es[0]) && Hit(key, es[1])
  }

  lemma {:induction false} WithoutAppend(a: seq<Entry>, b: seq<Entry>, key: Key)
    ensures Without(a + b, key) == Without(a, key) + Without(b, key)
  {
    if a == [] {
      assert a + b == b;
    } else {
      assert (a + b)[1..] == a[1..] + b && (a + b)[0] == a[0];
      WithoutAppend(a[1..], b, key);
      var first := if Hit(key, a[0]) then [] else [a[0]];
      assert first + (Without(a[1..], key) + Without(b, key)) == (first + Without(a[1..], key)) + Without(b, key);
    }
  }

  lemma {:induction false} HitFdsAppend(a: seq<Entry>, b: seq<Entry>, key: Key)
    ensures HitFds(a + b, key) == HitFds(a, key) + HitFds(b, key)
  {
    if a == [] {
      assert a + b == b;
    } else {
      assert (a + b)[1..] == a[1..] + b && (a + b)[0] == a[0];
      HitFdsAppend(a[1..], b, key);
      var first := if Hit(key, a[0]) then [a[0].readFd, a[0].writeFd] else [];
      assert first + (HitFds(a[1..], key) + HitFds(b, key)) == (first + HitFds(a[1..], key)) + HitFds(b, key);
    }
  }

  lemma {:induction false} NoHits(es: seq<Entry>, key: Key)
    requires forall i | 0 <= i < |es| :: !Hit(key, es[i])
    ensures Without(es, key) == es && HitFds(es, key) == []
  {
    if es != [] {
      assert forall i | 0 <= i < |es[1..]| :: es[1..][i] == es[i + 1];
      NoHits(es[1..], key);
    }
  }

  /** Taking out a hit tube at position k leaves the same rest to take out. */
  lemma {:induction false} TakeOut(es: seq<Entry>, k: nat, key: Key)
    requires k < |es| && Hit(key, es[k]) && forall i | 0 <= i < k :: !Hit(key, es[i])
    ensures Without(es, key) == Without(es[..k] + es[k + 1..], key)
    ensures HitFds(es, key) == [es[k].readFd, es[k].writeFd] + HitFds(es[..k] + es[k + 1..], key)
  {
    var front, rest := es[..k], es[k..];
    assert es == front + rest && rest[0] == es[k] && rest[1..] == es[k + 1..];
    WithoutAppend(front, rest, key);
    WithoutAppend(front, es[k + 1..], key);
    HitFdsAppend(front, rest, key);
    HitFdsAppend(front, es[k + 1..], key);
    NoHits(front, key);
  }

  class Tube {
    const sender: int
    const receiver: int
    const readFd: int
    const writeFd: int
    var next: Tube?

    /** `create_tube`, with the descriptors that `pipe` returned. */
    constructor (sender: int, receiver: int, readFd: int, writeFd: int)
      ensures Item() == Entry(sender, receiver, readFd, writeFd) && next == null
    {
      this.sender, this.receiver, this.readFd, this.writeFd := sender, receiver, readFd, writeFd;
      next := null;
    }

    function Item(): Entry {
      Entry(sender, receiver, readFd, writeFd)
    }
  }

  /** The node at position i is linked to the one behind it. */
  ghost predicate NextIs(nodes: seq<Tube>, i: nat)
    requires i < |nodes|
    reads nodes
  {
    nodes[i].next == (if i + 1 < |nodes| then nodes[i + 1] else null)
  }

  function Items(nodes: seq<Tube>): (es: seq<Entry>)
    ensures |es| == |nodes| && forall i | 0 <= i < |es| :: es[i] == nodes[i].Item()
  {
    if nodes == [] then [] else [nodes[0].Item()] + Items(nodes[1..])
  }

  class TubeList {
    var head: Tube?
    var closed: seq<int>          // every descriptor passed to close, in order
    ghost var nodes: seq<Tube>    // the linked nodes in order
    ghost var freed: set<Tube>    // the nodes given back with free

    ghost predicate Valid()
      reads this, nodes
    {
      && head == NodeAt(0)
      && (forall i | 0 <= i < |nodes| :: nodes[i].next == NodeAt(i + 1))
      && (forall i, j | 0 <= i < j < |nodes| :: nodes[i] != nodes[j])
      && (forall i | 0 <= i < |nodes| :: nodes[i] !in freed)
    }

    ghost function NodeAt(i: nat): Tube?
      reads this
    {
      if i < |nodes| then nodes[i] else null
    }

    ghost function Contents(): seq<Entry>
      reads this
    {
      Items(nodes)
    }

    constructor ()
      ensures Valid() && Contents() == [] && closed == [] && nodes == [] && freed == {}
    {
      head, closed, nodes, freed := null, [], [], {};
    }

    /** `push_tube` */
    method Push(t: Tube)
      requires Valid() && t !in nodes && t !in freed
      modifies this, t
      ensures Valid() && nodes == [t] + old(nodes) && freed == old(freed) && closed == old(closed)
      ensures Contents() == [t.Item()] + old(Contents())
    {
      t.next := head;
      head := t;
      nodes := [t] + nodes;
      assert nodes[1..] == old(nodes);
    }

    /** The search loops of `handler`: the first tube of a pair. */
    method Find(sender: int, receiver: int) returns (t: Tube?)
      requires Valid()
      ensures t == null ==> forall i | 0 <= i < |nodes| :: !Hit(Pair(sender, receiver), nodes[i].Item())
      ensures t != null ==> exists k | 0 <= k < |nodes| ::
        nodes[k] == t && Hit(Pair(sender, receiver), t.Item()) &&
        forall i | 0 <= i < k :: !Hit(Pair(sender, receiver), nodes[i].Item())
    {
      t := head;
      ghost var k := 0;
      while t != null && (t.sender != sender || t.receiver != receiver)
        invariant 0 <= k <= |nodes| && t == NodeAt(k)
        invariant forall i | 0 <= i < k :: !Hit(Pair(sender, receiver), nodes[i].Item())
        decreases |nodes| - k
      {
        t, k := t.next, k + 1;
      }
    }

    /** The state after the node at position k was unlinked, closed and freed. */
    twostate predicate Disposed(k: nat)
      reads this, nodes
    {
      && k < |old(nodes)|
      && Valid()
      && nodes == old(nodes)[..k] + old(nodes)[k + 1..]
      && Contents() == old(Contents())[..k] + old(Contents())[k + 1..]
      && closed == old(closed) + [old(nodes)[k].readFd, old(nodes)[k].writeFd]
      && freed == old(freed) + {old(nodes)[k]}
    }

    method DisposeHead()
      requires Valid() && head != null
      modifies this
      ensures Disposed(0)
    {
      var t: Tube := head;
      head := t.next;
      closed := closed + [t.readFd, t.writeFd];
      freed := freed + {t};
      nodes := nodes[..0] + nodes[1..];
    }

    lemma {:induction false} Relinked(before: seq<Tube>, k: nat)
      requires 0 < k < |before| && nodes == before[..k] + before[k + 1..] && head == before[0]
      requires forall i, j | 0 <= i < j < |before| :: before[i] != before[j]
      requires forall i: nat | i < |before| && i + 1 != k && i != k :: NextIs(before, i)
      requires before[k - 1].next == (if k + 1 < |before| then before[k + 1] else null)
      requires forall i | 0 <= i < |before| && i != k :: before[i] !in freed
      ensures Valid() && before[k - 1].next == NodeAt(k)
    {
      assert forall i | 0 <= i < |nodes| :: nodes[i] == before[if i < k then i else i + 1];
      forall i | 0 <= i < |nodes|
        ensures nodes[i].next == NodeAt(i + 1)
      {
        var j := if i < k then i else i + 1;
        assert nodes[i] == before[j] && j != k;
        assert j + 1 != k ==> NextIs(before, j);
        if i + 1 < |nodes| { assert nodes[i + 1] == before[if i + 1 < k then i + 1 else i + 2]; }
      }
    }

    /** What `Valid` says, node by node. */
    lemma {:induction false} Facts()
      requires Valid()
      ensures head == NodeAt(0) && forall i: nat | i < |nodes| :: NextIs(nodes, i)
      ensures forall i, j | 0 <= i < j < |nodes| :: nodes[i] != nodes[j]
      ensures forall i | 0 <= i < |nodes| :: nodes[i] !in freed
    {
    }

    method DisposeAfter(prev: Tube, temp: Tube, ghost k: nat)
      requires Valid() && 0 < k < |nodes| && prev == nodes[k - 1] && temp == nodes[k]
      modifies this, prev
      ensures Disposed(k) && prev.next == NodeAt(k)
    {
      hide Items, Valid;
      Facts();
      ghost var before := nodes;
      assert NextIs(before, k) && forall i: nat | i < |before| && i + 1 != k :: before[i] != prev;
      prev.next := temp.next;
      closed := closed + [temp.readFd, temp.writeFd];
      freed := freed + {temp};
      nodes := nodes[..k] + nodes[k + 1..];
      forall i: nat | i < |before| && i + 1 != k && i != k
        ensures NextIs(before, i)
      {
        assert before[i] != prev && old(NextIs(before, i));
      }
      Relinked(before, k);
    }

    /** `temp` is the node at position k and `prev` the one before; no node before k is hit. */
    ghost predicate Scanning(key: Key, prev: Tube?, temp: Tube?, k: nat)
      reads this
    {
      && k <= |nodes| && temp == NodeAt(k)
      && prev == (if k == 0 then null else nodes[k - 1])
      && forall i | 0 <= i < k :: !Hit(key, nodes[i].Item())
    }

    /** The inner loop: go to the next hit. */
    method Skip(key: Key, prev: Tube?, temp: Tube?, ghost k: nat) returns (p: Tube?, t: Tube?, ghost n: nat)
      requires Valid() && Scanning(key, prev, temp, k)
      ensures Scanning(key, p, t, n) && k <= n
      ensures t != null ==> Hit(key, t.Item())
      ensures n > k <==> temp != null && !Hit(key, temp.Item())
    {
      p, t, n := prev, temp, k;
      while t != null && !Hit(key, t.Item())
        invariant Scanning(key, p, t, n) && k <= n
        invariant n > k ==> temp != null && !Hit(key, temp.Item())
        invariant n == k ==> t == temp
        decreases |nodes| - n
      {
        p, t, n := t, t.next, n + 1;
      }
    }

    ghost predicate Leaves(key: Key, es: seq<Entry>, fds: seq<int>)
      reads this
    {
      Without(Contents(), key) == Without(es, key) && closed + HitFds(Contents(), key) == fds + HitFds(es, key)
    }

    ghost predicate Accounts(before: seq<Tube>, gone: set<Tube>)
      reads this
    {
      (forall t | t in nodes :: t in before) && freed == gone + (set t | t in before && t !in nodes)
    }

    /** The special case for the head before the loop. */
    method UnlinkHead(key: Key)
      requires Valid()
      modifies this
      ensures Valid() && Leaves(key, old(Contents()), old(closed)) && Accounts(old(nodes), old(freed))
      ensures StartsWithTwo(old(Contents()), key) <==> head != null && Hit(key, head.Item())
    {
      if head != null && Hit(key, head.Item()) {
        DisposeHead();
        ClosingStep(old(Contents()), Contents(), 0, key, old(closed), closed);
        AccountStep(old(nodes), old(nodes), nodes, 0);
      }
    }

    /** The step after `Skip` found a node to delete behind `prev`. */
    method UnlinkAfter(key: Key, prev: Tube, temp: Tube, ghost k: nat, ghost es: seq<Entry>, ghost fds: seq<int>,
                       ghost before: seq<Tube>, ghost gone: set<Tube>)
      requires Valid() && Scanning(key, prev, temp, k) && Hit(key, temp.Item())
      requires Leaves(key, es, fds) && Accounts(before, gone)
      modifies this, prev
      ensures Valid() && Scanning(key, prev, prev.next, k)
      ensures Leaves(key, es, fds) && Accounts(before, gone)
      ensures |nodes| == |old(nodes)| - 1
    {
      hide Without, HitFds, Items, Valid;
      Facts();
      DisposeAfter(prev, temp, k);
      ClosingStep(old(Contents()), Contents(), k, key, old(closed), closed);
      AccountStep(before, old(nodes), nodes, k);
      assert forall i | 0 <= i < k :: nodes[i] == old(nodes)[i];
    }

    /** The pointer loop shared by `delete_all_id_tube` and `delete_id_tube`. `fault` tells
        that the code would read `prev` before it was assigned; that happens exactly when
        the list begins with two tubes to delete. Otherwise exactly the hit tubes go, both
        ends of each are closed once, each is freed once, and the others keep their order. */
    method Unlink(key: Key) returns (fault: bool)
      requires Valid()
      modifies this, nodes
      ensures fault <==> StartsWithTwo(old(Contents()), key)
      ensures Valid()
      ensures !fault ==> Contents() == Without(old(Contents()), key)
      ensures !fault ==> closed == old(closed) + HitFds(old(Contents()), key)
      ensures forall t | t in nodes :: t in old(nodes)
      ensures freed == old(freed) + (set t | t in old(nodes) && t !in nodes)
    {
      hide Without, HitFds, Items, Valid;
      ghost var es, fds, before, gone, k := Contents(), closed, nodes, freed, 0;
      UnlinkHead(key);
      Facts();
      var temp, prev: Tube? := head, null;
      while temp != null
        invariant Valid() && Scanning(key, prev, temp, k)
        invariant Leaves(key, es, fds) && Accounts(before, gone)
        invariant if k == 0 then (temp != null && Hit(key, temp.Item()) <==> StartsWithTwo(es, key)) else !StartsWithTwo(es, key)
        decreases |nodes| - k
      {
        prev, temp, k := Skip(key, prev, temp, k);
        if temp == null { break; }
        if prev == null { return true; }
        assert prev == nodes[k - 1] && prev in nodes;
        UnlinkAfter(key, prev, temp, k, es, fds, before, gone);
        temp := prev.next;
      }
      NoHits(Contents(), key);
      fault := false;
    }

    /** `delete_all_id_tube` */
    method DeleteAllIdTube(senderId: int) returns (fault: bool)
      requires Valid()
      modifies this, nodes
      ensures Valid() && fault == StartsWithTwo(old(Contents()), From(senderId))
      ensures !fault ==> Contents() == Without(old(Contents()), From(senderId))
      ensures !fault ==> closed == old(closed) + HitFds(old(Contents()), From(senderId))
      ensures freed == old(freed) + (set t | t in old(nodes) && t !in nodes)
      ensures forall t | t in nodes :: t in old(nodes)
    {
      fault := Unlink(From(senderId));
    }

    /** `delete_id_tube`: with unique pairs `prev` is never read before it is assigned, and
        at most the one tube of the pair goes. */
    method DeleteIdTube(senderId: int, receiverId: int) returns (fault: bool)
      requires Valid()
      modifies this, nodes
      ensures Valid() && fault == StartsWithTwo(old(Contents()), Pair(senderId, receiverId))
      ensures Unique(old(Contents())) ==> !fault
      ensures !fault ==> Contents() == Without(old(Contents()), Pair(senderId, receiverId))
      ensures !fault ==> closed == old(closed) + HitFds(old(Contents()), Pair(senderId, receiverId))
      ensures freed == old(freed) + (set t | t in old(nodes) && t !in nodes)
      ensures forall t | t in nodes :: t in old(nodes)
    {
      fault := Unlink(Pair(senderId, receiverId));
    }
  }

  /** No two tubes of the same pair. */
  ghost predicate Unique(es: seq<Entry>) {
    forall i, j | 0 <= i < j < |es| :: es[i].sender != es[j].sender || es[i].receiver != es[j].receiver
  }

  lemma {:induction false} ClosingStep(es: seq<Entry>, fs: seq<Entry>, k: nat, key: Key, before: seq<int>, after: seq<int>)
    requires k < |es| && fs == es[..k] + es[k + 1..]
    requires Hit(key, es[k]) && forall i | 0 <= i < k :: !Hit(key, es[i])
    requires after == before + [es[k].readFd, es[k].writeFd]
    ensures Without(fs, key) == Without(es, key)
    ensures after + HitFds(fs, key) == before + HitFds(es, key)
  {
    TakeOut(es, k, key);
  }

  lemma {:induction false} AccountStep(all: seq<Tube>, nodes: seq<Tube>, rest: seq<Tube>, k: nat)
    requires k < |nodes| && rest == nodes[..k] + nodes[k + 1..]
    requires forall i, j | 0 <= i < j < |nodes| :: nodes[i] != nodes[j]
    requires forall t | t in nodes :: t in all
    ensures forall t | t in rest :: t in nodes
    ensures (set t | t in all && t !in rest) == (set t | t in all && t !in nodes) + {nodes[k]}
  {
    forall t | t in nodes && t != nodes[k]
      ensures t in rest
    {
      var i :| 0 <= i < |nodes| && nodes[i] == t;
      assert rest[if i < k then i else i - 1] == t;
    }
  }
}
