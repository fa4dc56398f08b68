/** The id-ordered linked list of users of the single-process server
    (NP_Project2/np_single_proc_/src/client.c). `next_client` of a new node, which the
    source leaves unset, is taken as null. */
module UserList {

  datatype User = User(id: int, fd: int)

  // ---- The allocator ----

  /** `get_available_id` from position i on: one more than the first id before a gap, and
      the length plus one when there is none. */
  function FirstGap(users: seq<User>, i: nat): int
    requires i < |users|
    decreases |users| - i
  {
    if i + 1 == |users| then |users| + 1
    else if users[i + 1].id - 1 != users[i].id then users[i].id + 1
    else FirstGap(users, i + 1)
  }

  function AvailableId(users: seq<User>): int
    requires users != []
  {
    if users[0].id != 1 then 1 else FirstGap(users, 0)
  }

  /** Strictly increasing positive ids. */
  ghost predicate Ordered(users: seq<User>) {
    (forall i | 0 <= i < |users| :: users[i].id >= 1) &&
    forall i, j | 0 <= i < j < |users| :: users[i].id < users[j].id
  }

  predicate Has(users: seq<User>, id: int) {
    exists i | 0 <= i < |users| :: users[i].id == id
  }

  /** The list starts at 1 and has no gap up to position i. */
  ghost predicate Consecutive(users: seq<User>, i: nat) {
    forall k | 0 <= k <= i && k < |users| :: users[k].id == k + 1
  }

  /** Where the allocator stops: right after the longest gapless start of the list. */
  lemma {:induction false} FirstGapAt(users: seq<User>, i: nat) returns (m: nat)
    requires Ordered(users) && i < |users| && Consecutive(users, i)
    ensures i <= m < |users| && Consecutive(users, m) && FirstGap(users, i) == m + 2
    ensures m + 1 < |users| ==> users[m + 1].id > m + 2
    decreases |users| - i
  {
    if i + 1 < |users| && users[i + 1].id - 1 == users[i].id {
      m := FirstGapAt(users, i + 1);
    } else {
      m := i;
    }
  }

  /** On every ordered list the allocator returns the least positive id not in use, and it
      is at most the length plus one. */
  lemma {:induction false} LeastFreeId(users: seq<User>)
    requires users != [] && Ordered(users)
    ensures var id := AvailableId(users);
      1 <= id <= |users| + 1 && !Has(users, id) && forall k | 1 <= k < id :: Has(users, k)
  {
    if users[0].id == 1 {
      var m := FirstGapAt(users, 0);
      forall k | 1 <= k < m + 2
        ensures Has(users, k)
      {
        assert users[k - 1].id == k;
      }
      forall i | 0 <= i < |users|
        ensures users[i].id != m + 2
      {
        if i > m { assert users[m + 1].id <= users[i].id; }
      }
    }
  }

  // ---- Insertion ----

  /** The node after which `insert_client` links the new one, as the code is written: it
      compares the id of the node itself. */
  function StopAt(users: seq<User>, id: int, i: nat): (k: nat)
    requires i < |users|
    ensures i <= k < |users|
    decreases |users| - i
  {
    if i + 1 < |users| && users[i].id < id then StopAt(users, id, i + 1) else i
  }

  /** The same loop comparing the id of the next node, which the order needs. */
  function StopBefore(users: seq<User>, id: int, i: nat): (k: nat)
    requires i < |users|
    ensures i <= k < |users|
    ensures k > i ==> users[k].id < id
    ensures k + 1 < |users| ==> users[k + 1].id >= id
    decreases |users| - i
  {
    if i + 1 < |users| && users[i + 1].id < id then StopBefore(users, id, i + 1) else i
  }

  function LinkAfter(users: seq<User>, k: nat, u: User): seq<User>
    requires k < |users|
  {
    users[..k + 1] + [u] + users[k + 1..]
  }

  function Insert(users: seq<User>, fd: int): seq<User> {
    if users == [] then [User(1, fd)]
    else
      var id := AvailableId(users);
      if id == 1 then [User(1, fd)] + users
      else LinkAfter(users, StopAt(users, id, 0), User(id, fd))
  }

  function InsertIntended(users: seq<User>, fd: int): seq<User> {
    if users == [] then [User(1, fd)]
    else
      var id := AvailableId(users);
      if id == 1 then [User(1, fd)] + users
      else LinkAfter(users, StopBefore(users, id, 0), User(id, fd))
  }

  function DeleteFd(users: seq<User>, fd: int): seq<User> {
    if users == [] then [] else if users[0].fd == fd then users[1..] else [users[0]] + DeleteFd(users[1..], fd)
  }

  // ---- The list with nodes ----

  class Client {
    var id: int
    const fd: int
    var next: Client?

    constructor (fd: int)
      ensures this.fd == fd && next == null
    {
      this.fd, id, next := fd, 0, null;
    }
  }

  /** The node at position i is linked to the one behind it. */
  ghost predicate NextIs(nodes: seq<Client>, i: nat)
    requires i < |nodes|
    reads nodes
  {
    nodes[i].next == (if i + 1 < |nodes| then nodes[i + 1] else null)
  }

  class UserList {
    var head: Client?
    ghost var users: seq<User>      // the abstract list
    ghost var nodes: seq<Client>    // the linked nodes in order
    ghost var freed: set<Client>    // the nodes given back with free

    ghost function NodeAt(i: nat): Client?
      reads this
    {
      if i < |nodes| then nodes[i] else null
    }

    ghost predicate Valid()
      reads this, nodes
    {
      && head == NodeAt(0)
      && |users| == |nodes|
      && (forall i | 0 <= i < |nodes| :: nodes[i].next == NodeAt(i + 1) && users[i] == User(nodes[i].id, nodes[i].fd))
      && (forall i, j | 0 <= i < j < |nodes| :: nodes[i] != nodes[j])
      && (forall i | 0 <= i < |nodes| :: nodes[i] !in freed)
    }

    constructor ()
      ensures Valid() && users == [] && nodes == [] && freed == {}
    {
      head, users, nodes, freed := null, [], [], {};
    }

    method GetAvailableId() returns (id: int)
      requires Valid() && nodes != []
      ensures id == AvailableId(users)
    {
      var count := 1;
      if head.id != 1 { return 1; }
      var ptr := head;
      ghost var i := 0;
      while ptr != null
        invariant 0 <= i <= |nodes| && ptr == NodeAt(i) && count == i + 1
        invariant i < |nodes| ==> FirstGap(users, i) == FirstGap(users, 0)
        invariant i == |nodes| ==> FirstGap(users, 0) == count
        decreases |nodes| - i
      {
        if ptr.next != null && ptr.next.id - 1 != ptr.id { return ptr.id + 1; }
        count := count + 1;
        ptr, i := ptr.next, i + 1;
      }
      id := count;
    }

    /** The search loops of `handler` for a user's id. */
    method FindId(id: int) returns (found: bool)
      requires Valid()
      ensures found == Has(users, id)
    {
      var ptr := head;
      ghost var k := 0;
      while ptr != null && ptr.id != id
        invariant 0 <= k <= |nodes| && ptr == NodeAt(k)
        invariant forall i | 0 <= i < k :: users[i].id != id
        decreases |nodes| - k
      {
        ptr, k := ptr.next, k + 1;
      }
      found := ptr != null;
      if found { assert users[k].id == id; }
    }

    /** What `Valid` says, node by node. */
    lemma {:induction false} Facts()
      requires Valid()
      ensures head == NodeAt(0) && |users| == |nodes|
      ensures forall i: nat | i < |nodes| :: NextIs(nodes, i)
      ensures forall i | 0 <= i < |nodes| :: users[i] == User(nodes[i].id, nodes[i].fd)
      ensures forall i, j | 0 <= i < j < |nodes| :: nodes[i] != nodes[j]
      ensures forall i | 0 <= i < |nodes| :: nodes[i] !in freed
    {
    }

    /** The list is valid after `c` was linked behind position k of the nodes `before`. */
    lemma {:induction false} Linked(before: seq<Client>, was: seq<User>, k: nat, c: Client)
      requires k < |before| && |was| == |before| && head == before[0]
      requires nodes == before[..k + 1] + [c] + before[k + 1..]
      requires users == LinkAfter(was, k, User(c.id, c.fd))
      requires forall i, j | 0 <= i < j < |before| :: before[i] != before[j]
      requires c !in before && c !in freed && forall i | 0 <= i < |before| :: before[i] !in freed
      requires forall i | 0 <= i < |before| :: was[i] == User(before[i].id, before[i].fd)
      requires forall i: nat | i < |before| && i != k :: NextIs(before, i)
      requires before[k].next == c && c.next == (if k + 1 < |before| then before[k + 1] else null)
      ensures Valid()
    {
      forall i | 0 <= i < |nodes|
        ensures nodes[i].next == NodeAt(i + 1) && users[i] == User(nodes[i].id, nodes[i].fd)
      {
        if i != k + 1 {
          var j := if i <= k then i else i - 1;
          assert nodes[i] == before[j] && users[i] == was[j];
          assert j != k ==> NextIs(before, j);
          if j != k && i + 1 < |nodes| { assert nodes[i + 1] == before[j + 1]; }
        }
      }
    }

    method LinkNode(ptr: Client, c: Client, ghost k: nat)
      requires Valid() && k < |nodes| && ptr == nodes[k] && c !in nodes && c !in freed
      modifies this`nodes, this`users, ptr`next, c`next
      ensures Valid() && nodes == old(nodes)[..k + 1] + [c] + old(nodes)[k + 1..]
      ensures users == LinkAfter(old(users), k, User(c.id, c.fd))
    {
      hide Valid;
      Facts();
      ghost var before, was := nodes, users;
      assert NextIs(before, k);
      c.next := ptr.next;
      ptr.next := c;
      nodes := nodes[..k + 1] + [c] + nodes[k + 1..];
      users := LinkAfter(users, k, User(c.id, c.fd));
      forall i: nat | i < |before| && i != k
        ensures NextIs(before, i)
      {
        assert before[i] != ptr && before[i] != c && old(NextIs(before, i));
      }
      Linked(before, was, k, c);
    }

    method LinkHead(c: Client)
      requires Valid() && c !in nodes && c !in freed
      modifies this`head, this`nodes, this`users, c`next
      ensures Valid() && nodes == [c] + old(nodes) && users == [User(c.id, c.fd)] + old(users)
    {
      c.next := head;
      head := c;
      nodes := [c] + nodes;
      users := [User(c.id, c.fd)] + users;
    }

    /** `insert_client`, as written. */
    method InsertClient(c: Client)
      requires Valid() && c !in nodes && c !in freed && c.next == null
      modifies this, nodes, c
      ensures Valid() && freed == old(freed)
      ensures users == Insert(old(users), c.fd)
      ensures exists k | 0 <= k <= |old(nodes)| :: nodes == old(nodes)[..k] + [c] + old(nodes)[k..]
    {
      if head == null {
        c.id := 1;
        LinkHead(c);
        assert nodes == old(nodes)[..0] + [c] + old(nodes)[0..];
        return;
      }
      c.id := GetAvailableId();
      if c.id == 1 {
        LinkHead(c);
        assert nodes == old(nodes)[..0] + [c] + old(nodes)[0..];
        return;
      }
      var ptr := head;
      ghost var k := 0;
      while ptr.next != null && ptr.id < c.id
        invariant 0 <= k < |nodes| && ptr == nodes[k]
        invariant StopAt(users, c.id, k) == StopAt(users, c.id, 0)
        decreases |nodes| - k
      {
        ptr, k := ptr.next, k + 1;
      }
      LinkNode(ptr, c, k);
    }

    lemma {:induction false} Unlinked(before: seq<Client>, was: seq<User>, k: nat)
      requires k < |before| && |was| == |before|
      requires nodes == before[..k] + before[k + 1..] && users == was[..k] + was[k + 1..]
      requires forall i, j | 0 <= i < j < |before| :: before[i] != before[j]
      requires forall i | 0 <= i < |before| && i != k :: before[i] !in freed
      requires forall i | 0 <= i < |before| :: was[i] == User(before[i].id, before[i].fd)
      requires forall i: nat | i < |before| && i + 1 != k && i != k :: NextIs(before, i)
      requires k > 0 ==> before[k - 1].next == (if k + 1 < |before| then before[k + 1] else null)
      requires head == (if k > 0 then before[0] else if |before| > 1 then before[1] else null)
      ensures Valid()
    {
      forall i | 0 <= i < |nodes|
        ensures nodes[i].next == NodeAt(i + 1) && users[i] == User(nodes[i].id, nodes[i].fd)
      {
        var j := if i < k then i else i + 1;
        assert nodes[i] == before[j] && users[i] == was[j] && j != k;
        assert j + 1 != k ==> NextIs(before, j);
        if i + 1 < |nodes| { assert nodes[i + 1] == before[if i + 1 < k then i + 1 else i + 2]; }
      }
    }

    /** Unlink and free the node at position k. */
    method UnlinkClient(pre: Client?, ptr: Client, ghost k: nat)
      requires Valid() && k < |nodes| && ptr == nodes[k]
      requires if k == 0 then pre == null else pre == nodes[k - 1]
      modifies this, pre
      ensures Valid() && users == old(users)[..k] + old(users)[k + 1..]
      ensures nodes == old(nodes)[..k] + old(nodes)[k + 1..] && freed == old(freed) + {ptr}
    {
      hide Valid;
      Facts();
      ghost var before, was := nodes, users;
      assert NextIs(before, k) && forall i: nat | i < |before| && i + 1 != k :: before[i] != pre;
      var next := ptr.next;
      if pre == null {
        head := next;
      } else {
        pre.next := next;
      }
      freed := freed + {ptr};
      nodes, users := nodes[..k] + nodes[k + 1..], users[..k] + users[k + 1..];
      forall i: nat | i < |before| && i + 1 != k && i != k
        ensures NextIs(before, i)
      {
        assert before[i] != pre && old(NextIs(before, i));
      }
      Unlinked(before, was, k);
    }

    /** `delete_client`: the first user of the descriptor goes, and only its node is freed. */
    method DeleteClient(fd: int)
      requires Valid()
      modifies this, nodes
      ensures Valid() && users == DeleteFd(old(users), fd)
      ensures if forall i | 0 <= i < |old(users)| :: old(users)[i].fd != fd
              then nodes == old(nodes) && freed == old(freed)
              else exists k | 0 <= k < |old(nodes)| ::
                old(nodes)[k].fd == fd && nodes == old(nodes)[..k] + old(nodes)[k + 1..] && freed == old(freed) + {old(nodes)[k]}
    {
      var pre: Client?, ptr := null, head;
      ghost var k := 0;
      while ptr != null
        invariant 0 <= k <= |nodes| && ptr == NodeAt(k)
        invariant if k == 0 then pre == null else pre == nodes[k - 1]
        invariant forall i | 0 <= i < k :: users[i].fd != fd
        decreases |nodes| - k
      {
        if ptr.fd == fd {
          DeleteAt(users, fd, k);
          assert users[k].fd == fd;
          UnlinkClient(pre, ptr, k);
          return;
        }
        pre := ptr;
        ptr, k := ptr.next, k + 1;
      }
      DeleteNone(users, fd);
    }
  }

  lemma {:induction false} DeleteAt(users: seq<User>, fd: int, k: nat)
    requires k < |users| && users[k].fd == fd && forall i | 0 <= i < k :: users[i].fd != fd
    ensures DeleteFd(users, fd) == users[..k] + users[k + 1..]
  {
    if k > 0 {
      assert forall i | 0 <= i < k - 1 :: users[1..][i] == users[i + 1];
      DeleteAt(users[1..], fd, k - 1);
      assert users[1..][..k - 1] == users[1..k] && users[1..][k..] == users[k + 1..];
      assert [users[0]] + users[1..k] == users[..k];
    }
  }

  lemma {:induction false} DeleteNone(users: seq<User>, fd: int)
    requires forall i | 0 <= i < |users| :: users[i].fd != fd
    ensures DeleteFd(users, fd) == users
  {
    if users != [] {
      assert forall i | 0 <= i < |users[1..]| :: users[1..][i] == users[i + 1];
      DeleteNone(users[1..], fd);
    }
  }
}
