/** When the user list stays ordered: always with the comparison that the order needs, and
    with the code as written exactly when no user joins while user 1 is connected and an id
    between 1 and the last one is missing. */
module UserOrder {
  import opened UserList

  /** The list is empty, does not start at 1, or is 1, 2, ..., n. In a list that does not
      start at 1, such as 2, 5, ids may be missing: the joining user gets the id 1. */
  ghost predicate NoGapAfterOne(users: seq<User>) {
    users == [] || users[0].id != 1 || Consecutive(users, |users| - 1)
  }

  lemma {:induction false} StopAtAll(users: seq<User>, id: int, i: nat, m: nat)
    requires i <= m < |users| && Ordered(users)
    requires forall k | i <= k < m :: users[k].id < id
    requires m + 1 == |users| || users[m].id >= id
    ensures StopAt(users, id, i) == m
    decreases m - i
  {
    if i < m { StopAtAll(users, id, i + 1, m); }
  }

  /** Insertion as written adds exactly the user with the allocated id and the descriptor. */
  lemma {:induction false} InsertAddsOne(users: seq<User>, fd: int)
    ensures exists k | 0 <= k <= |users| ::
      Insert(users, fd) == users[..k] + [User(if users == [] then 1 else AvailableId(users), fd)] + users[k..]
  {
    if users == [] || AvailableId(users) == 1 {
      assert Insert(users, fd) == users[..0] + [User(1, fd)] + users[0..];
    } else {
      var k := StopAt(users, AvailableId(users), 0) + 1;
      assert Insert(users, fd) == users[..k] + [User(AvailableId(users), fd)] + users[k..];
    }
  }

  lemma {:induction false} GapPosition(users: seq<User>) returns (m: nat)
    requires users != [] && Ordered(users) && users[0].id == 1
    ensures m < |users| && Consecutive(users, m) && AvailableId(users) == m + 2
    ensures m + 1 < |users| ==> users[m + 1].id > m + 2
    ensures NoGapAfterOne(users) <==> m + 1 == |users|
  {
    m := FirstGapAt(users, 0);
    assert m + 1 < |users| ==> !Consecutive(users, |users| - 1) by {
      if m + 1 < |users| { assert users[m + 1].id != m + 2; }
    }
  }

  /** Where the code as written puts the new user when user 1 is there and a later id is
      missing: one node too far. */
  lemma {:induction false} InsertAtGap(users: seq<User>, fd: int, m: nat)
    requires users != [] && Ordered(users) && users[0].id == 1 && m < |users| && Consecutive(users, m)
    requires AvailableId(users) == m + 2 && (m + 1 < |users| ==> users[m + 1].id > m + 2)
    ensures m + 1 < |users| ==> Insert(users, fd) == LinkAfter(users, m + 1, User(m + 2, fd))
    ensures m + 1 == |users| ==> Insert(users, fd) == users + [User(m + 2, fd)]
  {
    var stop := if m + 1 < |users| then m + 1 else m;
    forall k | 0 <= k < stop
      ensures users[k].id < m + 2
    {
      assert users[k].id == k + 1;
    }
    StopAtAll(users, m + 2, 0, stop);
    if m + 1 == |users| { assert users[..m + 1] == users && users[m + 1..] == []; }
  }

  lemma {:induction false} AfterGap(users: seq<User>, us: seq<User>, m: nat, u: User)
    requires Ordered(users) && m < |users| && Consecutive(users, m) && u.id == m + 2
    requires m + 1 < |users| ==> users[m + 1].id > m + 2 && us == LinkAfter(users, m + 1, u)
    requires m + 1 == |users| ==> us == users + [u]
    ensures Ordered(us) <==> m + 1 == |users|
  {
    if m + 1 < |users| {
      assert us[m + 1] == users[m + 1] && us[m + 2] == u;
    } else {
      assert forall k | 0 <= k < |users| :: us[k] == users[k] && us[k].id == k + 1;
    }
  }

  /** `insert_client` as written keeps an ordered list ordered exactly when the list is empty,
      does not start at 1, or has no gap. */
  lemma {:induction false} InsertOrderedIff(users: seq<User>, fd: int)
    requires Ordered(users)
    ensures Ordered(Insert(users, fd)) <==> NoGapAfterOne(users)
  {
    hide Insert, LinkAfter, Consecutive;
    if users != [] && users[0].id == 1 {
      var m := GapPosition(users);
      InsertAtGap(users, fd, m);
      AfterGap(users, Insert(users, fd), m, User(m + 2, fd));
    } else {
      InsertInFront(users, fd);
    }
  }

  lemma {:induction false} InsertInFront(users: seq<User>, fd: int)
    requires Ordered(users) && (users != [] ==> users[0].id != 1)
    ensures Ordered(Insert(users, fd)) && NoGapAfterOne(users)
  {
    var us := Insert(users, fd);
    assert us == [User(1, fd)] + users;
    assert forall k | 1 <= k < |us| :: us[k] == users[k - 1];
    assert users != [] ==> users[0].id > 1;
  }

  /** After a wrong insertion the allocator hands out the same id again. */
  lemma {:induction false} RepeatedId(users: seq<User>, fd: int, fd': int)
    requires Ordered(users) && !NoGapAfterOne(users)
    ensures var us := Insert(users, fd);
      AvailableId(us) == AvailableId(users) && Has(us, AvailableId(us))
  {
    var m := GapPosition(users);
    InsertAtGap(users, fd, m);
    var us := Insert(users, fd);
    assert us[m + 2] == User(m + 2, fd);
    assert forall k | 0 <= k <= m + 1 :: us[k] == users[k];
    SameGap(us, m, 0);
  }

  lemma {:induction false} SameGap(us: seq<User>, m: nat, i: nat)
    requires i <= m && m + 1 < |us| && us[m + 1].id > m + 2
    requires forall k | 0 <= k <= m :: us[k].id == k + 1
    ensures FirstGap(us, i) == m + 2
    decreases m - i
  {
    if i < m { SameGap(us, m, i + 1); }
  }

  /** The example [1, 2, 4]: id 3 is linked last, and the next user gets id 3 as well. */
  lemma {:induction false} GapExample()
    ensures var us := Insert([User(1, 5), User(2, 6), User(4, 8)], 9);
      us == [User(1, 5), User(2, 6), User(4, 8), User(3, 9)] && AvailableId(us) == 3
  {
    var users := [User(1, 5), User(2, 6), User(4, 8)];
    assert FirstGap(users, 1) == 3;
    assert StopAt(users, 3, 1) == 2;
    var us := Insert(users, 9);
    assert FirstGap(us, 1) == 3;
  }

  lemma {:induction false} LinkOrdered(users: seq<User>, k: nat, u: User)
    requires Ordered(users) && k < |users| && users[k].id < u.id
    requires k + 1 < |users| ==> u.id < users[k + 1].id
    ensures Ordered(LinkAfter(users, k, u))
  {
    var us := LinkAfter(users, k, u);
    assert forall i | 0 <= i < |us| :: us[i] == (if i <= k then users[i] else if i == k + 1 then u else users[i - 1]);
    assert forall i | 0 <= i < k :: users[i].id < users[k].id;
    assert forall i | k + 1 < i < |users| :: users[k + 1].id < users[i].id;
  }

  /** With the comparison on the next node the list stays ordered and gains exactly the
      user with the least free id. */
  lemma {:induction false} InsertIntendedOrdered(users: seq<User>, fd: int)
    requires Ordered(users)
    ensures Ordered(InsertIntended(users, fd))
    ensures exists k | 0 <= k <= |users| ::
      InsertIntended(users, fd) == users[..k] + [User(if users == [] then 1 else AvailableId(users), fd)] + users[k..]
  {
    var us := InsertIntended(users, fd);
    if users == [] {
      assert us == users[..0] + [User(1, fd)] + users[0..];
    } else {
      LeastFreeId(users);
      var id := AvailableId(users);
      if id == 1 {
        assert us == users[..0] + [User(1, fd)] + users[0..];
        assert forall k | 1 <= k < |us| :: us[k] == users[k - 1];
      } else {
        var k := StopBefore(users, id, 0);
        assert users[k].id == 1 || users[k].id < id;
        LinkOrdered(users, k, User(id, fd));
        assert us == users[..k + 1] + [User(id, fd)] + users[k + 1..];
      }
    }
  }

  lemma {:induction false} DeleteOrdered(users: seq<User>, fd: int)
    requires Ordered(users)
    ensures Ordered(DeleteFd(users, fd))
    ensures DeleteFd(users, fd) == users ||
      exists k | 0 <= k < |users| :: users[k].fd == fd && DeleteFd(users, fd) == users[..k] + users[k + 1..]
  {
    if i: nat :| i < |users| && users[i].fd == fd && forall j | 0 <= j < i :: users[j].fd != fd {
      DeleteAt(users, fd, i);
    } else {
      NoneHas(users, fd, |users|);
      DeleteNone(users, fd);
    }
  }

  lemma {:induction false} NoneHas(users: seq<User>, fd: int, n: nat)
    requires n <= |users|
    requires !exists i: nat | i < |users| :: users[i].fd == fd && forall j | 0 <= j < i :: users[j].fd != fd
    ensures forall i | 0 <= i < n :: users[i].fd != fd
  {
    if n > 0 { NoneHas(users, fd, n - 1); }
  }

  // ---- Runs of connects and disconnects ----

  datatype Step = Connect(fd: int) | Disconnect(fd: int)

  function Next(users: seq<User>, step: Step): seq<User> {
    match step
    case Connect(fd) => Insert(users, fd)
    case Disconnect(fd) => DeleteFd(users, fd)
  }

  function NextIntended(users: seq<User>, step: Step): seq<User> {
    match step
    case Connect(fd) => InsertIntended(users, fd)
    case Disconnect(fd) => DeleteFd(users, fd)
  }

  function Run(users: seq<User>, steps: seq<Step>): seq<User> {
    if steps == [] then users else Next(Run(users, steps[..|steps| - 1]), steps[|steps| - 1])
  }

  function RunIntended(users: seq<User>, steps: seq<Step>): seq<User> {
    if steps == [] then users else NextIntended(RunIntended(users, steps[..|steps| - 1]), steps[|steps| - 1])
  }

  /** Over every run, with the intended comparison the list is strictly increasing, so
      without repeated ids, and every id handed out is the least free one. */
  lemma {:induction false} IntendedRunOrdered(steps: seq<Step>)
    ensures Ordered(RunIntended([], steps))
    decreases |steps|
  {
    if steps != [] {
      IntendedRunOrdered(steps[..|steps| - 1]);
      var users := RunIntended([], steps[..|steps| - 1]);
      match steps[|steps| - 1]
      case Connect(fd) => InsertIntendedOrdered(users, fd);
      case Disconnect(fd) => DeleteOrdered(users, fd);
    }
  }

  /** The list was ordered at every point of the run. */
  ghost predicate AlwaysOrdered(steps: seq<Step>) {
    steps == [] || (AlwaysOrdered(steps[..|steps| - 1]) && Ordered(Run([], steps)))
  }

  /** Nobody joined while user 1 was there and an id between 1 and the last was missing. */
  ghost predicate JoinsWithoutGap(steps: seq<Step>) {
    steps == [] ||
    (JoinsWithoutGap(steps[..|steps| - 1]) &&
     (steps[|steps| - 1].Connect? ==> NoGapAfterOne(Run([], steps[..|steps| - 1]))))
  }

  /** Over every run of the code as written: the list is ordered at every point exactly
      when no user ever joins while user 1 is there and an id between 1 and the last one is
      missing. */
  lemma {:induction false} RunOrderedIff(steps: seq<Step>)
    ensures AlwaysOrdered(steps) <==> JoinsWithoutGap(steps)
    ensures AlwaysOrdered(steps) ==> Ordered(Run([], steps))
    decreases |steps|
  {
    if steps != [] {
      var front := steps[..|steps| - 1];
      RunOrderedIff(front);
      if AlwaysOrdered(front) {
        match steps[|steps| - 1]
        case Connect(fd) => InsertOrderedIff(Run([], front), fd);
        case Disconnect(fd) => DeleteOrdered(Run([], front), fd);
      }
    }
  }
}
