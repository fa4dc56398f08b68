/** The tube list as a map from (sender, receiver) to a pipe, over every run. */
module TubeRuns {
  import opened Tubes

  type Pipes = map<(int, int), (int, int)>

  /** What a search from the front of the list finds for each pair. */
  function AsMap(es: seq<Entry>): Pipes {
    if es == [] then map[]
    else AsMap(es[1..])[(es[0].sender, es[0].receiver) := (es[0].readFd, es[0].writeFd)]
  }

  predicate HasPair(es: seq<Entry>, sender: int, receiver: int) {
    exists i | 0 <= i < |es| :: Hit(Pair(sender, receiver), es[i])
  }

  datatype Step =
    | Send(sender: int, receiver: int, readFd: int, writeFd: int)
    | Receive(sender: int, receiver: int)
    | Leave(sender: int)

  /** An accepted `>n` pushes a new tube, an accepted `<n` deletes the tube of the pair;
      both are refused by the search loops otherwise. A logout deletes by sender. */
  function NextList(es: seq<Entry>, step: Step): seq<Entry> {
    match step
    case Send(s, r, readFd, writeFd) => if HasPair(es, s, r) then es else [Entry(s, r, readFd, writeFd)] + es
    case Receive(s, r) => if HasPair(es, s, r) then Without(es, Pair(s, r)) else es
    case Leave(s) => Without(es, From(s))
  }

  function NextMap(m: Pipes, step: Step): Pipes {
    match step
    case Send(s, r, readFd, writeFd) => if (s, r) in m then m else m[(s, r) := (readFd, writeFd)]
    case Receive(s, r) => m - {(s, r)}
    case Leave(s) => WithoutSender(m, s)
  }

  function WithoutSender(m: Pipes, sender: int): Pipes {
    map key | key in m && key.0 != sender :: m[key]
  }

  function RunList(es: seq<Entry>, steps: seq<Step>): seq<Entry>
    decreases |steps|
  {
    if steps == [] then es else RunList(NextList(es, steps[0]), steps[1..])
  }

  function RunMap(m: Pipes, steps: seq<Step>): Pipes
    decreases |steps|
  {
    if steps == [] then m else RunMap(NextMap(m, steps[0]), steps[1..])
  }

  lemma {:induction false} InMap(es: seq<Entry>, sender: int, receiver: int)
    ensures (sender, receiver) in AsMap(es) <==> HasPair(es, sender, receiver)
  {
    if es != [] {
      InMap(es[1..], sender, receiver);
      if HasPair(es[1..], sender, receiver) {
        var i :| 0 <= i < |es[1..]| && Hit(Pair(sender, receiver), es[1..][i]);
        assert Hit(Pair(sender, receiver), es[i + 1]);
      }
      if HasPair(es, sender, receiver) && !Hit(Pair(sender, receiver), es[0]) {
        var i :| 0 <= i < |es| && Hit(Pair(sender, receiver), es[i]);
        assert Hit(Pair(sender, receiver), es[1..][i - 1]);
      }
    }
  }

  lemma {:induction false} WithoutFrom(es: seq<Entry>, key: Key, e: Entry)
    ensures e in Without(es, key) <==> e in es && !Hit(key, e)
  {
    if es != [] { WithoutFrom(es[1..], key, e); }
  }

  lemma {:induction false} WithoutUnique(es: seq<Entry>, key: Key)
    requires Unique(es)
    ensures Unique(Without(es, key))
  {
    if es != [] {
      WithoutUnique(es[1..], key);
      var rest := Without(es[1..], key);
      forall i | 0 <= i < |rest|
        ensures rest[i].sender != es[0].sender || rest[i].receiver != es[0].receiver
      {
        WithoutFrom(es[1..], key, rest[i]);
        var j :| 0 <= j < |es[1..]| && es[1..][j] == rest[i];
        assert es[j + 1] == rest[i];
      }
    }
  }

  lemma {:induction false} WithoutPairMap(es: seq<Entry>, sender: int, receiver: int)
    requires Unique(es)
    ensures AsMap(Without(es, Pair(sender, receiver))) == AsMap(es) - {(sender, receiver)}
  {
    if es != [] {
      WithoutPairMap(es[1..], sender, receiver);
      var rest := Without(es[1..], Pair(sender, receiver));
      assert ([es[0]] + rest)[1..] == rest;
      var m, k, v, gone := AsMap(es[1..]), (es[0].sender, es[0].receiver), (es[0].readFd, es[0].writeFd), (sender, receiver);
      if k == gone {
        assert Without(es, Pair(sender, receiver)) == rest by { assert [] + rest == rest; }
        assert m[k := v] - {gone} == m - {gone};
      } else {
        assert (m - {gone})[k := v] == m[k := v] - {gone};
      }
    }
  }

  lemma {:induction false} WithoutSenderMap(es: seq<Entry>, sender: int)
    ensures AsMap(Without(es, From(sender))) == WithoutSender(AsMap(es), sender)
  {
    if es != [] {
      WithoutSenderMap(es[1..], sender);
      var rest := Without(es[1..], From(sender));
      assert ([es[0]] + rest)[1..] == rest && [] + rest == rest;
    }
  }

  /** With unique pairs a deletion by pair takes out at most one tube, and the rest is the
      list before it followed by the list behind it. */
  lemma {:induction false} WithoutPairIsOne(es: seq<Entry>, sender: int, receiver: int, k: nat)
    requires Unique(es) && k < |es| && Hit(Pair(sender, receiver), es[k])
    ensures Without(es, Pair(sender, receiver)) == es[..k] + es[k + 1..]
    ensures HitFds(es, Pair(sender, receiver)) == [es[k].readFd, es[k].writeFd]
  {
    var key := Pair(sender, receiver);
    TakeOut(es, k, key);
    NoHits(es[..k] + es[k + 1..], key);
  }

  lemma {:induction false} NextRefines(es: seq<Entry>, step: Step)
    requires Unique(es)
    ensures Unique(NextList(es, step)) && AsMap(NextList(es, step)) == NextMap(AsMap(es), step)
  {
    match step
    case Send(s, r, readFd, writeFd) =>
      InMap(es, s, r);
      if !HasPair(es, s, r) {
        var fs := NextList(es, step);
        assert fs[1..] == es;
        forall j | 0 <= j < |es|
          ensures es[j].sender != s || es[j].receiver != r
        {
          assert !Hit(Pair(s, r), es[j]);
        }
      }
    case Receive(s, r) =>
      InMap(es, s, r);
      WithoutUnique(es, Pair(s, r));
      WithoutPairMap(es, s, r);
    case Leave(s) =>
      WithoutUnique(es, From(s));
      WithoutSenderMap(es, s);
  }

  /** Over every run of sends, receives and logouts the pairs in the list stay unique, and the
      list is the map that the same steps give. */
  lemma {:induction false} RunRefinesMap(es: seq<Entry>, steps: seq<Step>)
    requires Unique(es)
    ensures Unique(RunList(es, steps)) && AsMap(RunList(es, steps)) == RunMap(AsMap(es), steps)
    decreases |steps|
  {
    if steps != [] {
      NextRefines(es, steps[0]);
      RunRefinesMap(NextList(es, steps[0]), steps[1..]);
    }
  }

  lemma {:induction false} RunListAppend(es: seq<Entry>, a: seq<Step>, b: seq<Step>)
    ensures RunList(es, a + b) == RunList(RunList(es, a), b)
    decreases |a|
  {
    if a == [] {
      assert a + b == b;
    } else {
      assert (a + b)[1..] == a[1..] + b;
      RunListAppend(NextList(es, a[0]), a[1..], b);
    }
  }

  lemma {:induction false} ReceiveDeletes(es: seq<Entry>, sender: int, receiver: int)
    ensures NextList(es, Receive(sender, receiver)) == Without(es, Pair(sender, receiver))
  {
    if !HasPair(es, sender, receiver) { NoHits(es, Pair(sender, receiver)); }
  }

  // ---- Logout ----

  lemma {:induction false} KeepsOthers(es: seq<Entry>, a: Key, b: Key, e: Entry)
    requires e in es && Hit(b, e) && !Hit(a, e)
    ensures Without(es, a) != Without(es, b)
  {
    WithoutFrom(es, a, e);
    WithoutFrom(es, b, e);
  }

  lemma {:induction false} SameHits(es: seq<Entry>, a: Key, b: Key)
    requires forall e | e in es :: Hit(a, e) == Hit(b, e)
    ensures Without(es, a) == Without(es, b)
  {
    if es != [] {
      assert es[0] in es && forall e | e in es[1..] :: e in es;
      SameHits(es[1..], a, b);
    }
  }

  /** `free_resource` passes the client's descriptor where `delete_all_id_tube` expects its
      id. The tubes that remain are the ones that should exactly when the two numbers are
      equal or no pending tube was sent by a user with either number as its id. */
  lemma {:induction false} LogoutByFd(es: seq<Entry>, id: int, fd: int)
    ensures Without(es, From(fd)) == Without(es, From(id))
            <==> (id == fd || forall e | e in es :: e.sender != id && e.sender != fd)
  {
    if id != fd {
      if e :| e in es && e.sender == id {
        KeepsOthers(es, From(fd), From(id), e);
      } else if e :| e in es && e.sender == fd {
        KeepsOthers(es, From(id), From(fd), e);
      } else {
        SameHits(es, From(fd), From(id));
      }
    }
  }

  /** After the deletion at a logout nobody's tube goes from or to the id exactly when every
      tube from or to the id was sent under the descriptor's number. Tubes to the id from
      others always stay, so that a new user of the id starts with them. */
  lemma {:induction false} LogoutClean(es: seq<Entry>, id: int, fd: int)
    ensures (forall e | e in Without(es, From(fd)) :: e.sender != id && e.receiver != id)
            <==> forall e | e in es && (e.sender == id || e.receiver == id) :: e.sender == fd
  {
    forall e: Entry { WithoutFrom(es, From(fd), e); }
  }
}
