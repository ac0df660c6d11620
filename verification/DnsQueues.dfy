/** The resolver's request queues and server load counters
    (android/core/src/main/jni/libevent/evdns.c:469-483, 545-553, 649-706, 743-770, 2683-2734, 2824-2877). */
module DnsQueues {
  import opened Basics
  import opened BucketQueues
  import opened DnsServers

  /** The id that marks a request which has none. */
  const NO_ID: nat := 0xffff

  /** Each request's transaction id, the server of each that has one, the in-flight lists and the
      waiting list, and the counters: in flight, waiting, and in flight with each server. */
  datatype Queues = Queues(trans: map<Id, int>, nsOf: map<Id, Sid>, heads: seq<seq<Id>>, waiting: seq<Id>,
                           inflight: int, nWaiting: int, load: map<Sid, int>)

  /** REQ_HEAD: the list a request belongs in while it is in flight. */
  function Slots(trans: map<Id, int>, n: nat): map<Id, int>
    requires n > 0
  {
    map x | x in trans :: trans[x] % n
  }

  /** The requests in flight with server `s`. */
  function Assigned(nsOf: map<Id, Sid>, s: Sid): set<Id> {
    set x | x in nsOf && nsOf[x] == s
  }

  /** A request is in flight exactly when it has a server, and then it is in the list its id hashes to,
      once; every other is in the waiting list, once. */
  ghost predicate ListsOk(q: Queues) {
    && |q.heads| > 0 && q.nsOf.Keys <= q.trans.Keys
    && Bucketed(q.heads, Slots(q.trans, |q.heads|), q.nsOf.Keys)
    && Lists(q.waiting, q.trans.Keys - q.nsOf.Keys)
  }

  /** Ids in flight are real and distinct. */
  ghost predicate IdsOk(q: Queues) {
    && (forall x :: x in q.nsOf ==> x in q.trans && 0 <= q.trans[x] < NO_ID)
    && (forall x, y :: x in q.nsOf && y in q.nsOf && x in q.trans && y in q.trans && q.trans[x] == q.trans[y] ==> x == y)
  }

  /** The counters are what they count. */
  ghost predicate CountsOk(q: Queues) {
    && q.inflight == |q.nsOf.Keys| && q.nWaiting == |q.waiting|
    && (forall x :: x in q.nsOf ==> q.nsOf[x] in q.load)
    && Loads(q.nsOf, q.load)
  }

  ghost predicate Loads(nsOf: map<Id, Sid>, load: map<Sid, int>) {
    forall s :: s in load ==> load[s] == |Assigned(nsOf, s)|
  }

  ghost predicate QueuesOk(q: Queues) {
    ListsOk(q) && IdsOk(q) && CountsOk(q)
  }

  /** No request in flight has the id. */
  predicate FreeId(q: Queues, id: int) {
    0 <= id < NO_ID && forall x :: x in q.nsOf && x in q.trans ==> q.trans[x] != id
  }

  // ----- a new request ------------------------------------------------------------------------------

  /** request_submit for a request with a server. */
  function Flying(q: Queues, x: Id, id: nat, s: Sid): Queues
    requires |q.heads| > 0 && s in q.load
  {
    var h := id % |q.heads|;
    Queues(q.trans[x := id], q.nsOf[x := s], q.heads[h := q.heads[h] + [x]], q.waiting,
           q.inflight + 1, q.nWaiting, q.load[s := q.load[s] + 1])
  }

  lemma FlyingLists(q: Queues, x: Id, id: nat, s: Sid)
    requires ListsOk(q) && x !in q.trans && s in q.load
    ensures ListsOk(Flying(q, x, id, s))
  {
    var r, n := Flying(q, x, id, s), |q.heads|;
    hide Bucketed, Lists;
    BucketRetarget(q.heads, Slots(q.trans, n), q.nsOf.Keys, x, id % n);
    assert Slots(r.trans, n) == Slots(q.trans, n)[x := id % n];
    BucketAppend(q.heads, Slots(r.trans, n), q.nsOf.Keys, x);
    assert r.nsOf.Keys == q.nsOf.Keys + {x};
    assert r.trans.Keys - r.nsOf.Keys == q.trans.Keys - q.nsOf.Keys;
  }

  lemma AssignedAdd(nsOf: map<Id, Sid>, x: Id, s: Sid)
    requires x !in nsOf
    ensures Assigned(nsOf[x := s], s) == Assigned(nsOf, s) + {x}
    ensures forall t :: t != s ==> Assigned(nsOf[x := s], t) == Assigned(nsOf, t)
  {
  }

  lemma LoadAdd(nsOf: map<Id, Sid>, load: map<Sid, int>, x: Id, s: Sid)
    requires x !in nsOf && s in load && Loads(nsOf, load)
    ensures Loads(nsOf[x := s], load[s := load[s] + 1])
  {
    hide Assigned;
    AssignedAdd(nsOf, x, s);
    assert x !in Assigned(nsOf, s) by { NotAssigned(nsOf, x, s); }
  }

  lemma FlyingCounts(q: Queues, x: Id, id: nat, s: Sid)
    requires CountsOk(q) && x !in q.nsOf && |q.heads| > 0 && s in q.load
    ensures CountsOk(Flying(q, x, id, s))
  {
    hide Assigned, Loads;
    LoadAdd(q.nsOf, q.load, x, s);
    assert q.nsOf[x := s].Keys == q.nsOf.Keys + {x};
  }

  lemma NotAssigned(nsOf: map<Id, Sid>, x: Id, s: Sid)
    ensures x in Assigned(nsOf, s) <==> x in nsOf && nsOf[x] == s
  {
  }

  lemma FlyingOk(q: Queues, x: Id, id: nat, s: Sid)
    requires QueuesOk(q) && x !in q.trans && FreeId(q, id) && s in q.load
    ensures QueuesOk(Flying(q, x, id, s))
  {
    hide ListsOk, CountsOk, IdsOk;
    ListsNonempty(q);
    FlyingIds(q, x, id, s);
    FlyingLists(q, x, id, s);
    FlyingCounts(q, x, id, s);
  }

  lemma ListsNonempty(q: Queues)
    requires ListsOk(q)
    ensures |q.heads| > 0 && q.nsOf.Keys <= q.trans.Keys
  {
  }

  lemma FlyingIds(q: Queues, x: Id, id: nat, s: Sid)
    requires IdsOk(q) && FreeId(q, id) && |q.heads| > 0 && s in q.load && x !in q.trans
    ensures IdsOk(Flying(q, x, id, s))
  {
    var r := Flying(q, x, id, s);
    assert forall y :: y in r.nsOf && y != x ==> y in q.nsOf && y in q.trans && r.trans[y] == q.trans[y];
  }

  /** request_submit for a request without a server. */
  function Waiting(q: Queues, x: Id, id: nat): Queues {
    q.(trans := q.trans[x := id], waiting := q.waiting + [x], nWaiting := q.nWaiting + 1)
  }

  lemma WaitingLists(q: Queues, x: Id, id: nat)
    requires ListsOk(q) && x !in q.trans
    ensures ListsOk(Waiting(q, x, id))
  {
    hide Bucketed, Lists;
    var r, n := Waiting(q, x, id), |q.heads|;
    BucketRetarget(q.heads, Slots(q.trans, n), q.nsOf.Keys, x, id % n);
    assert Slots(r.trans, n) == Slots(q.trans, n)[x := id % n];
    AppendLists(q.waiting, q.trans.Keys - q.nsOf.Keys, x);
    assert r.trans.Keys - r.nsOf.Keys == (q.trans.Keys - q.nsOf.Keys) + {x};
  }

  lemma WaitingOk(q: Queues, x: Id, id: nat)
    requires QueuesOk(q) && x !in q.trans
    ensures QueuesOk(Waiting(q, x, id))
  {
    hide ListsOk, Assigned;
    WaitingLists(q, x, id);
  }

  // ----- a request goes -----------------------------------------------------------------------------

  /** evdns_request_remove from an in-flight list, with the counters. */
  function Landed(q: Queues, x: Id): Queues
    requires |q.heads| > 0 && x in q.trans && x in q.nsOf && q.nsOf[x] in q.load
    requires x in q.heads[q.trans[x] % |q.heads|]
  {
    var h := q.trans[x] % |q.heads|;
    Queues(q.trans - {x}, q.nsOf - {x}, q.heads[h := Without(q.heads[h], x)], q.waiting,
           q.inflight - 1, q.nWaiting, q.load[q.nsOf[x] := q.load[q.nsOf[x]] - 1])
  }

  lemma Placed(q: Queues, x: Id)
    requires QueuesOk(q)
    ensures |q.heads| > 0 && q.nsOf.Keys <= q.trans.Keys
    ensures x in q.nsOf ==> x in q.trans && q.nsOf[x] in q.load && x in q.heads[q.trans[x] % |q.heads|] && x !in q.waiting
    ensures x in q.trans && x !in q.nsOf ==> x in q.waiting
    ensures x in q.waiting ==> x in q.trans && x !in q.nsOf
    ensures q.inflight == |q.nsOf| && q.nWaiting == |q.waiting|
  {
    assert x in q.nsOf ==> Slots(q.trans, |q.heads|)[x] == q.trans[x] % |q.heads|;
    assert |q.nsOf| == |q.nsOf.Keys|;
  }

  lemma BucketShrink(qs: seq<seq<Id>>, of: map<Id, int>, s: set<Id>, x: Id)
    requires Bucketed(qs, of, s) && x !in s
    ensures Bucketed(qs, of - {x}, s)
  {
  }

  lemma LandedLists(q: Queues, x: Id)
    requires ListsOk(q) && x in q.nsOf && q.nsOf[x] in q.load && x in q.heads[q.trans[x] % |q.heads|]
    ensures ListsOk(Landed(q, x))
  {
    hide Bucketed, Lists, Without;
    var r, n := Landed(q, x), |q.heads|;
    var of := Slots(q.trans, n);
    BucketRemove(q.heads, of, q.nsOf.Keys, x);
    BucketShrink(r.heads, of, q.nsOf.Keys - {x}, x);
    assert Slots(r.trans, n) == of - {x};
    assert r.nsOf.Keys == q.nsOf.Keys - {x};
    assert r.trans.Keys - r.nsOf.Keys == q.trans.Keys - q.nsOf.Keys;
  }

  lemma AssignedDrop(nsOf: map<Id, Sid>, x: Id)
    requires x in nsOf
    ensures Assigned(nsOf - {x}, nsOf[x]) == Assigned(nsOf, nsOf[x]) - {x}
    ensures forall t :: t != nsOf[x] ==> Assigned(nsOf - {x}, t) == Assigned(nsOf, t)
  {
  }

  lemma LandedCounts(q: Queues, x: Id)
    requires CountsOk(q) && |q.heads| > 0 && x in q.nsOf && x in q.trans && x in q.heads[q.trans[x] % |q.heads|]
    ensures q.nsOf[x] in q.load && CountsOk(Landed(q, x)) && q.load[q.nsOf[x]] > 0
  {
    hide Assigned, Without;
    var r := Landed(q, x);
    AssignedDrop(q.nsOf, x);
    NotAssigned(q.nsOf, x, q.nsOf[x]);
    assert r.nsOf.Keys == q.nsOf.Keys - {x};
  }

  /** Request `x` leaves the in-flight lists; the server it leaves had it counted. */
  lemma LandedOk(q: Queues, x: Id)
    requires QueuesOk(q) && x in q.nsOf && x in q.trans && q.nsOf[x] in q.load && x in q.heads[q.trans[x] % |q.heads|]
    ensures QueuesOk(Landed(q, x)) && q.load[q.nsOf[x]] > 0 && q.inflight > 0
  {
    LandedLists(q, x);
    LandedCounts(q, x);
    assert x in q.nsOf.Keys;
    hide ListsOk, Without;
  }

  /** evdns_request_remove from the waiting list, with its counter. */
  function Unqueued(q: Queues, x: Id): Queues
    requires x in q.waiting
  {
    q.(trans := q.trans - {x}, waiting := Without(q.waiting, x), nWaiting := q.nWaiting - 1)
  }

  lemma UnqueuedLists(q: Queues, x: Id)
    requires ListsOk(q) && x in q.waiting
    ensures ListsOk(Unqueued(q, x)) && x in q.trans && x !in q.nsOf && |Without(q.waiting, x)| == |q.waiting| - 1
  {
    hide Bucketed, Without;
    var r, n := Unqueued(q, x), |q.heads|;
    BucketShrink(q.heads, Slots(q.trans, n), q.nsOf.Keys, x);
    assert Slots(r.trans, n) == Slots(q.trans, n) - {x};
    WithoutLists(q.waiting, q.trans.Keys - q.nsOf.Keys, x);
    assert r.trans.Keys - r.nsOf.Keys == (q.trans.Keys - q.nsOf.Keys) - {x};
  }

  lemma UnqueuedOk(q: Queues, x: Id)
    requires QueuesOk(q) && x in q.waiting
    ensures QueuesOk(Unqueued(q, x)) && x in q.trans && x !in q.nsOf && q.nWaiting > 0
  {
    hide ListsOk, Assigned, Without;
    UnqueuedLists(q, x);
  }

  // ----- a request changes servers ------------------------------------------------------------------

  /** request_swap_ns. */
  function Swapped(q: Queues, x: Id, s: Sid): Queues
    requires x in q.nsOf && q.nsOf[x] in q.load && s in q.load
  {
    if q.nsOf[x] == s then q
    else q.(nsOf := q.nsOf[x := s], load := q.load[q.nsOf[x] := q.load[q.nsOf[x]] - 1][s := q.load[s] + 1])
  }

  lemma AssignedSwap(nsOf: map<Id, Sid>, x: Id, s: Sid)
    requires x in nsOf && nsOf[x] != s
    ensures Assigned(nsOf[x := s], s) == Assigned(nsOf, s) + {x} && x !in Assigned(nsOf, s)
    ensures Assigned(nsOf[x := s], nsOf[x]) == Assigned(nsOf, nsOf[x]) - {x} && x in Assigned(nsOf, nsOf[x])
    ensures forall t :: t != s && t != nsOf[x] ==> Assigned(nsOf[x := s], t) == Assigned(nsOf, t)
  {
  }

  lemma SwappedOk(q: Queues, x: Id, s: Sid)
    requires QueuesOk(q) && x in q.nsOf && q.nsOf[x] in q.load && s in q.load
    ensures QueuesOk(Swapped(q, x, s)) && Swapped(q, x, s).nsOf.Keys == q.nsOf.Keys
    ensures q.load[q.nsOf[x]] > 0
  {
    hide Bucketed, Lists, Assigned, Loads;
    LoadPositive(q.nsOf, q.load, x);
    if q.nsOf[x] != s {
      LoadSwap(q.nsOf, q.load, x, s);
      assert Swapped(q, x, s).nsOf.Keys == q.nsOf.Keys;
    }
  }

  lemma LoadPositive(nsOf: map<Id, Sid>, load: map<Sid, int>, x: Id)
    requires Loads(nsOf, load) && x in nsOf && nsOf[x] in load
    ensures load[nsOf[x]] > 0
  {
    assert x in Assigned(nsOf, nsOf[x]);
  }

  lemma LoadSwap(nsOf: map<Id, Sid>, load: map<Sid, int>, x: Id, s: Sid)
    requires Loads(nsOf, load) && x in nsOf && nsOf[x] in load && s in load && nsOf[x] != s
    ensures Loads(nsOf[x := s], load[nsOf[x] := load[nsOf[x]] - 1][s := load[s] + 1])
  {
    hide Assigned;
    AssignedSwap(nsOf, x, s);
  }

  /** evdns_nameserver_add_impl_, as far as the counters go. */
  lemma NewServerOk(q: Queues, s: Sid)
    requires QueuesOk(q) && s !in q.load
    ensures QueuesOk(q.(load := q.load[s := 0]))
  {
    hide Bucketed, Lists;
    assert Assigned(q.nsOf, s) == {};
  }

  // ----- rehashing ----------------------------------------------------------------------------------

  /** While requests move to new lists, `moved` of them are there and the others still in the old. */
  ghost predicate Rehashing(q: Queues, before: seq<seq<Id>>, after: seq<seq<Id>>, moved: set<Id>) {
    && |before| > 0 && |after| > 0 && moved <= q.nsOf.Keys
    && Bucketed(before, Slots(q.trans, |before|), q.nsOf.Keys - moved)
    && Bucketed(after, Slots(q.trans, |after|), moved)
  }

  lemma RehashStep(q: Queues, before: seq<seq<Id>>, after: seq<seq<Id>>, moved: set<Id>, i: nat)
    requires Rehashing(q, before, after, moved) && q.nsOf.Keys <= q.trans.Keys && i < |before| && before[i] != []
    ensures var x := before[i][0];
            && x in q.trans && x in q.nsOf.Keys - moved
            && var h := q.trans[x] % |after|;
               Rehashing(q, before[i := before[i][1..]], after[h := after[h] + [x]], moved + {x})
  {
    hide Bucketed, Without;
    var x := before[i][0];
    HeadOut(before, Slots(q.trans, |before|), q.nsOf.Keys - moved, i);
    BucketRemove(before, Slots(q.trans, |before|), q.nsOf.Keys - moved, x);
    BucketAppend(after, Slots(q.trans, |after|), moved, x);
    assert q.nsOf.Keys - (moved + {x}) == (q.nsOf.Keys - moved) - {x};
  }

  lemma RehashStart(q: Queues, after: seq<seq<Id>>)
    requires QueuesOk(q) && |after| > 0 && forall j :: 0 <= j < |after| ==> after[j] == []
    ensures Rehashing(q, q.heads, after, {}) && q.nsOf.Keys <= q.trans.Keys
  {
    assert q.nsOf.Keys - {} == q.nsOf.Keys;
  }

  lemma RehashDone(q: Queues, before: seq<seq<Id>>, after: seq<seq<Id>>, moved: set<Id>)
    requires QueuesOk(q) && Rehashing(q, before, after, moved) && forall j :: 0 <= j < |before| ==> before[j] == []
    ensures QueuesOk(q.(heads := after))
  {
    hide Lists, CountsOk, IdsOk;
    assert moved == q.nsOf.Keys by { AllMoved(q, before, moved); }
    assert ListsOk(q.(heads := after));
    assert IdsOk(q.(heads := after)) && CountsOk(q.(heads := after)) by { OtherParts(q, after); }
  }

  lemma OtherParts(q: Queues, after: seq<seq<Id>>)
    requires IdsOk(q) && CountsOk(q)
    ensures IdsOk(q.(heads := after)) && CountsOk(q.(heads := after))
  {
  }

  lemma AllMoved(q: Queues, before: seq<seq<Id>>, moved: set<Id>)
    requires |before| > 0 && moved <= q.nsOf.Keys && q.nsOf.Keys <= q.trans.Keys
    requires Bucketed(before, Slots(q.trans, |before|), q.nsOf.Keys - moved)
    requires forall j :: 0 <= j < |before| ==> before[j] == []
    ensures moved == q.nsOf.Keys
  {
    forall x | x in q.nsOf.Keys
      ensures x in moved
    {
      var p := Slots(q.trans, |before|)[x];
      assert p == q.trans[x] % |before| && x !in before[p];
    }
  }

  /** The loops of evdns_base_set_max_requests_inflight: every request in flight moves to the list its
      id hashes to among `n`. */
  method Rehash(q: Queues, n: nat) returns (heads: seq<seq<Id>>)
    requires QueuesOk(q) && n > 0
    ensures |heads| == n && QueuesOk(q.(heads := heads))
  {
    hide QueuesOk, Rehashing;
    heads := seq(n, _ => []);
    var before := q.heads;
    ghost var moved: set<Id> := {};
    RehashStart(q, heads);
    var i := 0;
    while i < |before|
      invariant 0 <= i <= |before| == |q.heads| && |heads| == n && Rehashing(q, before, heads, moved)
      invariant forall j :: 0 <= j < i ==> before[j] == []
      decreases |q.heads| - i
    {
      while before[i] != []
        invariant 0 <= i < |before| == |q.heads| && |heads| == n && Rehashing(q, before, heads, moved)
        invariant forall j :: 0 <= j < i ==> before[j] == []
        decreases |before[i]|
      {
        RehashStep(q, before, heads, moved, i);
        var x := before[i][0];
        before := before[i := before[i][1..]];
        var h := q.trans[x] % n;
        heads := heads[h := heads[h] + [x]];
        moved := moved + {x};
      }
      i := i + 1;
    }
    RehashDone(q, before, heads, moved);
  }

  /** request_find_from_trans_id: the request in flight with that id, if there is one. */
  method Find(q: Queues, id: nat) returns (r: Option<Id>)
    requires QueuesOk(q)
    ensures r.Some? ==> r.value in q.nsOf && r.value in q.trans && q.trans[r.value] == id
    ensures r.None? ==> forall x :: x in q.nsOf && x in q.trans ==> q.trans[x] != id
  {
    hide CountsOk, Bucketed, Lists;
    var list := q.heads[id % |q.heads|];
    Members(q, id);
    var i := 0;
    while i < |list|
      invariant 0 <= i <= |list|
      invariant forall j :: 0 <= j < i && list[j] in q.trans ==> q.trans[list[j]] != id
    {
      assert list[i] in list;
      if q.trans[list[i]] == id {
        return Some(list[i]);
      }
      i := i + 1;
    }
    return None;
  }

  lemma Members(q: Queues, id: nat)
    requires ListsOk(q)
    ensures forall x :: x in q.heads[id % |q.heads|] ==> x in q.nsOf && x in q.trans
    ensures forall x :: x in q.nsOf && x in q.trans && q.trans[x] == id ==> x in q.heads[id % |q.heads|]
  {
    var of := Slots(q.trans, |q.heads|);
    forall x | x in q.nsOf && x in q.trans && q.trans[x] == id
      ensures x in q.heads[id % |q.heads|]
    {
      assert of[x] == id % |q.heads|;
    }
  }

  // ----- ids ----------------------------------------------------------------------------------------

  function IdsBelow(n: nat): (r: set<int>)
    ensures |r| == n && forall x :: x in r <==> 0 <= x < n
  {
    if n == 0 then {} else IdsBelow(n - 1) + {n - 1}
  }

  lemma {:induction false} ImageSize(s: set<Id>, f: map<Id, int>)
    requires s <= f.Keys
    ensures |set x | x in s :: f[x]| <= |s|
  {
    if s != {} {
      var z :| z in s;
      var rest := s - {z};
      ImageSize(rest, f);
      assert (set x | x in s :: f[x]) == (set x | x in rest :: f[x]) + {f[z]};
    }
  }

  /** The ids in flight. */
  function Used(q: Queues): set<int>
    requires q.nsOf.Keys <= q.trans.Keys
  {
    set x | x in q.nsOf.Keys :: q.trans[x]
  }

  lemma NotFreeUsed(q: Queues, id: int)
    requires q.nsOf.Keys <= q.trans.Keys && 0 <= id < NO_ID && !FreeId(q, id)
    ensures id in Used(q)
  {
    var x :| x in q.nsOf && x in q.trans && q.trans[x] == id;
  }

  /** With fewer than 65535 requests in flight transaction_id_pick has an id to find. */
  lemma FreeIdExists(q: Queues)
    requires QueuesOk(q) && q.inflight < NO_ID
    ensures exists id :: FreeId(q, id)
  {
    hide ListsOk, IdsOk, FreeId, Used, Assigned;
    ListsNonempty(q);
    if forall id :: !FreeId(q, id) {
      UsedSize(q);
      forall id | id in IdsBelow(NO_ID)
        ensures id in Used(q)
      {
        assert !FreeId(q, id);
        NotFreeUsed(q, id);
      }
      SubsetSize(IdsBelow(NO_ID), Used(q));
    }
  }

  lemma UsedSize(q: Queues)
    requires q.nsOf.Keys <= q.trans.Keys
    ensures |Used(q)| <= |q.nsOf.Keys|
  {
    ImageSize(q.nsOf.Keys, q.trans);
  }
}
