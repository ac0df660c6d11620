/** Queues indexed by a number, and the set of members they are meant to hold. */
module BucketQueues {
  import opened Basics
  import opened TimeoutBits

  type Id = nat

  /** `q` lists the members of `s`, each once. */
  ghost predicate Lists(q: seq<Id>, s: set<Id>) {
    Distinct(q) && forall x :: x in q <==> x in s
  }

  /** Each member of `s` with a number `of[x]` that is not negative is in that queue, once, and in no
      other; the queues hold nothing else. */
  ghost predicate Bucketed(qs: seq<seq<Id>>, of: map<Id, int>, s: set<Id>) {
    && s <= of.Keys
    && (forall x :: x in s ==> of[x] < |qs|)
    && (forall p :: 0 <= p < |qs| ==> Distinct(qs[p]))
    && (forall p, x :: 0 <= p < |qs| ==> (x in qs[p] <==> x in s && of[x] == p))
  }

  /** The members that belong in queue `p`. */
  function Bucket(of: map<Id, int>, s: set<Id>, p: int): set<Id>
    requires s <= of.Keys
  {
    set x | x in s && of[x] == p
  }

  lemma WithoutLists(q: seq<Id>, s: set<Id>, x: Id)
    requires Lists(q, s) && x in q
    ensures Lists(Without(q, x), s - {x}) && |Without(q, x)| == |q| - 1
  {
    var i := IndexOf(q, x);
    var r := Without(q, x);
    forall y
      ensures y in r <==> y in s - {x}
    {
      if y in q && y != x {
        var j := IndexOf(q, y);
        assert j < i || j > i;
        if j < i {
          assert r[j] == y;
        } else {
          assert r[j - 1] == y;
        }
      }
    }
  }

  /** Removing the first entry. */
  lemma FirstOut(q: seq<Id>)
    requires q != []
    ensures q[0] in q && Without(q, q[0]) == q[1..]
  {
    assert IndexOf(q, q[0]) == 0;
  }

  lemma AppendLists(q: seq<Id>, s: set<Id>, x: Id)
    requires Lists(q, s) && x !in s
    ensures Lists(q + [x], s + {x})
  {
  }

  lemma OneQueue(qs: seq<seq<Id>>, of: map<Id, int>, s: set<Id>, p: nat)
    requires Bucketed(qs, of, s) && p < |qs|
    ensures Lists(qs[p], Bucket(of, s, p))
  {
  }

  /** Changing one queue and the member set together. */
  lemma Replace(qs: seq<seq<Id>>, of: map<Id, int>, s: set<Id>, p: nat, q: seq<Id>, t: set<Id>)
    requires Bucketed(qs, of, s) && p < |qs| && t <= of.Keys && (forall x :: x in t ==> of[x] < |qs|)
    requires Lists(q, Bucket(of, t, p))
    requires forall x :: x in of && of[x] != p ==> (x in s <==> x in t)
    ensures Bucketed(qs[p := q], of, t)
  {
  }

  lemma BucketRemove(qs: seq<seq<Id>>, of: map<Id, int>, s: set<Id>, x: Id)
    requires Bucketed(qs, of, s) && x in s && of[x] >= 0
    ensures x in qs[of[x]] && |Without(qs[of[x]], x)| == |qs[of[x]]| - 1
    ensures Bucketed(qs[of[x] := Without(qs[of[x]], x)], of, s - {x})
  {
    hide Without;
    var p := of[x];
    OneQueue(qs, of, s, p);
    WithoutLists(qs[p], Bucket(of, s, p), x);
    assert Bucket(of, s, p) - {x} == Bucket(of, s - {x}, p);
    Replace(qs, of, s, p, Without(qs[p], x), s - {x});
  }

  lemma BucketAppend(qs: seq<seq<Id>>, of: map<Id, int>, s: set<Id>, x: Id)
    requires Bucketed(qs, of, s) && x in of && x !in s && 0 <= of[x] < |qs|
    ensures Bucketed(qs[of[x] := qs[of[x]] + [x]], of, s + {x})
  {
    var p := of[x];
    OneQueue(qs, of, s, p);
    AppendLists(qs[p], Bucket(of, s, p), x);
    assert Bucket(of, s, p) + {x} == Bucket(of, s + {x}, p);
    Replace(qs, of, s, p, qs[p] + [x], s + {x});
  }

  /** Members without a queue come and go freely. */
  lemma BucketSkip(qs: seq<seq<Id>>, of: map<Id, int>, s: set<Id>, x: Id)
    requires Bucketed(qs, of, s) && x in of && of[x] < 0
    ensures Bucketed(qs, of, s - {x}) && Bucketed(qs, of, s + {x})
  {
  }

  /** A non-member's number may change. */
  lemma BucketRetarget(qs: seq<seq<Id>>, of: map<Id, int>, s: set<Id>, x: Id, v: int)
    requires Bucketed(qs, of, s) && x !in s
    ensures Bucketed(qs, of[x := v], s)
  {
  }

  /** The entries of a list that belong in queue `p`, in order. */
  function OfQueue(q: seq<Id>, of: map<Id, int>, p: int): seq<Id> {
    if q == [] then [] else (if q[0] in of && of[q[0]] == p then [q[0]] else []) + OfQueue(q[1..], of, p)
  }

  function Total(qs: seq<seq<Id>>): nat {
    if qs == [] then 0 else |qs[0]| + Total(qs[1..])
  }

  lemma {:induction false} TotalUpdate(qs: seq<seq<Id>>, p: nat, q: seq<Id>)
    requires p < |qs|
    ensures Total(qs[p := q]) == Total(qs) - |qs[p]| + |q|
  {
    if p == 0 {
      assert qs[0 := q][1..] == qs[1..];
    } else {
      assert qs[p := q][1..] == qs[1..][p - 1 := q];
      TotalUpdate(qs[1..], p - 1, q);
    }
  }

  lemma {:induction false} TotalEmpty(qs: seq<seq<Id>>)
    requires forall p :: 0 <= p < |qs| ==> qs[p] == []
    ensures Total(qs) == 0
  {
    if qs != [] {
      TotalEmpty(qs[1..]);
    }
  }

  /** Members outside `hidden`. */
  function Outside(s: set<Id>, hidden: set<Id>): nat {
    |s - hidden|
  }

  lemma OutsideChange(s: set<Id>, hidden: set<Id>, x: Id)
    ensures x in s ==> Outside(s - {x}, hidden) == Outside(s, hidden) - (if x in hidden then 0 else 1)
    ensures x !in s ==> Outside(s + {x}, hidden) == Outside(s, hidden) + (if x in hidden then 0 else 1)
  {
    if x in hidden {
      assert (s - {x}) - hidden == s - hidden && (s + {x}) - hidden == s - hidden;
    } else {
      assert (s - {x}) - hidden == (s - hidden) - {x} && (s + {x}) - hidden == (s - hidden) + {x};
    }
  }

  /** A member of a queue without repetitions is there once. */
  lemma {:induction false} DistinctCount(q: seq<Id>, x: Id)
    requires Distinct(q)
    ensures multiset(q)[x] == if x in q then 1 else 0
  {
    if q != [] {
      assert q == [q[0]] + q[1..];
      DistinctCount(q[1..], x);
    }
  }

  /** A new, empty queue. */
  lemma BucketGrow(qs: seq<seq<Id>>, of: map<Id, int>, s: set<Id>)
    requires Bucketed(qs, of, s)
    ensures Bucketed(qs + [[]], of, s)
  {
  }

  // ----- queues in order of deadline ----------------------------------------------------------------

  function Due(deadline: map<Id, nat>, x: Id): nat {
    if x in deadline then deadline[x] else 0
  }

  predicate Sorted(q: seq<Id>, deadline: map<Id, nat>) {
    forall i, j :: 0 <= i < j < |q| ==> Due(deadline, q[i]) <= Due(deadline, q[j])
  }

  /** Removing keeps the order, and the head does not get earlier. */
  lemma WithoutSorted(q: seq<Id>, deadline: map<Id, nat>, x: Id)
    requires Sorted(q, deadline) && x in q
    ensures var r := Without(q, x); Sorted(r, deadline) && (r != [] ==> Due(deadline, q[0]) <= Due(deadline, r[0]))
  {
    var r := Without(q, x);
    forall a, b | 0 <= a < b < |r|
      ensures Due(deadline, r[a]) <= Due(deadline, r[b])
    {
      hide Due, Without;
      WithoutAt(q, x, a);
      WithoutAt(q, x, b);
    }
    if r != [] {
      hide Due, Without;
      WithoutAt(q, x, 0);
    }
  }

  lemma WithoutAt(q: seq<Id>, x: Id, a: nat)
    requires x in q && a < |Without(q, x)|
    ensures var j := if a < IndexOf(q, x) then a else a + 1; j < |q| && Without(q, x)[a] == q[j]
  {
  }

  /** Deadlines of things not in the queue do not matter. */
  lemma SortedFrame(q: seq<Id>, before: map<Id, nat>, after: map<Id, nat>)
    requires Sorted(q, before) && forall x :: x in q ==> Due(after, x) == Due(before, x)
    ensures Sorted(q, after)
  {
    forall i, j | 0 <= i < j < |q|
      ensures Due(after, q[i]) <= Due(after, q[j])
    {
      assert q[i] in q && q[j] in q;
    }
  }

  /** The words in `stamp` order `a` and `b` as their deadlines do. */
  predicate Comparable(stamp: map<Id, Timeval>, deadline: map<Id, nat>, a: Id, b: Id) {
    a in stamp && b in stamp && (AtMost(stamp[a], stamp[b]) <==> Due(deadline, a) <= Due(deadline, b))
  }

  /** insert_common_timeout_inorder: behind every entry that is due no later. */
  method InsertInorder(q: seq<Id>, x: Id, stamp: map<Id, Timeval>, ghost deadline: map<Id, nat>) returns (r: seq<Id>, at: nat)
    requires Sorted(q, deadline) && forall i :: 0 <= i < |q| ==> Comparable(stamp, deadline, q[i], x)
    ensures at <= |q| && r == q[..at] + [x] + q[at..] && Sorted(r, deadline)
    ensures forall i :: 0 <= i < at ==> Due(deadline, q[i]) <= Due(deadline, x)
    ensures forall i :: at <= i < |q| ==> Due(deadline, q[i]) > Due(deadline, x)
  {
    hide AtMost;
    at := |q|;
    while at > 0 && !AtMost(stamp[q[at - 1]], stamp[x])
      invariant 0 <= at <= |q|
      invariant forall i :: at <= i < |q| ==> Due(deadline, q[i]) > Due(deadline, x)
    {
      at := at - 1;
    }
    r := q[..at] + [x] + q[at..];
  }

  lemma InsertLists(q: seq<Id>, s: set<Id>, x: Id, at: nat)
    requires Lists(q, s) && x !in s && at <= |q|
    ensures Lists(q[..at] + [x] + q[at..], s + {x})
  {
    var r := q[..at] + [x] + q[at..];
    forall y
      ensures y in r <==> y in s + {x}
    {
      if y in q {
        var j := IndexOf(q, y);
        assert y in q[..at] || y in q[at..];
      }
    }
    forall i, j | 0 <= i < j < |r|
      ensures r[i] != r[j]
    {
      assert r[i] == (if i < at then q[i] else if i == at then x else q[i - 1]);
      assert r[j] == (if j < at then q[j] else if j == at then x else q[j - 1]);
    }
  }

  lemma BucketInsert(qs: seq<seq<Id>>, of: map<Id, int>, s: set<Id>, x: Id, at: nat)
    requires Bucketed(qs, of, s) && x in of && x !in s && 0 <= of[x] < |qs| && at <= |qs[of[x]]|
    ensures Bucketed(qs[of[x] := qs[of[x]][..at] + [x] + qs[of[x]][at..]], of, s + {x})
  {
    var p := of[x];
    OneQueue(qs, of, s, p);
    InsertLists(qs[p], Bucket(of, s, p), x, at);
    assert Bucket(of, s, p) + {x} == Bucket(of, s + {x}, p);
    Replace(qs, of, s, p, qs[p][..at] + [x] + qs[p][at..], s + {x});
  }

  /** Removing the head of a queue. */
  lemma HeadOut(qs: seq<seq<Id>>, of: map<Id, int>, s: set<Id>, p: nat)
    requires Bucketed(qs, of, s) && p < |qs| && qs[p] != []
    ensures Without(qs[p], qs[p][0]) == qs[p][1..] && qs[p][0] in s && of[qs[p][0]] == p
  {
    assert IndexOf(qs[p], qs[p][0]) == 0;
    assert qs[p][0] in qs[p];
  }

  /** `x` is a member due first. */
  predicate Earliest(s: set<Id>, deadline: map<Id, nat>, x: Id) {
    x in s && forall y :: y in s ==> Due(deadline, x) <= Due(deadline, y)
  }
}
