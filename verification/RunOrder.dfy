/** In which order callbacks run after they were activated one by one
    (android/core/src/main/jni/libevent/event.c:1426-1436, 2760-2844, 2864-2978, 3125-3149). */
module RunOrder {
  import opened Basics
  import opened BucketQueues
  import opened LoopState

  /** The queues without `x`, which is at most in that of its priority. */
  function Pulled(k: Kinds, queues: seq<seq<Id>>, x: Id): seq<seq<Id>> {
    if x in k.pri && 0 <= k.pri[x] < |queues| then queues[k.pri[x] := Others(queues[k.pri[x]], x)] else queues
  }

  /** What event_del_nolock_ does to the running queues. */
  function Idle(k: Kinds, r: Running, x: Id): Running {
    if x in r.active then r.(active := r.active - {x}, queues := Pulled(k, r.queues, x), count := r.count - 1)
    else if x in r.later then r.(later := r.later - {x}, laterQueue := Others(r.laterQueue, x), count := r.count - 1)
    else r
  }

  /** What event_callback_activate_nolock_ does: an active callback keeps its place, any other goes to the end
      of the queue of its priority. */
  function Woken(k: Kinds, r: Running, x: Id): Running {
    if x in r.active || x !in k.pri || !(0 <= k.pri[x] < |r.queues|) then r
    else
      var s := Idle(k, r, x);
      s.(active := s.active + {x}, queues := s.queues[k.pri[x] := s.queues[k.pri[x]] + [x]], count := s.count + 1)
  }

  lemma IdleActive(k: Kinds, r: Running, x: Id)
    requires x in r.active && x in k.pri && 0 <= k.pri[x] < |r.queues| && x in r.queues[k.pri[x]]
    ensures Deactivated(k, r, x) == Idle(k, r, x)
  {
  }

  lemma IdleLater(k: Kinds, r: Running, x: Id)
    requires x in r.later && x !in r.active && x in r.laterQueue
    ensures Forgotten(r, x) == Idle(k, r, x)
  {
  }

  lemma IdleNot(k: Kinds, r: Running, x: Id)
    ensures x !in r.active && x !in r.later ==> Idle(k, r, x) == r
    ensures Idle(k, r, x).active == r.active - {x} && (x in r.active ==> Idle(k, r, x).later == r.later)
    ensures x !in r.active ==> Idle(k, r, x).later == r.later - {x} && Idle(k, r, x).queues == r.queues
    ensures |Idle(k, r, x).queues| == |r.queues|
  {
    assert x !in r.active ==> r.active - {x} == r.active;
    assert x !in r.later ==> r.later - {x} == r.later;
  }

  lemma WokenIs(k: Kinds, r: Running, x: Id)
    requires x in k.pri && 0 <= k.pri[x] < |r.queues| && x !in r.active
    ensures Woken(k, r, x) == Activated(k, Idle(k, r, x), x)
  {
  }

  /** A queue without the members of `out`. */
  function Gone(q: seq<Id>, out: seq<Id>): seq<Id> {
    if q == [] then [] else (if q[0] in out then [] else [q[0]]) + Gone(q[1..], out)
  }

  /** The callbacks `order` have left whatever queues they were in, and are now, in order, behind all others of
      their priorities. */
  ghost predicate Behind(k: Kinds, was: Running, r: Running, order: seq<Id>) {
    && |r.queues| == |was.queues| && r.laterQueue == Gone(was.laterQueue, order)
    && forall p :: 0 <= p < |r.queues| ==> r.queues[p] == Gone(was.queues[p], order) + OfQueue(order, k.pri, p)
  }

  lemma {:induction false} GoneHas(q: seq<Id>, out: seq<Id>, x: Id)
    ensures x in Gone(q, out) <==> x in q && x !in out
  {
    if q != [] {
      GoneHas(q[1..], out, x);
    }
  }

  lemma {:induction false} GoneNone(q: seq<Id>)
    ensures Gone(q, []) == q
  {
    if q != [] {
      GoneNone(q[1..]);
    }
  }

  lemma {:induction false} GoneMore(q: seq<Id>, out: seq<Id>, x: Id)
    requires Distinct(q)
    ensures Gone(q, out + [x]) == Others(Gone(q, out), x)
  {
    hide Others, Gone, Distinct;
    if q == [] {
      NoGone(out);
      NoGone(out + [x]);
      OthersNone([], x);
    } else {
      var a, rest := q[0], q[1..];
      FirstApart(q);
      GoneMore(rest, out, x);
      GoneFirst(q, out);
      GoneFirst(q, out + [x]);
      var mid := Gone(rest, out);
      OthersCons(a, mid, x);
      if a == x {
        GoneHas(rest, out, x);
        OthersNone(mid, x);
      }
    }
  }

  lemma NoGone(out: seq<Id>)
    ensures Gone([], out) == []
  {
  }

  lemma GoneFirst(q: seq<Id>, out: seq<Id>)
    requires q != []
    ensures Gone(q, out) == if q[0] in out then Gone(q[1..], out) else [q[0]] + Gone(q[1..], out)
  {
  }

  lemma FirstApart(q: seq<Id>)
    requires q != [] && Distinct(q)
    ensures Distinct(q[1..]) && q[0] !in q[1..]
  {
  }

  lemma OthersCons(a: Id, q: seq<Id>, x: Id)
    ensures Others([a] + q, x) == if a == x then q else [a] + Others(q, x)
  {
    var r := [a] + q;
    assert r[0] == a && r[1..] == q;
    if a == x {
      WithoutFirst(q, x);
    } else if x in q {
      WithoutCons(a, q, x);
    }
  }

  lemma WithoutFirst(q: seq<Id>, x: Id)
    ensures Without([x] + q, x) == q
  {
    assert ([x] + q)[0] == x && IndexOf([x] + q, x) == 0;
  }

  lemma WithoutCons(a: Id, q: seq<Id>, x: Id)
    requires a != x && x in q
    ensures x in [a] + q && Without([a] + q, x) == [a] + Without(q, x)
  {
    var r, i := [a] + q, IndexOf(q, x);
    assert x in r && r[1..] == q && r[0] == a;
    assert IndexOf(r, x) == i + 1;
    hide IndexOf;
    assert r[..i + 1] == [a] + q[..i];
    assert r[i + 2..] == q[i + 1..];
  }

  lemma {:induction false} OthersJoin(a: seq<Id>, b: seq<Id>, x: Id)
    requires x !in b
    ensures Others(a + b, x) == Others(a, x) + b
  {
    if x in a {
      hide IndexOf;
      var i := IndexOf(a, x);
      IndexJoin(a, b, x);
      assert (a + b)[..i] == a[..i];
      assert (a + b)[i + 1..] == a[i + 1..] + b;
      Assoc(a[..i], a[i + 1..], b);
    }
  }

  lemma {:induction false} IndexJoin(a: seq<Id>, b: seq<Id>, x: Id)
    requires x in a
    ensures IndexOf(a + b, x) == IndexOf(a, x)
  {
    assert (a + b)[0] == a[0];
    if a[0] != x {
      assert (a + b)[1..] == a[1..] + b;
      IndexJoin(a[1..], b, x);
    }
  }

  lemma {:induction false} OfQueueSnoc(order: seq<Id>, of: map<Id, int>, p: int, x: Id)
    ensures OfQueue(order + [x], of, p) == OfQueue(order, of, p) + (if x in of && of[x] == p then [x] else [])
  {
    if order == [] {
      assert [x][1..] == [];
      assert OfQueue([], of, p) == [];
    } else {
      assert (order + [x])[1..] == order[1..] + [x] && (order + [x])[0] == order[0];
      OfQueueSnoc(order[1..], of, p, x);
      Assoc(if order[0] in of && of[order[0]] == p then [order[0]] else [], OfQueue(order[1..], of, p),
            if x in of && of[x] == p then [x] else []);
    }
  }

  lemma {:induction false} OfQueueHas(order: seq<Id>, of: map<Id, int>, p: int, x: Id)
    ensures x in OfQueue(order, of, p) ==> x in order
  {
    if order != [] {
      OfQueueHas(order[1..], of, p, x);
    }
  }

  lemma BehindStart(k: Kinds, r: Running)
    ensures Behind(k, r, r, [])
  {
    GoneNone(r.laterQueue);
    forall p | 0 <= p < |r.queues|
      ensures r.queues[p] == Gone(r.queues[p], []) + OfQueue([], k.pri, p)
    {
      GoneNone(r.queues[p]);
    }
  }

  /** One queue, when one more callback goes to the end of its own. */
  lemma QueueNext(was: seq<Id>, q: seq<Id>, order: seq<Id>, of: map<Id, int>, p: int, x: Id)
    requires Distinct(was) && x !in order && x in of && q == Gone(was, order) + OfQueue(order, of, p)
    requires of[x] != p ==> x !in q
    ensures Gone(was, order + [x]) + OfQueue(order + [x], of, p) == if of[x] == p then Others(q, x) + [x] else q
  {
    hide Others, Gone, OfQueue;
    GoneMore(was, order, x);
    OfQueueSnoc(order, of, p, x);
    OfQueueHas(order, of, p, x);
    OthersJoin(Gone(was, order), OfQueue(order, of, p), x);
    OthersNone(q, x);
    Assoc(Others(Gone(was, order), x), OfQueue(order, of, p), [x]);
    if of[x] != p {
      OthersNone(Gone(was, order), x);
    }
  }

  lemma OthersNone(q: seq<Id>, x: Id)
    ensures x !in q ==> Others(q, x) == q
  {
  }

  /** The queues of a running state hold nothing twice, and a callback only where it belongs. */
  lemma RunFacts(k: Kinds, r: Running, x: Id)
    requires RunOk(k, r)
    ensures Distinct(r.laterQueue) && forall p :: 0 <= p < |r.queues| ==> Distinct(r.queues[p])
    ensures x in r.laterQueue <==> x in r.later
    ensures forall p :: 0 <= p < |r.queues| && x in r.queues[p] ==> x in r.active && x in k.pri && k.pri[x] == p
    ensures x in r.active ==> x !in r.later
  {
    hide Total;
  }

  /** Taking out and activating one more callback. */
  lemma BehindNext(k: Kinds, was: Running, r: Running, order: seq<Id>, x: Id)
    requires RunOk(k, was) && RunOk(k, r) && Behind(k, was, r, order) && x !in order
    requires x in k.pri && 0 <= k.pri[x] < |r.queues|
    ensures Behind(k, was, Woken(k, Idle(k, r, x), x), order + [x])
  {
    hide RunOk, Others, Gone, OfQueue;
    RunFacts(k, was, x);
    RunFacts(k, r, x);
    var s := Woken(k, Idle(k, r, x), x);
    var at := k.pri[x];
    OthersNone(r.laterQueue, x);
    GoneMore(was.laterQueue, order, x);
    forall p | 0 <= p < |s.queues|
      ensures s.queues[p] == Gone(was.queues[p], order + [x]) + OfQueue(order + [x], k.pri, p)
    {
      QueueNext(was.queues[p], r.queues[p], order, k.pri, p, x);
      OthersNone(r.queues[p], x);
    }
  }
}
