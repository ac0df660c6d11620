/** The words and the heap behind the timeouts of the event loop
    (android/core/src/main/jni/libevent/event.c:1516-1575, 2612-2708, 3213-3304, 3345-3366). */
module Timers {
  import opened Basics
  import opened BucketQueues
  import opened TimeoutBits
  import opened MinHeap
  import opened LoopState

  const ZERO: Timeval := Timeval(0, 0)

  /** The heap's array, and ev_timeout and ev_io_timeout of each event. */
  datatype Clock = Clock(heap: seq<Id>, stamp: map<Id, Timeval>, period: map<Id, Timeval>)

  /** The array is a heap of the events that wait in it. */
  ghost predicate ArrayOk(t: Timing, heap: seq<Id>) {
    Lists(heap, t.heap) && HeapOk(heap, t.deadline)
  }

  /** Every word names the deadline and the queue of its event. */
  ghost predicate StampsOk(t: Timing, stamp: map<Id, Timeval>) {
    && stamp.Keys == t.deadline.Keys == t.queueOf.Keys && |t.common| <= MAX_COMMON_TIMEOUTS
    && forall x :: x in stamp ==> Names(stamp[x], t.deadline[x], t.queueOf[x]) && t.queueOf[x] < |t.common|
  }

  /** A period is for the queue its event waits in: what event_persist_closure asserts. */
  predicate PeriodOk(stamp: Timeval, period: Timeval) {
    period == ZERO || (IsSame(stamp, period) && Micros(period) <= MILLION)
  }

  ghost predicate PeriodsOk(stamp: map<Id, Timeval>, period: map<Id, Timeval>) {
    period.Keys == stamp.Keys && forall x :: x in stamp ==> PeriodOk(stamp[x], period[x])
  }

  /** Only cyclic events have a period. */
  ghost predicate OnlyCyclic(cyclic: set<Id>, period: map<Id, Timeval>) {
    forall x :: x in period && x !in cyclic ==> period[x] == ZERO
  }

  ghost predicate ClockOk(cyclic: set<Id>, t: Timing, c: Clock) {
    ArrayOk(t, c.heap) && StampsOk(t, c.stamp) && PeriodsOk(c.stamp, c.period) && OnlyCyclic(cyclic, c.period)
  }

  lemma EmptyClock()
    ensures ClockOk({}, Timing({}, {}, [], map[], map[]), Clock([], map[], map[]))
  {
  }

  /** Within one structure the words compare as the deadlines do. */
  lemma WordsCompare(cyclic: set<Id>, t: Timing, c: Clock, x: Id, y: Id)
    requires ClockOk(cyclic, t, c) && x in t.queueOf && y in t.queueOf && t.queueOf[x] == t.queueOf[y]
    ensures Comparable(c.stamp, t.deadline, x, y)
  {
    hide Lists, HeapOk, PeriodsOk, AtMost, Deadline;
    SameOrder(c.stamp[x], c.stamp[y]);
  }

  /** The word of an event says which structure it belongs to. */
  lemma WordTells(cyclic: set<Id>, t: Timing, c: Clock, x: Id)
    requires ClockOk(cyclic, t, c) && x in t.queueOf
    ensures x in c.stamp && x in c.period && QueueNumber(c.stamp[x], |t.common|) == t.queueOf[x]
    ensures Deadline(c.stamp[x]) == Due(t.deadline, x)
    ensures IsCommon(c.stamp[x], |t.common|) <==> t.queueOf[x] >= 0
    ensures t.queueOf[x] < 0 ==> Normal(c.stamp[x])
    ensures Micros(c.stamp[x]) < MILLION && -1 <= t.queueOf[x] < |t.common| && |t.common| <= 256
    ensures Names(c.stamp[x], Due(t.deadline, x), t.queueOf[x]) && PeriodOk(c.stamp[x], c.period[x])
    ensures x !in cyclic ==> c.period[x] == ZERO
  {
    hide Lists, HeapOk, Deadline;
    Decoded(c.stamp[x], t.deadline[x], t.queueOf[x], |t.common|);
  }

  /** The timeout part of event_queue_insert_timeout. */
  method InsertTimed(ghost cyclic: set<Id>, t: Timing, c: Clock, x: Id) returns (u: Timing, d: Clock)
    requires TimeOk(t) && ClockOk(cyclic, t, c) && x in t.queueOf && x !in t.flag
    ensures Timed(t, u, x) && ClockOk(cyclic, u, d) && d.stamp == c.stamp && d.period == c.period
  {
    hide Bucketed, HeapOk, Lists, Sorted, IsCommon, Comparable, StampsOk, PeriodsOk, OnlyCyclic;
    WordTells(cyclic, t, c, x);
    if IsCommon(c.stamp[x], |t.common|) {
      var k := Idx(c.stamp[x]);
      assert k == t.queueOf[x];
      QueueCompares(cyclic, t, c, x);
      var r, at := InsertInorder(t.common[k], x, c.stamp, t.deadline);
      u, d := t.(flag := t.flag + {x}, common := t.common[k := r]), c;
    } else {
      var r := Push(c.heap, x, t.deadline, t.heap);
      u, d := t.(flag := t.flag + {x}, heap := t.heap + {x}), c.(heap := r);
    }
    StampsFrame(t, u, c.stamp);
  }

  lemma StampsFrame(t: Timing, u: Timing, stamp: map<Id, Timeval>)
    requires StampsOk(t, stamp) && u.deadline == t.deadline && u.queueOf == t.queueOf && |t.common| <= |u.common| <= MAX_COMMON_TIMEOUTS
    ensures StampsOk(u, stamp)
  {
  }

  lemma StampsBound(t: Timing, stamp: map<Id, Timeval>)
    requires StampsOk(t, stamp)
    ensures |t.common| <= MAX_COMMON_TIMEOUTS
  {
  }

  /** In the queue of `x`, every word compares with that of `x` as the deadlines do. */
  lemma QueueCompares(cyclic: set<Id>, t: Timing, c: Clock, x: Id)
    requires TimeOk(t) && ClockOk(cyclic, t, c) && x in t.queueOf && 0 <= t.queueOf[x] < |t.common|
    ensures var q := t.common[t.queueOf[x]]; forall i :: 0 <= i < |q| ==> Comparable(c.stamp, t.deadline, q[i], x)
  {
    hide ClockOk, Comparable, Sorted;
    var q := t.common[t.queueOf[x]];
    forall i | 0 <= i < |q|
      ensures Comparable(c.stamp, t.deadline, q[i], x)
    {
      assert q[i] in q;
      WordsCompare(cyclic, t, c, q[i], x);
    }
  }

  /** The timeout part of event_queue_remove_timeout. */
  method EraseTimed(ghost cyclic: set<Id>, t: Timing, c: Clock, x: Id) returns (u: Timing, d: Clock)
    requires TimeOk(t) && ClockOk(cyclic, t, c) && x in t.flag
    ensures u == Untimed(t, x) && ClockOk(cyclic, u, d) && d.stamp == c.stamp && d.period == c.period
  {
    hide HeapOk, Lists, Sorted, IsCommon, StampsOk, PeriodsOk, OnlyCyclic, Without;
    WordTells(cyclic, t, c, x);
    if IsCommon(c.stamp[x], |t.common|) {
      var k := Idx(c.stamp[x]);
      assert k == t.queueOf[x];
      assert t.heap - {x} == t.heap;
      u, d := t.(flag := t.flag - {x}, common := t.common[k := Without(t.common[k], x)]), c;
    } else {
      var r := Erase(c.heap, x, t.deadline, t.heap);
      u, d := t.(flag := t.flag - {x}, heap := t.heap - {x}), c.(heap := r);
    }
    StampsBound(t, c.stamp);
    StampsFrame(t, u, c.stamp);
  }

  /** A new word and a new period for an event that waits in no structure. */
  lemma StampedKeeps(cyclic: set<Id>, t: Timing, c: Clock, x: Id, stamp: Timeval, period: Timeval, when: nat, queue: int)
    requires TimeOk(t) && ClockOk(cyclic, t, c) && x !in t.flag
    requires Names(stamp, when, queue) && queue < |t.common| && PeriodOk(stamp, period) && (x !in cyclic ==> period == ZERO)
    ensures ClockOk(cyclic, Retimed(t, x, when, queue), c.(stamp := c.stamp[x := stamp], period := c.period[x := period]))
  {
    hide HeapOk, Names, PeriodOk, Bucketed, Sorted;
    HeapFrame(c.heap, t.deadline, t.deadline[x := when]);
  }

  /** A new common queue. */
  lemma GrownKeeps(cyclic: set<Id>, t: Timing, c: Clock)
    requires ClockOk(cyclic, t, c) && |t.common| < MAX_COMMON_TIMEOUTS
    ensures ClockOk(cyclic, t.(common := t.common + [[]]), c)
  {
    hide HeapOk, Lists, PeriodsOk, StampsOk;
    StampsFrame(t, t.(common := t.common + [[]]), c.stamp);
  }

  /** More cyclic events. */
  lemma CyclicGrows(cyclic: set<Id>, more: set<Id>, t: Timing, c: Clock)
    requires ClockOk(cyclic, t, c) && cyclic <= more
    ensures ClockOk(more, t, c)
  {
    hide ArrayOk, StampsOk, PeriodsOk;
  }

  /** evutil_timerclear of a period. */
  lemma ClearedKeeps(cyclic: set<Id>, t: Timing, c: Clock, x: Id)
    requires ClockOk(cyclic, t, c) && x in c.stamp
    ensures ClockOk(cyclic, t, c.(period := c.period[x := ZERO]))
  {
    hide ArrayOk, StampsOk, IsSame;
  }

  lemma HeapArray(cyclic: set<Id>, t: Timing, c: Clock)
    requires ClockOk(cyclic, t, c)
    ensures Lists(c.heap, t.heap) && HeapOk(c.heap, t.deadline)
  {
  }
}
