/** What the event loop's flags, queues and counters have to do with each other, and how single
    changes keep it (android/core/src/main/jni/libevent/event.c:3884-3940). */
module LoopState {
  import opened Basics
  import opened BucketQueues
  import opened TimeoutBits

  /** Why a callback was activated. */
  datatype What = Timeout | Readable | Writable | Closed | Signal | Finalize

  const MAX_COMMON_TIMEOUTS: nat := 256

  /** What each known callback is: its priority, and whether it is internal, a whole event
      (EVLIST_INIT), watching for I/O or signals, persistent, and persistent with a closure that sets its
      timeout again (EV_CLOSURE_EVENT_PERSIST). */
  datatype Kinds = Kinds(pri: map<Id, int>, internal: set<Id>, events: set<Id>, watching: set<Id>, persist: set<Id>, cyclic: set<Id>)

  /** The callbacks flagged ACTIVE and ACTIVE_LATER, the queues, and event_count_active. */
  datatype Running = Running(active: set<Id>, later: set<Id>, queues: seq<seq<Id>>, laterQueue: seq<Id>, count: int)

  /** The events flagged TIMEOUT, the heap and the common queues, and ev_timeout of each event split
      into its deadline and the number of its common queue, -1 for the heap. */
  datatype Timing = Timing(flag: set<Id>, heap: set<Id>, common: seq<seq<Id>>, deadline: map<Id, nat>, queueOf: map<Id, int>)

  /** The common timeouts: their durations and the internal timer event of each. */
  datatype Commons = Commons(durations: seq<Timeval>, triggers: seq<Id>)

  /** The active queues hold exactly the callbacks flagged active, each in the queue of its priority;
      the later queue those flagged active-later; nothing is both; the count is of all of them. */
  ghost predicate RunOk(k: Kinds, r: Running) {
    Bucketed(r.queues, k.pri, r.active) && Lists(r.laterQueue, r.later) && r.active !! r.later
    && r.count == Total(r.queues) + |r.laterQueue|
  }

  /** The heap and the common queues hold exactly the events flagged as having a timeout, and each
      common queue is in order. */
  ghost predicate TimeOk(t: Timing) {
    && Bucketed(t.common, t.queueOf, t.flag)
    && (forall x :: x in t.heap <==> x in t.flag && t.queueOf[x] < 0)
    && (forall j :: 0 <= j < |t.common| ==> Sorted(t.common[j], t.deadline))
  }

  /** Every known callback has its attributes. */
  ghost predicate KeysOk(k: Kinds, r: Running, t: Timing, res: map<Id, set<What>>) {
    && res.Keys == k.pri.Keys && t.deadline.Keys == k.pri.Keys && t.queueOf.Keys == k.pri.Keys
    && r.later <= k.pri.Keys && k.events <= k.pri.Keys && k.watching <= k.pri.Keys && k.persist <= k.pri.Keys
    && k.cyclic <= k.persist && k.cyclic <= k.events
    && |r.queues| > 0
    && forall x :: x in k.pri ==> 0 <= k.pri[x] < |r.queues|
  }

  /** Only known events wait for I/O or time, and none that is being finalized does. */
  ghost predicate WaitOk(k: Kinds, timed: set<Id>, inserted: set<Id>, finalizing: set<Id>) {
    && inserted <= k.events && timed <= k.events && finalizing <= k.pri.Keys
    && finalizing !! inserted && finalizing !! timed
  }

  /** Each common queue has an internal timer event of its own, which only ever waits in the heap or
      is active because its time came. */
  ghost predicate TriggersOk(k: Kinds, r: Running, t: Timing, c: Commons, inserted: set<Id>, finalizing: set<Id>, res: map<Id, set<What>>) {
    && |c.triggers| == |t.common| == |c.durations| <= MAX_COMMON_TIMEOUTS && Distinct(c.triggers)
    && forall x :: x in c.triggers ==>
         && x in k.internal && x in k.events && x !in k.watching && x !in k.persist
         && x !in inserted && x !in r.later && x !in finalizing
         && x in t.queueOf && t.queueOf[x] == -1
         && (x in r.active ==> x in res && res[x] == {Timeout})
  }

  ghost predicate Ok(k: Kinds, r: Running, t: Timing, c: Commons, inserted: set<Id>, finalizing: set<Id>, res: map<Id, set<What>>) {
    && RunOk(k, r) && TimeOk(t) && KeysOk(k, r, t, res)
    && WaitOk(k, t.flag, inserted, finalizing) && TriggersOk(k, r, t, c, inserted, finalizing, res)
  }

  /** The sum over the queue flags of the callbacks that carry them and are not internal. */
  function Tally(k: Kinds, inserted: set<Id>, r: Running, timed: set<Id>): nat {
    Outside(inserted, k.internal) + Outside(r.active, k.internal) + Outside(r.later, k.internal) + Outside(timed, k.internal)
  }

  /** DECR_EVENT_COUNT and INCR_EVENT_COUNT: internal callbacks do not count. */
  function Weight(k: Kinds, x: Id): nat {
    if x in k.internal then 0 else 1
  }

  // ----- one step each ------------------------------------------------------------------------------

  /** Before anything is known. */
  lemma EmptyOk(queues: seq<seq<Id>>)
    requires queues != [] && forall p :: 0 <= p < |queues| ==> queues[p] == []
    ensures var k, r := Kinds(map[], {}, {}, {}, {}, {}), Running({}, {}, queues, [], 0);
            && Ok(k, r, Timing({}, {}, [], map[], map[]), Commons([], []), {}, {}, map[])
            && Tally(k, {}, r, {}) == 0
  {
    TotalEmpty(queues);
  }

  lemma Kind(k: Kinds, r: Running, t: Timing, c: Commons, inserted: set<Id>, finalizing: set<Id>, res: map<Id, set<What>>, x: Id)
    requires Ok(k, r, t, c, inserted, finalizing, res)
    ensures r.active <= k.pri.Keys && r.later <= k.pri.Keys && k.events <= k.pri.Keys && r.active !! r.later
    ensures t.flag <= k.events && inserted <= k.events && res.Keys == t.queueOf.Keys == k.pri.Keys
    ensures x in k.pri ==> 0 <= k.pri[x] < |r.queues| && x in res && x in t.deadline && x in t.queueOf
    ensures x in r.active ==> x in r.queues[k.pri[x]]
    ensures x in r.later ==> x in r.laterQueue
    ensures x in c.triggers ==> x in k.events && t.queueOf[x] == -1 && x !in inserted && x !in r.later && x !in finalizing
    ensures x in finalizing ==> x !in t.flag && x !in inserted
    ensures |c.triggers| == |t.common| && |r.queues| > 0
  {
  }

  lemma InsertedKeeps(k: Kinds, r: Running, t: Timing, c: Commons, inserted: set<Id>, finalizing: set<Id>, res: map<Id, set<What>>, x: Id)
    requires Ok(k, r, t, c, inserted, finalizing, res)
    ensures x in inserted ==> Tally(k, inserted - {x}, r, t.flag) == Tally(k, inserted, r, t.flag) - Weight(k, x)
    ensures Ok(k, r, t, c, inserted - {x}, finalizing, res)
    ensures x !in inserted ==> Tally(k, inserted + {x}, r, t.flag) == Tally(k, inserted, r, t.flag) + Weight(k, x)
    ensures x in k.events && x !in c.triggers && x !in finalizing ==> Ok(k, r, t, c, inserted + {x}, finalizing, res)
  {
    hide RunOk, TimeOk, KeysOk, Outside;
    OutsideChange(inserted, k.internal, x);
  }

  function Activated(k: Kinds, r: Running, x: Id): Running
    requires x in k.pri && 0 <= k.pri[x] < |r.queues|
  {
    Running(r.active + {x}, r.later, r.queues[k.pri[x] := r.queues[k.pri[x]] + [x]], r.laterQueue, r.count + 1)
  }

  lemma RunActivated(k: Kinds, r: Running, x: Id)
    requires RunOk(k, r) && x in k.pri && 0 <= k.pri[x] < |r.queues| && x !in r.active && x !in r.later
    ensures RunOk(k, Activated(k, r, x))
  {
    hide Bucketed, Lists, Total;
    BucketAppend(r.queues, k.pri, r.active, x);
    TotalUpdate(r.queues, k.pri[x], r.queues[k.pri[x]] + [x]);
  }

  lemma ActivatedKeeps(k: Kinds, r: Running, t: Timing, c: Commons, inserted: set<Id>, finalizing: set<Id>, res: map<Id, set<What>>, x: Id)
    requires Ok(k, r, t, c, inserted, finalizing, res)
    requires x in k.pri && 0 <= k.pri[x] < |r.queues| && x !in r.active && x !in r.later
    requires x in c.triggers ==> x in res && res[x] == {Timeout}
    ensures Ok(k, Activated(k, r, x), t, c, inserted, finalizing, res)
    ensures Tally(k, inserted, Activated(k, r, x), t.flag) == Tally(k, inserted, r, t.flag) + Weight(k, x)
  {
    hide RunOk, TimeOk, WaitOk, Outside;
    OutsideChange(r.active, k.internal, x);
    RunActivated(k, r, x);
  }

  function Deactivated(k: Kinds, r: Running, x: Id): Running
    requires x in k.pri && 0 <= k.pri[x] < |r.queues| && x in r.queues[k.pri[x]]
  {
    Running(r.active - {x}, r.later, r.queues[k.pri[x] := Without(r.queues[k.pri[x]], x)], r.laterQueue, r.count - 1)
  }

  lemma RunDeactivated(k: Kinds, r: Running, x: Id)
    requires RunOk(k, r) && x in k.pri && 0 <= k.pri[x] < |r.queues| && x in r.active
    ensures x in r.queues[k.pri[x]] && RunOk(k, Deactivated(k, r, x))
  {
    hide Bucketed, Lists, Total;
    BucketRemove(r.queues, k.pri, r.active, x);
    TotalUpdate(r.queues, k.pri[x], Without(r.queues[k.pri[x]], x));
  }

  lemma DeactivatedKeeps(k: Kinds, r: Running, t: Timing, c: Commons, inserted: set<Id>, finalizing: set<Id>, res: map<Id, set<What>>, x: Id)
    requires Ok(k, r, t, c, inserted, finalizing, res) && x in r.active
    requires x in k.pri && 0 <= k.pri[x] < |r.queues| && x in r.queues[k.pri[x]]
    ensures Ok(k, Deactivated(k, r, x), t, c, inserted, finalizing, res)
    ensures Tally(k, inserted, Deactivated(k, r, x), t.flag) == Tally(k, inserted, r, t.flag) - Weight(k, x)
  {
    hide RunOk, TimeOk, WaitOk, Outside, Without;
    OutsideChange(r.active, k.internal, x);
    RunDeactivated(k, r, x);
  }

  function Postponed(r: Running, x: Id): Running {
    Running(r.active, r.later + {x}, r.queues, r.laterQueue + [x], r.count + 1)
  }

  lemma PostponedKeeps(k: Kinds, r: Running, t: Timing, c: Commons, inserted: set<Id>, finalizing: set<Id>, res: map<Id, set<What>>, x: Id)
    requires Ok(k, r, t, c, inserted, finalizing, res)
    requires x in k.pri && x !in c.triggers && x !in r.active && x !in r.later
    ensures Ok(k, Postponed(r, x), t, c, inserted, finalizing, res)
    ensures Tally(k, inserted, Postponed(r, x), t.flag) == Tally(k, inserted, r, t.flag) + Weight(k, x)
  {
    hide Bucketed, Lists, TimeOk, WaitOk, Outside;
    OutsideChange(r.later, k.internal, x);
    AppendLists(r.laterQueue, r.later, x);
  }

  function Forgotten(r: Running, x: Id): Running
    requires x in r.laterQueue
  {
    Running(r.active, r.later - {x}, r.queues, Without(r.laterQueue, x), r.count - 1)
  }

  lemma ForgottenKeeps(k: Kinds, r: Running, t: Timing, c: Commons, inserted: set<Id>, finalizing: set<Id>, res: map<Id, set<What>>, x: Id)
    requires Ok(k, r, t, c, inserted, finalizing, res) && x in r.later && x in r.laterQueue
    ensures Ok(k, Forgotten(r, x), t, c, inserted, finalizing, res)
    ensures Tally(k, inserted, Forgotten(r, x), t.flag) == Tally(k, inserted, r, t.flag) - Weight(k, x)
  {
    hide Bucketed, Lists, TimeOk, WaitOk, Outside, Without;
    OutsideChange(r.later, k.internal, x);
    WithoutLists(r.laterQueue, r.later, x);
  }

  /** The first callback of the later queue moves to the end of its active queue. */
  function Promoted(k: Kinds, r: Running): Running
    requires r.laterQueue != [] && r.laterQueue[0] in k.pri && 0 <= k.pri[r.laterQueue[0]] < |r.queues|
  {
    var x := r.laterQueue[0];
    Running(r.active + {x}, r.later - {x}, r.queues[k.pri[x] := r.queues[k.pri[x]] + [x]], r.laterQueue[1..], r.count)
  }

  lemma PromotedKeeps(k: Kinds, r: Running, t: Timing, c: Commons, inserted: set<Id>, finalizing: set<Id>, res: map<Id, set<What>>)
    requires Ok(k, r, t, c, inserted, finalizing, res) && r.laterQueue != []
    requires r.laterQueue[0] in k.pri && 0 <= k.pri[r.laterQueue[0]] < |r.queues| && r.laterQueue[0] in r.later
    ensures Ok(k, Promoted(k, r), t, c, inserted, finalizing, res)
    ensures Tally(k, inserted, Promoted(k, r), t.flag) == Tally(k, inserted, r, t.flag)
  {
    hide Ok, Tally, Without;
    var x := r.laterQueue[0];
    FirstOut(r.laterQueue);
    Kind(k, r, t, c, inserted, finalizing, res, x);
    ForgottenKeeps(k, r, t, c, inserted, finalizing, res, x);
    var f := Forgotten(r, x);
    ActivatedKeeps(k, f, t, c, inserted, finalizing, res, x);
    assert Activated(k, f, x) == Promoted(k, r);
  }

  // ----- timeouts -----------------------------------------------------------------------------------

  /** The common queues without `x`. */
  function Unqueued(t: Timing, x: Id): (q: seq<seq<Id>>)
    ensures |q| == |t.common|
  {
    if x in t.queueOf && 0 <= t.queueOf[x] < |t.common| && x in t.common[t.queueOf[x]]
    then t.common[t.queueOf[x] := Without(t.common[t.queueOf[x]], x)] else t.common
  }

  function Untimed(t: Timing, x: Id): Timing {
    Timing(t.flag - {x}, t.heap - {x}, Unqueued(t, x), t.deadline, t.queueOf)
  }

  lemma TimeUntimed(t: Timing, x: Id)
    requires TimeOk(t) && x in t.flag
    ensures TimeOk(Untimed(t, x))
    ensures x in t.queueOf && t.queueOf[x] < |t.common|
    ensures t.queueOf[x] >= 0 ==> x in t.common[t.queueOf[x]]
  {
    hide Sorted, Without;
    if t.queueOf[x] < 0 {
      BucketSkip(t.common, t.queueOf, t.flag, x);
    } else {
      BucketRemove(t.common, t.queueOf, t.flag, x);
      WithoutSorted(t.common[t.queueOf[x]], t.deadline, x);
    }
  }

  lemma UntimedKeeps(k: Kinds, r: Running, t: Timing, c: Commons, inserted: set<Id>, finalizing: set<Id>, res: map<Id, set<What>>, x: Id)
    requires Ok(k, r, t, c, inserted, finalizing, res) && x in t.flag
    ensures Ok(k, r, Untimed(t, x), c, inserted, finalizing, res)
    ensures Tally(k, inserted, r, Untimed(t, x).flag) == Tally(k, inserted, r, t.flag) - Weight(k, x)
  {
    hide RunOk, TimeOk, Outside, Without;
    OutsideChange(t.flag, k.internal, x);
    TimeUntimed(t, x);
  }

  /** ev_timeout of an event that is in no timeout structure changes. */
  function Retimed(t: Timing, x: Id, when: nat, queue: int): Timing {
    t.(deadline := t.deadline[x := when], queueOf := t.queueOf[x := queue])
  }

  lemma TimeRetimed(t: Timing, x: Id, when: nat, queue: int)
    requires TimeOk(t) && x !in t.flag
    ensures TimeOk(Retimed(t, x, when, queue))
  {
    hide Sorted;
    BucketRetarget(t.common, t.queueOf, t.flag, x, queue);
    forall j | 0 <= j < |t.common|
      ensures Sorted(t.common[j], t.deadline[x := when])
    {
      SortedFrame(t.common[j], t.deadline, t.deadline[x := when]);
    }
  }

  lemma RetimedKeeps(k: Kinds, r: Running, t: Timing, c: Commons, inserted: set<Id>, finalizing: set<Id>, res: map<Id, set<What>>,
                     x: Id, when: nat, queue: int)
    requires Ok(k, r, t, c, inserted, finalizing, res) && x in k.pri && x !in t.flag && (x in c.triggers ==> queue == -1)
    ensures Ok(k, r, Retimed(t, x, when, queue), c, inserted, finalizing, res)
  {
    hide RunOk, TimeOk, WaitOk;
    TimeRetimed(t, x, when, queue);
  }

  /** `u` is `t` with `x` also in the structure its queue number names, in order. */
  ghost predicate Timed(t: Timing, u: Timing, x: Id) {
    && x in t.queueOf && t.queueOf[x] < |t.common|
    && u.deadline == t.deadline && u.queueOf == t.queueOf && u.flag == t.flag + {x}
    && if t.queueOf[x] < 0 then u.heap == t.heap + {x} && u.common == t.common
       else
         var q := t.common[t.queueOf[x]];
         && u.heap == t.heap
         && exists at :: 0 <= at <= |q| && u.common == t.common[t.queueOf[x] := q[..at] + [x] + q[at..]]
              && (forall i :: 0 <= i < at ==> Due(t.deadline, q[i]) <= Due(t.deadline, x))
              && (forall i :: at <= i < |q| ==> Due(t.deadline, q[i]) > Due(t.deadline, x))
  }

  lemma TimeTimed(t: Timing, u: Timing, x: Id)
    requires TimeOk(t) && x !in t.flag && Timed(t, u, x)
    ensures TimeOk(u)
  {
    if t.queueOf[x] < 0 {
      hide Sorted;
      BucketSkip(t.common, t.queueOf, t.flag, x);
    } else {
      var p := t.queueOf[x];
      var q := t.common[p];
      var at :| 0 <= at <= |q| && u.common == t.common[p := q[..at] + [x] + q[at..]]
              && (forall i :: 0 <= i < at ==> Due(t.deadline, q[i]) <= Due(t.deadline, x))
              && (forall i :: at <= i < |q| ==> Due(t.deadline, q[i]) > Due(t.deadline, x));
      BucketInsert(t.common, t.queueOf, t.flag, x, at);
      InsertSorted(q, t.deadline, x, at);
    }
  }

  lemma InsertSorted(q: seq<Id>, deadline: map<Id, nat>, x: Id, at: nat)
    requires Sorted(q, deadline) && at <= |q|
    requires forall i :: 0 <= i < at ==> Due(deadline, q[i]) <= Due(deadline, x)
    requires forall i :: at <= i < |q| ==> Due(deadline, q[i]) > Due(deadline, x)
    ensures Sorted(q[..at] + [x] + q[at..], deadline)
  {
  }

  lemma TimedKeeps(k: Kinds, r: Running, t: Timing, c: Commons, inserted: set<Id>, finalizing: set<Id>, res: map<Id, set<What>>,
                   u: Timing, x: Id)
    requires Ok(k, r, t, c, inserted, finalizing, res) && x in k.events && x !in finalizing && x !in t.flag && Timed(t, u, x)
    ensures Ok(k, r, u, c, inserted, finalizing, res) && |u.common| == |t.common|
    ensures Tally(k, inserted, r, u.flag) == Tally(k, inserted, r, t.flag) + Weight(k, x)
  {
    hide RunOk, TimeOk, Outside;
    OutsideChange(t.flag, k.internal, x);
    TimeTimed(t, u, x);
  }

  lemma ResKeeps(k: Kinds, r: Running, t: Timing, c: Commons, inserted: set<Id>, finalizing: set<Id>, res: map<Id, set<What>>,
                 x: Id, w: set<What>)
    requires Ok(k, r, t, c, inserted, finalizing, res) && x in k.pri && (x in c.triggers ==> w == {Timeout})
    ensures Ok(k, r, t, c, inserted, finalizing, res[x := w])
  {
    hide RunOk, TimeOk, WaitOk;
  }

  // ----- triggers -----------------------------------------------------------------------------------

  /** A common queue whose timer will fire, or has fired, no later than its head is due. */
  predicate Armed(q: seq<Id>, trigger: Id, t: Timing, active: set<Id>) {
    || q == []
    || (trigger in t.flag && Due(t.deadline, trigger) <= Due(t.deadline, q[0]))
    || trigger in active
  }

  /** Every common queue but `k` is armed. */
  predicate AllArmed(t: Timing, c: Commons, active: set<Id>, k: int) {
    && |t.common| == |c.triggers|
    && forall j :: 0 <= j < |t.common| && j != k ==> Armed(t.common[j], c.triggers[j], t, active)
  }

  /** Taking out a timeout leaves the queues armed, except the one whose timer it was. */
  lemma ArmedUntimed(t: Timing, c: Commons, active: set<Id>, k: int, x: Id, active1: set<Id>)
    requires AllArmed(t, c, active, k) && TimeOk(t)
    requires forall j :: 0 <= j < |c.triggers| && j != k ==>
      c.triggers[j] in active1 || (c.triggers[j] != x && (c.triggers[j] in active ==> c.triggers[j] in active1))
    ensures AllArmed(Untimed(t, x), c, active1, k)
  {
    hide Bucketed, Sorted, Without;
    if x in t.queueOf && 0 <= t.queueOf[x] < |t.common| && x in t.common[t.queueOf[x]] {
      WithoutSorted(t.common[t.queueOf[x]], t.deadline, x);
      WithoutShorter(t.common[t.queueOf[x]], x);
    }
  }

  lemma WithoutShorter(q: seq<Id>, x: Id)
    requires x in q
    ensures |Without(q, x)| == |q| - 1
  {
  }

  /** A new ev_timeout for an event in no timeout structure disarms at most the queue it is the timer of. */
  lemma ArmedRetimed(t: Timing, c: Commons, active: set<Id>, k: int, x: Id, when: nat, queue: int)
    requires AllArmed(t, c, active, k) && TimeOk(t) && x !in t.flag
    ensures AllArmed(Retimed(t, x, when, queue), c, active, k)
  {
    hide Sorted;
  }

  /** Setting a timeout disarms at most the common queue it becomes the head of. */
  lemma ArmedTimed(t: Timing, u: Timing, c: Commons, active: set<Id>, k: int, x: Id)
    requires AllArmed(t, c, active, k) && TimeOk(t) && Timed(t, u, x) && |u.common| == |t.common|
    requires k < 0 || t.queueOf[x] < 0
    ensures t.queueOf[x] < 0 ==> AllArmed(u, c, active, k)
    ensures t.queueOf[x] >= 0 && u.common[t.queueOf[x]] != [] ==>
      AllArmed(u, c, active, if u.common[t.queueOf[x]][0] == x then t.queueOf[x] else -1)
  {
    hide Sorted, Bucketed;
  }

  /** The timer of queue `k`, set for when its head is due, arms it. */
  lemma ArmedBySetting(u: Timing, c: Commons, active: set<Id>, k: nat)
    requires AllArmed(u, c, active, k) && k < |c.triggers|
    requires c.triggers[k] in u.flag
    requires u.common[k] != [] ==> Due(u.deadline, c.triggers[k]) <= Due(u.deadline, u.common[k][0])
    ensures AllArmed(u, c, active, -1)
  {
  }

  /** Fewer active callbacks that are no triggers, or triggers of the queue left out. */
  lemma ArmedInactive(t: Timing, c: Commons, active: set<Id>, active1: set<Id>, k: int)
    requires AllArmed(t, c, active, k)
    requires forall j :: 0 <= j < |c.triggers| && j != k && c.triggers[j] in active ==> c.triggers[j] in active1
    ensures AllArmed(t, c, active1, k)
  {
  }

  /** Setting the timeout of a program's event: only the common queue it now heads may lack a timer. */
  lemma ArmedUser(t: Timing, u: Timing, c: Commons, active: set<Id>, active1: set<Id>, x: Id, when: nat, queue: int)
    requires AllArmed(t, c, active, -1) && TimeOk(t) && x !in c.triggers && active - {x} <= active1 && queue < |t.common|
    requires Timed(Retimed(if x in t.flag then Untimed(t, x) else t, x, when, queue), u, x)
    requires |u.common| == |t.common|
    ensures queue < 0 ==> AllArmed(u, c, active1, -1)
    ensures queue >= 0 ==> u.common[queue] != [] && AllArmed(u, c, active1, if u.common[queue][0] == x then queue else -1)
  {
    hide TimeOk, Timed, Untimed, AllArmed;
    var t1 := if x in t.flag then Untimed(t, x) else t;
    assert TimeOk(t1) && x !in t1.flag && |t1.common| == |t.common| && AllArmed(t1, c, active1, -1) by {
      if x in t.flag {
        TimeUntimed(t, x);
        UntimedShape(t, x);
        ArmedUntimed(t, c, active, -1, x, active1);
      } else {
        ArmedInactive(t, c, active, active1, -1);
      }
    }
    TimeRetimed(t1, x, when, queue);
    ArmedRetimed(t1, c, active1, -1, x, when, queue);
    ArmedTimed(Retimed(t1, x, when, queue), u, c, active1, -1, x);
    TimedHas(Retimed(t1, x, when, queue), u, x);
  }

  lemma TimedHas(t: Timing, u: Timing, x: Id)
    requires Timed(t, u, x)
    ensures t.queueOf[x] >= 0 ==> t.queueOf[x] < |u.common| && u.common[t.queueOf[x]] != []
    ensures x in u.flag && u.deadline == t.deadline && |u.common| == |t.common|
    ensures t.queueOf[x] < 0 ==> u.common == t.common
  {
  }

  lemma UntimedShape(t: Timing, x: Id)
    ensures Untimed(t, x).flag == t.flag - {x} && |Untimed(t, x).common| == |t.common|
    ensures Untimed(t, x).deadline == t.deadline && Untimed(t, x).queueOf == t.queueOf
    ensures Untimed(t, x).heap == t.heap - {x} && Untimed(t, x).common == Unqueued(t, x)
  {
  }

  /** Setting the timer of queue `k` for when its head is due. */
  lemma ArmedTrigger(t: Timing, u: Timing, c: Commons, active: set<Id>, active1: set<Id>, k: nat, when: nat)
    requires AllArmed(t, c, active, k) && TimeOk(t) && k < |c.triggers| && active - {c.triggers[k]} <= active1
    requires Distinct(c.triggers) && c.triggers[k] in t.queueOf && t.queueOf[c.triggers[k]] == -1
    requires var x := c.triggers[k]; Timed(Retimed(if x in t.flag then Untimed(t, x) else t, x, when, -1), u, x)
    requires |u.common| == |t.common| && t.common[k] != [] && when == Due(t.deadline, t.common[k][0])
    ensures AllArmed(u, c, active1, -1) && u.common == t.common
  {
    hide TimeOk, Timed, Untimed, Unqueued;
    var x := c.triggers[k];
    var t1 := if x in t.flag then Untimed(t, x) else t;
    assert TimeOk(t1) && x !in t1.flag && t1.common == t.common && t1.deadline == t.deadline && AllArmed(t1, c, active1, k) by {
      if x in t.flag {
        TimeUntimed(t, x);
        UntimedShape(t, x);
        HeapOnly(t, x);
        ArmedUntimed(t, c, active, k, x, active1);
      } else {
        ArmedInactive(t, c, active, active1, k);
      }
    }
    var t2 := Retimed(t1, x, when, -1);
    TimeRetimed(t1, x, when, -1);
    ArmedRetimed(t1, c, active1, k, x, when, -1);
    ArmedTimed(t2, u, c, active1, k, x);
    TimedHas(t2, u, x);
    HeadElsewhere(t, k, x);
    ArmedBySetting(u, c, active1, k);
  }

  lemma HeapOnly(t: Timing, x: Id)
    requires x in t.queueOf && t.queueOf[x] < 0
    ensures Unqueued(t, x) == t.common
  {
  }

  lemma HeadElsewhere(t: Timing, k: nat, x: Id)
    requires TimeOk(t) && k < |t.common| && t.common[k] != [] && x in t.queueOf && t.queueOf[x] < 0
    ensures t.common[k][0] != x
  {
    assert t.common[k][0] in t.common[k];
  }

  // ----- new callbacks and queues -------------------------------------------------------------------

  /** `k` with a new callback `x`. */
  function WithKind(k: Kinds, x: Id, pri: int, internal: bool, event: bool, watching: bool, persist: bool, signal: bool): Kinds {
    Kinds(k.pri[x := pri], if internal then k.internal + {x} else k.internal, if event then k.events + {x} else k.events,
          if watching then k.watching + {x} else k.watching, if persist then k.persist + {x} else k.persist,
          if event && persist && !signal then k.cyclic + {x} else k.cyclic)
  }

  lemma AssignedKeeps(k: Kinds, r: Running, t: Timing, c: Commons, inserted: set<Id>, finalizing: set<Id>, res: map<Id, set<What>>,
                      k1: Kinds, x: Id, pri: nat, internal: bool, event: bool, watching: bool, persist: bool, signal: bool)
    requires Ok(k, r, t, c, inserted, finalizing, res) && x !in k.pri && pri < |r.queues|
    requires k1 == WithKind(k, x, pri, internal, event, watching, persist, signal)
    ensures Ok(k1, r, Retimed(t, x, 0, -1), c, inserted, finalizing, res[x := {}])
    ensures Tally(k1, inserted, r, t.flag) == Tally(k, inserted, r, t.flag)
  {
    hide TimeOk, RunOk, Outside, TriggersOk, KeysOk;
    RunAssigned(k, r, k1, x, pri);
    KeysAssigned(k, r, t, res, k1, x, pri, internal, event, watching, persist, signal);
    TriggersAssigned(k, r, t, c, inserted, finalizing, res, k1, x, pri, internal, event, watching, persist, signal);
    TimeFlags(t);
    TimeRetimed(t, x, 0, -1);
    OutsideSame(inserted, k.internal, k1.internal, x);
    OutsideSame(r.active, k.internal, k1.internal, x);
    OutsideSame(r.later, k.internal, k1.internal, x);
    OutsideSame(t.flag, k.internal, k1.internal, x);
  }

  lemma KeysAssigned(k: Kinds, r: Running, t: Timing, res: map<Id, set<What>>,
                     k1: Kinds, x: Id, pri: nat, internal: bool, event: bool, watching: bool, persist: bool, signal: bool)
    requires KeysOk(k, r, t, res) && x !in k.pri && pri < |r.queues|
    requires k1 == WithKind(k, x, pri, internal, event, watching, persist, signal)
    ensures KeysOk(k1, r, Retimed(t, x, 0, -1), res[x := {}])
    ensures x !in r.later && t.queueOf.Keys == k.pri.Keys && k.events <= k.pri.Keys
  {
  }

  lemma TriggersAssigned(k: Kinds, r: Running, t: Timing, c: Commons, inserted: set<Id>, finalizing: set<Id>, res: map<Id, set<What>>,
                         k1: Kinds, x: Id, pri: nat, internal: bool, event: bool, watching: bool, persist: bool, signal: bool)
    requires TriggersOk(k, r, t, c, inserted, finalizing, res) && x !in k.pri && k.events <= k.pri.Keys
    requires k1 == WithKind(k, x, pri, internal, event, watching, persist, signal)
    ensures TriggersOk(k1, r, Retimed(t, x, 0, -1), c, inserted, finalizing, res[x := {}])
  {
    assert x !in c.triggers;
  }

  lemma OutsideSame(s: set<Id>, hidden: set<Id>, more: set<Id>, x: Id)
    requires x !in s && hidden <= more <= hidden + {x}
    ensures Outside(s, more) == Outside(s, hidden)
  {
    assert s - more == s - hidden;
  }

  lemma RunAssigned(k: Kinds, r: Running, k1: Kinds, x: Id, pri: int)
    requires RunOk(k, r) && x !in k.pri && k1.pri == k.pri[x := pri]
    ensures RunOk(k1, r) && x !in r.active
  {
    hide Lists, Total;
    BucketRetarget(r.queues, k.pri, r.active, x, pri);
  }

  lemma TimeFlags(t: Timing)
    requires TimeOk(t)
    ensures t.flag <= t.queueOf.Keys
  {
  }

  lemma CommonKeeps(k: Kinds, r: Running, t: Timing, c: Commons, inserted: set<Id>, finalizing: set<Id>, res: map<Id, set<What>>,
                    x: Id, duration: Timeval)
    requires Ok(k, r, t, c, inserted, finalizing, res) && |c.durations| < MAX_COMMON_TIMEOUTS
    requires x in k.internal && x in k.events && x !in k.watching && x !in k.persist
    requires x !in inserted && x !in r.later && x !in finalizing && x !in r.active && x !in c.triggers
    requires x in t.queueOf && t.queueOf[x] == -1
    ensures Ok(k, r, t.(common := t.common + [[]]), Commons(c.durations + [duration], c.triggers + [x]), inserted, finalizing, res)
  {
    hide RunOk, WaitOk, Bucketed;
    BucketGrow(t.common, t.queueOf, t.flag);
  }

  lemma FinalizingKeeps(k: Kinds, r: Running, t: Timing, c: Commons, inserted: set<Id>, finalizing: set<Id>, res: map<Id, set<What>>, x: Id)
    requires Ok(k, r, t, c, inserted, finalizing, res) && x in k.pri && x !in c.triggers && x !in inserted && x !in t.flag
    ensures Ok(k, r, t, c, inserted, finalizing + {x}, res)
  {
    hide RunOk, TimeOk, KeysOk;
  }
}
