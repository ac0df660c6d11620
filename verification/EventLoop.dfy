/** The event loop's queues: active, active-later, timeouts and common timeouts
    (android/core/src/main/jni/libevent/event.c:1365-1439, 1443-1516, 1602-1616, 2543-2992,
    3126-3400, 3884-3940). */
module EventLoop {
  import opened Basics
  import opened BucketQueues
  import opened TimeoutBits
  import opened MinHeap
  import opened LoopState
  import opened RunOrder
  import opened Timers

  /** Everything the base knows about one callback. */
  datatype Status = Status(active: bool, later: bool, inserted: bool, timed: bool, why: set<What>, deadline: nat, queue: int,
                           period: Timeval) {
    /** The same callback once its timeout has expired: only waiting to run, because of the timeout. */
    function Fired(): Status {
      this.(active := true, later := false, inserted := false, timed := false, why := {Timeout})
    }
    predicate Expired(now: nat) {
      timed && deadline <= now
    }
    /** No longer waiting for anything. */
    function Stopped(): Status {
      this.(active := false, later := false, inserted := false, timed := false)
    }
    /** event_add hands a callback to the backend unless that has it, or it is about to run. */
    predicate Enters(watching: bool) {
      watching && !inserted && !active && !later
    }
    /** Waiting as well for a deadline, and not about to run for an earlier one. */
    function Until(when: nat, number: int): Status {
      this.(timed := true, active := active && Timeout !in why, deadline := when, queue := number)
    }
    /** event_persist_closure: with a period, the event is added again for its next deadline, if the backend
        takes it. */
    function Cycled(watching: bool, now: nat, ioOk: bool): Status {
      if period == ZERO || (Enters(watching) && !ioOk) then this
      else this.(inserted := inserted || Enters(watching))
               .Until(AgainAt(deadline, Deadline(period), now, Timeout in why), queue)
    }
  }

  /** The parts of the base that decide the status of a callback. */
  datatype Snapshot = Snapshot(run: Running, time: Timing, inserted: set<Id>, res: map<Id, set<What>>, period: map<Id, Timeval>)

  function Look(s: Snapshot, x: Id): Status {
    Status(x in s.run.active, x in s.run.later, x in s.inserted, x in s.time.flag,
           if x in s.res then s.res[x] else {}, Due(s.time.deadline, x), if x in s.time.queueOf then s.time.queueOf[x] else -1,
           if x in s.period then s.period[x] else ZERO)
  }

  /** From `a` to `b` the timeouts of `due` expired, and nothing else changed, `skip` aside. */
  ghost predicate Expires(a: Snapshot, b: Snapshot, due: set<Id>, skip: seq<Id>) {
    forall x :: x !in skip ==> Look(b, x) == if x in due then Look(a, x).Fired() else Look(a, x)
  }

  lemma ExpiresMore(a: Snapshot, b: Snapshot, c: Snapshot, due: set<Id>, more: set<Id>, skip: seq<Id>)
    requires Expires(a, b, due, skip) && Expires(b, c, more, skip)
    ensures Expires(a, c, due + more, skip)
  {
    hide Look;
  }

  lemma ExpiresSkip(a: Snapshot, b: Snapshot, due: set<Id>, less: set<Id>, skip: seq<Id>)
    requires Expires(a, b, due, []) && forall x :: x in due && x !in less ==> x in skip
    requires less <= due
    ensures Expires(a, b, less, skip)
  {
    hide Look;
  }

  lemma ExpiresWiden(a: Snapshot, b: Snapshot, due: set<Id>, skip: seq<Id>, wider: seq<Id>)
    requires Expires(a, b, due, skip) && forall x :: x in skip ==> x in wider
    ensures Expires(a, b, due, wider)
  {
    hide Look;
  }

  lemma ExpiresNone(a: Snapshot, skip: seq<Id>)
    ensures Expires(a, a, {}, skip)
  {
  }

  lemma ExpiresLook(a: Snapshot, b: Snapshot, due: set<Id>, skip: seq<Id>, x: Id)
    requires Expires(a, b, due, skip) && x !in skip
    ensures Look(b, x) == if x in due then Look(a, x).Fired() else Look(a, x)
  {
  }

  /** From `a` to `b` the timer `x` of a common queue ran, which made the due events of that queue active. */
  ghost predicate Triggered(a: Snapshot, b: Snapshot, triggers: seq<Id>, x: Id, now: nat) {
    exists k, due :: 0 <= k < |triggers| && triggers[k] == x && DueIn(a, now, k, due) && Expires(a, b, due, [x])
  }

  /** `due` are the events of common queue `k` whose deadline has come. */
  ghost predicate DueIn(a: Snapshot, now: nat, k: int, due: set<Id>) {
    forall x :: x in due <==> Look(a, x).Expired(now) && Look(a, x).queue == k
  }

  /** From `a` to `b` exactly the due events of common queue `k` became active, `x` aside. */
  ghost predicate QueueFired(a: Snapshot, b: Snapshot, x: Id, now: nat, k: int) {
    forall y :: y != x ==> Look(b, y) == if Look(a, y).Expired(now) && Look(a, y).queue == k then Look(a, y).Fired() else Look(a, y)
  }

  lemma TriggerLooks(a: Snapshot, b: Snapshot, triggers: seq<Id>, x: Id, now: nat)
    requires Triggered(a, b, triggers, x, now)
    ensures exists k :: 0 <= k < |triggers| && triggers[k] == x && QueueFired(a, b, x, now, k)
  {
    hide Look;
    var k, due :| 0 <= k < |triggers| && triggers[k] == x && DueIn(a, now, k, due) && Expires(a, b, due, [x]);
    assert QueueFired(a, b, x, now, k);
  }

  /** From `a` to `b` callback `x` goes to `s`, and no other changes. */
  ghost predicate Becomes(a: Snapshot, b: Snapshot, x: Id, s: Status) {
    Look(b, x) == s && forall y :: y != x ==> Look(b, y) == Look(a, y)
  }

  lemma SetBecomes(a: Snapshot, b: Snapshot, x: Id, period: Timeval, when: nat, queue: int)
    requires b.run.later == a.run.later && b.inserted == a.inserted && b.res == a.res && b.period == a.period[x := period]
    requires x in a.res && b.run.active == a.run.active - (if Timeout in a.res[x] then {x} else {})
    requires Timed(Retimed(if x in a.time.flag then Untimed(a.time, x) else a.time, x, when, queue), b.time, x)
    ensures Becomes(a, b, x, Look(a, x).(period := period).Until(when, queue))
  {
    hide Timed, Untimed, Retimed;
    OthersKept(a.time, b.time, x, when, queue);
  }

  /** Setting one event's timeout touches no other event. */
  lemma OthersKept(t: Timing, u: Timing, x: Id, when: nat, queue: int)
    requires Timed(Retimed(if x in t.flag then Untimed(t, x) else t, x, when, queue), u, x)
    ensures forall y :: y != x ==>
      && (y in u.flag <==> y in t.flag) && Due(u.deadline, y) == Due(t.deadline, y)
      && (y in u.queueOf <==> y in t.queueOf) && (y in t.queueOf ==> u.queueOf[y] == t.queueOf[y])
    ensures x in u.flag && Due(u.deadline, x) == when && x in u.queueOf && u.queueOf[x] == queue
  {
    hide Unqueued;
  }

  lemma InsertBecomes(a: Snapshot, b: Snapshot, x: Id)
    requires b == a.(inserted := a.inserted + {x})
    ensures Becomes(a, b, x, Look(a, x).(inserted := true))
  {
  }

  lemma DropBecomes(a: Snapshot, b: Snapshot, x: Id)
    requires b == a.(run := b.run) && b.run.active == a.run.active - {x} && b.run.later == a.run.later
    ensures Becomes(a, b, x, Look(a, x).(active := false))
  {
  }

  lemma BecomesExpires(a: Snapshot, b: Snapshot, x: Id, s: Status)
    requires Becomes(a, b, x, s)
    ensures Expires(a, b, {}, [x])
  {
    hide Look;
  }

  /** `order` lists the events `due` by their deadlines, none of which is behind one of `left`. */
  ghost predicate Ordered(order: seq<Id>, due: set<Id>, left: set<Id>, deadline: map<Id, nat>) {
    && Lists(order, due) && Sorted(order, deadline)
    && forall i, y :: 0 <= i < |order| && y in left ==> Due(deadline, order[i]) <= Due(deadline, y)
  }

  lemma NoOrder(deadline: map<Id, nat>, left: set<Id>)
    ensures Ordered([], {}, left, deadline)
  {
  }

  lemma OrderNext(order: seq<Id>, due: set<Id>, left: set<Id>, deadline: map<Id, nat>, x: Id)
    requires Ordered(order, due, left, deadline) && Earliest(left, deadline, x) && x !in due
    ensures x !in order && Ordered(order + [x], due + {x}, left - {x}, deadline)
  {
    hide Due;
    AppendLists(order, due, x);
    var r := order + [x];
    forall i, y | 0 <= i < |r| && y in left - {x}
      ensures Due(deadline, r[i]) <= Due(deadline, y)
    {
      if i < |order| {
        assert r[i] == order[i];
      }
    }
  }

  class Loop {
    var kinds: Kinds
    var run: Running
    var time: Timing
    var clock: Clock
    var commons: Commons
    var inserted: set<Id>
    var finalizing: set<Id>
    var res: map<Id, set<What>>
    var eventCount: int

    /** What event_base_assert_ok_nolock_ checks, and more. */
    ghost predicate Core()
      reads this
    {
      && Ok(kinds, run, time, commons, inserted, finalizing, res)
      && eventCount == Tally(kinds, inserted, run, time.flag)
      && ClockOk(kinds.cyclic, time, clock)
    }

    /** `Core`, and the timer of every common queue but `k` is set or has fired. */
    ghost predicate ArmedBut(k: int)
      reads this
    {
      Core() && AllArmed(time, commons, run.active, k)
    }

    ghost predicate Valid()
      reads this
    {
      ArmedBut(-1)
    }

    /** A callback the program owns. */
    ghost predicate User(x: Id)
      reads this
    {
      x in kinds.pri && x !in commons.triggers
    }

    ghost function Snap(): Snapshot
      reads this
    {
      Snapshot(run, time, inserted, res, clock.period)
    }

    ghost function Now(): View
      reads this
    {
      View(kinds, run, time, clock, commons, inserted, finalizing, res, eventCount)
    }

    ghost function StatusOf(x: Id): Status
      reads this
    {
      Look(Snap(), x)
    }

    lemma Views()
      ensures forall x {:trigger Now().Of(x)} :: Now().Of(x) == StatusOf(x)
      ensures forall x {:trigger Now().User(x)} :: Now().User(x) <==> User(x)
    {
    }

    constructor (priorities: nat)
      requires priorities > 0
      ensures Valid() && kinds.pri == map[] && |run.queues| == priorities && time.common == []
    {
      hide Ok, Tally, ClockOk;
      kinds := Kinds(map[], {}, {}, {}, {}, {});
      run := Running({}, {}, seq(priorities, _ => []), [], 0);
      time, commons, clock := Timing({}, {}, [], map[], map[]), Commons([], []), Clock([], map[], map[]);
      inserted, finalizing, res, eventCount := {}, {}, map[], 0;
      new;
      EmptyOk(run.queues);
      EmptyClock();
    }

    /** event_queue_insert_inserted. */
    method InsertInserted(x: Id)
      requires Core() && x !in commons.triggers && x in kinds.events && x !in inserted && x !in finalizing
      modifies this`inserted, this`eventCount
      ensures Core() && inserted == old(inserted) + {x}
    {
      hide Ok, Tally, ClockOk;
      InsertedKeeps(kinds, run, time, commons, inserted, finalizing, res, x);
      eventCount := eventCount + Weight(kinds, x);
      inserted := inserted + {x};
    }

    /** event_queue_remove_inserted. */
    method RemoveInserted(x: Id)
      requires Core() && x in inserted
      modifies this`inserted, this`eventCount
      ensures Core() && inserted == old(inserted) - {x}
    {
      hide Ok, Tally, ClockOk;
      InsertedKeeps(kinds, run, time, commons, inserted, finalizing, res, x);
      eventCount := eventCount - Weight(kinds, x);
      inserted := inserted - {x};
    }

    /** event_queue_insert_active. */
    method InsertActive(x: Id)
      requires Core() && x in kinds.pri && x !in run.later
      requires x in commons.triggers ==> x in res && res[x] == {Timeout}
      modifies this`run, this`eventCount
      ensures Core() && run.active == old(run.active) + {x} && run.later == old(run.later)
      ensures 0 <= kinds.pri[x] < |old(run.queues)|
      ensures run == if x in old(run.active) then old(run) else Activated(kinds, old(run), x)
    {
      hide Ok, Tally, ClockOk;
      Kind(kinds, run, time, commons, inserted, finalizing, res, x);
      if x in run.active {
        assert run.active == run.active + {x};
        return;
      }
      ActivatedKeeps(kinds, run, time, commons, inserted, finalizing, res, x);
      eventCount := eventCount + Weight(kinds, x);
      var p := kinds.pri[x];
      run := Running(run.active + {x}, run.later, run.queues[p := run.queues[p] + [x]], run.laterQueue, run.count + 1);
    }

    /** event_queue_remove_active. */
    method RemoveActive(x: Id)
      requires Core() && x in run.active
      modifies this`run, this`eventCount
      ensures Core() && run.active == old(run.active) - {x} && run.later == old(run.later)
      ensures run == Idle(kinds, old(run), x)
    {
      hide Ok, Tally, ClockOk, Without, Idle;
      Kind(kinds, run, time, commons, inserted, finalizing, res, x);
      DeactivatedKeeps(kinds, run, time, commons, inserted, finalizing, res, x);
      IdleActive(kinds, run, x);
      eventCount := eventCount - Weight(kinds, x);
      var p := kinds.pri[x];
      run := Running(run.active - {x}, run.later, run.queues[p := Without(run.queues[p], x)], run.laterQueue, run.count - 1);
    }

    /** event_queue_insert_active_later. */
    method InsertActiveLater(x: Id)
      requires Core() && User(x)
      modifies this`run, this`eventCount
      ensures Core()
      ensures run == if x in old(run.active) + old(run.later) then old(run) else Postponed(old(run), x)
    {
      hide Ok, Tally, ClockOk;
      if x in run.active || x in run.later {
        return;
      }
      PostponedKeeps(kinds, run, time, commons, inserted, finalizing, res, x);
      eventCount := eventCount + Weight(kinds, x);
      run := Running(run.active, run.later + {x}, run.queues, run.laterQueue + [x], run.count + 1);
    }

    /** event_queue_remove_active_later. */
    method RemoveActiveLater(x: Id)
      requires Core() && x in run.later
      modifies this`run, this`eventCount
      ensures Core() && run.active == old(run.active) && run.later == old(run.later) - {x}
      ensures run == Idle(kinds, old(run), x)
    {
      hide Ok, Tally, ClockOk, Without, Idle;
      Kind(kinds, run, time, commons, inserted, finalizing, res, x);
      ForgottenKeeps(kinds, run, time, commons, inserted, finalizing, res, x);
      IdleLater(kinds, run, x);
      eventCount := eventCount - Weight(kinds, x);
      run := Running(run.active, run.later - {x}, run.queues, Without(run.laterQueue, x), run.count - 1);
    }

    /** event_queue_remove_timeout. */
    method RemoveTimeout(x: Id)
      requires Core() && x in time.flag
      modifies this`time, this`clock, this`eventCount
      ensures Core() && time == Untimed(old(time), x)
      ensures clock.stamp == old(clock.stamp) && clock.period == old(clock.period)
    {
      hide Tally, ClockOk, RunOk, TimeOk, KeysOk, WaitOk, TriggersOk, Untimed;
      UntimedKeeps(kinds, run, time, commons, inserted, finalizing, res, x);
      eventCount := eventCount - Weight(kinds, x);
      time, clock := EraseTimed(kinds.cyclic, time, clock, x);
    }

    /** event_queue_insert_timeout. */
    method InsertTimeout(x: Id)
      requires Core() && x in kinds.events && x !in finalizing && x !in time.flag && x in time.queueOf
      modifies this`time, this`clock, this`eventCount
      ensures Core() && Timed(old(time), time, x) && |time.common| == |old(time.common)|
      ensures clock.stamp == old(clock.stamp) && clock.period == old(clock.period)
    {
      hide Tally, ClockOk, Timed, RunOk, TimeOk, KeysOk, WaitOk, TriggersOk;
      var u, d := InsertTimed(kinds.cyclic, time, clock, x);
      TimedKeeps(kinds, run, time, commons, inserted, finalizing, res, u, x);
      eventCount := eventCount + Weight(kinds, x);
      time, clock := u, d;
    }

    /** event_del_nolock_ for an event, event_callback_cancel_nolock_ for a bare callback. */
    method Del(x: Id)
      requires Core() && x in kinds.pri
      modifies this`inserted, this`run, this`time, this`clock, this`eventCount
      ensures Core()
      ensures x in finalizing ==> inserted == old(inserted) && run == old(run) && time == old(time)
      ensures x !in finalizing ==>
        && inserted == old(inserted) - {x}
        && run.active == old(run.active) - {x} && run.later == old(run.later) - {x} && run == Idle(kinds, old(run), x)
        && time == if x in old(time.flag) then Untimed(old(time), x) else old(time)
      ensures clock.stamp == old(clock.stamp) && clock.period == old(clock.period)
    {
      hide Ok, Tally, ClockOk, Without, Untimed, Idle;
      Kind(kinds, run, time, commons, inserted, finalizing, res, x);
      if x in finalizing {
        return;
      }
      IdleNot(kinds, run, x);
      if x in time.flag {
        RemoveTimeout(x);
      }
      if x in run.active {
        RemoveActive(x);
      } else if x in run.later {
        RemoveActiveLater(x);
      }
      if x in inserted {
        RemoveInserted(x);
      }
    }

    /** event_callback_activate_nolock_. */
    method ActivateCallback(x: Id) returns (added: bool)
      requires Core() && x in kinds.pri && (x in commons.triggers ==> x in res && res[x] == {Timeout})
      modifies this`run, this`eventCount
      ensures Core()
      ensures added <==> x !in finalizing && x !in old(run.active) && x !in old(run.later)
      ensures x in finalizing ==> run == old(run)
      ensures x !in finalizing ==>
        run.active == old(run.active) + {x} && run.later == old(run.later) - {x} && run == Woken(kinds, old(run), x)
    {
      hide Ok, Tally, ClockOk, Idle;
      if x !in run.active {
        ValidPriority(x);
        WokenIs(kinds, run, x);
      }
      IdleNot(kinds, run, x);
      Kind(kinds, run, time, commons, inserted, finalizing, res, x);
      if x in finalizing {
        return false;
      }
      added := true;
      if x in run.later {
        RemoveActiveLater(x);
        added := false;
      } else if x in run.active {
        assert run.active == run.active + {x} && run.later == run.later - {x};
        return false;
      }
      InsertActive(x);
    }

    lemma ValidPriority(x: Id)
      requires Core() && x in kinds.pri
      ensures 0 <= kinds.pri[x] < |run.queues|
    {
      hide Tally, ClockOk, RunOk, TimeOk, WaitOk, TriggersOk;
    }

    /** event_active_nolock_. */
    method Activate(x: Id, why: set<What>)
      requires Core() && x in kinds.pri && (x in commons.triggers ==> why == {Timeout})
      modifies this`res, this`run, this`eventCount
      ensures Core()
      ensures x in finalizing ==> run == old(run) && res == old(res)
      ensures x !in finalizing ==>
        && run.active == old(run.active) + {x} && run.later == old(run.later) - {x} && run == Woken(kinds, old(run), x)
        && x in old(res)
        && res == old(res)[x := if x in old(run.active) || x in old(run.later) then old(res)[x] + why else why]
    {
      hide Ok, Tally, ClockOk, Woken;
      Kind(kinds, run, time, commons, inserted, finalizing, res, x);
      if x in finalizing {
        return;
      }
      var w := if x in run.active || x in run.later then res[x] + why else why;
      TriggerReason(x);
      ResKeeps(kinds, run, time, commons, inserted, finalizing, res, x, w);
      res := res[x := w];
      var _ := ActivateCallback(x);
    }

    lemma TriggerReason(x: Id)
      requires Core()
      ensures x in commons.triggers && x in run.active + run.later ==> x in res && res[x] == {Timeout} && res[x] + {Timeout} == {Timeout}
    {
      hide Tally, ClockOk, RunOk, TimeOk, KeysOk, WaitOk;
    }

    /** event_active_later_nolock_. */
    method ActivateLater(x: Id, why: set<What>)
      requires Core() && User(x)
      modifies this`res, this`run, this`eventCount
      ensures Core() && x in old(res)
      ensures res == old(res)[x := if x in old(run.active) || x in old(run.later) then old(res)[x] + why else why]
      ensures run == if x in old(run.active) + old(run.later) then old(run) else Postponed(old(run), x)
    {
      hide Ok, Tally, ClockOk;
      Kind(kinds, run, time, commons, inserted, finalizing, res, x);
      var w := if x in run.active || x in run.later then res[x] + why else why;
      ResKeeps(kinds, run, time, commons, inserted, finalizing, res, x, w);
      res := res[x := w];
      InsertActiveLater(x);
    }

    /** event_queue_make_later_events_active. */
    method MakeLaterActive()
      requires Core()
      modifies this`run
      ensures Core() && run.later == {} && run.laterQueue == []
      ensures run.active == old(run.active) + old(run.later) && run.count == old(run.count)
      ensures |run.queues| == |old(run.queues)|
      ensures forall p :: 0 <= p < |run.queues| ==>
        run.queues[p] == old(run.queues)[p] + OfQueue(old(run.laterQueue), kinds.pri, p)
    {
      hide Ok, Tally, ClockOk, OfQueue;
      ghost var start := run;
      LaterListed();
      assert run.active + run.later == old(run.active) + old(run.later);
      while run.laterQueue != []
        invariant Core() && run.active + run.later == old(run.active) + old(run.later) && run.count == old(run.count)
        invariant forall x :: x in run.laterQueue <==> x in run.later
        invariant |run.queues| == |start.queues|
        invariant forall p :: 0 <= p < |run.queues| ==>
          run.queues[p] + OfQueue(run.laterQueue, kinds.pri, p) == start.queues[p] + OfQueue(start.laterQueue, kinds.pri, p)
        decreases |run.laterQueue|
      {
        var x := run.laterQueue[0];
        ghost var before := run;
        Kind(kinds, run, time, commons, inserted, finalizing, res, x);
        PromotedKeeps(kinds, run, time, commons, inserted, finalizing, res);
        var p := kinds.pri[x];
        run := Running(run.active + {x}, run.later - {x}, run.queues[p := run.queues[p] + [x]], run.laterQueue[1..], run.count);
        PromotedOrder(kinds, before);
        LaterListed();
      }
      assert run.later == {};
      NothingOf(kinds.pri);
    }

    static lemma NothingOf(of: map<Id, int>)
      ensures forall p :: OfQueue([], of, p) == []
    {
    }

    /** Promoting the first later callback keeps, for each priority, the order of all that run. */
    static lemma PromotedOrder(k: Kinds, r: Running)
      requires r.laterQueue != [] && r.laterQueue[0] in k.pri && 0 <= k.pri[r.laterQueue[0]] < |r.queues|
      ensures var s := Promoted(k, r);
              |s.queues| == |r.queues| && forall p :: 0 <= p < |r.queues| ==>
                s.queues[p] + OfQueue(s.laterQueue, k.pri, p) == r.queues[p] + OfQueue(r.laterQueue, k.pri, p)
    {
      var s, x := Promoted(k, r), r.laterQueue[0];
      forall p | 0 <= p < |r.queues|
        ensures s.queues[p] + OfQueue(s.laterQueue, k.pri, p) == r.queues[p] + OfQueue(r.laterQueue, k.pri, p)
      {
        if p == k.pri[x] {
          Assoc(r.queues[p], [x], OfQueue(s.laterQueue, k.pri, p));
        }
      }
    }

    lemma LaterListed()
      requires Core()
      ensures forall x :: x in run.laterQueue <==> x in run.later
    {
      hide Tally, ClockOk, TimeOk, KeysOk, WaitOk, TriggersOk;
    }

    /** Leave any timeout structure, and the active queue if a timeout is among the reasons to be there. */
    method Unset(x: Id)
      requires Core() && x in kinds.events
      modifies this`run, this`time, this`clock, this`eventCount
      ensures Core() && x in res && x !in time.flag
      ensures run.active == old(run.active) - (if Timeout in res[x] then {x} else {}) && run.later == old(run.later)
      ensures run == if x in old(run.active) && Timeout in res[x] then Idle(kinds, old(run), x) else old(run)
      ensures time == if x in old(time.flag) then Untimed(old(time), x) else old(time)
      ensures clock.stamp == old(clock.stamp) && clock.period == old(clock.period)
    {
      hide Ok, Tally, ClockOk, Untimed;
      Kind(kinds, run, time, commons, inserted, finalizing, res, x);
      UntimedShape(time, x);
      if x in time.flag {
        RemoveTimeout(x);
      }
      if x in run.active && Timeout in res[x] {
        RemoveActive(x);
      }
    }

    /** Take a new word and period, and join the structure that names. */
    method Retime(x: Id, stamp: Timeval, period: Timeval, ghost when: nat, ghost queue: int)
      requires Core() && x in kinds.events && x !in finalizing && x !in time.flag && queue < |time.common|
      requires x in commons.triggers ==> queue == -1
      requires Names(stamp, when, queue) && PeriodOk(stamp, period) && (x !in kinds.cyclic ==> period == ZERO)
      modifies this`time, this`clock, this`eventCount
      ensures Core() && |time.common| == |old(time.common)| && Timed(Retimed(old(time), x, when, queue), time, x)
      ensures clock.stamp == old(clock.stamp)[x := stamp] && clock.period == old(clock.period)[x := period]
    {
      hide Ok, Tally, ClockOk, Timed, Names, PeriodOk, Deadline, QueueNumber;
      Kind(kinds, run, time, commons, inserted, finalizing, res, x);
      RetimedKeeps(kinds, run, time, commons, inserted, finalizing, res, x, when, queue);
      OkTimes();
      StampedKeeps(kinds.cyclic, time, clock, x, stamp, period, when, queue);
      StampDecodes(stamp, when, queue);
      time := time.(deadline := time.deadline[x := Deadline(stamp)], queueOf := time.queueOf[x := QueueNumber(stamp, |time.common|)]);
      clock := clock.(stamp := clock.stamp[x := stamp], period := clock.period[x := period]);
      InsertTimeout(x);
    }

    /** The timeout part of event_add_nolock_: leave any timeout structure, stop being active for an
        earlier timeout, take the new deadline, and join the structure it belongs to. */
    method SetTimeout(x: Id, stamp: Timeval, period: Timeval, ghost when: nat, ghost queue: int)
      requires Core() && x in kinds.events && x !in finalizing && queue < |time.common|
      requires x in commons.triggers ==> queue == -1
      requires Names(stamp, when, queue) && PeriodOk(stamp, period) && (x !in kinds.cyclic ==> period == ZERO)
      modifies this`run, this`time, this`clock, this`eventCount
      ensures Core() && |time.common| == |old(time.common)| && run.later == old(run.later)
      ensures old(run.active) - {x} <= run.active && x in res
      ensures run == if x in old(run.active) && Timeout in res[x] then Idle(kinds, old(run), x) else old(run)
      ensures Timed(Retimed(if x in old(time.flag) then Untimed(old(time), x) else old(time), x, when, queue), time, x)
      ensures Becomes(old(Snap()), Snap(), x, old(StatusOf(x)).(period := period).Until(when, queue))
    {
      hide Ok, Tally, ClockOk, Untimed, Timed, Retimed, Names, PeriodOk, Becomes, Look, Idle;
      UntimedShape(time, x);
      Unset(x);
      Retime(x, stamp, period, when, queue);
      SetBecomes(old(Snap()), Snap(), x, period, when, queue);
    }

    lemma StampDecodes(stamp: Timeval, when: nat, queue: int)
      requires Core() && Names(stamp, when, queue) && queue < |time.common|
      ensures Deadline(stamp) == when && QueueNumber(stamp, |time.common|) == queue
    {
      hide RunOk, TimeOk, KeysOk, WaitOk, Tally, ClockOk, Deadline, IsCommon;
      Decoded(stamp, when, queue, |time.common|);
    }

    lemma OkTimes()
      requires Core()
      ensures TimeOk(time)
    {
      hide Tally, ClockOk, RunOk, TimeOk, KeysOk, WaitOk, TriggersOk;
    }

    /** common_timeout_schedule: the timer of common queue `k` is set for its head's deadline. */
    method Schedule(k: nat)
      requires ArmedBut(k) && k < |time.common| && time.common[k] != []
      modifies this`run, this`time, this`clock, this`eventCount
      ensures Valid() && time.common == old(time.common) && run.later == old(run.later)
      ensures Expires(old(Snap()), Snap(), {}, [commons.triggers[k]])
      ensures StatusOf(commons.triggers[k]).timed
      ensures run == if commons.triggers[k] in old(run.active) then Idle(kinds, old(run), commons.triggers[k]) else old(run)
    {
      hide Idle, Ok, Tally, ClockOk, Timed, AllArmed, Untimed, Retimed, Plain, Names, PeriodOk, Look, Expires;
      TriggersCount();
      var x := commons.triggers[k];
      TriggerFacts(k);
      TriggerReason(x);
      HeadWord(k);
      ghost var when := Due(time.deadline, time.common[k][0]);
      SetTimeout(x, Plain(clock.stamp[time.common[k][0]]), clock.period[x], when, -1);
      OkTime();
      ArmedTrigger(old(time), time, commons, old(run.active), run.active, k, when);
      BecomesExpires(old(Snap()), Snap(), x, StatusOf(x));
    }

    /** The word of a queue's head, without its magic, is its deadline on the heap. */
    lemma HeadWord(k: nat)
      requires Core() && k < |time.common| && k < |commons.triggers| && time.common[k] != []
      ensures var h, x := time.common[k][0], commons.triggers[k];
              h in clock.stamp && x in clock.period && Names(Plain(clock.stamp[h]), Due(time.deadline, h), -1)
              && clock.period[x] == ZERO && PeriodOk(Plain(clock.stamp[h]), ZERO)
    {
      hide Tally, ClockOk, RunOk, WaitOk, Names, Deadline;
      var h, x := time.common[k][0], commons.triggers[k];
      assert h in time.common[k] && x in commons.triggers;
      WordTells(kinds.cyclic, time, clock, h);
      WordTells(kinds.cyclic, time, clock, x);
      PlainWord(clock.stamp[h]);
    }

    static lemma PlainWord(head: Timeval)
      requires Micros(head) < MILLION
      ensures Names(Plain(head), Deadline(head), -1)
    {
    }

    lemma TriggerFacts(k: nat)
      requires Core() && k < |commons.triggers|
      ensures var x := commons.triggers[k];
              && x in kinds.events && x in kinds.pri && x !in finalizing && x in time.queueOf && time.queueOf[x] == -1
              && x in kinds.internal && x !in kinds.persist && x !in inserted && x !in run.later
      ensures Distinct(commons.triggers) && TimeOk(time) && |commons.triggers| == |time.common|
    {
      hide Tally, ClockOk, RunOk;
      assert commons.triggers[k] in commons.triggers;
    }

    twostate lemma OkTime()
      requires old(Core())
      ensures TimeOk(old(time))
    {
      hide Tally, ClockOk, RunOk, TimeOk, KeysOk, WaitOk, TriggersOk;
    }

    /** event_add_nolock_; `ioOk` says that the backend took the event. A relative time counts from `now`,
        and is the period of a cyclic event. */
    method Add(x: Id, tv: Option<Timeval>, absolute: bool, now: Timeval, ioOk: bool) returns (ok: bool)
      requires Valid() && User(x) && x in kinds.events && Normal(now)
      requires tv.Some? ==> Proper(tv.value, |time.common|)
      requires tv.Some? && absolute ==> Micros(tv.value) < MILLION && PeriodOk(tv.value, StatusOf(x).period)
      modifies this`inserted, this`run, this`time, this`clock, this`eventCount
      ensures Valid() && run.later == old(run.later) && |time.common| == |old(time.common)|
      ensures ok <==> x !in finalizing && (old(StatusOf(x)).Enters(x in kinds.watching) ==> ioOk)
      ensures !ok ==> StatusOf(x) == old(StatusOf(x))
      ensures ok ==> var s := old(StatusOf(x)); var s1 := s.(inserted := s.inserted || s.Enters(x in kinds.watching));
        StatusOf(x) == if tv.None? then s1
                       else s1.(period := if x in kinds.cyclic && !absolute then tv.value else s.period)
                              .Until(Deadline(tv.value) + (if absolute then 0 else Deadline(now)), QueueNumber(tv.value, |time.common|))
      ensures forall y :: User(y) && y != x ==> StatusOf(y) == old(StatusOf(y))
      ensures if ok && tv.Some? then Kept(Rescheduled(old(run), x)) else run == old(run)
    {
      hide Loop.Kept, Loop.Rescheduled, Ok, Tally, ClockOk, AllArmed, Deadline, IsCommon, Micros, PeriodOk;
      Kind(kinds, run, time, commons, inserted, finalizing, res, x);
      if x in finalizing {
        return false;
      }
      if x in kinds.watching && !(x in inserted || x in run.active || x in run.later) {
        if !ioOk {
          return false;
        }
        InsertInserted(x);
        InsertBecomes(old(Snap()), Snap(), x);
      }
      hide Look;
      if tv.Some? {
        AddTimeout(x, tv.value, absolute, now);
      }
      return true;
    }

    /** The timeout part of event_add_nolock_, with the common queue's timer. */
    method AddTimeout(x: Id, tv: Timeval, absolute: bool, now: Timeval)
      requires Valid() && User(x) && x in kinds.events && x !in finalizing && Normal(now) && Proper(tv, |time.common|)
      requires absolute ==> Micros(tv) < MILLION && PeriodOk(tv, StatusOf(x).period)
      modifies this`run, this`time, this`clock, this`eventCount
      ensures Valid() && run.later == old(run.later) && |time.common| == |old(time.common)|
      ensures StatusOf(x) == old(StatusOf(x)).(period := if x in kinds.cyclic && !absolute then tv else old(StatusOf(x).period))
                              .Until(Deadline(tv) + (if absolute then 0 else Deadline(now)), QueueNumber(tv, |time.common|))
      ensures forall y :: User(y) && y != x ==> StatusOf(y) == old(StatusOf(y))
      ensures Kept(Rescheduled(old(run), x))
    {
      hide Loop.Kept, Loop.Rescheduled, Ok, Tally, ClockOk, Timed, AllArmed, Untimed, Retimed, Deadline, IsCommon, Micros, PeriodOk, Stamp, Names, IsSame;
      WordBound(x);
      ghost var n := |time.common|;
      var stamp := Stamp(now, tv, absolute, |time.common|);
      StampNames(now, tv, absolute, n);
      var period := if x in kinds.cyclic && !absolute then tv else clock.period[x];
      assert PeriodOk(stamp, period) by {
        NewPeriod(stamp, period, tv);
      }
      JoinQueue(x, stamp, period, Deadline(tv) + (if absolute then 0 else Deadline(now)), QueueNumber(tv, n));
    }

    static lemma NewPeriod(stamp: Timeval, period: Timeval, tv: Timeval)
      requires IsSame(stamp, tv) && Micros(tv) <= MILLION
      requires period == tv || period == ZERO || PeriodOk(tv, period)
      ensures PeriodOk(stamp, period)
    {
    }

    /** The running queues are `r`, but that the timer of a common queue may have left them. */
    ghost predicate Kept(r: Running)
      reads this
    {
      run == r || exists k :: 0 <= k < |commons.triggers| && run == Idle(kinds, r, commons.triggers[k])
    }

    /** `r` without `x` if that was active for a timeout. */
    ghost function Rescheduled(r: Running, x: Id): Running
      reads this
    {
      if x in r.active && x in res && Timeout in res[x] then Idle(kinds, r, x) else r
    }

    /** `x` takes its new word and period, joins the structure that names, and the timer of a common queue it
        now heads is set. */
    method JoinQueue(x: Id, stamp: Timeval, period: Timeval, ghost when: nat, ghost queue: int)
      requires Valid() && User(x) && x in kinds.events && x !in finalizing && queue < |time.common| <= 256
      requires Names(stamp, when, queue) && PeriodOk(stamp, period) && (x !in kinds.cyclic ==> period == ZERO)
      modifies this`run, this`time, this`clock, this`eventCount
      ensures Valid() && run.later == old(run.later) && |time.common| == |old(time.common)|
      ensures StatusOf(x) == old(StatusOf(x)).(period := period).Until(when, queue)
      ensures forall y :: User(y) && y != x ==> StatusOf(y) == old(StatusOf(y))
      ensures Kept(Rescheduled(old(run), x))
    {
      hide Idle, Ok, Tally, ClockOk, Timed, AllArmed, Untimed, Retimed, PeriodOk, Names, IsCommon, Look, Expires;
      Decoded(stamp, when, queue, |time.common|);
      SetTimeout(x, stamp, period, when, queue);
      OkTime();
      ArmedUser(old(time), time, commons, old(run.active), run.active, x, when, queue);
      var k := QueueNumber(stamp, |time.common|);
      if k >= 0 && time.common[k][0] == x {
        ghost var mid := Snap();
        TriggersCount();
        Schedule(k);
        NothingExpires(mid, Snap(), k);
      }
    }

    lemma WordBound(x: Id)
      requires Core() && x in kinds.events
      ensures |time.common| <= 256 && x in clock.stamp && x in clock.period && PeriodOk(clock.stamp[x], clock.period[x])
      ensures x !in kinds.cyclic ==> clock.period[x] == ZERO
      ensures x in time.queueOf && Names(clock.stamp[x], Due(time.deadline, x), time.queueOf[x])
    {
      hide Tally, ClockOk, RunOk, TimeOk, WaitOk, TriggersOk, PeriodOk, Names;
      WordTells(kinds.cyclic, time, clock, x);
    }
    lemma TriggersCount()
      requires Core()
      ensures |commons.triggers| == |time.common|
    {
      hide Tally, ClockOk, RunOk, TimeOk, KeysOk, WaitOk;
    }

    lemma NothingExpires(a: Snapshot, b: Snapshot, k: nat)
      requires k < |commons.triggers| && Expires(a, b, {}, [commons.triggers[k]])
      ensures forall x :: User(x) ==> Look(b, x) == Look(a, x)
    {
      hide Look;
    }

    /** event_del. */
    method Delete(x: Id)
      requires Valid() && User(x)
      modifies this`inserted, this`run, this`time, this`clock, this`eventCount
      ensures Valid()
      ensures StatusOf(x) == if x in finalizing then old(StatusOf(x))
                             else old(StatusOf(x)).Stopped()
      ensures forall y :: y != x ==> StatusOf(y) == old(StatusOf(y))
      ensures run == if x in finalizing then old(run) else Idle(kinds, old(run), x)
    {
      hide Ok, Tally, ClockOk, AllArmed, Untimed, Idle;
      UntimedShape(time, x);
      Del(x);
      OkTime();
      if x !in finalizing {
        if x in old(time.flag) {
          ArmedUntimed(old(time), commons, old(run.active), -1, x, run.active);
        } else {
          ArmedInactive(time, commons, old(run.active), run.active, -1);
        }
      }
    }

    /** A due timeout: event_del_nolock_ and then event_active_nolock_ with EV_TIMEOUT. */
    method Expire(x: Id, ghost but: int)
      requires ArmedBut(but) && x in time.flag
      modifies this`inserted, this`run, this`time, this`clock, this`res, this`eventCount
      ensures ArmedBut(but) && time == Untimed(old(time), x)
      ensures Expires(old(Snap()), Snap(), {x}, [])
      ensures run == Woken(kinds, Idle(kinds, old(run), x), x)
    {
      hide Ok, Tally, ClockOk, AllArmed, Untimed, Idle, Woken;
      Kind(kinds, run, time, commons, inserted, finalizing, res, x);
      UntimedShape(time, x);
      Del(x);
      Activate(x, {Timeout});
      OkTime();
      ArmedUntimed(old(time), commons, old(run.active), but, x, run.active);
    }

    /** One turn of timeout_process: the event due first, if its time has come, is activated. */
    method ExpireEarliest(now: Timeval) returns (x: Option<Id>)
      requires Valid() && Normal(now)
      modifies this`inserted, this`run, this`time, this`clock, this`res, this`eventCount
      ensures Valid() && time.common == old(time.common)
      ensures x.None? ==> Snap() == old(Snap()) && forall y :: y in time.heap ==> Due(time.deadline, y) > Deadline(now)
      ensures x.Some? ==>
        && x.value in old(time.heap) && time.heap == old(time.heap) - {x.value} && old(StatusOf(x.value)).Expired(Deadline(now))
        && Expires(old(Snap()), Snap(), {x.value}, [])
        && Earliest(old(time.heap), old(time.deadline), x.value) && time.deadline == old(time.deadline)
        && run == Woken(kinds, Idle(kinds, old(run), x.value), x.value)
    {
      hide Ok, Tally, ClockOk, AllArmed, Untimed, Expires, AtMost, Deadline, HeapOk, Lists, Idle, Woken;
      HeapArray(kinds.cyclic, time, clock);
      var first := Top(clock.heap, time.deadline, time.heap);
      if first.None? {
        return None;
      }
      var top := first.value;
      TopWord(top, now);
      if !AtMost(clock.stamp[top], now) {
        return None;
      }
      HeapIs(top);
      UntimedShape(time, top);
      HeapOnly(time, top);
      Expire(top, -1);
      return Some(top);
    }

    /** For an event on the heap, comparing its word with the time compares its deadline. */
    lemma TopWord(x: Id, now: Timeval)
      requires Core() && x in time.heap && Normal(now)
      ensures x in clock.stamp && (AtMost(clock.stamp[x], now) <==> Due(time.deadline, x) <= Deadline(now))
    {
      hide ClockOk, AtMost, Deadline, Names, PeriodOk;
      WordTells(kinds.cyclic, time, clock, x);
      PlainIsPlain(now, 0);
      PlainIsPlain(clock.stamp[x], 0);
      SameOrder(clock.stamp[x], now);
    }

    /** For an event of a common queue, the code compares the word without its magic. */
    lemma HeadDue(k: nat, now: Timeval)
      requires Core() && k < |time.common| && time.common[k] != [] && Normal(now)
      ensures var h := time.common[k][0];
              h in clock.stamp && (AtMost(Plain(clock.stamp[h]), now) <==> Due(time.deadline, h) <= Deadline(now))
    {
      hide Tally, ClockOk, RunOk, KeysOk, WaitOk, TriggersOk, AtMost, Deadline, PeriodOk, Names;
      var h := time.common[k][0];
      assert h in time.common[k];
      WordTells(kinds.cyclic, time, clock, h);
      var w := Plain(clock.stamp[h]);
      PlainSame(clock.stamp[h]);
      PlainIsPlain(w, 0);
      PlainIsPlain(now, 0);
      SameOrder(w, now);
    }

    /** The heap holds the timed events without a common queue. */
    lemma HeapIs(x: Id)
      requires Core()
      ensures x in time.heap <==> StatusOf(x).timed && StatusOf(x).queue < 0
      ensures x in time.heap ==> x in time.queueOf && time.queueOf[x] < 0 && x in time.flag
    {
      hide Tally, ClockOk, RunOk, KeysOk, WaitOk, TriggersOk;
    }

    /** timeout_process: every event in the heap whose deadline has come is activated for its timeout,
        and nothing else changes. */
    method TimeoutProcess(now: Timeval) returns (ghost due: set<Id>, ghost order: seq<Id>)
      requires Valid() && Normal(now)
      modifies this`inserted, this`run, this`time, this`clock, this`res, this`eventCount
      ensures Valid() && time.common == old(time.common)
      ensures forall x :: x in due <==> old(StatusOf(x)).Expired(Deadline(now)) && old(StatusOf(x)).queue < 0
      ensures Expires(old(Snap()), Snap(), due, [])
      ensures Lists(order, due) && Sorted(order, old(time.deadline)) && Behind(kinds, old(run), run, order)
    {
      hide Ok, Tally, ClockOk, AllArmed, Loop.Processing, Look, Deadline, Expires;
      ghost var start := Snap();
      HeapsAre();
      RunIsOk();
      due, order := {}, [];
      ProcessingStart(Deadline(now));
      var more := true;
      while more
        invariant Valid() && Processing(start, due, order, Deadline(now))
        invariant !more ==> forall x :: x in time.heap ==> Due(time.deadline, x) > Deadline(now)
        decreases |time.heap|, more
      {
        more, due, order := ExpireNext(now, start, due, order);
      }
      ProcessingDone(start, due, order, Deadline(now));
    }

    lemma HeapsAre()
      requires Core()
      ensures forall x :: x in time.heap <==> StatusOf(x).timed && StatusOf(x).queue < 0
    {
      forall x
        ensures x in time.heap <==> StatusOf(x).timed && StatusOf(x).queue < 0
      {
        HeapIs(x);
      }
    }

    /** Since `start` the events `due` of the heap have been activated, in that order. */
    ghost predicate Processing(start: Snapshot, due: set<Id>, order: seq<Id>, now: nat)
      reads this
    {
      && time.common == start.time.common && time.deadline == start.time.deadline
      && due <= start.time.heap && time.heap == start.time.heap - due
      && (forall x :: x in due ==> Look(start, x).Expired(now)) && Expires(start, Snap(), due, [])
      && Ordered(order, due, time.heap, time.deadline) && Behind(kinds, start.run, run, order)
    }

    lemma ProcessingStart(now: nat)
      ensures Processing(Snap(), {}, [], now)
    {
      hide Behind, Expires, Ordered;
      ExpiresNone(Snap(), []);
      BehindStart(kinds, run);
      NoOrder(time.deadline, time.heap);
    }

    /** One turn of timeout_process. */
    method ExpireNext(now: Timeval, ghost start: Snapshot, ghost due: set<Id>, ghost order: seq<Id>)
      returns (more: bool, ghost due1: set<Id>, ghost order1: seq<Id>)
      requires Valid() && Normal(now) && RunOk(kinds, start.run) && Processing(start, due, order, Deadline(now))
      modifies this`inserted, this`run, this`time, this`clock, this`res, this`eventCount
      ensures Valid() && Processing(start, due1, order1, Deadline(now))
      ensures if more then |time.heap| < |old(time.heap)|
              else time.heap == old(time.heap) && forall x :: x in time.heap ==> Due(time.deadline, x) > Deadline(now)
    {
      hide Ok, Tally, ClockOk, AllArmed, Expires, Look, Deadline, Idle, Woken, Behind, Ordered, RunOk;
      ghost var mid := Snap();
      RunIsOk();
      var x := ExpireEarliest(now);
      if x.None? {
        return false, due, order;
      }
      ExpiresMore(start, mid, Snap(), due, {x.value}, []);
      ExpiresLook(start, mid, due, [], x.value);
      OrderNext(order, due, mid.time.heap, time.deadline, x.value);
      BehindNext(kinds, start.run, mid.run, order, x.value);
      return true, due + {x.value}, order + [x.value];
    }

    lemma ProcessingDone(start: Snapshot, due: set<Id>, order: seq<Id>, now: nat)
      requires Processing(start, due, order, now) && (forall x :: x in time.heap ==> Due(time.deadline, x) > now)
      requires forall x :: x in start.time.heap <==> Look(start, x).timed && Look(start, x).queue < 0
      ensures forall x :: x in due <==> Look(start, x).Expired(now) && Look(start, x).queue < 0
      ensures Expires(start, Snap(), due, []) && Lists(order, due) && Sorted(order, start.time.deadline)
      ensures Behind(kinds, start.run, run, order) && time.common == start.time.common
    {
      hide Look, Behind, Expires, Sorted, Lists;
      forall x | Look(start, x).Expired(now) && Look(start, x).queue < 0
        ensures x in due
      {
        NoneLeft(start, due, start.time.heap, now, x);
      }
    }

    lemma RunIsOk()
      requires Core()
      ensures RunOk(kinds, run)
      ensures forall x :: x in time.flag || x in time.heap ==> x in kinds.pri && 0 <= kinds.pri[x] < |run.queues|
    {
      hide Tally, ClockOk, RunOk, TriggersOk, Bucketed, Sorted;
    }

    /** What is left on the heap is not due, so a due event was activated. */
    lemma NoneLeft(start: Snapshot, due: set<Id>, heap0: set<Id>, now: nat, x: Id)
      requires Expires(start, Snap(), due, []) && x in heap0 && time.heap == heap0 - due && Look(start, x).Expired(now)
      requires forall y :: y in time.heap ==> Due(time.deadline, y) > now
      ensures x in due
    {
      if x !in due {
        ExpiresLook(start, Snap(), due, [], x);
      }
    }

    /** The loop of common_timeout_callback: the due events at the front of queue `k` are activated. */
    method ExpireQueue(k: nat, now: Timeval) returns (ghost due: set<Id>, ghost order: seq<Id>)
      requires Normal(now) && ArmedBut(k) && k < |time.common|
      modifies this`inserted, this`run, this`time, this`clock, this`res, this`eventCount
      ensures ArmedBut(k) && |time.common| == |old(time.common)|
      ensures forall j :: 0 <= j < |time.common| && j != k ==> time.common[j] == old(time.common)[j]
      ensures forall x :: x in due <==> old(StatusOf(x)).Expired(Deadline(now)) && old(StatusOf(x)).queue == k
      ensures Expires(old(Snap()), Snap(), due, [])
      ensures order <= old(time.common)[k] && (forall x :: x in order <==> x in due) && Behind(kinds, old(run), run, order)
    {
      hide Ok, Tally, ClockOk, AllArmed, Loop.Draining, Look, Expires, Behind, Deadline;
      ghost var start, q := Snap(), time.common[k];
      QueueHolds(k);
      QueueDistinct(k);
      RunIsOk();
      ghost var i := 0;
      due := {};
      DrainingStart(k, Deadline(now));
      var more := DueHead(k, now);
      while more
        invariant ArmedBut(k) && Draining(start, q, i, due, k, Deadline(now)) && k < |time.common| && 0 <= i <= |q|
        invariant more <==> time.common[k] != [] && Due(time.deadline, time.common[k][0]) <= Deadline(now)
        decreases |q| - i, more
      {
        i, due := ExpireHead(k, Deadline(now), start, q, i, due);
        more := DueHead(k, now);
      }
      order := q[..i];
      DrainingDone(start, q, i, due, k, Deadline(now));
    }

    /** Since `start` the first `i` events of queue `k`, which held `q`, have been activated, in order. */
    ghost predicate Draining(start: Snapshot, q: seq<Id>, i: int, due: set<Id>, k: nat, now: nat)
      reads this
    {
      && 0 <= i <= |q| && k < |time.common| == |start.time.common| && time.common[k] == q[i..]
      && (forall j :: 0 <= j < |time.common| && j != k ==> time.common[j] == start.time.common[j])
      && (forall x :: x in q[..i] <==> x in due)
      && (forall x :: x in due ==> Look(start, x).Expired(now) && Look(start, x).queue == k)
      && Expires(start, Snap(), due, []) && Behind(kinds, start.run, run, q[..i])
    }

    lemma DrainingStart(k: nat, now: nat)
      requires k < |time.common|
      ensures Draining(Snap(), time.common[k], 0, {}, k, now)
    {
      hide Behind, Expires, Look;
      ExpiresNone(Snap(), []);
      BehindStart(kinds, run);
      assert time.common[k][..0] == [];
    }

    /** One turn of common_timeout_callback. */
    method ExpireHead(k: nat, ghost now: nat, ghost start: Snapshot, ghost q: seq<Id>, ghost i: int, ghost due: set<Id>)
      returns (ghost i1: int, ghost due1: set<Id>)
      requires ArmedBut(k) && k < |time.common| && time.common[k] != [] && Due(time.deadline, time.common[k][0]) <= now
      requires RunOk(kinds, start.run) && Distinct(q) && Draining(start, q, i, due, k, now)
      modifies this`inserted, this`run, this`time, this`clock, this`res, this`eventCount
      ensures ArmedBut(k) && i1 == i + 1 <= |q| && k < |time.common| && Draining(start, q, i1, due1, k, now)
    {
      hide Ok, Tally, ClockOk, AllArmed, Expires, Look, Untimed, Idle, Woken, Behind, RunOk, Distinct;
      ghost var mid := Snap();
      var x := time.common[k][0];
      QueueHead(k);
      UntimedShape(time, x);
      RunIsOk();
      NotBefore(q, i);
      BehindNext(kinds, start.run, run, q[..i], x);
      Expire(x, k);
      ExpiresMore(start, mid, Snap(), due, {x}, []);
      ExpiresLook(start, mid, due, [], x);
      PrefixNext(q, i, due);
      return i + 1, due + {x};
    }

    lemma DrainingDone(start: Snapshot, q: seq<Id>, i: int, due: set<Id>, k: nat, now: nat)
      requires Core() && Draining(start, q, i, due, k, now) && (time.common[k] == [] || Due(time.deadline, time.common[k][0]) > now)
      requires forall x :: Look(start, x).timed && Look(start, x).queue == k ==> x in q
      ensures forall x :: x in due <==> Look(start, x).Expired(now) && Look(start, x).queue == k
      ensures |time.common| == |start.time.common| && Expires(start, Snap(), due, []) && Behind(kinds, start.run, run, q[..i])
      ensures forall j :: 0 <= j < |time.common| && j != k ==> time.common[j] == start.time.common[j]
      ensures 0 <= i <= |q| && forall x :: x in q[..i] <==> x in due
    {
      hide Ok, Tally, ClockOk, Look, Expires, Behind;
      forall x | Look(start, x).Expired(now) && Look(start, x).queue == k
        ensures x in due
      {
        if x !in due {
          assert q == q[..i] + q[i..];
          assert x in q[..i] || x in q[i..];
          ExpiresLook(start, Snap(), due, [], x);
          LateQueue(k, now, x);
        }
      }
    }

    lemma QueueDistinct(k: nat)
      requires Core() && k < |time.common|
      ensures Distinct(time.common[k])
    {
      hide Tally, ClockOk, RunOk, KeysOk, WaitOk, TriggersOk, Sorted;
    }

    static lemma PrefixNext(q: seq<Id>, i: nat, due: set<Id>)
      requires i < |q| && forall x :: x in q[..i] <==> x in due
      ensures q[..i + 1] == q[..i] + [q[i]] && q[i..][1..] == q[i + 1..] && forall x :: x in q[..i + 1] <==> x in due + {q[i]}
    {
    }

    static lemma NotBefore(q: seq<Id>, i: nat)
      requires Distinct(q) && i < |q|
      ensures q[i..][0] == q[i] && q[i] !in q[..i]
    {
    }

    /** The test of common_timeout_callback's loop. */
    method DueHead(k: nat, now: Timeval) returns (more: bool)
      requires Core() && k < |time.common| && Normal(now)
      ensures more <==> time.common[k] != [] && Due(time.deadline, time.common[k][0]) <= Deadline(now)
    {
      hide Ok, Tally, ClockOk, Deadline, AtMost, Plain;
      if time.common[k] == [] {
        return false;
      }
      HeadDue(k, now);
      return AtMost(Plain(clock.stamp[time.common[k][0]]), now);
    }

    /** The head of a common queue is a timed event of that queue; removing it leaves the rest. */
    lemma QueueHead(k: nat)
      requires Core() && k < |time.common| && time.common[k] != []
      ensures var x := time.common[k][0];
              && x in time.flag && StatusOf(x).timed && StatusOf(x).queue == k
              && StatusOf(x).deadline == Due(time.deadline, x)
              && Unqueued(time, x) == time.common[k := time.common[k][1..]]
    {
      hide Tally, ClockOk, RunOk, KeysOk, WaitOk, TriggersOk, Sorted, Without;
      assert time.common[k][0] in time.common[k];
      FirstOut(time.common[k]);
    }

    /** A common queue holds all the timed events of that queue. */
    lemma QueueHolds(k: nat)
      requires Core() && k < |time.common|
      ensures forall x :: StatusOf(x).timed && StatusOf(x).queue == k ==> x in time.common[k]
    {
      hide Tally, ClockOk, RunOk, KeysOk, WaitOk, TriggersOk, Sorted;
    }

    /** Behind a head that is not due, nothing is. */
    lemma LateQueue(k: nat, now: nat, x: Id)
      requires Core() && k < |time.common| && (time.common[k] == [] || Due(time.deadline, time.common[k][0]) > now)
      ensures x in time.common[k] ==> StatusOf(x).deadline > now
    {
      hide Tally, ClockOk, RunOk, KeysOk, WaitOk, TriggersOk, Due;
      if x in time.common[k] {
        var i :| 0 <= i < |time.common[k]| && time.common[k][i] == x;
        assert Sorted(time.common[k], time.deadline);
      }
    }

    /** The timer event of queue `k`, about to run, leaves every queue. */
    method StopTrigger(k: nat)
      requires Valid() && k < |commons.triggers|
      modifies this`inserted, this`run, this`time, this`clock, this`eventCount
      ensures ArmedBut(k) && k < |time.common| == |old(time.common)|
      ensures Expires(old(Snap()), Snap(), {}, [commons.triggers[k]])
      ensures old(StatusOf(commons.triggers[k])).queue == -1 && StatusOf(commons.triggers[k]).queue == -1
      ensures run == Idle(kinds, old(run), commons.triggers[k]) && time.common == old(time.common)
      ensures commons.triggers[k] !in run.active
    {
      hide Ok, Tally, ClockOk, AllArmed, Untimed, Idle;
      TriggerQueues(k);
      var t := commons.triggers[k];
      TriggerFacts(k);
      UntimedShape(time, t);
      Del(t);
      OkTime();
      assert forall j :: 0 <= j < |commons.triggers| && j != k ==> commons.triggers[j] != t;
      ArmedBut0(old(time), commons, old(run.active), k);
      if t in old(time.flag) {
        ArmedUntimed(old(time), commons, old(run.active), k, t, run.active);
      } else {
        ArmedInactive(time, commons, old(run.active), run.active, k);
      }
    }

    lemma TriggerQueues(k: nat)
      requires Core() && k < |commons.triggers|
      ensures Unqueued(time, commons.triggers[k]) == time.common
    {
      hide Tally, ClockOk, RunOk, TimeOk, KeysOk, WaitOk;
      assert commons.triggers[k] in commons.triggers;
    }

    /** A timer that was idle and is not among the events that expired is idle still. */
    lemma TriggerIdle(mid: Snapshot, due: set<Id>, t: Id)
      requires Expires(mid, Snap(), due, []) && t !in mid.run.active
      requires forall x :: x in due ==> Look(mid, x).queue >= 0
      requires Look(mid, t).queue == -1
      ensures t !in run.active
    {
      ExpiresLook(mid, Snap(), due, [], t);
    }

    static lemma ArmedBut0(t: Timing, c: Commons, active: set<Id>, k: int)
      requires AllArmed(t, c, active, -1)
      ensures AllArmed(t, c, active, k)
    {
    }

    lemma EmptyArmed(k: nat)
      requires ArmedBut(k) && k < |time.common| && time.common[k] == []
      ensures Valid()
    {
      hide Ok, Tally, ClockOk;
    }

    /** The event loop runs the timer of common queue `k`: it leaves every queue, the due events of its
        queue are activated, and it is set again for the next. */
    method RunTrigger(k: nat, now: Timeval) returns (ghost due: set<Id>, ghost order: seq<Id>)
      requires Valid() && Normal(now) && k < |commons.triggers|
      modifies this`inserted, this`run, this`time, this`clock, this`res, this`eventCount
      ensures Valid()
      ensures forall x :: x in due <==> old(StatusOf(x)).Expired(Deadline(now)) && old(StatusOf(x)).queue == k
      ensures Expires(old(Snap()), Snap(), due, [commons.triggers[k]])
      ensures k < |old(time.common)| && order <= old(time.common)[k] && (forall x :: x in order <==> x in due)
      ensures Behind(kinds, Idle(kinds, old(run), commons.triggers[k]), run, order)
    {
      hide Ok, Tally, ClockOk, AllArmed, Expires, Look, Deadline, Idle, Behind;
      ghost var start, t := Snap(), commons.triggers[k];
      TriggersCount();
      StopTrigger(k);
      ghost var mid := Snap();
      due, order := ExpireQueue(k, now);
      TriggerIdle(mid, due, t);
      forall x
        ensures x in due <==> Look(start, x).Expired(Deadline(now)) && Look(start, x).queue == k
      {
        if x != t {
          ExpiresLook(start, mid, {}, [t], x);
        }
      }
      ghost var late := Snap();
      ExpiresSkip(mid, late, due, due, [t]);
      ExpiresMore(start, mid, late, {}, due, [t]);
      assert {} + due == due;
      if time.common[k] != [] {
        Schedule(k);
        ExpiresMore(start, late, Snap(), due, {}, [t]);
        assert due + {} == due;
      } else {
        EmptyArmed(k);
      }
    }

    /** Queue `k`, when the heap holds nothing due: its timer runs if it has fired; if not, nothing in the
        queue is due. */
    method ExpireTurn(k: nat, now: Timeval) returns (ghost due: set<Id>)
      requires Valid() && Normal(now) && k < |commons.triggers|
      requires !StatusOf(commons.triggers[k]).Expired(Deadline(now))
      modifies this`inserted, this`run, this`time, this`clock, this`res, this`eventCount
      ensures Valid()
      ensures forall x :: x in due <==> old(StatusOf(x)).Expired(Deadline(now)) && old(StatusOf(x)).queue == k
      ensures Expires(old(Snap()), Snap(), due, [commons.triggers[k]])
    {
      hide Ok, Tally, ClockOk, AllArmed, Expires, Look, Deadline;
      var t := commons.triggers[k];
      if t in run.active {
        ghost var order;
        due, order := RunTrigger(k, now);
      } else {
        due := {};
        ExpiresNone(Snap(), [t]);
        forall x
          ensures !(StatusOf(x).Expired(Deadline(now)) && StatusOf(x).queue == k)
        {
          NoneDue(k, Deadline(now), x);
        }
      }
    }

    lemma NoneDue(k: nat, now: nat, x: Id)
      requires Valid() && k < |commons.triggers| && commons.triggers[k] !in run.active
      requires !StatusOf(commons.triggers[k]).Expired(now)
      ensures !(StatusOf(x).Expired(now) && StatusOf(x).queue == k)
    {
      hide RunOk, KeysOk, WaitOk, Tally;
      if StatusOf(x).timed && StatusOf(x).queue == k {
        assert x in time.common[k];
        assert Armed(time.common[k], commons.triggers[k], time, run.active);
        LateQueue(k, now, x);
      }
    }

    /** With the cached time at `now`, timeout_process and the timers of the common queues activate
        for their timeouts exactly the program's events that were waiting for a deadline at or before
        `now`, and change no other of the program's callbacks. */
    method ExpireAll(now: Timeval) returns (ghost due: set<Id>)
      requires Valid() && Normal(now)
      modifies this`inserted, this`run, this`time, this`clock, this`res, this`eventCount
      ensures Valid()
      ensures forall x :: User(x) ==> (x in due <==> old(StatusOf(x)).Expired(Deadline(now)))
      ensures forall x :: User(x) ==> StatusOf(x) == if x in due then old(StatusOf(x)).Fired() else old(StatusOf(x))
    {
      hide Ok, Tally, ClockOk, AllArmed, Expires, Look, Deadline;
      ghost var start := Snap();
      QueueBound();
      ghost var heapDue, order := TimeoutProcess(now);
      ghost var mid := Snap();
      due := heapDue - set x | x in commons.triggers;
      ExpiresSkip(start, mid, heapDue, due, commons.triggers);
      forall x
        ensures Look(mid, x).queue < 0 ==> !Look(mid, x).Expired(Deadline(now))
      {
        ExpiresLook(start, mid, heapDue, [], x);
      }
      for k := 0 to |commons.triggers|
        invariant Valid() && Expires(start, Snap(), due, commons.triggers)
        invariant Partly(start, due, Deadline(now), k)
        invariant forall j :: k <= j < |commons.triggers| ==> StatusOf(commons.triggers[j]) == Look(mid, commons.triggers[j])
      {
        ghost var before := Snap();
        Triggers(k);
        ghost var more := ExpireTurn(k, now);
        PartlyNext(start, before, due, more, Deadline(now), k);
        ExpiresWiden(before, Snap(), more, [commons.triggers[k]], commons.triggers);
        ExpiresMore(start, before, Snap(), due, more, commons.triggers);
        forall j | k < j < |commons.triggers|
          ensures StatusOf(commons.triggers[j]) == Look(before, commons.triggers[j])
        {
          ExpiresLook(before, Snap(), more, [commons.triggers[k]], commons.triggers[j]);
        }
        due := due + more;
      }
      forall x | User(x)
        ensures x in due <==> old(StatusOf(x)).Expired(Deadline(now))
        ensures StatusOf(x) == if x in due then old(StatusOf(x)).Fired() else old(StatusOf(x))
      {
        ExpiresLook(start, Snap(), due, commons.triggers, x);
      }
    }

    /** `due` is what of the heap and the queues before `k` was due at `now`. */
    ghost predicate Partly(start: Snapshot, due: set<Id>, now: nat, k: int)
      reads this
    {
      forall x :: x !in commons.triggers ==> (x in due <==> Look(start, x).Expired(now) && Look(start, x).queue < k)
    }

    lemma PartlyNext(start: Snapshot, before: Snapshot, due: set<Id>, more: set<Id>, now: nat, k: nat)
      requires Partly(start, due, now, k) && Expires(start, before, due, commons.triggers)
      requires forall x :: x in more <==> Look(before, x).Expired(now) && Look(before, x).queue == k
      ensures Partly(start, due + more, now, k + 1)
    {
      hide Look;
    }

    /** The triggers are distinct and wait in the heap. */
    lemma Triggers(k: nat)
      requires Core() && k < |commons.triggers|
      ensures Distinct(commons.triggers) && commons.triggers[k] in commons.triggers
      ensures forall j :: 0 <= j < |commons.triggers| ==> StatusOf(commons.triggers[j]).queue == -1
    {
      hide Tally, ClockOk, RunOk, TimeOk, KeysOk, WaitOk;
    }

    lemma QueueBound()
      requires Core()
      ensures forall x :: StatusOf(x).timed ==> StatusOf(x).queue < |commons.triggers|
    {
      hide Tally, ClockOk, RunOk, KeysOk, WaitOk;
    }

    // ----- the program's calls ----------------------------------------------------------------------

    /** event_assign and event_deferred_cb_init_: a new callback, in no queue. */
    method Assign(x: Id, pri: nat, internal: bool, event: bool, watching: bool, persist: bool, signal: bool)
      requires Valid() && x !in kinds.pri && pri < |run.queues|
      modifies this`kinds, this`time, this`clock, this`res
      ensures Valid() && kinds == WithKind(old(kinds), x, pri, internal, event, watching, persist, signal)
      ensures kinds.pri == old(kinds.pri)[x := pri] && (x in kinds.cyclic <==> event && persist && !signal)
      ensures (x in kinds.internal <==> internal || x in old(kinds.internal)) && (x in kinds.events <==> event)
      ensures (x in kinds.watching <==> watching) && (x in kinds.persist <==> persist)
      ensures forall y :: y != x ==> SameKind(y)
      ensures User(x) && StatusOf(x) == Status(false, false, false, false, {}, 0, -1, ZERO)
      ensures time == old(time).(deadline := old(time.deadline)[x := 0], queueOf := old(time.queueOf)[x := -1])
      ensures clock == old(clock).(stamp := old(clock.stamp)[x := ZERO], period := old(clock.period)[x := ZERO])
      ensures res == old(res)[x := {}]
    {
      hide Ok, Tally, ClockOk, AllArmed, Retimed, WithKind;
      KindIs(kinds, x, pri, internal, event, watching, persist, signal);
      var k := WithKind(kinds, x, pri, internal, event, watching, persist, signal);
      AssignedKeeps(kinds, run, time, commons, inserted, finalizing, res, k, x, pri, internal, event, watching, persist, signal);
      NewInNothing(x);
      ArmedRetimed(time, commons, run.active, -1, x, 0, -1);
      RetimedShape(time, x, 0, -1);
      StampedKeeps(kinds.cyclic, time, clock, x, ZERO, ZERO, 0, -1);
      CyclicGrows(kinds.cyclic, k.cyclic, Retimed(time, x, 0, -1), clock.(stamp := clock.stamp[x := ZERO], period := clock.period[x := ZERO]));
      kinds := k;
      time := time.(deadline := time.deadline[x := 0], queueOf := time.queueOf[x := -1]);
      clock := clock.(stamp := clock.stamp[x := ZERO], period := clock.period[x := ZERO]);
      res := res[x := {}];
    }

    static lemma KindIs(k: Kinds, x: Id, pri: nat, internal: bool, event: bool, watching: bool, persist: bool, signal: bool)
      ensures var m := WithKind(k, x, pri, internal, event, watching, persist, signal);
              && m.pri == k.pri[x := pri] && k.cyclic <= m.cyclic
              && (forall y :: y in m.internal <==> y in k.internal || (y == x && internal))
              && (forall y :: y in m.events <==> y in k.events || (y == x && event))
              && (forall y :: y in m.watching <==> y in k.watching || (y == x && watching))
              && (forall y :: y in m.persist <==> y in k.persist || (y == x && persist))
              && (forall y :: y in m.cyclic <==> y in k.cyclic || (y == x && event && persist && !signal))
    {
    }

    /** What kind of callback `y` is has not changed. */
    twostate predicate SameKind(y: Id)
      reads this
    {
      && (y in kinds.internal <==> y in old(kinds.internal)) && (y in kinds.events <==> y in old(kinds.events))
      && (y in kinds.watching <==> y in old(kinds.watching)) && (y in kinds.persist <==> y in old(kinds.persist))
      && (y in kinds.cyclic <==> y in old(kinds.cyclic))
    }

    static lemma RetimedShape(t: Timing, x: Id, when: nat, queue: int)
      ensures Retimed(t, x, when, queue) == t.(deadline := t.deadline[x := when], queueOf := t.queueOf[x := queue])
    {
    }

    lemma NewInNothing(x: Id)
      requires Core() && x !in kinds.pri
      ensures TimeOk(time) && x !in time.flag && x !in run.active && x !in run.later && x !in inserted && x !in finalizing
      ensures x !in commons.triggers && x !in kinds.watching && x !in kinds.persist && |run.queues| > 0
      ensures x !in kinds.events && x !in kinds.cyclic
    {
      hide Tally, ClockOk;
    }

    /** event_base_init_common_timeout: the interval that stands for a duration in this base; `t` is a new
        internal event. */
    method InitCommon(duration: Timeval, t: Id) returns (r: Option<Timeval>)
      requires Valid() && t !in kinds.pri
      modifies this`kinds, this`time, this`clock, this`res, this`commons
      ensures Valid() && |time.common| == |commons.durations|
      ensures var d := Normalised(duration, |old(commons.durations)|);
              && (r.None? <==> d !in old(commons.durations) && |old(commons.durations)| == MAX_COMMON_TIMEOUTS)
              && (d in old(commons.durations) || r.None? ==> commons == old(commons) && Snap() == old(Snap()))
              && (d !in old(commons.durations) && r.Some? ==>
                    commons.durations == old(commons.durations) + [d] && time.common == old(time.common) + [[]])
              && (r.Some? ==>
                    && Proper(r.value, |commons.durations|) && Deadline(r.value) == d.sec * MILLION + d.usec
                    && 0 <= QueueNumber(r.value, |commons.durations|) < |commons.durations|
                    && commons.durations[QueueNumber(r.value, |commons.durations|)] == d)
      ensures forall x :: old(User(x)) ==> User(x) && StatusOf(x) == old(StatusOf(x))
    {
      hide Ok, Tally, ClockOk, AllArmed, Pack, Normalised, IsCommon, Micros, Deadline;
      var d := Normalised(duration, |commons.durations|);
      NormalSize(duration, |commons.durations|);
      SizeOfCommons();
      var i := 0;
      while i < |commons.durations|
        invariant 0 <= i <= |commons.durations| && d !in commons.durations[..i]
      {
        if commons.durations[i] == d {
          Unpack(d.sec, d.usec, i, |commons.durations|);
          return Some(Pack(d.sec, d.usec, i));
        }
        i := i + 1;
      }
      assert commons.durations[..i] == commons.durations;
      if |commons.durations| == MAX_COMMON_TIMEOUTS {
        return None;
      }
      NewCommon(d, t);
      Unpack(d.sec, d.usec, i, i + 1);
      return Some(Pack(d.sec, d.usec, i));
    }

    static lemma NormalSize(tv: Timeval, n: nat)
      ensures Normalised(tv, n).usec <= MILLION
    {
    }

    lemma SizeOfCommons()
      requires Core()
      ensures |commons.durations| == |commons.triggers| == |time.common| <= MAX_COMMON_TIMEOUTS
    {
      hide Tally, ClockOk, RunOk, TimeOk, KeysOk, WaitOk;
    }

    method NewCommon(duration: Timeval, t: Id)
      requires Valid() && t !in kinds.pri && |commons.durations| < MAX_COMMON_TIMEOUTS
      modifies this`kinds, this`time, this`clock, this`res, this`commons
      ensures Valid() && commons.durations == old(commons.durations) + [duration]
      ensures time.common == old(time.common) + [[]]
      ensures forall x :: old(User(x)) ==> User(x) && StatusOf(x) == old(StatusOf(x))
    {
      hide Ok, Tally, ClockOk, AllArmed;
      SizeOfCommons();
      NewInNothing(t);
      Assign(t, 0, true, true, false, false, false);
      CommonKeeps(kinds, run, time, commons, inserted, finalizing, res, t, duration);
      GrownKeeps(kinds.cyclic, time, clock);
      ArmedGrow(time, commons, run.active, duration, t);
      time := time.(common := time.common + [[]]);
      commons := Commons(commons.durations + [duration], commons.triggers + [t]);
    }

    static lemma ArmedGrow(t: Timing, c: Commons, active: set<Id>, duration: Timeval, x: Id)
      requires AllArmed(t, c, active, -1)
      ensures AllArmed(t.(common := t.common + [[]]), Commons(c.durations + [duration], c.triggers + [x]), active, -1)
    {
    }

    /** event_active on the program's own events. */
    method EventActive(x: Id, why: set<What>)
      requires Valid() && User(x)
      modifies this`res, this`run, this`eventCount
      ensures Valid()
      ensures var s := old(StatusOf(x));
              StatusOf(x) == if x in finalizing then s
                             else s.(active := true, later := false, why := if s.active || s.later then s.why + why else why)
      ensures forall y :: y != x ==> StatusOf(y) == old(StatusOf(y))
      ensures run == if x in finalizing then old(run) else Woken(kinds, old(run), x)
    {
      hide Ok, Tally, ClockOk, AllArmed, Woken;
      Activate(x, why);
      ArmedInactive(time, commons, old(run.active), run.active, -1);
    }

    /** event_active_later_ and event_callback_activate_later_nolock_. */
    method EventActiveLater(x: Id, why: set<What>)
      requires Valid() && User(x)
      modifies this`res, this`run, this`eventCount
      ensures Valid()
      ensures var s := old(StatusOf(x));
              StatusOf(x) == if s.active || s.later then s.(why := s.why + why) else s.(later := true, why := why)
      ensures forall y :: y != x ==> StatusOf(y) == old(StatusOf(y))
      ensures run == if old(StatusOf(x).active || StatusOf(x).later) then old(run) else Postponed(old(run), x)
    {
      hide Ok, Tally, ClockOk, AllArmed;
      ActivateLater(x, why);
    }

    /** event_finalize_nolock_. */
    method EventFinalize(x: Id)
      requires Valid() && User(x)
      modifies this`inserted, this`run, this`time, this`clock, this`res, this`finalizing, this`eventCount
      ensures Valid() && finalizing == old(finalizing) + {x}
      ensures x !in old(finalizing) ==>
        StatusOf(x) == old(StatusOf(x)).(active := true, later := false, inserted := false, timed := false, why := {Finalize})
      ensures x in old(finalizing) ==> StatusOf(x) == old(StatusOf(x))
      ensures forall y :: y != x ==> StatusOf(y) == old(StatusOf(y))
      ensures run == if x in old(finalizing) then old(run) else Woken(kinds, Idle(kinds, old(run), x), x)
    {
      hide Ok, Tally, ClockOk, AllArmed, Idle, Woken;
      Kind(kinds, run, time, commons, inserted, finalizing, res, x);
      Delete(x);
      EventActive(x, {Finalize});
      FinalizingKeeps(kinds, run, time, commons, inserted, finalizing, res, x);
      finalizing := finalizing + {x};
    }

    /** event_remove_timer. */
    method RemoveTimer(x: Id)
      requires Valid() && User(x)
      modifies this`time, this`clock, this`eventCount
      ensures Valid()
      ensures StatusOf(x) == if old(StatusOf(x)).timed then old(StatusOf(x)).(timed := false, period := ZERO) else old(StatusOf(x))
      ensures forall y :: y != x ==> StatusOf(y) == old(StatusOf(y))
    {
      hide Ok, Tally, ClockOk, AllArmed, Untimed;
      Kind(kinds, run, time, commons, inserted, finalizing, res, x);
      UntimedShape(time, x);
      if x in time.flag {
        RemoveTimeout(x);
        OkTime();
        ArmedUntimed(old(time), commons, run.active, -1, x, run.active);
        WordBound(x);
        ClearedKeeps(kinds.cyclic, time, clock, x);
        clock := clock.(period := clock.period[x := ZERO]);
      }
    }

    /** The queue work of event_process_active_single_queue for the first callback of priority `p`, and the
        new deadline of a cyclic event. */
    method RunNext(p: nat, now: Timeval, ioOk: bool) returns (x: Option<Id>)
      requires Valid() && p < |run.queues| && Normal(now)
      modifies this`inserted, this`run, this`time, this`clock, this`res, this`eventCount
      ensures Valid() && (x.None? <==> old(run.queues)[p] == [])
      ensures x.None? ==> Now() == old(Now())
      ensures x.Some? ==> x.value == old(run.queues)[p][0] && old(StatusOf(x.value)).active
      ensures x.Some? && User(x.value) ==>
        && StatusOf(x.value) == (var s := old(StatusOf(x.value)).(active := false);
                                 if x.value in finalizing || x.value !in kinds.events then s
                                 else if x.value !in kinds.persist then s.Stopped()
                                 else if x.value in kinds.cyclic then s.Cycled(x.value in kinds.watching, Deadline(now), ioOk)
                                 else s)
        && (forall y :: User(y) && y != x.value ==> StatusOf(y) == old(StatusOf(y)))
        && Kept(Idle(kinds, old(run), x.value))
      ensures x.Some? && !User(x.value) ==>
        Triggered(old(Snap()), Snap(), commons.triggers, x.value, Deadline(now))
    {
      hide Ok, Tally, ClockOk, AllArmed, Expires, Deadline, Idle;
      if run.queues[p] == [] {
        return None;
      }
      var head := run.queues[p][0];
      FirstActive(p);
      if head in commons.triggers {
        var k := IndexOf(commons.triggers, head);
        ghost var due, order := RunTrigger(k, now);
      } else if head in kinds.events && head !in kinds.persist && head !in finalizing {
        Delete(head);
      } else {
        RunKept(head, now, ioOk);
      }
      return Some(head);
    }

    /** A callback that stays registered runs: it leaves the active queue, and a cyclic event with a period
        is added again for its next deadline. */
    method RunKept(x: Id, now: Timeval, ioOk: bool)
      requires Valid() && User(x) && x in run.active && Normal(now)
      modifies this`inserted, this`run, this`time, this`clock, this`eventCount
      ensures Valid()
      ensures StatusOf(x) == (var s := old(StatusOf(x)).(active := false);
                              if x in kinds.cyclic && x !in finalizing then s.Cycled(x in kinds.watching, Deadline(now), ioOk) else s)
      ensures forall y :: User(y) && y != x ==> StatusOf(y) == old(StatusOf(y))
      ensures Kept(Idle(kinds, old(run), x))
    {
      hide Idle, Ok, Tally, ClockOk, AllArmed, Deadline, Again, AgainAt, PeriodOk, Proper;
      RemoveActive(x);
      DropBecomes(old(Snap()), Snap(), x);
      ArmedInactive(time, commons, old(run.active), run.active, -1);
      if x in kinds.cyclic && x !in finalizing {
        CyclicFacts(x, now);
        if clock.period[x] != ZERO {
          var at := Again(clock.stamp[x], clock.period[x], now, Timeout in res[x], |time.common|);
          var _ := Add(x, Some(at), true, now, ioOk);
        }
      }
    }

    /** What event_persist_closure asserts of a cyclic event's words, and what it computes from them. */
    lemma CyclicFacts(x: Id, now: Timeval)
      requires Core() && x in kinds.cyclic && Normal(now)
      ensures x in kinds.events && x in clock.stamp && x in clock.period && x in res && x in time.queueOf
      ensures clock.period[x] != ZERO ==>
        && IsSame(clock.stamp[x], clock.period[x])
        && var at := Again(clock.stamp[x], clock.period[x], now, Timeout in res[x], |time.common|);
           && Proper(at, |time.common|) && Micros(at) < MILLION && PeriodOk(at, clock.period[x])
           && Deadline(at) == AgainAt(Due(time.deadline, x), Deadline(clock.period[x]), Deadline(now), Timeout in res[x])
           && QueueNumber(at, |time.common|) == time.queueOf[x]
    {
      hide Tally, ClockOk, RunOk, TimeOk, WaitOk, TriggersOk, Deadline, Again, AgainAt, Proper, IsCommon;
      WordTells(kinds.cyclic, time, clock, x);
      if clock.period[x] != ZERO {
        var n, timedOut := |time.common|, Timeout in res[x];
        AgainNames(clock.stamp[x], clock.period[x], now, timedOut, n, Due(time.deadline, x), time.queueOf[x]);
        var at := Again(clock.stamp[x], clock.period[x], now, timedOut, n);
        Decoded(at, Deadline(at), time.queueOf[x], n);
      }
    }

    lemma FirstActive(p: nat)
      requires Core() && p < |run.queues| && run.queues[p] != []
      ensures run.queues[p][0] in run.active && run.queues[p][0] in kinds.pri
      ensures kinds.cyclic <= kinds.events && kinds.cyclic <= kinds.persist
    {
      hide Tally, ClockOk, TimeOk, WaitOk, TriggersOk, Lists, Total;
      assert run.queues[p][0] in run.queues[p];
    }

    method LaterEvents()
      requires Valid()
      modifies this`run
      ensures Valid()
      ensures forall x :: StatusOf(x) == old(StatusOf(x)).(active := old(StatusOf(x).active || StatusOf(x).later), later := false)
    {
      hide Ok, Tally, ClockOk, AllArmed;
      MakeLaterActive();
      ArmedInactive(time, commons, old(run.active), run.active, -1);
    }

    /** Each flag is set exactly on the callbacks in the matching structure, where they are once;
        active and active-later exclude each other; and the two counters are what they count. */
    lemma FlagsTell(x: Id)
      requires Valid() && x in kinds.pri
      ensures !(x in run.active && x in run.later)
      ensures 0 <= kinds.pri[x] < |run.queues|
      ensures forall p :: 0 <= p < |run.queues| ==> multiset(run.queues[p])[x] == if x in run.active && kinds.pri[x] == p then 1 else 0
      ensures multiset(run.laterQueue)[x] == if x in run.later then 1 else 0
      ensures x in time.flag ==> x in time.queueOf && time.queueOf[x] < |time.common|
      ensures x in time.heap <==> x in time.flag && StatusOf(x).queue < 0
      ensures forall k :: 0 <= k < |time.common| ==> multiset(time.common[k])[x] == if x in time.flag && StatusOf(x).queue == k then 1 else 0
      ensures run.count == Total(run.queues) + |run.laterQueue|
      ensures eventCount == |inserted - kinds.internal| + |run.active - kinds.internal| + |run.later - kinds.internal| + |time.flag - kinds.internal|
    {
      hide ClockOk, Due;
      forall p | 0 <= p < |run.queues|
        ensures multiset(run.queues[p])[x] == if x in run.active && kinds.pri[x] == p then 1 else 0
      {
        DistinctCount(run.queues[p], x);
      }
      DistinctCount(run.laterQueue, x);
      forall k | 0 <= k < |time.common|
        ensures multiset(time.common[k])[x] == if x in time.flag && StatusOf(x).queue == k then 1 else 0
      {
        DistinctCount(time.common[k], x);
      }
    }
  }

  // ----- whole runs ---------------------------------------------------------------------------------

  datatype Op =
    | NewEvent(x: Id, pri: nat, internal: bool, event: bool, watching: bool, persist: bool, signal: bool)
    | NewCommon(duration: Timeval, t: Id)
    | AddEvent(x: Id, tv: Option<Timeval>, now: Timeval, ioOk: bool)
    | DelEvent(x: Id)
    | RemoveTimer(x: Id)
    | Active(x: Id, why: set<What>)
    | ActiveLater(x: Id, why: set<What>)
    | FinalizeEvent(x: Id)
    | Next(p: nat, now: Timeval, ioOk: bool)
    | Later
    | Timeouts(now: Timeval)

  /** The whole state of a base, as a value. */
  datatype View = View(kinds: Kinds, run: Running, time: Timing, clock: Clock, commons: Commons, inserted: set<Id>, finalizing: set<Id>,
                       res: map<Id, set<What>>, eventCount: int) {
    function Snap(): Snapshot {
      Snapshot(run, time, inserted, res, clock.period)
    }
    function Of(x: Id): Status {
      Look(Snap(), x)
    }
    predicate User(x: Id) {
      x in kinds.pri && x !in commons.triggers
    }
  }

  /** A call the program may make. */
  predicate May(s: View, op: Op) {
    match op
    case NewEvent(x, pri, _, _, _, _, _) => x !in s.kinds.pri && pri < |s.run.queues|
    case NewCommon(_, t) => t !in s.kinds.pri
    case AddEvent(x, tv, now, _) =>
      s.User(x) && x in s.kinds.events && Normal(now) && (tv.Some? ==> Proper(tv.value, |s.time.common|))
    case Next(p, now, _) => p < |s.run.queues| && Normal(now)
    case Later => true
    case Timeouts(now) => Normal(now)
    case _ => s.User(op.x)
  }

  predicate OneEvent(op: Op) {
    op.AddEvent? || op.DelEvent? || op.RemoveTimer? || op.Active? || op.ActiveLater? || op.FinalizeEvent?
  }

  /** What a call on one event makes of its status. */
  function Goes(v: View, op: Op): Status
    requires OneEvent(op)
  {
    var s := v.Of(op.x);
    match op
    case AddEvent(x, tv, now, ioOk) =>
      var enters := s.Enters(x in v.kinds.watching);
      if x in v.finalizing || (enters && !ioOk) then s
      else
        var s1 := s.(inserted := s.inserted || enters);
        if tv.None? then s1
        else s1.(period := if x in v.kinds.cyclic then tv.value else s.period)
               .Until(Deadline(tv.value) + Deadline(now), QueueNumber(tv.value, |v.time.common|))
    case DelEvent(x) => if x in v.finalizing then s else s.Stopped()
    case RemoveTimer(_) => if s.timed then s.(timed := false, period := ZERO) else s
    case Active(x, why) =>
      if x in v.finalizing then s else s.(active := true, later := false, why := if s.active || s.later then s.why + why else why)
    case ActiveLater(_, why) => if s.active || s.later then s.(why := s.why + why) else s.(later := true, why := why)
    case FinalizeEvent(x) =>
      if x in v.finalizing then s
      else s.(active := true, later := false, inserted := false, timed := false, why := {Finalize})
  }

  /** The due timeouts of one structure, and no others, are made active in the order of their deadlines. */
  ghost predicate Processed(s: View, t: View, now: nat) {
    exists due, order ::
      && Lists(order, due) && Sorted(order, s.time.deadline) && Behind(s.kinds, s.run, t.run, order)
      && forall x :: (x in due <==> s.Of(x).Expired(now) && s.Of(x).queue < 0) && t.Of(x) == if x in due then s.Of(x).Fired() else s.Of(x)
  }

  /** The first callback of a queue runs: `x` leaves it, and what is to become of it does; the timer of a common
      queue makes the due events of that queue active. */
  ghost predicate Ran(s: View, t: View, x: Id, now: nat, ioOk: bool) {
    if s.User(x) then
      && t.Of(x) == (var r := s.Of(x).(active := false);
                     if x in s.finalizing || x !in s.kinds.events then r
                     else if x !in s.kinds.persist then r.Stopped()
                     else if x in s.kinds.cyclic then r.Cycled(x in s.kinds.watching, now, ioOk)
                     else r)
      && forall y :: s.User(y) && y != x ==> t.Of(y) == s.Of(y)
    else
      exists k :: 0 <= k < |s.commons.triggers| && s.commons.triggers[k] == x && QueueFired(s.Snap(), t.Snap(), x, now, k)
  }

  /** What one step of a run does; a call the program may not make is passed over. */
  ghost predicate Step(s: View, op: Op, t: View) {
    if !May(s, op) then t == s
    else
      match op
      case NewEvent(x, pri, internal, event, watching, persist, signal) =>
        && t == s.(kinds := WithKind(s.kinds, x, pri, internal, event, watching, persist, signal), time := t.time, clock := t.clock, res := t.res)
        && t.Of(x) == Status(false, false, false, false, {}, 0, -1, ZERO) && forall y :: y != x ==> t.Of(y) == s.Of(y)
      case NewCommon(duration, _) =>
        && (|s.commons.durations| < MAX_COMMON_TIMEOUTS ==> Normalised(duration, |s.commons.durations|) in t.commons.durations)
        && t.finalizing == s.finalizing && forall x :: s.User(x) ==> t.User(x) && t.Of(x) == s.Of(x)
      case Next(p, now, ioOk) =>
        if s.run.queues[p] == [] then t == s
        else t.kinds == s.kinds && t.commons == s.commons && t.finalizing == s.finalizing && Ran(s, t, s.run.queues[p][0], Deadline(now), ioOk)
      case Later =>
        t == s.(run := t.run) && forall x :: t.Of(x) == s.Of(x).(active := s.Of(x).active || s.Of(x).later, later := false)
      case Timeouts(now) =>
        t.kinds == s.kinds && t.commons == s.commons && t.finalizing == s.finalizing && Processed(s, t, Deadline(now))
      case _ =>
        && t.kinds == s.kinds && t.commons == s.commons
        && t.finalizing == s.finalizing + (if op.FinalizeEvent? then {op.x} else {})
        && forall y :: s.User(y) ==> t.Of(y) == if y == op.x then Goes(s, op) else s.Of(y)
  }

  /** One step of a run. */
  method Apply(b: Loop, op: Op)
    requires b.Valid()
    modifies b
    ensures b.Valid() && Step(old(b.Now()), op, b.Now())
  {
    hide Ok, Tally, ClockOk, AllArmed, Look, Processed, Ran, Goes;
    match op
    case NewEvent(x, pri, internal, event, watching, persist, signal) =>
      if x !in b.kinds.pri && pri < |b.run.queues| {
        ApplyNew(b, x, pri, internal, event, watching, persist, signal);
      }
    case NewCommon(duration, t) =>
      if t !in b.kinds.pri {
        ApplyCommon(b, duration, t);
      }
    case AddEvent(x, tv, now, ioOk) =>
      if x in b.kinds.pri && x !in b.commons.triggers && x in b.kinds.events && Normal(now)
         && (tv.Some? ==> Proper(tv.value, |b.time.common|)) {
        ApplyAdd(b, x, tv, now, ioOk);
      }
    case Next(p, now, ioOk) =>
      if p < |b.run.queues| && Normal(now) {
        ApplyNext(b, p, now, ioOk);
      }
    case Later =>
      ApplyLater(b);
    case Timeouts(now) =>
      if Normal(now) {
        ApplyTimeouts(b, now);
      }
    case _ =>
      if op.x in b.kinds.pri && op.x !in b.commons.triggers {
        ApplyOne(b, op);
      }
  }

  method ApplyNew(b: Loop, x: Id, pri: nat, internal: bool, event: bool, watching: bool, persist: bool, signal: bool)
    requires b.Valid() && x !in b.kinds.pri && pri < |b.run.queues|
    modifies b
    ensures b.Valid() && Step(old(b.Now()), NewEvent(x, pri, internal, event, watching, persist, signal), b.Now())
  {
    hide Ok, Tally, ClockOk, AllArmed, WithKind;
    b.Assign(x, pri, internal, event, watching, persist, signal);
  }

  method ApplyCommon(b: Loop, duration: Timeval, t: Id)
    requires b.Valid() && t !in b.kinds.pri
    modifies b
    ensures b.Valid() && Step(old(b.Now()), NewCommon(duration, t), b.Now())
  {
    hide Ok, Tally, ClockOk, AllArmed, Look, Normalised, Deadline;
    b.Views();
    var _ := b.InitCommon(duration, t);
    b.Views();
  }

  method ApplyAdd(b: Loop, x: Id, tv: Option<Timeval>, now: Timeval, ioOk: bool)
    requires b.Valid() && b.User(x) && x in b.kinds.events && Normal(now) && (tv.Some? ==> Proper(tv.value, |b.time.common|))
    modifies b
    ensures b.Valid() && Step(old(b.Now()), AddEvent(x, tv, now, ioOk), b.Now())
  {
    hide Ok, Tally, ClockOk, AllArmed, Look, Deadline;
    b.Views();
    var _ := b.Add(x, tv, false, now, ioOk);
    b.Views();
  }

  method ApplyNext(b: Loop, p: nat, now: Timeval, ioOk: bool)
    requires b.Valid() && p < |b.run.queues| && Normal(now)
    modifies b
    ensures b.Valid() && Step(old(b.Now()), Next(p, now, ioOk), b.Now())
  {
    hide Ok, Tally, ClockOk, AllArmed, Look, Expires;
    b.Views();
    var x := b.RunNext(p, now, ioOk);
    b.Views();
    if x.Some? && !b.User(x.value) {
      TriggerLooks(old(b.Snap()), b.Snap(), b.commons.triggers, x.value, Deadline(now));
    }
  }

  method ApplyLater(b: Loop)
    requires b.Valid()
    modifies b
    ensures b.Valid() && Step(old(b.Now()), Later, b.Now())
  {
    hide Ok, Tally, ClockOk, AllArmed, Look;
    b.Views();
    b.LaterEvents();
    b.Views();
  }

  method ApplyTimeouts(b: Loop, now: Timeval)
    requires b.Valid() && Normal(now)
    modifies b
    ensures b.Valid() && Step(old(b.Now()), Timeouts(now), b.Now())
  {
    hide Ok, Tally, ClockOk, AllArmed, Look, Lists, Sorted, Behind;
    ghost var due, order := b.TimeoutProcess(now);
  }

  method ApplyOne(b: Loop, op: Op)
    requires b.Valid() && OneEvent(op) && !op.AddEvent? && b.User(op.x)
    modifies b
    ensures b.Valid() && Step(old(b.Now()), op, b.Now())
  {
    hide Ok, Tally, ClockOk, AllArmed, Look;
    b.Views();
    match op {
      case DelEvent(x) => b.Delete(x);
      case RemoveTimer(x) => b.RemoveTimer(x);
      case Active(x, why) => b.EventActive(x, why);
      case ActiveLater(x, why) => b.EventActiveLater(x, why);
      case FinalizeEvent(x) => b.EventFinalize(x);
    }
    b.Views();
  }

  /** A sequence of states, one before each step and one behind the last, that the steps lead through. */
  ghost predicate Traces(states: seq<View>, ops: seq<Op>) {
    |states| == |ops| + 1 && forall i :: 0 <= i < |ops| ==> Step(states[i], ops[i], states[i + 1])
  }

  /** Over every run each call does what it is for, and in every state flags, queues, counters and timers agree. */
  method Run(priorities: nat, ops: seq<Op>) returns (b: Loop, ghost states: seq<View>)
    requires priorities > 0
    ensures b.Valid() && Traces(states, ops) && states[|ops|] == b.Now()
    ensures states[0].kinds.pri == map[] && |states[0].run.queues| == priorities
    ensures forall i :: 0 <= i <= |ops| ==> Sound(states[i])
  {
    hide Ok, Tally, ClockOk, AllArmed, Step;
    b := new Loop(priorities);
    states := [b.Now()];
    for i := 0 to |ops|
      invariant fresh(b) && b.Valid() && Traces(states, ops[..i]) && states[i] == b.Now()
      invariant states[0].kinds.pri == map[] && |states[0].run.queues| == priorities
      invariant forall k :: 0 <= k <= i ==> Sound(states[k])
    {
      Apply(b, ops[i]);
      states := states + [b.Now()];
    }
    assert ops[..|ops|] == ops;
  }

  /** The invariant of the base, of a state. */
  ghost predicate Sound(v: View) {
    && Ok(v.kinds, v.run, v.time, v.commons, v.inserted, v.finalizing, v.res)
    && v.eventCount == Tally(v.kinds, v.inserted, v.run, v.time.flag)
    && ClockOk(v.kinds.cyclic, v.time, v.clock) && AllArmed(v.time, v.commons, v.run.active, -1)
  }

  /** A finalized event waits for nothing again, whatever comes behind. */
  lemma FinalizedStays(states: seq<View>, ops: seq<Op>, i: nat, j: nat, x: Id)
    requires Traces(states, ops) && i < j <= |ops| && ops[i] == FinalizeEvent(x) && states[i].User(x)
    requires forall k :: 0 <= k <= |ops| ==> Sound(states[k])
    ensures x in states[j].finalizing && !states[j].Of(x).inserted && !states[j].Of(x).timed
    decreases j
  {
    hide Ok, Tally, ClockOk, AllArmed, Look;
    if j == i + 1 {
      assert Step(states[i], ops[i], states[j]);
    } else {
      FinalizedStays(states, ops, i, j - 1, x);
      assert Step(states[j - 1], ops[j - 1], states[j]);
    }
    Waits(states[j], x);
  }

  lemma Waits(v: View, x: Id)
    requires Sound(v) && x in v.finalizing
    ensures !v.Of(x).inserted && !v.Of(x).timed
  {
    hide Tally, ClockOk, AllArmed;
  }
}
