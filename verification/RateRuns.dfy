/** What holds over whole runs of a rate-limited bufferevent. */
module RateRuns {
  import opened Basics
  import opened Modular
  import opened TokenBucket
  import opened RateLimit

  /** One call on a bufferevent, or one turn of its refill timer; `now` is the clock in milliseconds. */
  datatype Op =
    | GetMax(isWrite: bool, now: nat)
    | Used(isWrite: bool, bytes: nat)
    | Adjust(isWrite: bool, decr: int)
    | Fires
    | Callback(now: nat)
    | SetLimit(to: Option<Cfg>, now: nat)
    | Other(isWrite: bool, what: Option<Flag>, on: bool)

  predicate ConfigOk(op: Op) {
    op.SetLimit? && op.to.Some? ==> op.to.value.Ok()
  }

  // ----- what each call means -----------------------------------------------------------------------

  /** A side with a limit, suspended for bandwidth or not. */
  function Set(s: Side, limit: int, stopped: bool): Side {
    var why := if stopped then s.suspended + {Bandwidth} else s.suspended - {Bandwidth};
    s.(limit := limit, suspended := why, running := s.enabled && why == {})
  }

  function SideOf(st: State, isWrite: bool): Side {
    if isWrite then st.write else st.read
  }

  function WithSide(st: State, isWrite: bool, s: Side): State {
    if isWrite then st.(write := s) else st.(read := s)
  }

  /** The timer is set, taken back, or left alone. */
  function Timed(st: State, start: bool, stop: bool): State {
    if start then st.(armed := true, fired := false) else if stop then st.(armed := false, fired := false) else st
  }

  /** Both limits updated. */
  function Refreshed(st: State, tick: nat): State
    requires st.cfg.Some?
  {
    st.(read := st.read.(limit := Updated(st.read.limit, st.cfg.value.read, st.lastUpdated, tick)),
        write := st.write.(limit := Updated(st.write.limit, st.cfg.value.write, st.lastUpdated, tick)),
        lastUpdated := if Advances(st.lastUpdated, tick) then tick else st.lastUpdated)
  }

  function AfterUsed(st: State, isWrite: bool, bytes: nat): State {
    var s, other := SideOf(st, isWrite), SideOf(st, !isWrite);
    var left := s.limit - bytes;
    if st.cfg.None? || !IsSsize(left) then st
    else Timed(WithSide(st, isWrite, Set(s, left, left <= 0)), left <= 0, s.Stopped() && !other.Stopped())
  }

  function AfterAdjust(st: State, isWrite: bool, decr: int): State {
    var s, other := SideOf(st, isWrite), SideOf(st, !isWrite);
    var left := s.limit - decr;
    if st.cfg.None? || !IsSsize(left) then st
    else Timed(WithSide(st, isWrite, Set(s, left, left <= 0 || (s.Stopped() && s.limit > 0))),
               s.limit > 0 && left <= 0, s.limit <= 0 && left > 0 && !other.Stopped())
  }

  function AfterCallback(st: State, now: nat): State {
    if !st.fired || st.cfg.None? then st
    else
      var r := Refreshed(st, st.Tick(now));
      var a := Set(r.read, r.read.limit, r.read.Stopped() && r.read.limit <= 0);
      var b := Set(r.write, r.write.limit, r.write.Stopped() && r.write.limit <= 0);
      r.(read := a, write := b, armed := a.Stopped() || b.Stopped(), fired := false)
  }

  function AfterSet(st: State, to: Option<Cfg>, now: nat): State {
    if st.cfg == to then st
    else if to.None? then
      st.(cfg := None, read := Set(st.read, st.read.limit, false), write := Set(st.write, st.write.limit, false), armed := false, fired := false)
    else
      var c := to.value;
      var r := if st.cfg.Some? then Clip(st.read.limit, c.read) else c.read.rate;
      var w := if st.cfg.Some? then Clip(st.write.limit, c.write) else c.write.rate;
      State(Set(st.read, r, r <= 0), Set(st.write, w, w <= 0), true, to,
            if st.cfg.Some? || c.msec == 0 then st.lastUpdated else TickAt(now, c), r <= 0 || w <= 0, false)
  }

  function AfterOther(st: State, isWrite: bool, what: Option<Flag>, on: bool): State {
    var s := SideOf(st, isWrite);
    var why := if what.None? then s.suspended else if on then s.suspended + {what.value} else s.suspended - {what.value};
    var enabled := if what.None? then on else s.enabled;
    if what == Some(Bandwidth) then st
    else WithSide(st, isWrite, s.(suspended := why, enabled := enabled, running := enabled && why == {}))
  }

  /** The state a call leaves. A call whose sum would overflow, and a timer that does not wait, change
      nothing. */
  function After(st: State, op: Op): State {
    match op
    case GetMax(_, now) => if st.cfg.None? then st else Refreshed(st, st.Tick(now))
    case Used(isWrite, bytes) => AfterUsed(st, isWrite, bytes)
    case Adjust(isWrite, decr) => AfterAdjust(st, isWrite, decr)
    case Fires => if st.armed then st.(armed := false, fired := true) else st
    case Callback(now) => AfterCallback(st, now)
    case SetLimit(to, now) => AfterSet(st, to, now)
    case Other(isWrite, what, on) => AfterOther(st, isWrite, what, on)
  }

  /** The call keeps the invariant: it does not update a bucket pushed above its maximum so far that
      the update overflows. */
  predicate Calm(st: State, op: Op) {
    match op
    case GetMax(_, now) => st.cfg.Some? ==> st.Tamed(now)
    case Callback(now) => st.fired && st.cfg.Some? ==> st.Tamed(now)
    case _ => true
  }

  /** A manual refill does not go above the maximum. */
  predicate Modest(st: State, op: Op) {
    op.Adjust? && st.cfg.Some? ==>
      SideOf(st, op.isWrite).limit - op.decr <= (if op.isWrite then st.cfg.value.write else st.cfg.value.read).max
  }

  lemma SetIs(s: Side, t: Side, limit: int, stopped: bool)
    requires t.Ok() && t.limit == limit && t.enabled == s.enabled && t.maxSingle == s.maxSingle
    requires (t.Stopped() <==> stopped) && t.suspended - {Bandwidth} == s.suspended - {Bandwidth}
    ensures t == Set(s, limit, stopped)
  {
    var why := if stopped then s.suspended + {Bandwidth} else s.suspended - {Bandwidth};
    forall f
      ensures f in t.suspended <==> f in why
    {
      if f != Bandwidth {
        assert f in t.suspended <==> f in t.suspended - {Bandwidth};
        assert f in s.suspended <==> f in s.suspended - {Bandwidth};
      }
    }
    assert t.suspended == why;
  }

  method ApplyUsed(b: RateLimited, isWrite: bool, bytes: nat)
    requires b.Valid()
    modifies b
    ensures b.Valid() && b.Now() == AfterUsed(old(b.Now()), isWrite, bytes)
    ensures old(b.Within()) ==> b.Within()
  {
    hide Set;
    var s := SideOf(b.Now(), isWrite);
    if IsSsize(s.limit - bytes) {
      b.DecrementBuckets(isWrite, bytes);
      if b.cfg.Some? {
        SetIs(s, SideOf(b.Now(), isWrite), s.limit - bytes, s.limit - bytes <= 0);
      } else {
        Unlimited(s, SideOf(b.Now(), isWrite));
      }
    }
  }

  lemma Unlimited(s: Side, t: Side)
    requires s.Ok() && t.Ok() && t.limit == s.limit && t.enabled == s.enabled && t.maxSingle == s.maxSingle
    requires !s.Stopped() && !t.Stopped() && t.suspended - {Bandwidth} == s.suspended - {Bandwidth}
    ensures t == s
  {
    assert t.suspended == t.suspended - {Bandwidth} && s.suspended == s.suspended - {Bandwidth};
  }

  method ApplyAdjust(b: RateLimited, isWrite: bool, decr: int)
    requires b.Valid()
    modifies b
    ensures b.Valid() && b.Now() == AfterAdjust(old(b.Now()), isWrite, decr)
    ensures old(b.Within() && Modest(b.Now(), Adjust(isWrite, decr))) ==> b.Within()
  {
    hide Set;
    var s := SideOf(b.Now(), isWrite);
    var left := s.limit - decr;
    if b.cfg.Some? && IsSsize(left) {
      b.DecrementLimit(isWrite, decr);
      SetIs(s, SideOf(b.Now(), isWrite), left, left <= 0 || (s.Stopped() && s.limit > 0));
    }
  }

  method ApplyCallback(b: RateLimited, now: nat)
    requires b.Valid()
    modifies b
    ensures b.Now() == AfterCallback(old(b.Now()), now)
    ensures b.Valid() <==> old(Calm(b.Now(), Callback(now)))
    ensures old(b.Within()) ==> b.Valid() && b.Within()
  {
    hide Set, Updated, Tame;
    ghost var r, w := b.read, b.write;
    if b.fired {
      b.RefillCallback(now);
      SetIs(r, b.read, b.read.limit, r.Stopped() && b.read.limit <= 0);
      SetIs(w, b.write, b.write.limit, w.Stopped() && b.write.limit <= 0);
      SetLimitFirst(r, b.read.limit, r.Stopped() && b.read.limit <= 0);
      SetLimitFirst(w, b.write.limit, w.Stopped() && b.write.limit <= 0);
    }
  }

  lemma SetLimitFirst(s: Side, limit: int, stopped: bool)
    ensures Set(s.(limit := limit), limit, stopped) == Set(s, limit, stopped)
    ensures s.(limit := limit).Stopped() == s.Stopped()
  {
  }

  method ApplySet(b: RateLimited, to: Option<Cfg>, now: nat)
    requires b.Valid() && (to.Some? ==> to.value.Ok())
    modifies b
    ensures b.Valid() && b.Now() == AfterSet(old(b.Now()), to, now)
    ensures old(b.Within()) ==> b.Within()
  {
    hide Set;
    ghost var r, w := b.read, b.write;
    b.SetRateLimit(to, now);
    if old(b.cfg) == to {
      if to.None? {
        Unlimited(r, b.read);
        Unlimited(w, b.write);
      }
    } else {
      SetIs(r, b.read, b.read.limit, b.read.Stopped());
      SetIs(w, b.write, b.write.limit, b.write.Stopped());
    }
  }

  method ApplyOther(b: RateLimited, isWrite: bool, what: Option<Flag>, on: bool)
    requires b.Valid()
    modifies b
    ensures b.Valid() && b.Now() == AfterOther(old(b.Now()), isWrite, what, on)
    ensures old(b.Within()) ==> b.Within()
  {
    if what != Some(Bandwidth) {
      b.SetOther(isWrite, what, on);
    }
  }

  /** Any call on a sound bufferevent, whether manual refills stay below the maximum or not, does what it
      means, and leaves it sound if and only if the call is calm. */
  method Apply(b: RateLimited, op: Op)
    requires b.Valid() && ConfigOk(op)
    modifies b
    ensures b.Now() == After(old(b.Now()), op)
    ensures b.Valid() <==> old(Calm(b.Now(), op))
    ensures old(b.Within() && Modest(b.Now(), op)) ==> b.Valid() && b.Within()
  {
    hide Updated, Tame, Set, AfterUsed, AfterAdjust, AfterCallback, AfterSet, AfterOther;
    match op
    case GetMax(isWrite, now) =>
      var _ := b.GetRlimMax(isWrite, now);
    case Used(isWrite, bytes) =>
      ApplyUsed(b, isWrite, bytes);
    case Adjust(isWrite, decr) =>
      ApplyAdjust(b, isWrite, decr);
    case Fires =>
      if b.armed {
        b.Fire();
      }
    case Callback(now) =>
      ApplyCallback(b, now);
    case SetLimit(to, now) =>
      ApplySet(b, to, now);
    case Other(isWrite, what, on) =>
      ApplyOther(b, isWrite, what, on);
  }

  function AfterAll(st: State, ops: seq<Op>): State
    decreases |ops|
  {
    if ops == [] then st else AfterAll(After(st, ops[0]), ops[1..])
  }

  /** The number of the first call that is not calm. */
  function FirstWild(st: State, ops: seq<Op>): (r: Option<nat>)
    ensures r.Some? ==> r.value < |ops|
    decreases |ops|
  {
    if ops == [] then None
    else if !Calm(st, ops[0]) then Some(0)
    else
      var rest := FirstWild(After(st, ops[0]), ops[1..]);
      if rest.None? then None else Some(rest.value + 1)
  }

  /** Over every run from any sound state: each call does what it means, and an exhausted bucket is suspended
      with a refill on its way in every state before the first call that is not calm, where the invariant is
      lost. The run stops there; `lost` is the number of that call. */
  method Run(b: RateLimited, ops: seq<Op>) returns (lost: Option<nat>)
    requires b.Valid() && forall i :: 0 <= i < |ops| ==> ConfigOk(ops[i])
    modifies b
    ensures lost == FirstWild(old(b.Now()), ops)
    ensures b.Now() == AfterAll(old(b.Now()), if lost.None? then ops else ops[..lost.value + 1])
    ensures b.Valid() <==> lost.None?
    ensures old(b.Within()) && NoManualRefill(ops) ==> lost.None? && b.Within()
  {
    hide After, Calm, AfterAll, FirstWild, State.Ok, State.Within, Modest;
    ghost var st := b.Now();
    assert ops[0..] == ops && ops[..0] == [];
    NoOps(st);
    for i := 0 to |ops|
      invariant b.Valid() && b.Now() == AfterAll(st, ops[..i])
      invariant FirstWild(st, ops) == Later(FirstWild(b.Now(), ops[i..]), i)
      invariant old(b.Within()) && NoManualRefill(ops) ==> b.Within()
    {
      var calm := Calm(b.Now(), ops[i]);
      AfterSnoc(st, ops, i);
      WildFrom(b.Now(), ops, i);
      WithinModest(b.Now(), ops[i]);
      Apply(b, ops[i]);
      if !calm {
        return Some(i);
      }
    }
    assert ops[|ops|..] == [] && ops[..|ops|] == ops;
    NoOps(b.Now());
    return None;
  }

  function Later(r: Option<nat>, i: nat): Option<nat> {
    if r.None? then None else Some(r.value + i)
  }

  predicate NoManualRefill(ops: seq<Op>) {
    forall i :: 0 <= i < |ops| ==> ops[i].Adjust? ==> ops[i].decr >= 0
  }

  lemma WithinModest(st: State, op: Op)
    ensures st.Within() && (op.Adjust? ==> op.decr >= 0) ==> Modest(st, op)
  {
  }

  lemma NoOps(st: State)
    ensures AfterAll(st, []) == st && FirstWild(st, []) == None
  {
  }

  lemma WildFrom(st: State, ops: seq<Op>, i: nat)
    requires i < |ops|
    ensures FirstWild(st, ops[i..]) == if !Calm(st, ops[i]) then Some(0) else Later(FirstWild(After(st, ops[i]), ops[i + 1..]), 1)
  {
    hide After, Calm;
    assert ops[i..][0] == ops[i] && ops[i..][1..] == ops[i + 1..];
  }

  lemma {:induction false} AfterSnoc(st: State, ops: seq<Op>, i: nat)
    requires i < |ops|
    ensures AfterAll(st, ops[..i + 1]) == After(AfterAll(st, ops[..i]), ops[i])
    decreases i
  {
    hide After;
    if i == 0 {
      assert ops[..1][1..] == [];
    } else {
      assert ops[..i + 1][1..] == ops[1..][..i] && ops[..i][1..] == ops[1..][..i - 1];
      AfterSnoc(After(st, ops[0]), ops[1..], i - 1);
    }
  }

  /** A run that loses the invariant: a bucket of two bytes a tick is refilled by hand to the largest
      number, and the next tick makes it negative while the direction goes on running. */
  method OverfullRun() returns (b: RateLimited)
    ensures b.cfg.Some? && b.read.limit < 0 && b.read.running && !b.Valid()
  {
    hide Updated, Tame;
    b := new RateLimited(16384, 16384);
    b.SetRateLimit(Some(Cfg(0, Rate(2, 2), Rate(2, 2), 1000)), 0);
    assert b.read.suspended == b.read.suspended - {Bandwidth};
    b.SetOther(false, None, true);
    b.DecrementLimit(false, 2 - SSIZE_MAX);
    OverfullUpdate();
    var _ := b.GetRlimMax(false, 1000);
  }

  lemma OverfullUpdate()
    ensures Updated(SSIZE_MAX, Rate(2, 2), 0, 1) < 0
  {
    RefillCanWrap();
  }

  // ----- the bandwidth bound ------------------------------------------------------------------------

  /** At `time` milliseconds the bufferevent asks how much it may move and moves up to `want` of that. */
  datatype Turn = Turn(isWrite: bool, time: nat, want: nat)

  predicate InOrder(turns: seq<Turn>) {
    forall i, j :: 0 <= i < j < |turns| ==> turns[i].time <= turns[j].time
  }

  function RateOf(b: RateLimited, isWrite: bool): Rate
    requires b.cfg.Some?
    reads b
  {
    if isWrite then b.cfg.value.write else b.cfg.value.read
  }

  function LimitOf(b: RateLimited, isWrite: bool): int
    reads b
  {
    if isWrite then b.write.limit else b.read.limit
  }

  /** The tick of a time, before it is cut to 32 bits. */
  function LongTick(time: nat, c: Cfg): nat {
    if c.msec == 0 then 0 else time / c.msec
  }

  lemma LongTicks(from: nat, to: nat, c: Cfg)
    requires from <= to
    ensures LongTick(from, c) <= LongTick(to, c)
  {
    if c.msec > 0 {
      Divided(from, c.msec);
      Divided(to, c.msec);
      MinusTimes(c.msec, from / c.msec, to / c.msec);
      NoMultiple(c.msec, from / c.msec - to / c.msec);
    }
  }

  /** What a turn moves: what it wants, as far as the updated limit goes. */
  function MovedBy(st: State, turn: Turn): nat {
    if st.cfg.None? then 0
    else
      var limit := SideOf(After(st, GetMax(turn.isWrite, turn.time)), turn.isWrite).limit;
      if limit < 0 then 0 else if turn.want < limit then turn.want else limit
  }

  function Turned(st: State, turn: Turn): State {
    After(After(st, GetMax(turn.isWrite, turn.time)), Used(turn.isWrite, MovedBy(st, turn)))
  }

  function AfterTurns(st: State, turns: seq<Turn>): State {
    if turns == [] then st else Turned(AfterTurns(st, turns[..|turns| - 1]), turns[|turns| - 1])
  }

  /** What all turns of one direction move. */
  function TotalMoved(st: State, turns: seq<Turn>, isWrite: bool): nat {
    if turns == [] then 0
    else
      var front, turn := turns[..|turns| - 1], turns[|turns| - 1];
      TotalMoved(st, front, isWrite) + if turn.isWrite == isWrite then MovedBy(AfterTurns(st, front), turn) else 0
  }

  lemma TurnsNext(st: State, turns: seq<Turn>, i: nat)
    requires i < |turns|
    ensures AfterTurns(st, turns[..i + 1]) == Turned(AfterTurns(st, turns[..i]), turns[i])
    ensures forall w :: TotalMoved(st, turns[..i + 1], w) ==
                        TotalMoved(st, turns[..i], w) + if turns[i].isWrite == w then MovedBy(AfterTurns(st, turns[..i]), turns[i]) else 0
  {
    hide Turned, MovedBy;
    assert turns[..i + 1][..i] == turns[..i];
  }

  lemma TurnsNone(st: State)
    ensures AfterTurns(st, []) == st && TotalMoved(st, [], false) == TotalMoved(st, [], true) == 0
  {
  }

  /** One turn moves at most the limit, and the limit never gains more than the rate for each tick
      since the bucket was last settled. */
  method OneTurn(b: RateLimited, turn: Turn, ghost since: nat, ghost first: bool) returns (moved: nat)
    requires b.Valid() && b.Within() && b.cfg.Some? && since <= LongTick(turn.time, b.cfg.value)
    requires !first ==> Settled(b.lastUpdated, since)
    modifies b
    ensures b.Valid() && b.Within() && b.cfg == old(b.cfg)
    ensures moved == MovedBy(old(b.Now()), turn) && b.Now() == Turned(old(b.Now()), turn)
    ensures Settled(b.lastUpdated, LongTick(turn.time, b.cfg.value))
    ensures moved == 0 || LimitOf(b, turn.isWrite) >= 0
    ensures forall w :: LimitOf(b, w) + (if w == turn.isWrite then moved else 0) <= RateOf(b, w).max
    ensures !first ==> forall w ::
      LimitOf(b, w) + (if w == turn.isWrite then moved else 0)
      <= old(LimitOf(b, w)) + Gain(RateOf(b, w), LongTick(turn.time, b.cfg.value) - since)
  {
    ghost var r, w, c, last, t := b.read.limit, b.write.limit, b.cfg.value, b.lastUpdated, LongTick(turn.time, b.cfg.value);
    hide Updated, Tame, Ticks, Gain, State.Tamed, Settled, LongTick, Advances, MovedBy, Turned;
    TickOfTime(b.Now(), turn.time);
    moved := Move(b, turn);
    UpdatedLimits(r, c.read, last, t % U32);
    UpdatedLimits(w, c.write, last, t % U32);
    if !first {
      GainBounded(r, c.read, last, since, t);
      GainBounded(w, c.write, last, since, t);
    }
    SettledAfter(last, t);
  }

  /** A turn: ask how much may be moved, move that much of what is wanted, and pay for it. */
  method Move(b: RateLimited, turn: Turn) returns (moved: nat)
    requires b.Valid() && b.Within() && b.cfg.Some?
    modifies b
    ensures b.Valid() && b.Within() && b.cfg == old(b.cfg)
    ensures moved == MovedBy(old(b.Now()), turn) && b.Now() == Turned(old(b.Now()), turn)
    ensures moved == 0 || LimitOf(b, turn.isWrite) >= 0
    ensures var tick, last := old(b.Now()).Tick(turn.time), old(b.lastUpdated);
            && b.lastUpdated == (if Advances(last, tick) then tick else last)
            && b.read.limit + (if turn.isWrite then 0 else moved) == Updated(old(b.read.limit), b.cfg.value.read, last, tick)
            && b.write.limit + (if turn.isWrite then moved else 0) == Updated(old(b.write.limit), b.cfg.value.write, last, tick)
  {
    hide Updated, Tame, Ticks, State.Tamed, Advances, AfterUsed;
    var max := b.GetRlimMax(turn.isWrite, turn.time);
    moved := if turn.want < max then turn.want else max;
    assert moved <= LimitOf(b, turn.isWrite) || moved == 0;
    UsedLimits(b.Now(), turn.isWrite, moved);
    ApplyUsed(b, turn.isWrite, moved);
  }

  lemma UsedLimits(st: State, isWrite: bool, bytes: nat)
    requires st.cfg.Some? && IsSsize(SideOf(st, isWrite).limit) && (bytes == 0 || bytes <= SideOf(st, isWrite).limit)
    ensures var r := AfterUsed(st, isWrite, bytes);
            && r.cfg == st.cfg && r.lastUpdated == st.lastUpdated
            && r.read.limit == st.read.limit - (if isWrite then 0 else bytes)
            && r.write.limit == st.write.limit - (if isWrite then bytes else 0)
  {
  }

  lemma TickOfTime(st: State, time: nat)
    requires st.cfg.Some?
    ensures st.Tick(time) == LongTick(time, st.cfg.value) % U32
  {
  }

  lemma SettledAfter(last: nat, t: nat)
    ensures Settled(if Advances(last, t % U32) then t % U32 else last, t)
  {
    SettledNow(t);
  }

  lemma GainBounded(limit: int, c: Rate, last: nat, since: nat, t: nat)
    requires c.Ok() && IsSsize(limit) && limit <= c.max && last < U32
    requires since <= t && Settled(last, since)
    ensures Updated(limit, c, last, t % U32) <= limit + Gain(c, t - since)
  {
    hide Refill, Gain;
    if Advances(last, t % U32) {
      TicksAfterSettled(last, since, t);
      var n := Ticks(last, t % U32);
      RefillIsNaive(limit, c, n);
      GainAdds(c, n, t - since - n);
    }
  }

  /** However the turns are chosen, whatever state they start from, a direction moves at most its
      maximum plus its rate for each tick of the window. */
  method Window(b: RateLimited, turns: seq<Turn>) returns (readTotal: nat, writeTotal: nat)
    requires b.Valid() && b.Within() && b.cfg.Some? && InOrder(turns) && turns != []
    modifies b
    ensures b.Valid() && b.Within()
    ensures old(b.cfg.Some?) && b.cfg == old(b.cfg)
    ensures readTotal == TotalMoved(old(b.Now()), turns, false) && writeTotal == TotalMoved(old(b.Now()), turns, true)
    ensures b.Now() == AfterTurns(old(b.Now()), turns)
    ensures var k := LongTick(turns[|turns| - 1].time, b.cfg.value) - LongTick(turns[0].time, b.cfg.value);
            && k >= 0
            && readTotal <= b.cfg.value.read.max + Gain(b.cfg.value.read, k)
            && writeTotal <= b.cfg.value.write.max + Gain(b.cfg.value.write, k)
  {
    hide Gain, Settled, LongTick, AfterTurns, TotalMoved, MovedBy, Turned;
    ghost var st := b.Now();
    TurnsNone(st);
    TurnsNext(st, turns, 0);
    assert turns[..0] == [];
    readTotal, writeTotal := 0, 0;
    ghost var start := LongTick(turns[0].time, b.cfg.value);
    var moved := OneTurn(b, turns[0], start, true);
    if turns[0].isWrite {
      writeTotal := moved;
    } else {
      readTotal := moved;
    }
    assert moved + LimitOf(b, turns[0].isWrite) <= RateOf(b, turns[0].isWrite).max;
    assert LimitOf(b, !turns[0].isWrite) <= RateOf(b, !turns[0].isWrite).max;
    var i := 1;
    ghost var since := start;
    while i < |turns|
      invariant 1 <= i <= |turns| && b.Valid() && b.Within() && b.cfg == old(b.cfg)
      invariant since == LongTick(turns[i - 1].time, b.cfg.value) && Settled(b.lastUpdated, since) && start <= since
      invariant readTotal == TotalMoved(st, turns[..i], false) && writeTotal == TotalMoved(st, turns[..i], true)
      invariant b.Now() == AfterTurns(st, turns[..i])
      invariant Bounded(readTotal, b.read.limit, b.cfg.value.read, since - start)
      invariant Bounded(writeTotal, b.write.limit, b.cfg.value.write, since - start)
    {
      var t := turns[i];
      TurnsNext(st, turns, i);
      LongTicks(turns[i - 1].time, t.time, b.cfg.value);
      ghost var at := LongTick(t.time, b.cfg.value);
      moved := OneTurn(b, t, since, false);
      assert b.read.limit == LimitOf(b, false) && b.write.limit == LimitOf(b, true);
      if t.isWrite {
        writeTotal := writeTotal + moved;
      } else {
        readTotal := readTotal + moved;
      }
      GainAdds(b.cfg.value.read, since - start, at - since);
      GainAdds(b.cfg.value.write, since - start, at - since);
      since := at;
      i := i + 1;
    }
    assert turns[..|turns|] == turns;
  }

  /** What was moved and what is left never exceed the allowance, also when the limit is overdrawn. */
  predicate Bounded(total: nat, limit: int, c: Rate, k: nat) {
    total + limit <= c.max + Gain(c, k) && total <= c.max + Gain(c, k)
  }

  // ----- getting out of debt ------------------------------------------------------------------------

  /** How many ticks updates at the given ticks add up to, when the last update before was at `last`: those
      that seem to lie behind it, or too far ahead, do not count. */
  function Counted(last: nat, ticks: seq<nat>): nat
    decreases |ticks|
  {
    if ticks == [] then 0
    else if Advances(last, ticks[0]) then Ticks(last, ticks[0]) + Counted(ticks[0], ticks[1..])
    else Counted(last, ticks[1..])
  }

  /** Every update counts. */
  predicate Marching(last: nat, ticks: seq<nat>)
    decreases |ticks|
  {
    ticks == [] || (Advances(last, ticks[0]) && Marching(ticks[0], ticks[1..]))
  }

  lemma {:induction false} MarchingCounts(last: nat, ticks: seq<nat>)
    requires Marching(last, ticks)
    ensures Counted(last, ticks) >= |ticks|
    decreases |ticks|
  {
    if ticks != [] {
      MarchingCounts(ticks[0], ticks[1..]);
    }
  }

  /** The debt is paid once there were more ticks than debt divided by rate. */
  lemma EnoughTicks(c: Rate, debt: nat, n: nat)
    requires c.Ok() && n >= debt / c.rate + 1
    ensures Gain(c, n) > debt
  {
    DivBelow(debt, c.rate, Rate(n, n));
    assert c.rate * n == n * c.rate;
  }

  /** One side of the refill: how a debt of `debt` stands after gaining `gained`. */
  predicate Owes(s: Side, debt: nat, gained: nat) {
    && (s.Stopped() <==> gained <= debt)
    && (s.Stopped() ==> s.limit == gained - debt)
  }

  /** What an update at `tick` adds to the ticks counted. */
  function StepOf(last: nat, tick: nat): nat {
    if Advances(last, tick) then Ticks(last, tick) else 0
  }

  /** The timer fires, if it is set, and its callback runs at `now`. */
  method RefillOnce(b: RateLimited, isWrite: bool, now: nat, ghost debt: nat, ghost gained: nat, ghost last: nat)
    requires b.Valid() && b.Within() && b.cfg.Some?
    requires Owes(SideOf(b.Now(), isWrite), debt, gained) && (SideOf(b.Now(), isWrite).Stopped() ==> b.lastUpdated == last)
    modifies b
    ensures b.Valid() && b.Within() && b.cfg == old(b.cfg)
    ensures Owes(SideOf(b.Now(), isWrite), debt, gained + Gain(RateOf(b, isWrite), StepOf(last, b.Tick(now))))
    ensures SideOf(b.Now(), isWrite).Stopped() ==> b.lastUpdated == if Advances(last, b.Tick(now)) then b.Tick(now) else last
  {
    hide Gain, Updated, Tame, Ticks, Advances, State.Tamed, TickAt;
    if b.armed {
      b.Fire();
    }
    if b.fired {
      ghost var s, c, tick := SideOf(b.Now(), isWrite), RateOf(b, isWrite), b.Tick(now);
      UpdatedBy(s.limit, c, b.lastUpdated, tick);
      b.RefillCallback(now);
    }
  }

  lemma UpdatedBy(limit: int, c: Rate, last: nat, tick: nat)
    requires c.Ok() && IsSsize(limit) && limit <= c.max
    ensures Updated(limit, c, last, tick) == Naive(limit, c, StepOf(last, tick))
    ensures limit <= Naive(limit, c, StepOf(last, tick))
  {
    hide Refill, Gain;
    GainNone(c);
    if Advances(last, tick) {
      RefillIsNaive(limit, c, Ticks(last, tick));
    }
  }

  /** The ticks of some times. */
  function TicksOf(st: State, times: seq<nat>): (ticks: seq<nat>)
    ensures |ticks| == |times|
  {
    seq(|times|, i requires 0 <= i < |times| => st.Tick(times[i]))
  }

  /** Letting the refill timer run at any times, whatever the clock does, clears a bandwidth suspension exactly
      when the rate for the ticks that count exceeds the debt; so with a clock that moves on by at most 2^31 - 1
      ticks each time, one refill more than debt divided by rate is always enough. */
  method Recover(b: RateLimited, isWrite: bool, times: seq<nat>)
    requires b.Valid() && b.Within() && b.cfg.Some?
    requires LimitOf(b, isWrite) <= 0
    modifies b
    ensures b.Valid() && b.Within() && b.cfg == old(b.cfg)
    ensures var debt := -old(LimitOf(b, isWrite));
            var c, stopped := old(RateOf(b, isWrite)), SideOf(b.Now(), isWrite).Stopped();
            var ticks := old(TicksOf(b.Now(), times));
            && (stopped <==> Gain(c, Counted(old(b.lastUpdated), ticks)) <= debt)
            && (Marching(old(b.lastUpdated), ticks) && |times| >= debt / c.rate + 1 ==> !stopped)
  {
    hide Gain, Ticks, Advances;
    var c := RateOf(b, isWrite);
    ghost var debt, last, sum := -LimitOf(b, isWrite), b.lastUpdated, 0;
    ghost var ticks := TicksOf(b.Now(), times);
    GainNone(c);
    assert ticks[0..] == ticks;
    for i := 0 to |times|
      invariant b.Valid() && b.Within() && b.cfg == old(b.cfg) && sum >= 0 && last >= 0
      invariant Owes(SideOf(b.Now(), isWrite), debt, Gain(c, sum))
      invariant SideOf(b.Now(), isWrite).Stopped() ==> b.lastUpdated == last
      invariant sum + Counted(last, ticks[i..]) == Counted(old(b.lastUpdated), ticks)
    {
      assert ticks[i] == b.Tick(times[i]) && ticks[i..][0] == ticks[i] && ticks[i..][1..] == ticks[i + 1..];
      RefillOnce(b, isWrite, times[i], debt, Gain(c, sum), last);
      GainAdds(c, sum, StepOf(last, ticks[i]));
      sum := sum + StepOf(last, ticks[i]);
      last := if Advances(last, ticks[i]) then ticks[i] else last;
    }
    assert ticks[|times|..] == [];
    if Marching(old(b.lastUpdated), ticks) && |times| >= debt / c.rate + 1 {
      MarchingCounts(old(b.lastUpdated), ticks);
      EnoughTicks(c, debt, sum);
    }
  }

  lemma GainNone(c: Rate)
    ensures Gain(c, 0) == 0
  {
  }

  // ----- another tick length ------------------------------------------------------------------------

  /** How far the tick at `now` of configuration `c` is ahead of the last update, as 32 bits see it. */
  function Ahead(last: nat, now: nat, c: Cfg): nat {
    Ticks(last, LongTick(now, c) % U32)
  }

  /** After a change of configuration at `now` the last update keeps its number, though it counts ticks of
      another length. A refill `e` ticks later counts exactly if the distance it sees is between 1 and 2^31 - 1.
      When the new ticks seem to lie behind the last update, that is not so for as many ticks as they lie
      behind, and after that only the ticks beyond these count. */
  lemma RefillAfterChange(last: nat, now: nat, later: nat, c: Cfg)
    requires last < U32 && now <= later && c.msec > 0
    ensures var d, e := Ahead(last, now, c), LongTick(later, c) - LongTick(now, c);
            && e >= 0
            && Ahead(last, later, c) == (d + e) % U32
            && (d + e < U32 ==> (Advances(last, TickAt(later, c)) <==> 1 <= d + e <= INT_MAX))
            && (d > INT_MAX && U32 <= d + e <= U32 + INT_MAX ==>
                  (Advances(last, TickAt(later, c)) <==> e > U32 - d) && (e > U32 - d ==> StepOf(last, TickAt(later, c)) == e - (U32 - d)))
  {
    hide Ticks;
    LongTicks(now, later, c);
    var t, u := LongTick(now, c), LongTick(later, c);
    MovesOn(last, t, u);
    var d := Ticks(last, t % U32);
    ModShiftExact(d, u - t);
  }

  lemma ModShiftExact(d: nat, e: nat)
    ensures d + e < U32 ==> (d + e) % U32 == d + e
    ensures U32 <= d + e < 2 * U32 ==> (d + e) % U32 == d + e - U32
  {
  }

  /** Another configuration for a bufferevent with an exhausted direction, and a refill some time later: the
      refill adds the rate for the ticks it counts, and clears the suspension only with those. */
  method Retune(b: RateLimited, isWrite: bool, to: Cfg, now: nat, later: nat)
    requires b.Valid() && b.Within() && b.cfg.Some? && b.cfg != Some(to) && to.Ok() && LimitOf(b, isWrite) <= 0 && now <= later
    modifies b
    ensures b.Valid() && b.Within() && b.cfg == Some(to)
    ensures var step := StepOf(old(b.lastUpdated), TickAt(later, to));
            var debt := -old(LimitOf(b, isWrite));
            && (SideOf(b.Now(), isWrite).Stopped() <==> Gain(RateOf(b, isWrite), step) <= debt)
            && (step == 0 ==> LimitOf(b, isWrite) == old(LimitOf(b, isWrite)))
  {
    hide Gain, Ticks, Advances, TickAt;
    ghost var debt, last := -LimitOf(b, isWrite), b.lastUpdated;
    b.SetRateLimit(Some(to), now);
    GainNone(RateOf(b, isWrite));
    RefillOnce(b, isWrite, later, debt, 0, last);
  }

  /** From ticks of a millisecond to ticks of a second, ten thousand seconds after the clock started: nine
      million seconds later the direction is still exhausted. */
  method TickStall() returns (b: RateLimited)
    ensures b.Valid() && b.cfg.Some? && b.cfg.value.msec == 1000 && b.read.limit == 0 && b.read.Stopped()
  {
    hide Gain, Ticks;
    b := new RateLimited(16384, 16384);
    var fast, slow := Cfg(0, Rate(5, 5), Rate(5, 5), 1), Cfg(1, Rate(5, 5), Rate(5, 5), 1000);
    b.SetRateLimit(Some(fast), 10_000_000);
    b.DecrementBuckets(false, 5);
    StallTicks();
    Retune(b, false, slow, 10_000_000, 9_010_000_000);
  }

  lemma StallTicks()
    ensures TickAt(10_000_000, Cfg(0, Rate(5, 5), Rate(5, 5), 1)) == 10_000_000
    ensures StepOf(10_000_000, TickAt(9_010_000_000, Cfg(1, Rate(5, 5), Rate(5, 5), 1000))) == 0
  {
  }
}
