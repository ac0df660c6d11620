/** An individually rate-limited bufferevent: bucket limits, suspend flags and the refill timer
    (android/core/src/main/jni/libevent/bufferevent_ratelim.c:50-124, 141-174, 198-346, 394-439,
    560-636, 972-1025; android/core/src/main/jni/libevent/bufferevent.c:67-112, 459-561). */
module RateLimit {
  import opened Basics
  import opened TimeoutBits
  import opened TokenBucket

  /** Reasons to be suspended. */
  datatype Flag = Watermark | Bandwidth | GroupBandwidth | Lookup | FilterRead

  /** A configuration, with the milliseconds of a tick; `id` stands for the address that
      bufferevent_set_rate_limit compares. */
  datatype Cfg = Cfg(id: nat, read: Rate, write: Rate, msec: nat) {
    predicate Ok() {
      read.Ok() && write.Ok() && msec > 0
    }
  }

  /** The milliseconds of a tick as ev_token_bucket_cfg_new computes them, in an unsigned int. */
  function TickLength(tickLen: Option<Timeval>): nat {
    if tickLen.None? then 1000 else (tickLen.value.sec * 1000 + Micros(tickLen.value) / 1000) % U32
  }

  /** ev_token_bucket_cfg_new. It takes a tick of less than a millisecond too, by which
      ev_token_bucket_get_tick_ then divides. */
  function NewCfg(id: nat, readRate: nat, readBurst: nat, writeRate: nat, writeBurst: nat, tickLen: Option<Timeval>): (r: Option<Cfg>)
    ensures r.Some? <==> Rate(readRate, readBurst).Ok() && Rate(writeRate, writeBurst).Ok()
    ensures r.Some? ==> (r.value.Ok() <==> TickLength(tickLen) > 0)
    ensures r.Some? ==>
      && r.value.id == id && r.value.read == Rate(readRate, readBurst) && r.value.write == Rate(writeRate, writeBurst)
      && r.value.msec == if tickLen.None? then 1000 else (1000 * tickLen.value.sec + tickLen.value.usec % 0x10_0000 / 1000) % 0x1_0000_0000
  {
    if readRate > readBurst || writeRate > writeBurst || readRate < 1 || writeRate < 1 then None
    else if readRate > SSIZE_MAX || writeRate > SSIZE_MAX || readBurst > SSIZE_MAX || writeBurst > SSIZE_MAX then None
    else Some(Cfg(id, Rate(readRate, readBurst), Rate(writeRate, writeBurst), TickLength(tickLen)))
  }

  /** A configuration with ticks of half a millisecond. */
  lemma ZeroTick()
    ensures var r := NewCfg(0, 1, 1, 1, 1, Some(Timeval(0, 500))); r.Some? && r.value.msec == 0 && !r.value.Ok()
  {
  }

  /** ev_token_bucket_get_tick_ at `now` milliseconds. */
  function TickAt(now: nat, c: Cfg): (tick: nat)
    requires c.msec > 0
    ensures tick < U32
  {
    now / c.msec % U32
  }

  /** One direction: its limit, why it is suspended, whether the user enabled it, and whether the
      backend was last told to run it. */
  datatype Side = Side(limit: int, suspended: set<Flag>, enabled: bool, running: bool, maxSingle: nat) {
    predicate Ok() {
      IsSsize(limit) && (running <==> enabled && suspended == {})
    }
    predicate Stopped() {
      Bandwidth in suspended
    }
  }

  /** bufferevent_suspend_read_ and bufferevent_suspend_write_. */
  function Suspend(s: Side, what: Flag): (r: Side)
    requires s.Ok()
    ensures r.Ok() && what in r.suspended && !r.running
  {
    (if s.suspended == {} then s.(running := false) else s).(suspended := s.suspended + {what})
  }

  /** bufferevent_unsuspend_read_ and bufferevent_unsuspend_write_. */
  function Unsuspend(s: Side, what: Flag): (r: Side)
    requires s.Ok()
    ensures r.Ok() && what !in r.suspended
  {
    var t := s.(suspended := s.suspended - {what});
    if t.suspended == {} && t.enabled then t.(running := true) else t
  }

  /** bufferevent_enable. */
  function Enable(s: Side): (r: Side)
    requires s.Ok()
    ensures r.Ok() && r.enabled
  {
    var t := s.(enabled := true);
    if s.suspended != {} then t else t.(running := true)
  }

  /** bufferevent_disable. */
  function Disable(s: Side): (r: Side)
    requires s.Ok()
    ensures r.Ok() && !r.enabled && !r.running
  {
    s.(enabled := false, running := false)
  }

  /** A rate-limited bufferevent: its directions, whether `rate_limiting` was ever allocated, the
      configuration, the tick of the last update, and the refill timer, which may be waiting for its timeout,
      or have fired and be waiting to run. */
  datatype State = State(read: Side, write: Side, limited: bool, cfg: Option<Cfg>, lastUpdated: nat, armed: bool, fired: bool) {
    /** What every step keeps: an exhausted bucket is suspended for bandwidth, a bandwidth suspension
        has a refill on its way, and the backend runs exactly what is enabled and not suspended. */
    predicate Ok() {
      && read.Ok() && write.Ok() && lastUpdated < U32
      && (cfg.Some? ==> limited && cfg.value.Ok())
      && (cfg.Some? && read.limit <= 0 ==> read.Stopped())
      && (cfg.Some? && write.limit <= 0 ==> write.Stopped())
      && (read.Stopped() || write.Stopped() ==> armed || fired)
      && (cfg.None? ==> !read.Stopped() && !write.Stopped() && !armed && !fired)
    }

    /** No limit is above its maximum. */
    predicate Within() {
      cfg.Some? ==> read.limit <= cfg.value.read.max && write.limit <= cfg.value.write.max
    }

    /** The tick at `now` milliseconds. */
    function Tick(now: nat): (tick: nat)
      ensures tick < U32
    {
      if cfg.Some? && cfg.value.msec > 0 then TickAt(now, cfg.value) else 0
    }

    /** Updating at `now` leaves no running direction exhausted. */
    predicate Tamed(now: nat)
      requires cfg.Some?
    {
      && (!read.Stopped() ==> Tame(read.limit, cfg.value.read, lastUpdated, Tick(now)))
      && (!write.Stopped() ==> Tame(write.limit, cfg.value.write, lastUpdated, Tick(now)))
    }
  }

  class RateLimited {
    var read: Side
    var write: Side
    var limited: bool
    var cfg: Option<Cfg>
    var lastUpdated: nat
    var armed: bool
    var fired: bool

    function Now(): State
      reads this
    {
      State(read, write, limited, cfg, lastUpdated, armed, fired)
    }

    ghost predicate Valid()
      reads this
    {
      Now().Ok()
    }

    ghost predicate Within()
      reads this
    {
      Now().Within()
    }

    function Tick(now: nat): (tick: nat)
      reads this
      ensures tick < U32
    {
      Now().Tick(now)
    }

    predicate Tamed(now: nat)
      requires cfg.Some?
      reads this
    {
      Now().Tamed(now)
    }

    constructor (maxRead: nat, maxWrite: nat)
      ensures Valid() && Within() && !limited && cfg.None?
      ensures read == Side(0, {}, false, false, maxRead) && write == Side(0, {}, false, false, maxWrite)
    {
      read, write := Side(0, {}, false, false, maxRead), Side(0, {}, false, false, maxWrite);
      limited, cfg, lastUpdated, armed, fired := false, None, 0, false, false;
    }

    /** An exhausted direction is not running. */
    lemma ExhaustedStandsStill()
      requires Valid() && cfg.Some?
      ensures read.limit <= 0 ==> !read.running && (armed || fired)
      ensures write.limit <= 0 ==> !write.running && (armed || fired)
    {
    }

    /** ev_token_bucket_update_ on both limits. */
    method Update(now: nat)
      requires Valid() && cfg.Some?
      modifies this`read, this`write, this`lastUpdated
      ensures (Valid() <==> old(Tamed(now))) && read.Ok() && write.Ok() && lastUpdated < U32
      ensures old(Within()) ==> Valid() && Within()
      ensures read == old(read).(limit := Updated(old(read.limit), cfg.value.read, old(lastUpdated), Tick(now)))
      ensures write == old(write).(limit := Updated(old(write.limit), cfg.value.write, old(lastUpdated), Tick(now)))
      ensures lastUpdated == if Advances(old(lastUpdated), Tick(now)) then Tick(now) else old(lastUpdated)
    {
      hide Refill, Tame, Updated;
      var c, tick := cfg.value, Tick(now);
      UpdatedLimits(read.limit, c.read, lastUpdated, tick);
      UpdatedLimits(write.limit, c.write, lastUpdated, tick);
      var n := Ticks(lastUpdated, tick);
      UpdatedIs(read.limit, c.read, lastUpdated, tick);
      UpdatedIs(write.limit, c.write, lastUpdated, tick);
      if n == 0 || n > INT_MAX {
        return;
      }
      read := read.(limit := Refill(read.limit, c.read, n));
      write := write.(limit := Refill(write.limit, c.write, n));
      lastUpdated := tick;
    }

    static lemma UpdatedIs(limit: int, c: Rate, last: nat, tick: nat)
      ensures Advances(last, tick) ==> Updated(limit, c, last, tick) == Refill(limit, c, Ticks(last, tick))
      ensures !Advances(last, tick) ==> Updated(limit, c, last, tick) == limit
    {
    }

    /** bufferevent_get_rlim_max_ outside any group. */
    method GetRlimMax(isWrite: bool, now: nat) returns (n: nat)
      requires Valid()
      modifies this`read, this`write, this`lastUpdated
      ensures Valid() <==> old(cfg.Some? ==> Tamed(now))
      ensures old(Within()) ==> Valid() && Within()
      ensures cfg.None? ==> read == old(read) && write == old(write) && lastUpdated == old(lastUpdated)
      ensures cfg.Some? ==>
        && read == old(read).(limit := Updated(old(read.limit), cfg.value.read, old(lastUpdated), Tick(now)))
        && write == old(write).(limit := Updated(old(write.limit), cfg.value.write, old(lastUpdated), Tick(now)))
        && lastUpdated == (if Advances(old(lastUpdated), Tick(now)) then Tick(now) else old(lastUpdated))
      ensures var s := if isWrite then write else read;
              n == if cfg.None? then s.maxSingle else if s.limit < 0 then 0 else s.limit
    {
      hide Refill, Updated, Tame;
      var max: int := if isWrite then write.maxSingle else read.maxSingle;
      if cfg.Some? {
        var tick := Tick(now);
        if tick != lastUpdated {
          Update(now);
        } else {
          SameTick(read.limit, cfg.value.read, tick);
          SameTick(write.limit, cfg.value.write, tick);
        }
        max := if isWrite then write.limit else read.limit;
      }
      n := if max < 0 then 0 else max;
    }

    lemma SameTick(limit: int, c: Rate, tick: nat)
      ensures !Advances(tick, tick) && Updated(limit, c, tick, tick) == limit && Tame(limit, c, tick, tick)
    {
    }

    /** bufferevent_decrement_read_buckets_ and bufferevent_decrement_write_buckets_ outside any group. */
    method DecrementBuckets(isWrite: bool, bytes: int)
      requires Valid() && IsSsize((if isWrite then write.limit else read.limit) - bytes)
      modifies this
      ensures Valid() && cfg == old(cfg) && lastUpdated == old(lastUpdated) && limited == old(limited)
      ensures if isWrite then read == old(read) else write == old(write)
      ensures var s, t := if isWrite then old(write) else old(read), if isWrite then write else read;
              && t.limit == (if cfg.Some? then s.limit - bytes else s.limit)
              && t.enabled == s.enabled && t.maxSingle == s.maxSingle
              && (cfg.Some? ==> (t.limit <= 0 <==> t.Stopped()))
              && t.suspended - {Bandwidth} == s.suspended - {Bandwidth}
      ensures old(Within()) && bytes >= 0 ==> Within()
      ensures var s, t := if isWrite then old(write) else old(read), if isWrite then write else read;
              var other := if isWrite then read else write;
              if cfg.Some? && t.limit <= 0 then armed && !fired
              else if cfg.Some? && s.Stopped() && !other.Stopped() then !armed && !fired
              else armed == old(armed) && fired == old(fired)
    {
      if cfg.None? {
        return;
      }
      var s, other := if isWrite then write else read, if isWrite then read else write;
      var t := Charge(s, bytes);
      if t.limit <= 0 {
        Arm();
      } else if s.Stopped() && !other.Stopped() {
        armed, fired := false, false;
      }
      Put(isWrite, t);
    }

    /** The side's own part of a decrement: exhausted, it is suspended; if not, resumed. */
    static method Charge(s: Side, bytes: int) returns (t: Side)
      requires s.Ok() && IsSsize(s.limit - bytes)
      ensures t.Ok() && t.limit == s.limit - bytes && t.enabled == s.enabled && t.maxSingle == s.maxSingle
      ensures (t.limit <= 0 <==> t.Stopped()) && t.suspended - {Bandwidth} == s.suspended - {Bandwidth}
    {
      t := s.(limit := s.limit - bytes);
      if t.limit <= 0 {
        t := Suspend(t, Bandwidth);
      } else if t.Stopped() {
        t := Unsuspend(t, Bandwidth);
      }
    }

    /** event_add on the refill timer: it waits for its timeout again, and if it had fired and not yet
        run, it leaves the active queue. */
    method Arm()
      modifies this`armed, this`fired
      ensures armed && !fired
    {
      armed, fired := true, false;
    }

    method Put(isWrite: bool, s: Side)
      modifies this`read, this`write
      ensures if isWrite then write == s && read == old(read) else read == s && write == old(write)
    {
      if isWrite {
        write := s;
      } else {
        read := s;
      }
    }

    /** bufferevent_decrement_read_limit and bufferevent_decrement_write_limit; a negative `decr`
        refills by hand. */
    method DecrementLimit(isWrite: bool, decr: int)
      requires Valid() && cfg.Some? && IsSsize((if isWrite then write.limit else read.limit) - decr)
      modifies this
      ensures Valid() && cfg == old(cfg) && lastUpdated == old(lastUpdated) && limited == old(limited)
      ensures if isWrite then read == old(read) else write == old(write)
      ensures var s, t := if isWrite then old(write) else old(read), if isWrite then write else read;
              && t.limit == s.limit - decr && t.enabled == s.enabled && t.maxSingle == s.maxSingle
              && (t.Stopped() <==> t.limit <= 0 || (s.Stopped() && s.limit > 0))
              && t.suspended - {Bandwidth} == s.suspended - {Bandwidth}
      ensures var s, t := if isWrite then old(write) else old(read), if isWrite then write else read;
              var other := if isWrite then read else write;
              if s.limit > 0 && t.limit <= 0 then armed && !fired
              else if s.limit <= 0 && t.limit > 0 && !other.Stopped() then !armed && !fired
              else armed == old(armed) && fired == old(fired)
      ensures old(Within()) ==>
        (Within() <==> if isWrite then write.limit <= cfg.value.write.max else read.limit <= cfg.value.read.max)
    {
      var s, other := if isWrite then write else read, if isWrite then read else write;
      var oldLimit := s.limit;
      s := s.(limit := s.limit - decr);
      if oldLimit > 0 && s.limit <= 0 {
        s := Suspend(s, Bandwidth);
        Arm();
      } else if oldLimit <= 0 && s.limit > 0 {
        if !other.Stopped() {
          armed, fired := false, false;
        }
        s := Unsuspend(s, Bandwidth);
      }
      Put(isWrite, s);
    }

    /** The refill timer reaches its timeout. */
    method Fire()
      requires Valid() && armed
      modifies this`armed, this`fired
      ensures Valid() && !armed && fired
    {
      armed, fired := false, true;
    }

    /** The event loop runs bev_refill_callback_, first taking the event out of every queue. */
    method RefillCallback(now: nat)
      requires Valid() && fired
      modifies this
      ensures cfg == old(cfg) && cfg.Some? && limited == old(limited)
      ensures Valid() <==> old(Tamed(now))
      ensures old(Within()) ==> Valid() && Within()
      ensures read.limit == Updated(old(read.limit), cfg.value.read, old(lastUpdated), Tick(now))
      ensures write.limit == Updated(old(write.limit), cfg.value.write, old(lastUpdated), Tick(now))
      ensures lastUpdated == if Advances(old(lastUpdated), Tick(now)) then Tick(now) else old(lastUpdated)
      ensures old(Tamed(now)) ==> (read.Stopped() <==> read.limit <= 0) && (write.Stopped() <==> write.limit <= 0)
      ensures Resumed(old(read), read) && Resumed(old(write), write)
      ensures armed <==> read.Stopped() || write.Stopped()
      ensures !fired && read.enabled == old(read.enabled) && write.enabled == old(write.enabled)
    {
      hide Updated, Tame;
      Update(now);
      armed, fired := false, false;
      var againRead, againWrite;
      read, againRead := Resume(read);
      write, againWrite := Resume(write);
      if againRead || againWrite {
        Arm();
      }
    }

    /** Only a bandwidth suspension may have ended, as it does with something to spend. */
    static predicate Resumed(s: Side, t: Side) {
      && t.Ok() && t.enabled == s.enabled && t.maxSingle == s.maxSingle
      && (t.Stopped() <==> s.Stopped() && t.limit <= 0) && t.suspended - {Bandwidth} == s.suspended - {Bandwidth}
    }

    /** A side suspended for bandwidth resumes if it has something to spend, else needs another refill. */
    static method Resume(s: Side) returns (t: Side, again: bool)
      requires s.Ok()
      ensures t.Ok() && t.limit == s.limit && t.enabled == s.enabled && t.maxSingle == s.maxSingle
      ensures (again <==> t.Stopped()) && (t.Stopped() <==> s.Stopped() && s.limit <= 0)
      ensures t.suspended - {Bandwidth} == s.suspended - {Bandwidth}
    {
      t, again := s, false;
      if s.Stopped() {
        if s.limit > 0 {
          t := Unsuspend(s, Bandwidth);
        } else {
          again := true;
        }
      }
    }

    /** bufferevent_set_rate_limit. */
    method SetRateLimit(to: Option<Cfg>, now: nat)
      requires Valid() && (to.Some? ==> to.value.Ok())
      modifies this
      ensures Valid() && cfg == to && (old(Within()) || old(cfg) != to ==> Within())
      ensures read.enabled == old(read.enabled) && write.enabled == old(write.enabled)
      ensures read.suspended - {Bandwidth} == old(read.suspended) - {Bandwidth}
      ensures write.suspended - {Bandwidth} == old(write.suspended) - {Bandwidth}
      ensures to.Some? && old(cfg) == to ==>
        read == old(read) && write == old(write) && armed == old(armed) && fired == old(fired)
      ensures to.Some? && old(cfg).None? ==>
        read.limit == to.value.read.rate && write.limit == to.value.write.rate && lastUpdated == TickAt(now, to.value)
      ensures to.Some? && old(cfg).Some? && old(cfg) != to ==>
        && read.limit == Clip(old(read.limit), to.value.read) && write.limit == Clip(old(write.limit), to.value.write)
        && lastUpdated == old(lastUpdated)
      ensures to.Some? && old(cfg) != to ==>
        (read.limit <= 0 <==> read.Stopped()) && (write.limit <= 0 <==> write.Stopped())
      ensures old(cfg) != to ==> (armed <==> read.Stopped() || write.Stopped()) && !fired
      ensures read.maxSingle == old(read.maxSingle) && write.maxSingle == old(write.maxSingle)
      ensures limited == (old(limited) || to.Some?) && (to.None? || old(cfg) == to ==> lastUpdated == old(lastUpdated))
      ensures to.None? ==> read.limit == old(read.limit) && write.limit == old(write.limit)
    {
      if to.None? {
        if limited {
          cfg := None;
          read, write := Unsuspend(read, Bandwidth), Unsuspend(write, Bandwidth);
          armed, fired := false, false;
        }
        return;
      }
      if cfg == to {
        return;
      }
      limited := true;
      var reinit := cfg.Some?;
      cfg := to;
      InitBucket(to.value, TickAt(now, to.value), reinit);
      if reinit {
        armed, fired := false, false;
      }
      ApplyLimits();
    }

    /** ev_token_bucket_init_. */
    method InitBucket(c: Cfg, tick: nat, reinitialize: bool)
      modifies this`read, this`write, this`lastUpdated
      ensures read == old(read).(limit := if reinitialize then Clip(old(read.limit), c.read) else c.read.rate)
      ensures write == old(write).(limit := if reinitialize then Clip(old(write.limit), c.write) else c.write.rate)
      ensures lastUpdated == if reinitialize then old(lastUpdated) else tick
    {
      if reinitialize {
        if read.limit > c.read.max {
          read := read.(limit := c.read.max);
        }
        if write.limit > c.write.max {
          write := write.(limit := c.write.max);
        }
      } else {
        read, write := read.(limit := c.read.rate), write.(limit := c.write.rate);
        lastUpdated := tick;
      }
    }

    /** The end of bufferevent_set_rate_limit: flags and timer follow the limits. */
    method ApplyLimits()
      requires read.Ok() && write.Ok()
      modifies this`read, this`write, this`armed, this`fired
      ensures read.Ok() && write.Ok() && read.limit == old(read.limit) && write.limit == old(write.limit)
      ensures (read.limit <= 0 <==> read.Stopped()) && (write.limit <= 0 <==> write.Stopped())
      ensures read.enabled == old(read.enabled) && write.enabled == old(write.enabled)
      ensures read.maxSingle == old(read.maxSingle) && write.maxSingle == old(write.maxSingle)
      ensures read.suspended - {Bandwidth} == old(read.suspended) - {Bandwidth}
      ensures write.suspended - {Bandwidth} == old(write.suspended) - {Bandwidth}
      ensures if read.Stopped() || write.Stopped() then armed && !fired else armed == old(armed) && fired == old(fired)
    {
      var suspended := false;
      if read.limit > 0 {
        read := Unsuspend(read, Bandwidth);
      } else {
        read := Suspend(read, Bandwidth);
        suspended := true;
      }
      if write.limit > 0 {
        write := Unsuspend(write, Bandwidth);
      } else {
        write := Suspend(write, Bandwidth);
        suspended := true;
      }
      if suspended {
        Arm();
      }
    }

    /** Suspensions for other reasons, and the user switching directions on and off, change no limit
        and no bandwidth suspension. */
    method SetOther(isWrite: bool, what: Option<Flag>, on: bool)
      requires Valid() && what != Some(Bandwidth)
      modifies this`read, this`write
      ensures Valid()
      ensures if isWrite then read == old(read) else write == old(write)
      ensures var s, t := if isWrite then old(write) else old(read), if isWrite then write else read;
              && t.limit == s.limit && t.maxSingle == s.maxSingle
              && t.enabled == (if what.None? then on else s.enabled)
              && t.suspended == if what.None? then s.suspended
                                else if on then s.suspended + {what.value} else s.suspended - {what.value}
      ensures read.Stopped() == old(read.Stopped()) && write.Stopped() == old(write.Stopped())
    {
      var s := if isWrite then write else read;
      if what.Some? {
        s := if on then Suspend(s, what.value) else Unsuspend(s, what.value);
      } else {
        s := if on then Enable(s) else Disable(s);
      }
      Put(isWrite, s);
    }
  }

  /** The smaller of a limit and the maximum. */
  function Clip(limit: int, c: Rate): (r: int)
    ensures r <= limit && r <= c.max && (r == limit || r == c.max)
  {
    if limit > c.max then c.max else limit
  }
}
