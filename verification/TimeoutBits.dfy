/** How a timeval names a common-timeout queue in the high bits of its microseconds
    (android/core/src/main/jni/libevent/event.c:1352-1391, 1453-1500, 1529-1567, 2666-2678, 3290-3304). */
module TimeoutBits {
  const MILLION: nat := 1_000_000
  const USEC_BITS: nat := 0x10_0000
  const MAGIC: nat := 5

  /** Seconds, and a 32-bit word of microseconds with room above its low twenty bits. */
  datatype Timeval = Timeval(sec: nat, usec: nat)

  function Micros(tv: Timeval): nat {
    tv.usec % USEC_BITS
  }

  function Idx(tv: Timeval): nat {
    tv.usec / USEC_BITS % 256
  }

  /** is_common_timeout. */
  predicate IsCommon(tv: Timeval, n: nat) {
    tv.usec / 0x1000_0000 % 16 == MAGIC && Idx(tv) < n
  }

  /** is_same_common_timeout. */
  predicate IsSame(a: Timeval, b: Timeval) {
    a.usec / USEC_BITS == b.usec / USEC_BITS
  }

  /** The word stored for queue `i`: OR of microseconds, magic and index, which share no bits. */
  function Pack(sec: nat, usec: nat, i: nat): Timeval {
    Timeval(sec, usec + MAGIC * 0x1000_0000 + i * USEC_BITS)
  }

  /** When a timeval is due, in microseconds. */
  function Deadline(tv: Timeval): nat {
    tv.sec * MILLION + Micros(tv)
  }

  /** evutil_timercmp with `<=`. */
  predicate AtMost(a: Timeval, b: Timeval) {
    if a.sec == b.sec then a.usec <= b.usec else a.sec <= b.sec
  }

  /** evutil_timeradd of normal timevals. */
  function TimerAdd(a: Timeval, b: Timeval): Timeval {
    if a.usec + b.usec >= MILLION then Timeval(a.sec + b.sec + 1, a.usec + b.usec - MILLION)
    else Timeval(a.sec + b.sec, a.usec + b.usec)
  }

  /** The queue a timeval names when there are `n` of them; -1 for none. */
  function QueueNumber(tv: Timeval, n: nat): (q: int)
    ensures -1 <= q < n
  {
    if IsCommon(tv, n) then Idx(tv) else -1
  }

  /** Without its magic bits. */
  function Plain(tv: Timeval): Timeval {
    Timeval(tv.sec, Micros(tv))
  }

  /** With the magic bits of `like`. */
  function Mark(tv: Timeval, like: Timeval): Timeval {
    Timeval(tv.sec, tv.usec + like.usec / USEC_BITS * USEC_BITS)
  }

  /** A reading of the clock. */
  predicate Normal(tv: Timeval) {
    tv.usec < MILLION
  }

  /** An interval that event_add may be given: up to a million microseconds, plain or from the base's
      own common timeouts. */
  predicate Proper(tv: Timeval, n: nat) {
    Micros(tv) <= MILLION && (tv.usec < USEC_BITS || (IsCommon(tv, n) && tv.usec < 0x1_0000_0000))
  }

  /** `tv` is the word for deadline `when` in queue `queue`, or for the heap when that is negative. */
  predicate Names(tv: Timeval, when: nat, queue: int) {
    && Micros(tv) < MILLION && Deadline(tv) == when && -1 <= queue < 256
    && tv.usec / USEC_BITS == if queue < 0 then 0 else MAGIC * 256 + queue
  }

  /** What event_add_nolock_ stores: an absolute time as it is, an interval counted from `now`, with the
      magic bits of a common one put back. */
  function Stamp(now: Timeval, tv: Timeval, absolute: bool, n: nat): Timeval {
    if absolute then tv
    else if IsCommon(tv, n) then Mark(TimerAdd(now, Plain(tv)), tv)
    else TimerAdd(now, tv)
  }

  /** A delay after `from`, or after `now` if that has gone by. */
  function Next(from: Timeval, delay: Timeval, now: Timeval): Timeval {
    var sum := TimerAdd(from, delay);
    if !AtMost(now, sum) then TimerAdd(now, delay) else sum
  }

  /** The next deadline of a persistent event: a period after the one that came, or after `now` when it ran
      for another reason or has missed a turn. */
  function Again(stamp: Timeval, period: Timeval, now: Timeval, timedOut: bool, n: nat): Timeval {
    if IsCommon(stamp, n) then Mark(Next(if timedOut then Plain(stamp) else now, Plain(period), now), period)
    else Next(if timedOut then stamp else now, period, now)
  }

  /** The same deadline in microseconds. */
  function AgainAt(when: nat, period: nat, now: nat, timedOut: bool): nat {
    var at := (if timedOut then when else now) + period;
    if at < now then now + period else at
  }

  /** The duration event_base_init_common_timeout looks for: overlong microseconds become seconds, without the bits
      that name a queue; the length is the same. */
  function Normalised(tv: Timeval, n: nat): (r: Timeval)
    ensures r.sec * MILLION + r.usec == tv.sec * MILLION + if IsCommon(tv, n) then Micros(tv) else tv.usec
    ensures r.usec <= MILLION && (tv.usec <= MILLION ==> r == tv)
  {
    if tv.usec > MILLION then
      var u := if IsCommon(tv, n) then Micros(tv) else tv.usec;
      Timeval(tv.sec + u / MILLION, u % MILLION)
    else tv
  }

  /** Packing loses nothing, and is recognised exactly while the queue exists. */
  lemma Unpack(sec: nat, usec: nat, i: nat, n: nat)
    requires usec < USEC_BITS && i < 256
    ensures var tv := Pack(sec, usec, i);
            Micros(tv) == usec && Idx(tv) == i && tv.usec < 0x1_0000_0000 && (IsCommon(tv, n) <==> i < n)
            && tv.usec / USEC_BITS == MAGIC * 256 + i && Deadline(tv) == sec * MILLION + usec
  {
    var tv := Pack(sec, usec, i);
    assert tv.usec / USEC_BITS == MAGIC * 256 + i;
    assert tv.usec / 0x1000_0000 == MAGIC;
  }

  /** A plain timeval is never taken for a common one. */
  lemma PlainIsPlain(tv: Timeval, n: nat)
    requires tv.usec < USEC_BITS
    ensures !IsCommon(tv, n) && Micros(tv) == tv.usec && tv.usec / USEC_BITS == 0
  {
  }

  /** Comparing two timevals of one queue, or two plain ones, word for word compares their deadlines. */
  lemma SameOrder(a: Timeval, b: Timeval)
    requires IsSame(a, b) && Micros(a) < MILLION && Micros(b) < MILLION
    ensures AtMost(a, b) <==> Deadline(a) <= Deadline(b)
  {
    assert a.usec == a.usec / USEC_BITS * USEC_BITS + Micros(a);
    assert b.usec == b.usec / USEC_BITS * USEC_BITS + Micros(b);
    if a.sec < b.sec {
      assert (a.sec + 1) * MILLION <= b.sec * MILLION;
    } else if b.sec < a.sec {
      assert (b.sec + 1) * MILLION <= a.sec * MILLION;
    }
  }

  /** A word with magic is a packed one. */
  lemma Packed(tv: Timeval, n: nat)
    requires IsCommon(tv, n) && tv.usec < 0x1_0000_0000
    ensures Idx(tv) < 256 && tv == Pack(tv.sec, Micros(tv), Idx(tv))
    ensures tv.usec / USEC_BITS == MAGIC * 256 + Idx(tv)
  {
    assert tv.usec == tv.usec / USEC_BITS * USEC_BITS + Micros(tv);
    assert tv.usec / USEC_BITS / 256 == tv.usec / 0x1000_0000;
  }

  /** A stored word is in the queue it names, as long as that exists. */
  lemma Decoded(tv: Timeval, when: nat, queue: int, n: nat)
    requires Names(tv, when, queue) && queue < n <= 256
    ensures QueueNumber(tv, n) == queue && (IsCommon(tv, n) <==> queue >= 0)
    ensures queue < 0 ==> Normal(tv)
    ensures queue >= 0 ==> tv == Pack(tv.sec, Micros(tv), queue)
  {
    assert tv.usec == tv.usec / USEC_BITS * USEC_BITS + Micros(tv);
    if queue < 0 {
      PlainIsPlain(tv, n);
    } else {
      Unpack(tv.sec, Micros(tv), queue, n);
    }
  }

  /** Adding a normal time and an interval gives the normal time that much later. */
  lemma AddsUp(a: Timeval, b: Timeval)
    requires Normal(a) && b.usec <= MILLION
    ensures var sum := TimerAdd(a, b); Normal(sum) && Deadline(sum) == Deadline(a) + Deadline(b)
  {
    hide Micros;
    PlainIsPlain(a, 0);
    PlainIsPlain(b, 0);
    PlainIsPlain(TimerAdd(a, b), 0);
  }

  /** Putting the magic bits of queue `i` on a normal time. */
  lemma Marked(tv: Timeval, like: Timeval, i: nat)
    requires Normal(tv) && i < 256 && like.usec / USEC_BITS == MAGIC * 256 + i
    ensures Mark(tv, like) == Pack(tv.sec, tv.usec, i) && Names(Mark(tv, like), Deadline(tv), i) && IsSame(Mark(tv, like), like)
  {
    Unpack(tv.sec, tv.usec, i, 256);
  }

  /** What event_add_nolock_ stores names the deadline asked for, in the queue the interval named. */
  lemma StampNames(now: Timeval, tv: Timeval, absolute: bool, n: nat)
    requires Normal(now) && Proper(tv, n) && n <= 256 && (absolute ==> Micros(tv) < MILLION)
    ensures Names(Stamp(now, tv, absolute, n), Deadline(tv) + (if absolute then 0 else Deadline(now)), QueueNumber(tv, n))
    ensures IsSame(Stamp(now, tv, absolute, n), tv)
  {
    hide Deadline, Mark, TimerAdd, IsCommon, Micros, Plain;
    PlainSame(tv);
    if IsCommon(tv, n) {
      Packed(tv, n);
      AddsUp(now, Plain(tv));
      Marked(TimerAdd(now, Plain(tv)), tv, Idx(tv));
    } else {
      PlainIsPlain(tv, n);
      AddsUp(now, tv);
      PlainIsPlain(TimerAdd(now, tv), n);
    }
  }

  lemma NextAt(from: Timeval, delay: Timeval, now: Timeval)
    requires Normal(from) && Normal(now) && delay.usec <= MILLION
    ensures var run := Next(from, delay, now);
            Normal(run) && Deadline(run) == AgainAt(Deadline(from), Deadline(delay), Deadline(now), true)
  {
    hide Deadline, TimerAdd, AtMost;
    AddsUp(from, delay);
    AddsUp(now, delay);
    PlainIsPlain(now, 0);
    PlainIsPlain(TimerAdd(from, delay), 0);
    SameOrder(now, TimerAdd(from, delay));
  }

  lemma PlainSame(tv: Timeval)
    ensures Deadline(Plain(tv)) == Deadline(tv) && (tv.usec / USEC_BITS == 0 ==> Plain(tv) == tv)
    ensures Plain(tv).usec == Micros(tv)
  {
    assert tv.usec == tv.usec / USEC_BITS * USEC_BITS + Micros(tv);
  }

  /** A persistent event's next deadline stays in its queue and is the one in microseconds. */
  lemma AgainNames(stamp: Timeval, period: Timeval, now: Timeval, timedOut: bool, n: nat, when: nat, queue: int)
    requires Names(stamp, when, queue) && queue < n <= 256 && IsSame(stamp, period) && Micros(period) <= MILLION && Normal(now)
    ensures var r := Again(stamp, period, now, timedOut, n);
            Names(r, AgainAt(when, Deadline(period), Deadline(now), timedOut), queue) && IsSame(r, period) && Proper(r, n)
  {
    hide Deadline, Next, Mark, Plain, IsCommon, Micros;
    Decoded(stamp, when, queue, n);
    PlainSame(stamp);
    PlainSame(period);
    var from := if timedOut then Plain(stamp) else now;
    NextAt(from, Plain(period), now);
    var run := Next(from, Plain(period), now);
    if queue >= 0 {
      Marked(run, period, queue);
      Unpack(run.sec, run.usec, queue, n);
    } else {
      PlainIsPlain(run, n);
    }
  }
}
