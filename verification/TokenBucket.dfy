/** Token-bucket arithmetic (android/core/src/main/jni/libevent/bufferevent_ratelim.c:50-111). */
module TokenBucket {
  import opened Basics
  import opened Modular

  predicate IsSsize(n: int) {
    0 <= n + SSIZE_MAX + 1 <= U64 - 1
  }

  /** One direction of a configuration that ev_token_bucket_cfg_new accepts. */
  datatype Rate = Rate(rate: nat, max: nat) {
    predicate Ok() {
      1 <= rate <= max <= SSIZE_MAX
    }
  }

  /** The low 64 bits of a number, read as signed. */
  function Signed(n: int): int {
    var word := n % U64;
    if word <= SSIZE_MAX then word else word - U64
  }

  /** The low 64 bits of a number, read as unsigned. */
  function Unsigned(n: int): nat {
    n % U64
  }

  function Gain(c: Rate, n: nat): nat {
    n * c.rate
  }

  /** The refill of one limit after `n` ticks, in the source's 64-bit arithmetic. */
  function Refill(limit: int, c: Rate, n: nat): int
    requires n > 0
  {
    if Unsigned(c.max - limit) / n < c.rate then c.max else Signed(limit + Gain(c, n))
  }

  /** What the refill is meant to be. */
  function Naive(limit: int, c: Rate, n: nat): int {
    if limit + Gain(c, n) > c.max then c.max else limit + Gain(c, n)
  }

  lemma DivBelow(d: nat, n: nat, c: Rate)
    requires n > 0
    ensures d / n < c.rate <==> d < Gain(c, n)
  {
    var q := d / n;
    Divided(d, n);
    MinusTimes(n, c.rate, q);
    NoMultiple(n, c.rate - q);
  }

  lemma GainGrows(c: Rate, n: nat)
    requires n > 0
    ensures Gain(c, n) >= c.rate
  {
    assert (n - 1) * c.rate >= 0;
  }

  lemma GainAdds(c: Rate, n: nat, m: nat)
    ensures Gain(c, n + m) == Gain(c, n) + Gain(c, m)
  {
  }

  /** The word of a number in range reads back as that number. */
  lemma WordBack(n: int)
    ensures 0 <= n < U64 ==> Unsigned(n) == n
    ensures -1 < n + U64 < U64 ==> Unsigned(n) == n + U64
    ensures IsSsize(n) ==> Signed(n) == n
    ensures SSIZE_MAX < n < U64 ==> Signed(n) == n - U64
    ensures U64 <= n <= U64 + SSIZE_MAX ==> Signed(n) == n - U64
  {
  }

  /** While the limit is at most the maximum, the division form is the naive form, and nothing wraps. */
  lemma RefillIsNaive(limit: int, c: Rate, n: nat)
    requires c.Ok() && IsSsize(limit) && limit <= c.max && n > 0
    ensures Refill(limit, c, n) == Naive(limit, c, n)
    ensures limit < c.max ==> limit < Refill(limit, c, n)
    ensures limit <= Refill(limit, c, n) <= c.max && IsSsize(Refill(limit, c, n))
    ensures Refill(limit, c, n) <= limit + Gain(c, n)
  {
    hide Gain, Signed, Unsigned;
    WordBack(c.max - limit);
    DivBelow(c.max - limit, n, c);
    GainGrows(c, n);
    WordBack(limit + Gain(c, n));
  }

  /** Above the maximum the two forms agree exactly when the wrapped difference is small enough. */
  lemma RefillAboveMax(limit: int, c: Rate, n: nat)
    requires c.Ok() && IsSsize(limit) && limit > c.max && n > 0
    ensures Refill(limit, c, n) == Naive(limit, c, n) <==> U64 - (limit - c.max) <= Gain(c, n)
  {
    hide Gain, Signed, Unsigned;
    WordBack(c.max - limit);
    DivBelow(U64 - (limit - c.max), n, c);
    GainGrows(c, n);
    WordBack(limit + Gain(c, n));
  }

  /** A limit pushed above the maximum can leave a refill empty-handed: it wraps below zero. */
  lemma RefillCanWrap()
    ensures var c := Rate(2, 2); c.Ok() && Refill(SSIZE_MAX, c, 1) < 0
  {
    WordBack(SSIZE_MAX + 2);
    WordBack(2 - SSIZE_MAX);
  }

  /** A refill of a limit above the maximum ends at or below zero exactly when the sum leaves the
      signed range without coming round to the positive side. */
  lemma RefillWraps(limit: int, c: Rate, n: nat)
    requires c.Ok() && IsSsize(limit) && limit > c.max && n > 0
    ensures IsSsize(Refill(limit, c, n))
    ensures Refill(limit, c, n) <= 0 <==> SSIZE_MAX < limit + Gain(c, n) <= U64
  {
    hide Gain, Signed, Unsigned;
    WordBack(c.max - limit);
    DivBelow(U64 - (limit - c.max), n, c);
    WordBack(limit + Gain(c, n));
  }

  function Total(ns: seq<nat>): nat {
    if ns == [] then 0 else ns[0] + Total(ns[1..])
  }

  function RefillMany(limit: int, c: Rate, ns: seq<nat>): int
    requires forall i :: 0 <= i < |ns| ==> ns[i] > 0
    decreases |ns|
  {
    if ns == [] then limit else RefillMany(Refill(limit, c, ns[0]), c, ns[1..])
  }

  /** Splitting an interval into several refills changes nothing. */
  lemma {:induction false} RefillSplits(limit: int, c: Rate, ns: seq<nat>)
    requires c.Ok() && IsSsize(limit) && limit <= c.max && |ns| > 0
    requires forall i :: 0 <= i < |ns| ==> ns[i] > 0
    ensures Total(ns) > 0 && RefillMany(limit, c, ns) == Refill(limit, c, Total(ns))
    decreases |ns|
  {
    hide Refill, Gain;
    var n, rest := ns[0], ns[1..];
    var mid := Refill(limit, c, n);
    RefillIsNaive(limit, c, n);
    if rest == [] {
      assert Total(ns) == n;
    } else {
      RefillSplits(mid, c, rest);
      var m := Total(rest);
      RefillIsNaive(mid, c, m);
      RefillIsNaive(limit, c, n + m);
      GainAdds(c, n, m);
    }
  }

  // ----- ticks --------------------------------------------------------------------------------------

  /** Ticks since the last update, as the 32-bit subtraction sees them. */
  function Ticks(last: nat, tick: nat): (n: nat)
    ensures n < U32
  {
    (tick - last) % U32
  }

  predicate Advances(last: nat, tick: nat) {
    1 <= Ticks(last, tick) <= INT_MAX
  }

  /** ev_token_bucket_update_ on one limit. */
  function Updated(limit: int, c: Rate, last: nat, tick: nat): int {
    if Advances(last, tick) then Refill(limit, c, Ticks(last, tick)) else limit
  }

  /** Whether updating at `tick` keeps a positive limit positive. */
  predicate Tame(limit: int, c: Rate, last: nat, tick: nat) {
    limit > c.max && Advances(last, tick) ==> !(SSIZE_MAX < limit + Gain(c, Ticks(last, tick)) <= U64)
  }

  lemma UpdatedLimits(limit: int, c: Rate, last: nat, tick: nat)
    requires c.Ok() && IsSsize(limit)
    ensures IsSsize(Updated(limit, c, last, tick))
    ensures limit <= c.max ==> limit <= Updated(limit, c, last, tick) <= c.max
    ensures limit > 0 ==> (Updated(limit, c, last, tick) > 0 <==> Tame(limit, c, last, tick))
  {
    if Advances(last, tick) {
      hide Refill;
      if limit <= c.max {
        RefillIsNaive(limit, c, Ticks(last, tick));
      } else {
        RefillWraps(limit, c, Ticks(last, tick));
      }
    }
  }

  lemma ModShift(a: int, b: int, m: nat)
    requires m > 0 && 0 <= a < m && b >= 0
    ensures (a + b) % m <= a + b
    ensures a + b < m ==> (a + b) % m == a + b
    ensures a + b >= m ==> (a + b) % m <= a + b - m
  {
    if a + b < m {
      ModUnique(a + b, m, 0, a + b);
    } else {
      var c := a + b - m;
      ModAtMost(c, m);
      ModTurn(c, m);
    }
  }

  /** The bucket was settled at time `t`: it will not be refilled for anything before that. */
  predicate Settled(last: nat, t: nat) {
    !Advances(last, t % U32)
  }

  lemma MovesOn(last: nat, t: nat, u: nat)
    requires last < U32 && t <= u
    ensures Ticks(last, u % U32) == (Ticks(last, t % U32) + (u - t)) % U32
  {
    var a, b := t % U32 - last, u % U32 - last;
    ModDiff(a, b, u - t, t / U32, u / U32);
  }

  lemma ModDiff(a: int, b: int, d: int, qa: int, qb: int)
    requires b + U32 * qb == a + U32 * qa + d
    ensures b % U32 == (a % U32 + d) % U32
  {
    var r := b % U32;
    var q := b / U32 + qb - qa - a / U32;
    assert a % U32 + d == U32 * q + r;
    ModUnique(a % U32 + d, U32, q, r);
  }

  /** A later update of a settled bucket counts no more ticks than have passed, even across the
      wrap of the tick counter. */
  lemma TicksAfterSettled(last: nat, t: nat, u: nat)
    requires last < U32 && t <= u && Settled(last, t) && Advances(last, u % U32)
    ensures Ticks(last, u % U32) <= u - t
  {
    MovesOn(last, t, u);
    ModShift(Ticks(last, t % U32), u - t, U32);
  }

  lemma SettledNow(t: nat)
    ensures Settled(t % U32, t) && t % U32 < U32
  {
  }
}
