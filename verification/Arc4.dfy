/** The random generator's byte table and its unbiased range reduction
    (android/core/src/main/jni/libevent/arc4random.c:97-122, 362-448, 463-497, 523-555). */
module Arc4 {
  import opened Basics
  import opened Modular

  // ----- the byte table -----------------------------------------------------------------------------

  /** Generator state: the two cursors and the table. */
  datatype State = State(i: Byte, j: Byte, s: seq<Byte>) {
    /** The table holds every byte exactly once. */
    predicate Ok() {
      |s| == 256 && forall a, b :: 0 <= a < b < 256 ==> s[a] != s[b]
    }
  }

  function Swapped<T>(s: seq<T>, i: nat, j: nat): (r: seq<T>)
    requires i < |s| && j < |s|
    ensures |r| == |s|
  {
    s[i := s[j]][j := s[i]]
  }

  function Wrap(n: int): Byte {
    n % 256
  }

  /** The sum of two bytes in a byte. */
  function Sum(a: int, b: int): Byte {
    Wrap(a + b)
  }

  /** One mixing step with key byte `key`; a draw mixes with zero. */
  function Mix(st: State, key: Byte): State
    requires |st.s| == 256
  {
    var i := Wrap(st.i + 1);
    var j := Wrap(st.j + st.s[i] + key);
    State(i, j, Swapped(st.s, i, j))
  }

  /** The step before a mixing step. */
  function Unmix(st: State, key: Byte): State
    requires |st.s| == 256
  {
    State(Wrap(st.i - 1), Wrap(st.j - st.s[st.j] - key), Swapped(st.s, st.i, st.j))
  }

  lemma SwapKeepsOk(s: seq<Byte>, i: Byte, j: Byte)
    requires State(0, 0, s).Ok()
    ensures State(0, 0, Swapped(s, i, j)).Ok()
  {
  }

  /** Mixing keeps the table a permutation and loses nothing: the step can be undone. */
  lemma MixReversible(st: State, key: Byte)
    requires st.Ok()
    ensures Mix(st, key).Ok() && Unmix(Mix(st, key), key) == st
  {
    var m := Mix(st, key);
    SwapKeepsOk(st.s, m.i, m.j);
    assert m.s[m.j] == st.s[m.i];
    assert Swapped(m.s, m.i, m.j) == st.s;
    assert Wrap(m.i - 1) == st.i;
    assert Wrap(m.j - st.s[m.i] - key) == st.j;
  }

  predicate Holds(st: State, b: Byte) {
    |st.s| == 256 && exists k :: 0 <= k < 256 && st.s[k] == b
  }

  /** A table of 256 distinct bytes holds every byte. */
  lemma {:induction false} HoldsAll(st: State, b: Byte)
    requires st.Ok()
    ensures Holds(st, b)
  {
    if forall k :: 0 <= k < 256 ==> st.s[k] != b {
      Crowded(st.s, b, 256);
    }
  }

  /** Distinct bytes that avoid `b` are at most 255. */
  lemma {:induction false} Crowded(s: seq<Byte>, b: Byte, n: nat)
    requires n <= |s| && (forall i, j :: 0 <= i < j < n ==> s[i] != s[j])
    requires forall i :: 0 <= i < n ==> s[i] != b
    ensures n <= 255
  {
    SeenSize(s, n);
    var all := BytesBelow(256);
    forall x | x in Seen(s, n)
      ensures x in all - {b}
    {
      SeenMember(s, n, x);
    }
    SubsetSize(Seen(s, n), all - {b});
  }

  /** The bytes among the first `n` entries. */
  function Seen(s: seq<Byte>, n: nat): set<Byte>
    requires n <= |s|
  {
    if n == 0 then {} else Seen(s, n - 1) + {s[n - 1]}
  }

  lemma {:induction false} SeenMember(s: seq<Byte>, n: nat, x: Byte)
    requires n <= |s| && x in Seen(s, n)
    ensures exists i :: 0 <= i < n && s[i] == x
  {
    if x in Seen(s, n - 1) {
      SeenMember(s, n - 1, x);
    } else {
      assert s[n - 1] == x;
    }
  }

  lemma {:induction false} SeenSize(s: seq<Byte>, n: nat)
    requires n <= |s| && (forall i, j :: 0 <= i < j < n ==> s[i] != s[j])
    ensures |Seen(s, n)| == n
  {
    if n > 0 {
      SeenSize(s, n - 1);
      if s[n - 1] in Seen(s, n - 1) {
        SeenMember(s, n - 1, s[n - 1]);
        assert false;
      }
    }
  }

  function BytesBelow(n: nat): (r: set<Byte>)
    requires n <= 256
    ensures |r| == n && forall x: Byte :: x in r <==> x < n
  {
    if n == 0 then {} else BytesBelow(n - 1) + {n - 1}
  }

  /** The state after mixing in `dat`, cyclically, for the first `n` steps of a key schedule. */
  function Keyed(st: State, dat: seq<Byte>, n: nat): State
    requires |st.s| == 256 && |dat| > 0
    ensures |Keyed(st, dat, n).s| == 256
  {
    if n == 0 then st.(i := Wrap(st.i - 1)) else Mix(Keyed(st, dat, n - 1), dat[(n - 1) % |dat|])
  }

  lemma {:induction false} KeyedCursor(st: State, dat: seq<Byte>, n: nat)
    requires st.Ok() && |st.s| == 256 && |dat| > 0
    ensures Keyed(st, dat, n).Ok() && Keyed(st, dat, n).i == Wrap(st.i - 1 + n)
  {
    hide Mix, Wrap, State.Ok;
    if n == 0 {
      CursorOnly(st, Wrap(st.i - 1));
    } else {
      KeyedCursor(st, dat, n - 1);
      var key := dat[(n - 1) % |dat|];
      MixReversible(Keyed(st, dat, n - 1), key);
      MixCursor(Keyed(st, dat, n - 1), key);
      WrapNext(st.i - 1 + (n - 1));
    }
  }

  lemma CursorOnly(st: State, i: Byte)
    requires st.Ok()
    ensures st.(i := i).Ok()
  {
  }

  lemma WrapNext(n: int)
    ensures Wrap(Wrap(n) + 1) == Wrap(n + 1)
  {
  }

  lemma WrapRound(n: int)
    ensures Wrap(n + 256) == Wrap(n)
  {
  }

  lemma KeyedFirst(st: State, dat: seq<Byte>)
    requires |st.s| == 256 && |dat| > 0
    ensures Keyed(st, dat, 0) == st.(i := Wrap(st.i - 1))
  {
  }

  lemma KeyedNext(st: State, dat: seq<Byte>, n: nat)
    requires |st.s| == 256 && |dat| > 0
    ensures Keyed(st, dat, n + 1) == Mix(Keyed(st, dat, n), dat[n % |dat|])
  {
  }

  lemma MixCursor(st: State, key: Byte)
    requires |st.s| == 256
    ensures Mix(st, key).i == Wrap(st.i + 1)
  {
  }

  /** The state after arc4_addrandom. */
  function Rekeyed(st: State, dat: seq<Byte>): (r: State)
    requires |st.s| == 256 && |dat| > 0
    ensures |r.s| == 256
  {
    var k := Keyed(st, dat, 256);
    State(k.i, k.i, k.s)
  }

  /** The state after mixing in one piece after the other. */
  function RekeyedAll(st: State, pieces: seq<seq<Byte>>): (r: State)
    requires |st.s| == 256 && forall k :: 0 <= k < |pieces| ==> |pieces[k]| > 0
    ensures |r.s| == 256
    decreases |pieces|
  {
    if pieces == [] then st else RekeyedAll(Rekeyed(st, pieces[0]), pieces[1..])
  }

  /** `dat` from its start, from its byte 256, from its byte 512 and so on. */
  function Pieces(dat: seq<Byte>): (r: seq<seq<Byte>>)
    ensures forall k :: 0 <= k < |r| ==> |r[k]| > 0
    decreases |dat|
  {
    if dat == [] then [] else [dat] + Pieces(if |dat| > 256 then dat[256..] else [])
  }

  /** The table before any key: arc4_init. */
  function Identity(): (st: State)
    ensures |st.s| == 256
  {
    State(0, 0, seq(256, k requires 0 <= k < 256 => k))
  }

  /** The state after arc4_stir, and whether there was a seed. */
  function Stirred(st: State, initialized: bool, sources: seq<seq<Byte>>, seeded: bool): (r: State)
    requires |st.s| == 256 && forall k :: 0 <= k < |sources| ==> |sources[k]| > 0
    ensures |r.s| == 256
  {
    var mixed := RekeyedAll(if initialized then st else Identity(), sources);
    if seeded then Stream(mixed, 12 * 256).1 else mixed
  }

  /** The bytes the generator gives next, and the state it is left in. */
  function Stream(st: State, n: nat): (r: (seq<Byte>, State))
    requires |st.s| == 256
    ensures |r.0| == n && |r.1.s| == 256
  {
    if n == 0 then ([], st)
    else
      var m := Mix(Stream(st, n - 1).1, 0);
      (Stream(st, n - 1).0 + [m.s[Sum(m.s[m.i], m.s[m.j])]], m)
  }

  /** Four bytes as a word, high byte first. */
  function Word(b: seq<Byte>): (w: nat)
    requires |b| == 4
    ensures w < U32 && w / 0x1_0000 == 0x100 * (b[0] as int) + b[1] as int && w % 0x1_0000 == 0x100 * (b[2] as int) + b[3] as int
  {
    var b0: int, b1: int, b2: int, b3: int := b[0], b[1], b[2], b[3];
    0x100_0000 * b0 + 0x1_0000 * b1 + 0x100 * b2 + b3
  }

  // ----- the whole generator ------------------------------------------------------------------------

  predicate SourcesOk(sources: seq<seq<Byte>>) {
    forall k :: 0 <= k < |sources| ==> |sources[k]| > 0
  }

  /** What the process id and the entropy sources are at one draw. */
  datatype Draw = Draw(changed: bool, sources: seq<seq<Byte>>)

  /** The table, rs_initialized, arc4_seeded_ok and arc4_count. */
  datatype Gen = Gen(st: State, initialized: bool, seeded: bool, count: int)

  /** arc4_stir. */
  function StirredGen(g: Gen, sources: seq<seq<Byte>>): (r: Gen)
    requires |g.st.s| == 256 && SourcesOk(sources)
    ensures |r.st.s| == 256
  {
    var ok := g.seeded || sources != [];
    Gen(Stirred(g.st, g.initialized, sources, ok), true, ok, if ok then 1600000 else g.count)
  }

  /** arc4_stir_if_needed. */
  function Readied(g: Gen, d: Draw): (r: Gen)
    requires |g.st.s| == 256 && SourcesOk(d.sources)
    ensures |r.st.s| == 256
  {
    if g.count <= 0 || !g.initialized || d.changed then StirredGen(g, d.sources) else g
  }

  /** arc4random: the word it gives, and what it leaves. */
  function Drawn(g: Gen, d: Draw): (r: (nat, Gen))
    requires |g.st.s| == 256 && SourcesOk(d.sources)
    ensures |r.1.st.s| == 256 && r.0 < U32
  {
    var h := Readied(g.(count := g.count - 4), d);
    (Word(Stream(h.st, 4).0), h.(st := Stream(h.st, 4).1))
  }

  predicate WorldOk(world: seq<Draw>) {
    forall d :: 0 <= d < |world| ==> SourcesOk(world[d].sources)
  }

  /** The words of one draw after the other. */
  function DrawnAll(g: Gen, world: seq<Draw>): (r: (seq<nat>, Gen))
    requires |g.st.s| == 256 && WorldOk(world)
    ensures |r.1.st.s| == 256 && |r.0| == |world| && forall k :: 0 <= k < |r.0| ==> r.0[k] < U32
  {
    if world == [] then ([], g)
    else
      var k := |world| - 1;
      var front := DrawnAll(g, world[..k]);
      var last := Drawn(front.1, world[k]);
      (front.0 + [last.0], last.1)
  }

  predicate AllSourcesOk(world: seq<seq<seq<Byte>>>) {
    forall d :: 0 <= d < |world| ==> SourcesOk(world[d])
  }

  /** What the loop of arc4random_buf leaves in the end of the buffer: the stream backwards. It stirs before a
      byte when the allowance is used up. */
  function Filled(g: Gen, world: seq<seq<seq<Byte>>>): (r: (seq<Byte>, Gen))
    requires |g.st.s| == 256 && AllSourcesOk(world)
    ensures |r.1.st.s| == 256 && |r.0| == |world|
  {
    if world == [] then ([], g)
    else
      var k := |world| - 1;
      var tail := Filled(g, world[..k]);
      var h := tail.1.(count := tail.1.count - 1);
      var ready := if h.count <= 0 then StirredGen(h, world[k]) else h;
      var next := Stream(ready.st, 1);
      (next.0 + tail.0, ready.(st := next.1))
  }

  class Generator {
    var i: Byte
    var j: Byte
    const s: array<Byte>
    var initialized: bool
    var count: int
    var seededOk: bool

    ghost predicate Valid()
      reads this, s
    {
      s.Length == 256 && (initialized ==> Current().Ok())
    }

    ghost function Current(): State
      reads this, s
    {
      State(i, j, s[..])
    }

    ghost function Now(): Gen
      reads this, s
    {
      Gen(Current(), initialized, seededOk, count)
    }

    constructor ()
      ensures Valid() && !initialized && !seededOk && fresh(s)
    {
      s := new Byte[256](_ => 0);
      i, j, initialized, count, seededOk := 0, 0, false, 0, false;
    }

    /** arc4_init. */
    method Init()
      requires s.Length == 256
      modifies this`i, this`j, s
      ensures Current().Ok() && Current() == Identity()
    {
      for n := 0 to 256
        invariant forall k :: 0 <= k < n ==> s[k] == k
      {
        s[n] := n;
      }
      i, j := 0, 0;
    }

    /** The loop body shared by arc4_addrandom and arc4_getbyte. */
    method Step(key: Byte)
      requires Current().Ok()
      modifies this`i, this`j, s
      ensures Current() == Mix(old(Current()), key) && Current().Ok()
    {
      MixReversible(Current(), key);
      i := Wrap(i + 1);
      var si := s[i];
      j := Wrap(j + si + key);
      s[i] := s[j];
      s[j] := si;
      assert s[..] == Swapped(old(s[..]), i, j);
    }

    /** arc4_addrandom. */
    method AddRandom(dat: seq<Byte>)
      requires Current().Ok() && |dat| > 0
      modifies this`i, this`j, s
      ensures Current().Ok() && i == j == Wrap(old(i) - 1)
      ensures Current() == Rekeyed(old(Current()), dat)
    {
      hide Keyed, Mix, Wrap;
      ghost var start := Current();
      KeyedFirst(start, dat);
      i := Wrap(i - 1);
      for n := 0 to 256
        invariant Current().Ok() && Current() == Keyed(start, dat, n)
      {
        KeyedNext(start, dat, n);
        Step(dat[n % |dat|]);
      }
      KeyedCursor(start, dat, 256);
      WrapRound(start.i - 1);
      j := i;
    }

    /** arc4_getbyte. */
    method GetByte() returns (b: Byte)
      requires Current().Ok()
      modifies this`i, this`j, s
      ensures Current() == Mix(old(Current()), 0) && Current().Ok()
      ensures b == s[Sum(s[i], s[j])]
    {
      Step(0);
      b := s[Sum(s[j], s[i])];
    }

    /** Drawing `n` bytes gives the next `n` bytes of the stream. */
    method GetBytes(n: nat) returns (bytes: seq<Byte>)
      requires Current().Ok()
      modifies this`i, this`j, s
      ensures (bytes, Current()) == Stream(old(Current()), n) && Current().Ok()
    {
      ghost var start := Current();
      bytes := [];
      for k := 0 to n
        invariant Current().Ok() && (bytes, Current()) == Stream(start, k)
      {
        var b := GetByte();
        bytes := bytes + [b];
      }
    }

    /** arc4_getword. */
    method GetWord() returns (w: nat)
      requires Current().Ok()
      modifies this`i, this`j, s
      ensures Current().Ok() && w < U32
      ensures var b := Stream(old(Current()), 4);
              Current() == b.1 && w == Word(b.0)
    {
      hide Stream;
      var b := GetBytes(4);
      w := Word(b);
    }

    /** arc4_stir, given what each entropy source produced: the seed is mixed in, and the first 3072 bytes
        are dropped if there ever was a seed. */
    method Stir(sources: seq<seq<Byte>>) returns (ok: bool)
      requires Valid() && SourcesOk(sources)
      modifies this, s
      ensures Valid() && initialized && ok == seededOk
      ensures Now() == StirredGen(old(Now()), sources)
    {
      hide Rekeyed, Stream, State.Ok, Identity;
      if !initialized {
        Init();
        initialized := true;
      }
      MixAll(sources);
      if sources != [] {
        seededOk := true;
      }
      if !seededOk {
        return false;
      }
      var _ := GetBytes(12 * 256);
      count := 1600000;
      return true;
    }

    /** Several pieces mixed in, one after the other. */
    method MixAll(pieces: seq<seq<Byte>>)
      requires Current().Ok() && |Current().s| == 256 && forall k :: 0 <= k < |pieces| ==> |pieces[k]| > 0
      modifies this`i, this`j, s
      ensures Current().Ok() && |Current().s| == 256 && Current() == RekeyedAll(old(Current()), pieces)
    {
      hide Rekeyed, State.Ok;
      assert pieces[0..] == pieces;
      for k := 0 to |pieces|
        invariant Current().Ok() && |Current().s| == 256
        invariant RekeyedAll(Current(), pieces[k..]) == RekeyedAll(old(Current()), pieces)
      {
        assert pieces[k..][0] == pieces[k] && pieces[k..][1..] == pieces[k + 1..];
        AddRandom(pieces[k]);
      }
      assert pieces[|pieces|..] == [];
    }

    /** arc4random_addrandom: `dat` is mixed in again from every 256th byte on, so that all of it counts. */
    method AddAll(dat: seq<Byte>, sources: seq<seq<Byte>>)
      requires Valid() && SourcesOk(sources)
      modifies this, s
      ensures Valid() && initialized
      ensures var g := if old(initialized) then old(Now()) else StirredGen(old(Now()), sources);
              Now() == g.(st := RekeyedAll(g.st, Pieces(dat)))
    {
      hide Rekeyed, RekeyedAll, Stirred, State.Ok, Pieces;
      if !initialized {
        var _ := Stir(sources);
      }
      MixPieces(dat);
    }

    /** The loop of arc4random_addrandom. */
    method MixPieces(dat: seq<Byte>)
      requires Current().Ok() && |Current().s| == 256
      modifies this`i, this`j, s
      ensures Current().Ok() && |Current().s| == 256 && Current() == RekeyedAll(old(Current()), Pieces(dat))
    {
      hide Rekeyed, State.Ok, Pieces;
      ghost var start := Current();
      var at := 0;
      assert dat[0..] == dat;
      while at < |dat|
        invariant 0 <= at && Current().Ok() && |Current().s| == 256
        invariant RekeyedAll(Current(), Pieces(if at <= |dat| then dat[at..] else [])) == RekeyedAll(start, Pieces(dat))
      {
        PiecesNext(dat, at);
        AddRandom(dat[at..]);
        at := at + 256;
      }
      assert at == |dat| ==> dat[at..] == [];
      NoPieces();
    }

    static lemma NoPieces()
      ensures Pieces([]) == []
    {
    }

    static lemma PiecesNext(dat: seq<Byte>, at: nat)
      requires at < |dat|
      ensures var p := Pieces(dat[at..]);
              p != [] && p[0] == dat[at..] && p[1..] == Pieces(if at + 256 <= |dat| then dat[at + 256..] else [])
    {
      var d := dat[at..];
      if |d| > 256 {
        assert d[256..] == dat[at + 256..];
      } else if |d| == 256 {
        assert dat[at + 256..] == [];
      }
    }

    /** arc4_stir_if_needed: stirred exactly when the allowance is used up, it never was, or the process is
        another. */
    method StirIfNeeded(d: Draw)
      requires Valid() && SourcesOk(d.sources)
      modifies this, s
      ensures Valid() && initialized && Now() == Readied(old(Now()), d)
    {
      hide Stirred, State.Ok;
      if count <= 0 || !initialized || d.changed {
        var _ := Stir(d.sources);
      }
    }

    /** arc4random. */
    method Random(d: Draw) returns (w: nat)
      requires Valid() && SourcesOk(d.sources)
      modifies this, s
      ensures Valid() && initialized && (w, Now()) == Drawn(old(Now()), d)
    {
      hide StirredGen, Stream, State.Ok;
      count := count - 4;
      StirIfNeeded(d);
      w := GetWord();
    }

    /** arc4random_buf: the buffer is filled from its end; `world` is what the entropy sources are at each
        byte. */
    method RandomBuf(d: Draw, world: seq<seq<seq<Byte>>>) returns (buf: seq<Byte>)
      requires Valid() && SourcesOk(d.sources) && AllSourcesOk(world)
      modifies this, s
      ensures Valid() && initialized && (buf, Now()) == Filled(Readied(old(Now()), d), world)
    {
      hide StirredGen, Stream, State.Ok, Readied;
      StirIfNeeded(d);
      ghost var start := Now();
      buf := [];
      for n := 0 to |world|
        invariant Valid() && initialized && (buf, Now()) == Filled(start, world[..n])
      {
        assert world[..n + 1][..n] == world[..n];
        var b := FillByte(world[n]);
        buf := b + buf;
      }
      assert world[..|world|] == world;
    }

    /** arc4random_uniform, drawing from the generator; `world` is what
        process id and entropy sources are at each draw, and no draw is accepted when it runs out. */
    method UniformDraw(bound: nat, world: seq<Draw>) returns (r: Option<nat>, words: seq<nat>)
      requires Valid() && bound < U32 && WorldOk(world)
      modifies this, s
      ensures Valid() && (old(initialized) ==> initialized)
      ensures |words| <= |world| && (words, Now()) == DrawnAll(old(Now()), world[..|words|])
      ensures bound < 2 ==> r == Some(0) && words == []
      ensures bound >= 2 ==>
        && (forall k :: 0 <= k < |words| - 1 ==> words[k] < U32 % bound)
        && (r.None? ==> |words| == |world| && forall k :: 0 <= k < |words| ==> words[k] < U32 % bound)
        && (r.Some? ==> words != [] && words[|words| - 1] >= U32 % bound && r.value == words[|words| - 1] % bound)
    {
      hide Drawn, State.Ok;
      words := [];
      if bound < 2 {
        return Some(0), [];
      }
      var min := Threshold(bound);
      ThresholdExact(bound);
      for d := 0 to |world|
        invariant Valid() && (old(initialized) ==> initialized)
        invariant |words| == d && (words, Now()) == DrawnAll(old(Now()), world[..d])
        invariant forall k :: 0 <= k < |words| ==> words[k] < min
      {
        assert world[..d + 1][..d] == world[..d];
        var w := Random(world[d]);
        words := words + [w];
        if w >= min {
          return Some(w % bound), words;
        }
      }
      r := None;
    }

    /** One byte of arc4random_buf. */
    method FillByte(sources: seq<seq<Byte>>) returns (b: seq<Byte>)
      requires Valid() && initialized && SourcesOk(sources)
      modifies this, s
      ensures Valid() && initialized
      ensures var h := old(Now()).(count := old(count) - 1);
              var ready := if h.count <= 0 then StirredGen(h, sources) else h;
              b == Stream(ready.st, 1).0 && Now() == ready.(st := Stream(ready.st, 1).1)
    {
      hide StirredGen, Stream, State.Ok;
      count := count - 1;
      if count <= 0 {
        var _ := Stir(sources);
      }
      b := GetBytes(1);
    }
  }

  datatype Op = OpStir(sources: seq<seq<Byte>>) | OpAdd(dat: seq<Byte>, sources: seq<seq<Byte>>) | OpRandom(draw: Draw)
              | OpUniform(bound: nat, world: seq<Draw>) | OpBuf(draw: Draw, bytes: seq<seq<seq<Byte>>>)

  predicate OpOk(op: Op) {
    match op
    case OpStir(sources) => SourcesOk(sources)
    case OpAdd(_, sources) => SourcesOk(sources)
    case OpRandom(draw) => SourcesOk(draw.sources)
    case OpUniform(bound, world) => bound < U32 && WorldOk(world)
    case OpBuf(draw, bytes) => SourcesOk(draw.sources) && AllSourcesOk(bytes)
  }

  /** Over every run of stirs, additions and draws, once there is a table it holds every byte exactly
      once. */
  method Run(ops: seq<Op>) returns (g: Generator)
    requires forall i :: 0 <= i < |ops| ==> OpOk(ops[i])
    ensures g.Valid() && (ops != [] && !ops[0].OpUniform? ==> g.initialized)
    ensures g.initialized ==> forall b: Byte :: Holds(g.Current(), b)
  {
    hide State.Ok, StirredGen, Readied, Drawn, DrawnAll, Filled, Pieces, RekeyedAll;
    g := new Generator();
    for i := 0 to |ops|
      invariant fresh(g) && fresh(g.s) && g.Valid() && (i > 0 && !ops[0].OpUniform? ==> g.initialized)
    {
      RunOne(g, ops[i]);
    }
    if g.initialized {
      forall b: Byte
        ensures Holds(g.Current(), b)
      {
        HoldsAll(g.Current(), b);
      }
    }
  }

  method RunOne(g: Generator, op: Op)
    requires g.Valid() && OpOk(op)
    modifies g, g.s
    ensures g.Valid() && (old(g.initialized) || !op.OpUniform? ==> g.initialized)
  {
    hide State.Ok, StirredGen, Readied, Drawn, DrawnAll, Filled, Pieces, RekeyedAll;
    match op
    case OpStir(sources) => var _ := g.Stir(sources);
    case OpAdd(dat, sources) => g.AddAll(dat, sources);
    case OpRandom(draw) => var _ := g.Random(draw);
    case OpBuf(draw, bytes) => var _ := g.RandomBuf(draw, bytes);
    case OpUniform(bound, world) => var _, _ := g.UniformDraw(bound, world);
  }

  // ----- range reduction ----------------------------------------------------------------------------

  /** 32-bit complement. */
  function Not32(n: nat): nat
    requires n < U32
  {
    U32 - 1 - n
  }

  /** The rejection threshold as arc4random_uniform computes it, all in 32-bit words. */
  function Threshold(bound: nat): nat
    requires 2 <= bound < U32
  {
    if bound > 0x8000_0000 then (1 + Not32(bound)) % U32
    else LowWord(bound) % bound
  }

  /** The threshold is 2^32 modulo the bound. */
  lemma ThresholdExact(bound: nat)
    requires 2 <= bound < U32
    ensures Threshold(bound) == U32 % bound && Threshold(bound) < bound
  {
    if bound > 0x8000_0000 {
      ModUnique(U32, bound, 1, U32 - bound);
    } else {
      var rest := U32 - 2 * bound;
      ModTurn(rest, bound);
      ModTurn(rest + bound, bound);
      Divided(rest, bound);
      assert Threshold(bound) == rest % bound by { LowThreshold(bound); }
    }
  }

  lemma LowThreshold(bound: nat)
    requires 2 <= bound <= 0x8000_0000
    ensures Threshold(bound) == (U32 - 2 * bound) % bound
  {
    if bound == 0x8000_0000 {
      assert Threshold(bound) == 0;
    } else {
      assert LowWord(bound) == U32 - 2 * bound by { LowWordIs(bound); }
    }
  }

  /** The word that is reduced when the bound is at most 2^31. */
  function LowWord(bound: nat): nat {
    ((0xffff_ffff - (bound * 2) % U32) % U32 + 1) % U32
  }

  lemma LowWordIs(bound: nat)
    requires 2 <= bound < 0x8000_0000
    ensures LowWord(bound) == U32 - 2 * bound
  {
    var twice := bound * 2;
    assert twice < U32 && twice % U32 == twice;
  }

  /** The words of lo..hi-1 that reduce to `v`. */
  function Reducing(lo: nat, hi: nat, bound: nat, v: nat): set<nat>
    requires bound > 0
  {
    set r | lo <= r < hi && r % bound == v
  }

  /** Among `bound` consecutive words exactly one reduces to `v`. */
  lemma OneInBlock(lo: nat, bound: nat, v: nat)
    requires v < bound
    ensures exists x :: Reducing(lo, lo + bound, bound, v) == {x}
  {
    var q, r := lo / bound, lo % bound;
    assert lo == bound * q + r;
    var k := if r <= v then q else q + 1;
    assert bound * (q + 1) == bound * q + bound;
    var x := bound * k + v;
    ModUnique(x, bound, k, v);
    forall y | lo <= y < lo + bound && y % bound == v
      ensures y == x
    {
      SameResidue(x, y, bound);
    }
    assert Reducing(lo, lo + bound, bound, v) == {x};
  }

  lemma {:induction false} BlocksCount(lo: nat, bound: nat, v: nat, k: nat)
    requires v < bound
    ensures |Reducing(lo, lo + bound * k, bound, v)| == k
  {
    if k == 0 {
      assert Reducing(lo, lo, bound, v) == {};
    } else {
      var mid, hi := lo + bound * (k - 1), lo + bound * k;
      MinusTimes(bound, k, 1);
      BlocksCount(lo, bound, v, k - 1);
      OneInBlock(mid, bound, v);
      assert Reducing(lo, hi, bound, v) == Reducing(lo, mid, bound, v) + Reducing(mid, hi, bound, v);
    }
  }

  /** No bias: every result has the same number of accepted words, and together they are all the
      accepted words. */
  lemma Unbiased(bound: nat, v: nat)
    requires 2 <= bound < U32 && v < bound
    ensures |Reducing(Threshold(bound), U32, bound, v)| == (U32 - Threshold(bound)) / bound
    ensures (U32 - Threshold(bound)) % bound == 0
  {
    hide Threshold, Reducing;
    ThresholdExact(bound);
    var min, k := Threshold(bound), U32 / bound;
    Divided(U32, bound);
    ModUnique(U32 - min, bound, k, 0);
    BlocksCount(min, bound, v, k);
  }

  /** Fewer than half the words are ever rejected. */
  lemma MostAccepted(bound: nat)
    requires 2 <= bound < U32
    ensures 2 * Threshold(bound) < U32
  {
    ThresholdExact(bound);
  }
}
