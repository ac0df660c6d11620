/** The evbuffer of libevent: a byte queue kept as a list of partly filled chains
    (android/core/src/main/jni/libevent/buffer.c). */
module EvBuffers {
  import opened Basics
  import opened Chains

  const MAX_PAYLOAD: nat := CHAIN_MAX - CHAIN_SIZE
  const CHAIN_MAX_AUTO_SIZE: nat := 4096
  const MAX_TO_COPY_IN_EXPAND: nat := 4096
  const MAX_TO_REALIGN_IN_EXPAND: nat := 2048
  const MAX_READ: nat := 4096
  const NUM_READ_IOVEC: nat := 4

  /** MIN_BUFFER_SIZE doubled `k` times. */
  function Doubled(k: nat): nat {
    if k == 0 then MIN_BUFFER_SIZE else 2 * Doubled(k - 1)
  }

  /** The size of the block evbuffer_chain_new allocates for `wanted` bytes with the header: the least
      MIN_BUFFER_SIZE * 2^k, or just what is wanted when that is very large. */
  ghost predicate BlockFor(block: nat, wanted: nat) {
    if wanted < CHAIN_MAX / 2
    then exists k: nat :: block == Doubled(k) && wanted <= block && (k > 0 ==> Doubled(k - 1) < wanted)
    else block == wanted
  }

  /** A chain whose block is the one for `size` bytes. */
  ghost predicate SizedFor(c: Chain, size: nat) {
    BlockFor(|c.buffer| + CHAIN_SIZE, size + CHAIN_SIZE)
  }

  /** The bytes asked for behind a chain of `last` bytes: twice as many while that stays within 4096, and at least
      those that are added. */
  function NextSize(last: nat, added: nat): nat {
    var more := if 2 * last <= 4096 then 2 * last else last;
    if added > more then added else more
  }

  /** evbuffer_chain_new; the memory comes uninitialised. */
  method ChainNew(size: nat) returns (r: Option<Chain>)
    ensures r.Some? <==> size <= MAX_PAYLOAD
    ensures r.Some? ==> r.value.off == 0 && r.value.misalign == 0
    ensures r.Some? ==> size <= |r.value.buffer| && BlockFor(|r.value.buffer| + CHAIN_SIZE, size + CHAIN_SIZE)
    ensures r.Some? ==> MIN_BUFFER_SIZE - CHAIN_SIZE <= |r.value.buffer|
  {
    if size > CHAIN_MAX - CHAIN_SIZE {
      return None;
    }
    var wanted := size + CHAIN_SIZE;
    var toAlloc := wanted;
    if wanted < CHAIN_MAX / 2 {
      toAlloc := MIN_BUFFER_SIZE;
      ghost var k := 0;
      while toAlloc < wanted
        invariant MIN_BUFFER_SIZE <= toAlloc && k >= 0 && toAlloc == Doubled(k)
        invariant k > 0 ==> Doubled(k - 1) < wanted
        invariant toAlloc == MIN_BUFFER_SIZE || toAlloc < 2 * wanted
      {
        toAlloc := 2 * toAlloc;
        k := k + 1;
      }
    }
    assert |seq(toAlloc - CHAIN_SIZE, _ => 0)| == toAlloc - CHAIN_SIZE;
    var memory: seq<Byte> :| |memory| == toAlloc - CHAIN_SIZE;
    return Some(Block(memory, 0, 0));
  }

  /** memcpy of `data` to the space behind the data of `c`. */
  method Store(c: Chain, data: seq<Byte>) returns (r: Chain)
    requires |data| <= Space(c)
    ensures Data(r) == Data(c) + data && r.off == c.off + |data|
    ensures |r.buffer| == |c.buffer| && r.misalign == c.misalign
  {
    var at := c.misalign + c.off;
    var b := Write(c.buffer, at, data);
    r := Block(b, c.misalign, c.off + |data|);
    assert b[c.misalign..at] == b[..at][c.misalign..];
    assert Data(r) == b[c.misalign..at] + b[at..at + |data|];
  }

  /** memcpy of `data` to the space in front of the data of `c`. */
  method StoreFront(c: Chain, data: seq<Byte>) returns (r: Chain)
    requires |data| <= c.misalign
    ensures Data(r) == data + Data(c) && r.off == c.off + |data|
    ensures |r.buffer| == |c.buffer| && r.misalign == c.misalign - |data|
  {
    var at := c.misalign - |data|;
    var b := Write(c.buffer, at, data);
    r := Block(b, at, c.off + |data|);
    assert b[c.misalign..c.misalign + c.off] == b[c.misalign..][..c.off];
    assert Data(c) == c.buffer[c.misalign..][..c.off];
    assert Data(r) == b[at..c.misalign] + b[c.misalign..c.misalign + c.off];
  }

  /** evbuffer_chain_align: move the data to the front of the block. */
  method Realign(c: Chain) returns (r: Chain)
    ensures Data(r) == Data(c) && r.off == c.off && r.misalign == 0 && |r.buffer| == |c.buffer|
  {
    r := Block(Write(c.buffer, 0, Data(c)), 0, c.off);
  }

  /** `misalign += n; off -= n`: forget the first `n` bytes of data. */
  method Skip(c: Chain, n: nat) returns (r: Chain)
    requires n <= c.off
    ensures Data(r) == Data(c)[n..] && r.off == c.off - n && r.misalign == c.misalign + n && r.buffer == c.buffer
  {
    r := Block(c.buffer, c.misalign + n, c.off - n);
  }

  predicate ShouldRealign(c: Chain, datlen: nat) {
    |c.buffer| - c.off >= datlen && c.off < |c.buffer| / 2 && c.off <= MAX_TO_REALIGN_IN_EXPAND
  }

  /** The slot a link has once `dropped` chains are gone from the front. A link is owned by the chain
      before it, so apart from slot 0 (`&buf->first`) it must belong to a surviving chain. */
  function Rebase(slot: nat, dropped: nat): nat
    requires slot == 0 || dropped < slot
  {
    if slot == 0 then 0 else slot - dropped
  }

  /** struct evbuffer_ptr: an absolute position together with the chain (|chains| for NULL) and the
      offset in that chain where it lies; position -1 is "not found". */
  datatype Ptr = Ptr(pos: int, chain: nat, posInChain: nat)

  predicate PtrOk(cs: seq<Chain>, p: Ptr) {
    && p.chain <= |cs|
    && p.posInChain <= (if p.chain < |cs| then cs[p.chain].off else 0)
    && p.pos == Offset(cs, p.chain) + p.posInChain
  }

  /** A copy of a window so far, extended by a window of chain `i`. */
  lemma GatherStep(cs: seq<Chain>, i: nat, pos: nat, to: nat, from: nat, data: seq<Byte>)
    requires i < |cs| && pos <= to <= cs[i].off && from <= Offset(cs, i) + pos <= |Flatten(cs)|
    requires data == Flatten(cs)[from..Offset(cs, i) + pos]
    ensures Offset(cs, i) + to <= |Flatten(cs)|
    ensures data + Data(cs[i])[pos..to] == Flatten(cs)[from..Offset(cs, i) + to]
  {
    hide Flatten, Data, Offset;
    FlattenWindow(cs, i, pos, to);
    SliceJoin(Flatten(cs), from, Offset(cs, i) + pos, Offset(cs, i) + to);
  }

  lemma SliceJoin<T>(v: seq<T>, a: nat, b: nat, c: nat)
    requires a <= b <= c <= |v|
    ensures v[a..b] + v[b..c] == v[a..c]
  {
  }

  /** The copying loop of evbuffer_copyout_from: `len` bytes from offset `at` of chain `first` on. */
  method Gather(cs: seq<Chain>, first: nat, at: nat, len: nat) returns (data: seq<Byte>)
    requires first < |cs| && at <= cs[first].off
    requires Offset(cs, first) + at + len <= |Flatten(cs)|
    ensures data == Flatten(cs)[Offset(cs, first) + at..Offset(cs, first) + at + len]
  {
    hide Flatten, Data;
    var i, pos, left := first, at, len;
    ghost var from, v := Offset(cs, first) + at, Flatten(cs);
    data := [];
    while left > 0 && left >= cs[i].off - pos
      invariant first <= i <= |cs| && 0 <= left && 0 <= pos
      invariant i < |cs| ==> pos <= cs[i].off
      invariant i == |cs| ==> pos == 0
      invariant from <= Offset(cs, i) + pos && Offset(cs, i) + pos + left == from + len
      invariant Offset(cs, i) + pos <= |v| && data == v[from..Offset(cs, i) + pos]
      invariant i == |cs| ==> left == 0
      decreases |cs| - i
    {
      GatherStep(cs, i, pos, cs[i].off, from, data);
      data := data + Data(cs[i])[pos..cs[i].off];
      left := left - (cs[i].off - pos);
      i, pos := i + 1, 0;
      OffsetBound(cs, i);
    }
    if left > 0 {
      GatherStep(cs, i, pos, pos + left, from, data);
      data := data + Data(cs[i])[pos..pos + left];
    }
  }

  /** The copying loop of evbuffer_pullup: move `want` bytes of the chains from `first` on into the
      block `block`, which already holds the bytes before them at `base`. Says where it stopped, how
      much of that chain it took, and whether it freed the chain `lastData` or the owner of `link`. */
  method PullChains(cs: seq<Chain>, first: nat, block: seq<Byte>, base: nat, want: nat, lastData: int, link: nat)
    returns (mem: seq<Byte>, stop: nat, rest: nat, removedLast: bool, removedLink: bool)
    requires first <= |cs| && Offset(cs, first) + want <= |Flatten(cs)|
    requires base + Offset(cs, first) + want <= |block|
    requires block[base..base + Offset(cs, first)] == Flatten(cs)[..Offset(cs, first)]
    ensures first <= stop <= |cs| && Offset(cs, stop) + rest == Offset(cs, first) + want
    ensures if stop < |cs| then rest < cs[stop].off else rest == 0
    ensures |mem| == |block| && mem[base..base + Offset(cs, stop) + rest] == Flatten(cs)[..Offset(cs, stop) + rest]
    ensures removedLast <==> first <= lastData < stop
    ensures removedLink <==> first < link <= stop
  {
    hide Flatten, Data;
    ghost var v := Flatten(cs);
    mem, stop, rest := block, first, want;
    removedLast, removedLink := false, false;
    while stop < |cs| && rest >= cs[stop].off
      invariant first <= stop <= |cs| && Offset(cs, stop) + rest == Offset(cs, first) + want
      invariant Offset(cs, stop) <= |v| && |mem| == |block|
      invariant mem[base..base + Offset(cs, stop)] == v[..Offset(cs, stop)]
      invariant removedLast <==> first <= lastData < stop
      invariant removedLink <==> first < link <= stop
    {
      mem := CopyIn(cs, stop, cs[stop].off, mem, base);
      if stop == lastData {
        removedLast := true;
      }
      if stop + 1 == link {
        removedLink := true;
      }
      rest := rest - cs[stop].off;
      stop := stop + 1;
      OffsetBound(cs, stop);
    }
    if stop < |cs| {
      mem := CopyIn(cs, stop, rest, mem, base);
    } else {
      OffsetBound(cs, stop);
    }
  }

  /** memcpy of the first `n` bytes of chain `i` behind the bytes that precede them. */
  method CopyIn(cs: seq<Chain>, i: nat, n: nat, block: seq<Byte>, base: nat) returns (mem: seq<Byte>)
    requires i < |cs| && n <= cs[i].off && Offset(cs, i) <= |Flatten(cs)|
    requires base + Offset(cs, i) + n <= |block|
    requires block[base..base + Offset(cs, i)] == Flatten(cs)[..Offset(cs, i)]
    ensures |mem| == |block| && Offset(cs, i) + n <= |Flatten(cs)|
    ensures mem[base..base + Offset(cs, i) + n] == Flatten(cs)[..Offset(cs, i) + n]
  {
    var at := base + Offset(cs, i);
    mem := Write(block, at, Data(cs[i])[..n]);
    assert mem[base..at] == block[base..at] by {
      assert mem[base..at] == mem[..at][base..];
      assert block[base..at] == block[..at][base..];
    }
    GatherStep(cs, i, 0, n, 0, Flatten(cs)[..Offset(cs, i)]);
    assert mem[base..at + n] == mem[base..at] + mem[at..at + n];
  }

  /** The slot, after a pullup, of a link whose owner was not freed: a chain behind `stop`, or the
      first chain when it was kept. */
  function SurvivingLink(link: nat, first: nat, stop: nat): nat
    requires link > stop || (first == 1 && link == stop == 1)
  {
    link - stop + 1
  }

  lemma CutTwice<T>(v: seq<T>, a: nat, b: nat)
    requires a + b <= |v|
    ensures v[..a] + v[a..][..b] == v[..a + b] && v[a..][b..] == v[a + b..]
  {
  }

  /** The counting loop of evbuffer_remove_buffer: the first `i` chains go over whole, `left` bytes of
      the next one are still wanted. */
  method WholeChains(cs: seq<Chain>, lwd: nat, datlen: nat) returns (i: nat, left: nat, link: nat)
    requires Sharp(cs, lwd) && datlen < |Flatten(cs)|
    ensures i < |cs| && i <= lwd && left < cs[i].off && Offset(cs, i) + left == datlen
    ensures i == 0 <==> Offset(cs, i) == 0
    ensures link == if i < lwd then lwd else 0
  {
    var at: int := lwd;
    i, left := 0, datlen;
    while cs[i].off <= left
      invariant 0 <= i < |cs| && i <= lwd
      invariant Offset(cs, i) + left == datlen
      invariant i == 0 || Offset(cs, i) > 0
      invariant at == if i < lwd then lwd else 0
      decreases |cs| - i
    {
      if i == lwd {
        SharpOffset(cs, i);
        assert false;
      }
      left := left - cs[i].off;
      if at == i + 1 {
        at := 0;
      }
      i := i + 1;
    }
    link := at;
  }

  /** The first chain with free space, `|cs|` when that is a chain still to come. */
  function FirstSpace(cs: seq<Chain>, lwd: nat): nat {
    if lwd < |cs| && Space(cs[lwd]) == 0 then lwd + 1 else lwd
  }

  function Min(a: nat, b: nat): nat {
    if a < b then a else b
  }

  /** At most `n` chains, from the first with space on, have `datlen` free bytes. */
  predicate HasRoom(cs: seq<Chain>, lwd: nat, datlen: nat, n: nat) {
    && lwd < |cs| && FirstSpace(cs, lwd) <= |cs|
    && (cs[lwd].off > 0 || Space(cs[lwd]) > 0)
    && Room(cs, FirstSpace(cs, lwd), Min(FirstSpace(cs, lwd) + n, |cs|)) >= datlen
  }

  lemma RoomFound(cs: seq<Chain>, lwd: nat, used: nat, n: nat)
    requires lwd < |cs| && used <= n && FirstSpace(cs, lwd) + used <= |cs| && (cs[lwd].off > 0 || Space(cs[lwd]) > 0)
    ensures HasRoom(cs, lwd, Room(cs, FirstSpace(cs, lwd), FirstSpace(cs, lwd) + used), n)
  {
    RoomGrows(cs, FirstSpace(cs, lwd), FirstSpace(cs, lwd) + used, Min(FirstSpace(cs, lwd) + n, |cs|));
  }

  lemma RoomWithTail(cs: seq<Chain>, lwd: nat, c: Chain, n: nat)
    requires lwd < |cs| && FirstSpace(cs, lwd) <= |cs| < FirstSpace(cs, lwd) + n && (cs[lwd].off > 0 || Space(cs[lwd]) > 0)
    ensures HasRoom(cs + [c], lwd, Room(cs, FirstSpace(cs, lwd), |cs|) + Space(c), n)
  {
    hide Room, Data;
    RoomSnoc(cs, c, FirstSpace(cs, lwd));
  }

  lemma RoomNone(cs: seq<Chain>, i: nat)
    requires i <= |cs|
    ensures Room(cs, i, i) == 0
  {
  }

  lemma RoomFirst(cs: seq<Chain>, from: nat, to: nat)
    requires from < to <= |cs|
    ensures Space(cs[from]) <= Room(cs, from, to)
  {
    RoomGrows(cs, from, from + 1, to);
  }

  lemma RoomExtend(cs: seq<Chain>, ds: seq<Chain>, from: nat, to: nat)
    requires from <= to < |cs| == |ds| && (forall i :: from <= i < to ==> cs[i] == ds[i])
    ensures Room(ds, from, to + 1) == Room(cs, from, to) + Space(ds[to])
    ensures Room(cs, from, from) == 0
  {
    RoomFrame(cs, ds, from, to);
  }

  lemma RoomSnoc(cs: seq<Chain>, c: Chain, from: nat)
    requires from <= |cs|
    ensures Room(cs + [c], from, |cs| + 1) == Room(cs, from, |cs|) + Space(c)
  {
    hide Space, Data;
    RoomFrame(cs, cs + [c], from, |cs|);
  }

  /** `ds` is `cs` with the misalignment of some empty chains reset. */
  predicate Realigned(cs: seq<Chain>, ds: seq<Chain>) {
    |ds| == |cs| && forall i :: 0 <= i < |cs| ==> ds[i] == cs[i] || (cs[i].off == 0 && ds[i] == Block(cs[i].buffer, 0, 0))
  }

  /** Only empty chains are realigned, and those with data come first. */
  lemma KeptAligned(cs: seq<Chain>, ds: seq<Chain>, lwd: nat)
    requires Realigned(cs, ds) && Sharp(cs, lwd)
    ensures lwd < |cs| && cs[lwd].off > 0 ==> ds[..lwd + 1] == cs[..lwd + 1] && ds[lwd] == cs[lwd]
  {
  }

  lemma RealignedKeeps(cs: seq<Chain>, ds: seq<Chain>, lwd: nat)
    requires Realigned(cs, ds) && Sharp(cs, lwd)
    ensures Sharp(ds, lwd) && Flatten(ds) == Flatten(cs)
  {
    FlattenSame(cs, ds);
    SharpSame(cs, ds, lwd);
  }

  /** The scan of evbuffer_expand_fast_: how much fits into the first `n` chains with space? Empty
      chains it meets are realigned. */
  method ScanSpace(cs: seq<Chain>, lwd: nat, datlen: nat, n: nat)
    returns (ds: seq<Chain>, used: nat, avail: nat, enough: bool)
    requires Sharp(cs, lwd) && lwd < |cs| && n >= 2
    ensures Realigned(cs, ds)
    ensures FirstSpace(ds, lwd) + used <= |ds| && used <= n && avail == Room(ds, FirstSpace(ds, lwd), FirstSpace(ds, lwd) + used)
    ensures enough <==> avail >= datlen
    ensures !enough && used < n ==> FirstSpace(ds, lwd) + used == |ds|
    ensures ds[lwd].off > 0 || Space(ds[lwd]) > 0
  {
    hide Flatten, Data, Room, Sharp;
    ds, used, avail := cs, 0, 0;
    var i := lwd;
    ghost var first := if cs[lwd].off > 0 && Space(cs[lwd]) == 0 then lwd + 1 else lwd;
    SharpTrailing(cs, lwd);
    while i < |ds|
      invariant lwd <= i <= |ds| && Realigned(cs, ds)
      invariant forall k :: i <= k < |cs| ==> ds[k] == cs[k]
      invariant i > lwd ==> first == FirstSpace(ds, lwd) && used == i - first && avail == Room(ds, first, i)
      invariant i == lwd ==> used == 0 && avail == 0
      invariant i > lwd ==> ds[lwd].off > 0 || Space(ds[lwd]) > 0
      invariant used < n && (i > lwd ==> avail < datlen)
      decreases |ds| - i
    {
      ghost var before := ds;
      var c, space, uses := ScanOne(ds[i]);
      ds := ds[i := c];
      avail := avail + space;
      if uses {
        used := used + 1;
      }
      i := i + 1;
      RoomExtend(before, ds, if first < i then first else i - 1, i - 1);
      RoomNone(ds, i);
      if avail >= datlen {
        return ds, used, avail, true;
      }
      if used == n {
        break;
      }
    }
    return ds, used, avail, false;
  }

  /** One chain of that scan: the chain afterwards, its free bytes, and whether it counts as used. */
  method ScanOne(c: Chain) returns (r: Chain, space: nat, uses: bool)
    ensures r == c || (c.off == 0 && r == Block(c.buffer, 0, 0))
    ensures space == Space(r) && (uses <==> space > 0) && (c.off == 0 ==> space > 0) && (c.off > 0 ==> r == c)
  {
    r, space, uses := c, 0, false;
    if c.off > 0 {
      space := Space(c);
      if space > 0 {
        uses := true;
      }
    } else {
      r := Block(c.buffer, 0, 0);
      space, uses := |c.buffer|, true;
    }
  }

  /** `wire` lies in the free space of the chains from `j` on, each filled before the next. */
  predicate Landed(cs: seq<Chain>, j: nat, wire: seq<Byte>)
    decreases |wire|, |cs| - j
  {
    wire == [] ||
    (j < |cs| &&
     var take := Min(Space(cs[j]), |wire|);
     && var at := cs[j].misalign + cs[j].off;
     && cs[j].buffer[at..at + take] == wire[..take]
     && Landed(cs, j + 1, wire[take..]))
  }

  function Sum(s: seq<nat>): nat {
    if s == [] then 0 else Sum(s[..|s| - 1]) + s[|s| - 1]
  }

  /** The iovec lengths for chains [first, ...): every chain but the last is offered whole. */
  predicate Vecs(cs: seq<Chain>, first: nat, lens: seq<nat>) {
    && first + |lens| <= |cs|
    && (forall i :: 0 <= i < |lens| ==> 0 < lens[i] <= Space(cs[first + i]))
    && (forall i :: 0 <= i < |lens| - 1 ==> lens[i] == Space(cs[first + i]))
  }

  lemma VecsNil(cs: seq<Chain>, first: nat)
    requires first <= |cs|
    ensures Vecs(cs, first, []) && Sum([]) == 0
  {
  }

  lemma SumSnoc(s: seq<nat>, x: nat)
    ensures Sum(s + [x]) == Sum(s) + x
  {
    assert (s + [x])[..|s|] == s;
  }

  lemma VecsSnoc(cs: seq<Chain>, first: nat, lens: seq<nat>, len: nat)
    requires Vecs(cs, first, lens) && first + |lens| < |cs| && 0 < len <= Space(cs[first + |lens|])
    requires lens != [] ==> lens[|lens| - 1] == Space(cs[first + |lens| - 1])
    ensures Vecs(cs, first, lens + [len])
  {
    hide Sum, Space;
  }

  /** evbuffer_read_setup_vecs_ in exact mode. */
  method SetupVecs(cs: seq<Chain>, lwd: nat, howmuch: nat, n: nat) returns (first: nat, lens: seq<nat>)
    requires Sharp(cs, lwd) && HasRoom(cs, lwd, howmuch, n)
    ensures first == FirstSpace(cs, lwd) && |lens| <= n && Sum(lens) == howmuch && Vecs(cs, first, lens)
  {
    first := lwd;
    if Space(cs[first]) == 0 {
      first := first + 1;
    }
    lens := FillVecs(cs, first, howmuch, n);
  }

  method FillVecs(cs: seq<Chain>, first: nat, howmuch: nat, n: nat) returns (lens: seq<nat>)
    requires first <= |cs| && (forall k :: first <= k < |cs| ==> Space(cs[k]) > 0)
    requires Room(cs, first, Min(first + n, |cs|)) >= howmuch
    ensures |lens| <= n && Sum(lens) == howmuch && Vecs(cs, first, lens)
  {
    hide Sum, Vecs, Space;
    ghost var end := Min(first + n, |cs|);
    var soFar, i := 0, 0;
    lens := [];
    VecsNil(cs, first);
    while i < n && soFar < howmuch
      invariant 0 <= i == |lens| <= n && soFar == Sum(lens) <= howmuch && first + i <= end
      invariant Vecs(cs, first, lens)
      invariant soFar < howmuch ==> soFar == Room(cs, first, first + i)
      invariant soFar < howmuch && i > 0 ==> lens[i - 1] == Space(cs[first + i - 1])
    {
      if first + i == end {
        assert false;
      }
      var avail := Space(cs[first + i]);
      if avail > howmuch - soFar {
        avail := howmuch - soFar;
      }
      VecsSnoc(cs, first, lens, avail);
      SumSnoc(lens, avail);
      lens := lens + [avail];
      soFar := soFar + avail;
      i := i + 1;
      RoomGrows(cs, first, first + i, end);
    }
  }

  /** One iovec filled by readv: `data` goes behind the data of `c`, which does not change. */
  method FillSpace(c: Chain, data: seq<Byte>) returns (r: Chain)
    requires |data| <= Space(c)
    ensures Data(r) == Data(c) && r.off == c.off && r.misalign == c.misalign && |r.buffer| == |c.buffer|
    ensures r.buffer[c.misalign + c.off..c.misalign + c.off + |data|] == data
  {
    var at := c.misalign + c.off;
    r := Block(Write(c.buffer, at, data), c.misalign, c.off);
    assert r.buffer[c.misalign..at] == r.buffer[..at][c.misalign..];
    assert c.buffer[c.misalign..at] == c.buffer[..at][c.misalign..];
  }

  predicate SameShape(cs: seq<Chain>, ds: seq<Chain>) {
    |cs| == |ds| && forall i :: 0 <= i < |cs| ==> ds[i].misalign == cs[i].misalign && |ds[i].buffer| == |cs[i].buffer|
  }

  /** What readv does: `wire` goes into the free space of the chains from `j` on. */
  method Land(cs: seq<Chain>, j: nat, wire: seq<Byte>) returns (r: seq<Chain>)
    requires j <= |cs| && |wire| <= Room(cs, j, |cs|)
    ensures SameData(cs, r) && SameShape(cs, r) && Landed(r, j, wire) && r[..j] == cs[..j]
    decreases |cs| - j
  {
    hide Flatten, Data;
    if wire == [] {
      return cs;
    }
    var take := Min(Space(cs[j]), |wire|);
    var filled := FillSpace(cs[j], wire[..take]);
    RoomSplit(cs, j, |cs|);
    var next := cs[j := filled];
    RoomFrame(cs, next, j + 1, |cs|);
    r := Land(next, j + 1, wire[take..]);
    assert r[j] == r[..j + 1][j] == filled;
    assert r[..j] == r[..j + 1][..j] == next[..j];
  }

  lemma {:induction false} LandedFrame(cs: seq<Chain>, ds: seq<Chain>, j: nat, wire: seq<Byte>)
    requires |cs| == |ds| && (forall k :: j <= k < |cs| ==> cs[k] == ds[k]) && Landed(cs, j, wire)
    ensures Landed(ds, j, wire)
    decreases |cs| - j
  {
    if wire != [] {
      LandedFrame(cs, ds, j + 1, wire[Min(Space(cs[j]), |wire|)..]);
    }
  }

  /** `off += take`: bytes already lying behind the data become data. */
  method Commit(c: Chain, take: nat) returns (r: Chain)
    requires take <= Space(c)
    ensures Data(r) == Data(c) + c.buffer[c.misalign + c.off..c.misalign + c.off + take]
    ensures r.off == c.off + take && r.misalign == c.misalign
  {
    r := Block(c.buffer, c.misalign, c.off + take);
  }

  /** One round of the commit loop of evbuffer_read: `take` bytes of chain `at` become data. */
  method CommitRound(cs: seq<Chain>, ghost cur: nat, at: nat, take: nat, ghost wire: seq<Byte>) returns (ds: seq<Chain>)
    requires Sharp(cs, cur) && cur <= at < |cs| && (at == cur || (at == cur + 1 && cs[cur].off > 0))
    requires Landed(cs, at, wire) && 0 < take == Min(Space(cs[at]), |wire|)
    ensures |ds| == |cs| && Sharp(ds, at) && ds[at].off > 0
    ensures Flatten(ds) == Flatten(cs) + wire[..take]
    ensures Landed(ds, at + 1, wire[take..]) && (forall k :: at < k < |cs| ==> ds[k] == cs[k])
  {
    hide Flatten, Data, AllEmpty;
    var c := Commit(cs[at], take);
    ds := cs[at := c];
    FillNext(cs, cur, at, c, wire[..take]);
    LandedFrame(cs, ds, at + 1, wire[take..]);
  }

  lemma JoinNext<T>(pre: seq<T>, wire: seq<T>, done: nat, take: nat)
    requires done + take <= |wire|
    ensures pre + wire[..done] + wire[done..][..take] == pre + wire[..done + take]
    ensures wire[done..][take..] == wire[done + take..]
  {
    CutTwice(wire, done, take);
    Assoc(pre, wire[..done], wire[done..][..take]);
  }

  /** The commit loop of evbuffer_read over the chains offered to readv. */
  method CommitVecs(cs: seq<Chain>, ghost lwd: nat, first: nat, nvecs: nat, n: nat, ghost wire: seq<Byte>)
    returns (ds: seq<Chain>, slot: nat)
    requires Sharp(cs, lwd) && lwd < |cs| && first == FirstSpace(cs, lwd) && first + nvecs <= |cs|
    requires cs[lwd].off > 0 || Space(cs[lwd]) > 0
    requires n == |wire| && 0 < n <= Room(cs, first, first + nvecs) && Landed(cs, first, wire)
    ensures Sharp(ds, slot) && |ds| == |cs| && Flatten(ds) == Flatten(cs) + wire
  {
    hide Flatten, Data, AllEmpty, Landed, Sharp, Room;
    var at, i, remaining := first, 0, n;
    ghost var cur: nat, done: nat := lwd, 0;
    ds, slot := cs, first;
    assert Flatten(ds) == Flatten(cs) + wire[..0];
    assert wire[0..] == wire;
    while i < nvecs
      invariant 0 <= i <= nvecs && at == first + i && |ds| == |cs|
      invariant Sharp(ds, cur) && cur <= at && (at == cur || (at == cur + 1 && ds[cur].off > 0))
      invariant at < |cs| && cur == at ==> Space(ds[at]) > 0
      invariant 0 <= done < n && remaining == n - done && Landed(ds, at, wire[done..])
      invariant Flatten(ds) == Flatten(cs) + wire[..done]
      invariant forall k :: at <= k < |cs| ==> ds[k] == cs[k]
      invariant remaining <= Room(cs, at, first + nvecs)
    {
      RoomSplit(cs, at, first + nvecs);
      SpaceBehind(ds, cur, at);
      var space := Space(ds[at]);
      ghost var w := wire[done..];
      var take := if space < remaining then space else remaining;
      ds := CommitRound(ds, cur, at, take, w);
      JoinNext(Flatten(cs), wire, done, take);
      if space < remaining {
        remaining := remaining - space;
      } else {
        assert wire[..n] == wire;
        return ds, at;
      }
      cur, done := at, done + take;
      at, i := at + 1, i + 1;
    }
    RoomNone(cs, first + nvecs);
    assert false;
  }

  /** Chains behind the data have room. */
  lemma SpaceBehind(cs: seq<Chain>, lwd: nat, at: nat)
    requires Sharp(cs, lwd) && at < |cs|
    ensures at > lwd ==> Space(cs[at]) > 0
  {
  }

  lemma {:induction false} RoomSplit(cs: seq<Chain>, from: nat, to: nat)
    requires from < to <= |cs|
    ensures Room(cs, from, to) == Space(cs[from]) + Room(cs, from + 1, to)
  {
    if from + 1 < to {
      RoomSplit(cs, from, to - 1);
    }
  }

  lemma {:induction false} VecsFit(cs: seq<Chain>, first: nat, lens: seq<nat>)
    requires Vecs(cs, first, lens)
    ensures Sum(lens) <= Room(cs, first, first + |lens|)
    decreases |lens|
  {
    if lens != [] {
      VecsFit(cs, first, lens[..|lens| - 1]);
    }
  }

  lemma {:induction false} RoomSame(cs: seq<Chain>, ds: seq<Chain>, from: nat, to: nat)
    requires SameData(cs, ds) && SameShape(cs, ds) && from <= to <= |cs|
    ensures Room(cs, from, to) == Room(ds, from, to)
  {
    if from < to {
      RoomSame(cs, ds, from, to - 1);
    }
  }

  /** `n` bytes keep to what the caller asked for, if it did, to what the socket is said to hold, if that is
      known, and to the limit of one read. */
  predicate Modest(n: nat, howmuch: int, readable: int) {
    n <= MAX_READ && (howmuch >= 0 ==> n <= howmuch) && (1 <= readable <= MAX_READ ==> n <= readable)
  }

  /** How much evbuffer_read asks for: as much as may be. */
  function ReadAmount(howmuch: int, readable: int): (r: nat)
    ensures Modest(r, howmuch, readable) && forall n: nat :: Modest(n, howmuch, readable) ==> n <= r
  {
    var n := if readable <= 0 || readable > MAX_READ then MAX_READ else readable;
    if howmuch < 0 || howmuch > n then n else howmuch
  }

  /** The size of the chain evbuffer_expand_singlechain has to allocate; 0 when it can do without. */
  function Demand(cs: seq<Chain>, lwd: nat, datlen: nat): nat {
    var at := FirstSpace(cs, lwd);
    if at >= |cs| then datlen
    else
      var c := cs[at];
      if Space(c) >= datlen then 0
      else if c.off == 0 then datlen
      else if ShouldRealign(c, datlen) then 0
      else if Space(c) < |c.buffer| / 8 || c.off > MAX_TO_COPY_IN_EXPAND || datlen >= CHAIN_MAX - c.off then
        if at + 1 < |cs| && Space(cs[at + 1]) >= datlen then 0 else datlen
      else c.off + datlen
  }

  /** No chain was made, replaced or freed. */
  predicate SameBlocks(cs: seq<Chain>, ds: seq<Chain>) {
    |ds| == |cs| && forall k :: 0 <= k < |cs| ==> |ds[k].buffer| == |cs[k].buffer|
  }

  /** `d` is `c` with `n` more bytes of data. */
  predicate Longer(c: Chain, d: Chain, n: nat) {
    d.off == c.off + n && d.misalign == c.misalign && |d.buffer| == |c.buffer|
  }

  /** struct evbuffer_cb_info: the length before, and what was added and deleted. */
  datatype Info = Info(origSize: int, added: nat, deleted: nat)

  class EvBuffer {
    /** The chain list. `chains[i].next` is `chains[i + 1]`. */
    var chains: seq<Chain>
    /** Index of the chain `buf->last` points at, -1 for NULL. */
    var last: int
    /** The link `buf->last_with_datap` points at: 0 is `&buf->first`, k is `&chains[k - 1].next`. */
    var lastWithData: nat
    var totalLen: nat
    var nAddForCb: nat
    var nDelForCb: nat
    /** Whether there are callbacks (all enabled, none marked to run at once when they are deferred),
        whether they are deferred, and whether a deferred run is due. */
    var callbacks: bool
    var deferred: bool
    var due: bool
    /** What the callbacks were told so far. */
    var reports: seq<Info>
    /** The length of the buffer when the two counters were last zeroed. */
    ghost var mark: nat
    var freezeStart: bool
    var freezeEnd: bool

    ghost predicate Valid()
      reads this
    {
      && Sharp(chains, lastWithData)
      && last == |chains| - 1
      && totalLen == |View()| <= SIZE_MAX
      && Counted()
    }

    /** The counters account for every change of length since they were last zeroed. */
    ghost predicate Counted()
      reads this
    {
      mark + nAddForCb == totalLen + nDelForCb
    }

    /** The byte queue this buffer stands for. */
    ghost function View(): seq<Byte>
      reads this
    {
      Flatten(chains)
    }

    constructor ()
      ensures Valid() && View() == [] && chains == [] && !freezeStart && !freezeEnd && !callbacks
    {
      chains, last, lastWithData, totalLen := [], -1, 0, 0;
      nAddForCb, nDelForCb, mark := 0, 0, 0;
      callbacks, deferred, due, reports := false, false, false, [];
      freezeStart, freezeEnd := false, false;
    }

    /** evbuffer_invoke_callbacks_: without callbacks the counters are zeroed; with deferred ones they are
        kept for the deferred run; otherwise the callbacks run now. */
    method InvokeCallbacks()
      requires Counted()
      modifies this`nAddForCb, this`nDelForCb, this`mark, this`reports, this`due
      ensures Counted() && Told(0, 0)
    {
      if !callbacks {
        nAddForCb, nDelForCb, mark := 0, 0, totalLen;
        return;
      }
      if deferred {
        due := true;
      } else {
        RunCallbacks();
      }
    }

    /** evbuffer_run_callbacks when it clears the counters: each callback is told the length the buffer had
        when they were last zeroed, and what came and went since. */
    method RunCallbacks()
      requires Counted()
      modifies this`nAddForCb, this`nDelForCb, this`mark, this`reports
      ensures Counted() && nAddForCb == nDelForCb == 0 && mark == totalLen
      ensures reports == old(reports) + (if old(nAddForCb) == 0 && old(nDelForCb) == 0 then []
                                         else [Info(old(mark), old(nAddForCb), old(nDelForCb))])
    {
      if nAddForCb == 0 && nDelForCb == 0 {
        return;
      }
      var info := Info(totalLen + nDelForCb - nAddForCb, nAddForCb, nDelForCb);
      nAddForCb, nDelForCb, mark := 0, 0, totalLen;
      reports := reports + [info];
    }

    /** evbuffer_deferred_callback. */
    method RunDeferred()
      requires Valid()
      modifies this`nAddForCb, this`nDelForCb, this`mark, this`reports, this`due
      ensures Valid() && View() == old(View()) && nAddForCb == nDelForCb == 0 && mark == totalLen && !due
      ensures reports == old(reports) + (if !callbacks || (old(nAddForCb) == 0 && old(nDelForCb) == 0) then []
                                         else [Info(old(mark), old(nAddForCb), old(nDelForCb))])
    {
      hide Flatten, Sharp;
      due := false;
      if callbacks {
        RunCallbacks();
      } else {
        nAddForCb, nDelForCb, mark := 0, 0, totalLen;
      }
    }

    /** The callbacks have been told, or will be, of `added` bytes that came and `deleted` that went on top
        of what the counters held. */
    twostate predicate Told(added: nat, deleted: nat)
      reads this
    {
      var a, d := old(nAddForCb) + added, old(nDelForCb) + deleted;
      && callbacks == old(callbacks) && deferred == old(deferred) && due == (old(due) || (callbacks && deferred))
      && if !callbacks then nAddForCb == nDelForCb == 0 && mark == totalLen && reports == old(reports)
         else if deferred then nAddForCb == a && nDelForCb == d && mark == old(mark) && reports == old(reports)
         else
           && nAddForCb == nDelForCb == 0 && mark == totalLen
           && reports == old(reports) + if a == 0 && d == 0 then [] else [Info(old(mark), a, d)]
    }

    /** evbuffer_free_trailing_empty_chains: returns the link where the next chain goes. `last` is
        left for the caller to repair. */
    method FreeTrailingEmptyChains() returns (slot: nat)
      requires Sharp(chains, lastWithData)
      modifies this`chains
      ensures slot == |chains| && slot <= |old(chains)|
      ensures chains == old(chains)[..slot] && AllEmpty(old(chains)[slot..])
      ensures slot == 0 || (slot == lastWithData + 1 && old(chains)[lastWithData].off > 0)
      ensures slot == 0 ==> lastWithData == 0
    {
      slot := lastWithData;
      while slot < |chains| && chains[slot].off != 0
        invariant lastWithData <= slot <= |chains|
        invariant slot > lastWithData ==> slot == lastWithData + 1 && chains[lastWithData].off > 0
      {
        slot := slot + 1;
      }
      if slot < |chains| {
        assert AllEmpty(chains[slot..]);
        chains := chains[..slot];
      }
    }

    /** evbuffer_chain_insert. */
    method ChainInsert(c: Chain)
      requires Valid() && totalLen + c.off <= SIZE_MAX && (c.off > 0 || c.misalign == 0)
      modifies this`chains, this`last, this`lastWithData, this`totalLen
      ensures Sharp(chains, lastWithData) && last == |chains| - 1 && totalLen == |View()|
      ensures View() == old(View()) + Data(c)
      ensures totalLen == old(totalLen) + c.off
      ensures chains != [] && chains[|chains| - 1] == c && lastWithData <= |chains| - 1 <= lastWithData + 1
      ensures old(chains) == [] ==> chains == [c]
    {
      hide Flatten, Data, Sharp, AllEmpty;
      SharpEnds(chains, lastWithData);
      if lastWithData >= |chains| {
        SharpOne(c);
        chains, last := [c], 0;
      } else {
        ghost var before := chains;
        var slot := FreeTrailingEmptyChains();
        AppendChainFlat(before, slot, c);
        AppendChainSharp(before, lastWithData, slot, c);
        chains := chains + [c];
        if c.off > 0 {
          lastWithData := slot;
        }
        last := slot;
      }
      totalLen := totalLen + c.off;
    }

    /** Common tail of evbuffer_add: the designated chain has become `c`, longer by `data`. */
    method GrowLast(c: Chain, ghost data: seq<Byte>, len: nat)
      requires Valid() && lastWithData < |chains| && len == |data|
      requires Data(c) == Data(chains[lastWithData]) + data && totalLen + len <= SIZE_MAX
      modifies this`chains, this`totalLen, this`nAddForCb
      ensures Valid() && View() == old(View()) + data && chains == old(chains)[lastWithData := c]
    {
      AppendAtSlot(chains, lastWithData, c, data);
      chains := chains[lastWithData := c];
      totalLen, nAddForCb := totalLen + len, nAddForCb + len;
    }

    /** evbuffer_add. */
    method Add(data: seq<Byte>) returns (ok: bool)
      requires Valid()
      modifies this
      ensures Valid() && freezeStart == old(freezeStart) && freezeEnd == old(freezeEnd)
      ensures ok <==> !freezeEnd && |data| <= SIZE_MAX - old(totalLen) && |data| <= MAX_PAYLOAD
      ensures View() == if ok then old(View()) + data else old(View())
      ensures ok ==> Told(|data|, 0)
      ensures ok && old(chains) == [] ==>
        |chains| == 1 && lastWithData == 0 && chains[0].off == |data| && chains[0].misalign == 0
        && BlockFor(|chains[0].buffer| + CHAIN_SIZE, |data| + CHAIN_SIZE)
    {
      hide Flatten, Sharp, BlockFor;
      if freezeEnd || |data| > SIZE_MAX - totalLen {
        return false;
      }
      SharpEnds(chains, lastWithData);
      if lastWithData >= |chains| {
        var tmp := ChainNew(|data|);
        if tmp.None? {
          return false;
        }
        ChainInsert(tmp.value);
      }
      assert View() == old(View());
      ok := AddToLast(data);
      if ok {
        InvokeCallbacks();
      }
    }

    /** The rest of evbuffer_add, once there is a chain to add to. */
    method AddToLast(data: seq<Byte>) returns (ok: bool)
      requires Valid() && lastWithData < |chains| && |data| <= SIZE_MAX - totalLen
      modifies this`chains, this`last, this`lastWithData, this`totalLen, this`nAddForCb
      ensures Valid()
      ensures ok <==> |data| <= MAX_PAYLOAD
      ensures View() == if ok then old(View()) + data else old(View())
      ensures Space(old(chains[lastWithData])) >= |data| ==>
        && lastWithData == old(lastWithData) < |chains| == |old(chains)|
        && Longer(old(chains[lastWithData]), chains[lastWithData], |data|)
    {
      hide Flatten, Sharp, Data;
      var chain := chains[lastWithData];
      var remain := Space(chain);
      if remain >= |data| {
        var longer := Store(chain, data);
        GrowLast(longer, data, |data|);
        return true;
      }
      if ShouldRealign(chain, |data|) {
        var aligned := Realign(chain);
        var longer := Store(aligned, data);
        GrowLast(longer, data, |data|);
        return true;
      }
      ok := AddOver(data, remain);
    }

    /** What does not fit behind the data goes into a new chain. */
    method AddOver(data: seq<Byte>, remain: nat) returns (ok: bool)
      requires Valid() && lastWithData < |chains| && remain == Space(chains[lastWithData]) < |data| <= SIZE_MAX - totalLen
      modifies this`chains, this`last, this`lastWithData, this`totalLen, this`nAddForCb
      ensures Valid()
      ensures ok <==> |data| <= MAX_PAYLOAD
      ensures View() == if ok then old(View()) + data else old(View())
      ensures ok ==> chains != [] && SizedFor(chains[|chains| - 1], NextSize(|old(chains[lastWithData]).buffer|, |data|))
    {
      hide Flatten, Sharp, Data;
      var chain := chains[lastWithData];
      var toAlloc := |chain.buffer|;
      if toAlloc <= CHAIN_MAX_AUTO_SIZE / 2 {
        toAlloc := 2 * toAlloc;
      }
      if |data| > toAlloc {
        toAlloc := |data|;
      }
      var tmp := ChainNew(toAlloc);
      if tmp.None? {
        return false;
      }
      if remain > 0 {
        var longer := Store(chain, data[..remain]);
        GrowLast(longer, data[..remain], remain);
      } else {
        NothingYet(data[..0], View());
        assert View() == old(View()) + data[..0];
      }
      NoData(tmp.value);
      var rest := Store(tmp.value, data[remain..]);
      NothingYet(Data(tmp.value), data[remain..]);
      AddChain(rest);
      Assoc(old(View()), data[..remain], data[remain..]);
      CutJoin(data, remain);
      return true;
    }

    /** The last step of evbuffer_add: what did not fit goes into a chain of its own. */
    method AddChain(c: Chain)
      requires Valid() && totalLen + c.off <= SIZE_MAX && (c.off > 0 || c.misalign == 0)
      modifies this`chains, this`last, this`lastWithData, this`totalLen, this`nAddForCb
      ensures Valid() && View() == old(View()) + Data(c) && chains != [] && chains[|chains| - 1] == c
    {
      ChainInsert(c);
      nAddForCb := nAddForCb + c.off;
    }

    /** evbuffer_prepend. When the last allocation is refused, the tail of `data` that fitted in front
        of the first chain stays. */
    method Prepend(data: seq<Byte>) returns (ok: bool)
      requires Valid()
      modifies this
      ensures Valid() && freezeStart == old(freezeStart) && freezeEnd == old(freezeEnd)
      ensures ok ==> !freezeStart && |data| <= SIZE_MAX - old(totalLen) && View() == data + old(View())
      ensures !freezeStart && |data| <= SIZE_MAX - old(totalLen) && |data| <= MAX_PAYLOAD ==> ok
      ensures freezeStart || |data| > SIZE_MAX - old(totalLen) ==> View() == old(View())
      ensures !ok && !freezeStart && |data| <= SIZE_MAX - old(totalLen) ==>
                old(FrontRoom()) < |data| && View() == data[|data| - old(FrontRoom())..] + old(View())
      ensures ok ==> Told(|data|, 0)
    {
      hide Flatten, Sharp;
      if freezeStart || |data| > SIZE_MAX - totalLen {
        return false;
      }
      if chains == [] {
        var tmp := ChainNew(|data|);
        if tmp.None? {
          assert View() == data[|data| - 0..] + old(View());
          return false;
        }
        ChainInsert(tmp.value);
      }
      assert View() == old(View());
      ok := PrependToFirst(data);
      if ok {
        InvokeCallbacks();
      }
    }

    /** Free bytes in front of the data of the first chain; an empty chain is all front. */
    ghost function FrontRoom(): nat
      reads this
    {
      if chains == [] then 0 else if chains[0].off == 0 then |chains[0].buffer| else chains[0].misalign
    }

    /** `chain` has grown at its front by `data` and goes back to the head of the list. */
    method GrowFirst(c: Chain, ghost data: seq<Byte>, len: nat)
      requires Valid() && chains != [] && len == |data| && totalLen + len <= SIZE_MAX
      requires Data(c) == data + Data(chains[0])
      modifies this`chains, this`totalLen, this`nAddForCb
      ensures Valid() && View() == data + old(View())
      ensures chains == old(chains)[0 := c]
    {
      PrependAtFront(chains, c, data);
      assert |Data(c)| == len + |Data(chains[0])|;
      chains := chains[0 := c];
      totalLen, nAddForCb := totalLen + len, nAddForCb + len;
    }

    /** The rest of evbuffer_prepend, once there is a first chain. */
    method PrependToFirst(data: seq<Byte>) returns (ok: bool)
      requires Valid() && chains != [] && |data| <= SIZE_MAX - totalLen
      modifies this`chains, this`last, this`lastWithData, this`totalLen, this`nAddForCb
      ensures Valid()
      ensures ok ==> View() == data + old(View())
      ensures |data| <= MAX_PAYLOAD ==> ok
      ensures !ok ==> old(FrontRoom()) < |data| && View() == data[|data| - old(FrontRoom())..] + old(View())
    {
      hide Flatten, Data, Sharp;
      var split := FillFront(data);
      if split == 0 {
        assert data[0..] == data;
        return true;
      }
      ok := NewFirst(data[..split]);
      if ok {
        assert View() == data + old(View()) by {
          Assoc(data[..split], data[split..], old(View()));
          CutJoin(data, split);
        }
      }
    }

    /** As much of the end of `data` as fits goes in front of the first chain's data; `split` bytes are
        left over. */
    method FillFront(data: seq<Byte>) returns (split: nat)
      requires Valid() && chains != [] && |data| <= SIZE_MAX - totalLen
      modifies this`chains, this`totalLen, this`nAddForCb
      ensures Valid() && chains != [] && split <= |data|
      ensures split == if |data| <= old(FrontRoom()) then 0 else |data| - old(FrontRoom())
      ensures View() == data[split..] + old(View())
      ensures split > 0 ==> chains[0].off > 0
      ensures totalLen == old(totalLen) + |data| - split
    {
      hide Flatten, Data, Sharp;
      var chain := chains[0];
      if chain.off == 0 {
        chain := Block(chain.buffer, |chain.buffer|, 0);
        NoData(chain);
        NoData(chains[0]);
      }
      var room := chain.misalign;
      split := if room >= |data| then 0 else |data| - room;
      if split == 0 || room > 0 {
        var longer := StoreFront(chain, data[split..]);
        GrowFirst(longer, data[split..], |data| - split);
      } else {
        assert data[split..] == [];
      }
    }

    static lemma NoData(c: Chain)
      requires c.off == 0
      ensures Data(c) == []
    {
    }

    /** The last step of evbuffer_prepend: a new first chain, filled from its end. */
    method NewFirst(data: seq<Byte>) returns (ok: bool)
      requires Valid() && chains != [] && chains[0].off > 0 && data != [] && totalLen + |data| <= SIZE_MAX
      modifies this`chains, this`last, this`lastWithData, this`totalLen, this`nAddForCb
      ensures Valid()
      ensures ok <==> |data| <= MAX_PAYLOAD
      ensures View() == if ok then data + old(View()) else old(View())
    {
      var tmp := ChainNew(|data|);
      if tmp.None? {
        return false;
      }
      var empty := Block(tmp.value.buffer, |tmp.value.buffer|, 0);
      assert Data(empty) == [];
      var front := StoreFront(empty, data);
      PushFirst(front);
      return true;
    }

    /** Link a chain in before the first one. */
    method PushFirst(c: Chain)
      requires Valid() && chains != [] && chains[0].off > 0 && Data(c) != [] && totalLen + c.off <= SIZE_MAX
      modifies this`chains, this`last, this`lastWithData, this`totalLen, this`nAddForCb
      ensures Valid() && View() == Data(c) + old(View())
    {
      SharpCons(c, chains, lastWithData);
      chains := [c] + chains;
      if lastWithData == 0 {
        lastWithData := 1;  // `&buf->first` would now name the new chain
      } else {
        lastWithData := lastWithData + 1;  // same owner, one place further
      }
      last := last + 1;
      totalLen, nAddForCb := totalLen + c.off, nAddForCb + c.off;
    }

    /** ZERO_CHAIN. */
    method ZeroChain()
      modifies this`chains, this`last, this`lastWithData, this`totalLen
      ensures chains == [] && last == -1 && lastWithData == 0 && totalLen == 0 && View() == [] && Sharp(chains, lastWithData)
    {
      chains, last, lastWithData, totalLen := [], -1, 0, 0;
    }

    /** evbuffer_drain. */
    method Drain(len: nat) returns (ok: bool)
      requires Valid()
      modifies this
      ensures Valid() && freezeStart == old(freezeStart) && freezeEnd == old(freezeEnd)
      ensures ok <==> old(totalLen) == 0 || !freezeStart
      ensures ok ==> View() == old(View())[if len < old(totalLen) then len else old(totalLen)..]
      ensures !ok ==> View() == old(View())
      ensures ok && old(totalLen) > 0 ==> Told(0, if len < old(totalLen) then len else old(totalLen))
    {
      hide Flatten, Sharp;
      if totalLen == 0 {
        return true;
      }
      if freezeStart {
        return false;
      }
      if len >= totalLen {
        nDelForCb := nDelForCb + totalLen;
        ZeroChain();
      } else {
        nDelForCb := nDelForCb + len;
        DrainPart(len);
      }
      InvokeCallbacks();
      return true;
    }

    method DrainPart(len: nat)
      requires Sharp(chains, lastWithData) && last == |chains| - 1
      requires totalLen == |View()| && len < totalLen
      modifies this`chains, this`last, this`lastWithData, this`totalLen
      ensures Sharp(chains, lastWithData) && last == |chains| - 1
      ensures totalLen == |View()| == old(totalLen) - len
      ensures View() == old(View())[len..]
    {
      hide Flatten, Data, Sharp;
      SharpEnds(chains, lastWithData);
      var cs, link: int := chains, lastWithData;
      totalLen := totalLen - len;
      var remaining: nat, i := len, 0;
      while remaining >= cs[i].off
        invariant 0 <= i < |cs| && i <= lastWithData
        invariant Offset(cs, i) + remaining == len
        invariant link == if i < lastWithData then lastWithData else 0
        modifies {}
        decreases |cs| - i
      {
        if i == lastWithData {
          SharpOffset(cs, i);
          assert false;
        }
        remaining := remaining - cs[i].off;
        if i == link {
          link := 0;
        }
        if link == i + 1 {
          link := 0;
        }
        i := i + 1;
      }
      var front := Skip(cs[i], remaining);
      DropInside(cs, i, remaining, front);
      DrainedSharp(cs, lastWithData, i, front);
      lastWithData := Rebase(link, i);
      last := last - i;
      chains := [front] + cs[i + 1..];
    }

    /** evbuffer_copyout_from: copy up to `datlen` bytes from `start` (the front when absent). */
    method CopyoutFrom(start: Option<Ptr>, datlen: nat) returns (n: int, data: seq<Byte>)
      requires Valid() && (start.Some? ==> PtrOk(chains, start.value))
      ensures n == -1 || n == |data|
      ensures var from := if start.Some? then start.value.pos else 0;
              && 0 <= from <= totalLen
              && var len := if datlen < totalLen - from then datlen else totalLen - from;
              && (n == -1 <==> (start.Some? && datlen > SSIZE_MAX - from) || (len > 0 && freezeStart))
              && (n >= 0 ==> data == View()[from..from + len])
    {
      hide Flatten, Data, Sharp;
      SharpEnds(chains, lastWithData);
      var from, i, pos := 0, 0, 0;
      if start.Some? {
        from, i, pos := start.value.pos, start.value.chain, start.value.posInChain;
        PtrInside(start.value);
        if datlen > SSIZE_MAX - from {
          return -1, [];
        }
      }
      var left := if datlen < totalLen - from then datlen else totalLen - from;
      if left == 0 {
        return 0, [];
      }
      if freezeStart {
        return -1, [];
      }
      data := Gather(chains, i, pos, left);
      n := |data|;
    }

    lemma PtrInside(p: Ptr)
      requires PtrOk(chains, p)
      ensures 0 <= p.pos <= |View()|
      ensures p.chain == |chains| ==> p.pos == |View()|
    {
      OffsetBound(chains, p.chain);
    }

    /** evbuffer_remove: copy out, then drain what was copied. */
    method Remove(datlen: nat) returns (n: int, data: seq<Byte>)
      requires Valid()
      modifies this
      ensures Valid() && freezeStart == old(freezeStart) && freezeEnd == old(freezeEnd)
      ensures var len := if datlen < old(totalLen) then datlen else old(totalLen);
              && n >= -1 && (n == -1 <==> len > 0 && freezeStart)
              && (n >= 0 ==> n == len && data == old(View())[..len] && View() == old(View())[len..])
              && (n == -1 ==> View() == old(View()))
              && (n > 0 ==> Told(0, n))
    {
      n, data := CopyoutFrom(None, datlen);
      if n > 0 {
        var ok := Drain(n);
        if !ok {
          n := -1;
        }
      }
    }

    /** evbuffer_pullup: make the first `size` bytes (all of them when negative) contiguous. */
    method Pullup(size: int) returns (ok: bool)
      requires Valid()
      modifies this`chains, this`last, this`lastWithData
      ensures Valid() && View() == old(View())
      ensures var n := if size < 0 then totalLen else size;
              && (ok <==> 0 < n <= totalLen && n <= MAX_PAYLOAD)
              && (ok ==> chains != [] && chains[0].off >= n && Data(chains[0])[..n] == View()[..n])
    {
      hide Flatten, Data, Sharp;
      var n := if size < 0 then totalLen else size;
      if n == 0 || n > totalLen {
        return false;
      }
      SharpEnds(chains, lastWithData);
      FirstWindow(chains, lastWithData, n);
      if chains[0].off >= n {
        return true;
      }
      var first, base, block := 0, 0, [];
      if |chains[0].buffer| - chains[0].misalign >= n {
        first, base, block := 1, chains[0].misalign, chains[0].buffer;
      } else {
        var tmp := ChainNew(n);
        if tmp.None? {
          return false;
        }
        block := tmp.value.buffer;
      }
      PullFrom(n, first, base, block);
      return true;
    }

    /** What of a prefix the first chain holds. */
    static lemma FirstWindow(cs: seq<Chain>, lwd: nat, n: nat)
      requires Sharp(cs, lwd) && cs != [] && n <= |Flatten(cs)|
      ensures n <= cs[0].off ==> Data(cs[0])[..n] == Flatten(cs)[..n]
      ensures cs[0].off < n ==> lwd > 0 && cs[0].off <= |Flatten(cs)|
                                && cs[0].buffer[cs[0].misalign..cs[0].misalign + cs[0].off] == Flatten(cs)[..cs[0].off]
    {
      hide Flatten;
      SharpOffset(cs, lwd);
      FlattenWindow(cs, 0, 0, cs[0].off);
      if n <= cs[0].off {
        FlattenWindow(cs, 0, 0, n);
      }
    }

    /** The rest of evbuffer_pullup, once the receiving block is chosen. */
    method PullFrom(n: nat, first: nat, base: nat, block: seq<Byte>)
      requires Valid() && chains != [] && chains[0].off < n <= totalLen && first <= 1
      requires base + n <= |block| <= MAX_PAYLOAD && lastWithData > 0
      requires first == 1 ==> block[base..base + chains[0].off] == View()[..chains[0].off]
      modifies this`chains, this`last, this`lastWithData
      ensures Valid() && View() == old(View())
      ensures chains != [] && chains[0].off >= n && Data(chains[0])[..n] == View()[..n]
    {
      hide Flatten, AllEmpty, Data, Sharp;
      var cs := chains;
      FirstOffset(cs);
      var mem, stop, rest, removedLast, removedLink :=
        PullChains(cs, first, block, base, n - (if first == 1 then cs[0].off else 0), lastWithData, lastWithData);
      var head: Chain := Block(mem, base, n);
      OffsetBound(cs, stop);
      DataIs(head);
      SharpOne(head);
      Relink(cs, head, stop, rest);
      var link: int := if removedLast then 0
                       else if removedLink then (if |chains| > 1 && chains[1].off > 0 then 1 else 0)
                       else SurvivingLink(lastWithData, first, stop);
      lastWithData := link;
    }

    static lemma FirstOffset(cs: seq<Chain>)
      requires cs != []
      ensures Offset(cs, 0) == 0 && Offset(cs, 1) == cs[0].off
    {
      assert Offset(cs, 1) == Offset(cs, 0) + cs[0].off;
    }

    static lemma DataIs(c: Chain)
      ensures Data(c) == c.buffer[c.misalign..c.misalign + c.off] && Data(c)[..c.off] == Data(c)
    {
    }

    /** Put `head` in the place of the chains it replaces. */
    method Relink(cs: seq<Chain>, head: Chain, stop: nat, rest: nat)
      requires chains == cs && Sharp(cs, lastWithData) && last == |cs| - 1 && lastWithData > 0 && head.off > 0
      requires stop <= |cs| && Offset(cs, stop) + rest <= |Flatten(cs)|
      requires Data(head) == Flatten(cs)[..Offset(cs, stop) + rest]
      requires if stop < |cs| then rest < cs[stop].off else head.off == |Flatten(cs)|
      modifies this`chains, this`last
      ensures View() == old(View()) && last == |chains| - 1 && chains != [] && chains[0] == head
      ensures stop < |cs| ==> stop <= lastWithData && Sharp(chains, lastWithData - stop + 1) && |chains| > 1 && chains[1].off > 0
      ensures stop == |cs| ==> lastWithData < stop && chains == [head]
    {
      if stop < |cs| {
        var c := Skip(cs[stop], rest);
        PulledFlat(cs, stop, rest, head, c);
        PulledSharp(cs, lastWithData, stop, head, c);
        chains := [head] + ([c] + cs[stop + 1..]);
        last := last - stop + 1;
      } else {
        FlattenOne(head);
        chains := [head];
        last := 0;
      }
    }

    /** COPY_CHAIN. */
    method CopyChain(src: EvBuffer)
      requires this != src && src.Valid()
      modifies this`chains, this`last, this`lastWithData, this`totalLen
      ensures chains == src.chains && last == src.last && lastWithData == src.lastWithData && totalLen == src.totalLen
    {
      chains, last, lastWithData, totalLen := src.chains, src.last, src.lastWithData, src.totalLen;
    }

    /** APPEND_CHAIN. */
    method AppendChain(src: EvBuffer)
      requires this != src && Valid() && src.Valid() && src.totalLen > 0
      requires totalLen + src.totalLen <= SIZE_MAX
      modifies this`chains, this`last, this`lastWithData, this`totalLen
      ensures Sharp(chains, lastWithData) && last == |chains| - 1
      ensures View() == old(View()) + old(src.View()) && totalLen == |View()|
    {
      hide Flatten, Data, Sharp, AllEmpty;
      ghost var before := chains;
      SharpTailIf(src.chains, src.lastWithData);
      var slot := FreeTrailingEmptyChains();
      AppendListFlat(before, slot, src.chains);
      AppendListSharp(before, lastWithData, slot, src.chains, src.lastWithData);
      chains := chains + src.chains;
      lastWithData := if src.lastWithData == 0 then slot else slot + src.lastWithData;
      last := slot + src.last;
      totalLen := totalLen + src.totalLen;
    }

    /** evbuffer_add_buffer: move everything of `src` to the end of this buffer. */
    method AddBuffer(src: EvBuffer) returns (ok: bool)
      requires Valid() && src.Valid()
      requires this != src ==> totalLen + src.totalLen <= SIZE_MAX
      modifies this, src
      ensures Valid() && src.Valid()
      ensures freezeStart == old(freezeStart) && freezeEnd == old(freezeEnd)
      ensures src.freezeStart == old(src.freezeStart) && src.freezeEnd == old(src.freezeEnd)
      ensures ok <==> old(src.totalLen) == 0 || this == src || !(freezeEnd || src.freezeStart)
      ensures if ok && this != src then View() == old(View()) + old(src.View()) && src.View() == []
              else View() == old(View()) && src.View() == old(src.View())
      ensures ok && this != src && old(src.totalLen) > 0 ==>
                Told(old(src.totalLen), 0) && src.Told(0, old(src.totalLen))
    {
      hide Flatten, Sharp;
      if src.totalLen == 0 || this == src {
        return true;
      }
      if freezeEnd || src.freezeStart {
        return false;
      }
      TakeAll(src);
      src.InvokeCallbacks();
      InvokeCallbacks();
      return true;
    }

    /** The chains of `src` change hands, behind what is here. */
    method TakeAll(src: EvBuffer)
      requires this != src && Valid() && src.Valid() && src.totalLen > 0 && totalLen + src.totalLen <= SIZE_MAX
      modifies this`chains, this`last, this`lastWithData, this`totalLen, this`nAddForCb
      modifies src`chains, src`last, src`lastWithData, src`totalLen, src`nDelForCb
      ensures Valid() && src.Valid() && View() == old(View()) + old(src.View()) && src.View() == []
      ensures nAddForCb == old(nAddForCb) + old(src.totalLen) && src.nDelForCb == old(src.nDelForCb) + old(src.totalLen)
    {
      hide Flatten, Data, Sharp, AllEmpty;
      var moved := src.totalLen;
      if totalLen == 0 {
        NothingYet(View(), src.View());
        CopyChain(src);
      } else {
        AppendChain(src);
      }
      src.ZeroChain();
      src.nDelForCb := src.nDelForCb + moved;
      nAddForCb := nAddForCb + moved;
    }

    static lemma NothingYet<T>(a: seq<T>, b: seq<T>)
      ensures |a| == 0 ==> a + b == b
    {
    }

    /** advance_last_with_data. */
    method AdvanceLastWithData(ghost end: nat)
      requires chains == [] ==> lastWithData == 0
      requires chains != [] ==> lastWithData <= end < |chains|
      requires forall i :: lastWithData < i <= end && i < |chains| ==> chains[i].off > 0
      requires end + 1 < |chains| ==> chains[end + 1].off == 0
      modifies this`lastWithData
      ensures chains != [] ==> lastWithData == end
      ensures chains == [] ==> lastWithData == 0
    {
      if lastWithData >= |chains| {
        return;
      }
      var cs := chains;
      while lastWithData + 1 < |cs| && cs[lastWithData + 1].off > 0
        invariant lastWithData <= end
        decreases |cs| - lastWithData
      {
        lastWithData := lastWithData + 1;
      }
    }

    /** evbuffer_remove_buffer: move the first `datlen` bytes of this buffer to the end of `dst`,
        whole chains where possible. */
    method RemoveBuffer(dst: EvBuffer, datlen: nat) returns (n: int)
      requires Valid() && dst.Valid()
      requires this != dst ==> totalLen + dst.totalLen <= SIZE_MAX
      modifies this, dst
      ensures Valid() && dst.Valid()
      ensures freezeStart == old(freezeStart) && freezeEnd == old(freezeEnd)
      ensures dst.freezeStart == old(dst.freezeStart) && dst.freezeEnd == old(dst.freezeEnd)
      ensures var len := if datlen < old(totalLen) then datlen else old(totalLen);
              if datlen == 0 || this == dst then
                n == 0 && View() == old(View()) && dst.View() == old(dst.View())
              else if dst.freezeEnd || freezeStart then
                n == -1 && View() == old(View()) && dst.View() == old(dst.View())
              else
                n == len && View() == old(View())[len..] && dst.View() == old(dst.View()) + old(View())[..len]
      ensures n > 0 ==> dst.Told(n, 0) && Told(0, n)
    {
      hide Flatten, Sharp;
      if datlen == 0 || this == dst {
        return 0;
      }
      if dst.freezeEnd || freezeStart {
        return -1;
      }
      if datlen >= totalLen {
        n := totalLen;
        var ok := dst.AddBuffer(this);
        assert old(View())[..n] == old(View());
        return;
      }
      n := RemovePart(dst, datlen);
      dst.InvokeCallbacks();
      InvokeCallbacks();
    }

    /** The part of evbuffer_remove_buffer that leaves data behind. */
    method RemovePart(dst: EvBuffer, datlen: nat) returns (n: int)
      requires this != dst && Valid() && dst.Valid() && 0 < datlen < totalLen
      requires totalLen + dst.totalLen <= SIZE_MAX && !dst.freezeEnd
      modifies this`chains, this`last, this`lastWithData, this`totalLen, this`nDelForCb
      modifies dst
      ensures Valid() && dst.Valid() && n == datlen
      ensures dst.freezeStart == old(dst.freezeStart) && dst.freezeEnd == old(dst.freezeEnd)
      ensures View() == old(View())[datlen..] && dst.View() == old(dst.View()) + old(View())[..datlen]
      ensures dst.Told(datlen, 0) && nDelForCb == old(nDelForCb) + datlen
    {
      hide Flatten, Data, Sharp;
      var i, left, link := WholeChains(chains, lastWithData, datlen);
      ghost var v := View();
      var nread := datlen - left;
      if nread > 0 {
        MoveChains(dst, i, link, nread);
      }
      assert View() == v[nread..] && dst.View() == old(dst.View()) + v[..nread];
      n := MoveBytes(dst, left, nread);
      CutTwice(v, nread, left);
      Assoc(old(dst.View()), v[..nread], v[nread..][..left]);
    }

    /** Unlink the first `i` chains and hang them behind the data of `dst`. */
    method MoveChains(dst: EvBuffer, i: nat, link: nat, nread: nat)
      requires this != dst && Valid() && dst.Valid() && 0 < i < |chains| && i <= lastWithData
      requires link == if i < lastWithData then lastWithData else 0
      requires nread == Offset(chains, i) && totalLen + dst.totalLen <= SIZE_MAX
      modifies this`chains, this`last, this`lastWithData
      modifies dst`chains, dst`last, dst`lastWithData, dst`totalLen, dst`nAddForCb
      ensures Sharp(chains, lastWithData) && last == |chains| - 1 && chains == old(chains)[i..]
      ensures nread <= old(totalLen) && View() == old(View())[nread..]
      ensures dst.Valid() && dst.View() == old(dst.View()) + old(View())[..nread]
      ensures dst.totalLen == old(dst.totalLen) + nread && dst.nAddForCb == old(dst.nAddForCb) + nread
    {
      var cs := chains;
      OffsetIsLength(cs, i);
      assert View() == Flatten(cs[..i]) + Flatten(cs[i..]) by {
        FlattenCut(cs, i);
      }
      assert Flatten(cs[..i]) == View()[..nread] && Flatten(cs[i..]) == View()[nread..];
      dst.TakeChains(cs[..i], nread);
      last := last - i;
      lastWithData := Rebase(link, i);
      chains := cs[i..];
    }

    /** The receiving half: `taken` is a list of non-empty chains holding `len` bytes. */
    method TakeChains(taken: seq<Chain>, len: nat)
      requires Valid() && taken != [] && (forall k :: 0 <= k < |taken| ==> taken[k].off > 0)
      requires len == |Flatten(taken)| && totalLen + len <= SIZE_MAX
      modifies this`chains, this`last, this`lastWithData, this`totalLen, this`nAddForCb
      ensures Valid() && View() == old(View()) + Flatten(taken) && totalLen == old(totalLen) + len && nAddForCb == old(nAddForCb) + len
    {
      hide Flatten, Data, Sharp, AllEmpty;
      SharpFull(taken);
      ghost var before := chains;
      var slot := FreeTrailingEmptyChains();
      assert Flatten(chains + taken) == old(View()) + Flatten(taken) by {
        AppendListFlat(before, slot, taken);
      }
      assert Sharp(chains + taken, slot + |taken| - 1) by {
        AppendListSharp(before, lastWithData, slot, taken, |taken| - 1);
      }
      chains := chains + taken;
      last := slot + |taken| - 1;
      AdvanceLastWithData(slot + |taken| - 1);
      totalLen, nAddForCb := totalLen + len, nAddForCb + len;
    }

    /** The last `left` bytes are copied out of the first remaining chain. */
    method MoveBytes(dst: EvBuffer, left: nat, nread: nat) returns (n: int)
      requires this != dst && dst.Valid() && !dst.freezeEnd
      requires Sharp(chains, lastWithData) && last == |chains| - 1 && chains != [] && left < chains[0].off
      requires totalLen == |View()| + nread <= SIZE_MAX && Counted()
      requires |View()| + dst.totalLen <= SIZE_MAX
      modifies this`chains, this`totalLen, this`nDelForCb
      modifies dst
      ensures Valid() && dst.Valid() && n == nread + left
      ensures dst.freezeStart == old(dst.freezeStart) && dst.freezeEnd == old(dst.freezeEnd)
      ensures left <= |old(View())| && View() == old(View())[left..] && dst.View() == old(dst.View()) + old(View())[..left]
      ensures dst.Told(left, 0) && nDelForCb == old(nDelForCb) + n
    {
      hide Flatten, Data, Sharp;
      var chain := chains[0];
      FlattenWindow(chains, 0, 0, left);
      FirstOffset(chains);
      var ok := dst.Add(Data(chain)[..left]);
      var front := Skip(chain, left);
      DropInside(chains, 0, left, front);
      DrainedSharp(chains, lastWithData, 0, front);
      chains := [front] + chains[1..];
      n := nread + left;
      totalLen, nDelForCb := totalLen - n, nDelForCb + n;
    }

    /** evbuffer_expand_singlechain: `datlen` free bytes in one chain, right behind the data. */
    method ExpandSingleChain(datlen: nat) returns (r: Option<nat>)
      requires Valid()
      modifies this`chains, this`last, this`lastWithData, this`totalLen
      ensures Valid() && View() == old(View())
      ensures r.Some? ==> lastWithData <= r.value < |chains| && r.value <= lastWithData + 1
      ensures r.Some? ==> Space(chains[r.value]) >= datlen
      ensures r.None? <==> Demand(old(chains), old(lastWithData), datlen) > MAX_PAYLOAD
      ensures datlen > 0 && Demand(old(chains), old(lastWithData), datlen) == 0 ==> SameBlocks(old(chains), chains)
    {
      hide Flatten, Data;
      var at := FirstSpace(chains, lastWithData);
      if at >= |chains| {
        r := InsertNew(datlen);
        return;
      }
      var chain := chains[at];
      if Space(chain) >= datlen {
        return Some(at);
      }
      if chain.off == 0 {
        r := InsertNew(datlen);
        return;
      }
      if ShouldRealign(chain, datlen) {
        var aligned := Realign(chain);
        ReplaceChain(at, aligned);
        return Some(at);
      }
      if Space(chain) < |chain.buffer| / 8 || chain.off > MAX_TO_COPY_IN_EXPAND || datlen >= CHAIN_MAX - chain.off {
        if at + 1 < |chains| && Space(chains[at + 1]) >= datlen {
          return Some(at + 1);
        }
        r := InsertNew(datlen);
        return;
      }
      var ok := Enlarge(at, datlen);
      return if ok then Some(at) else None;
    }

    /** A chain is replaced by a bigger one with the same data. */
    method Enlarge(at: nat, datlen: nat) returns (ok: bool)
      requires Valid() && at < |chains| && at <= lastWithData
      modifies this`chains
      ensures Valid() && View() == old(View()) && |chains| == |old(chains)|
      ensures ok <==> old(chains)[at].off + datlen <= MAX_PAYLOAD
      ensures ok ==> Space(chains[at]) >= datlen
    {
      hide Flatten, Data, Sharp;
      var chain := chains[at];
      var tmp := ChainNew(chain.off + datlen);
      if tmp.None? {
        return false;
      }
      NoData(tmp.value);
      NothingYet(Data(tmp.value), Data(chain));
      var bigger := Store(tmp.value, Data(chain));
      ReplaceChain(at, bigger);
      return true;
    }

    /** evbuffer_chain_insert_new. */
    method InsertNew(datlen: nat) returns (r: Option<nat>)
      requires Valid()
      modifies this`chains, this`last, this`lastWithData, this`totalLen
      ensures Valid() && View() == old(View())
      ensures r.Some? ==> lastWithData <= r.value < |chains| && r.value <= lastWithData + 1
      ensures r.Some? ==> Space(chains[r.value]) >= datlen
      ensures r.Some? <==> datlen <= MAX_PAYLOAD
    {
      var tmp := ChainNew(datlen);
      if tmp.None? {
        return None;
      }
      ChainInsert(tmp.value);
      return Some(last);
    }

    /** Swap a chain for one with the same data. */
    method ReplaceChain(at: nat, c: Chain)
      requires Valid() && at < |chains| && Data(c) == Data(chains[at]) && at <= lastWithData
      modifies this`chains
      ensures Valid() && View() == old(View()) && chains == old(chains)[at := c]
    {
      assert |Data(c)| == |Data(chains[at])|;
      FlattenSame(chains, chains[at := c]);
      SharpSame(chains, chains[at := c], lastWithData);
      chains := chains[at := c];
    }

    /** The chains up to the last with data are as they were. */
    twostate predicate DataStays()
      reads this
    {
      old(totalLen) > 0 ==>
        && lastWithData == old(lastWithData) < |old(chains)| && lastWithData < |chains|
        && chains[..lastWithData + 1] == old(chains)[..lastWithData + 1]
    }

    /** evbuffer_expand_fast_: `datlen` free bytes in at most `n` chains behind the data, without
        moving any data. */
    method ExpandFast(datlen: nat, n: nat) returns (ok: bool)
      requires Valid() && n >= 2
      modifies this`chains, this`last, this`lastWithData, this`totalLen
      ensures Valid() && View() == old(View())
      ensures !ok ==> datlen > MAX_PAYLOAD
      ensures ok ==> HasRoom(chains, lastWithData, datlen, n)
      ensures DataStays()
    {
      hide Flatten, Data, Room, AllEmpty, Sharp, HasRoom;
      SharpTailIf(chains, lastWithData);
      SharpEnds(chains, lastWithData);
      if last == -1 {
        ok := InsertFirst(datlen, n);
        return;
      }
      var ds, used, avail, enough := ScanSpace(chains, lastWithData, datlen, n);
      RealignedKeeps(chains, ds, lastWithData);
      KeptAligned(chains, ds, lastWithData);
      chains := ds;
      ok := ExpandScanned(datlen, n, used, avail, enough);
    }

    /** The end of evbuffer_expand_fast_, once the chains with space are known. */
    method ExpandScanned(datlen: nat, n: nat, used: nat, avail: nat, enough: bool) returns (ok: bool)
      requires Valid() && n >= 2 && lastWithData < |chains| && used <= n && FirstSpace(chains, lastWithData) + used <= |chains|
      requires var first := FirstSpace(chains, lastWithData); avail == Room(chains, first, first + used) && (enough <==> avail >= datlen)
      requires !enough && used < n ==> FirstSpace(chains, lastWithData) + used == |chains|
      requires chains[lastWithData].off > 0 || Space(chains[lastWithData]) > 0
      modifies this`chains, this`last, this`lastWithData, this`totalLen
      ensures Valid() && View() == old(View())
      ensures !ok ==> datlen > MAX_PAYLOAD
      ensures ok ==> HasRoom(chains, lastWithData, datlen, n)
      ensures old(chains[lastWithData].off > 0) ==>
        lastWithData == old(lastWithData) < |chains| && chains[..lastWithData + 1] == old(chains)[..lastWithData + 1]
    {
      hide Flatten, Data, Room, AllEmpty, Sharp;
      if enough {
        RoomFound(chains, lastWithData, used, n);
        return true;
      }
      if used < n {
        ok := GrowTail(datlen - avail, n);
      } else {
        RoomFirst(chains, FirstSpace(chains, lastWithData), FirstSpace(chains, lastWithData) + used);
        ok := ReplaceTail(datlen, n);
      }
    }

    method InsertFirst(datlen: nat, ghost n: nat) returns (ok: bool)
      requires Valid() && chains == [] && n >= 1
      modifies this`chains, this`last, this`lastWithData, this`totalLen
      ensures Valid() && View() == old(View())
      ensures ok <==> datlen <= MAX_PAYLOAD
      ensures ok ==> HasRoom(chains, lastWithData, datlen, n)
    {
      var tmp := ChainNew(datlen);
      if tmp.Some? {
        ChainInsert(tmp.value);
        RoomFound(chains, lastWithData, 1, n);
      }
      return tmp.Some?;
    }

    /** `buf->last->next = tmp; buf->last = tmp` with an empty chain for `size` bytes. */
    method GrowTail(size: nat, ghost n: nat) returns (ok: bool)
      requires Valid() && chains != [] && size > 0
      requires FirstSpace(chains, lastWithData) <= |chains| < FirstSpace(chains, lastWithData) + n
      requires chains[lastWithData].off > 0 || Space(chains[lastWithData]) > 0
      modifies this`chains, this`last
      ensures Valid() && View() == old(View())
      ensures ok <==> size <= MAX_PAYLOAD
      ensures ok ==> var first := FirstSpace(old(chains), lastWithData);
                     HasRoom(chains, lastWithData, Room(old(chains), first, |old(chains)|) + size, n)
      ensures lastWithData < |old(chains)| <= |chains| && chains[..lastWithData + 1] == old(chains)[..lastWithData + 1]
    {
      hide Flatten, Data, Sharp, Room, HasRoom;
      SharpEnds(chains, lastWithData);
      var tmp := ChainNew(size);
      if tmp.None? {
        return false;
      }
      FlattenSnoc(chains, tmp.value);
      NoData(tmp.value);
      SharpSnoc(chains, lastWithData, tmp.value);
      RoomWithTail(chains, lastWithData, tmp.value, n);
      ghost var room := Room(chains, FirstSpace(chains, lastWithData), |chains|);
      LessRoom(chains + [tmp.value], lastWithData, room + Space(tmp.value), room + size, n);
      chains := chains + [tmp.value];
      last := last + 1;
      return true;
    }

    static lemma LessRoom(cs: seq<Chain>, lwd: nat, much: nat, little: nat, n: nat)
      requires HasRoom(cs, lwd, much, n) && little <= much
      ensures HasRoom(cs, lwd, little, n)
    {
      hide Room, Space;
    }

    /** Free all the empty chains and put one in their place that makes up `datlen` free bytes. */
    method ReplaceTail(datlen: nat, ghost n: nat) returns (ok: bool)
      requires Valid() && chains != [] && n >= 2
      requires chains[lastWithData].off > 0 ==> Space(chains[lastWithData]) <= datlen
      modifies this`chains, this`last, this`lastWithData, this`totalLen
      ensures Valid() && View() == old(View())
      ensures !ok ==> datlen > MAX_PAYLOAD
      ensures ok ==> HasRoom(chains, lastWithData, datlen, n)
      ensures old(chains[lastWithData].off > 0) ==>
        lastWithData == old(lastWithData) < |chains| && chains[..lastWithData + 1] == old(chains)[..lastWithData + 1]
    {
      hide Flatten, Data, HasRoom, Room;
      SharpTail(chains, lastWithData);
      if chains[lastWithData].off == 0 {
        ok := ReplaceAll(datlen, n);
      } else {
        ok := ReplaceEmpties(datlen, n);
      }
    }

    /** No chain holds data: one new chain replaces them all. */
    method ReplaceAll(datlen: nat, ghost n: nat) returns (ok: bool)
      requires Valid() && View() == [] && n >= 1
      modifies this`chains, this`last, this`lastWithData, this`totalLen
      ensures Valid() && View() == old(View())
      ensures ok <==> datlen <= MAX_PAYLOAD
      ensures if ok then HasRoom(chains, lastWithData, datlen, n) else chains == []
    {
      hide Flatten, Data;
      var tmp := ChainNew(datlen);
      if tmp.None? {
        ZeroChain();
        return false;
      }
      FlattenOne(tmp.value);
      assert Data(tmp.value) == [];
      chains, last, lastWithData := [tmp.value], 0, 0;
      return true;
    }

    /** The empty chains behind the data make way for one that makes up `datlen` free bytes. */
    method ReplaceEmpties(datlen: nat, ghost n: nat) returns (ok: bool)
      requires Valid() && lastWithData < |chains| && chains[lastWithData].off > 0 && n >= 2
      requires Space(chains[lastWithData]) <= datlen && AllEmpty(chains[lastWithData + 1..])
      modifies this`chains, this`last
      ensures Valid() && View() == old(View())
      ensures !ok ==> datlen > MAX_PAYLOAD
      ensures ok ==> HasRoom(chains, lastWithData, datlen, n)
      ensures lastWithData < |chains| && chains[..lastWithData + 1] == old(chains)[..lastWithData + 1]
    {
      hide Flatten, Data;
      var avail := Space(chains[lastWithData]);
      var tmp := ChainNew(datlen - avail);
      FlattenTrim(chains, lastWithData + 1);
      chains := chains[..lastWithData + 1];
      last := lastWithData;
      if tmp.None? {
        return false;
      }
      FlattenSnoc(chains, tmp.value);
      assert Data(tmp.value) == [];
      RoomWithTail(chains, lastWithData, tmp.value, n);
      chains := chains + [tmp.value];
      last := last + 1;
      return true;
    }

    /** evbuffer_read. `readable` is what FIONREAD said; `wire` is what readv has to deliver, of which it delivers
        as much as the vectors it is offered hold, or absent when it fails. */
    method Read(howmuch: int, readable: int, wire: Option<seq<Byte>>) returns (result: int)
      requires Valid() && totalLen + MAX_READ <= SIZE_MAX
      modifies this
      ensures Valid() && freezeStart == old(freezeStart) && freezeEnd == old(freezeEnd)
      ensures result > 0 ==> Told(result, 0)
      ensures if freezeEnd || wire.None? then result == -1 && View() == old(View())
              else 0 <= result <= |wire.value| && View() == old(View()) + wire.value[..result]
      ensures result >= 0 ==> Modest(result, howmuch, readable)
      ensures wire.Some? && 0 <= result < |wire.value| ==> forall n: nat :: Modest(n, howmuch, readable) ==> n <= result
    {
      hide Flatten, Sharp, HasRoom, Vecs, Sum;
      if freezeEnd {
        return -1;
      }
      var first, lens := MakeRoom(ReadAmount(howmuch, readable));
      if wire.None? {
        return -1;
      }
      var input := wire.value[..Min(|wire.value|, Sum(lens))];
      if input == [] {
        assert View() == old(View()) + [];
        return 0;
      }
      Receive(first, lens, input);
      InvokeCallbacks();
      result := |input|;
    }

    /** The space evbuffer_read offers to the vectored read. */
    method MakeRoom(amount: nat) returns (first: nat, lens: seq<nat>)
      requires Valid() && amount <= MAX_READ
      modifies this`chains, this`last, this`lastWithData, this`totalLen
      ensures Valid() && View() == old(View()) && lastWithData < |chains| && first == FirstSpace(chains, lastWithData)
      ensures chains[lastWithData].off > 0 || Space(chains[lastWithData]) > 0
      ensures Vecs(chains, first, lens) && Sum(lens) == amount
    {
      var _ := ExpandFast(amount, NUM_READ_IOVEC);
      first, lens := SetupVecs(chains, lastWithData, amount, NUM_READ_IOVEC);
    }

    /** The data arrives in the iovecs and is committed. */
    method Receive(first: nat, lens: seq<nat>, wire: seq<Byte>)
      requires Valid() && lastWithData < |chains| && first == FirstSpace(chains, lastWithData)
      requires chains[lastWithData].off > 0 || Space(chains[lastWithData]) > 0
      requires Vecs(chains, first, lens) && 0 < |wire| <= Sum(lens) && totalLen + |wire| <= SIZE_MAX
      modifies this`chains, this`lastWithData, this`totalLen, this`nAddForCb
      ensures Valid() && View() == old(View()) + wire
    {
      hide Flatten, Data, AllEmpty, Landed, Room, Sum;
      VecsFit(chains, first, lens);
      RoomGrows(chains, first, first + |lens|, |chains|);
      var filled := Land(chains, first, wire);
      FlattenSame(chains, filled);
      SharpSame(chains, filled, lastWithData);
      RoomSame(chains, filled, first, first + |lens|);
      var ds, slot := CommitVecs(filled, lastWithData, first, |lens|, |wire|, wire);
      chains, lastWithData := ds, slot;
      totalLen, nAddForCb := totalLen + |wire|, nAddForCb + |wire|;
    }

    /** evbuffer_prepend_buffer: move everything of `src` to the front of this buffer. Its trailing
        empty chains come along, so the sharp invariant survives exactly when there are none of them
        or nothing behind them; the plain contract of last_with_datap survives always. */
    method PrependBuffer(src: EvBuffer) returns (ok: bool)
      requires Valid() && src.Valid()
      requires this != src ==> totalLen + src.totalLen <= SIZE_MAX
      modifies this, src
      ensures src.Valid() || this == src
      ensures ok <==> old(src.totalLen) == 0 || this == src || !(freezeStart || src.freezeStart)
      ensures src.freezeStart == old(src.freezeStart) && src.freezeEnd == old(src.freezeEnd)
      ensures freezeStart == old(freezeStart) && freezeEnd == old(freezeEnd)
      ensures if ok && this != src then View() == old(src.View()) + old(View()) && src.View() == []
              else View() == old(View()) && src.View() == old(src.View())
      ensures ok && this != src && old(src.totalLen) > 0 ==>
                Told(old(src.totalLen), 0) && src.Told(0, old(src.totalLen))
      ensures last == |chains| - 1 && totalLen == |View()| && Counted()
      ensures View() != [] ==>
                lastWithData < |chains| && chains[lastWithData].off > 0 && AllEmpty(chains[lastWithData + 1..])
      ensures Valid() <==> !ok || this == src || old(src.totalLen) == 0 || old(totalLen) == 0
                           || |old(src.chains)| == old(src.lastWithData) + 1
    {
      hide Flatten, Data, AllEmpty, Sharp;
      SharpTailIf(chains, lastWithData);
      if src.totalLen == 0 || this == src {
        return true;
      }
      if freezeStart || src.freezeStart {
        return false;
      }
      PrependTell(src);
      return true;
    }

    method PrependTell(src: EvBuffer)
      requires this != src && Valid() && src.Valid() && src.totalLen > 0 && totalLen + src.totalLen <= SIZE_MAX
      modifies this, src
      ensures src.Valid() && View() == old(src.View()) + old(View()) && src.View() == []
      ensures src.freezeStart == old(src.freezeStart) && src.freezeEnd == old(src.freezeEnd)
      ensures freezeStart == old(freezeStart) && freezeEnd == old(freezeEnd)
      ensures Told(old(src.totalLen), 0) && src.Told(0, old(src.totalLen))
      ensures last == |chains| - 1 && totalLen == |View()| <= SIZE_MAX && Counted()
      ensures lastWithData < |chains| && chains[lastWithData].off > 0 && AllEmpty(chains[lastWithData + 1..])
      ensures Sharp(chains, lastWithData) <==> old(totalLen) == 0 || |old(src.chains)| == old(src.lastWithData) + 1
    {
      hide Flatten, Data, AllEmpty, Sharp;
      PrependAll(src);
      src.InvokeCallbacks();
      InvokeCallbacks();
    }

    /** The chains of `src` change hands, in front of what is here. */
    method PrependAll(src: EvBuffer)
      requires this != src && Valid() && src.Valid() && src.totalLen > 0 && totalLen + src.totalLen <= SIZE_MAX
      modifies this`chains, this`last, this`lastWithData, this`totalLen, this`nAddForCb
      modifies src`chains, src`last, src`lastWithData, src`totalLen, src`nDelForCb
      ensures src.Valid() && View() == old(src.View()) + old(View()) && src.View() == []
      ensures nAddForCb == old(nAddForCb) + old(src.totalLen) && src.nDelForCb == old(src.nDelForCb) + old(src.totalLen)
      ensures last == |chains| - 1 && totalLen == |View()| <= SIZE_MAX && Counted()
      ensures lastWithData < |chains| && chains[lastWithData].off > 0 && AllEmpty(chains[lastWithData + 1..])
      ensures Sharp(chains, lastWithData) <==> old(totalLen) == 0 || |old(src.chains)| == old(src.lastWithData) + 1
    {
      hide Flatten, Data, AllEmpty, Sharp;
      SharpTailIf(src.chains, src.lastWithData);
      var moved := src.totalLen;
      if totalLen == 0 {
        CopyChain(src);
      } else {
        PrependChain(src);
      }
      src.ZeroChain();
      src.nDelForCb := src.nDelForCb + moved;
      nAddForCb := nAddForCb + moved;
    }

    /** PREPEND_CHAIN, with data in both lists. */
    method PrependChain(src: EvBuffer)
      requires this != src && Valid() && src.Valid() && totalLen > 0 && src.totalLen > 0
      modifies this`chains, this`last, this`lastWithData, this`totalLen
      ensures View() == old(src.View()) + old(View()) && totalLen == old(totalLen) + src.totalLen
      ensures last == |chains| - 1 && lastWithData < |chains| && chains[lastWithData].off > 0
      ensures AllEmpty(chains[lastWithData + 1..])
      ensures Sharp(chains, lastWithData) <==> |src.chains| == src.lastWithData + 1
    {
      hide Flatten, Data, AllEmpty;
      SharpTailIf(chains, lastWithData);
      SharpTailIf(src.chains, src.lastWithData);
      FlattenAppend(src.chains, chains);
      PrependedList(src.chains, src.lastWithData, chains, lastWithData);
      var k := |src.chains|;
      if lastWithData == 0 {
        lastWithData := k;  // `&src->last->next`
      } else {
        lastWithData := k + lastWithData;  // same owner
      }
      chains := src.chains + chains;
      last := k + last;
      totalLen := totalLen + src.totalLen;
    }
  }

  /** The block for one byte. */
  lemma OneByteBlock(block: nat)
    requires BlockFor(block, 1 + CHAIN_SIZE)
    ensures block == MIN_BUFFER_SIZE
  {
    var k: nat :| block == Doubled(k) && 1 + CHAIN_SIZE <= block && (k > 0 ==> Doubled(k - 1) < 1 + CHAIN_SIZE);
    if k > 0 {
      DoubledAtLeast(k - 1);
    }
  }

  lemma {:induction false} DoubledAtLeast(k: nat)
    ensures Doubled(k) >= MIN_BUFFER_SIZE
  {
    if k > 0 {
      DoubledAtLeast(k - 1);
    }
  }

  /** A new buffer with one byte in it. */
  method OneByte(b: Byte) returns (buf: EvBuffer)
    ensures fresh(buf) && buf.Valid() && buf.View() == [b] && buf.totalLen == 1 && !buf.freezeStart
    ensures |buf.chains| == 1 && buf.lastWithData == 0 && 0 < Space(buf.chains[0]) < MIN_BUFFER_SIZE && buf.chains[0].off == 1
  {
    hide Flatten, Sharp, BlockFor;
    buf := new EvBuffer();
    var _ := buf.Add([b]);
    OneByteBlock(|buf.chains[0].buffer| + CHAIN_SIZE);
  }

  /** A buffer that got a byte and then room for a read of which nothing came, prepended to one with a byte:
      an empty chain is left between two with data. */
  method PrependUnsharp() returns (front: EvBuffer, back: EvBuffer)
    ensures front.View() == [7, 8] && !front.Valid()
  {
    hide Flatten, Data, Sharp, Room;
    front := OneByte(8);
    back := OneByte(7);
    ghost var one := back.chains[0];
    var _ := back.ExpandFast(MAX_READ, NUM_READ_IOVEC);
    assert back.chains[..1][0] == one;
    TailAdded(back.chains, back.lastWithData, MAX_READ, NUM_READ_IOVEC);
    var ok := front.PrependBuffer(back);
    assert front.View() == [7] + [8];
  }

  /** Room that one chain does not have is in another. */
  lemma TailAdded(cs: seq<Chain>, lwd: nat, datlen: nat, n: nat)
    requires HasRoom(cs, lwd, datlen, n) && n > 0 && lwd == 0 && 0 < Space(cs[0]) < datlen
    ensures |cs| > 1
  {
    hide Room;
    if |cs| == 1 {
      RoomOne(cs);
    }
  }

  lemma RoomOne(cs: seq<Chain>)
    requires |cs| == 1
    ensures Room(cs, 0, 1) == Space(cs[0])
  {
    assert Room(cs, 0, 0) == 0;
  }
}
