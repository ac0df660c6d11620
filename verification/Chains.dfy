/** The memory blocks an evbuffer is made of, and the byte string a list of them stands for
    (android/core/src/main/jni/libevent/evbuffer-internal.h). */
module Chains {
  import opened Basics

  // LP64 values of the limits in evbuffer-internal.h.
  const CHAIN_MAX: nat := SSIZE_MAX
  const CHAIN_SIZE: nat := 48
  const MIN_BUFFER_SIZE: nat := 1024

  /** One block: `buffer` is the whole allocation, data sits at [misalign, misalign + off). */
  datatype Block = Block(buffer: seq<Byte>, misalign: nat, off: nat) {
    predicate Ok() {
      misalign + off <= |buffer| && 0 < |buffer| <= CHAIN_MAX - CHAIN_SIZE
    }
  }

  type Chain = c: Block | c.Ok() witness Block([0], 0, 0)

  function Data(c: Chain): (d: seq<Byte>)
    ensures |d| == c.off
  {
    c.buffer[c.misalign..c.misalign + c.off]
  }

  /** CHAIN_SPACE_LEN of a mutable chain. */
  function Space(c: Chain): nat {
    |c.buffer| - (c.misalign + c.off)
  }

  /** memcpy of `data` into `block` at offset `at`. */
  function Write(block: seq<Byte>, at: nat, data: seq<Byte>): (r: seq<Byte>)
    requires at + |data| <= |block|
    ensures |r| == |block|
    ensures r[at..at + |data|] == data && r[..at] == block[..at]
    ensures r[at + |data|..] == block[at + |data|..]
  {
    block[..at] + data + block[at + |data|..]
  }

  /** The bytes a list of chains holds, front to back. */
  function Flatten(cs: seq<Chain>): (r: seq<Byte>) {
    if cs == [] then [] else Data(cs[0]) + Flatten(cs[1..])
  }

  lemma {:induction false} FlattenAppend(a: seq<Chain>, b: seq<Chain>)
    ensures Flatten(a + b) == Flatten(a) + Flatten(b)
  {
    if a == [] {
      assert a + b == b;
    } else {
      FlattenAppend(a[1..], b);
      assert (a + b)[1..] == a[1..] + b && (a + b)[0] == a[0];
      Assoc(Data(a[0]), Flatten(a[1..]), Flatten(b));
    }
  }

  lemma FlattenOne(c: Chain)
    ensures Flatten([c]) == Data(c)
  {
    assert [c][1..] == [];
  }

  lemma FlattenCut(cs: seq<Chain>, i: nat)
    requires i <= |cs|
    ensures Flatten(cs) == Flatten(cs[..i]) + Flatten(cs[i..])
  {
    assert cs == cs[..i] + cs[i..];
    FlattenAppend(cs[..i], cs[i..]);
  }

  /** A list of chains read around position `i`. */
  lemma FlattenSplit(cs: seq<Chain>, i: nat)
    requires i < |cs|
    ensures Flatten(cs) == Flatten(cs[..i]) + Data(cs[i]) + Flatten(cs[i + 1..])
  {
    FlattenCut(cs, i);
    var tail := cs[i..];
    assert tail[0] == cs[i] && tail[1..] == cs[i + 1..];
    Assoc(Flatten(cs[..i]), Data(cs[i]), Flatten(cs[i + 1..]));
  }

  lemma FlattenSet(cs: seq<Chain>, i: nat, c: Chain)
    requires i < |cs|
    ensures Flatten(cs[i := c]) == Flatten(cs[..i]) + Data(c) + Flatten(cs[i + 1..])
  {
    var ds := cs[i := c];
    FlattenSplit(ds, i);
    assert ds[..i] == cs[..i] && ds[i + 1..] == cs[i + 1..];
  }

  predicate AllEmpty(cs: seq<Chain>) {
    forall i :: 0 <= i < |cs| ==> cs[i].off == 0
  }

  lemma {:induction false} FlattenEmpty(cs: seq<Chain>)
    requires AllEmpty(cs)
    ensures Flatten(cs) == []
  {
    if cs != [] {
      FlattenEmpty(cs[1..]);
    }
  }

  /** What evbuffer-internal.h:86-99 promises of last_with_datap, sharpened: every chain before the
      designated one holds data, every chain after it is empty and aligned, and the designated one is
      the last with data unless there is no data at all, when it is the first. */
  predicate Sharp(cs: seq<Chain>, lwd: nat) {
    && (lwd == 0 || lwd < |cs|)
    && (forall i :: 0 <= i < lwd ==> cs[i].off > 0)
    && (forall i :: lwd < i < |cs| ==> cs[i].off == 0 && cs[i].misalign == 0)
    && (lwd > 0 ==> cs[lwd].off > 0)
  }

  lemma SharpOne(c: Chain)
    ensures Sharp([c], 0) && Flatten([c]) == Data(c)
  {
    FlattenOne(c);
  }

  lemma SharpEnds(cs: seq<Chain>, lwd: nat)
    requires Sharp(cs, lwd)
    ensures lwd >= |cs| <==> cs == []
    ensures cs == [] ==> lwd == 0 && Flatten(cs) == []
  {
  }

  lemma SharpTrailing(cs: seq<Chain>, lwd: nat)
    requires Sharp(cs, lwd)
    ensures forall i :: lwd < i < |cs| ==> cs[i].off == 0
  {
  }

  /** An empty chain at the end changes nothing. */
  lemma SharpSnoc(cs: seq<Chain>, lwd: nat, c: Chain)
    requires Sharp(cs, lwd) && cs != [] && c.off == 0 && c.misalign == 0
    ensures Sharp(cs + [c], lwd)
  {
  }

  lemma SharpFull(cs: seq<Chain>)
    requires cs != [] && forall k :: 0 <= k < |cs| ==> cs[k].off > 0
    ensures Sharp(cs, |cs| - 1)
  {
  }

  /** The sharp condition pins the slot down: it is a function of the chain list. */
  lemma SharpIsUnique(cs: seq<Chain>, l1: nat, l2: nat)
    requires Sharp(cs, l1) && Sharp(cs, l2)
    ensures l1 == l2
  {
  }

  /** In a sharp list the data ends in the designated chain. */
  lemma SharpTail(cs: seq<Chain>, lwd: nat)
    requires Sharp(cs, lwd) && cs != []
    ensures Flatten(cs) == Flatten(cs[..lwd]) + Data(cs[lwd])
    ensures Flatten(cs) == [] <==> cs[lwd].off == 0
  {
    FlattenSplit(cs, lwd);
    FlattenEmpty(cs[lwd + 1..]);
    if lwd > 0 {
      assert cs[lwd].off > 0;
    } else {
      assert cs[..0] == [];
    }
  }

  /** Growing the designated chain by `data` appends `data` to the whole. */
  lemma AppendAtSlot(cs: seq<Chain>, lwd: nat, c: Chain, data: seq<Byte>)
    requires Sharp(cs, lwd) && lwd < |cs| && Data(c) == Data(cs[lwd]) + data
    ensures Sharp(cs[lwd := c], lwd)
    ensures Flatten(cs[lwd := c]) == Flatten(cs) + data
  {
    var ds := cs[lwd := c];
    assert |Data(c)| == |Data(cs[lwd])| + |data|;
    SharpTail(cs, lwd);
    SharpTail(ds, lwd);
    assert ds[..lwd] == cs[..lwd];
    Assoc(Flatten(cs[..lwd]), Data(cs[lwd]), data);
  }

  /** Trailing empty chains do not count. */
  lemma FlattenTrim(cs: seq<Chain>, keep: nat)
    requires keep <= |cs| && AllEmpty(cs[keep..])
    ensures Flatten(cs) == Flatten(cs[..keep])
  {
    FlattenCut(cs, keep);
    FlattenEmpty(cs[keep..]);
  }

  lemma FlattenSnoc(cs: seq<Chain>, c: Chain)
    ensures Flatten(cs + [c]) == Flatten(cs) + Data(c)
  {
    FlattenAppend(cs, [c]);
    FlattenOne(c);
  }

  /** Putting a chain behind the last one with data, in place of the trailing empty chains. */
  lemma AppendChainFlat(cs: seq<Chain>, keep: nat, c: Chain)
    requires keep <= |cs| && AllEmpty(cs[keep..])
    ensures Flatten(cs[..keep] + [c]) == Flatten(cs) + Data(c)
  {
    FlattenTrim(cs, keep);
    FlattenSnoc(cs[..keep], c);
  }

  lemma AppendChainSharp(cs: seq<Chain>, lwd: nat, keep: nat, c: Chain)
    requires Sharp(cs, lwd) && keep <= |cs| && AllEmpty(cs[keep..])
    requires keep == 0 || (keep == lwd + 1 && cs[lwd].off > 0)
    requires c.off > 0 || c.misalign == 0
    ensures Sharp(cs[..keep] + [c], if c.off > 0 then keep else lwd)
  {
    assert forall i :: keep <= i < |cs| ==> cs[i] == cs[keep..][i - keep];
  }

  /** Growing the first chain at its front prepends to the whole. */
  lemma PrependAtFront(cs: seq<Chain>, c: Chain, data: seq<Byte>)
    requires cs != [] && Data(c) == data + Data(cs[0])
    ensures Flatten(cs[0 := c]) == data + Flatten(cs)
  {
    var ds := cs[0 := c];
    assert ds[0] == c && ds[1..] == cs[1..];
    Assoc(data, Data(cs[0]), Flatten(cs[1..]));
  }

  lemma SharpCons(c: Chain, cs: seq<Chain>, lwd: nat)
    requires Sharp(cs, lwd) && cs != [] && cs[0].off > 0 && c.off > 0
    ensures Sharp([c] + cs, lwd + 1)
    ensures Flatten([c] + cs) == Data(c) + Flatten(cs)
  {
    var ds := [c] + cs;
    FlattenCons(c, cs);
    assert forall i :: 0 < i < |ds| ==> ds[i] == cs[i - 1];
  }

  lemma CutJoin<T>(v: seq<T>, n: nat)
    requires n <= |v|
    ensures v[..n] + v[n..] == v
  {
  }

  lemma FlattenCons(c: Chain, cs: seq<Chain>)
    ensures Flatten([c] + cs) == Data(c) + Flatten(cs)
  {
    assert ([c] + cs)[1..] == cs;
  }

  /** Where chain `i` starts in the whole. */
  function Offset(cs: seq<Chain>, i: nat): nat
    requires i <= |cs|
  {
    if i == 0 then 0 else Offset(cs, i - 1) + cs[i - 1].off
  }

  lemma {:induction false} OffsetIsLength(cs: seq<Chain>, i: nat)
    requires i <= |cs|
    ensures Offset(cs, i) == |Flatten(cs[..i])|
    ensures Offset(cs, i) <= |Flatten(cs)|
    ensures i == |cs| ==> Offset(cs, i) == |Flatten(cs)|
  {
    if i > 0 {
      OffsetIsLength(cs, i - 1);
      assert cs[..i] == cs[..i - 1] + [cs[i - 1]];
      FlattenSnoc(cs[..i - 1], cs[i - 1]);
    }
    FlattenCut(cs, i);
    if i == |cs| {
      assert cs[..i] == cs;
    }
  }

  lemma OffsetBound(cs: seq<Chain>, i: nat)
    requires i <= |cs|
    ensures Offset(cs, i) <= |Flatten(cs)|
    ensures i == |cs| ==> Offset(cs, i) == |Flatten(cs)|
    ensures i < |cs| ==> Offset(cs, i) + cs[i].off <= |Flatten(cs)|
  {
    OffsetIsLength(cs, i);
    if i < |cs| {
      OffsetIsLength(cs, i + 1);
    }
  }

  lemma Middle<T>(a: seq<T>, b: seq<T>, c: seq<T>, from: nat, to: nat)
    requires from <= to <= |b|
    ensures (a + b + c)[|a| + from..|a| + to] == b[from..to]
    ensures (a + b + c)[|a| + from..] == b[from..] + c
  {
  }

  /** Bytes of chain `i` seen from the whole. */
  lemma FlattenWindow(cs: seq<Chain>, i: nat, from: nat, to: nat)
    requires i < |cs| && from <= to <= cs[i].off
    ensures Offset(cs, i) + to <= |Flatten(cs)|
    ensures Flatten(cs)[Offset(cs, i) + from..Offset(cs, i) + to] == Data(cs[i])[from..to]
  {
    hide Flatten, Data, Offset;
    OffsetIsLength(cs, i);
    FlattenSplit(cs, i);
    Middle(Flatten(cs[..i]), Data(cs[i]), Flatten(cs[i + 1..]), from, to);
  }

  /** Dropping the chains before `i` and `rest` bytes of chain `i`. */
  lemma DropInside(cs: seq<Chain>, i: nat, rest: nat, c: Chain)
    requires i < |cs| && rest <= cs[i].off && Data(c) == Data(cs[i])[rest..]
    ensures Offset(cs, i) + rest <= |Flatten(cs)|
    ensures Flatten([c] + cs[i + 1..]) == Flatten(cs)[Offset(cs, i) + rest..]
  {
    hide Flatten, Data, Offset;
    OffsetIsLength(cs, i);
    FlattenSplit(cs, i);
    Middle(Flatten(cs[..i]), Data(cs[i]), Flatten(cs[i + 1..]), rest, rest);
    FlattenCons(c, cs[i + 1..]);
  }

  /** Cutting the front of a sharp list, with data left in the chain where the cut falls. */
  lemma DrainedSharp(cs: seq<Chain>, lwd: nat, i: nat, front: Chain)
    requires Sharp(cs, lwd) && i < |cs| && i <= lwd && front.off > 0
    ensures Sharp([front] + cs[i + 1..], lwd - i)
  {
    var ds := [front] + cs[i + 1..];
    assert forall k :: 1 <= k < |ds| ==> ds[k] == cs[k + i];
  }

  /** In a sharp list all data lies before the end of the designated chain. */
  lemma SharpOffset(cs: seq<Chain>, lwd: nat)
    requires Sharp(cs, lwd) && lwd < |cs|
    ensures |Flatten(cs)| == Offset(cs, lwd) + cs[lwd].off
  {
    SharpTail(cs, lwd);
    OffsetIsLength(cs, lwd);
  }

  /** The list after a pullup: `head` holds what chains [0, stop) and part of chain `stop` held. */
  lemma PulledFlat(cs: seq<Chain>, stop: nat, rest: nat, head: Chain, c: Chain)
    requires stop < |cs| && rest < cs[stop].off && Data(c) == Data(cs[stop])[rest..]
    requires Offset(cs, stop) + rest <= |Flatten(cs)|
    requires Data(head) == Flatten(cs)[..Offset(cs, stop) + rest]
    ensures Flatten([head] + ([c] + cs[stop + 1..])) == Flatten(cs)
  {
    var tail := [c] + cs[stop + 1..];
    assert Flatten([head] + tail) == Data(head) + Flatten(tail) by {
      FlattenCons(head, tail);
    }
    assert Flatten(tail) == Flatten(cs)[Offset(cs, stop) + rest..] by {
      DropInside(cs, stop, rest, c);
    }
    CutJoin(Flatten(cs), Offset(cs, stop) + rest);
  }

  lemma PulledSharp(cs: seq<Chain>, lwd: nat, stop: nat, head: Chain, c: Chain)
    requires Sharp(cs, lwd) && stop < |cs| && cs[stop].off > 0 && head.off > 0 && c.off > 0
    ensures stop <= lwd && Sharp([head] + ([c] + cs[stop + 1..]), lwd - stop + 1)
  {
    var ds := [head] + ([c] + cs[stop + 1..]);
    assert forall i :: 2 <= i < |ds| ==> ds[i] == cs[stop + i - 1];
  }

  /** Hanging the chains `src` behind the last data of `cs`. */
  lemma AppendListFlat(cs: seq<Chain>, keep: nat, src: seq<Chain>)
    requires keep <= |cs| && AllEmpty(cs[keep..])
    ensures Flatten(cs[..keep] + src) == Flatten(cs) + Flatten(src)
  {
    FlattenTrim(cs, keep);
    FlattenAppend(cs[..keep], src);
  }

  lemma AppendListSharp(cs: seq<Chain>, lwd: nat, keep: nat, src: seq<Chain>, srcLwd: nat)
    requires Sharp(cs, lwd) && keep <= |cs| && (keep == 0 || (keep == lwd + 1 && cs[lwd].off > 0))
    requires Sharp(src, srcLwd) && src != [] && src[srcLwd].off > 0
    ensures Sharp(cs[..keep] + src, keep + srcLwd)
  {
    var ds := cs[..keep] + src;
    assert forall i :: 0 <= i < keep ==> ds[i] == cs[i];
    assert forall i :: keep <= i < |ds| ==> ds[i] == src[i - keep];
  }

  /** Same data chain by chain; free space and its bytes may differ. */
  predicate SameData(cs: seq<Chain>, ds: seq<Chain>) {
    |cs| == |ds| && forall i :: 0 <= i < |cs| ==> cs[i].off == ds[i].off && Data(cs[i]) == Data(ds[i])
  }

  lemma {:induction false} FlattenSame(cs: seq<Chain>, ds: seq<Chain>)
    requires SameData(cs, ds)
    ensures Flatten(cs) == Flatten(ds)
  {
    if cs != [] {
      FlattenSame(cs[1..], ds[1..]);
    }
  }

  lemma SharpSame(cs: seq<Chain>, ds: seq<Chain>, lwd: nat)
    requires SameData(cs, ds) && Sharp(cs, lwd)
    requires forall i :: lwd < i < |ds| ==> ds[i].misalign == 0
    ensures Sharp(ds, lwd)
  {
    assert forall i :: 0 <= i < |ds| ==> ds[i].off == cs[i].off;
  }

  /** Free bytes in chains [from, to). */
  function Room(cs: seq<Chain>, from: nat, to: nat): nat
    requires from <= to <= |cs|
  {
    if from == to then 0 else Room(cs, from, to - 1) + Space(cs[to - 1])
  }

  lemma {:induction false} RoomFrame(cs: seq<Chain>, ds: seq<Chain>, from: nat, to: nat)
    requires from <= to <= |cs| && to <= |ds| && (forall i :: from <= i < to ==> cs[i] == ds[i])
    ensures Room(cs, from, to) == Room(ds, from, to)
  {
    if from < to {
      RoomFrame(cs, ds, from, to - 1);
    }
  }

  lemma {:induction false} RoomGrows(cs: seq<Chain>, from: nat, mid: nat, to: nat)
    requires from <= mid <= to <= |cs|
    ensures Room(cs, from, mid) <= Room(cs, from, to)
  {
    if mid < to {
      RoomGrows(cs, from, mid, to - 1);
    }
  }

  /** Data put into chain `j`, the designated one or the next, when no data lies behind it. */
  lemma FillNext(cs: seq<Chain>, cur: nat, j: nat, c: Chain, data: seq<Byte>)
    requires Sharp(cs, cur) && cur <= j < |cs| && (j == cur || (j == cur + 1 && cs[cur].off > 0))
    requires Data(c) == Data(cs[j]) + data && data != []
    ensures Sharp(cs[j := c], j)
    ensures Flatten(cs[j := c]) == Flatten(cs) + data
  {
    assert c.off == cs[j].off + |data|;
    if j == cur {
      AppendAtSlot(cs, cur, c, data);
    } else {
      FillNextFlat(cs, j, c, data);
    }
  }

  lemma FillNextFlat(cs: seq<Chain>, j: nat, c: Chain, data: seq<Byte>)
    requires j < |cs| && AllEmpty(cs[j + 1..]) && Data(c) == Data(cs[j]) + data
    ensures Flatten(cs[j := c]) == Flatten(cs) + data
  {
    var pre := Flatten(cs[..j]);
    assert Flatten(cs) == pre + Data(cs[j]) by {
      FlattenSplit(cs, j);
      FlattenEmpty(cs[j + 1..]);
    }
    assert Flatten(cs[j := c]) == pre + Data(c) by {
      FlattenSet(cs, j, c);
      FlattenEmpty(cs[j + 1..]);
    }
    Assoc(pre, Data(cs[j]), data);
  }

  lemma SharpTailIf(cs: seq<Chain>, lwd: nat)
    requires Sharp(cs, lwd)
    ensures Flatten(cs) != [] ==> lwd < |cs| && cs[lwd].off > 0 && AllEmpty(cs[lwd + 1..])
  {
    if cs != [] {
      SharpTail(cs, lwd);
    }
  }

  /** Two lists with data joined: what the last-with-data slot of the second one is worth. */
  lemma PrependedList(a: seq<Chain>, la: nat, b: seq<Chain>, lb: nat)
    requires Sharp(a, la) && a != [] && a[la].off > 0
    requires Sharp(b, lb) && b != [] && b[lb].off > 0
    ensures (a + b)[|a| + lb].off > 0 && AllEmpty((a + b)[|a| + lb + 1..])
    ensures Sharp(a + b, |a| + lb) <==> |a| == la + 1
  {
    var ds := a + b;
    assert forall i :: |a| <= i < |ds| ==> ds[i] == b[i - |a|];
    if |a| > la + 1 {
      assert ds[la + 1] == a[la + 1];
      assert ds[la + 1].off == 0;
    } else {
      assert forall i :: 0 <= i < |a| ==> ds[i].off > 0;
    }
  }
}
