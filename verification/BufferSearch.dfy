/** Positions in an evbuffer and searching across its chains
    (android/core/src/main/jni/libevent/buffer.c:2610-2769). */
module BufferSearch {
  import opened Basics
  import opened Chains
  import opened EvBuffers

  predicate Occurs(v: seq<Byte>, what: seq<Byte>, p: int) {
    0 <= p && p + |what| <= |v| && v[p..p + |what|] == what
  }

  function NotFound(cs: seq<Chain>): Ptr {
    Ptr(-1, |cs|, 0)
  }

  /** The walk of evbuffer_ptr_set: `left` bytes on from offset `position` of chain `first`. */
  method Walk(cs: seq<Chain>, first: nat, position: nat, left: nat) returns (r: Ptr)
    requires first <= |cs| && position <= (if first < |cs| then cs[first].off else 0)
    ensures var target := Offset(cs, first) + position + left;
            if target <= |Flatten(cs)|
            then PtrOk(cs, r) && r.pos == target && (r.chain < |cs| ==> r.posInChain < cs[r.chain].off)
            else r == NotFound(cs)
  {
    hide Flatten, Data;
    var i, pos, rest: int := first, position, left;
    while i < |cs| && pos + rest >= cs[i].off
      invariant first <= i <= |cs| && rest >= 0
      invariant 0 <= pos <= (if i < |cs| then cs[i].off else 0)
      invariant Offset(cs, i) + pos + rest == Offset(cs, first) + position + left
    {
      rest := rest - (cs[i].off - pos);
      i, pos := i + 1, 0;
    }
    OffsetBound(cs, i);
    if i < |cs| {
      r := Ptr(Offset(cs, i) + pos + rest, i, pos + rest);
    } else if rest == 0 {
      r := Ptr(Offset(cs, i), i, 0);
    } else {
      r := NotFound(cs);
    }
  }

  /** evbuffer_ptr_set with EVBUFFER_PTR_SET. */
  method PtrSet(cs: seq<Chain>, position: nat) returns (r: Ptr)
    ensures if position <= |Flatten(cs)| then PtrOk(cs, r) && r.pos == position else r == NotFound(cs)
  {
    r := Walk(cs, 0, 0, position);
  }

  /** evbuffer_ptr_set with EVBUFFER_PTR_ADD; a pointer to nowhere, or a sum past SIZE_MAX, is
      refused and left alone. */
  method PtrAdd(cs: seq<Chain>, p: Ptr, position: nat) returns (ok: bool, r: Ptr)
    requires PtrOk(cs, p) || p == NotFound(cs)
    ensures p.pos < 0 || p.pos + position > SIZE_MAX ==> !ok && r == p
    ensures p.pos >= 0 && p.pos + position <= SIZE_MAX ==>
              (ok <==> p.pos + position <= |Flatten(cs)|)
              && if ok then PtrOk(cs, r) && r.pos == p.pos + position else r == NotFound(cs)
  {
    if p.pos < 0 || SIZE_MAX - position < p.pos {
      return false, p;
    }
    r := Walk(cs, p.chain, p.posInChain, position);
    ok := r.pos >= 0;
  }

  /** memchr over the data of a chain, from offset `from`. */
  method MemChr(data: seq<Byte>, from: nat, b: Byte) returns (r: Option<nat>)
    requires from <= |data|
    ensures r.Some? ==> from <= r.value < |data| && data[r.value] == b
    ensures forall k :: from <= k < (if r.Some? then r.value else |data|) ==> data[k] != b
  {
    var i := from;
    while i < |data|
      invariant from <= i <= |data|
      invariant forall k :: from <= k < i ==> data[k] != b
    {
      if data[i] == b {
        return Some(i);
      }
      i := i + 1;
    }
    return None;
  }

  lemma ByteAt(cs: seq<Chain>, i: nat, k: nat)
    requires i < |cs| && k < cs[i].off
    ensures Offset(cs, i) + k < |Flatten(cs)| && Flatten(cs)[Offset(cs, i) + k] == Data(cs[i])[k]
  {
    FlattenWindow(cs, i, k, k + 1);
    assert Data(cs[i])[k..k + 1] == [Data(cs[i])[k]];
    var v, at := Flatten(cs), Offset(cs, i) + k;
    assert v[at..at + 1][0] == v[at];
  }

  /** The first `n` bytes of `mem` are at `from`. */
  ghost predicate Agrees(v: seq<Byte>, mem: seq<Byte>, from: nat, n: nat) {
    from + n <= |v| && n <= |mem| && v[from..from + n] == mem[..n]
  }

  /** Comparing `n` bytes at offset `pos` of chain `i` decides `n` more bytes of the whole. */
  lemma CompareStep(cs: seq<Chain>, i: nat, pos: nat, n: nat, mem: seq<Byte>, from: nat, done: nat)
    requires i < |cs| && pos + n <= cs[i].off && from + done == Offset(cs, i) + pos && done + n <= |mem|
    requires from + |mem| <= |Flatten(cs)| && Agrees(Flatten(cs), mem, from, done)
    ensures Data(cs[i])[pos..pos + n] == mem[done..done + n] <==> Agrees(Flatten(cs), mem, from, done + n)
  {
    hide Flatten, Data, Offset;
    FlattenWindow(cs, i, pos, pos + n);
    var v := Flatten(cs);
    CutAgain(v, from, done, n);
    CutAgain(mem, 0, done, n);
  }

  lemma CutAgain<T>(v: seq<T>, from: nat, done: nat, n: nat)
    requires from + done + n <= |v|
    ensures v[from..from + done + n] == v[from..from + done] + v[from + done..from + done + n]
  {
  }

  /** All of `mem` is there only if its first bytes are; and is, if they are all of it. */
  lemma AgreesPart(v: seq<Byte>, mem: seq<Byte>, from: nat, n: nat)
    requires n <= |mem|
    ensures Occurs(v, mem, from) ==> Agrees(v, mem, from, n)
    ensures n == |mem| && Agrees(v, mem, from, n) ==> Occurs(v, mem, from)
  {
    assert mem[..|mem|] == mem;
    if Occurs(v, mem, from) {
      assert v[from..from + |mem|][..n] == v[from..from + n];
    }
  }

  /** evbuffer_ptr_memcmp, of which only "equal" matters. */
  method PtrMemcmp(cs: seq<Chain>, totalLen: nat, p: Ptr, mem: seq<Byte>) returns (equal: bool)
    requires PtrOk(cs, p) && totalLen == |Flatten(cs)| <= SIZE_MAX
    ensures equal <==> Occurs(Flatten(cs), mem, p.pos)
  {
    hide Flatten, Data, Agrees, Offset;
    if p.pos < 0 || SIZE_MAX - |mem| < p.pos || p.pos + |mem| > totalLen {
      return false;
    }
    hide Occurs;
    ghost var v := Flatten(cs);
    var i, pos, done := p.chain, p.posInChain, 0;
    AgreesNone(v, mem, p.pos);
    while done < |mem| && i < |cs|
      invariant p.chain <= i <= |cs| && 0 <= done <= |mem|
      invariant 0 <= pos <= (if i < |cs| then cs[i].off else 0)
      invariant done < |mem| ==> p.pos + done == Offset(cs, i) + pos
      invariant Agrees(v, mem, p.pos, done)
    {
      var left := |mem| - done;
      var n := if left + pos > cs[i].off then cs[i].off - pos else left;
      OffsetNext(cs, i);
      CompareStep(cs, i, pos, n, mem, p.pos, done);
      AgreesPart(v, mem, p.pos, done + n);
      if Data(cs[i])[pos..pos + n] != mem[done..done + n] {
        return false;
      }
      done := done + n;
      i, pos := i + 1, 0;
    }
    if done < |mem| {
      OffsetBound(cs, i);
    }
    AgreesPart(v, mem, p.pos, done);
    return true;
  }

  lemma OffsetNext(cs: seq<Chain>, i: nat)
    requires i < |cs|
    ensures Offset(cs, i + 1) == Offset(cs, i) + cs[i].off
  {
  }

  lemma AgreesNone(v: seq<Byte>, mem: seq<Byte>, from: nat)
    requires from <= |v|
    ensures Agrees(v, mem, from, 0)
  {
  }

  /** No match starts in [from, to). */
  ghost predicate NoneIn(v: seq<Byte>, what: seq<Byte>, from: int, to: int) {
    forall q :: from <= q < to ==> !Occurs(v, what, q)
  }

  /** Bytes of chain `i` in [from, to) that differ from what[0] start no match. */
  lemma SkipBytes(cs: seq<Chain>, i: nat, from: nat, to: nat, what: seq<Byte>, begin: int)
    requires i < |cs| && from <= to <= cs[i].off && what != []
    requires forall k :: from <= k < to ==> Data(cs[i])[k] != what[0]
    requires NoneIn(Flatten(cs), what, begin, Offset(cs, i) + from)
    ensures NoneIn(Flatten(cs), what, begin, Offset(cs, i) + to)
  {
    var v := Flatten(cs);
    forall q | begin <= q < Offset(cs, i) + to
      ensures !Occurs(v, what, q)
    {
      if Offset(cs, i) + from <= q {
        ByteAt(cs, i, q - Offset(cs, i));
      }
    }
  }

  /** evbuffer_search_range. */
  method Search(cs: seq<Chain>, totalLen: nat, what: seq<Byte>, start: Option<Ptr>, end: Option<Ptr>)
    returns (r: Ptr)
    requires totalLen == |Flatten(cs)| <= SIZE_MAX
    requires start.Some? ==> PtrOk(cs, start.value)
    requires end.Some? ==> PtrOk(cs, end.value)
    ensures var v, begin := Flatten(cs), if start.Some? then start.value.pos else 0;
            if what == [] || |what| > SSIZE_MAX then
              r == if start.Some? then start.value else Ptr(0, 0, 0)
            else if r.pos >= 0 then
              && begin <= r.pos && Occurs(v, what, r.pos) && NoneIn(v, what, begin, r.pos)
              && PtrOk(cs, r) && (end.Some? ==> r.pos + |what| <= end.value.pos)
            else
              && r == NotFound(cs)
              && forall q :: begin <= q && Occurs(v, what, q) ==> end.Some? && q + |what| > end.value.pos
  {
    hide Flatten, Data, Occurs;
    r := if start.Some? then start.value else Ptr(0, 0, 0);
    if what == [] || |what| > SSIZE_MAX {
      return;
    }
    r := SearchFrom(cs, totalLen, what, r, end);
  }

  method SearchFrom(cs: seq<Chain>, totalLen: nat, what: seq<Byte>, start: Ptr, end: Option<Ptr>) returns (r: Ptr)
    requires totalLen == |Flatten(cs)| <= SIZE_MAX && what != []
    requires PtrOk(cs, start) && (end.Some? ==> PtrOk(cs, end.value))
    ensures var v := Flatten(cs);
            if r.pos >= 0 then
              && start.pos <= r.pos && Occurs(v, what, r.pos) && NoneIn(v, what, start.pos, r.pos)
              && PtrOk(cs, r) && (end.Some? ==> r.pos + |what| <= end.value.pos)
            else
              && r == NotFound(cs)
              && forall q :: start.pos <= q && Occurs(v, what, q) ==> end.Some? && q + |what| > end.value.pos
  {
    hide Flatten, Data, Offset;
    ghost var v := Flatten(cs);
    var i: nat, pos: nat := start.chain, start.posInChain;
    r := start;
    while i < |cs|
      invariant start.chain <= i <= |cs| && r == Ptr(r.pos, i, pos) && PtrOk(cs, r)
      invariant start.pos <= r.pos && NoneIn(v, what, start.pos, r.pos)
      decreases |cs| - i, if i < |cs| then cs[i].off - pos else 0
    {
      var hit := MemChr(Data(cs[i]), pos, what[0]);
      var stop := if hit.Some? then hit.value else cs[i].off;
      OffsetNext(cs, i);
      SkipBytes(cs, i, pos, stop, what, start.pos);
      if hit.Some? {
        r := Ptr(r.pos + (stop - pos), i, stop);
        var equal := PtrMemcmp(cs, totalLen, r, what);
        if equal {
          if end.Some? && r.pos + |what| > end.value.pos {
            r := NotFound(cs);
          }
          return;
        }
        pos := stop + 1;
        if pos == cs[i].off {
          i, pos := i + 1, 0;
        }
        r := Ptr(r.pos + 1, i, pos);
      } else {
        if end.Some? && i == end.value.chain {
          return NotFound(cs);
        }
        r := Ptr(r.pos + (cs[i].off - pos), i + 1, 0);
        i, pos := i + 1, 0;
      }
    }
    OffsetBound(cs, i);
    r := NotFound(cs);
  }
}
