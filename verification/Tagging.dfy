/** Marshalling tagged records through an evbuffer
    (android/core/src/main/jni/libevent/event_tagging.c:156-242, 257-297, 352-534). */
module Tagging {
  import opened Basics
  import opened Chains
  import opened EvBuffers
  import opened TagCodec

  /** An unsigned 32-bit value returned as an `int`. */
  function ToInt(n: nat): int
    requires n < U32
  {
    if n <= INT_MAX then n else n - U32
  }

  /** Draining `n` bytes from the front, which a frozen start refuses. */
  function Cut(v: seq<Byte>, n: nat, frozen: bool): seq<Byte> {
    if frozen then v else v[Min(n, |v|)..]
  }

  /** The wire form of one record. */
  function Record(tag: nat, data: seq<Byte>): seq<Byte> {
    EncodeTag(tag) + Code(|data|) + data
  }

  /** evtag_unmarshal_header on byte queues: the result, the tag and what is left. */
  function Header(v: seq<Byte>, frozen: bool): (r: (int, nat, seq<Byte>))
    ensures r.0 >= 0 ==> r.0 <= |r.2|
  {
    var t := DecodeTag(v, 0);
    if t.None? then (-1, 0, v)
    else
      var v1 := Cut(v, t.value.1, frozen);
      var n := DecodeInt(v1, 8);
      if n.None? then (-1, t.value.0, v1)
      else
        var v2 := Cut(v1, n.value.1, frozen);
        DecodedBelow(v1, 8);
        if |v2| < n.value.0 then (-1, t.value.0, v2) else (ToInt(n.value.0), t.value.0, v2)
  }

  lemma {:induction false} NumberBelow(v: seq<Byte>, from: nat, to: nat)
    requires from <= to <= 2 * |v|
    ensures Number(v, from, to, 0) < Pow16(to - from)
    decreases 2 * |v| - from
  {
    if from < to {
      NumberBelow(v, from + 1, to);
    }
  }

  lemma {:induction false} PowGrows(a: nat, b: nat)
    requires a <= b
    ensures Pow16(a) <= Pow16(b)
    decreases b
  {
    if a < b {
      PowGrows(a, b - 1);
    }
  }

  lemma PowWidths()
    ensures Pow16(8) == U32 && Pow16(16) == U64
  {
    assert Pow16(4) == 0x1_0000;
    assert Pow16(8) == U32;
    assert Pow16(12) == 0x1_0000_0000_0000;
  }

  lemma DecodedBelow(v: seq<Byte>, max: nat)
    ensures var r := DecodeInt(v, max);
            r.Some? ==> r.value.0 < Pow16(max) && r.value.1 <= |v| && 1 <= r.value.1 <= 9
    ensures max == 8 && DecodeInt(v, max).Some? ==> DecodeInt(v, max).value.0 < U32
  {
    if v != [] {
      var k := Nibble(v, 0) + 1;
      if k <= max && k / 2 + 1 <= |v| {
        NumberBelow(v, 1, k + 1);
        PowGrows(k, max);
      }
    }
    PowWidths();
  }

  lemma {:induction false} TagPrefix(v: seq<Byte>, n: nat, i: nat)
    requires n == Min(5, |v|)
    ensures DecodeTag(v[..n], i) == DecodeTag(v, i)
    decreases if i < 5 then 5 - i else 0
  {
    if i < n {
      TagPrefix(v, n, i + 1);
    }
  }

  // ----- reading ------------------------------------------------------------------------------------

  /** decode_tag_internal. */
  method DecodeTagInternal(b: EvBuffer, drain: bool) returns (r: Option<(nat, nat)>, over: bool)
    requires b.Valid()
    modifies b
    ensures b.Valid() && b.freezeStart == old(b.freezeStart) && b.freezeEnd == old(b.freezeEnd)
    ensures r == DecodeTag(old(b.View()), 0)
    ensures over <==> SixthByte(old(b.View()), |old(b.View())|)
    ensures r.Some? ==> r.value.0 < U32 && 0 < r.value.1 <= 5
    ensures b.View() == if r.Some? && drain then Cut(old(b.View()), r.value.1, b.freezeStart) else old(b.View())
  {
    hide DecodeTag, Flatten, Sharp, Data;
    var n := Min(5, b.totalLen);
    var ok := b.Pullup(n);
    TagPrefix(b.View(), n, 0);
    if !ok {
      NoTag(b.View());
      return None, false;
    }
    r, over := DecodeTagLoop(Data(b.chains[0])[..n], b.totalLen);
    if r.Some? && drain {
      var _ := b.Drain(r.value.1);
    }
  }

  lemma NoTag(v: seq<Byte>)
    ensures v == [] ==> DecodeTag(v, 0).None?
  {
  }

  /** DECODE_INT_INTERNAL. */
  method DecodeIntInternal(b: EvBuffer, max: nat, offset: nat) returns (r: Option<(nat, nat)>)
    requires b.Valid() && max <= 16 && offset <= 5
    modifies b
    ensures b.Valid() && b.freezeStart == old(b.freezeStart) && b.freezeEnd == old(b.freezeEnd)
    ensures b.View() == old(b.View())
    ensures r == if offset > |b.View()| then None else DecodeInt(b.View()[offset..], max)
  {
    hide Flatten, Sharp, Data, Number, Nibble;
    if b.totalLen <= offset {
      return None;
    }
    var len := b.totalLen - offset;
    ghost var v := b.View()[offset..];
    var _ := b.Pullup(offset + 1);
    var data := Data(b.chains[0])[..offset + 1];
    SamePrefix(data, b.View(), offset);
    var nibbles := data[offset] / 16 + 1;
    assert nibbles == Nibble(v, 0) + 1 by { FirstNibble(v); }
    if nibbles > max || nibbles / 2 + 1 > len {
      return None;
    }
    len := nibbles / 2 + 1;
    var _ := b.Pullup(offset + len);
    data := Data(b.chains[0])[..offset + len];
    SamePrefix(data, b.View(), offset);
    var number := DecodeDigits(data[offset..], nibbles);
    NumberPrefix(data[offset..], v, 1, nibbles + 1);
    return Some((number, len));
  }

  lemma FirstNibble(v: seq<Byte>)
    requires v != []
    ensures Nibble(v, 0) == v[0] / 16
  {
  }

  lemma SamePrefix(data: seq<Byte>, v: seq<Byte>, offset: nat)
    requires offset < |data| <= |v| && data == v[..|data|]
    ensures data[offset] == v[offset..][0]
    ensures data[offset..] == v[offset..][..|data| - offset]
  {
  }

  lemma {:induction false} NumberPrefix(a: seq<Byte>, v: seq<Byte>, from: nat, to: nat)
    requires from <= to <= 2 * |a| && |a| <= |v| && a == v[..|a|]
    ensures Number(a, from, to, 0) == Number(v, from, to, 0)
    decreases 2 * |a| - from
  {
    if from < to {
      NumberPrefix(a, v, from + 1, to);
      assert a[from / 2] == v[from / 2];
    }
  }

  /** evtag_decode_int and evtag_decode_int64. */
  method DecodeIntDrain(b: EvBuffer, max: nat) returns (r: Option<nat>)
    requires b.Valid() && max <= 16
    modifies b
    ensures b.Valid() && b.freezeStart == old(b.freezeStart) && b.freezeEnd == old(b.freezeEnd)
    ensures var d := DecodeInt(old(b.View()), max);
            if d.Some? then r == Some(d.value.0) && b.View() == Cut(old(b.View()), d.value.1, b.freezeStart)
            else r == None && b.View() == old(b.View())
  {
    hide DecodeInt, Flatten, Sharp;
    assert b.View()[0..] == b.View();
    var d := DecodeIntInternal(b, max, 0);
    if d.None? {
      return None;
    }
    var _ := b.Drain(d.value.1);
    return Some(d.value.0);
  }

  /** evtag_unmarshal_header. */
  method UnmarshalHeader(b: EvBuffer) returns (len: int, tag: nat)
    requires b.Valid()
    modifies b
    ensures b.Valid() && b.freezeStart == old(b.freezeStart) && b.freezeEnd == old(b.freezeEnd)
    ensures var h := Header(old(b.View()), b.freezeStart);
            len == h.0 && (len != -1 ==> tag == h.1) && b.View() == h.2
  {
    hide DecodeTag, DecodeInt, Cut, Flatten, Sharp;
    var t, _ := DecodeTagInternal(b, true);
    if t.None? {
      return -1, 0;
    }
    DecodedBelow(b.View(), 8);
    var n := DecodeIntDrain(b, 8);
    if n.None? || b.totalLen < n.value {
      return -1, t.value.0;
    }
    return ToInt(n.value), t.value.0;
  }

  /** evtag_peek_length: the sum is kept in 32 bits. */
  method PeekLength(b: EvBuffer) returns (r: Option<nat>)
    requires b.Valid()
    modifies b
    ensures b.Valid() && b.freezeStart == old(b.freezeStart) && b.freezeEnd == old(b.freezeEnd)
    ensures b.View() == old(b.View())
    ensures r == Peeked(b.View())
  {
    hide DecodeTag, DecodeInt, Flatten, Sharp;
    var t, _ := DecodeTagInternal(b, false);
    if t.None? {
      return None;
    }
    TagInside(b.View(), 0);
    var d := DecodeIntInternal(b, 8, t.value.1);
    if d.None? {
      return None;
    }
    return Some((d.value.0 + d.value.1 + t.value.1) % U32);
  }

  /** The length evtag_peek_length reports for a queue. */
  function Peeked(v: seq<Byte>): Option<nat> {
    var t := DecodeTag(v, 0);
    if t.None? then None
    else
      TagInside(v, 0);
      var d := DecodeInt(v[t.value.1..], 8);
      if d.None? then None else Some((d.value.0 + d.value.1 + t.value.1) % U32)
  }

  lemma {:induction false} TagInside(v: seq<Byte>, i: nat)
    ensures var r := DecodeTag(v, i); r.Some? ==> i < r.value.1 <= |v| && r.value.1 <= 5
    decreases if i < 5 then 5 - i else 0
  {
    if i < 5 {
      TagInside(v, i + 1);
    }
  }

  /** evtag_consume. The length becomes a `size_t` again on its way to the drain. */
  method Consume(b: EvBuffer) returns (ok: bool)
    requires b.Valid()
    modifies b
    ensures b.Valid() && b.freezeStart == old(b.freezeStart) && b.freezeEnd == old(b.freezeEnd)
    ensures ok == Consumed(old(b.View()), b.freezeStart).0
    ensures b.View() == Consumed(old(b.View()), b.freezeStart).1
  {
    hide Header, Flatten, Sharp;
    var len, _ := UnmarshalHeader(b);
    if len == -1 {
      return false;
    }
    HeaderRange(old(b.View()), b.freezeStart);
    var _ := b.Drain(AsSize(len));
    return true;
  }

  function AsSize(len: int): nat
    requires 0 <= U64 + len
  {
    if len < 0 then U64 + len else len
  }

  lemma HeaderRange(v: seq<Byte>, frozen: bool)
    ensures 0 <= U32 + Header(v, frozen).0 < 2 * U32
  {
    hide DecodeTag, DecodeInt, Cut;
    var t := DecodeTag(v, 0);
    if t.Some? {
      DecodedBelow(Cut(v, t.value.1, frozen), 8);
    }
  }

  function Consumed(v: seq<Byte>, frozen: bool): (bool, seq<Byte>) {
    HeaderRange(v, frozen);
    var h := Header(v, frozen);
    if h.0 == -1 then (false, h.2) else (true, Cut(h.2, AsSize(h.0), frozen))
  }

  /** Where the parts of a record at the front of `v` lie, when its length fields are all there. */
  predicate Framed(v: seq<Byte>, tag: nat, start: nat, payload: nat) {
    var t := DecodeTag(v, 0);
    && t.Some? && t.value.1 <= |v|
    && var d := DecodeInt(v[t.value.1..], 8);
       d.Some? && start == t.value.1 + d.value.1 && tag == t.value.0 && payload == d.value.0
  }

  lemma FramedHeader(v: seq<Byte>, tag: nat, start: nat, payload: nat)
    requires Framed(v, tag, start, payload)
    ensures start <= |v| && payload < U32
    ensures start + payload <= |v| ==> Header(v, false) == (ToInt(payload), tag, v[start..])
    ensures Peeked(v) == Some((start + payload) % U32)
  {
    hide DecodeTag, DecodeInt;
    var t := DecodeTag(v, 0);
    TagInside(v, 0);
    DecodedBelow(v[t.value.1..], 8);
    assert v[t.value.1..][start - t.value.1..] == v[start..];
  }

  /** When the reported sum fits in 32 bits, consuming a whole record drains exactly the reported
      length if and only if the payload length survives the trip through `int`, or the record is all
      there is. */
  lemma ConsumeIsPeek(v: seq<Byte>, tag: nat, start: nat, payload: nat)
    requires Framed(v, tag, start, payload) && start + payload < U32
    requires start + payload <= |v| <= SIZE_MAX - U32
    ensures Peeked(v) == Some(start + payload)
    ensures Consumed(v, false).0
    ensures Consumed(v, false).1 == v[start + payload..] <==> payload <= INT_MAX || |v| == start + payload
  {
    FramedHeader(v, tag, start, payload);
    hide Header, Framed, Peeked;
    assert start >= 1 by { FramedStart(v, tag, start, payload); }
    if payload <= INT_MAX {
      assert v[start..][payload..] == v[start + payload..];
    } else {
      ConsumedRest(v, tag, start, payload);
    }
  }

  lemma FramedStart(v: seq<Byte>, tag: nat, start: nat, payload: nat)
    requires Framed(v, tag, start, payload)
    ensures start >= 1
  {
    hide DecodeTag, DecodeInt;
    TagInside(v, 0);
    DecodedBelow(v[DecodeTag(v, 0).value.1..], 8);
  }

  /** A record of two gigabytes with a byte behind it: it is reported whole, and consuming it takes that
      byte as well. */
  lemma ConsumeTakesTooMuch()
    ensures exists v, n :: Peeked(v) == Some(n) && n < |v| && Consumed(v, false) == (true, [])
  {
    hide DecodeTag, DecodeInt, EncodeTag, Code, Pow16, Pow128, Peeked, Consumed;
    var payload := INT_MAX + 1;
    var rest: seq<Byte> := seq(payload + 1, _ => 0);
    PowWidths();
    PowValues();
    var v := [] + EncodeTag(1) + (Code(payload) + rest);
    TagRoundTrip([], 1, Code(payload) + rest);
    IntRoundTrip(payload, rest, 8);
    TagLength(1, 4);
    var start := |EncodeTag(1)| + |Code(payload)|;
    assert v[|EncodeTag(1)|..] == Code(payload) + rest;
    CodeShort(payload);
    ConsumeIsPeek(v, 1, start, payload);
    ConsumedRest(v, 1, start, payload);
  }

  /** A length that does not survive the trip through `int` drains all there is. */
  lemma ConsumedRest(v: seq<Byte>, tag: nat, start: nat, payload: nat)
    requires Framed(v, tag, start, payload) && start + payload <= |v| <= SIZE_MAX - U32 && INT_MAX < payload < U32 - 1
    ensures Consumed(v, false) == (true, [])
  {
    FramedHeader(v, tag, start, payload);
    hide Header, Framed, Peeked;
    assert |Consumed(v, false).1| == 0;
  }

  lemma CodeShort(n: nat)
    requires n < U32
    ensures |Code(n)| <= 5
  {
    PowWidths();
    DigitsBound(n, 8);
    CodeShape(n);
  }

  /** evtag_unmarshal. A negative length reaches evbuffer_add as a size no chain can have. */
  method Unmarshal(src: EvBuffer, dst: EvBuffer) returns (len: int, tag: nat)
    requires src.Valid() && dst.Valid() && src != dst
    modifies src, dst
    ensures src.Valid() && dst.Valid()
    ensures src.freezeStart == old(src.freezeStart) && src.freezeEnd == old(src.freezeEnd)
    ensures dst.freezeStart == old(dst.freezeStart) && dst.freezeEnd == old(dst.freezeEnd)
    ensures var h := Header(old(src.View()), src.freezeStart);
            && (len >= 0 <==> h.0 >= 0 && !dst.freezeEnd && h.0 <= SIZE_MAX - |old(dst.View())|)
            && if len >= 0 then
                 && len == h.0 && tag == h.1 && src.View() == Cut(h.2, len, src.freezeStart)
                 && dst.View() == old(dst.View()) + h.2[..len]
               else len == -1 && src.View() == h.2 && dst.View() == old(dst.View())
  {
    hide Header, Flatten, Sharp, Data;
    len, tag := UnmarshalHeader(src);
    if len == -1 {
      return;
    }
    HeaderRange(old(src.View()), src.freezeStart);
    var _ := src.Pullup(len);
    if len < 0 {
      len := -1;
      return;
    }
    var data: seq<Byte> := [];
    if len > 0 {
      data := Data(src.chains[0])[..len];
    }
    assert data == src.View()[..len];
    var ok := dst.Add(data);
    if !ok {
      len := -1;
      return;
    }
    var _ := src.Drain(len);
  }

  // ----- writing ------------------------------------------------------------------------------------

  /** Appending what fits, which a frozen end refuses. */
  function Put(v: seq<Byte>, data: seq<Byte>, frozen: bool): seq<Byte> {
    if frozen || |v| + |data| > SIZE_MAX then v else v + data
  }

  /** evtag_encode_tag into a buffer. */
  method AddTag(b: EvBuffer, tag: nat)
    requires b.Valid() && tag < U32
    modifies b
    ensures b.Valid() && b.freezeStart == old(b.freezeStart) && b.freezeEnd == old(b.freezeEnd)
    ensures b.View() == Put(old(b.View()), EncodeTag(tag), b.freezeEnd)
  {
    hide Flatten, Sharp;
    var data := EncodeTagLoop(tag);
    TagLength(tag, 4);
    var _ := b.Add(data);
  }

  lemma {:induction false} TagLength(tag: nat, k: nat)
    requires k <= 4 && tag < 16 * Pow128(k)
    ensures |EncodeTag(tag)| <= k + 1
    decreases k
  {
    PowValues();
    if tag >= 128 {
      TagLength(tag / 128, k - 1);
    }
  }

  /** evtag_encode_int (width 4) and evtag_encode_int64 (width 8). */
  method AddInt(b: EvBuffer, number: nat, width: nat)
    requires b.Valid() && number < Pow16(2 * width) && 0 < width <= 8
    modifies b
    ensures b.Valid() && b.freezeStart == old(b.freezeStart) && b.freezeEnd == old(b.freezeEnd)
    ensures b.View() == Put(old(b.View()), Code(number), b.freezeEnd)
  {
    hide Flatten, Sharp, Code, Pow16;
    var data := EncodeIntInternal(number, width);
    var _ := b.Add(data);
  }

  /** evtag_marshal. */
  method Marshal(b: EvBuffer, tag: nat, data: seq<Byte>)
    requires b.Valid() && tag < U32 && |data| < U32
    modifies b
    ensures b.Valid() && b.freezeStart == old(b.freezeStart) && b.freezeEnd == old(b.freezeEnd)
    ensures b.View() == Put(Put(Put(old(b.View()), EncodeTag(tag), b.freezeEnd), Code(|data|), b.freezeEnd), data, b.freezeEnd)
  {
    hide Flatten, Sharp, Code, EncodeTag, Pow16;
    PowWidths();
    AddTag(b, tag);
    AddInt(b, |data|, 4);
    var _ := b.Add(data);
  }

  // ----- whole streams ------------------------------------------------------------------------------

  datatype Item = Item(tag: nat, data: seq<Byte>)

  predicate Sendable(items: seq<Item>) {
    forall i :: 0 <= i < |items| ==> items[i].tag < U32 && |items[i].data| <= INT_MAX
  }

  function Wire(items: seq<Item>): seq<Byte> {
    if items == [] then [] else Record(items[0].tag, items[0].data) + Wire(items[1..])
  }

  /** The header of a record gives back its tag and its length, and leaves the payload next. */
  lemma HeaderOfRecord(tag: nat, data: seq<Byte>, rest: seq<Byte>)
    requires tag < U32 && |data| <= INT_MAX
    ensures Header(Record(tag, data) + rest, false) == (|data|, tag, data + rest)
  {
    hide DecodeTag, DecodeInt, EncodeTag, Code, Pow16, Pow128;
    PowWidths();
    PowValues();
    var v := Record(tag, data) + rest;
    var r1 := data + rest;
    var r2 := Code(|data|) + r1;
    assert v == [] + EncodeTag(tag) + r2;
    TagRoundTrip([], tag, r2);
    IntRoundTrip(|data|, r1, 8);
    assert Cut(v, |EncodeTag(tag)|, false) == r2;
    assert Cut(r2, |Code(|data|)|, false) == r1;
  }

  lemma PutRecord(v: seq<Byte>, tag: nat, data: seq<Byte>)
    requires |v| + |Record(tag, data)| <= SIZE_MAX
    ensures Put(Put(Put(v, EncodeTag(tag), false), Code(|data|), false), data, false) == v + Record(tag, data)
  {
    hide EncodeTag, Code;
  }

  lemma {:induction false} WireSnoc(items: seq<Item>, item: Item)
    ensures Wire(items + [item]) == Wire(items) + Record(item.tag, item.data)
  {
    hide Record;
    if items == [] {
      assert Wire([item]) == Record(item.tag, item.data) + Wire([]);
    } else {
      var head := Record(items[0].tag, items[0].data);
      assert (items + [item])[1..] == items[1..] + [item];
      WireSnoc(items[1..], item);
      assert head + (Wire(items[1..]) + Record(item.tag, item.data))
          == head + Wire(items[1..]) + Record(item.tag, item.data);
    }
  }

  lemma {:induction false} WirePrefix(items: seq<Item>, k: nat)
    requires k <= |items|
    ensures |Wire(items[..k])| <= |Wire(items)|
  {
    hide Record;
    if k > 0 {
      assert items[..k][1..] == items[1..][..k - 1];
      WirePrefix(items[1..], k - 1);
    }
  }

  /** Marshalling one record after another writes the stream. */
  method MarshalAll(b: EvBuffer, items: seq<Item>)
    requires b.Valid() && !b.freezeEnd && Sendable(items) && b.totalLen + |Wire(items)| <= SIZE_MAX
    modifies b
    ensures b.Valid() && b.View() == old(b.View()) + Wire(items)
    ensures b.freezeStart == old(b.freezeStart)
  {
    hide Wire, Record, Flatten, Sharp, Put, EncodeTag, Code;
    ghost var before := b.View();
    WireNil();
    for i := 0 to |items|
      invariant b.Valid() && !b.freezeEnd && b.freezeStart == old(b.freezeStart)
      invariant b.View() == before + Wire(items[..i])
    {
      ghost var now := b.View();
      WireSnoc(items[..i], items[i]);
      assert items[..i] + [items[i]] == items[..i + 1];
      WirePrefix(items, i + 1);
      Marshal(b, items[i].tag, items[i].data);
      PutRecord(now, items[i].tag, items[i].data);
      Assoc(before, Wire(items[..i]), Record(items[i].tag, items[i].data));
    }
    assert items[..|items|] == items;
  }

  lemma WireNil()
    ensures Wire([]) == []
  {
  }

  lemma WireStep(items: seq<Item>, i: nat, rest: seq<Byte>)
    requires i < |items|
    ensures Wire(items[i..]) + rest == Record(items[i].tag, items[i].data) + (Wire(items[i + 1..]) + rest)
  {
    hide Record;
    assert items[i..][1..] == items[i + 1..];
  }

  /** evtag_unmarshal into a buffer of its own, for a record that is there. */
  method UnmarshalOne(b: EvBuffer, ghost item: Item, ghost rest: seq<Byte>) returns (got: Item)
    requires b.Valid() && !b.freezeStart && item.tag < U32 && |item.data| <= INT_MAX
    requires b.View() == Record(item.tag, item.data) + rest
    modifies b
    ensures b.Valid() && !b.freezeStart && got == item && b.View() == rest
  {
    hide Record, Header, Flatten, Sharp, Data;
    HeaderOfRecord(item.tag, item.data, rest);
    var dst := new EvBuffer();
    var len, tag := Unmarshal(b, dst);
    var n, data := dst.Remove(dst.totalLen);
    assert (item.data + rest)[..len] == item.data && (item.data + rest)[len..] == rest;
    got := Item(tag, data);
  }

  /** Reading back as many records as were marshalled gives exactly those records, and leaves what
      followed them. */
  method UnmarshalAll(b: EvBuffer, count: nat, ghost items: seq<Item>, ghost rest: seq<Byte>)
    returns (got: seq<Item>)
    requires b.Valid() && !b.freezeStart && Sendable(items) && count == |items|
    requires b.View() == Wire(items) + rest
    modifies b
    ensures b.Valid() && got == items && b.View() == rest
  {
    hide Wire, Record, Flatten, Sharp;
    got := [];
    assert items[0..] == items;
    for i := 0 to count
      invariant b.Valid() && !b.freezeStart && got == items[..i]
      invariant b.View() == Wire(items[i..]) + rest
    {
      WireStep(items, i, rest);
      var item := UnmarshalOne(b, items[i], Wire(items[i + 1..]) + rest);
      got := got + [item];
    }
    assert items[count..] == [];
    WireNil();
    assert b.View() == rest;
  }

  /** Any list of records with 32-bit tags and payloads under 2^31 bytes survives a buffer. */
  method StreamRoundTrip(items: seq<Item>) returns (got: seq<Item>)
    requires Sendable(items) && |Wire(items)| <= SIZE_MAX
    ensures got == items
  {
    hide Wire, Flatten, Sharp;
    var b := new EvBuffer();
    MarshalAll(b, items);
    assert b.View() == Wire(items) + [];
    got := UnmarshalAll(b, |items|, items, []);
  }
}
