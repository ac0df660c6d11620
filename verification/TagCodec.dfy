/** The wire format of tagged data: nibble-coded integers and seven-bit tags
    (android/core/src/main/jni/libevent/event_tagging.c:117-138, 174-242, 315-350). */
module TagCodec {
  import opened Basics

  // ----- nibbles -----------------------------------------------------------------------------------

  /** Half byte number `off`, high half first. */
  function Nibble(data: seq<Byte>, off: nat): (r: nat)
    requires off / 2 < |data|
    ensures r < 16
  {
    if off % 2 == 1 then data[off / 2] % 16 else data[off / 2] / 16
  }

  function SetNibble(data: seq<Byte>, off: nat, v: nat): (r: seq<Byte>)
    requires off / 2 < |data| && v < 16
    ensures |r| == |data| && Nibble(r, off) == v
    ensures forall k :: 0 <= k / 2 < |data| && k >= 0 && k != off ==> Nibble(r, k) == Nibble(data, k)
  {
    var d: int := data[off / 2];
    data[off / 2 := if off % 2 == 1 then (d / 16) * 16 + v else d % 16 + 16 * v]
  }

  /** The number whose base-16 digits are the nibbles from..to-1, least first, with `rest` above them. */
  function Number(data: seq<Byte>, from: nat, to: nat, rest: nat): nat
    requires from <= to <= 2 * |data|
    decreases 2 * |data| - from
  {
    if from == to then rest else Nibble(data, from) + 16 * Number(data, from + 1, to, rest)
  }

  /** How many base-16 digits a number has; none for zero. */
  function Digits(n: nat): nat {
    if n == 0 then 0 else 1 + Digits(n / 16)
  }

  /** Base-16 digit number `j` of `n`, least first. */
  function Digit(n: nat, j: nat): (r: nat)
    ensures r < 16
  {
    if j == 0 then n % 16 else Digit(n / 16, j - 1)
  }

  function Pow16(k: nat): nat {
    if k == 0 then 1 else 16 * Pow16(k - 1)
  }

  lemma {:induction false} DigitsBound(n: nat, k: nat)
    requires n < Pow16(k)
    ensures Digits(n) <= k
  {
    if n > 0 {
      DigitsBound(n / 16, k - 1);
    }
  }

  lemma {:induction false} NoDigit(n: nat, j: nat)
    requires j >= Digits(n)
    ensures Digit(n, j) == 0
    decreases j
  {
    if j > 0 {
      NoDigit(n / 16, j - 1);
    }
  }

  /** The half byte at `off` of the wire form: the digit count less one, then the digits. */
  function CodeNibble(n: nat, off: nat): (r: nat)
    ensures r < 16
  {
    if off > 0 then Digit(n, off - 1) else if Digits(n) == 0 then 0 else (Digits(n) - 1) % 16
  }

  /** The wire form of an integer of at most sixteen digits. */
  function Code(n: nat): seq<Byte> {
    seq(Digits(n) / 2 + 1, i requires i >= 0 => 16 * CodeNibble(n, 2 * i) + CodeNibble(n, 2 * i + 1))
  }

  lemma {:induction false} NumberOfDigits(data: seq<Byte>, from: nat, n: nat)
    requires from + Digits(n) <= 2 * |data|
    requires forall o :: from <= o < from + Digits(n) ==> Nibble(data, o) == Digit(n, o - from)
    ensures Number(data, from, from + Digits(n), 0) == n
    decreases n
  {
    if n > 0 {
      forall o | from + 1 <= o < from + 1 + Digits(n / 16)
        ensures Nibble(data, o) == Digit(n / 16, o - (from + 1))
      {
        assert Digit(n, o - from) == Digit(n / 16, o - from - 1);
      }
      NumberOfDigits(data, from + 1, n / 16);
      assert Nibble(data, from) == Digit(n, 0);
    }
  }

  /** What ENCODE_INT_INTERNAL keeps: digits below `off` are written, `n` is what is left. */
  ghost predicate Partial(data: seq<Byte>, off: nat, n: nat, number: nat) {
    && 1 <= off <= 2 * |data|
    && off - 1 + Digits(n) == Digits(number)
    && (forall j :: 0 <= j ==> Digit(n, j) == Digit(number, j + off - 1))
    && (forall o :: 0 <= o < 2 * |data| ==>
          Nibble(data, o) == if 1 <= o < off then Digit(number, o - 1) else 0)
  }

  lemma PartialStart(data: seq<Byte>, number: nat)
    requires |data| > 0 && forall i :: 0 <= i < |data| ==> data[i] == 0
    ensures Partial(data, 1, number, number)
  {
  }

  lemma DigitStep(data: seq<Byte>, off: nat, n: nat, number: nat)
    requires Partial(data, off, n, number) && n > 0 && off / 2 < |data|
    ensures Partial(SetNibble(data, off, n % 16), off + 1, n / 16, number)
  {
    hide SetNibble, Nibble;
    assert Digit(n, 0) == Digit(number, off - 1);
    forall j | 0 <= j
      ensures Digit(n / 16, j) == Digit(number, j + (off + 1) - 1)
    {
      assert Digit(n, j + 1) == Digit(n / 16, j);
    }
  }

  lemma DigitsDone(data: seq<Byte>, off: nat, number: nat)
    requires Partial(data, off, 0, number) && (off + 1) / 2 <= |data|
    ensures SetNibble(data, 0, if off > 2 then (off - 2) % 16 else 0)[..(off + 1) / 2] == Code(number)
  {
    var after := SetNibble(data, 0, if off > 2 then (off - 2) % 16 else 0);
    var code := after[..(off + 1) / 2];
    forall o | 0 <= o < 2 * |code|
      ensures Nibble(code, o) == CodeNibble(number, o)
    {
      assert Nibble(code, o) == Nibble(after, o);
      if o >= off {
        NoDigit(number, o - 1);
      }
    }
    BytesOfNibbles(code, number);
  }

  lemma BytesOfNibbles(code: seq<Byte>, n: nat)
    requires |code| == Digits(n) / 2 + 1
    requires forall o :: 0 <= o < 2 * |code| ==> Nibble(code, o) == CodeNibble(n, o)
    ensures code == Code(n)
  {
    hide CodeNibble;
    forall i | 0 <= i < |code|
      ensures code[i] == Code(n)[i]
    {
      assert Nibble(code, 2 * i) == CodeNibble(n, 2 * i) && Nibble(code, 2 * i + 1) == CodeNibble(n, 2 * i + 1);
    }
  }

  /** ENCODE_INT_INTERNAL for a number of at most `2 * width` digits. */
  method EncodeIntInternal(number: nat, width: nat) returns (code: seq<Byte>)
    requires number < Pow16(2 * width) && 0 < width <= 8
    ensures code == Code(number) && |code| <= width + 1
  {
    hide Partial, Code, Nibble, Pow16, SetNibble;
    var data: seq<Byte> := seq(width + 1, _ => 0);
    var n, off := number, 1;
    DigitsBound(number, 2 * width);
    PartialStart(data, number);
    while n > 0
      invariant off >= 1 && off - 1 + Digits(n) == Digits(number) && |data| == width + 1
      invariant Partial(data, off, n, number)
      decreases n
    {
      DigitStep(data, off, n, number);
      data := SetNibble(data, off, n % 16);
      n := n / 16;
      off := off + 1;
    }
    var nibbles := 0;
    if off > 2 {
      nibbles := off - 2;
    }
    DigitsDone(data, off, number);
    data := SetNibble(data, 0, nibbles % 16);
    code := data[..(off + 1) / 2];
  }

  /** What the decoder reads at the front of `v`: the number and the length of its code. */
  function DecodeInt(v: seq<Byte>, maxNibbles: nat): Option<(nat, nat)> {
    if v == [] then None
    else
      var nibbles := Nibble(v, 0) + 1;
      if nibbles > maxNibbles || nibbles / 2 + 1 > |v| then None
      else Some((Number(v, 1, nibbles + 1, 0), nibbles / 2 + 1))
  }

  /** The loop of DECODE_INT_INTERNAL over the bytes of a code. */
  method DecodeDigits(data: seq<Byte>, count: nat) returns (number: nat)
    requires count < 2 * |data|
    ensures number == Number(data, 1, count + 1, 0)
  {
    var nibbles := count;
    number := 0;
    while nibbles > 0
      invariant 0 <= nibbles <= count && number == Number(data, nibbles + 1, count + 1, 0)
    {
      number := 16 * number + Nibble(data, nibbles);
      nibbles := nibbles - 1;
    }
  }

  lemma NibblesOfCode(n: nat, rest: seq<Byte>, off: nat)
    requires off < 2 * |Code(n)|
    ensures off < 2 * |Code(n) + rest| && Nibble(Code(n) + rest, off) == CodeNibble(n, off)
  {
    hide CodeNibble;
    var i := off / 2;
    assert (Code(n) + rest)[i] == 16 * CodeNibble(n, 2 * i) + CodeNibble(n, 2 * i + 1);
  }

  /** Nibble-coded integers come back, whatever follows them. */
  lemma IntRoundTrip(n: nat, rest: seq<Byte>, maxNibbles: nat)
    requires n < Pow16(maxNibbles) && 1 <= maxNibbles <= 16
    ensures DecodeInt(Code(n) + rest, maxNibbles) == Some((n, |Code(n)|))
  {
    hide Nibble, Pow16, Number, CodeNibble, Digit, Code;
    var v, k := Code(n) + rest, Digits(n);
    DigitsBound(n, maxNibbles);
    CodeShape(n);
    NibblesOfCode(n, rest, 0);
    if k == 0 {
      NibblesOfCode(n, rest, 1);
      OneNibble(v);
    } else {
      forall o | 1 <= o < 1 + k
        ensures Nibble(v, o) == Digit(n, o - 1)
      {
        NibblesOfCode(n, rest, o);
        DigitNibble(n, o);
      }
      NumberOfDigits(v, 1, n);
    }
  }

  lemma CodeShape(n: nat)
    ensures |Code(n)| == Digits(n) / 2 + 1
    ensures Digits(n) == 0 ==> n == 0 && CodeNibble(n, 0) == 0 && CodeNibble(n, 1) == 0
    ensures 0 < Digits(n) <= 16 ==> CodeNibble(n, 0) == Digits(n) - 1
  {
  }

  lemma DigitNibble(n: nat, o: nat)
    requires o > 0
    ensures CodeNibble(n, o) == Digit(n, o - 1)
  {
  }

  lemma OneNibble(v: seq<Byte>)
    requires v != []
    ensures Number(v, 1, 2, 0) == Nibble(v, 1)
  {
    assert Number(v, 2, 2, 0) == 0;
  }

  // ----- tags -------------------------------------------------------------------------------------

  /** Seven bits a byte, least first; the high bit says that more follow. */
  function EncodeTag(tag: nat): seq<Byte> {
    if tag < 128 then [tag] else [tag % 128 + 128] + EncodeTag(tag / 128)
  }

  /** The loop of evtag_encode_tag. */
  method EncodeTagLoop(tag: nat) returns (data: seq<Byte>)
    ensures data == EncodeTag(tag)
  {
    var t := tag;
    data := [];
    while true
      invariant EncodeTag(tag) == data + EncodeTag(t)
      decreases t
    {
      var lower: int := t % 128;
      if t / 128 > 0 {
        data := data + [lower + 128];
        t := t / 128;
      } else {
        data := data + [lower];
        return;
      }
    }
  }

  /** decode_tag_internal from byte `i` on: the value of the remaining bytes and where the tag ends.
      At most five bytes, of which the fifth may carry four bits. */
  function DecodeTag(v: seq<Byte>, i: nat): Option<(nat, nat)>
    decreases if i < 5 then 5 - i else 0
  {
    if i >= |v| || i >= 5 then None
    else
      var low: int := v[i] % 128;
      if i == 4 && low > 15 then None
      else if v[i] < 128 then Some((low, i + 1))
      else
        var rest := DecodeTag(v, i + 1);
        if rest.None? then None else Some((low + 128 * rest.value.0, rest.value.1))
  }

  function Pow128(k: nat): nat {
    if k == 0 then 1 else 128 * Pow128(k - 1)
  }

  /** Having read `number` from the first `count` bytes, what the whole tag decodes to. */
  predicate Reading(v: seq<Byte>, count: nat, number: nat) {
    var whole, rest := DecodeTag(v, 0), DecodeTag(v, count);
    && number < Pow128(count)
    && if rest.None? then whole.None?
       else whole == Some((number + Pow128(count) * rest.value.0, rest.value.1))
  }

  /** A tag whose fifth byte does not end it, with more bytes behind: the loop of decode_tag_internal goes on
      to read a sixth byte, although it had only five made contiguous. */
  predicate SixthByte(v: seq<Byte>, len: nat) {
    len > 5 && |v| >= 5 && v[4] % 128 <= 15 && forall i :: 0 <= i < 5 ==> v[i] >= 128
  }

  /** The loop of decode_tag_internal over a buffer of `len` bytes of which the first, at most five, are
      contiguous in `v`; `over` when it read the byte behind them. That byte is then refused whatever it is. */
  method DecodeTagLoop(v: seq<Byte>, len: nat) returns (r: Option<(nat, nat)>, over: bool)
    requires |v| == if len < 5 then len else 5
    ensures r == DecodeTag(v, 0)
    ensures r.Some? ==> r.value.0 < U32 && 0 < r.value.1 <= |v| && r.value.1 <= 5
    ensures over <==> SixthByte(v, len)
  {
    hide Reading, Pow128;
    var number, count := 0, 0;
    ReadingStart(v);
    while count < len
      invariant 0 <= count <= |v| && count <= 5 && 0 <= number
      invariant Reading(v, count, number)
      invariant forall i :: 0 <= i < count ==> v[i] >= 128
      invariant count == 5 ==> v[4] % 128 <= 15
    {
      if count > 4 {
        ReadingStops(v, count, number);
        return None, true;
      }
      var lower: int := v[count];
      if count == 4 && lower % 128 > 15 {
        ReadingStops(v, count, number);
        return None, false;
      }
      ReadingStep(v, count, number);
      number := number + Pow128(count) * (lower % 128);
      count := count + 1;
      if lower < 128 {
        return Some((number, count)), false;
      }
    }
    ReadingStops(v, count, number);
    return None, false;
  }

  /** Six bytes that make the loop read the last of them. */
  lemma SixthByteRead(last: Byte)
    ensures var v: seq<Byte> := [128, 128, 128, 128, 128, last]; SixthByte(v, 6) && DecodeTag(v, 0).None?
  {
    var v: seq<Byte> := [128, 128, 128, 128, 128, last];
    assert DecodeTag(v, 5).None?;
    assert DecodeTag(v, 4).None?;
    assert DecodeTag(v, 3).None?;
    assert DecodeTag(v, 2).None?;
    assert DecodeTag(v, 1).None?;
  }

  lemma ReadingStart(v: seq<Byte>)
    ensures Reading(v, 0, 0)
  {
  }

  lemma ReadingStops(v: seq<Byte>, count: nat, number: nat)
    requires Reading(v, count, number) && DecodeTag(v, count).None?
    ensures DecodeTag(v, 0).None?
  {
  }

  lemma ReadingStep(v: seq<Byte>, i: nat, number: nat)
    requires Reading(v, i, number) && i < |v| && i < 5 && (i == 4 ==> v[i] as int % 128 <= 15)
    ensures var n := number + Pow128(i) * (v[i] as int % 128);
            && n >= 0
            && if v[i] < 128 then DecodeTag(v, 0) == Some((n, i + 1)) && n < U32 else Reading(v, i + 1, n)
  {
    hide DecodeTag, Pow128;
    TagStep(v, i, number);
    PowValues();
  }

  lemma PowValues()
    ensures Pow128(0) == 1 && Pow128(1) == 0x80 && Pow128(2) == 0x4000 && Pow128(3) == 0x20_0000
    ensures Pow128(4) == 0x1000_0000 && Pow128(5) == 0x8_0000_0000
  {
    assert Pow128(1) == 128 * Pow128(0);
    assert Pow128(2) == 128 * Pow128(1);
    assert Pow128(3) == 128 * Pow128(2);
    assert Pow128(4) == 128 * Pow128(3);
    assert Pow128(5) == 128 * Pow128(4);
  }

  lemma TagStep(v: seq<Byte>, i: nat, number: nat)
    requires i < |v| && i < 5 && number < Pow128(i) && (i == 4 ==> v[i] as int % 128 <= 15)
    ensures var n := number + Pow128(i) * (v[i] as int % 128);
            && 0 <= n < Pow128(i + 1) && (v[i] < 128 ==> n < U32)
            && var here, next := DecodeTag(v, i), DecodeTag(v, i + 1);
               if v[i] < 128 then here.Some? && number + Pow128(i) * here.value.0 == n && here.value.1 == i + 1
               else if next.None? then here.None?
               else here.Some? && number + Pow128(i) * here.value.0 == n + Pow128(i + 1) * next.value.0
                    && here.value.1 == next.value.1
  {
    var low: nat, p := v[i] as int % 128, Pow128(i);
    DigitBelow(p, low, number, i);
    var next := DecodeTag(v, i + 1);
    if v[i] >= 128 && next.Some? {
      Distribute(p, low, next.value.0);
    }
  }

  lemma DigitBelow(p: nat, low: nat, number: nat, i: nat)
    requires i < 5 && p == Pow128(i) && number < p && low <= 127 && (i == 4 ==> low <= 15)
    ensures 0 <= number + p * low < Pow128(i + 1) && number + p * low < U32
  {
    PowValues();
    if i == 4 {
      assert p * low <= p * 15;
    } else {
      assert p * low <= p * 127;
    }
  }

  lemma Distribute(p: nat, low: nat, x: nat)
    ensures p * (low + 128 * x) == p * low + 128 * p * x
  {
  }

  /** Tags come back, whatever follows them. */
  lemma {:induction false} TagRoundTrip(pre: seq<Byte>, tag: nat, rest: seq<Byte>)
    requires |pre| <= 4 && tag * Pow128(|pre|) < U32
    ensures DecodeTag(pre + EncodeTag(tag) + rest, |pre|) == Some((tag, |pre| + |EncodeTag(tag)|))
    decreases tag
  {
    PowValues();
    var v := pre + EncodeTag(tag) + rest;
    if tag < 128 {
      assert v[|pre|] == tag;
    } else {
      var b := tag % 128 + 128;
      assert v[|pre|] == b;
      assert v == (pre + [b]) + EncodeTag(tag / 128) + rest;
      TagRoundTrip(pre + [b], tag / 128, rest);
    }
  }
}
