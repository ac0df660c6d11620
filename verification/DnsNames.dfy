/** Domain names on the wire: the label encoder with its compression table and the parser
    (android/core/src/main/jni/libevent/evdns.c:960-1013, 1560-1663; section 4.1.4 of RFC 1035). */
module DnsNames {
  import opened Basics

  type Label = seq<Byte>

  const DOT: Byte := 46
  const MAX_LABEL := 63
  const MAX_NAME := 255
  const MAX_LABELS := 128

  // ----- what a name on the wire means ---------------------------------------------------------

  datatype Wire = Wire(labels: seq<Label>, end: nat)

  /** The labels of the name at `j`, following at most `jumps` pointers, and where the name ends. */
  function Names(packet: seq<Byte>, j: nat, jumps: nat): (r: Option<Wire>)
    decreases jumps, |packet| - j
  {
    if j >= |packet| then None
    else if packet[j] == 0 then Some(Wire([], j + 1))
    else if packet[j] >= 64 then
      if j + 1 >= |packet| then None
      else
        var target := Target(packet, j);
        if target >= |packet| || jumps == 0 then None
        else
          var rest := Names(packet, target, jumps - 1);
          if rest.None? then None else Some(Wire(rest.value.labels, j + 2))
    else if j + 1 + packet[j] > |packet| then None
    else
      var rest := Names(packet, j + 1 + packet[j], jumps);
      if rest.None? then None
      else Some(Wire([packet[j + 1..j + 1 + packet[j]]] + rest.value.labels, rest.value.end))
  }

  /** Where the pointer at `j` points: fourteen bits. */
  function Target(packet: seq<Byte>, j: nat): nat
    requires j + 1 < |packet|
  {
    var (hi: int, lo: int) := (packet[j], packet[j + 1]);
    (hi % 64) * 256 + lo
  }

  function Join(labels: seq<Label>): seq<Byte> {
    if labels == [] then []
    else if |labels| == 1 then labels[0]
    else labels[0] + [DOT] + Join(labels[1..])
  }

  /** Appending a label the way the parser does: a dot first unless it is the first one. */
  function Extend(text: seq<Byte>, piece: Label): seq<Byte> {
    if text == [] then piece else text + [DOT] + piece
  }

  function Continue(text: seq<Byte>, labels: seq<Label>): seq<Byte>
    decreases |labels|
  {
    if labels == [] then text else Continue(Extend(text, labels[0]), labels[1..])
  }

  lemma {:induction false} ContinueIsJoin(text: seq<Byte>, labels: seq<Label>)
    requires forall i :: 0 <= i < |labels| ==> labels[i] != []
    ensures Continue(text, labels) == if text == [] then Join(labels) else if labels == [] then text else text + [DOT] + Join(labels)
    decreases |labels|
  {
    if labels != [] {
      var next := Extend(text, labels[0]);
      ContinueIsJoin(next, labels[1..]);
      if |labels| > 1 {
        if text != [] {
          assert text + [DOT] + labels[0] + [DOT] + Join(labels[1..]) ==
                 text + [DOT] + (labels[0] + [DOT] + Join(labels[1..]));
        }
      }
    }
  }

  lemma {:induction false} ContinueGrows(text: seq<Byte>, labels: seq<Label>)
    ensures |Continue(text, labels)| >= |text|
    decreases |labels|
  {
    if labels != [] {
      ContinueGrows(Extend(text, labels[0]), labels[1..]);
    }
  }

  lemma {:induction false} NamesLabels(packet: seq<Byte>, j: nat, jumps: nat)
    requires Names(packet, j, jumps).Some?
    ensures var w := Names(packet, j, jumps).value;
            && j < w.end <= |packet|
            && forall i :: 0 <= i < |w.labels| ==> 0 < |w.labels[i]| <= MAX_LABEL
    decreases jumps, |packet| - j
  {
    if packet[j] >= 64 {
      NamesLabels(packet, Target(packet, j), jumps - 1);
    } else if packet[j] > 0 {
      NamesLabels(packet, j + 1 + packet[j], jumps);
    }
  }

  // ----- the parser --------------------------------------------------------------------------------

  /** How far the parser has come: it stands at `j` with `jumps` left, has written `name`, and met its
      first pointer just before `nameEnd` (-1 for none yet). `whole` is the name it was asked for. */
  ghost predicate Tracks(whole: Option<Wire>, packet: seq<Byte>, j: nat, jumps: nat, name: seq<Byte>, nameEnd: int) {
    var rest := Names(packet, j, jumps);
    && whole.Some? == rest.Some?
    && (whole.Some? ==> Continue([], whole.value.labels) == Continue(name, rest.value.labels))
    && (whole.Some? ==> whole.value.end == if nameEnd < 0 then rest.value.end else nameEnd)
  }

  lemma TrackEnd(whole: Option<Wire>, packet: seq<Byte>, j: nat, jumps: nat, name: seq<Byte>, nameEnd: int)
    requires Tracks(whole, packet, j, jumps, name, nameEnd)
    ensures j >= |packet| ==> whole.None?
    ensures j < |packet| && packet[j] == 0 ==>
              whole.Some? && Continue([], whole.value.labels) == name && whole.value.end == if nameEnd < 0 then j + 1 else nameEnd
  {
  }

  lemma TrackJump(whole: Option<Wire>, packet: seq<Byte>, j: nat, jumps: nat, name: seq<Byte>, nameEnd: int)
    requires Tracks(whole, packet, j, jumps, name, nameEnd) && j < |packet| && packet[j] >= 64
    ensures j + 1 >= |packet| ==> whole.None?
    ensures j + 1 < |packet| && (Target(packet, j) >= |packet| || jumps == 0) ==> whole.None?
    ensures j + 1 < |packet| && Target(packet, j) < |packet| && jumps > 0 ==>
              Tracks(whole, packet, Target(packet, j), jumps - 1, name, if nameEnd < 0 then j + 2 else nameEnd)
  {
  }

  lemma TrackLabel(whole: Option<Wire>, packet: seq<Byte>, j: nat, jumps: nat, name: seq<Byte>, nameEnd: int)
    requires Tracks(whole, packet, j, jumps, name, nameEnd) && j < |packet| && 0 < packet[j] < 64
    ensures j + 1 + packet[j] > |packet| ==> whole.None?
    ensures j + 1 + packet[j] <= |packet| ==>
              var grown := Extend(name, packet[j + 1..j + 1 + packet[j]]);
              && Tracks(whole, packet, j + 1 + packet[j], jumps, grown, nameEnd)
              && (whole.Some? ==> |grown| <= |Continue([], whole.value.labels)|)
  {
    if whole.Some? {
      var rest := Names(packet, j + 1 + packet[j], jumps).value;
      assert Names(packet, j, jumps).value.labels[1..] == rest.labels;
      ContinueGrows(Extend(name, packet[j + 1..j + 1 + packet[j]]), rest.labels);
    }
  }

  /** name_parse: succeeds exactly when the packet holds a well-formed name at `start` whose text fits
      an output of `outLen` bytes with its NUL; then the text is the labels joined by dots and `next` is
      where the name ends. Pointer cycles end after as many jumps as the packet has bytes. */
  method NameParse(packet: seq<Byte>, start: nat, outLen: nat) returns (ok: bool, name: seq<Byte>, next: nat)
    ensures ok <==> Names(packet, start, |packet|).Some? && |Join(Names(packet, start, |packet|).value.labels)| < outLen
    ensures ok ==> name == Join(Names(packet, start, |packet|).value.labels) && |name| < outLen
    ensures ok ==> next == Names(packet, start, |packet|).value.end && start < next <= |packet|
  {
    hide Names, Join, Continue, Target, Tracks;
    var length := |packet|;
    ghost var whole := Names(packet, start, length);
    WholeTracks(packet, start);
    var nameEnd: int := -1;
    var j: nat, ptrCount := start, 0;
    name, next, ok := [], 0, false;
    while true
      invariant 0 <= ptrCount <= length && Tracks(whole, packet, j, length - ptrCount, name, nameEnd)
      invariant nameEnd >= -1 && !ok
      decreases length - ptrCount, length - j
    {
      TrackEnd(whole, packet, j, length - ptrCount, name, nameEnd);
      if j >= length {
        return;
      }
      var labelLen: int := packet[j];
      if labelLen == 0 {
        j := j + 1;
        break;
      }
      if labelLen >= 64 {
        TrackJump(whole, packet, j, length - ptrCount, name, nameEnd);
        if j + 1 >= length {
          return;
        }
        if nameEnd < 0 {
          nameEnd := j + 2;
        }
        j := Target(packet, j);
        if j >= length {
          return;
        }
        ptrCount := ptrCount + 1;
        if ptrCount > length {
          return;
        }
        continue;
      }
      TrackLabel(whole, packet, j, length - ptrCount, name, nameEnd);
      var fits, longer := WriteLabel(packet, j + 1, labelLen, name, outLen);
      if !fits {
        return;
      }
      name := longer;
      j := j + 1 + labelLen;
    }
    if |name| >= outLen {
      return;
    }
    ok := true;
    next := if nameEnd < 0 then j else nameEnd;
  }

  /** One label copied to the output, after a dot unless it is the first. */
  method WriteLabel(packet: seq<Byte>, j: nat, labelLen: nat, name: seq<Byte>, outLen: nat)
    returns (fits: bool, longer: seq<Byte>)
    requires labelLen > 0
    ensures fits <==> j + labelLen <= |packet| && |Extend(name, packet[j..j + labelLen])| < outLen
    ensures fits ==> longer == Extend(name, packet[j..j + labelLen])
  {
    longer := name;
    if longer != [] {
      if |longer| + 1 >= outLen {
        return false, name;
      }
      longer := longer + [DOT];
    }
    if |longer| + labelLen >= outLen {
      return false, name;
    }
    if j + labelLen > |packet| {
      return false, name;
    }
    longer := longer + packet[j..j + labelLen];
    fits := true;
  }

  lemma WholeTracks(packet: seq<Byte>, start: nat)
    ensures Tracks(Names(packet, start, |packet|), packet, start, |packet|, [], -1)
    ensures Names(packet, start, |packet|).Some? ==>
              var w := Names(packet, start, |packet|).value;
              Join(w.labels) == Continue([], w.labels) && start < w.end <= |packet|
  {
    if Names(packet, start, |packet|).Some? {
      NamesLabels(packet, start, |packet|);
      ContinueIsJoin([], Names(packet, start, |packet|).value.labels);
    }
  }

  // ----- the encoder, as a function -----------------------------------------------------------

  /** struct dnslabel_entry: a name suffix and the place where it was written. */
  datatype Entry = Entry(name: seq<Byte>, pos: nat)

  type Table = seq<Entry>

  /** dnslabel_table_get_pos: the first entry for `name`. */
  function Lookup(t: Table, name: seq<Byte>): (r: Option<nat>)
    ensures r.Some? ==> exists i :: 0 <= i < |t| && t[i] == Entry(name, r.value)
  {
    if t == [] then None else if t[0].name == name then Some(t[0].pos) else Lookup(t[1..], name)
  }

  /** dnslabel_table_add: a full table silently keeps what it has. */
  function Remember(t: Table, name: seq<Byte>, pos: nat): Table {
    if |t| == MAX_LABELS then t else t + [Entry(name, pos)]
  }

  /** Index of the first dot, or the length. */
  function DotAt(s: seq<Byte>): (d: nat)
    ensures d <= |s| && (d < |s| ==> s[d] == DOT) && (forall i :: 0 <= i < d ==> s[i] != DOT)
  {
    if s == [] || s[0] == DOT then 0 else 1 + DotAt(s[1..])
  }

  /** htons(pos | 0xc000): two marker bits and what fits of `pos` into the other fourteen. */
  function PointerBytes(pos: nat): (r: seq<Byte>)
    ensures |r| == 2
  {
    [192 + (pos % 0x4000) / 256, pos % 256]
  }

  datatype Encoding =
    | Encoded(bytes: seq<Byte>, table: Option<Table>)
    | LabelTooLong
    | NoRoom
    | NoRoomForRoot  // the closing zero byte, which the source writes unchecked, would not fit

  /** What dnsname_to_labels writes for `name` at `j` of a buffer of `room` bytes. */
  function Encode(name: seq<Byte>, j: nat, table: Option<Table>, room: nat): Encoding
    decreases |name|
  {
    if table.Some? && Lookup(table.value, name).Some? then
      if j + 2 > room then NoRoom else Encoded(PointerBytes(Lookup(table.value, name).value), table)
    else
      var d := DotAt(name);
      if d > MAX_LABEL then LabelTooLong
      else if j + d + 1 > room then NoRoom
      else
        var t := Noted(table, name, j);
        if d == |name| then
          if d == 0 then Encoded([0], t)
          else if j + d + 1 == room then NoRoomForRoot
          else Encoded([d] + name + [0], t)
        else
          var rest := Encode(name[d + 1..], j + 1 + d, t, room);
          if rest.Encoded? then Encoded([d] + name[..d] + rest.bytes, rest.table) else rest
  }

  function Noted(table: Option<Table>, name: seq<Byte>, pos: nat): Option<Table> {
    if table.Some? then Some(Remember(table.value, name, pos)) else None
  }

  /** The labels of a name up to its first empty one: all that survives on the wire. */
  function Canon(name: seq<Byte>): seq<Label>
    decreases |name|
  {
    var d := DotAt(name);
    if d == 0 then []
    else if d == |name| then [name]
    else [name[..d]] + Canon(name[d + 1..])
  }

  /** No label is empty, except that the name may end in a dot. */
  predicate Clean(name: seq<Byte>)
    decreases |name|
  {
    var d := DotAt(name);
    d == |name| || (d > 0 && Clean(name[d + 1..]))
  }

  // ----- what the parser makes of the encoder's output ---------------------------------------------

  lemma PointerArith(pos: nat)
    ensures 192 <= PointerBytes(pos)[0] && (PointerBytes(pos)[0] as int % 64) * 256 + PointerBytes(pos)[1] as int == pos % 0x4000
  {
    var x := pos % 0x4000;
    assert x / 256 < 64 && x % 256 == pos % 256;
    assert x == (x / 256) * 256 + x % 256;
  }

  /** Up to 0x3fff, and only up to there, a pointer names its target. */
  lemma PointerExact(p: seq<Byte>, pos: nat, q: seq<Byte>)
    ensures var packet := p + PointerBytes(pos) + q;
            packet[|p|] >= 64 && (Target(packet, |p|) == pos <==> pos < 0x4000)
  {
    PointerArith(pos);
    hide PointerBytes;
    PairAt(p, PointerBytes(pos), q);
  }

  lemma PairAt(p: seq<Byte>, pair: seq<Byte>, q: seq<Byte>)
    requires |pair| == 2
    ensures var packet := p + pair + q; packet[|p|] == pair[0] && packet[|p| + 1] == pair[1]
  {
  }

  predicate Decodes(packet: seq<Byte>, j: nat, jumps: nat, name: seq<Byte>) {
    Names(packet, j, jumps).Some? && Names(packet, j, jumps).value.labels == Canon(name)
  }

  /** More room behind and more jumps do not change a successful reading. */
  lemma {:induction false} NamesMonotone(p: seq<Byte>, q: seq<Byte>, j: nat, jumps: nat, more: nat)
    requires Names(p, j, jumps).Some? && jumps <= more
    ensures Names(p + q, j, more) == Names(p, j, jumps)
    decreases jumps, |p| - j
  {
    var pq := p + q;
    assert pq[j] == p[j];
    if p[j] >= 64 {
      assert pq[j + 1] == p[j + 1];
      assert Target(pq, j) == Target(p, j);
      NamesMonotone(p, q, Target(p, j), jumps - 1, more - 1);
    } else if p[j] > 0 {
      assert pq[j + 1..j + 1 + p[j]] == p[j + 1..j + 1 + p[j]];
      NamesMonotone(p, q, j + 1 + p[j], jumps, more);
    }
  }

  /** An entry written before `base` that reads back as its name. */
  predicate Good(p: seq<Byte>, base: nat, e: Entry) {
    e.pos < base <= |p| && Decodes(p, e.pos, e.pos, e.name)
  }

  /** The table while `name` is being written: an entry is good or belongs to a longer name. */
  predicate Usable(p: seq<Byte>, base: nat, table: Option<Table>, name: seq<Byte>) {
    table.Some? ==> forall i :: 0 <= i < |table.value| ==>
      Good(p, base, table.value[i]) || |table.value[i].name| > |name|
  }

  /** `after` is `before` with new entries, each written at or behind `from` and reading back. */
  predicate Grown(before: Option<Table>, after: Option<Table>, packet: seq<Byte>, from: nat, base: nat) {
    if before.None? then after.None?
    else
      && after.Some? && |before.value| <= |after.value| && before.value == after.value[..|before.value|]
      && forall i :: |before.value| <= i < |after.value| ==>
           from <= after.value[i].pos < |packet| && Decodes(packet, after.value[i].pos, base, after.value[i].name)
  }

  lemma GoodExtends(p: seq<Byte>, q: seq<Byte>, base: nat, e: Entry)
    requires Good(p, base, e)
    ensures Good(p + q, base, e)
  {
    NamesMonotone(p, q, e.pos, e.pos, e.pos);
  }

  /** What stands in `packet` from `from` on for `name` reads back as its canonical labels, ends where it
      should, and so does every suffix remembered on the way. */
  predicate Faithful(packet: seq<Byte>, from: nat, base: nat, name: seq<Byte>, before: Option<Table>, after: Option<Table>) {
    && from < |packet|
    && Decodes(packet, from, base, name)
    && (Clean(name) ==> Names(packet, from, base).value.end == |packet|)
    && Grown(before, after, packet, from, base)
  }

  /** The pointer that ends the encoding of `name`, if one does, is to a place a pointer can name. */
  predicate Reaches(name: seq<Byte>, j: nat, table: Option<Table>)
    decreases |name|
  {
    if table.Some? && Lookup(table.value, name).Some? then Lookup(table.value, name).value < 0x4000
    else
      var d := DotAt(name);
      d == |name| || Reaches(name[d + 1..], j + 1 + d, Noted(table, name, j))
  }

  /** The heart of the matter: whatever the encoder writes at the end of `p` is faithful. */
  lemma {:induction false} EncodeDecodes(p: seq<Byte>, base: nat, name: seq<Byte>, table: Option<Table>, room: nat)
    requires base <= |p| && Usable(p, base, table, name) && Reaches(name, |p|, table)
    requires Encode(name, |p|, table, room).Encoded?
    ensures var e := Encode(name, |p|, table, room); Faithful(p + e.bytes, |p|, base, name, table, e.table)
    decreases |name|
  {
    hide Usable, Lookup, PointerBytes, Faithful, DotAt, Noted;
    if table.Some? && Lookup(table.value, name).Some? {
      PointerDecodes(p, base, name, table.value);
    } else if DotAt(name) == |name| {
      LastDecodes(p, base, name, table, room);
    } else {
      var d := DotAt(name);
      var t, piece := Noted(table, name, |p|), [d] + name[..d];
      UsableNext(p, base, name, name[d + 1..], table, piece);
      EncodeDecodes(p + piece, base, name[d + 1..], t, room);
      var rest := Encode(name[d + 1..], |p| + 1 + d, t, room);
      Assoc(p, piece, rest.bytes);
      PieceAt(p, d, name[..d], rest.bytes);
      LabelDecodes(p + piece + rest.bytes, |p|, base, name, table, rest.table);
    }
  }

  lemma GrownNot(table: Option<Table>, packet: seq<Byte>, from: nat, base: nat)
    ensures Grown(table, table, packet, from, base)
  {
    if table.Some? {
      assert table.value == table.value[..|table.value|];
    }
  }

  lemma PointerDecodes(p: seq<Byte>, base: nat, name: seq<Byte>, t: Table)
    requires base <= |p| && Usable(p, base, Some(t), name) && Lookup(t, name).Some? && Lookup(t, name).value < 0x4000
    ensures Faithful(p + PointerBytes(Lookup(t, name).value), |p|, base, name, Some(t), Some(t))
  {
    var pos := Lookup(t, name).value;
    var bytes := PointerBytes(pos);
    var packet := p + bytes;
    assert Good(p, base, Entry(name, pos));
    PointerExact(p, pos, []);
    assert packet + [] == packet;
    NamesMonotone(p, bytes, pos, pos, base - 1);
    GrownNot(Some(t), packet, |p|, base);
  }

  lemma LastDecodes(p: seq<Byte>, base: nat, name: seq<Byte>, table: Option<Table>, room: nat)
    requires base <= |p| && DotAt(name) == |name| && !(table.Some? && Lookup(table.value, name).Some?)
    requires Encode(name, |p|, table, room).Encoded?
    ensures var e := Encode(name, |p|, table, room); Faithful(p + e.bytes, |p|, base, name, table, e.table)
  {
    hide Names, Decodes, Canon, Clean, Lookup, Grown, Noted;
    var d := |name|;
    if d == 0 {
      LastReads(p + [0], |p|, base, name);
      GrownOne(table, name, |p|, p + [0], base);
    } else {
      Assoc(p, [d] + name, [0]);
      PieceAt(p, d, name, [0]);
      LastReads(p + ([d] + name) + [0], |p|, base, name);
      GrownOne(table, name, |p|, p + ([d] + name) + [0], base);
    }
  }

  lemma LastReads(packet: seq<Byte>, j: nat, base: nat, name: seq<Byte>)
    requires DotAt(name) == |name| <= MAX_LABEL && j < |packet| && packet[j] == |name|
    requires if name == [] then |packet| == j + 1
             else |packet| == j + |name| + 2 && packet[j + 1..j + 1 + |name|] == name && packet[|packet| - 1] == 0
    ensures Decodes(packet, j, base, name) && Names(packet, j, base).value.end == |packet|
  {
    if name != [] {
      assert Names(packet, j + 1 + |name|, base) == Some(Wire([], |packet|));
    }
  }

  lemma GrownOne(table: Option<Table>, name: seq<Byte>, pos: nat, packet: seq<Byte>, base: nat)
    requires pos < |packet| && Decodes(packet, pos, base, name)
    ensures Grown(table, Noted(table, name, pos), packet, pos, base)
  {
    hide Decodes, Names;
    if table.Some? {
      assert table.value == Noted(table, name, pos).value[..|table.value|];
    }
  }

  lemma UsableNext(p: seq<Byte>, base: nat, name: seq<Byte>, rest: seq<Byte>, table: Option<Table>, piece: seq<Byte>)
    requires base <= |p| && Usable(p, base, table, name) && |rest| < |name|
    ensures Usable(p + piece, base, Noted(table, name, |p|), rest)
  {
    hide Good;
    if table.Some? {
      var t := Noted(table, name, |p|).value;
      forall i | 0 <= i < |t|
        ensures Good(p + piece, base, t[i]) || |t[i].name| > |rest|
      {
        if i < |table.value| && |t[i].name| <= |rest| {
          assert t[i] == table.value[i];
          GoodExtends(p, piece, base, t[i]);
        }
      }
    }
  }

  /** A label in front of a rest that reads back. */
  lemma LabelDecodes(packet: seq<Byte>, j: nat, base: nat, name: seq<Byte>, table: Option<Table>, after: Option<Table>)
    requires DotAt(name) < |name| && DotAt(name) <= MAX_LABEL
    requires var d := DotAt(name);
             && j + 1 + d <= |packet| && packet[j] == d && packet[j + 1..j + 1 + d] == name[..d]
             && Faithful(packet, j + 1 + d, base, name[d + 1..], Noted(table, name, j), after)
    ensures Faithful(packet, j, base, name, table, after)
  {
    hide Names, Canon, Clean, Decodes, Grown, DotAt, Noted;
    LabelReads(packet, j, base, name);
    GrownBack(table, name, j, after, packet, j + 1 + DotAt(name), base);
  }

  lemma PieceAt(p: seq<Byte>, d: Byte, piece: seq<Byte>, bytes: seq<Byte>)
    ensures var packet := p + ([d] + piece) + bytes;
            packet[|p|] == d && packet[|p| + 1..|p| + 1 + |piece|] == piece
  {
  }

  lemma LabelReads(packet: seq<Byte>, j: nat, base: nat, name: seq<Byte>)
    requires DotAt(name) < |name| && DotAt(name) <= MAX_LABEL
    requires var d := DotAt(name);
             && j + 1 + d <= |packet| && packet[j] == d && packet[j + 1..j + 1 + d] == name[..d]
             && Decodes(packet, j + 1 + d, base, name[d + 1..])
             && (Clean(name[d + 1..]) ==> Names(packet, j + 1 + d, base).value.end == |packet|)
    ensures Decodes(packet, j, base, name) && (Clean(name) ==> Names(packet, j, base).value.end == |packet|)
  {
  }

  /** The table seen from before the label was noted. */
  lemma GrownBack(table: Option<Table>, name: seq<Byte>, pos: nat, after: Option<Table>, packet: seq<Byte>, from: nat, base: nat)
    requires Grown(Noted(table, name, pos), after, packet, from, base) && pos < from <= |packet|
    requires Decodes(packet, pos, base, name)
    ensures Grown(table, after, packet, pos, base)
  {
    hide Decodes, Names;
    if table.Some? {
      var t, u := Noted(table, name, pos).value, after.value;
      assert table.value == t[..|table.value|];
      assert u[..|t|][..|table.value|] == u[..|table.value|];
      if |t| > |table.value| {
        assert u[|table.value|] == u[..|t|][|table.value|];
      }
    }
  }

  // ----- text ---------------------------------------------------------------------------------------

  function StripDot(name: seq<Byte>): seq<Byte> {
    if name != [] && name[|name| - 1] == DOT then name[..|name| - 1] else name
  }

  lemma StripDotCons(name: seq<Byte>, d: nat)
    requires d + 1 < |name| && name[d] == DOT
    ensures StripDot(name) == name[..d] + [DOT] + StripDot(name[d + 1..])
  {
    var rest := name[d + 1..];
    assert rest[|rest| - 1] == name[|name| - 1];
    assert name == name[..d] + [DOT] + rest;
  }

  lemma {:induction false} CleanText(name: seq<Byte>)
    requires Clean(name)
    ensures Join(Canon(name)) == StripDot(name) && (name != [] ==> Canon(name) != [])
    decreases |name|
  {
    var d := DotAt(name);
    if d < |name| {
      var rest := name[d + 1..];
      CleanText(rest);
      var labels := [name[..d]] + Canon(rest);
      assert labels[1..] == Canon(rest);
      if rest == [] {
        assert name[..|name| - 1] == name[..d];
      } else {
        StripDotCons(name, d);
      }
    }
  }

  lemma {:induction false} UncleanText(name: seq<Byte>)
    requires !Clean(name) && name != [DOT]
    ensures |Join(Canon(name))| < |StripDot(name)|
    decreases |name|
  {
    var d := DotAt(name);
    if d > 0 {
      var rest := name[d + 1..];
      var labels := [name[..d]] + Canon(rest);
      assert labels[1..] == Canon(rest);
      StripDotCons(name, d);
      if rest != [DOT] {
        UncleanText(rest);
      }
    }
  }

  /** The wire gives a name back, without its trailing dot, exactly when no inner label is empty. */
  lemma TextSurvives(name: seq<Byte>)
    ensures Join(Canon(name)) == StripDot(name) <==> Clean(name) || name == [DOT]
  {
    if Clean(name) {
      CleanText(name);
    } else if name != [DOT] {
      UncleanText(name);
    }
  }

  /** "a..b" comes back as "a". */
  lemma EmptyLabelCuts()
    ensures var name := [97, DOT, DOT, 98]; Join(Canon(name)) == [97] && StripDot(name) == name && !Clean(name)
  {
    var name := [97, DOT, DOT, 98];
    var rest := name[2..];
    assert DotAt(rest) == 0;
    assert DotAt(name) == 1 by { assert DotAt(name[1..]) == 0; }
    assert Canon(rest) == [];
    assert name[..1] == [97];
    assert Canon(name) == [[97]] + [];
  }

  // ----- several names in one message -----------------------------------------------------------

  datatype Batch = Batch(packet: seq<Byte>, starts: seq<nat>, table: Option<Table>)

  /** Names encoded one after the other behind `p`, sharing one table. */
  function EncodeAll(p: seq<Byte>, names: seq<seq<Byte>>, table: Option<Table>, room: nat): Option<Batch>
    decreases |names|
  {
    if names == [] then Some(Batch(p, [], table))
    else
      var e := Encode(names[0], |p|, table, room);
      if !e.Encoded? then None
      else
        var rest := EncodeAll(p + e.bytes, names[1..], e.table, room);
        if rest.None? then None else Some(rest.value.(starts := [|p|] + rest.value.starts))
  }

  /** Every pointer of a message is to a place a pointer can name. */
  predicate ReachAll(p: seq<Byte>, names: seq<seq<Byte>>, table: Option<Table>, room: nat)
    decreases |names|
  {
    names == []
    || (Reaches(names[0], |p|, table)
        && var e := Encode(names[0], |p|, table, room);
           e.Encoded? ==> ReachAll(p + e.bytes, names[1..], e.table, room))
  }

  /** In a buffer of up to 0x4000 bytes every pointer reaches. */
  predicate Near(table: Option<Table>) {
    table.Some? ==> forall i :: 0 <= i < |table.value| ==> table.value[i].pos < 0x4000
  }

  lemma {:induction false} NearReaches(name: seq<Byte>, j: nat, table: Option<Table>, room: nat)
    requires Near(table) && room <= 0x4000 && Encode(name, j, table, room).Encoded?
    ensures Reaches(name, j, table) && Near(Encode(name, j, table, room).table)
    decreases |name|
  {
    hide PointerBytes, Lookup, Noted, DotAt, Near;
    var d := DotAt(name);
    NearEntries(table, name, j);
    if !(table.Some? && Lookup(table.value, name).Some?) && d < |name| {
      NearReaches(name[d + 1..], j + 1 + d, Noted(table, name, j), room);
    }
  }

  lemma NearEntries(table: Option<Table>, name: seq<Byte>, j: nat)
    requires Near(table)
    ensures table.Some? && Lookup(table.value, name).Some? ==> Lookup(table.value, name).value < 0x4000
    ensures j < 0x4000 ==> Near(Noted(table, name, j))
  {
  }

  lemma {:induction false} SmallBufferReaches(p: seq<Byte>, names: seq<seq<Byte>>, table: Option<Table>, room: nat)
    requires Near(table) && room <= 0x4000
    requires EncodeAll(p, names, table, room).Some?
    ensures ReachAll(p, names, table, room)
    decreases |names|
  {
    if names != [] {
      hide Reaches, Encode;
      NearReaches(names[0], |p|, table, room);
      var e := Encode(names[0], |p|, table, room);
      SmallBufferReaches(p + e.bytes, names[1..], e.table, room);
    }
  }

  predicate TableGood(p: seq<Byte>, table: Option<Table>) {
    table.Some? ==> forall i :: 0 <= i < |table.value| ==> Good(p, |p|, table.value[i])
  }

  function EndOf(b: Batch, i: nat): nat {
    if i + 1 < |b.starts| then b.starts[i + 1] else |b.packet|
  }

  predicate ReadsBack(b: Batch, i: nat, name: seq<Byte>) {
    && i < |b.starts| && b.starts[i] < |b.packet|
    && Decodes(b.packet, b.starts[i], |b.packet|, name)
    && (Clean(name) ==> Names(b.packet, b.starts[i], |b.packet|).value.end == EndOf(b, i))
  }

  lemma TableStaysGood(p: seq<Byte>, bytes: seq<Byte>, before: Option<Table>, after: Option<Table>)
    requires TableGood(p, before) && Grown(before, after, p + bytes, |p|, |p|)
    ensures TableGood(p + bytes, after)
  {
    if before.Some? {
      forall i | 0 <= i < |after.value|
        ensures Good(p + bytes, |p + bytes|, after.value[i])
      {
        var e := after.value[i];
        if i < |before.value| {
          assert after.value[..|before.value|][i] == before.value[i];
          NamesMonotone(p, bytes, e.pos, e.pos, e.pos);
        } else {
          NamesMonotone(p + bytes, [], e.pos, |p|, e.pos);
          assert p + bytes + [] == p + bytes;
        }
      }
    }
  }

  lemma GoodIsUsable(p: seq<Byte>, table: Option<Table>, name: seq<Byte>)
    requires TableGood(p, table)
    ensures Usable(p, |p|, table, name)
  {
  }

  lemma {:induction false} EncodeAllExtends(p: seq<Byte>, names: seq<seq<Byte>>, table: Option<Table>, room: nat)
    requires EncodeAll(p, names, table, room).Some?
    ensures var b := EncodeAll(p, names, table, room).value;
            && p <= b.packet && |b.starts| == |names|
            && (names != [] ==> b.starts[0] == |p|) && (names == [] ==> b.packet == p)
    decreases |names|
  {
    if names != [] {
      var e := Encode(names[0], |p|, table, room);
      EncodeAllExtends(p + e.bytes, names[1..], e.table, room);
    }
  }

  /** Every name of a message, compressed against all earlier ones, is read back from its own start to
      its canonical labels, and a clean one up to exactly where the next begins. */
  lemma {:induction false} RoundTrip(p: seq<Byte>, names: seq<seq<Byte>>, table: Option<Table>, room: nat)
    requires TableGood(p, table) && EncodeAll(p, names, table, room).Some? && ReachAll(p, names, table, room)
    ensures forall i :: 0 <= i < |names| ==> ReadsBack(EncodeAll(p, names, table, room).value, i, names[i])
    decreases |names|
  {
    if names != [] {
      hide Names, Canon, Clean, TableGood, Usable, Decodes, Grown, Reaches;
      var e := Encode(names[0], |p|, table, room);
      var p1 := p + e.bytes;
      var b, c := EncodeAll(p, names, table, room).value, EncodeAll(p1, names[1..], e.table, room).value;
      assert b.starts == [|p|] + c.starts && b.packet == c.packet;
      GoodIsUsable(p, table, names[0]);
      EncodeDecodes(p, |p|, names[0], table, room);
      TableStaysGood(p, e.bytes, table, e.table);
      RoundTrip(p1, names[1..], e.table, room);
      EncodeAllExtends(p1, names[1..], e.table, room);
      FirstReadsBack(p, names[0], b, p1);
      forall i | 0 <= i < |names|
        ensures ReadsBack(b, i, names[i])
      {
        if i > 0 {
          assert ReadsBack(c, i - 1, names[1..][i - 1]);
          LaterReadsBack(b, c, i, names[i]);
        }
      }
    }
  }

  lemma FirstReadsBack(p: seq<Byte>, name: seq<Byte>, b: Batch, p1: seq<Byte>)
    requires b.starts != [] && b.starts[0] == |p| < |p1| && p1 <= b.packet && EndOf(b, 0) == |p1|
    requires Decodes(p1, |p|, |p|, name) && (Clean(name) ==> Names(p1, |p|, |p|).value.end == |p1|)
    ensures ReadsBack(b, 0, name)
  {
    var q := b.packet[|p1|..];
    assert b.packet == p1 + q;
    NamesMonotone(p1, q, |p|, |p|, |b.packet|);
  }

  lemma LaterReadsBack(b: Batch, c: Batch, i: nat, name: seq<Byte>)
    requires i > 0 && b.starts != [] && b.packet == c.packet && b.starts[1..] == c.starts && ReadsBack(c, i - 1, name)
    ensures ReadsBack(b, i, name)
  {
    hide Names, Decodes, Clean;
    assert b.starts[i] == c.starts[i - 1];
  }

  // ----- the encoder, in place -------------------------------------------------------------------

  /** `buf` is `start` with `done` written at `at`. */
  predicate Laid(buf: seq<Byte>, start: seq<Byte>, at: nat, done: seq<Byte>) {
    at + |done| <= |start| && buf == start[..at] + done + start[at + |done|..]
  }

  /** memcpy of `data` behind what has been written so far. */
  method Put(buf: array<Byte>, j: nat, data: seq<Byte>, ghost start: seq<Byte>, ghost at: nat, ghost done: seq<Byte>)
    requires Laid(buf[..], start, at, done) && j == at + |done| && j + |data| <= buf.Length
    modifies buf
    ensures Laid(buf[..], start, at, done + data)
  {
    forall i | 0 <= i < |data| {
      buf[j + i] := data[i];
    }
    assert buf[..] == old(buf[..])[..j] + data + old(buf[..])[j + |data|..];
    UnderPut(start, at, done, data);
  }

  /** `bytes` in front of the rest of an encoding. */
  function Ahead(bytes: seq<Byte>, rest: Encoding): Encoding {
    if rest.Encoded? then Encoded(bytes + rest.bytes, rest.table) else rest
  }

  lemma UnderPut(start: seq<Byte>, at: nat, done: seq<Byte>, data: seq<Byte>)
    requires at + |done| + |data| <= |start|
    ensures var buf := start[..at] + done + start[at + |done|..];
            var j := at + |done|;
            buf[..j] + data + buf[j + |data|..] == start[..at] + (done + data) + start[at + |done + data|..]
  {
  }

  /** What the encoding of `left` is, case by case, seen from the whole. */
  lemma AheadCases(done: seq<Byte>, left: seq<Byte>, j: nat, t: Option<Table>, room: nat)
    ensures var whole, d := Ahead(done, Encode(left, j, t, room)), DotAt(left);
            if t.Some? && Lookup(t.value, left).Some? then
              whole == if j + 2 > room then NoRoom else Encoded(done + PointerBytes(Lookup(t.value, left).value), t)
            else if d > MAX_LABEL then whole == LabelTooLong
            else if j + d + 1 > room then whole == NoRoom
            else if d == |left| then
              var all := done + ([d] + left[..d]);
              whole == if d == 0 then Encoded(all, Noted(t, left, j))
                       else if j + d + 1 == room then NoRoomForRoot else Encoded(all + [0], Noted(t, left, j))
            else whole == Ahead(done + ([d] + left[..d]), Encode(left[d + 1..], j + 1 + d, Noted(t, left, j), room))
  {
    hide Lookup, PointerBytes;
    var d := DotAt(left);
    if d == |left| {
      assert left[..d] == left;
      if d == 0 {
        assert [d] + left == [0];
      }
      Assoc(done, [d] + left, [0]);
    } else if !(t.Some? && Lookup(t.value, left).Some?) && d <= MAX_LABEL && j + d + 1 <= room {
      AheadLabel(done, left, j, t, room);
    }
  }

  /** One label of the encoding taken off. */
  lemma AheadLabel(done: seq<Byte>, left: seq<Byte>, j: nat, t: Option<Table>, room: nat)
    requires !(t.Some? && Lookup(t.value, left).Some?) && DotAt(left) <= MAX_LABEL && j + DotAt(left) + 1 <= room
    ensures var d := DotAt(left);
            d < |left| ==> Ahead(done, Encode(left, j, t, room)) ==
                           Ahead(done + ([d] + left[..d]), Encode(left[d + 1..], j + 1 + d, Noted(t, left, j), room))
  {
    var d := DotAt(left);
    if d < |left| {
      var rest := Encode(left[d + 1..], j + 1 + d, Noted(t, left, j), room);
      if rest.Encoded? {
        Assoc(done, [d] + left[..d], rest.bytes);
      }
    }
  }

  /** dnsname_to_labels on a name without NUL bytes. Returns the end of the encoding or the source's
      negative code; -3 stands for the unchecked write of the closing zero past the end of `buf`. */
  method DnsnameToLabels(buf: array<Byte>, at: nat, name: seq<Byte>, table: Option<Table>)
    returns (end: int, after: Option<Table>)
    requires at <= buf.Length && forall i :: 0 <= i < |name| ==> name[i] != 0
    modifies buf
    ensures |name| > MAX_NAME ==> end == -2 && buf[..] == old(buf[..])
    ensures |name| <= MAX_NAME ==>
              var e := Encode(name, at, table, buf.Length);
              match e
              case Encoded(bytes, t) =>
                && end == at + |bytes| <= buf.Length && after == t
                && buf[..] == old(buf[..])[..at] + bytes + old(buf[..])[end..]
              case LabelTooLong => end == -1
              case NoRoom => end == -2
              case NoRoomForRoot => end == -3
    ensures |name| <= MAX_NAME ==>
      && (end >= 0 <==> ShortFront(name, TableNames(table)) && at + Size(name, TableNames(table)) <= buf.Length)
      && (end >= 0 ==> end == at + Size(name, TableNames(table)))
  {
    hide Encode, Lookup, PointerBytes, DotAt, Ahead, Noted, Laid, ShortFront, Size, TableNames;
    if |name| > MAX_NAME {
      return -2, table;
    }
    EncodeSize(name, at, table, buf.Length, TableNames(table));
    after := table;
    var k, j := 0, at;
    ghost var start := buf[..];
    ghost var done: seq<Byte>, whole := [], Encode(name, at, table, buf.Length);
    AheadNothing(whole);
    LaidNothing(start, at);
    assert name[0..] == name;
    while true
      invariant 0 <= k <= |name| && j == at + |done| <= buf.Length
      invariant Laid(buf[..], start, at, done) && whole == Ahead(done, Encode(name[k..], j, after, buf.Length))
      decreases |name| - k
    {
      var left := name[k..];
      AheadCases(done, left, j, after, buf.Length);
      if after.Some? && Lookup(after.value, left).Some? {
        end := PutPointer(buf, j, Lookup(after.value, left).value, start, at, done);
        return;
      }
      var d := DotAt(left);
      if d > MAX_LABEL {
        return -1, after;
      }
      if j + d + 1 > buf.Length {
        return -2, after;
      }
      Put(buf, j, [d] + left[..d], start, at, done);
      LastByte(done, d, left[..d]);
      after := Noted(after, left, j);
      done := done + ([d] + left[..d]);
      j := j + 1 + d;
      if d == |left| {
        break;
      }
      k := k + d + 1;
      assert left[d + 1..] == name[k..];
    }
    end := Close(buf, j, start, at, done);
  }

  /** What was written last is zero only for an empty label. */
  lemma LastByte(done: seq<Byte>, d: Byte, piece: seq<Byte>)
    requires |piece| == d && forall i :: 0 <= i < |piece| ==> piece[i] != 0
    ensures var r := done + ([d] + piece); r[|r| - 1] == 0 <==> d == 0
  {
    var r := done + ([d] + piece);
    if d > 0 {
      assert r[|r| - 1] == piece[|piece| - 1];
    } else {
      assert r[|r| - 1] == d;
    }
  }

  /** The end of dnsname_to_labels when the rest of the name is in the table. */
  method PutPointer(buf: array<Byte>, j: nat, pos: nat, ghost start: seq<Byte>, ghost at: nat, ghost done: seq<Byte>)
    returns (end: int)
    requires Laid(buf[..], start, at, done) && j == at + |done|
    modifies buf
    ensures if j + 2 > buf.Length then end == -2
            else end == j + 2 && buf[..] == start[..at] + (done + PointerBytes(pos)) + start[end..]
  {
    hide PointerBytes, Laid;
    if j + 2 > buf.Length {
      return -2;
    }
    Put(buf, j, PointerBytes(pos), start, at, done);
    LaidWhole(buf[..], start, at, done + PointerBytes(pos));
    return j + 2;
  }

  /** The end of dnsname_to_labels: a zero byte unless the last label was empty. */
  method Close(buf: array<Byte>, j: nat, ghost start: seq<Byte>, ghost at: nat, ghost done: seq<Byte>) returns (end: int)
    requires Laid(buf[..], start, at, done) && done != [] && j == at + |done|
    modifies buf
    ensures if done[|done| - 1] == 0 then end == j && buf[..] == start[..at] + done + start[end..]
            else if j == buf.Length then end == -3
            else end == j + 1 && buf[..] == start[..at] + (done + [0]) + start[end..]
  {
    assert buf[j - 1] == buf[..][j - 1] == done[|done| - 1];
    if j == 0 || buf[j - 1] != 0 {
      if j == buf.Length {
        return -3;
      }
      Put(buf, j, [0], start, at, done);
      return j + 1;
    }
    return j;
  }

  lemma LaidNothing(start: seq<Byte>, at: nat)
    requires at <= |start|
    ensures Laid(start, start, at, [])
  {
    assert start == start[..at] + [] + start[at..];
  }

  lemma LaidWhole(buf: seq<Byte>, start: seq<Byte>, at: nat, done: seq<Byte>)
    requires Laid(buf, start, at, done)
    ensures at + |done| <= |start| && buf == start[..at] + done + start[at + |done|..]
  {
  }

  lemma AheadNothing(e: Encoding)
    ensures Ahead([], e) == e
  {
    if e.Encoded? {
      assert [] + e.bytes == e.bytes;
    }
  }

  // ----- there and back --------------------------------------------------------------------------

  predicate LabelsShort(name: seq<Byte>)
    decreases |name|
  {
    var d := DotAt(name);
    d <= MAX_LABEL && (d < |name| ==> LabelsShort(name[d + 1..]))
  }

  /** Two bytes more than the name are always enough, and only a long label can fail then. */
  lemma {:induction false} EncodeFits(name: seq<Byte>, j: nat, table: Option<Table>, room: nat)
    requires LabelsShort(name) && j + |name| + 2 <= room
    ensures var e := Encode(name, j, table, room); e.Encoded? && 0 < |e.bytes| <= |name| + 2
    decreases |name|
  {
    hide Lookup, PointerBytes, Noted, DotAt, Encode;
    var d := DotAt(name);
    EncodeUnfolds(name, j, table, room);
    if !(table.Some? && Lookup(table.value, name).Some?) && d < |name| {
      EncodeFits(name[d + 1..], j + 1 + d, Noted(table, name, j), room);
    }
  }

  /** What the length of an encoding depends on. */
  lemma EncodeUnfolds(name: seq<Byte>, j: nat, table: Option<Table>, room: nat)
    requires LabelsShort(name) && j + |name| + 2 <= room
    ensures var e, d := Encode(name, j, table, room), DotAt(name);
            if table.Some? && Lookup(table.value, name).Some? then e.Encoded? && |e.bytes| == 2
            else if d == |name| then e.Encoded? && 0 < |e.bytes| <= |name| + 2
            else
              var rest := Encode(name[d + 1..], j + 1 + d, Noted(table, name, j), room);
              rest.Encoded? ==> e.Encoded? && |e.bytes| == 1 + d + |rest.bytes|
    ensures DotAt(name) < |name| ==> LabelsShort(name[DotAt(name) + 1..])
  {
    hide Lookup, Noted;
  }

  function TotalLen(names: seq<seq<Byte>>): nat {
    if names == [] then 0 else |names[0]| + 2 + TotalLen(names[1..])
  }

  lemma {:induction false} EncodeAllFits(p: seq<Byte>, names: seq<seq<Byte>>, table: Option<Table>, room: nat)
    requires forall i :: 0 <= i < |names| ==> LabelsShort(names[i])
    requires |p| + TotalLen(names) <= room
    ensures EncodeAll(p, names, table, room).Some?
    ensures var b := EncodeAll(p, names, table, room).value;
            |b.packet| <= |p| + TotalLen(names) && forall i :: 0 <= i < |b.starts| ==> b.starts[i] <= |p| + TotalLen(names)
    decreases |names|
  {
    if names != [] {
      EncodeFits(names[0], |p|, table, room);
      var e := Encode(names[0], |p|, table, room);
      EncodeAllFits(p + e.bytes, names[1..], e.table, room);
    }
  }

  /** A message of several names: each is encoded behind the one before. */
  method EncodeMessage(buf: array<Byte>, at: nat, names: seq<seq<Byte>>)
    returns (starts: seq<nat>, end: nat)
    requires at <= buf.Length
    requires forall i :: 0 <= i < |names| ==> |names[i]| <= MAX_NAME && (forall k :: 0 <= k < |names[i]| ==> names[i][k] != 0)
    requires EncodeAll(buf[..at], names, Some([]), buf.Length).Some?
    modifies buf
    ensures var b := EncodeAll(old(buf[..at]), names, Some([]), buf.Length).value;
            end == |b.packet| <= buf.Length && buf[..end] == b.packet && starts == b.starts
    ensures |starts| == |names| && forall i :: 0 <= i < |names| ==>
      |Known(names[..i])| <= 128 ==>
        (if i + 1 < |names| then starts[i + 1] else end) - starts[i] == Size(names[i], Known(names[..i]))
  {
    hide Encode, EncodeAll, Known, Size, Exact;
    NothingKnown();
    MessageTight(buf[..at], names, Some([]), buf.Length, []);
    assert forall i :: 0 <= i < |names| ==> [] + names[..i] == names[..i];
    starts, end := [], at;
    var table: Option<Table> := Some([]);
    ghost var whole := EncodeAll(buf[..at], names, table, buf.Length).value;
    assert names[0..] == names;
    for i := 0 to |names|
      invariant end <= buf.Length && EncodeAll(buf[..end], names[i..], table, buf.Length).Some?
      invariant var rest := EncodeAll(buf[..end], names[i..], table, buf.Length).value;
                whole.packet == rest.packet && whole.starts == starts + rest.starts
    {
      assert names[i..][0] == names[i] && names[i..][1..] == names[i + 1..];
      EncodeAllStep(buf[..end], names[i..], table, buf.Length);
      var next, after := EncodeNext(buf, end, names[i], table);
      starts := starts + [end];
      end, table := next, after;
    }
    assert names[|names|..] == [];
    EncodeAllStep(buf[..end], [], table, buf.Length);
  }

  /** One name, in a buffer where it fits. */
  method EncodeNext(buf: array<Byte>, at: nat, name: seq<Byte>, table: Option<Table>)
    returns (next: nat, after: Option<Table>)
    requires at <= buf.Length && |name| <= MAX_NAME && forall i :: 0 <= i < |name| ==> name[i] != 0
    requires Encode(name, at, table, buf.Length).Encoded?
    modifies buf
    ensures var e := Encode(name, at, table, buf.Length);
            next == at + |e.bytes| <= buf.Length && after == e.table && buf[..next] == old(buf[..at]) + e.bytes
  {
    hide Encode;
    ghost var before := buf[..];
    var end, table1 := DnsnameToLabels(buf, at, name, table);
    next, after := end, table1;
    assert buf[..next] == buf[..][..next];
    assert before[..at] == old(buf[..at]);
  }

  lemma EncodeAllStep(p: seq<Byte>, names: seq<seq<Byte>>, table: Option<Table>, room: nat)
    requires EncodeAll(p, names, table, room).Some?
    ensures names == [] ==> EncodeAll(p, names, table, room).value == Batch(p, [], table)
    ensures names != [] ==>
      var e := Encode(names[0], |p|, table, room);
      && e.Encoded? && EncodeAll(p + e.bytes, names[1..], e.table, room).Some?
      && var rest := EncodeAll(p + e.bytes, names[1..], e.table, room).value;
         EncodeAll(p, names, table, room).value == Batch(rest.packet, [|p|] + rest.starts, rest.table)
  {
    hide Encode;
  }

  /** Any list of clean names with labels of at most 63 bytes and 255 bytes each, in a message whose
      pointers reach (as all do in a buffer of up to 0x4000 bytes: SmallBufferReaches), comes back as
      the same texts without their trailing dots, and each parse ends exactly where the next name
      begins. */
  method MessageRoundTrip(buf: array<Byte>, at: nat, names: seq<seq<Byte>>)
    returns (texts: seq<seq<Byte>>, starts: seq<nat>, ends: seq<nat>)
    requires at + TotalLen(names) <= buf.Length && ReachAll(buf[..at], names, Some([]), buf.Length)
    requires forall i :: 0 <= i < |names| ==> LabelsShort(names[i]) && Clean(names[i])
    requires forall i :: 0 <= i < |names| ==> |names[i]| <= MAX_NAME && (forall k :: 0 <= k < |names[i]| ==> names[i][k] != 0)
    modifies buf
    ensures |texts| == |starts| == |ends| == |names|
    ensures forall i :: 0 <= i < |names| ==> texts[i] == StripDot(names[i])
    ensures forall i :: 0 <= i < |names| - 1 ==> ends[i] == starts[i + 1]
  {
    hide Names, Canon, Clean, Encode, EncodeAll, LabelsShort, TotalLen, Join, ReachAll, Known, Size;
    ghost var p := buf[..at];
    EncodeAllFits(p, names, Some([]), buf.Length);
    RoundTrip(p, names, Some([]), buf.Length);
    EncodeAllExtends(p, names, Some([]), buf.Length);
    ghost var b := EncodeAll(p, names, Some([]), buf.Length).value;
    var end;
    starts, end := EncodeMessage(buf, at, names);
    var packet := buf[..end];
    texts, ends := [], [];
    for i := 0 to |names|
      invariant |texts| == |ends| == i
      invariant forall k :: 0 <= k < i ==> texts[k] == StripDot(names[k])
      invariant forall k :: 0 <= k < i ==> ends[k] == EndOf(b, k)
    {
      assert ReadsBack(b, i, names[i]);
      CleanText(names[i]);
      var ok, text, next := NameParse(packet, starts[i], MAX_NAME + 1);
      texts, ends := texts + [text], ends + [next];
    }
  }

  // ----- compression --------------------------------------------------------------------------------

  /** The name and what follows each of its dots: all that can be pointed to. */
  function Suffixes(name: seq<Byte>): set<seq<Byte>>
    decreases |name|
  {
    {name} + if DotAt(name) < |name| then Suffixes(name[DotAt(name) + 1..]) else {}
  }

  /** All suffixes of some names. */
  function Known(names: seq<seq<Byte>>): set<seq<Byte>> {
    if names == [] then {} else Known(names[..|names| - 1]) + Suffixes(names[|names| - 1])
  }

  /** The bytes a name takes when the suffixes `known` can be pointed to: the labels in front of the longest of
      them spelled out, and a pointer of two bytes; or all labels and a zero byte. */
  function Size(name: seq<Byte>, known: set<seq<Byte>>): nat
    decreases |name|
  {
    var d := DotAt(name);
    if name in known then 2
    else if name == [] then 1
    else if d == |name| then 1 + d + 1
    else 1 + d + Size(name[d + 1..], known)
  }

  /** No label that is spelled out is longer than 63 bytes. */
  predicate ShortFront(name: seq<Byte>, known: set<seq<Byte>>)
    decreases |name|
  {
    var d := DotAt(name);
    name in known || (d <= 63 && (d < |name| ==> ShortFront(name[d + 1..], known)))
  }

  function TableNames(table: Option<Table>): set<seq<Byte>> {
    if table.None? then {} else set i | 0 <= i < |table.value| :: table.value[i].name
  }

  lemma {:induction false} LookupNames(t: Table, name: seq<Byte>)
    ensures Lookup(t, name).Some? <==> name in TableNames(Some(t))
  {
    if t != [] {
      LookupNames(t[1..], name);
      assert forall i :: 0 <= i < |t[1..]| ==> t[1..][i] == t[i + 1];
      if name in TableNames(Some(t)) && t[0].name != name {
        var i :| 0 <= i < |t| && t[i].name == name;
        assert t[1..][i - 1].name == name;
      }
      if name in TableNames(Some(t[1..])) {
        var i :| 0 <= i < |t[1..]| && t[1..][i].name == name;
        assert t[i + 1].name == name;
      }
    }
  }

  /** A table that is not full takes up what it is given; a full one has 128 entries. */
  lemma RememberNames(t: Table, name: seq<Byte>, pos: nat)
    ensures |t| < 128 ==> TableNames(Some(Remember(t, name, pos))) == TableNames(Some(t)) + {name} && |Remember(t, name, pos)| == |t| + 1
    ensures |t| == 128 ==> Remember(t, name, pos) == t
    ensures TableNames(Some(t)) <= TableNames(Some(Remember(t, name, pos))) <= TableNames(Some(t)) + {name}
    ensures |t| < 128 ==> Lookup(Remember(t, name, pos), name).Some?
  {
    var r := Remember(t, name, pos);
    forall s | s in TableNames(Some(t))
      ensures s in TableNames(Some(r))
    {
      var i :| 0 <= i < |t| && t[i].name == s;
      assert r[i] == t[i];
    }
    if |t| < 128 {
      assert r[|t|] == Entry(name, pos);
    }
    LookupNames(r, name);
  }

  lemma NotedNames(table: Option<Table>, name: seq<Byte>, pos: nat, s: seq<Byte>)
    ensures s != name ==> (s in TableNames(Noted(table, name, pos)) <==> s in TableNames(table))
  {
    hide TableNames, Remember, Lookup;
    if table.Some? {
      RememberNames(table.value, name, pos);
    } else {
      NoNames();
    }
  }

  lemma NoNames()
    ensures TableNames(None) == {}
  {
  }

  lemma {:induction false} SuffixShort(name: seq<Byte>, s: seq<Byte>)
    requires s in Suffixes(name)
    ensures |s| <= |name|
    decreases |name|
  {
    if s != name {
      SuffixShort(name[DotAt(name) + 1..], s);
    }
  }

  /** A name is encoded exactly if the labels that have to be spelled out are short and its size fits, and then
      it takes that size. */
  lemma {:induction false} EncodeSize(name: seq<Byte>, j: nat, table: Option<Table>, room: nat, known: set<seq<Byte>>)
    requires forall s :: s in Suffixes(name) ==> (s in TableNames(table) <==> s in known)
    ensures var e := Encode(name, j, table, room);
            && (e.Encoded? <==> ShortFront(name, known) && j + Size(name, known) <= room)
            && (e.Encoded? ==> |e.bytes| == Size(name, known))
    decreases |name|
  {
    hide Lookup, PointerBytes, Noted, TableNames;
    var d := DotAt(name);
    assert name in Suffixes(name);
    if table.Some? {
      LookupNames(table.value, name);
    } else {
      NoNames();
    }
    if name !in known && d < |name| {
      var rest := name[d + 1..];
      forall s | s in Suffixes(rest)
        ensures s in TableNames(Noted(table, name, j)) <==> s in known
      {
        SuffixShort(rest, s);
        NotedNames(table, name, j, s);
      }
      EncodeSize(rest, j + 1 + d, Noted(table, name, j), room, known);
    }
  }

  /** With every name goes what follows its first dot. */
  ghost predicate Closed(known: set<seq<Byte>>) {
    forall s :: s in known ==> DotAt(s) < |s| ==> s[DotAt(s) + 1..] in known
  }

  lemma {:induction false} ClosedHas(known: set<seq<Byte>>, name: seq<Byte>)
    requires Closed(known) && name in known
    ensures Suffixes(name) <= known
    decreases |name|
  {
    var d := DotAt(name);
    if d < |name| {
      ClosedHas(known, name[d + 1..]);
    }
  }

  lemma {:induction false} SuffixesClosed(name: seq<Byte>)
    ensures Closed(Suffixes(name))
    decreases |name|
  {
    hide DotAt, Suffixes;
    SuffixesFirst(name);
    if DotAt(name) < |name| {
      SuffixesFirst(name[DotAt(name) + 1..]);
      SuffixesClosed(name[DotAt(name) + 1..]);
    }
  }

  lemma {:induction false} KnownClosed(names: seq<seq<Byte>>)
    ensures Closed(Known(names))
  {
    if names != [] {
      hide Suffixes;
      KnownClosed(names[..|names| - 1]);
      SuffixesClosed(names[|names| - 1]);
    }
  }

  /** The table holds exactly `known`, each once. */
  ghost predicate Exact(table: Option<Table>, known: set<seq<Byte>>) {
    table.Some? && TableNames(table) == known && |table.value| == |known|
  }

  /** Encoding a name adds its suffixes to the table, while that has room; `longer` are names of which it is
      a suffix itself. */
  lemma {:induction false} EncodeNames(name: seq<Byte>, j: nat, table: Option<Table>, room: nat,
                                       known: set<seq<Byte>>, longer: set<seq<Byte>>)
    requires Exact(table, known + longer) && Closed(known) && (forall s :: s in longer ==> |s| > |name|)
    requires |known + longer + Suffixes(name)| <= 128 && Encode(name, j, table, room).Encoded?
    ensures Exact(Encode(name, j, table, room).table, known + longer + Suffixes(name))
    decreases |name|
  {
    hide Lookup, Noted, TableNames, Closed, Encode, Suffixes, DotAt, Exact;
    var d, all := DotAt(name), known + longer;
    ExactLookup(table, all, name);
    TableAfter(name, j, table, room);
    SuffixesFirst(name);
    if name in all {
      ClosedHas(known, name);
      Absorbed(known, longer, Suffixes(name));
    } else {
      OneMore(all, name, all + Suffixes(name));
      NotedExact(table, all, name, j);
      if d < |name| {
        var rest := name[d + 1..];
        SetsMoved(known, longer, name, Suffixes(rest), Suffixes(name));
        EncodeNames(rest, j + 1 + d, Noted(table, name, j), room, known, longer + {name});
      }
    }
  }

  lemma ExactLookup(table: Option<Table>, all: set<seq<Byte>>, name: seq<Byte>)
    requires Exact(table, all)
    ensures table.Some? && (Lookup(table.value, name).Some? <==> name in all)
  {
    hide Lookup, TableNames;
    LookupNames(table.value, name);
  }

  lemma Absorbed(known: set<seq<Byte>>, longer: set<seq<Byte>>, own: set<seq<Byte>>)
    requires own <= known
    ensures known + longer + own == known + longer
  {
  }

  lemma SetsMoved(known: set<seq<Byte>>, longer: set<seq<Byte>>, name: seq<Byte>, rest: set<seq<Byte>>, own: set<seq<Byte>>)
    requires own == {name} + rest
    ensures known + longer + {name} == known + (longer + {name})
    ensures known + (longer + {name}) + rest == known + longer + own
  {
  }

  lemma OneMore(all: set<seq<Byte>>, name: seq<Byte>, bound: set<seq<Byte>>)
    requires name !in all && all + {name} <= bound
    ensures |all| < |bound|
  {
    SubsetSize(all + {name}, bound);
  }

  lemma NotedExact(table: Option<Table>, all: set<seq<Byte>>, name: seq<Byte>, pos: nat)
    requires Exact(table, all) && name !in all && |all| < 128
    ensures Exact(Noted(table, name, pos), all + {name})
  {
    hide TableNames, Remember;
    RememberNames(table.value, name, pos);
  }

  lemma SuffixesFirst(name: seq<Byte>)
    ensures name in Suffixes(name)
    ensures Suffixes(name) == {name} + if DotAt(name) < |name| then Suffixes(name[DotAt(name) + 1..]) else {}
  {
    hide DotAt;
  }

  /** The table a name leaves. */
  lemma TableAfter(name: seq<Byte>, j: nat, table: Option<Table>, room: nat)
    requires table.Some? && Encode(name, j, table, room).Encoded?
    ensures var e, d := Encode(name, j, table, room), DotAt(name);
            if Lookup(table.value, name).Some? then e.table == table
            else if d == |name| then e.table == Noted(table, name, j)
            else var rest := Encode(name[d + 1..], j + 1 + d, Noted(table, name, j), room); rest.Encoded? && e.table == rest.table
  {
  }

  /** The same for a whole name. */
  lemma EncodeKnows(name: seq<Byte>, j: nat, table: Option<Table>, room: nat, names: seq<seq<Byte>>)
    requires Exact(table, Known(names)) && Encode(name, j, table, room).Encoded? && |Known(names + [name])| <= 128
    ensures Exact(Encode(name, j, table, room).table, Known(names + [name]))
  {
    hide Encode, Suffixes, TableNames, Closed;
    KnownClosed(names);
    KnownNext(names, name);
    assert Known(names) + {} == Known(names);
    EncodeNames(name, j, table, room, Known(names), {});
  }

  lemma KnownNext(names: seq<seq<Byte>>, name: seq<Byte>)
    ensures Known(names + [name]) == Known(names) + Suffixes(name)
  {
    assert (names + [name])[..|names|] == names;
  }

  /** While no more than 128 suffixes are known, every name of a message takes exactly the bytes it must: those
      of the labels in front of its longest suffix that some name before it has, and a pointer. */
  ghost predicate Tight(b: Batch, names: seq<seq<Byte>>, earlier: seq<seq<Byte>>) {
    |b.starts| == |names| && forall i :: 0 <= i < |names| ==>
      |Known(earlier + names[..i])| <= 128 ==> EndOf(b, i) - b.starts[i] == Size(names[i], Known(earlier + names[..i]))
  }

  lemma {:induction false} MessageTight(p: seq<Byte>, names: seq<seq<Byte>>, table: Option<Table>, room: nat, earlier: seq<seq<Byte>>)
    requires |Known(earlier)| <= 128 ==> Exact(table, Known(earlier))
    requires EncodeAll(p, names, table, room).Some?
    ensures Tight(EncodeAll(p, names, table, room).value, names, earlier)
    decreases |names|
  {
    hide Encode, Known, Size, Exact;
    EncodeAllExtends(p, names, table, room);
    if names != [] {
      var e := Encode(names[0], |p|, table, room);
      var p1, more := p + e.bytes, earlier + [names[0]];
      MoreKnown(earlier, names[0]);
      if |Known(more)| <= 128 {
        EncodeKnows(names[0], |p|, table, room, earlier);
      }
      EncodeAllExtends(p1, names[1..], e.table, room);
      MessageTight(p1, names[1..], e.table, room, more);
      TightFirst(p, names, table, room, earlier);
      var b, c := EncodeAll(p, names, table, room).value, EncodeAll(p1, names[1..], e.table, room).value;
      forall i | 0 <= i < |names| && |Known(earlier + names[..i])| <= 128
        ensures EndOf(b, i) - b.starts[i] == Size(names[i], Known(earlier + names[..i]))
      {
        if i > 0 {
          assert more + names[1..][..i - 1] == earlier + names[..i];
          assert names[1..][i - 1] == names[i] && EndOf(c, i - 1) == EndOf(b, i) && c.starts[i - 1] == b.starts[i];
        }
      }
    }
  }

  lemma MoreKnown(names: seq<seq<Byte>>, name: seq<Byte>)
    ensures |Known(names)| <= |Known(names + [name])|
  {
    KnownNext(names, name);
    SubsetSize(Known(names), Known(names + [name]));
  }

  lemma TightFirst(p: seq<Byte>, names: seq<seq<Byte>>, table: Option<Table>, room: nat, earlier: seq<seq<Byte>>)
    requires names != [] && EncodeAll(p, names, table, room).Some?
    requires |Known(earlier)| <= 128 ==> Exact(table, Known(earlier))
    ensures earlier + names[..0] == earlier
    ensures var b := EncodeAll(p, names, table, room).value;
            |b.starts| == |names| && (|Known(earlier)| <= 128 ==> EndOf(b, 0) - b.starts[0] == Size(names[0], Known(earlier)))
  {
    hide Known, Size, TableNames, Encode;
    var e := Encode(names[0], |p|, table, room);
    EncodeAllExtends(p, names, table, room);
    EncodeAllExtends(p + e.bytes, names[1..], e.table, room);
    if |Known(earlier)| <= 128 {
      EncodeSize(names[0], |p|, table, room, Known(earlier));
    }
  }

  lemma NothingKnown()
    ensures Exact(Some([]), Known([]))
  {
  }

  /** A name that an earlier one ends in, from a label on, takes two bytes. */
  lemma {:induction false} SuffixTwoBytes(names: seq<seq<Byte>>, i: nat, name: seq<Byte>)
    requires i < |names| && name in Suffixes(names[i])
    ensures name in Known(names) && Size(name, Known(names)) == 2
  {
    if i < |names| - 1 {
      var front := names[..|names| - 1];
      assert front[i] == names[i];
      SuffixTwoBytes(front, i, name);
    }
  }

  // ----- where the encoder goes wrong --------------------------------------------------------------

  /** No suffix of `name` that starts at a label is in the table. */
  predicate NoSuffix(table: Option<Table>, name: seq<Byte>)
    decreases |name|
  {
    table.None?
    || (Lookup(table.value, name).None?
        && var d := DotAt(name); d < |name| ==> NoSuffix(table, name[d + 1..]))
  }

  lemma {:induction false} LookupRemember(t: Table, longer: seq<Byte>, pos: nat, name: seq<Byte>)
    requires longer != name
    ensures Lookup(Remember(t, longer, pos), name) == Lookup(t, name)
  {
    if t != [] && |t| != MAX_LABELS {
      LookupAppend(t, Entry(longer, pos), name);
    }
  }

  lemma {:induction false} LookupAppend(t: Table, e: Entry, name: seq<Byte>)
    requires e.name != name
    ensures Lookup(t + [e], name) == Lookup(t, name)
  {
    if t != [] {
      assert (t + [e])[1..] == t[1..] + [e];
      LookupAppend(t[1..], e, name);
    }
  }

  /** Remembering a longer name changes nothing for its suffixes. */
  lemma {:induction false} SuffixNoted(table: Option<Table>, longer: seq<Byte>, pos: nat, name: seq<Byte>)
    requires |name| < |longer|
    ensures NoSuffix(Noted(table, longer, pos), name) == NoSuffix(table, name)
    decreases |name|
  {
    if table.Some? {
      LookupRemember(table.value, longer, pos, name);
      var d := DotAt(name);
      if d < |name| {
        SuffixNoted(table, longer, pos, name[d + 1..]);
      }
    }
  }

  /** dnsname_to_labels writes its closing zero byte one past the end of the buffer exactly when the
      name has short labels and no trailing dot, no suffix of it is in the table, and the name with its
      first length byte ends where the buffer does. */
  lemma {:induction false} RootOverruns(name: seq<Byte>, j: nat, table: Option<Table>, room: nat)
    ensures Encode(name, j, table, room) == NoRoomForRoot <==>
            && LabelsShort(name) && name != [] && name[|name| - 1] != DOT
            && j + |name| + 1 == room && NoSuffix(table, name)
    decreases |name|
  {
    hide Lookup, PointerBytes, Noted, DotAt;
    var d := DotAt(name);
    DotFacts(name);
    if !(table.Some? && Lookup(table.value, name).Some?) && d < |name| {
      var rest := name[d + 1..];
      RootOverruns(rest, j + 1 + d, Noted(table, name, j), room);
      SuffixNoted(table, name, j, rest);
      assert rest != [] ==> rest[|rest| - 1] == name[|name| - 1];
    }
  }

  lemma DotFacts(name: seq<Byte>)
    ensures DotAt(name) < |name| && name[DotAt(name) + 1..] == [] ==> name[|name| - 1] == DOT
    ensures DotAt(name) == |name| && name != [] ==> name[|name| - 1] != DOT
  {
  }

  /** The name "a" in a buffer of two bytes. */
  lemma RootOverrunWitness()
    ensures Encode([97], 0, None, 2) == NoRoomForRoot
  {
    assert DotAt([97]) == 1;
  }

  /** A message in which a pointer does not reach: "a" at 0x4000 and again behind it. The second comes
      back as the empty name. */
  lemma FarPointerFails(p: seq<Byte>, room: nat)
    requires |p| == 0x4000 && p[0] == 0 && room >= 0x4005
    ensures var names := [[97], [97]];
            var b := EncodeAll(p, names, Some([]), room);
            b.Some? && !ReachAll(p, names, Some([]), room) && !ReadsBack(b.value, 1, names[1])
  {
    hide PointerBytes, Names;
    var a: seq<Byte> := [97];
    var names := [a, a];
    assert DotAt(a) == 1;
    var t1: Option<Table> := Some([Entry(a, 0x4000)]);
    assert Remember([], a, 0x4000) == [Entry(a, 0x4000)];
    assert Encode(a, 0x4000, Some([]), room) == Encoded([1] + a + [0], t1);
    var p1 := p + ([1] + a + [0]);
    assert Encode(a, |p1|, t1, room) == Encoded(PointerBytes(0x4000), t1);
    assert names[1..] == [a] && [a][1..] == [];
    var packet := p1 + PointerBytes(0x4000);
    assert EncodeAll(packet, [], t1, room) == Some(Batch(packet, [], t1));
    assert EncodeAll(p1, [a], t1, room) == Some(Batch(packet, [|p1|] + [], t1));
    assert EncodeAll(p, names, Some([]), room).value == Batch(packet, [|p|] + ([|p1|] + []), t1);
    assert !ReachAll(p1, [a], t1, room);
    FarRead(p1, packet);
  }

  lemma FarRead(p1: seq<Byte>, packet: seq<Byte>)
    requires |p1| == 0x4003 && p1[0] == 0 && packet == p1 + PointerBytes(0x4000)
    ensures Names(packet, |p1|, |packet|) == Some(Wire([], |packet|))
    ensures Canon([97]) == [[97]]
  {
    PointerArith(0x4000);
    assert packet[|p1|] == PointerBytes(0x4000)[0] && packet[|p1| + 1] == PointerBytes(0x4000)[1];
    assert Target(packet, |p1|) == 0;
    assert packet[0] == 0;
    assert Names(packet, 0, |packet| - 1) == Some(Wire([], 1));
    assert DotAt([97]) == 1;
  }
}
