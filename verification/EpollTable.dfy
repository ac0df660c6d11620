/** How a pending change of an fd becomes one epoll_ctl call
    (android/core/src/main/jni/libevent/epolltable-internal.h and changelist-internal.h). */
module EpollTable {

  const EV_READ: bv16 := 0x02
  const EV_WRITE: bv16 := 0x04
  const EV_SIGNAL: bv16 := 0x08
  const EV_PERSIST: bv16 := 0x10
  const EV_ET: bv16 := 0x20
  const EV_CLOSED: bv16 := 0x80

  const CHANGE_ADD: bv16 := 0x01
  const CHANGE_DEL: bv16 := 0x02

  predicate Has(flags: bv16, bit: bv16) {
    flags & bit != 0
  }

  /** The conditions an fd is watched for. */
  datatype Interest = Interest(rd: bool, wr: bool, cl: bool) {
    predicate Empty() {
      !rd && !wr && !cl
    }
  }

  const NOTHING := Interest(false, false, false)

  /** EV_READ, EV_WRITE and EV_CLOSED ored together as wanted. */
  function Mask(i: Interest): (m: bv16) {
    (if i.rd then EV_READ else 0) | (if i.wr then EV_WRITE else 0) | (if i.cl then EV_CLOSED else 0)
  }

  function InterestOf(flags: bv16): Interest {
    Interest(Has(flags, EV_READ), Has(flags, EV_WRITE), Has(flags, EV_CLOSED))
  }

  lemma MaskRoundTrip(i: Interest)
    ensures InterestOf(Mask(i)) == i
    ensures !Has(Mask(i), EV_ET) && !Has(Mask(i), EV_SIGNAL)
    ensures Mask(i) == 0 <==> i == NOTHING
  {
  }

  /** struct event_change; the three change fields are one byte wide in the source. */
  datatype Change = Change(fd: int, prior: bv16, read: bv16, write: bv16, close: bv16)

  datatype Verb = Keep | Put | Drop

  /** What the two low bits of a change field ask for; add+del together is the "xxx" of the table. */
  predicate Sane(field: bv16) {
    field & 3 != 3
  }

  function VerbOf(field: bv16): Verb
    requires Sane(field)
  {
    if field & 3 == 1 then Put else if field & 3 == 2 then Drop else Keep
  }

  predicate SaneChange(c: Change) {
    Sane(c.read) && Sane(c.write) && Sane(c.close)
  }

  function After(v: Verb, was: bool): bool {
    v == Put || (v == Keep && was)
  }

  /** The interest a change leads to, bit by bit. */
  function Target(c: Change): Interest
    requires SaneChange(c)
  {
    var was := InterestOf(c.prior);
    Interest(After(VerbOf(c.read), was.rd), After(VerbOf(c.write), was.wr), After(VerbOf(c.close), was.cl))
  }

  predicate AnyPut(c: Change)
    requires SaneChange(c)
  {
    VerbOf(c.read) == Put || VerbOf(c.write) == Put || VerbOf(c.close) == Put
  }

  predicate AnyDrop(c: Change)
    requires SaneChange(c)
  {
    VerbOf(c.read) == Drop || VerbOf(c.write) == Drop || VerbOf(c.close) == Drop
  }

  /** EPOLL_OP_TABLE_INDEX. */
  function TableIndex(c: Change): bv16 {
    (c.close & 3) | ((c.read & 3) << 2) | ((c.write & 3) << 4) | ((c.prior & 6) << 5) | ((c.prior & 0x80) << 1)
  }

  datatype Ctl = CtlNone | CtlAdd | CtlMod | CtlDel | CtlBad

  datatype Operation = Operation(events: Interest, op: Ctl)

  /** epoll_op_table: the entry at an index, by the rule the table was generated from. */
  function TableEntry(idx: bv16): Operation {
    var cc, rc, wc := idx & 3, (idx >> 2) & 3, (idx >> 4) & 3;
    var had := Interest((idx >> 6) & 1 == 1, (idx >> 7) & 1 == 1, (idx >> 8) & 1 == 1);
    if cc == 3 || rc == 3 || wc == 3 then
      Operation(NOTHING, CtlBad)
    else if cc == 1 || rc == 1 || wc == 1 then
      var events := Interest(rc == 1 || (rc != 2 && had.rd), wc == 1 || (wc != 2 && had.wr), cc == 1 || (cc != 2 && had.cl));
      Operation(events, if had == NOTHING then CtlAdd else CtlMod)
    else if cc == 2 || rc == 2 || wc == 2 then
      var left := Interest(had.rd && rc != 2, had.wr && wc != 2, had.cl && cc != 2);
      if left != NOTHING then Operation(left, CtlMod)
      else Operation(Interest(rc == 2, wc == 2, cc == 2), CtlDel)
    else
      Operation(NOTHING, CtlNone)
  }

  /** The index packs the fields of a change without loss. */
  lemma IndexFields(c: Change)
    ensures var idx := TableIndex(c);
            && idx < 512
            && idx & 3 == c.close & 3 && (idx >> 2) & 3 == c.read & 3 && (idx >> 4) & 3 == c.write & 3
            && ((idx >> 6) & 1 == 1 <==> Has(c.prior, EV_READ))
            && ((idx >> 7) & 1 == 1 <==> Has(c.prior, EV_WRITE))
            && ((idx >> 8) & 1 == 1 <==> Has(c.prior, EV_CLOSED))
  {
  }

  /** The rule of the table, free of its encoding. */
  function Rule(rd: Verb, wr: Verb, cl: Verb, had: Interest): Operation {
    if rd == Put || wr == Put || cl == Put then
      Operation(Interest(After(rd, had.rd), After(wr, had.wr), After(cl, had.cl)), if had == NOTHING then CtlAdd else CtlMod)
    else if rd == Drop || wr == Drop || cl == Drop then
      var left := Interest(After(rd, had.rd), After(wr, had.wr), After(cl, had.cl));
      if left != NOTHING then Operation(left, CtlMod) else Operation(Interest(rd == Drop, wr == Drop, cl == Drop), CtlDel)
    else Operation(NOTHING, CtlNone)
  }

  lemma FieldIs(field: bv16)
    requires Sane(field)
    ensures field & 3 == (match VerbOf(field) case Keep => 0 case Put => 1 case Drop => 2)
  {
    FieldCases(field);
  }

  /** The entry selected for a sane change is the one the rule gives for its fields. */
  lemma EntryIsRule(c: Change)
    requires SaneChange(c)
    ensures TableEntry(TableIndex(c)) == Rule(VerbOf(c.read), VerbOf(c.write), VerbOf(c.close), InterestOf(c.prior))
  {
    hide VerbOf, TableIndex, Sane;
    IndexFields(c);
    FieldIs(c.read);
    FieldIs(c.write);
    FieldIs(c.close);
  }

  /** The "xxx" entry is the one of the changes that both add and delete a condition, and of no other. */
  lemma BadExactly(c: Change)
    ensures TableEntry(TableIndex(c)).op == CtlBad <==> !SaneChange(c)
  {
    hide TableIndex;
    IndexFields(c);
  }

  /** What the table says for a sane change, in terms of its target. Never the "xxx" entry. */
  lemma TableMeaning(c: Change)
    requires SaneChange(c)
    ensures var e := TableEntry(TableIndex(c));
            if AnyPut(c) then
              e.events == Target(c) && e.op == (if InterestOf(c.prior) == NOTHING then CtlAdd else CtlMod)
            else if AnyDrop(c) then
              if Target(c) != NOTHING then e == Operation(Target(c), CtlMod)
              else e.op == CtlDel && e.events != NOTHING
            else
              e == Operation(NOTHING, CtlNone) && Target(c) == InterestOf(c.prior)
    ensures TableEntry(TableIndex(c)).events == NOTHING <==> TableEntry(TableIndex(c)).op == CtlNone
  {
    hide VerbOf, TableIndex, TableEntry, Sane, InterestOf;
    EntryIsRule(c);
  }

  lemma FieldCases(field: bv16)
    ensures field & 3 == 0 || field & 3 == 1 || field & 3 == 2 || field & 3 == 3
  {
  }
}
