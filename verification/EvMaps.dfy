/** The per-fd event lists, the changelist, and the two epoll backends that keep the kernel informed
    (android/core/src/main/jni/libevent/evmap.c and epoll.c). */
module EvMaps {
  import opened Basics
  import opened EpollTable

  /** struct event, as far as evmap.c looks at it: ev_fd and ev_events. */
  datatype Event = Event(id: nat, fd: int, flags: bv16)

  /** struct evmap_io together with its changelist_fdinfo. */
  datatype IoEntry = IoEntry(events: seq<Event>, nread: nat, nwrite: nat, nclose: nat, idxPlus1: nat)

  const NEW_ENTRY := IoEntry([], 0, 0, 0, 0)
  const MAX_COUNT: nat := 0xffff

  /** One line of the kernel's interest list. */
  datatype Watch = Watch(on: Interest, et: bool)

  type Kernel = map<int, Watch>

  datatype Errno = OK | EEXIST | ENOENT

  function EpollCtl(k: Kernel, op: Ctl, fd: int, w: Watch): (r: (Errno, Kernel)) {
    match op
    case CtlAdd => if fd in k then (EEXIST, k) else (OK, k[fd := w])
    case CtlMod => if fd in k then (OK, k[fd := w]) else (ENOENT, k)
    case CtlDel => if fd in k then (OK, k - {fd}) else (ENOENT, k)
    case _ => (ENOENT, k)
  }

  /** What the kernel watches an fd for. */
  function Bits(k: Kernel, fd: int): Interest {
    if fd in k then k[fd].on else NOTHING
  }

  /** The kernel's line for an fd, if it has one. */
  function Line(k: Kernel, fd: int): Option<Watch> {
    if fd in k then Some(k[fd]) else None
  }

  /** Whether the kernel watches an fd edge-triggered. */
  predicate Edge(k: Kernel, fd: int) {
    fd in k && k[fd].et
  }

  predicate NoIdleWatch(k: Kernel) {
    forall f :: f in k ==> !k[f].on.Empty()
  }

  // ----- the event lists, and what they ask for ------------------------------------------------

  function Count(events: seq<Event>, bit: bv16): nat {
    if events == [] then 0 else (if Has(events[0].flags, bit) then 1 else 0) + Count(events[1..], bit)
  }

  type Lists = map<int, seq<Event>>

  function ListOf(lists: Lists, fd: int): seq<Event> {
    if fd in lists then lists[fd] else []
  }

  /** The interest a list of events asks for. */
  function Wanted(events: seq<Event>): Interest {
    Interest(Count(events, EV_READ) > 0, Count(events, EV_WRITE) > 0, Count(events, EV_CLOSED) > 0)
  }

  predicate TooMany(events: seq<Event>, ev: Event) {
    || (Has(ev.flags, EV_READ) && Count(events, EV_READ) == MAX_COUNT)
    || (Has(ev.flags, EV_WRITE) && Count(events, EV_WRITE) == MAX_COUNT)
    || (Has(ev.flags, EV_CLOSED) && Count(events, EV_CLOSED) == MAX_COUNT)
  }

  /** What adding and deleting an event does to the lists. */
  function ListsAfterAdd(lists: Lists, ev: Event): Lists {
    if ev.fd < 0 then lists
    else if TooMany(ListOf(lists, ev.fd), ev) then lists[ev.fd := ListOf(lists, ev.fd)]
    else lists[ev.fd := [ev] + ListOf(lists, ev.fd)]
  }

  function ListsAfterDel(lists: Lists, ev: Event): Lists {
    if ev.fd < 0 || ev !in ListOf(lists, ev.fd) then lists else lists[ev.fd := Without(ListOf(lists, ev.fd), ev)]
  }

  lemma {:induction false} CountJoin(a: seq<Event>, b: seq<Event>, bit: bv16)
    ensures Count(a + b, bit) == Count(a, bit) + Count(b, bit)
  {
    if a == [] {
      assert a + b == b;
    } else {
      assert (a + b)[1..] == a[1..] + b;
      CountJoin(a[1..], b, bit);
    }
  }

  lemma CountWithout(events: seq<Event>, ev: Event, bit: bv16)
    requires ev in events
    ensures Count(events, bit) == Count(Without(events, ev), bit) + (if Has(ev.flags, bit) then 1 else 0)
  {
    hide Has;
    var i := IndexOf(events, ev);
    var front, back := events[..i], events[i + 1..];
    assert events == front + ([ev] + back);
    CountJoin(front, [ev] + back, bit);
    CountJoin(front, back, bit);
    assert ([ev] + back)[1..] == back;
  }

  /** evmap_io_check_integrity_fn. */
  predicate CountsOk(fd: int, e: IoEntry) {
    && fd >= 0
    && e.nread == Count(e.events, EV_READ) <= MAX_COUNT
    && e.nwrite == Count(e.events, EV_WRITE) <= MAX_COUNT
    && e.nclose == Count(e.events, EV_CLOSED) <= MAX_COUNT
    && (forall i :: 0 <= i < |e.events| ==> e.events[i].fd == fd)
  }

  function WantedBy(e: IoEntry): Interest {
    Interest(e.nread > 0, e.nwrite > 0, e.nclose > 0)
  }

  /** event_changelist_assert_ok: the changes and the fdinfo of their fds point at each other. */
  predicate IndexOk(io: map<int, IoEntry>, changes: seq<Change>) {
    && (forall i :: 0 <= i < |changes| ==> changes[i].fd in io && io[changes[i].fd].idxPlus1 == i + 1)
    && (forall fd :: fd in io && io[fd].idxPlus1 > 0 ==>
          io[fd].idxPlus1 <= |changes| && changes[io[fd].idxPlus1 - 1].fd == fd)
  }

  /** What is pending for one fd, applied to what the kernel has, gives what is wanted. */
  predicate InStep(idxPlus1: nat, changes: seq<Change>, has: Interest, want: Interest) {
    if idxPlus1 == 0 then has == want
    else
      idxPlus1 <= |changes| &&
      var c := changes[idxPlus1 - 1];
      SaneChange(c) && c.prior == Mask(has) && Target(c) == want
  }

  /** Conditions for the backend to add, with the edge-trigger flag. */
  function Flags(et: bool, res: Interest): bv16 {
    (if et then EV_ET else 0) | Mask(res)
  }

  lemma FlagsAre(flags: bv16, res: Interest)
    ensures (flags & EV_ET) | Mask(res) == Flags(Has(flags, EV_ET), res)
  {
    hide Mask;
  }

  // ----- change records ---------------------------------------------------------------------------

  /** event_changelist_add_ on the record of an fd; epoll_nochangelist_add on a blank one. */
  function WithAdd(c: Change, flags: bv16): Change {
    var mode := CHANGE_ADD | (flags & (EV_ET | EV_PERSIST | EV_SIGNAL));
    var c1 := if Has(flags, EV_READ | EV_SIGNAL) then c.(read := mode) else c;
    var c2 := if Has(flags, EV_WRITE) then c1.(write := mode) else c1;
    if Has(flags, EV_CLOSED) then c2.(close := mode) else c2
  }

  /** event_changelist_del_ on the record of an fd: a delete of something not in force is a no-op. */
  function WithDel(c: Change, flags: bv16): Change {
    c.(read := DelField(c.read, Has(flags, EV_READ | EV_SIGNAL), Has(c.prior, EV_READ | EV_SIGNAL)),
       write := DelField(c.write, Has(flags, EV_WRITE), Has(c.prior, EV_WRITE)),
       close := DelField(c.close, Has(flags, EV_CLOSED), Has(c.prior, EV_CLOSED)))
  }

  function DelField(field: bv16, del: bool, had: bool): bv16 {
    if !del then field else if had then CHANGE_DEL else 0
  }

  lemma DelFieldMeans(field: bv16, del: bool, had: bool)
    requires Sane(field)
    ensures Sane(DelField(field, del, had))
    ensures After(VerbOf(DelField(field, del, had)), had) == (After(VerbOf(field), had) && !del)
  {
  }

  function Union(a: Interest, b: Interest): Interest {
    Interest(a.rd || b.rd, a.wr || b.wr, a.cl || b.cl)
  }

  function Minus(a: Interest, b: Interest): Interest {
    Interest(a.rd && !b.rd, a.wr && !b.wr, a.cl && !b.cl)
  }

  /** The changelist field values stay sane, and the target moves by exactly what was added. */
  lemma AddMovesTarget(c: Change, res: Interest, et: bool)
    requires SaneChange(c)
    ensures var d := WithAdd(c, Flags(et, res));
            SaneChange(d) && d.fd == c.fd && d.prior == c.prior && Target(d) == Union(Target(c), res)
  {
    AddBits(res, et);
  }

  lemma AddBits(res: Interest, et: bool)
    ensures var flags := Flags(et, res);
            && (Has(flags, EV_READ | EV_SIGNAL) <==> res.rd) && (Has(flags, EV_WRITE) <==> res.wr)
            && (Has(flags, EV_CLOSED) <==> res.cl)
            && (CHANGE_ADD | (flags & (EV_ET | EV_PERSIST | EV_SIGNAL))) & 3 == 1
            && (Has(flags, EV_ET) <==> et)
  {
  }

  /** The record after a delete, field by field. */
  lemma DelRecord(c: Change, was: Interest, res: Interest)
    requires c.prior == Mask(was)
    ensures WithDel(c, Mask(res)) == c.(read := DelField(c.read, res.rd, was.rd), write := DelField(c.write, res.wr, was.wr),
                                        close := DelField(c.close, res.cl, was.cl))
  {
    hide Mask, DelField, Has;
    MaskBits(res);
    MaskBits(was);
  }

  /** A target is made up of its three fields. */
  lemma TargetFields(c: Change, was: Interest)
    requires SaneChange(c) && c.prior == Mask(was)
    ensures Target(c) == Interest(After(VerbOf(c.read), was.rd), After(VerbOf(c.write), was.wr), After(VerbOf(c.close), was.cl))
  {
    hide Mask, VerbOf, Sane;
    MaskRoundTrip(was);
  }

  lemma DelMovesTarget(c: Change, was: Interest, res: Interest)
    requires SaneChange(c) && c.prior == Mask(was)
    ensures var d := WithDel(c, Mask(res));
            SaneChange(d) && d.fd == c.fd && d.prior == c.prior && Target(d) == Minus(Target(c), res)
  {
    hide Mask, VerbOf, DelField, Sane, Target, WithDel, After;
    DelRecord(c, was, res);
    DelFieldMeans(c.read, res.rd, was.rd);
    DelFieldMeans(c.write, res.wr, was.wr);
    DelFieldMeans(c.close, res.cl, was.cl);
    TargetFields(c, was);
    TargetFields(WithDel(c, Mask(res)), was);
  }

  lemma MaskBits(i: Interest)
    ensures (Has(Mask(i), EV_READ | EV_SIGNAL) <==> i.rd) && (Has(Mask(i), EV_WRITE) <==> i.wr)
    ensures Has(Mask(i), EV_CLOSED) <==> i.cl
  {
  }

  /** What evmap_io_add_ passes to the backend: the conditions that are new, and the edge-trigger flag. */
  function AddFlags(list: seq<Event>, ev: Event): bv16 {
    Flags(Has(ev.flags, EV_ET), Minus(Wanted([ev] + list), Wanted(list)))
  }

  /** What evmap_io_del_ passes to the backend: the conditions that nothing asks for any more. */
  function DelFlags(list: seq<Event>, ev: Event): bv16
    requires ev in list
  {
    Mask(Minus(Wanted(list), Wanted(Without(list, ev))))
  }

  /** The records the immediate backend builds for them. */
  function AddNow(list: seq<Event>, ev: Event): Change {
    WithAdd(Change(ev.fd, Mask(Wanted(list)), 0, 0, 0), AddFlags(list, ev))
  }

  function DelNow(list: seq<Event>, ev: Event): Change
    requires ev in list
  {
    PlainDel(ev.fd, Mask(Wanted(list)), DelFlags(list, ev))
  }

  lemma BlankChange(fd: int, was: Interest)
    ensures SaneChange(Change(fd, Mask(was), 0, 0, 0)) && Target(Change(fd, Mask(was), 0, 0, 0)) == was
  {
    MaskRoundTrip(was);
  }

  /** The record epoll_nochangelist_del builds: plain deletes. */
  function PlainDel(fd: int, prior: bv16, flags: bv16): Change {
    Change(fd, prior, if Has(flags, EV_READ) then CHANGE_DEL else 0, if Has(flags, EV_WRITE) then CHANGE_DEL else 0,
           if Has(flags, EV_CLOSED) then CHANGE_DEL else 0)
  }

  lemma PlainDelTarget(fd: int, was: Interest, res: Interest)
    ensures var c := PlainDel(fd, Mask(was), Mask(res));
            c.fd == fd && c.prior == Mask(was) && SaneChange(c) && Target(c) == Minus(was, res)
  {
    MaskRoundTrip(was);
    MaskRoundTrip(res);
  }

  lemma IndexAppend(io: map<int, IoEntry>, changes: seq<Change>, c: Change)
    requires IndexOk(io, changes) && c.fd in io && io[c.fd].idxPlus1 == 0
    ensures IndexOk(io[c.fd := io[c.fd].(idxPlus1 := |changes| + 1)], changes + [c])
  {
  }

  lemma IndexBack(io: map<int, IoEntry>, changes: seq<Change>, fd: int)
    requires IndexOk(io, changes) && fd in io
    ensures io[fd].idxPlus1 > 0 ==> io[fd].idxPlus1 <= |changes| && changes[io[fd].idxPlus1 - 1].fd == fd
  {
  }

  lemma IndexSet(io: map<int, IoEntry>, changes: seq<Change>, i: nat, c: Change)
    requires IndexOk(io, changes) && i < |changes| && c.fd == changes[i].fd
    ensures IndexOk(io, changes[i := c])
  {
  }

  lemma InStepAppend(idxPlus1: nat, changes: seq<Change>, c: Change, has: Interest, want: Interest)
    requires InStep(idxPlus1, changes, has, want)
    ensures InStep(idxPlus1, changes + [c], has, want)
  {
  }

  lemma InStepSet(idxPlus1: nat, changes: seq<Change>, i: nat, c: Change, has: Interest, want: Interest)
    requires InStep(idxPlus1, changes, has, want) && i < |changes| && idxPlus1 != i + 1
    ensures InStep(idxPlus1, changes[i := c], has, want)
  {
  }

  lemma CountsKept(fd: int, e: IoEntry, idxPlus1: nat)
    requires CountsOk(fd, e)
    ensures CountsOk(fd, e.(idxPlus1 := idxPlus1))
  {
  }

  lemma IndexEntry(io: map<int, IoEntry>, changes: seq<Change>, fd: int, e: IoEntry)
    requires IndexOk(io, changes) && fd in io && e.idxPlus1 == io[fd].idxPlus1
    ensures IndexOk(io[fd := e], changes)
  {
  }

  /** A slot that is new asks for nothing. */
  lemma NewSlot(io: map<int, IoEntry>, changes: seq<Change>, fd: int)
    requires IndexOk(io, changes) && fd !in io && fd >= 0
    ensures IndexOk(io[fd := NEW_ENTRY], changes) && CountsOk(fd, NEW_ENTRY)
    ensures WantedBy(NEW_ENTRY) == NOTHING && InStep(NEW_ENTRY.idxPlus1, changes, NOTHING, NOTHING)
  {
  }

  /** The counts and list of an fd with one event more. */
  function Bumped(e: IoEntry, ev: Event): IoEntry {
    IoEntry([ev] + e.events, e.nread + (if Has(ev.flags, EV_READ) then 1 else 0),
            e.nwrite + (if Has(ev.flags, EV_WRITE) then 1 else 0),
            e.nclose + (if Has(ev.flags, EV_CLOSED) then 1 else 0), e.idxPlus1)
  }

  lemma BumpedCounts(fd: int, e: IoEntry, ev: Event)
    requires CountsOk(fd, e) && ev.fd == fd
    ensures var b := Bumped(e, ev);
            && (b.nread > MAX_COUNT || b.nwrite > MAX_COUNT || b.nclose > MAX_COUNT <==> TooMany(e.events, ev))
            && (!TooMany(e.events, ev) ==> CountsOk(fd, b))
            && WantedBy(e) == Wanted(e.events) && WantedBy(b) == Wanted([ev] + e.events)
  {
    hide Has;
    var list := [ev] + e.events;
    assert list[0] == ev && list[1..] == e.events;
  }

  /** The counts and list of an fd with one event less. */
  function Lowered(e: IoEntry, ev: Event): IoEntry
    requires ev in e.events
    requires Has(ev.flags, EV_READ) ==> e.nread > 0
    requires Has(ev.flags, EV_WRITE) ==> e.nwrite > 0
    requires Has(ev.flags, EV_CLOSED) ==> e.nclose > 0
  {
    IoEntry(Without(e.events, ev), e.nread - (if Has(ev.flags, EV_READ) then 1 else 0),
            e.nwrite - (if Has(ev.flags, EV_WRITE) then 1 else 0),
            e.nclose - (if Has(ev.flags, EV_CLOSED) then 1 else 0), e.idxPlus1)
  }

  lemma LoweredCounts(fd: int, e: IoEntry, ev: Event)
    requires CountsOk(fd, e) && ev in e.events
    ensures Has(ev.flags, EV_READ) ==> e.nread > 0
    ensures Has(ev.flags, EV_WRITE) ==> e.nwrite > 0
    ensures Has(ev.flags, EV_CLOSED) ==> e.nclose > 0
    ensures CountsOk(fd, Lowered(e, ev)) && WantedBy(e) == Wanted(e.events)
    ensures WantedBy(Lowered(e, ev)) == Wanted(Without(e.events, ev))
  {
    hide Has;
    CountWithout(e.events, ev, EV_READ);
    CountWithout(e.events, ev, EV_WRITE);
    CountWithout(e.events, ev, EV_CLOSED);
    assert forall i :: 0 <= i < |Without(e.events, ev)| ==> Without(e.events, ev)[i] in e.events;
  }

  // ----- what a change does to the kernel -----------------------------------------------------------

  /** The change asks for anything at all. */
  predicate Asks(c: Change) {
    SaneChange(c) && (AnyPut(c) || AnyDrop(c))
  }

  /** The line a change leaves for its fd, whatever was there. */
  function LineAfter(c: Change, was: Option<Watch>): Option<Watch> {
    if !Asks(c) then was
    else if Target(c) == NOTHING then None
    else Some(NewLine(c))
  }

  /** Edge triggering as epoll_apply_one_change reads it off a change. */
  predicate EdgeFlag(c: Change) {
    Has(c.read | c.write, EV_ET)
  }

  function NewLine(c: Change): Watch
    requires SaneChange(c)
  {
    Watch(Target(c), EdgeFlag(c))
  }

  /** The kernel after epoll_apply_one_change. */
  function Applied(k: Kernel, c: Change): Kernel {
    if !Asks(c) then k else if Target(c) == NOTHING then k - {c.fd} else k[c.fd := NewLine(c)]
  }

  lemma AppliedLine(k: Kernel, c: Change, fd: int)
    ensures Line(Applied(k, c), fd) == if fd == c.fd then LineAfter(c, Line(k, fd)) else Line(k, fd)
  {
    hide Target, AnyPut, AnyDrop, SaneChange, NewLine;
  }

  /** Edge triggering as it is read off a record, field by field. */
  lemma EdgeIsEither(c: Change)
    ensures EdgeFlag(c) <==> Has(c.read, EV_ET) || Has(c.write, EV_ET)
  {
  }

  /** If the change leaves a line, the fd is edge-triggered exactly if its read or its write field says so. */
  predicate EdgeSet(k: Kernel, fd: int, c: Change) {
    Asks(c) && Target(c) != NOTHING ==> (Edge(k, fd) <==> Has(c.read, EV_ET) || Has(c.write, EV_ET))
  }

  /** A change that leaves a line makes it edge-triggered by the flags of its read and write fields. */
  lemma AppliedEdge(k: Kernel, c: Change)
    ensures EdgeSet(Applied(k, c), c.fd, c)
  {
    hide Target, EdgeFlag, Has;
    EdgeIsEither(c);
  }

  lemma LineEdges(k: Kernel, fd: int, c: Change, was: Option<Watch>)
    requires Line(k, fd) == LineAfter(c, was)
    ensures EdgeSet(k, fd, c)
  {
    hide Target, EdgeFlag, Has;
    EdgeIsEither(c);
  }

  lemma NotAsking(c: Change, was: Option<Watch>)
    ensures !Asks(c) ==> LineAfter(c, was) == was
  {
  }

  /** The operation says what to do: nothing, delete, or set the new line. */
  predicate Fits(e: Operation, c: Change) {
    && (e.events == NOTHING <==> !Asks(c))
    && (Asks(c) && Target(c) == NOTHING ==> e.op == CtlDel)
    && (Asks(c) && Target(c) != NOTHING ==> e.events == Target(c) && (e.op == CtlAdd || e.op == CtlMod))
  }

  lemma TableFits(c: Change)
    requires SaneChange(c)
    ensures Fits(TableEntry(TableIndex(c)), c)
  {
    hide TableEntry, TableIndex, Target, AnyPut, AnyDrop, SaneChange, InterestOf;
    TableMeaning(c);
    PutMeansSome(c);
  }

  /** An operation that fits, retried as epoll_apply_one_change does, has the effect of the change. */
  lemma FitApplies(k: Kernel, c: Change, e: Operation, w: Watch)
    requires SaneChange(c) && Fits(e, c) && (Asks(c) && Target(c) != NOTHING ==> w == NewLine(c))
    ensures e.events == NOTHING ==> Applied(k, c) == k
    ensures e.events != NOTHING ==>
      var r := EpollCtl(k, e.op, c.fd, w);
      if r.0 == OK then r.1 == Applied(k, c)
      else if e.op == CtlMod then EpollCtl(k, CtlAdd, c.fd, w) == (OK, Applied(k, c))
      else if e.op == CtlAdd then EpollCtl(k, CtlMod, c.fd, w) == (OK, Applied(k, c))
      else Applied(k, c) == k
  {
    hide Target, Asks, SaneChange, EpollCtl, NewLine;
    Retried(k, e.op, c.fd, w);
  }

  lemma TheNewLine(c: Change, e: Operation)
    requires SaneChange(c) && Fits(e, c)
    ensures Asks(c) && Target(c) != NOTHING ==> Watch(e.events, EdgeFlag(c)) == NewLine(c)
  {
    hide Target, Asks, SaneChange, EdgeFlag;
  }

  /** An ADD or MOD that fails succeeds as the other; a DEL that fails had nothing to delete. */
  lemma Retried(k: Kernel, op: Ctl, fd: int, w: Watch)
    ensures op == CtlAdd || op == CtlMod ==>
      var r, other := EpollCtl(k, op, fd, w), EpollCtl(k, if op == CtlAdd then CtlMod else CtlAdd, fd, w);
      if r.0 == OK then r.1 == k[fd := w] else other == (OK, k[fd := w])
    ensures op == CtlDel ==> var r := EpollCtl(k, op, fd, w); if r.0 == OK then r.1 == k - {fd} else k - {fd} == k
  {
  }

  lemma PutMeansSome(c: Change)
    requires SaneChange(c)
    ensures AnyPut(c) ==> Target(c) != NOTHING
  {
    hide VerbOf, InterestOf;
  }

  function AppliedAll(k: Kernel, changes: seq<Change>, n: nat): Kernel
    requires n <= |changes|
  {
    if n == 0 then k else Applied(AppliedAll(k, changes, n - 1), changes[n - 1])
  }

  /** With one change an fd, each fd sees just its own. */
  lemma {:induction false} AppliedAllLine(k: Kernel, io: map<int, IoEntry>, changes: seq<Change>, n: nat, fd: int)
    requires n <= |changes| && IndexOk(io, changes)
    ensures Line(AppliedAll(k, changes, n), fd) ==
            if fd in io && 0 < io[fd].idxPlus1 <= n then LineAfter(changes[io[fd].idxPlus1 - 1], Line(k, fd)) else Line(k, fd)
  {
    if n > 0 {
      AppliedAllLine(k, io, changes, n - 1, fd);
      hide Applied, LineAfter, Line;
      AppliedLine(AppliedAll(k, changes, n - 1), changes[n - 1], fd);
    }
  }

  /** The record pending for an fd; a blank one when nothing is pending. */
  function RecordOf(io: map<int, IoEntry>, changes: seq<Change>, fd: int): Change {
    if fd in io && 0 < io[fd].idxPlus1 <= |changes| then changes[io[fd].idxPlus1 - 1]
    else Change(fd, Mask(if fd in io then WantedBy(io[fd]) else NOTHING), 0, 0, 0)
  }

  lemma BlankAsksNothing(fd: int, was: Interest)
    ensures !Asks(Change(fd, Mask(was), 0, 0, 0))
  {
  }

  lemma AddAsks(fd: int, was: Interest, res: Interest, et: bool)
    requires res != NOTHING
    ensures Asks(WithAdd(Change(fd, Mask(was), 0, 0, 0), Flags(et, res)))
  {
    hide Mask, Target;
    BlankChange(fd, was);
    AddMovesTarget(Change(fd, Mask(was), 0, 0, 0), res, et);
    AddBits(res, et);
  }

  lemma DelAsks(fd: int, was: Interest, res: Interest)
    requires res != NOTHING
    ensures Asks(PlainDel(fd, Mask(was), Mask(res)))
  {
    hide Mask, Target;
    PlainDelTarget(fd, was, res);
    MaskBits(res);
    MaskRoundTrip(res);
  }

  /** An add that reaches the kernel decides edge triggering: the event's own flag, if the add is for
      reading or writing. */
  lemma EdgeOfAdd(k: Kernel, list: seq<Event>, ev: Event)
    ensures var gained := Minus(Wanted([ev] + list), Wanted(list));
            Wanted([ev] + list) != Wanted(list) ==>
              (Edge(Applied(k, AddNow(list, ev)), ev.fd) <==> Has(ev.flags, EV_ET) && (gained.rd || gained.wr))
  {
    hide Wanted, Mask, Target, Flags;
    var gained, et := Minus(Wanted([ev] + list), Wanted(list)), Has(ev.flags, EV_ET);
    WantedGrows(list, ev);
    if gained != NOTHING {
      var was := Wanted(list);
      BlankChange(ev.fd, was);
      AddMovesTarget(Change(ev.fd, Mask(was), 0, 0, 0), gained, et);
      AddAsks(ev.fd, was, gained, et);
      EdgeFields(ev.fd, was, gained, et);
    }
  }

  lemma WantedGrows(list: seq<Event>, ev: Event)
    ensures Union(Wanted([ev] + list), Wanted(list)) == Wanted([ev] + list)
  {
    assert ([ev] + list)[1..] == list;
  }

  lemma EdgeFields(fd: int, was: Interest, res: Interest, et: bool)
    ensures var c := WithAdd(Change(fd, Mask(was), 0, 0, 0), Flags(et, res)); EdgeFlag(c) <==> et && (res.rd || res.wr)
  {
    AddBits(res, et);
  }

  /** A delete that reaches the kernel ends edge triggering, for whatever is left on the fd. */
  lemma EdgeOfDel(k: Kernel, list: seq<Event>, ev: Event)
    requires ev in list
    ensures Minus(Wanted(list), Wanted(Without(list, ev))) != NOTHING ==> !Edge(Applied(k, DelNow(list, ev)), ev.fd)
  {
    hide Wanted, Mask, Target, Without;
    var gone := Minus(Wanted(list), Wanted(Without(list, ev)));
    if gone != NOTHING {
      PlainDelTarget(ev.fd, Wanted(list), gone);
      DelAsks(ev.fd, Wanted(list), gone);
    }
  }

  // ----- what the base keeps ------------------------------------------------------------------------

  /** Counts, changelist and kernel agree, and everything pending leads to what the events ask for; for
      fd `at`, to `want`. */
  ghost predicate Sound(io: map<int, IoEntry>, changes: seq<Change>, k: Kernel, at: int, want: Interest) {
    && (forall fd :: fd in io ==> CountsOk(fd, io[fd]))
    && IndexOk(io, changes)
    && (forall fd :: fd in io ==>
          InStep(io[fd].idxPlus1, changes, Bits(k, fd), if fd == at then want else WantedBy(io[fd])))
    && (forall fd :: fd in k ==> fd in io)
    && NoIdleWatch(k)
  }

  /** The kernel is what the base believes it to be, except for fds that were closed behind its back:
      those it has forgotten. */
  ghost predicate Agrees(kernel: Kernel, believed: Kernel, drifted: set<int>) {
    forall fd :: if fd in drifted then fd !in kernel else Line(kernel, fd) == Line(believed, fd)
  }

  /** Any change that asks for anything brings kernel and belief together again. */
  lemma AgreesApplied(kernel: Kernel, believed: Kernel, drifted: set<int>, c: Change)
    requires Agrees(kernel, believed, drifted)
    ensures Agrees(Applied(kernel, c), Applied(believed, c), if Asks(c) then drifted - {c.fd} else drifted)
  {
    hide Applied, LineAfter, Asks, Line;
    var after := if Asks(c) then drifted - {c.fd} else drifted;
    forall fd
      ensures if fd in after then fd !in Applied(kernel, c) else Line(Applied(kernel, c), fd) == Line(Applied(believed, c), fd)
    {
      AppliedLine(kernel, c, fd);
      AppliedLine(believed, c, fd);
      LineOrNot(kernel, fd);
      LineOrNot(Applied(kernel, c), fd);
      NotAsking(c, Line(kernel, fd));
      NotAsking(c, Line(believed, fd));
      SameOutcome(c, Line(kernel, fd), Line(believed, fd));
    }
  }

  lemma LineOrNot(k: Kernel, fd: int)
    ensures Line(k, fd).Some? <==> fd in k
    ensures Bits(k, fd) == if Line(k, fd).Some? then Line(k, fd).value.on else NOTHING
  {
  }

  lemma SameOutcome(c: Change, was: Option<Watch>, other: Option<Watch>)
    ensures Asks(c) ==> LineAfter(c, was) == LineAfter(c, other)
  {
  }

  lemma SoundFocus(io: map<int, IoEntry>, changes: seq<Change>, k: Kernel, fd: int)
    requires Sound(io, changes, k, -1, NOTHING) && fd in io
    ensures Sound(io, changes, k, fd, WantedBy(io[fd])) && CountsOk(fd, io[fd]) && fd >= 0
  {
    hide Count, InStep, IndexOk, NoIdleWatch, Bits;
  }

  lemma SoundSlot(io: map<int, IoEntry>, changes: seq<Change>, k: Kernel, fd: int)
    requires Sound(io, changes, k, -1, NOTHING) && fd !in io && fd >= 0
    ensures Sound(io[fd := NEW_ENTRY], changes, k, -1, NOTHING)
  {
    hide Count, CountsOk, InStep, IndexOk, NoIdleWatch;
    NewSlot(io, changes, fd);
  }

  lemma SoundAppend(io: map<int, IoEntry>, changes: seq<Change>, k: Kernel, fd: int, want: Interest)
    requires Sound(io, changes, k, fd, want) && fd in io && io[fd].idxPlus1 == 0
    ensures var c := Change(fd, Mask(want), 0, 0, 0);
            Sound(io[fd := io[fd].(idxPlus1 := |changes| + 1)], changes + [c], k, fd, want)
  {
    hide Mask, Count, CountsOk, IndexOk, Target, SaneChange, NoIdleWatch;
    var c := Change(fd, Mask(want), 0, 0, 0);
    BlankChange(fd, want);
    IndexAppend(io, changes, c);
    CountsKept(fd, io[fd], |changes| + 1);
    forall f | f in io && f != fd
      ensures InStep(io[f].idxPlus1, changes + [c], Bits(k, f), WantedBy(io[f]))
    {
      InStepAppend(io[f].idxPlus1, changes, c, Bits(k, f), WantedBy(io[f]));
    }
  }

  lemma SoundSet(io: map<int, IoEntry>, changes: seq<Change>, k: Kernel, fd: int, idx: nat, c: Change,
                 want: Interest, want2: Interest)
    requires Sound(io, changes, k, fd, want) && fd in io && io[fd].idxPlus1 == idx + 1 && idx < |changes|
    requires c.fd == fd && c.prior == changes[idx].prior && SaneChange(c) && Target(c) == want2
    ensures Sound(io, changes[idx := c], k, fd, want2)
  {
    hide Mask, Count, CountsOk, IndexOk, Target, SaneChange, NoIdleWatch;
    IndexBack(io, changes, fd);
    IndexSet(io, changes, idx, c);
    forall f | f in io && f != fd
      ensures InStep(io[f].idxPlus1, changes[idx := c], Bits(k, f), WantedBy(io[f]))
    {
      IndexBack(io, changes, f);
      InStepSet(io[f].idxPlus1, changes, idx, c, Bits(k, f), WantedBy(io[f]));
    }
  }

  /** What a pending record was built on, and where it leads. */
  lemma SoundRecord(io: map<int, IoEntry>, changes: seq<Change>, k: Kernel, fd: int, want: Interest)
    requires Sound(io, changes, k, fd, want) && fd in io
    ensures io[fd].idxPlus1 == 0 ==> Bits(k, fd) == want
    ensures io[fd].idxPlus1 > 0 ==>
      && io[fd].idxPlus1 <= |changes|
      && var c := changes[io[fd].idxPlus1 - 1]; c.fd == fd && SaneChange(c) && c.prior == Mask(Bits(k, fd)) && Target(c) == want
  {
    hide Mask, Count, CountsOk, Target, SaneChange, NoIdleWatch;
    assert InStep(io[fd].idxPlus1, changes, Bits(k, fd), want);
  }

  /** A change that starts from what the kernel has ends in its target. */
  lemma AppliedBits(k: Kernel, c: Change)
    requires SaneChange(c) && c.prior == Mask(Bits(k, c.fd))
    ensures Bits(Applied(k, c), c.fd) == Target(c)
  {
    hide Mask, Has, SaneChange, Applied, AnyPut, AnyDrop;
    AppliedLine(k, c, c.fd);
    LineOrNot(k, c.fd);
    LineOrNot(Applied(k, c), c.fd);
    IdleTarget(c, Bits(k, c.fd));
  }

  lemma IdleTarget(c: Change, was: Interest)
    requires SaneChange(c) && c.prior == Mask(was)
    ensures !Asks(c) ==> Target(c) == was
  {
    hide Mask, VerbOf, Sane, Target;
    TargetFields(c, was);
  }

  lemma AppliedBusy(k: Kernel, c: Change)
    requires NoIdleWatch(k)
    ensures NoIdleWatch(Applied(k, c)) && (forall f :: f in Applied(k, c) ==> f in k || f == c.fd)
    ensures forall f :: f != c.fd ==> Bits(Applied(k, c), f) == Bits(k, f)
  {
    hide Target, Asks, Has;
  }

  lemma SoundApplied(io: map<int, IoEntry>, k: Kernel, c: Change, want: Interest)
    requires Sound(io, [], k, c.fd, want) && c.fd in io && SaneChange(c) && c.prior == Mask(want)
    ensures Sound(io, [], Applied(k, c), c.fd, Target(c))
  {
    hide Mask, Count, CountsOk, Target, SaneChange, NoIdleWatch, Applied;
    SoundRecord(io, [], k, c.fd, want);
    AppliedBits(k, c);
    AppliedBusy(k, c);
  }

  lemma SoundEntry(io: map<int, IoEntry>, changes: seq<Change>, k: Kernel, fd: int, e: IoEntry)
    requires Sound(io, changes, k, fd, WantedBy(e)) && fd in io && e.idxPlus1 == io[fd].idxPlus1 && CountsOk(fd, e)
    ensures Sound(io[fd := e], changes, k, -1, NOTHING)
  {
    hide Mask, Count, NoIdleWatch, InStep, IndexOk;
    IndexEntry(io, changes, fd, e);
    assert -1 !in io;
  }

  /** The slots once nothing is pending. */
  function Settled(io: map<int, IoEntry>): map<int, IoEntry> {
    map fd | fd in io :: io[fd].(idxPlus1 := 0)
  }

  /** Applying everything pending gives every fd what its events ask for. */
  lemma FlushedBits(io: map<int, IoEntry>, changes: seq<Change>, k: Kernel, fd: int)
    requires Sound(io, changes, k, -1, NOTHING)
    ensures Bits(AppliedAll(k, changes, |changes|), fd) == if fd in io then WantedBy(io[fd]) else NOTHING
    ensures fd in AppliedAll(k, changes, |changes|) ==> fd in io && !WantedBy(io[fd]).Empty()
  {
    hide Mask, Count, CountsOk, Target, SaneChange, AppliedAll, LineAfter, Line, InStep;
    var after := AppliedAll(k, changes, |changes|);
    AppliedAllLine(k, io, changes, |changes|, fd);
    LineOrNot(k, fd);
    LineOrNot(after, fd);
    if fd in io {
      SoundFocus(io, changes, k, fd);
      SoundRecord(io, changes, k, fd, WantedBy(io[fd]));
      if io[fd].idxPlus1 > 0 {
        OutcomeBits(changes[io[fd].idxPlus1 - 1], k, fd);
      }
    }
  }

  /** The line after a change, seen through its interest. */
  lemma OutcomeBits(c: Change, k: Kernel, fd: int)
    requires SaneChange(c) && c.fd == fd && c.prior == Mask(Bits(k, fd)) && NoIdleWatch(k)
    ensures var line := LineAfter(c, Line(k, fd));
            && (if line.Some? then line.value.on else NOTHING) == Target(c)
            && (line.Some? ==> !line.value.on.Empty())
  {
    hide Mask, Has, SaneChange, Target, AnyPut, AnyDrop;
    IdleTarget(c, Bits(k, fd));
    LineOrNot(k, fd);
  }

  lemma SoundFlushed(io: map<int, IoEntry>, changes: seq<Change>, k: Kernel)
    requires Sound(io, changes, k, -1, NOTHING)
    ensures Sound(Settled(io), [], AppliedAll(k, changes, |changes|), -1, NOTHING)
  {
    hide Mask, Count, CountsOk, AppliedAll, IndexOk;
    var after := AppliedAll(k, changes, |changes|);
    SettledIndex(io);
    forall fd
      ensures Bits(after, fd) == if fd in io then WantedBy(io[fd]) else NOTHING
      ensures fd in after ==> fd in io && !WantedBy(io[fd]).Empty()
      ensures fd in io ==> CountsOk(fd, Settled(io)[fd])
    {
      FlushedBits(io, changes, k, fd);
      if fd in io {
        CountsKept(fd, io[fd], 0);
      }
    }
    NaturalFds(io);
  }

  lemma SettledIndex(io: map<int, IoEntry>)
    ensures IndexOk(Settled(io), [])
  {
  }

  lemma NaturalFds(io: map<int, IoEntry>)
    requires forall fd :: fd in io ==> CountsOk(fd, io[fd])
    ensures -1 !in io
  {
  }

  /** All that the calls made so far mean for one fd: its events, what is pending for it, the kernel's line,
      and whether it was closed with nothing told to the kernel for it since. */
  datatype Fate = Fate(list: seq<Event>, record: Change, line: Option<Watch>, closed: bool)

  // ----- the event base -----------------------------------------------------------------------------

  /** The I/O part of an event_base, with the kernel behind it. `changelist` says which of the two
      epoll backends is in use. */
  class EventBase {
    const changelist: bool
    var io: map<int, IoEntry>
    var changes: seq<Change>
    var kernel: Kernel
    /** What the kernel would hold if no fd had ever been closed without a delete, and the fds for which
        that is not known to be so. */
    ghost var believed: Kernel
    ghost var drifted: set<int>

    constructor (useChangelist: bool)
      ensures Valid() && Lists() == map[] && changelist == useChangelist && changes == [] && kernel == map[] && drifted == {}
      ensures forall fd :: Record(fd) == Change(fd, 0, 0, 0, 0)
    {
      changelist := useChangelist;
      io, changes, kernel, believed, drifted := map[], [], map[], map[], {};
    }

    ghost function Lists(): Lists
      reads this
    {
      map fd | fd in io :: io[fd].events
    }

    ghost function List(fd: int): seq<Event>
      reads this
    {
      if fd in io then io[fd].events else []
    }

    /** What is pending for an fd. */
    ghost function Record(fd: int): Change
      reads this
    {
      RecordOf(io, changes, fd)
    }

    /** All that is known of an fd. */
    ghost function FateOf(fd: int): Fate
      reads this
    {
      Fate(List(fd), Record(fd), Line(kernel, fd), fd in drifted)
    }

    ghost predicate ValidFor(at: int, want: Interest)
      reads this
    {
      && Sound(io, changes, believed, at, want)
      && Agrees(kernel, believed, drifted)
      && (!changelist ==> changes == [])
    }

    ghost predicate Valid()
      reads this
    {
      ValidFor(-1, NOTHING)
    }

    /** epoll_apply_one_change. Whatever the kernel thought of the fd before (it may have been closed
        and opened again), a change that asks for anything ends in exactly its target. */
    method ApplyOne(c: Change) returns (r: int)
      requires SaneChange(c)
      modifies this`kernel
      ensures r == 0 && kernel == Applied(old(kernel), c)
      ensures EdgeSet(kernel, c.fd, c)
    {
      AppliedEdge(kernel, c);
      hide TableEntry, TableIndex, SaneChange, EdgeFlag, EpollCtl, Applied, Fits;
      TableFits(c);
      var e := TableEntry(TableIndex(c));
      var w := Watch(e.events, EdgeFlag(c));
      TheNewLine(c, e);
      FitApplies(kernel, c, e, w);
      if e.events == NOTHING {
        return 0;
      }
      var (err, k) := EpollCtl(kernel, e.op, c.fd, w);
      if err == OK {
        kernel := k;
        return 0;
      }
      match e.op
      case CtlMod =>
        var (err2, k2) := EpollCtl(kernel, CtlAdd, c.fd, w);
        if err2 != OK {
          return -1;
        }
        kernel := k2;
        return 0;
      case CtlAdd =>
        var (err2, k2) := EpollCtl(kernel, CtlMod, c.fd, w);
        if err2 != OK {
          return -1;
        }
        kernel := k2;
        return 0;
      case _ =>
        return 0;
    }

    /** Tell the kernel; the belief follows. */
    method Tell(c: Change) returns (r: int)
      requires SaneChange(c) && Agrees(kernel, believed, drifted)
      modifies this`kernel, this`believed, this`drifted
      ensures r == 0 && kernel == Applied(old(kernel), c) && believed == Applied(old(believed), c)
      ensures Agrees(kernel, believed, drifted) && drifted == old(drifted) - (if Asks(c) then {c.fd} else {})
    {
      hide Applied, Agrees, SaneChange, AnyPut, AnyDrop;
      AgreesApplied(kernel, believed, drifted, c);
      assert !Asks(c) ==> drifted - {} == drifted;
      r := ApplyOne(c);
      believed := Applied(believed, c);
      drifted := drifted - (if Asks(c) then {c.fd} else {});
    }

    /** An fd is closed, and perhaps opened again, without its events being deleted: the kernel forgets
        it and the base does not know. */
    method CloseBehind(fd: int)
      requires Valid()
      modifies this`kernel, this`drifted
      ensures Valid() && kernel == old(kernel) - {fd} && drifted == old(drifted) + {fd}
    {
      hide Sound;
      kernel := kernel - {fd};
      drifted := drifted + {fd};
    }

    /** event_changelist_get_or_construct: `prior` is what the counts of the fd asked for so far. */
    method GetOrConstruct(fd: int, prior: bv16, ghost want: Interest) returns (idx: nat)
      requires ValidFor(fd, want) && fd in io && changelist && prior == Mask(want) && WantedBy(io[fd]) == want
      modifies this`changes, this`io
      ensures ValidFor(fd, want) && idx < |changes| && changes[idx] == old(Record(fd)) && changes[idx].fd == fd
      ensures io == old(io)[fd := old(io)[fd].(idxPlus1 := idx + 1)]
      ensures forall f :: Record(f) == old(Record(f))
    {
      hide Mask, Sound, Agrees;
      SoundRecord(io, changes, believed, fd, want);
      if io[fd].idxPlus1 == 0 {
        idx := |changes|;
        SoundAppend(io, changes, believed, fd, want);
        RecordsAppend(io, changes, believed, fd, want);
        changes := changes + [Change(fd, prior, 0, 0, 0)];
        io := io[fd := io[fd].(idxPlus1 := idx + 1)];
      } else {
        idx := io[fd].idxPlus1 - 1;
        assert io == old(io)[fd := old(io)[fd].(idxPlus1 := idx + 1)];
      }
    }

    static lemma RecordsAppend(io: map<int, IoEntry>, changes: seq<Change>, k: Kernel, fd: int, want: Interest)
      requires Sound(io, changes, k, fd, want) && fd in io && io[fd].idxPlus1 == 0 && WantedBy(io[fd]) == want
      ensures var c := Change(fd, Mask(want), 0, 0, 0);
              var io1 := io[fd := io[fd].(idxPlus1 := |changes| + 1)];
              forall f :: RecordOf(io1, changes + [c], f) == RecordOf(io, changes, f)
    {
      hide Mask, InStep, CountsOk, NoIdleWatch;
    }

    /** Overwrite the record of `fd` by one with the same fd and prior events but another target. */
    method SetChange(fd: int, idx: nat, c: Change, ghost want: Interest, ghost want2: Interest)
      requires ValidFor(fd, want) && fd in io && changelist && io[fd].idxPlus1 == idx + 1 && idx < |changes|
      requires c.fd == fd && c.prior == changes[idx].prior && SaneChange(c) && Target(c) == want2
      modifies this`changes
      ensures ValidFor(fd, want2)
      ensures forall f :: Record(f) == if f == fd then c else old(Record(f))
    {
      hide Mask, Sound, Agrees, SaneChange, Target;
      SoundSet(io, changes, believed, fd, idx, c, want, want2);
      RecordsSet(io, changes, believed, fd, want, idx, c);
      changes := changes[idx := c];
    }

    static lemma RecordsSet(io: map<int, IoEntry>, changes: seq<Change>, k: Kernel, fd: int, want: Interest, idx: nat, c: Change)
      requires Sound(io, changes, k, fd, want) && fd in io && io[fd].idxPlus1 == idx + 1 && idx < |changes|
      ensures forall f :: RecordOf(io, changes[idx := c], f) == if f == fd then c else RecordOf(io, changes, f)
    {
      hide Mask, InStep, CountsOk, NoIdleWatch, IndexOk;
      forall f
        ensures RecordOf(io, changes[idx := c], f) == if f == fd then c else RecordOf(io, changes, f)
      {
        IndexBack(io, changes, fd);
        if f in io {
          IndexBack(io, changes, f);
        }
      }
    }

    /** event_changelist_add_. */
    method ChangelistAdd(fd: int, prior: bv16, flags: bv16, ghost want: Interest, ghost res: Interest, ghost et: bool)
      returns (r: int)
      requires ValidFor(fd, want) && fd in io && changelist && prior == Mask(want) && WantedBy(io[fd]) == want
      requires flags == Flags(et, res)
      modifies this`changes, this`io
      ensures ValidFor(fd, Union(want, res)) && r == 0
      ensures fd in io && io == old(io)[fd := old(io)[fd].(idxPlus1 := io[fd].idxPlus1)] && io[fd].idxPlus1 > 0
      ensures forall f :: Record(f) == if f == fd then WithAdd(old(Record(fd)), flags) else old(Record(f))
    {
      hide Mask, Sound, Agrees, WithAdd, SaneChange, Target;
      var idx := GetOrConstruct(fd, prior, want);
      SoundRecord(io, changes, believed, fd, want);
      AddMovesTarget(changes[idx], res, et);
      SetChange(fd, idx, WithAdd(changes[idx], flags), want, Union(want, res));
      return 0;
    }

    /** event_changelist_del_. */
    method ChangelistDel(fd: int, prior: bv16, flags: bv16, ghost want: Interest, ghost res: Interest) returns (r: int)
      requires ValidFor(fd, want) && fd in io && changelist && prior == Mask(want) && WantedBy(io[fd]) == want
      requires flags == Mask(res)
      modifies this`changes, this`io
      ensures ValidFor(fd, Minus(want, res)) && r == 0
      ensures fd in io && io == old(io)[fd := old(io)[fd].(idxPlus1 := io[fd].idxPlus1)] && io[fd].idxPlus1 > 0
      ensures forall f :: Record(f) == if f == fd then WithDel(old(Record(fd)), flags) else old(Record(f))
    {
      hide Mask, Sound, Agrees, WithDel, SaneChange, Target;
      var idx := GetOrConstruct(fd, prior, want);
      SoundRecord(io, changes, believed, fd, want);
      DelMovesTarget(changes[idx], Bits(believed, fd), res);
      SetChange(fd, idx, WithDel(changes[idx], flags), want, Minus(want, res));
      return 0;
    }

    /** Tell the kernel at once; nothing is pending for any fd. */
    method ApplyNow(c: Change, ghost want: Interest) returns (r: int)
      requires ValidFor(c.fd, want) && c.fd in io && !changelist && SaneChange(c) && c.prior == Mask(want)
      modifies this`kernel, this`believed, this`drifted
      ensures ValidFor(c.fd, Target(c)) && r == 0
      ensures kernel == Applied(old(kernel), c) && drifted == old(drifted) - (if Asks(c) then {c.fd} else {})
    {
      hide Mask, Sound, Agrees, Applied, SaneChange, Target;
      SoundApplied(io, believed, c, want);
      r := Tell(c);
    }

    /** epoll_nochangelist_add. */
    method NochangelistAdd(fd: int, prior: bv16, flags: bv16, ghost want: Interest, ghost res: Interest, ghost et: bool)
      returns (r: int)
      requires ValidFor(fd, want) && fd in io && !changelist && prior == Mask(want)
      requires flags == Flags(et, res)
      modifies this`kernel, this`believed, this`drifted
      ensures ValidFor(fd, Union(want, res)) && r == 0
      ensures var c := WithAdd(Change(fd, prior, 0, 0, 0), flags);
              kernel == Applied(old(kernel), c) && drifted == old(drifted) - (if Asks(c) then {fd} else {})
    {
      hide Mask, Sound, Agrees, WithAdd, SaneChange, Target, Applied, Asks;
      BlankChange(fd, want);
      var c := Change(fd, prior, 0, 0, 0);
      AddMovesTarget(c, res, et);
      r := ApplyNow(WithAdd(c, flags), want);
    }

    /** epoll_nochangelist_del. */
    method NochangelistDel(fd: int, prior: bv16, flags: bv16, ghost want: Interest, ghost res: Interest) returns (r: int)
      requires ValidFor(fd, want) && fd in io && !changelist && prior == Mask(want) && flags == Mask(res)
      modifies this`kernel, this`believed, this`drifted
      ensures ValidFor(fd, Minus(want, res)) && r == 0
      ensures var c := PlainDel(fd, prior, flags);
              kernel == Applied(old(kernel), c) && drifted == old(drifted) - (if Asks(c) then {fd} else {})
    {
      hide Mask, Sound, Agrees, SaneChange, Target, Applied, Asks, PlainDel;
      PlainDelTarget(fd, want, res);
      r := ApplyNow(PlainDel(fd, prior, flags), want);
    }

    /** GET_IO_SLOT_AND_CTOR: a fresh slot for an fd seen for the first time. */
    method MakeSlot(fd: int)
      requires Valid() && fd >= 0
      modifies this`io
      ensures Valid() && fd in io && io == old(io)[fd := if fd in old(io) then old(io)[fd] else NEW_ENTRY]
      ensures Lists() == old(Lists())[fd := ListOf(old(Lists()), fd)]
      ensures forall f :: Record(f) == old(Record(f)) && List(f) == old(List(f))
    {
      hide Sound, Agrees, Mask;
      if fd !in io {
        SoundSlot(io, changes, believed, fd);
        io := io[fd := NEW_ENTRY];
      }
    }

    /** `evsel->add` of the backend in use. */
    method BackendAdd(fd: int, prior: bv16, flags: bv16, ghost want: Interest, ghost res: Interest, ghost et: bool)
      returns (r: int)
      requires ValidFor(fd, want) && fd in io && prior == Mask(want) && WantedBy(io[fd]) == want
      requires flags == Flags(et, res)
      modifies this`io, this`changes, this`kernel, this`believed, this`drifted
      ensures ValidFor(fd, Union(want, res)) && r == 0
      ensures fd in io && io == old(io)[fd := old(io)[fd].(idxPlus1 := io[fd].idxPlus1)]
      ensures changelist ==> kernel == old(kernel) && drifted == old(drifted) && 0 < io[fd].idxPlus1 <= |changes|
                             && forall f :: Record(f) == if f == fd then WithAdd(old(Record(fd)), flags) else old(Record(f))
      ensures !changelist ==>
        var c := WithAdd(Change(fd, prior, 0, 0, 0), flags);
        kernel == Applied(old(kernel), c) && drifted == old(drifted) - (if Asks(c) then {fd} else {})
    {
      hide Mask, Sound, Agrees, Applied, WithAdd, Asks;
      if changelist {
        r := ChangelistAdd(fd, prior, flags, want, res, et);
        SoundRecord(io, changes, believed, fd, Union(want, res));
      } else {
        r := NochangelistAdd(fd, prior, flags, want, res, et);
        assert io == io[fd := io[fd].(idxPlus1 := io[fd].idxPlus1)];
      }
    }

    /** `evsel->del` of the backend in use. */
    method BackendDel(fd: int, prior: bv16, flags: bv16, ghost want: Interest, ghost res: Interest) returns (r: int)
      requires ValidFor(fd, want) && fd in io && prior == Mask(want) && WantedBy(io[fd]) == want && flags == Mask(res)
      modifies this`io, this`changes, this`kernel, this`believed, this`drifted
      ensures ValidFor(fd, Minus(want, res)) && r == 0
      ensures fd in io && io == old(io)[fd := old(io)[fd].(idxPlus1 := io[fd].idxPlus1)]
      ensures changelist ==> kernel == old(kernel) && drifted == old(drifted) && 0 < io[fd].idxPlus1 <= |changes|
                             && forall f :: Record(f) == if f == fd then WithDel(old(Record(fd)), flags) else old(Record(f))
      ensures !changelist ==>
        var c := PlainDel(fd, prior, flags);
        kernel == Applied(old(kernel), c) && drifted == old(drifted) - (if Asks(c) then {fd} else {})
    {
      hide Mask, Sound, Agrees, Applied, WithDel, Asks, PlainDel;
      if changelist {
        r := ChangelistDel(fd, prior, flags, want, res);
        SoundRecord(io, changes, believed, fd, Minus(want, res));
      } else {
        r := NochangelistDel(fd, prior, flags, want, res);
        assert io == io[fd := io[fd].(idxPlus1 := io[fd].idxPlus1)];
      }
    }

    /** Store the new counts and list of `fd`; the backend already works towards them. */
    method SetEntry(fd: int, e: IoEntry)
      requires ValidFor(fd, WantedBy(e)) && fd in io && e.idxPlus1 == io[fd].idxPlus1 && CountsOk(fd, e)
      requires 0 < e.idxPlus1 <= |changes| || WantedBy(e) == WantedBy(io[fd]) || !changelist
      modifies this`io
      ensures Valid() && Lists() == old(Lists())[fd := e.events] && io.Keys == old(io).Keys
      ensures changelist ==> forall f :: Record(f) == old(Record(f))
      ensures forall f :: f != fd ==> List(f) == old(List(f))
      ensures List(fd) == e.events
    {
      hide Mask, Count, CountsOk, Sound, Agrees;
      SoundEntry(io, changes, believed, fd, e);
      io := io[fd := e];
    }

    /** evmap_io_add_. With the changelist the kernel is left alone and the record of the fd takes up
        the add; without it the kernel is told at once. Either happens exactly when the interest in
        the fd changes. */
    method IoAdd(ev: Event) returns (r: int)
      requires Valid()
      modifies this`io, this`changes, this`kernel, this`believed, this`drifted
      ensures Valid() && Lists() == ListsAfterAdd(old(Lists()), ev)
      ensures r == if ev.fd < 0 then 0
                   else if TooMany(old(List(ev.fd)), ev) then -1
                   else if Wanted([ev] + old(List(ev.fd))) != Wanted(old(List(ev.fd))) then 1 else 0
      ensures Added(ev, r)
      ensures !changelist && r == 1 ==>
        var list := old(List(ev.fd));
        var gained := Minus(Wanted([ev] + list), Wanted(list));
        Edge(kernel, ev.fd) <==> Has(ev.flags, EV_ET) && (gained.rd || gained.wr)
    {
      hide ValidFor, Wanted, TooMany, Mask, Applied, AddFlags, AddNow, WithAdd, Has, Minus;
      if ev.fd < 0 {
        return 0;
      }
      EdgeOfAdd(kernel, List(ev.fd), ev);
      MakeSlot(ev.fd);
      r := AddToSlot(ev);
    }

    /** What adding `ev` does to kernel, records and drift. */
    twostate predicate Added(ev: Event, r: int)
      reads this
    {
      var list := old(List(ev.fd));
      if r != 1 then kernel == old(kernel) && drifted == old(drifted) && (changelist ==> forall f :: Record(f) == old(Record(f)))
      else if changelist then
        && kernel == old(kernel) && drifted == old(drifted)
        && forall f :: Record(f) == if f == ev.fd then WithAdd(old(Record(f)), AddFlags(list, ev)) else old(Record(f))
      else kernel == Applied(old(kernel), AddNow(list, ev)) && drifted == old(drifted) - {ev.fd}
    }

    /** What deleting `ev` does to kernel, records and drift. */
    twostate predicate Deleted(ev: Event, r: int)
      requires r == 1 ==> ev in old(List(ev.fd))
      reads this
    {
      var list := old(List(ev.fd));
      if r != 1 then kernel == old(kernel) && drifted == old(drifted) && (changelist ==> forall f :: Record(f) == old(Record(f)))
      else if changelist then
        && kernel == old(kernel) && drifted == old(drifted)
        && forall f :: Record(f) == if f == ev.fd then WithDel(old(Record(f)), DelFlags(list, ev)) else old(Record(f))
      else kernel == Applied(old(kernel), DelNow(list, ev)) && drifted == old(drifted) - {ev.fd}
    }

    /** The rest of evmap_io_add_, once the fd has a slot. */
    method AddToSlot(ev: Event) returns (r: int)
      requires Valid() && ev.fd in io
      modifies this`io, this`changes, this`kernel, this`believed, this`drifted
      ensures Valid()
      ensures var list := old(io)[ev.fd].events;
              if TooMany(list, ev) then r == -1 && Lists() == old(Lists())
              else Lists() == old(Lists())[ev.fd := [ev] + list]
                   && r == if Wanted([ev] + list) != Wanted(list) then 1 else 0
      ensures Added(ev, r)
    {
      hide ValidFor, Mask, Has, CountsOk, TooMany, Count, Applied, WithAdd, Wanted, RecordOf;
      var fd, e := ev.fd, io[ev.fd];
      Focus(fd);
      var bumped := Bumped(e, ev);
      BumpedCounts(fd, e, ev);
      if bumped.nread > MAX_COUNT || bumped.nwrite > MAX_COUNT || bumped.nclose > MAX_COUNT {
        return -1;
      }
      assert WantedBy(e) == Wanted(e.events);
      var res := Interest(bumped.nread == 1 && Has(ev.flags, EV_READ), bumped.nwrite == 1 && Has(ev.flags, EV_WRITE),
                          bumped.nclose == 1 && Has(ev.flags, EV_CLOSED));
      assert WantedBy(bumped) == Union(WantedBy(e), res) && res == Minus(WantedBy(bumped), WantedBy(e));
      r := StoreAdd(ev, bumped, res);
    }

    /** The end of evmap_io_add_: tell the backend if anything is new, then store list and counts. */
    method StoreAdd(ev: Event, bumped: IoEntry, res: Interest) returns (r: int)
      requires ev.fd in io && ValidFor(ev.fd, WantedBy(io[ev.fd])) && CountsOk(ev.fd, bumped)
      requires WantedBy(io[ev.fd]) == Wanted(io[ev.fd].events) && bumped.events == [ev] + io[ev.fd].events
      requires WantedBy(bumped) == Wanted(bumped.events)
      requires WantedBy(bumped) == Union(WantedBy(io[ev.fd]), res) && res == Minus(WantedBy(bumped), WantedBy(io[ev.fd]))
      modifies this`io, this`changes, this`kernel, this`believed, this`drifted
      ensures Valid() && Lists() == old(Lists())[ev.fd := bumped.events]
      ensures r == if res != NOTHING then 1 else 0
      ensures Added(ev, r)
    {
      hide ValidFor, Mask, Has, CountsOk, TooMany, Count, Applied, WithAdd, Wanted, RecordOf, WantedBy, Minus, Union, AddFlags, AddNow;
      var fd := ev.fd;
      ghost var want := WantedBy(io[fd]);
      r := 0;
      if res != NOTHING {
        AddFlagsAre(io[fd].events, ev, res);
        var flags := (ev.flags & EV_ET) | Mask(res);
        r := BackendAdd(fd, Mask(WantedBy(io[fd])), flags, want, res, Has(ev.flags, EV_ET));
        if r == -1 {
          return -1;
        }
        r := 1;
      } else {
        NothingNew(want, res);
      }
      CountsKept(fd, bumped, io[fd].idxPlus1);
      Unfocus(fd, WantedBy(bumped));
      SameWanted(bumped, io[fd].idxPlus1);
      SetEntry(fd, bumped.(idxPlus1 := io[fd].idxPlus1));
    }

    static lemma AddFlagsAre(list: seq<Event>, ev: Event, res: Interest)
      requires res == Minus(Wanted([ev] + list), Wanted(list)) && res != NOTHING
      ensures (ev.flags & EV_ET) | Mask(res) == AddFlags(list, ev) == Flags(Has(ev.flags, EV_ET), res)
      ensures AddNow(list, ev) == WithAdd(Change(ev.fd, Mask(Wanted(list)), 0, 0, 0), AddFlags(list, ev))
      ensures Asks(AddNow(list, ev))
    {
      hide Mask, Wanted, WithAdd, Asks, Has, Flags, Minus;
      FlagsAre(ev.flags, res);
      AddAsks(ev.fd, Wanted(list), res, Has(ev.flags, EV_ET));
    }

    static lemma NothingNew(want: Interest, res: Interest)
      ensures res == NOTHING ==> Union(want, res) == want && Minus(want, res) == want
    {
    }

    static lemma SameWanted(e: IoEntry, idxPlus1: nat)
      ensures WantedBy(e.(idxPlus1 := idxPlus1)) == WantedBy(e)
    {
    }

    lemma Focus(fd: int)
      requires Valid() && fd in io
      ensures ValidFor(fd, WantedBy(io[fd])) && CountsOk(fd, io[fd]) && fd >= 0
    {
      hide Sound, Agrees, CountsOk;
      SoundFocus(io, changes, believed, fd);
    }

    lemma Unfocus(fd: int, want: Interest)
      requires ValidFor(fd, want) && fd in io
      ensures io[fd].idxPlus1 <= |changes|
    {
      hide Mask;
      SoundRecord(io, changes, believed, fd, want);
    }

    /** evmap_io_del_, for an event that is on the list of its fd. */
    method IoDel(ev: Event) returns (r: int)
      requires Valid() && (ev.fd >= 0 ==> ev in List(ev.fd))
      modifies this`io, this`changes, this`kernel, this`believed, this`drifted
      ensures Valid() && Lists() == ListsAfterDel(old(Lists()), ev)
      ensures r == if ev.fd >= 0 && Wanted(Without(old(List(ev.fd)), ev)) != Wanted(old(List(ev.fd))) then 1 else 0
      ensures Deleted(ev, r)
      ensures !changelist && ev.fd >= 0 ==>
        var list := old(List(ev.fd));
        Edge(kernel, ev.fd) <==> old(Edge(kernel, ev.fd)) && Wanted(Without(list, ev)) == Wanted(list)
    {
      hide ValidFor, Mask, Has, CountsOk, Count, Applied, WithDel, Wanted, RecordOf, PlainDel, Without, DelFlags, DelNow;
      var fd := ev.fd;
      if fd < 0 {
        return 0;
      }
      var e := io[fd];
      Focus(fd);
      LoweredCounts(fd, e, ev);
      var lowered := Lowered(e, ev);
      var res := Interest(lowered.nread == 0 && Has(ev.flags, EV_READ), lowered.nwrite == 0 && Has(ev.flags, EV_WRITE),
                          lowered.nclose == 0 && Has(ev.flags, EV_CLOSED));
      assert WantedBy(lowered) == Minus(WantedBy(e), res) && res == Minus(WantedBy(e), WantedBy(lowered));
      EdgeOfDel(kernel, e.events, ev);
      r := StoreDel(ev, lowered, res);
    }

    /** The end of evmap_io_del_: tell the backend if anything is no longer asked for, then store list and
        counts. */
    method StoreDel(ev: Event, lowered: IoEntry, res: Interest) returns (r: int)
      requires ev.fd in io && ValidFor(ev.fd, WantedBy(io[ev.fd])) && CountsOk(ev.fd, lowered) && ev in io[ev.fd].events
      requires WantedBy(io[ev.fd]) == Wanted(io[ev.fd].events) && lowered.events == Without(io[ev.fd].events, ev)
      requires WantedBy(lowered) == Wanted(lowered.events)
      requires WantedBy(lowered) == Minus(WantedBy(io[ev.fd]), res) && res == Minus(WantedBy(io[ev.fd]), WantedBy(lowered))
      modifies this`io, this`changes, this`kernel, this`believed, this`drifted
      ensures Valid() && Lists() == old(Lists())[ev.fd := lowered.events]
      ensures r == if res != NOTHING then 1 else 0
      ensures Deleted(ev, r)
    {
      hide ValidFor, Mask, Has, CountsOk, Count, Applied, WithDel, Wanted, RecordOf, PlainDel, Without, WantedBy, Minus, DelFlags, DelNow;
      var fd := ev.fd;
      ghost var want := WantedBy(io[fd]);
      r := 0;
      if res != NOTHING {
        DelFlagsAre(io[fd].events, ev, res);
        r := BackendDel(fd, Mask(WantedBy(io[fd])), Mask(res), want, res);
        r := if r == -1 then -1 else 1;
      } else {
        NothingNew(want, res);
      }
      CountsKept(fd, lowered, io[fd].idxPlus1);
      Unfocus(fd, WantedBy(lowered));
      SameWanted(lowered, io[fd].idxPlus1);
      SetEntry(fd, lowered.(idxPlus1 := io[fd].idxPlus1));
    }

    static lemma DelFlagsAre(list: seq<Event>, ev: Event, res: Interest)
      requires ev in list && res == Minus(Wanted(list), Wanted(Without(list, ev))) && res != NOTHING
      ensures Mask(res) == DelFlags(list, ev) && DelNow(list, ev) == PlainDel(ev.fd, Mask(Wanted(list)), Mask(res))
      ensures Asks(DelNow(list, ev))
    {
      hide Mask, Wanted, PlainDel, Asks, Minus, Without;
      DelAsks(ev.fd, Wanted(list), res);
    }

    /** epoll_apply_changes: each change in turn goes to the kernel. */
    method ApplyChanges() returns (r: int)
      requires Valid()
      modifies this`kernel, this`believed, this`drifted
      ensures r == 0 && kernel == AppliedAll(old(kernel), changes, |changes|)
      ensures believed == AppliedAll(old(believed), changes, |changes|)
      ensures Agrees(kernel, believed, drifted) && drifted <= old(drifted)
      ensures forall fd :: fd in drifted <==> fd in old(drifted) && !Asks(old(Record(fd)))
    {
      hide Applied, Agrees, Sound, Asks, SaneChange, Mask;
      r := 0;
      var i := 0;
      AllSane(io, changes, believed);
      RecordsAsk(io, changes, believed);
      while i < |changes|
        invariant 0 <= i <= |changes| && r == 0
        invariant kernel == AppliedAll(old(kernel), changes, i) && believed == AppliedAll(old(believed), changes, i)
        invariant Agrees(kernel, believed, drifted)
        invariant drifted == old(drifted) - (set j | 0 <= j < i && Asks(changes[j]) :: changes[j].fd)
        modifies this`kernel, this`believed, this`drifted
      {
        var one := Tell(changes[i]);
        if one < 0 {
          r := -1;
        }
        i := i + 1;
      }
    }

    static lemma AllSane(io: map<int, IoEntry>, changes: seq<Change>, k: Kernel)
      requires Sound(io, changes, k, -1, NOTHING)
      ensures forall i :: 0 <= i < |changes| ==> SaneChange(changes[i])
    {
      hide SaneChange, InStep;
      forall i | 0 <= i < |changes|
        ensures SaneChange(changes[i])
      {
        var fd := changes[i].fd;
        SoundFocus(io, changes, k, fd);
        SoundRecord(io, changes, k, fd, WantedBy(io[fd]));
      }
    }

    static lemma RecordsAsk(io: map<int, IoEntry>, changes: seq<Change>, k: Kernel)
      requires Sound(io, changes, k, -1, NOTHING)
      ensures forall fd :: Asks(RecordOf(io, changes, fd)) <==> fd in set j | 0 <= j < |changes| && Asks(changes[j]) :: changes[j].fd
    {
      hide Asks, Mask, InStep, CountsOk, NoIdleWatch;
      forall fd
        ensures Asks(RecordOf(io, changes, fd)) <==> fd in set j | 0 <= j < |changes| && Asks(changes[j]) :: changes[j].fd
      {
        BlankAsksNothing(fd, if fd in io then WantedBy(io[fd]) else NOTHING);
      }
    }

    /** event_changelist_remove_all_. */
    method RemoveAll()
      requires IndexOk(io, changes)
      modifies this`io, this`changes
      ensures changes == [] && io == Settled(old(io))
    {
      var i := 0;
      while i < |changes|
        invariant 0 <= i <= |changes| && io.Keys == old(io).Keys && changes == old(changes)
        invariant forall fd :: fd in io && old(io)[fd].idxPlus1 <= i ==> io[fd] == old(io)[fd].(idxPlus1 := 0)
        invariant forall fd :: fd in io && old(io)[fd].idxPlus1 > i ==> io[fd] == old(io)[fd]
      {
        var fd := changes[i].fd;
        assert io[fd].idxPlus1 == i + 1;
        io := io[fd := io[fd].(idxPlus1 := 0)];
        i := i + 1;
      }
      changes := [];
      assert forall fd :: fd in io ==> io[fd] == Settled(old(io))[fd];
    }

    /** The start of epoll_dispatch: everything pending goes to the kernel. For each fd its line in the
        kernel is the one its record leaves; edge triggering is what the record's read and write
        fields say if it asks for anything, and what it was if not. */
    method Dispatch() returns (r: int)
      requires Valid()
      modifies this`io, this`changes, this`kernel, this`believed, this`drifted
      ensures Valid() && r == 0 && changes == [] && Lists() == old(Lists())
      ensures forall fd :: Bits(kernel, fd) == if fd in drifted then NOTHING else Wanted(ListOf(Lists(), fd))
      ensures drifted <= old(drifted)
      ensures forall fd :: Line(kernel, fd) == LineAfter(old(Record(fd)), old(Line(kernel, fd)))
      ensures forall fd :: fd in drifted <==> fd in old(drifted) && !Asks(old(Record(fd)))
      ensures forall fd :: EdgeSet(kernel, fd, old(Record(fd)))
      ensures forall fd :: List(fd) == old(List(fd)) && Record(fd) == Change(fd, Mask(Wanted(List(fd))), 0, 0, 0)
    {
      hide Mask, Agrees, AppliedAll, Sound, LineAfter, Asks, Line, RecordOf, IndexOk, EdgeSet;
      SoundFlushed(io, changes, believed);
      SoundIndex(io, changes, believed);
      r := ApplyChanges();
      forall fd
        ensures Line(kernel, fd) == LineAfter(old(Record(fd)), old(Line(kernel, fd)))
      {
        RecordLine(old(kernel), io, changes, fd);
      }
      ghost var told := kernel;
      forall fd
        ensures EdgeSet(told, fd, old(Record(fd)))
      {
        LineEdges(told, fd, old(Record(fd)), old(Line(kernel, fd)));
      }
      RemoveAll();
      QuietServed();
      SettledRecords();
    }

    static lemma SoundIndex(io: map<int, IoEntry>, changes: seq<Change>, k: Kernel)
      requires Sound(io, changes, k, -1, NOTHING)
      ensures IndexOk(io, changes)
    {
    }

    static lemma RecordLine(k: Kernel, io: map<int, IoEntry>, changes: seq<Change>, fd: int)
      requires IndexOk(io, changes)
      ensures Line(AppliedAll(k, changes, |changes|), fd) == LineAfter(RecordOf(io, changes, fd), Line(k, fd))
    {
      hide Mask, AppliedAll, LineAfter, Line, Asks;
      AppliedAllLine(k, io, changes, |changes|, fd);
      if fd in io {
        IndexBack(io, changes, fd);
      }
      var was := if fd in io then WantedBy(io[fd]) else NOTHING;
      BlankAsksNothing(fd, was);
      NotAsking(Change(fd, Mask(was), 0, 0, 0), Line(k, fd));
    }

    /** With nothing pending, every fd that has not drifted is watched for what its events ask for; so
        the immediate backend always serves. */
    lemma QuietServed()
      requires Valid() && changes == []
      ensures forall fd :: Bits(kernel, fd) == if fd in drifted then NOTHING else Wanted(ListOf(Lists(), fd))
      ensures forall fd :: List(fd) == ListOf(Lists(), fd) && (fd in io ==> WantedBy(io[fd]) == Wanted(List(fd)))
    {
      hide Mask, Count;
      forall fd
        ensures Bits(kernel, fd) == if fd in drifted then NOTHING else Wanted(ListOf(Lists(), fd))
        ensures List(fd) == ListOf(Lists(), fd) && (fd in io ==> WantedBy(io[fd]) == Wanted(List(fd)))
      {
        LineOrNot(kernel, fd);
        LineOrNot(believed, fd);
        NoneWanted();
        if fd in io {
          SoundFocus(io, changes, believed, fd);
          SoundRecord(io, changes, believed, fd, WantedBy(io[fd]));
        }
      }
    }

    static lemma NoneWanted()
      ensures Wanted([]) == NOTHING
    {
    }

    lemma SettledRecords()
      requires Valid() && changes == []
      ensures forall fd :: Record(fd) == Change(fd, Mask(Wanted(List(fd))), 0, 0, 0)
    {
      hide Mask, Count, Sound;
      QuietServed();
      NoneWanted();
    }

    /** Coalescing: an fd never has two pending changes, and none of them is nonsensical. */
    lemma OneChangePerFd()
      requires Valid()
      ensures forall i, j :: 0 <= i < j < |changes| ==> changes[i].fd != changes[j].fd
      ensures forall i :: 0 <= i < |changes| ==>
                SaneChange(changes[i]) && TableEntry(TableIndex(changes[i])).op != CtlBad
    {
      hide Mask, Count, Has, InStep, CountsOk;
      AllSane(io, changes, believed);
      forall i | 0 <= i < |changes|
        ensures TableEntry(TableIndex(changes[i])).op != CtlBad
      {
        NeverBad(changes[i]);
      }
    }

    static lemma NeverBad(c: Change)
      requires SaneChange(c)
      ensures TableEntry(TableIndex(c)).op != CtlBad
    {
      hide TableEntry, TableIndex, Target, SaneChange, InterestOf;
      TableMeaning(c);
    }
  }

  // ----- runs -------------------------------------------------------------------------------------

  datatype Op = AddEvent(ev: Event) | DelEvent(ev: Event) | DispatchAll | CloseFd(fd: int)

  /** Only events on a list are deleted. */
  predicate Allowed(lists: Lists, op: Op) {
    op.DelEvent? && op.ev.fd >= 0 ==> op.ev in ListOf(lists, op.ev.fd)
  }

  function After1(lists: Lists, op: Op): Lists {
    match op
    case AddEvent(ev) => ListsAfterAdd(lists, ev)
    case DelEvent(ev) => ListsAfterDel(lists, ev)
    case _ => lists
  }

  predicate AllAllowed(lists: Lists, ops: seq<Op>)
    decreases |ops|
  {
    ops == [] || (Allowed(lists, ops[0]) && AllAllowed(After1(lists, ops[0]), ops[1..]))
  }

  function AfterAll(lists: Lists, ops: seq<Op>): Lists
    decreases |ops|
  {
    if ops == [] then lists else AfterAll(After1(lists, ops[0]), ops[1..])
  }

  /** No fd is closed with events on it. */
  predicate Tidy(ops: seq<Op>) {
    forall i :: 0 <= i < |ops| ==> !ops[i].CloseFd?
  }

  function Blank(fd: int, list: seq<Event>): Change {
    Change(fd, Mask(Wanted(list)), 0, 0, 0)
  }

  function FirstFate(fd: int): Fate {
    Fate([], Blank(fd, []), None, false)
  }

  /** A changed list matters further only when it asks for something else: with the changelist the new
      record is kept, without it the kernel is told. */
  function Told(changelist: bool, f: Fate, list: seq<Event>, record: Change, change: Change): Fate {
    if Wanted(list) == Wanted(f.list) then f.(list := list)
    else if changelist then f.(list := list, record := record)
    else Fate(list, Blank(change.fd, list), LineAfter(change, f.line), false)
  }

  /** What a call means for an fd. A dispatch hands the record to the kernel, and only a record that asks for
      something makes a closed fd known again. */
  function Next(changelist: bool, fd: int, f: Fate, op: Op): Fate {
    match op
    case AddEvent(ev) =>
      if ev.fd != fd || fd < 0 || TooMany(f.list, ev) then f
      else Told(changelist, f, [ev] + f.list, WithAdd(f.record, AddFlags(f.list, ev)), AddNow(f.list, ev))
    case DelEvent(ev) =>
      if ev.fd != fd || fd < 0 || ev !in f.list then f
      else Told(changelist, f, Without(f.list, ev), WithDel(f.record, DelFlags(f.list, ev)), DelNow(f.list, ev))
    case DispatchAll =>
      Fate(f.list, Blank(fd, f.list), LineAfter(f.record, f.line), f.closed && !Asks(f.record))
    case CloseFd(g) =>
      if g == fd then f.(line := None, closed := true) else f
  }

  /** What a sequence of calls means for an fd. */
  function Fates(changelist: bool, fd: int, f: Fate, ops: seq<Op>): Fate
    decreases |ops|
  {
    if ops == [] then f else Fates(changelist, fd, Next(changelist, fd, f, ops[0]), ops[1..])
  }

  // ----- edge triggering, told without records -------------------------------------------------------

  /** What the calls since the last dispatch come to for one condition: the last of them that changed it was an
      add, or a delete of what was in force; and whether it was an add of an edge-triggered event. */
  datatype Last = Last(verb: Verb, et: bool)

  const STILL := Last(Keep, false)

  function Gained(last: Last, gained: bool, et: bool): Last {
    if gained then Last(Put, et) else last
  }

  function Lost(last: Last, lost: bool, was: bool): Last {
    if lost then Last(if was then Drop else Keep, false) else last
  }

  /** An fd: its events, what was asked for at the last dispatch, what has happened to each condition since, and
      whether the kernel watches it edge-triggered. */
  datatype Story = Story(list: seq<Event>, was: Interest, rd: Last, wr: Last, cl: Last, edge: bool) {
    predicate Quiet() {
      rd.verb == Keep && wr.verb == Keep && cl.verb == Keep
    }
  }

  /** What a call means for the story. With the changelist a dispatch with anything to tell sets edge triggering
      if the last change of reading or of writing was an edge-triggered add; without it every add and delete
      that changes the interest sets it by itself. */
  function Heard(changelist: bool, fd: int, e: Story, op: Op): Story {
    match op
    case AddEvent(ev) =>
      if ev.fd != fd || fd < 0 || TooMany(e.list, ev) then e
      else
        var list, et := [ev] + e.list, Has(ev.flags, EV_ET);
        var gain := Minus(Wanted(list), Wanted(e.list));
        if Wanted(list) == Wanted(e.list) then e.(list := list)
        else if changelist then
          e.(list := list, rd := Gained(e.rd, gain.rd, et), wr := Gained(e.wr, gain.wr, et), cl := Gained(e.cl, gain.cl, et))
        else Story(list, Wanted(list), STILL, STILL, STILL, et && (gain.rd || gain.wr))
    case DelEvent(ev) =>
      if ev.fd != fd || fd < 0 || ev !in e.list then e
      else
        var list := Without(e.list, ev);
        var gone := Minus(Wanted(e.list), Wanted(list));
        if Wanted(list) == Wanted(e.list) then e.(list := list)
        else if changelist then
          e.(list := list, rd := Lost(e.rd, gone.rd, e.was.rd), wr := Lost(e.wr, gone.wr, e.was.wr), cl := Lost(e.cl, gone.cl, e.was.cl))
        else Story(list, Wanted(list), STILL, STILL, STILL, false)
    case DispatchAll =>
      Story(e.list, Wanted(e.list), STILL, STILL, STILL,
            if e.Quiet() then e.edge else Wanted(e.list) != NOTHING && (e.rd.et || e.wr.et))
    case CloseFd(g) =>
      if g == fd then e.(edge := false) else e
  }

  function HeardAll(changelist: bool, fd: int, e: Story, ops: seq<Op>): Story
    decreases |ops|
  {
    if ops == [] then e else HeardAll(changelist, fd, Heard(changelist, fd, e, ops[0]), ops[1..])
  }

  /** A change field, read as what happened to its condition. */
  function LastOf(field: bv16): Last {
    Last(if Sane(field) then VerbOf(field) else Keep, Has(field, EV_ET))
  }

  predicate LineEdge(line: Option<Watch>) {
    line.Some? && line.value.et
  }

  function StoryOf(f: Fate): Story {
    Story(f.list, InterestOf(f.record.prior), LastOf(f.record.read), LastOf(f.record.write), LastOf(f.record.close), LineEdge(f.line))
  }

  /** What holds of every fd of a base. */
  ghost predicate FateOk(changelist: bool, fd: int, f: Fate) {
    && SaneChange(f.record) && f.record.prior == Mask(InterestOf(f.record.prior)) && Target(f.record) == Wanted(f.list)
    && (!changelist ==> f.record == Blank(fd, f.list))
  }

  lemma BlankStory(fd: int, list: seq<Event>)
    ensures var c := Blank(fd, list);
            && SaneChange(c) && c.prior == Mask(InterestOf(c.prior)) && Target(c) == Wanted(list) && InterestOf(c.prior) == Wanted(list)
            && LastOf(c.read) == LastOf(c.write) == LastOf(c.close) == STILL
  {
    hide Wanted;
    BlankChange(fd, Wanted(list));
    MaskRoundTrip(Wanted(list));
  }

  lemma AddHeard(c: Change, res: Interest, et: bool)
    requires SaneChange(c)
    ensures var d := WithAdd(c, Flags(et, res));
            && SaneChange(d) && d.prior == c.prior && LastOf(d.read) == Gained(LastOf(c.read), res.rd, et)
            && LastOf(d.write) == Gained(LastOf(c.write), res.wr, et) && LastOf(d.close) == Gained(LastOf(c.close), res.cl, et)
  {
    hide Target;
    AddMovesTarget(c, res, et);
    AddBits(res, et);
    AddMode(Flags(et, res));
  }

  lemma AddMode(flags: bv16)
    ensures Has(CHANGE_ADD | (flags & (EV_ET | EV_PERSIST | EV_SIGNAL)), EV_ET) <==> Has(flags, EV_ET)
  {
  }

  lemma DelHeard(c: Change, was: Interest, res: Interest)
    requires SaneChange(c) && c.prior == Mask(was)
    ensures var d := WithDel(c, Mask(res));
            && SaneChange(d) && d.prior == c.prior && LastOf(d.read) == Lost(LastOf(c.read), res.rd, was.rd)
            && LastOf(d.write) == Lost(LastOf(c.write), res.wr, was.wr) && LastOf(d.close) == Lost(LastOf(c.close), res.cl, was.cl)
  {
    hide Mask, WithDel, Target;
    DelMovesTarget(c, was, res);
    DelRecord(c, was, res);
  }

  lemma AsksHeard(c: Change)
    requires SaneChange(c)
    ensures Asks(c) <==> LastOf(c.read).verb != Keep || LastOf(c.write).verb != Keep || LastOf(c.close).verb != Keep
  {
  }

  lemma HeardDispatch(changelist: bool, fd: int, f: Fate)
    requires FateOk(changelist, fd, f)
    ensures FateOk(changelist, fd, Next(changelist, fd, f, DispatchAll))
    ensures StoryOf(Next(changelist, fd, f, DispatchAll)) == Heard(changelist, fd, StoryOf(f), DispatchAll)
  {
    hide Wanted, Mask, Target, Asks, VerbOf, Has, InterestOf, Sane;
    BlankStory(fd, f.list);
    AsksHeard(f.record);
    EdgeIsEither(f.record);
  }

  lemma HeardAdd(changelist: bool, fd: int, f: Fate, ev: Event)
    requires FateOk(changelist, fd, f)
    ensures FateOk(changelist, fd, Next(changelist, fd, f, AddEvent(ev)))
    ensures StoryOf(Next(changelist, fd, f, AddEvent(ev))) == Heard(changelist, fd, StoryOf(f), AddEvent(ev))
  {
    hide Wanted, Mask, Target, LastOf, Has, InterestOf, Sane, WithAdd, Flags, TooMany, AddNow, LineAfter, Minus, LineEdge, Gained;
    var list, et := [ev] + f.list, Has(ev.flags, EV_ET);
    var gain := Minus(Wanted(list), Wanted(f.list));
    if ev.fd == fd && Wanted(list) != Wanted(f.list) {
      WantedGrows(f.list, ev);
      MinusUnion(Wanted(list), Wanted(f.list));
      AddMovesTarget(f.record, gain, et);
      AddHeard(f.record, gain, et);
      BlankStory(fd, list);
      AddNowEdge(f.list, ev, f.line);
      AddFd(f.list, ev);
    }
  }

  lemma MinusUnion(a: Interest, b: Interest)
    ensures Union(a, b) == a ==> Union(b, Minus(a, b)) == a
    ensures Union(a, b) == a && Minus(a, b) == NOTHING ==> a == b
  {
  }

  /** The line an add leaves without the changelist. */
  lemma AddNowEdge(list: seq<Event>, ev: Event, line: Option<Watch>)
    requires Wanted([ev] + list) != Wanted(list)
    ensures var gained := Minus(Wanted([ev] + list), Wanted(list));
            LineEdge(LineAfter(AddNow(list, ev), line)) <==> Has(ev.flags, EV_ET) && (gained.rd || gained.wr)
  {
    hide Wanted, Mask, Target, Asks, WithAdd, Flags, EdgeFlag, SaneChange, Has;
    var was, gained, et := Wanted(list), Minus(Wanted([ev] + list), Wanted(list)), Has(ev.flags, EV_ET);
    WantedGrows(list, ev);
    MinusUnion(Wanted([ev] + list), was);
    AddAsks(ev.fd, was, gained, et);
    BlankChange(ev.fd, was);
    AddMovesTarget(Change(ev.fd, Mask(was), 0, 0, 0), gained, et);
    EdgeFields(ev.fd, was, gained, et);
  }

  lemma HeardDel(changelist: bool, fd: int, f: Fate, ev: Event)
    requires FateOk(changelist, fd, f)
    ensures FateOk(changelist, fd, Next(changelist, fd, f, DelEvent(ev)))
    ensures StoryOf(Next(changelist, fd, f, DelEvent(ev))) == Heard(changelist, fd, StoryOf(f), DelEvent(ev))
  {
    hide Wanted, Mask, Target, LastOf, Has, InterestOf, Sane, WithDel, Without, DelNow, LineAfter, LineEdge, Minus, Lost;
    if ev.fd == fd && ev in f.list {
      var list := Without(f.list, ev);
      var gone := Minus(Wanted(f.list), Wanted(list));
      WantedShrinks(f.list, ev);
      DelMovesTarget(f.record, InterestOf(f.record.prior), gone);
      DelHeard(f.record, InterestOf(f.record.prior), gone);
      BlankStory(fd, f.list);
      BlankStory(fd, list);
      MinusAgain(Wanted(f.list), Wanted(list));
      AddFd(f.list, ev);
      if Wanted(list) != Wanted(f.list) {
        DelNowEdge(f.list, ev, f.line);
      }
    }
  }

  lemma MinusAgain(a: Interest, b: Interest)
    ensures Union(a, b) == a ==> Minus(a, Minus(a, b)) == b
    ensures Union(a, b) == a && Minus(a, b) == NOTHING ==> a == b
  {
  }

  /** The line a delete leaves without the changelist. */
  lemma DelNowEdge(list: seq<Event>, ev: Event, line: Option<Watch>)
    requires ev in list && Wanted(Without(list, ev)) != Wanted(list)
    ensures !LineEdge(LineAfter(DelNow(list, ev), line))
  {
    hide Wanted, Mask, Target, Asks, EdgeFlag, SaneChange, PlainDel, Without;
    var was, gone := Wanted(list), Minus(Wanted(list), Wanted(Without(list, ev)));
    WantedShrinks(list, ev);
    MinusAgain(was, Wanted(Without(list, ev)));
    PlainDelTarget(ev.fd, was, gone);
    DelAsks(ev.fd, was, gone);
    PlainEdge(ev.fd, was, gone);
  }

  lemma WantedShrinks(list: seq<Event>, ev: Event)
    requires ev in list
    ensures Union(Wanted(list), Wanted(Without(list, ev))) == Wanted(list)
  {
    hide Without, Has;
    CountWithout(list, ev, EV_READ);
    CountWithout(list, ev, EV_WRITE);
    CountWithout(list, ev, EV_CLOSED);
  }

  lemma PlainEdge(fd: int, was: Interest, res: Interest)
    ensures !EdgeFlag(PlainDel(fd, Mask(was), Mask(res)))
  {
  }

  /** Every call does to the story what it means, whatever the records are made of. */
  lemma HeardNext(changelist: bool, fd: int, f: Fate, op: Op)
    requires FateOk(changelist, fd, f)
    ensures FateOk(changelist, fd, Next(changelist, fd, f, op))
    ensures StoryOf(Next(changelist, fd, f, op)) == Heard(changelist, fd, StoryOf(f), op)
  {
    match op
    case AddEvent(ev) => HeardAdd(changelist, fd, f, ev);
    case DelEvent(ev) => HeardDel(changelist, fd, f, ev);
    case DispatchAll => HeardDispatch(changelist, fd, f);
    case CloseFd(g) =>
  }

  lemma {:induction false} HeardFates(changelist: bool, fd: int, f: Fate, ops: seq<Op>)
    requires FateOk(changelist, fd, f)
    ensures FateOk(changelist, fd, Fates(changelist, fd, f, ops))
    ensures StoryOf(Fates(changelist, fd, f, ops)) == HeardAll(changelist, fd, StoryOf(f), ops)
    decreases |ops|
  {
    if ops != [] {
      hide FateOk, StoryOf, Next, Heard;
      HeardNext(changelist, fd, f, ops[0]);
      HeardFates(changelist, fd, Next(changelist, fd, f, ops[0]), ops[1..]);
    }
  }

  method ExecAdd(base: EventBase, ev: Event)
    requires base.Valid()
    modifies base`io, base`changes, base`kernel, base`believed, base`drifted
    ensures base.Valid() && base.Lists() == ListsAfterAdd(old(base.Lists()), ev)
    ensures forall fd :: base.FateOf(fd) == Next(base.changelist, fd, old(base.FateOf(fd)), AddEvent(ev))
  {
    hide Sound, Agrees, Mask, Applied, Asks, WithAdd, LineAfter, RecordOf, Wanted, TooMany, AddFlags, AddNow, Line, Has;
    AddFd(base.List(ev.fd), ev);
    FateFacts(base);
    var r := base.IoAdd(ev);
    FateFacts(base);
    forall fd
      ensures base.FateOf(fd) == Next(base.changelist, fd, old(base.FateOf(fd)), AddEvent(ev))
    {
      AppliedLine(old(base.kernel), AddNow(old(base.List(ev.fd)), ev), fd);
    }
  }

  lemma AddFd(list: seq<Event>, ev: Event)
    ensures AddNow(list, ev).fd == ev.fd
    ensures ev in list ==> DelNow(list, ev).fd == ev.fd
  {
  }

  /** Two ways to name a list; and without the changelist nothing is ever pending. */
  lemma FateFacts(base: EventBase)
    requires base.Valid()
    ensures forall fd :: base.List(fd) == ListOf(base.Lists(), fd)
    ensures !base.changelist ==> forall fd :: base.Record(fd) == Blank(fd, base.List(fd))
  {
    hide Sound, Agrees, Mask, RecordOf, Wanted;
    if !base.changelist {
      base.SettledRecords();
    }
  }

  method ExecDel(base: EventBase, ev: Event)
    requires base.Valid() && Allowed(base.Lists(), DelEvent(ev))
    modifies base`io, base`changes, base`kernel, base`believed, base`drifted
    ensures base.Valid() && base.Lists() == ListsAfterDel(old(base.Lists()), ev)
    ensures forall fd :: base.FateOf(fd) == Next(base.changelist, fd, old(base.FateOf(fd)), DelEvent(ev))
  {
    hide Sound, Agrees, Mask, Applied, Asks, WithDel, LineAfter, RecordOf, Wanted, DelFlags, DelNow, Line, Without;
    FateFacts(base);
    AddFd(base.List(ev.fd), ev);
    var r := base.IoDel(ev);
    FateFacts(base);
    if ev.fd >= 0 {
      forall fd
        ensures base.FateOf(fd) == Next(base.changelist, fd, old(base.FateOf(fd)), DelEvent(ev))
      {
        AppliedLine(old(base.kernel), DelNow(old(base.List(ev.fd)), ev), fd);
      }
    }
  }

  method ExecDispatch(base: EventBase)
    requires base.Valid()
    modifies base`io, base`changes, base`kernel, base`believed, base`drifted
    ensures base.Valid() && base.Lists() == old(base.Lists())
    ensures forall fd :: base.FateOf(fd) == Next(base.changelist, fd, old(base.FateOf(fd)), DispatchAll)
    ensures forall fd :: Bits(base.kernel, fd) == Served(base.FateOf(fd))
  {
    hide Sound, Agrees, Mask, Asks, LineAfter, RecordOf, Wanted, Line;
    var r := base.Dispatch();
    forall fd
      ensures Bits(base.kernel, fd) == Served(base.FateOf(fd))
    {
      ListsAre(base, fd);
    }
  }

  /** One call, and what it means for every fd. */
  method Exec(base: EventBase, op: Op)
    requires base.Valid() && Allowed(base.Lists(), op)
    modifies base`io, base`changes, base`kernel, base`believed, base`drifted
    ensures base.Valid() && base.Lists() == After1(old(base.Lists()), op)
    ensures forall fd :: base.FateOf(fd) == Next(base.changelist, fd, old(base.FateOf(fd)), op)
  {
    hide Sound, Agrees, Mask, Asks, RecordOf, Wanted;
    match op
    case AddEvent(ev) => ExecAdd(base, ev);
    case DelEvent(ev) => ExecDel(base, ev);
    case DispatchAll => ExecDispatch(base);
    case CloseFd(fd) => base.CloseBehind(fd);
  }

  /** What the kernel watches an fd for after a dispatch. */
  function Served(f: Fate): Interest {
    if f.closed then NOTHING else Wanted(f.list)
  }

  /** Whatever is added, deleted and closed, and however it is coalesced: all there is to know of each fd is
      what the calls mean for it, and after the closing dispatch the kernel watches it for exactly what its
      events ask for, unless it was closed and nothing has been told to the kernel for it since. */
  method Run(base: EventBase, ops: seq<Op>)
    requires base.Valid() && AllAllowed(base.Lists(), ops)
    modifies base`io, base`changes, base`kernel, base`believed, base`drifted
    ensures base.Valid() && base.Lists() == AfterAll(old(base.Lists()), ops)
    ensures forall fd :: base.FateOf(fd) == Fates(base.changelist, fd, old(base.FateOf(fd)), ops + [DispatchAll])
    ensures forall fd :: Bits(base.kernel, fd) == Served(base.FateOf(fd))
    ensures forall fd :: Edge(base.kernel, fd) <==> HeardAll(base.changelist, fd, StoryOf(old(base.FateOf(fd))), ops + [DispatchAll]).edge
  {
    hide Sound, Agrees, Next, EventBase.FateOf, Heard, StoryOf, FateOk;
    ValidFates(base);
    ghost var all := ops + [DispatchAll];
    assert ops[0..] == ops && all[0..] == all;
    for i := 0 to |ops|
      invariant base.Valid() && AllAllowed(base.Lists(), ops[i..])
      invariant AfterAll(base.Lists(), ops[i..]) == AfterAll(old(base.Lists()), ops)
      invariant forall fd :: Fates(base.changelist, fd, base.FateOf(fd), all[i..]) == Fates(base.changelist, fd, old(base.FateOf(fd)), all)
    {
      assert ops[i..][0] == ops[i] && ops[i..][1..] == ops[i + 1..];
      assert all[i..][0] == ops[i] && all[i..][1..] == all[i + 1..];
      Exec(base, ops[i]);
    }
    assert ops[|ops|..] == [] && all[|ops|..][0] == DispatchAll && all[|ops|..][1..] == [];
    ExecDispatch(base);
    forall fd
      ensures Edge(base.kernel, fd) <==> HeardAll(base.changelist, fd, StoryOf(old(base.FateOf(fd))), all).edge
    {
      HeardFates(base.changelist, fd, old(base.FateOf(fd)), all);
      EdgeTold(base, fd);
    }
  }

  lemma EdgeTold(base: EventBase, fd: int)
    ensures StoryOf(base.FateOf(fd)).edge <==> Edge(base.kernel, fd)
  {
    hide RecordOf, LastOf;
  }

  /** What every fd of a base has. */
  lemma ValidFates(base: EventBase)
    requires base.Valid()
    ensures forall fd :: FateOk(base.changelist, fd, base.FateOf(fd))
  {
    hide Mask, Wanted, Target, InterestOf, SaneChange;
    forall fd
      ensures FateOk(base.changelist, fd, base.FateOf(fd))
    {
      hide Sound;
      BlankStory(fd, base.List(fd));
      if fd in base.io {
        SoundFocus(base.io, base.changes, base.believed, fd);
        SoundRecord(base.io, base.changes, base.believed, fd, WantedBy(base.io[fd]));
        CountsWant(fd, base.io[fd]);
        MaskRoundTrip(Bits(base.believed, fd));
      } else {
        base.NoneWanted();
      }
    }
  }

  lemma CountsWant(fd: int, e: IoEntry)
    requires CountsOk(fd, e)
    ensures WantedBy(e) == Wanted(e.events)
  {
  }

  /** Both backends know the same events of an fd; where none of its fds is closed, neither has lost any. */
  lemma {:induction false} FatesTogether(fd: int, f: Fate, g: Fate, ops: seq<Op>)
    requires f.list == g.list
    ensures Fates(true, fd, f, ops).list == Fates(false, fd, g, ops).list
    decreases |ops|
  {
    if ops != [] {
      hide Wanted, TooMany, Without, WithAdd, WithDel, AddNow, DelNow, Asks, LineAfter;
      FatesTogether(fd, Next(true, fd, f, ops[0]), Next(false, fd, g, ops[0]), ops[1..]);
    }
  }

  lemma {:induction false} TidyOpen(changelist: bool, fd: int, f: Fate, ops: seq<Op>)
    requires Tidy(ops) && !f.closed
    ensures !Fates(changelist, fd, f, ops).closed
    decreases |ops|
  {
    if ops != [] {
      hide Wanted, TooMany, Without, WithAdd, WithDel, AddNow, DelNow, Asks, LineAfter;
      assert !ops[0].CloseFd?;
      TidyOpen(changelist, fd, Next(changelist, fd, f, ops[0]), ops[1..]);
    }
  }

  /** What one backend makes of an fd over a run from the start, and a closing dispatch. */
  function FinalFate(changelist: bool, fd: int, ops: seq<Op>): Fate {
    Fates(changelist, fd, FirstFate(fd), ops + [DispatchAll])
  }

  /** The changelist backend and the immediate backend leave an fd watched for the same conditions if and
      only if nothing asks for it, or it was closed and not told of since in both or in neither; so always
      when no fd is closed with events on it. Edge triggering may differ even then: EdgesDiffer. */
  method RunBoth(ops: seq<Op>) returns (pending: EventBase, immediate: EventBase)
    requires AllAllowed(map[], ops)
    ensures pending.changelist && !immediate.changelist
    ensures forall fd :: pending.FateOf(fd) == FinalFate(true, fd, ops) && immediate.FateOf(fd) == FinalFate(false, fd, ops)
    ensures forall fd :: Bits(pending.kernel, fd) == Served(FinalFate(true, fd, ops))
    ensures forall fd :: Bits(immediate.kernel, fd) == Served(FinalFate(false, fd, ops))
    ensures forall fd :: Edge(pending.kernel, fd) <==> HeardAll(true, fd, FirstStory(), ops + [DispatchAll]).edge
    ensures forall fd :: Edge(immediate.kernel, fd) <==> HeardAll(false, fd, FirstStory(), ops + [DispatchAll]).edge
    ensures forall fd ::
      var p, q := FinalFate(true, fd, ops), FinalFate(false, fd, ops);
      && p.list == q.list == ListOf(AfterAll(map[], ops), fd)
      && (Bits(pending.kernel, fd) == Bits(immediate.kernel, fd) <==> Wanted(p.list) == NOTHING || p.closed == q.closed)
      && (Tidy(ops) ==> !p.closed && !q.closed)
  {
    hide Sound, Agrees, Fates, Wanted, Mask, RecordOf, HeardAll, StoryOf;
    pending := new EventBase(true);
    immediate := new EventBase(false);
    FreshStory();
    FreshFate(pending);
    FreshFate(immediate);
    Run(pending, ops);
    Run(immediate, ops);
    forall fd
      ensures FinalFate(true, fd, ops).list == FinalFate(false, fd, ops).list == ListOf(AfterAll(map[], ops), fd)
      ensures Tidy(ops) ==> !FinalFate(true, fd, ops).closed && !FinalFate(false, fd, ops).closed
    {
      var all := ops + [DispatchAll];
      FatesTogether(fd, FirstFate(fd), FirstFate(fd), all);
      if Tidy(ops) {
        assert Tidy(all);
        TidyOpen(true, fd, FirstFate(fd), all);
        TidyOpen(false, fd, FirstFate(fd), all);
      }
      ListsAre(pending, fd);
    }
  }

  /** Nothing has happened to an fd. */
  function FirstStory(): Story {
    Story([], NOTHING, STILL, STILL, STILL, false)
  }

  lemma FreshStory()
    ensures forall fd :: StoryOf(FirstFate(fd)) == FirstStory()
  {
    hide Mask;
    forall fd
      ensures StoryOf(FirstFate(fd)) == FirstStory()
    {
      BlankStory(fd, []);
    }
  }

  lemma FreshFate(base: EventBase)
    requires base.Lists() == map[] && base.kernel == map[] && base.drifted == {}
    requires forall fd :: base.Record(fd) == Change(fd, 0, 0, 0, 0)
    ensures forall fd :: base.FateOf(fd) == FirstFate(fd)
  {
    hide RecordOf;
    forall fd
      ensures base.FateOf(fd) == FirstFate(fd)
    {
      ListsAre(base, fd);
      assert Mask(NOTHING) == 0;
    }
  }

  // ----- a run on which the backends differ in edge triggering --------------------------------------

  const EDGE_READ := Event(1, 0, EV_READ | EV_ET)
  const EDGE_WRITE := Event(2, 0, EV_WRITE | EV_ET)

  /** What the two edge-triggered events ask for, one after the other. */
  lemma EdgeEvents()
    ensures Wanted([]) == NOTHING && Wanted([EDGE_READ] + []) == Interest(true, false, false)
    ensures Wanted([EDGE_WRITE] + [EDGE_READ]) == Interest(true, true, false)
    ensures Without([EDGE_WRITE, EDGE_READ], EDGE_READ) == [EDGE_WRITE]
    ensures Wanted([EDGE_WRITE]) == Interest(false, true, false)
    ensures !TooMany([], EDGE_READ) && !TooMany([EDGE_READ], EDGE_WRITE)
    ensures Has(EDGE_READ.flags, EV_ET) && Has(EDGE_WRITE.flags, EV_ET)
  {
    EdgeCounts(EDGE_READ, []);
    EdgeCounts(EDGE_WRITE, []);
    EdgeCounts(EDGE_WRITE, [EDGE_READ]);
    assert [EDGE_WRITE] + [EDGE_READ] == [EDGE_WRITE, EDGE_READ];
    assert [EDGE_READ] + [] == [EDGE_READ] && [EDGE_WRITE] + [] == [EDGE_WRITE];
    var q := [EDGE_WRITE, EDGE_READ];
    assert IndexOf(q[1..], EDGE_READ) == 0;
    assert IndexOf(q, EDGE_READ) == 1;
  }

  lemma EdgeCounts(ev: Event, list: seq<Event>)
    ensures Count([], EV_READ) == 0 && Count([], EV_WRITE) == 0 && Count([], EV_CLOSED) == 0
    ensures forall bit :: Count([ev] + list, bit) == (if Has(ev.flags, bit) then 1 else 0) + Count(list, bit)
    ensures Has(EDGE_READ.flags, EV_READ) && !Has(EDGE_READ.flags, EV_WRITE) && !Has(EDGE_READ.flags, EV_CLOSED)
    ensures !Has(EDGE_WRITE.flags, EV_READ) && Has(EDGE_WRITE.flags, EV_WRITE) && !Has(EDGE_WRITE.flags, EV_CLOSED)
    ensures Has(EDGE_READ.flags, EV_ET) && Has(EDGE_WRITE.flags, EV_ET)
  {
    assert ([ev] + list)[1..] == list;
  }

  /** The changelist's record for fd 0 after both adds and the delete of the read event. */
  lemma EdgeRecord()
    ensures var a := WithAdd(Change(0, 0, 0, 0, 0), Flags(true, Interest(true, false, false)));
            var b := WithAdd(a, Flags(true, Interest(false, true, false)));
            var c := WithDel(b, Mask(Interest(true, false, false)));
            Asks(c) && Target(c) != NOTHING && EdgeFlag(c)
  {
  }

  /** Two edge-triggered events, the read event deleted before the dispatch: the write event that is left
      stays edge-triggered with the changelist and becomes level-triggered without it. */
  method EdgesDiffer() returns (pending: EventBase, immediate: EventBase)
    ensures pending.changelist && !immediate.changelist
    ensures Bits(pending.kernel, 0) == Bits(immediate.kernel, 0) == Interest(false, true, false)
    ensures Edge(pending.kernel, 0) && !Edge(immediate.kernel, 0)
  {
    pending := new EventBase(true);
    EdgeTrial(pending);
    immediate := new EventBase(false);
    EdgeTrial(immediate);
  }

  method EdgeTrial(base: EventBase)
    requires base.Valid() && base.Lists() == map[] && base.drifted == {} && base.Record(0) == Change(0, 0, 0, 0, 0)
    modifies base`io, base`changes, base`kernel, base`believed, base`drifted
    ensures base.Valid() && Bits(base.kernel, 0) == Interest(false, true, false)
    ensures Edge(base.kernel, 0) <==> base.changelist
  {
    hide Sound, Agrees, Mask, Applied, Asks, WithAdd, WithDel, Target, RecordOf, Wanted, Count, TooMany, Has, Flags, NewLine;
    EdgeEvents();
    EdgeRecord();
    ListsAre(base, 0);
    TrialAdd(base, [], EDGE_READ, Interest(true, false, false));
    TrialAdd(base, [EDGE_READ], EDGE_WRITE, Interest(false, true, false));
    TrialDel(base);
    ghost var last := base.Record(0);
    QuietRecord(base, 0);
    var _ := base.Dispatch();
    ListsAre(base, 0);
    if base.changelist {
      assert Line(base.kernel, 0) == Some(NewLine(last));
      EdgeOfLine(last);
    }
  }

  lemma QuietRecord(base: EventBase, fd: int)
    ensures base.changes == [] ==> !Asks(base.Record(fd))
  {
    hide Mask, Asks;
    BlankAsksNothing(fd, if fd in base.io then WantedBy(base.io[fd]) else NOTHING);
  }

  lemma EdgeOfLine(c: Change)
    requires SaneChange(c)
    ensures NewLine(c).et <==> EdgeFlag(c)
  {
    hide Target;
  }

  method TrialAdd(base: EventBase, ghost list: seq<Event>, ev: Event, ghost res: Interest)
    requires base.Valid() && base.List(0) == list && ev.fd == 0 && !TooMany(list, ev) && Has(ev.flags, EV_ET)
    requires res == Minus(Wanted([ev] + list), Wanted(list)) && Wanted([ev] + list) != Wanted(list) && base.drifted == {}
    modifies base`io, base`changes, base`kernel, base`believed, base`drifted
    ensures base.Valid() && base.List(0) == [ev] + list && base.drifted == {}
    ensures base.changelist ==> base.Record(0) == WithAdd(old(base.Record(0)), Flags(true, res))
  {
    hide Sound, Agrees, Mask, Applied, WithAdd, RecordOf, Wanted, Count, TooMany, Has, Flags, Minus, AddNow;
    ListsAre(base, 0);
    var _ := base.IoAdd(ev);
    ListsAre(base, 0);
  }

  method TrialDel(base: EventBase)
    requires base.Valid() && base.List(0) == [EDGE_WRITE] + [EDGE_READ] && base.drifted == {}
    modifies base`io, base`changes, base`kernel, base`believed, base`drifted
    ensures base.Valid() && base.List(0) == [EDGE_WRITE] && base.drifted == {}
    ensures base.changelist ==> base.Record(0) == WithDel(old(base.Record(0)), Mask(Interest(true, false, false)))
    ensures !base.changelist ==> base.changes == [] && !Edge(base.kernel, 0)
  {
    hide Sound, Agrees, Mask, Applied, WithDel, RecordOf, Wanted, Count, TooMany, Has, Without, DelNow;
    EdgeEvents();
    ListsAre(base, 0);
    assert [EDGE_WRITE] + [EDGE_READ] == [EDGE_WRITE, EDGE_READ];
    assert EDGE_READ in base.List(0);
    var _ := base.IoDel(EDGE_READ);
    ListsAre(base, 0);
  }

  lemma ListsAre(base: EventBase, fd: int)
    ensures base.List(fd) == ListOf(base.Lists(), fd)
  {
  }

  // ----- a run on which the backends watch different conditions --------------------------------------

  const READER := Event(1, 0, EV_READ)
  const WRITER := Event(2, 0, EV_WRITE)
  const CLOSED_RUN := [AddEvent(READER), DispatchAll, CloseFd(0), AddEvent(WRITER), DelEvent(WRITER)]

  lemma ReaderWriter()
    ensures Wanted([]) == NOTHING && Wanted([READER]) == Interest(true, false, false)
    ensures Wanted([WRITER, READER]) == Interest(true, true, false)
    ensures !TooMany([], READER) && !TooMany([READER], WRITER) && Without([WRITER, READER], WRITER) == [READER]
  {
    assert [READER][1..] == [] && [WRITER, READER][1..] == [READER];
    assert IndexOf([WRITER, READER], WRITER) == 0;
  }

  /** The write event added and deleted again leaves nothing in the record. */
  lemma Cancelled()
    ensures var c := WithAdd(Blank(0, [READER]), AddFlags([READER], WRITER));
            WRITER in [WRITER, READER] && WithDel(c, DelFlags([WRITER, READER], WRITER)) == Blank(0, [READER])
  {
    hide Wanted, Without;
    ReaderWriter();
    assert [WRITER] + [READER] == [WRITER, READER];
  }

  lemma ClosedFates()
    ensures AllAllowed(map[], CLOSED_RUN)
    ensures FinalFate(true, 0, CLOSED_RUN).list == [READER] && FinalFate(true, 0, CLOSED_RUN).closed
    ensures !FinalFate(false, 0, CLOSED_RUN).closed
  {
    hide Wanted, TooMany, Without, WithAdd, WithDel, AddFlags, DelFlags, AddNow, DelNow, LineAfter, Asks, Mask;
    ReaderWriter();
    Cancelled();
    ClosedAllowed();
    BlankAsksNothing(0, Wanted([READER]));
    forall changelist: bool
      ensures var f := FinalFate(changelist, 0, CLOSED_RUN); f.list == [READER] && (f.closed <==> changelist)
    {
      var all := CLOSED_RUN + [DispatchAll];
      assert all == [AddEvent(READER), DispatchAll, CloseFd(0), AddEvent(WRITER), DelEvent(WRITER), DispatchAll];
      assert [READER] + [] == [READER] && [WRITER] + [READER] == [WRITER, READER];
      AddFd([READER], WRITER);
      AddFd([WRITER, READER], WRITER);
      var f0 := FirstFate(0);
      var f1 := Next(changelist, 0, f0, all[0]);
      var f2 := Next(changelist, 0, f1, all[1]);
      var f3 := Next(changelist, 0, f2, all[2]);
      var f4 := Next(changelist, 0, f3, all[3]);
      var f5 := Next(changelist, 0, f4, all[4]);
      SixSteps(changelist, f0, all);
    }
  }

  lemma FatesFrom(changelist: bool, fd: int, f: Fate, ops: seq<Op>, i: nat)
    requires i < |ops|
    ensures Fates(changelist, fd, f, ops[i..]) == Fates(changelist, fd, Next(changelist, fd, f, ops[i]), ops[i + 1..])
  {
    hide Next;
    assert ops[i..][0] == ops[i] && ops[i..][1..] == ops[i + 1..];
  }

  lemma NoFates(changelist: bool, fd: int, f: Fate)
    ensures Fates(changelist, fd, f, []) == f
  {
  }

  lemma AllowedFrom(lists: Lists, ops: seq<Op>, i: nat)
    requires i < |ops|
    ensures Allowed(lists, ops[i]) && AllAllowed(After1(lists, ops[i]), ops[i + 1..]) ==> AllAllowed(lists, ops[i..])
    ensures AllAllowed(lists, ops[|ops|..])
  {
    hide After1, Allowed;
    assert ops[i..][0] == ops[i] && ops[i..][1..] == ops[i + 1..];
  }

  lemma ClosedAllowed()
    ensures AllAllowed(map[], CLOSED_RUN)
  {
    hide Wanted, AllAllowed, TooMany, Without;
    ReaderWriter();
    var ops := CLOSED_RUN;
    assert [READER] + [] == [READER] && [WRITER] + [READER] == [WRITER, READER] && ops[0..] == ops;
    var l1: Lists := map[0 := [READER]];
    var l2: Lists := map[0 := [WRITER, READER]];
    AllowedFrom(l2, ops, 4);
    AllowedFrom(After1(l2, ops[4]), ops, 4);
    assert After1(l1, ops[3]) == l2;
    AllowedFrom(l1, ops, 3);
    AllowedFrom(l1, ops, 2);
    AllowedFrom(l1, ops, 1);
    assert After1(map[], ops[0]) == l1;
    AllowedFrom(map[], ops, 0);
  }

  lemma SixSteps(changelist: bool, f: Fate, ops: seq<Op>)
    requires |ops| == 6
    ensures var f1 := Next(changelist, 0, f, ops[0]);
            var f2 := Next(changelist, 0, f1, ops[1]);
            var f3 := Next(changelist, 0, f2, ops[2]);
            var f4 := Next(changelist, 0, f3, ops[3]);
            var f5 := Next(changelist, 0, f4, ops[4]);
            Fates(changelist, 0, f, ops) == Next(changelist, 0, f5, ops[5])
  {
    hide Next, Fates;
    var f1 := Next(changelist, 0, f, ops[0]);
    var f2 := Next(changelist, 0, f1, ops[1]);
    var f3 := Next(changelist, 0, f2, ops[2]);
    var f4 := Next(changelist, 0, f3, ops[3]);
    var f5 := Next(changelist, 0, f4, ops[4]);
    assert ops[0..] == ops && ops[6..] == [];
    FatesFrom(changelist, 0, f, ops, 0);
    FatesFrom(changelist, 0, f1, ops, 1);
    FatesFrom(changelist, 0, f2, ops, 2);
    FatesFrom(changelist, 0, f3, ops, 3);
    FatesFrom(changelist, 0, f4, ops, 4);
    FatesFrom(changelist, 0, f5, ops, 5);
    NoFates(changelist, 0, Next(changelist, 0, f5, ops[5]));
  }

  /** A read event whose fd is closed behind the base's back; then a write event comes and goes before the
      dispatch. With the changelist the two cancel, and the kernel does not watch the fd; without it the kernel
      is told, and watches for reading again. */
  method ClosedDiffers() returns (pending: EventBase, immediate: EventBase)
    ensures pending.changelist && !immediate.changelist && pending.List(0) == immediate.List(0) == [READER]
    ensures Bits(pending.kernel, 0) == NOTHING && Bits(immediate.kernel, 0) == Interest(true, false, false)
  {
    hide Wanted, Fates, Next;
    ClosedFates();
    ReaderWriter();
    pending, immediate := RunBoth(CLOSED_RUN);
    assert pending.FateOf(0) == FinalFate(true, 0, CLOSED_RUN);
    assert immediate.FateOf(0) == FinalFate(false, 0, CLOSED_RUN);
  }
}
