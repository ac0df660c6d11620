/** Whole runs over several evbuffers, against plain byte queues. */
module BufferRuns {
  import opened Basics
  import opened Chains
  import opened EvBuffers

  /** What an evbuffer stands for: a byte string and its two freeze flags. */
  datatype Queue = Queue(bytes: seq<Byte>, frontFrozen: bool, endFrozen: bool)

  datatype Op =
    | OpAdd(b: nat, data: seq<Byte>)
    | OpPrepend(b: nat, data: seq<Byte>)
    | OpDrain(b: nat, len: nat)
    | OpRemove(b: nat, len: nat)
    | OpPullup(b: nat, size: int)
    | OpExpand(b: nat, len: nat)
    | OpRead(b: nat, howmuch: int, readable: int, input: Option<seq<Byte>>)
    | OpAddBuffer(dst: nat, src: nat)
    | OpRemoveBuffer(src: nat, dst: nat, len: nat)
    | OpFreeze(b: nat, front: bool, frozen: bool)

  /** The return code and the bytes handed back. */
  datatype Out = Out(result: int, data: seq<Byte>)

  predicate Named(w: seq<Queue>, op: Op) {
    match op
    case OpAddBuffer(dst, src) => dst < |w| && src < |w|
    case OpRemoveBuffer(src, dst, _) => dst < |w| && src < |w|
    case _ => op.b < |w|
  }

  /** What is alive fits the address space, so that no allocation is refused half-way and no length wraps. */
  predicate Fits(w: seq<Queue>, op: Op)
    requires Named(w, op)
  {
    match op
    case OpPrepend(b, data) => |data| <= MAX_PAYLOAD && |w[b].bytes| + |data| <= SIZE_MAX
    case OpExpand(b, len) => len <= MAX_PAYLOAD - MAX_TO_COPY_IN_EXPAND
    case OpRead(b, _, _, _) => |w[b].bytes| + MAX_READ <= SIZE_MAX
    case OpAddBuffer(dst, src) => dst != src ==> |w[dst].bytes| + |w[src].bytes| <= SIZE_MAX
    case OpRemoveBuffer(src, dst, _) => dst != src ==> |w[dst].bytes| + |w[src].bytes| <= SIZE_MAX
    case _ => true
  }

  function Code(ok: bool): int {
    if ok then 0 else -1
  }

  /** One operation on plain byte queues. */
  function Step(w: seq<Queue>, op: Op): (r: (seq<Queue>, Out))
    requires Named(w, op)
    ensures |r.0| == |w|
  {
    match op
    case OpAdd(b, data) =>
      if w[b].endFrozen || |data| > MAX_PAYLOAD || |w[b].bytes| + |data| > SIZE_MAX then (w, Out(-1, []))
      else (w[b := w[b].(bytes := w[b].bytes + data)], Out(0, []))
    case OpPrepend(b, data) =>
      if w[b].frontFrozen then (w, Out(-1, []))
      else (w[b := w[b].(bytes := data + w[b].bytes)], Out(0, []))
    case OpDrain(b, len) =>
      if w[b].bytes == [] then (w, Out(0, []))
      else if w[b].frontFrozen then (w, Out(-1, []))
      else (w[b := w[b].(bytes := w[b].bytes[Min(len, |w[b].bytes|)..])], Out(0, []))
    case OpRemove(b, len) =>
      var n := Min(len, |w[b].bytes|);
      if n > 0 && w[b].frontFrozen then (w, Out(-1, []))
      else (w[b := w[b].(bytes := w[b].bytes[n..])], Out(n, w[b].bytes[..n]))
    case OpPullup(b, size) =>
      var n := if size < 0 then |w[b].bytes| else size;
      if 0 < n <= |w[b].bytes| && n <= MAX_PAYLOAD then (w, Out(0, w[b].bytes[..n])) else (w, Out(-1, []))
    case OpExpand(b, len) => (w, Out(0, []))
    case OpRead(b, howmuch, readable, input) =>
      if w[b].endFrozen || input.None? then (w, Out(-1, []))
      else
        var n := Min(|input.value|, ReadAmount(howmuch, readable));
        (w[b := w[b].(bytes := w[b].bytes + input.value[..n])], Out(n, []))
    case OpAddBuffer(dst, src) =>
      if w[src].bytes == [] || dst == src then (w, Out(0, []))
      else if w[dst].endFrozen || w[src].frontFrozen then (w, Out(-1, []))
      else (w[dst := w[dst].(bytes := w[dst].bytes + w[src].bytes)][src := w[src].(bytes := [])], Out(0, []))
    case OpRemoveBuffer(src, dst, len) =>
      var n := Min(len, |w[src].bytes|);
      if len == 0 || dst == src then (w, Out(0, []))
      else if w[dst].endFrozen || w[src].frontFrozen then (w, Out(-1, []))
      else (w[dst := w[dst].(bytes := w[dst].bytes + w[src].bytes[..n])][src := w[src].(bytes := w[src].bytes[n..])], Out(n, []))
    case OpFreeze(b, front, frozen) =>
      (w[b := if front then w[b].(frontFrozen := frozen) else w[b].(endFrozen := frozen)], Out(0, []))
  }

  /** A whole run on plain byte queues. */
  function Replay(w: seq<Queue>, ops: seq<Op>): (r: (seq<Queue>, seq<Out>))
    requires Runnable(w, ops)
    decreases |ops|
  {
    if ops == [] then (w, [])
    else
      var now := Step(w, ops[0]);
      var later := Replay(now.0, ops[1..]);
      (later.0, [now.1] + later.1)
  }

  /** Every operation names existing buffers and fits when its turn comes. */
  predicate Runnable(w: seq<Queue>, ops: seq<Op>)
    decreases |ops|
  {
    ops == [] || (Named(w, ops[0]) && Fits(w, ops[0]) && Runnable(Step(w, ops[0]).0, ops[1..]))
  }

  ghost predicate Shows(buf: EvBuffer, q: Queue)
    reads buf
  {
    buf.Valid() && q == Queue(buf.View(), buf.freezeStart, buf.freezeEnd)
  }

  ghost predicate ShowAll(bufs: seq<EvBuffer>, w: seq<Queue>)
    reads bufs
  {
    |bufs| == |w| && forall i :: 0 <= i < |w| ==> Shows(bufs[i], w[i])
  }

  /** An operation of one buffer, done by libevent's code. */
  method ExecOne(buf: EvBuffer, op: Op, ghost w: seq<Queue>) returns (out: Out)
    requires !op.OpAddBuffer? && !op.OpRemoveBuffer? && Named(w, op) && Fits(w, op) && Shows(buf, w[op.b])
    modifies buf
    ensures Shows(buf, Step(w, op).0[op.b]) && out == Step(w, op).1
    ensures forall i :: 0 <= i < |w| && i != op.b ==> Step(w, op).0[i] == w[i]
  {
    hide Flatten, Data, Sharp, Step, Fits;
    if op.OpAdd? || op.OpPrepend? || op.OpDrain? || op.OpRemove? {
      out := ExecBytes(buf, op, w);
    } else {
      out := ExecOther(buf, op, w);
    }
    OthersStay(w, op);
  }

  lemma OthersStay(w: seq<Queue>, op: Op)
    requires !op.OpAddBuffer? && !op.OpRemoveBuffer? && Named(w, op)
    ensures forall i :: 0 <= i < |w| && i != op.b ==> Step(w, op).0[i] == w[i]
  {
  }

  /** Bytes that come and go. */
  method ExecBytes(buf: EvBuffer, op: Op, ghost w: seq<Queue>) returns (out: Out)
    requires (op.OpAdd? || op.OpPrepend? || op.OpDrain? || op.OpRemove?) && Named(w, op) && Fits(w, op) && Shows(buf, w[op.b])
    modifies buf
    ensures Shows(buf, Step(w, op).0[op.b]) && out == Step(w, op).1
  {
    hide Flatten, Data, Sharp;
    match op
    case OpAdd(_, data) =>
      var ok := buf.Add(data);
      out := Out(Code(ok), []);
    case OpPrepend(_, data) =>
      var ok := buf.Prepend(data);
      out := Out(Code(ok), []);
    case OpDrain(_, len) =>
      var ok := buf.Drain(len);
      out := Out(Code(ok), []);
    case OpRemove(_, len) =>
      var n, data := buf.Remove(len);
      out := Out(n, if n == -1 then [] else data);
  }

  /** Operations on the layout, reading from a socket, and freezing. */
  method ExecOther(buf: EvBuffer, op: Op, ghost w: seq<Queue>) returns (out: Out)
    requires (op.OpPullup? || op.OpExpand? || op.OpRead? || op.OpFreeze?) && Named(w, op) && Fits(w, op) && Shows(buf, w[op.b])
    modifies buf
    ensures Shows(buf, Step(w, op).0[op.b]) && out == Step(w, op).1
  {
    hide Flatten, Data, Sharp;
    match op
    case OpPullup(_, size) =>
      var ok := buf.Pullup(size);
      if ok {
        var n := if size < 0 then buf.totalLen else size;
        var c := buf.chains[0];
        out := Out(0, Data(c)[..n]);
      } else {
        out := Out(-1, []);
      }
    case OpExpand(_, len) =>
      var at := buf.ExpandSingleChain(len);
      out := Out(Code(at.Some?), []);
    case OpRead(_, howmuch, readable, input) =>
      var n := buf.Read(howmuch, readable, input);
      out := Out(n, []);
    case OpFreeze(_, front, frozen) =>
      if front {
        buf.freezeStart := frozen;
      } else {
        buf.freezeEnd := frozen;
      }
      out := Out(0, []);
  }

  /** An operation of two buffers, done by libevent's code. */
  method ExecTwo(dst: EvBuffer, src: EvBuffer, op: Op, ghost w: seq<Queue>) returns (out: Out)
    requires (op.OpAddBuffer? || op.OpRemoveBuffer?) && Named(w, op) && Fits(w, op)
    requires Shows(dst, w[op.dst]) && Shows(src, w[op.src]) && (dst == src <==> op.dst == op.src)
    modifies dst, src
    ensures Shows(dst, Step(w, op).0[op.dst]) && Shows(src, Step(w, op).0[op.src]) && out == Step(w, op).1
    ensures forall i :: 0 <= i < |w| && i != op.dst && i != op.src ==> Step(w, op).0[i] == w[i]
  {
    hide Flatten, Data, Sharp;
    match op
    case OpAddBuffer(_, _) =>
      var ok := dst.AddBuffer(src);
      out := Out(Code(ok), []);
    case OpRemoveBuffer(_, _, len) =>
      var n := src.RemoveBuffer(dst, len);
      out := Out(n, []);
  }

  method Exec(bufs: seq<EvBuffer>, op: Op, ghost w: seq<Queue>) returns (out: Out)
    requires Distinct(bufs) && ShowAll(bufs, w) && Named(w, op) && Fits(w, op)
    modifies bufs
    ensures ShowAll(bufs, Step(w, op).0) && out == Step(w, op).1
  {
    hide Step, Fits, Flatten, Data, Sharp;
    if op.OpAddBuffer? || op.OpRemoveBuffer? {
      out := ExecTwo(bufs[op.dst], bufs[op.src], op, w);
    } else {
      out := ExecOne(bufs[op.b], op, w);
    }
  }

  /** Every run of libevent's code on chain lists is the same run on plain byte queues: same contents,
      same return codes, same bytes handed back, and all buffers well formed at the end. */
  method Run(bufs: seq<EvBuffer>, ops: seq<Op>, ghost w: seq<Queue>) returns (outs: seq<Out>)
    requires Distinct(bufs) && ShowAll(bufs, w) && Runnable(w, ops)
    modifies bufs
    ensures ShowAll(bufs, Replay(w, ops).0) && outs == Replay(w, ops).1
  {
    outs := [];
    ghost var now := w;
    assert ops[0..] == ops && [] + Replay(w, ops).1 == Replay(w, ops).1;
    for i := 0 to |ops|
      invariant ShowAll(bufs, now) && Runnable(now, ops[i..])
      invariant Replay(w, ops) == (Replay(now, ops[i..]).0, outs + Replay(now, ops[i..]).1)
    {
      assert ops[i..][0] == ops[i] && ops[i..][1..] == ops[i + 1..];
      var out := Exec(bufs, ops[i], now);
      now := Step(now, ops[i]).0;
      Assoc(outs, [out], Replay(now, ops[i + 1..]).1);
      outs := outs + [out];
    }
    assert ops[|ops|..] == [];
  }
}
