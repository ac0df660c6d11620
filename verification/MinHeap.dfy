/** The timer heap (android/core/src/main/jni/libevent/minheap-internal.h:64-186). */
module MinHeap {
  import opened Basics
  import opened BucketQueues

  function Parent(i: nat): (p: nat)
    requires i > 0
    ensures p < i
  {
    (i - 1) / 2
  }

  /** Nothing is due before its parent. */
  predicate HeapOk(q: seq<Id>, d: map<Id, nat>) {
    forall i {:trigger q[i]} :: 1 <= i < |q| ==> Due(d, q[Parent(i)]) <= Due(d, q[i])
  }

  /** Heap order except between `h` and its parent. */
  predicate UpOk(q: seq<Id>, d: map<Id, nat>, h: nat) {
    && (forall i {:trigger q[i]} :: 1 <= i < |q| && i != h ==> Due(d, q[Parent(i)]) <= Due(d, q[i]))
    && (forall i {:trigger q[i]} :: 1 <= i < |q| && Parent(i) == h && h > 0 ==> Due(d, q[Parent(h)]) <= Due(d, q[i]))
  }

  /** Heap order except between `h` and its children. */
  predicate DownOk(q: seq<Id>, d: map<Id, nat>, h: nat) {
    && (forall i {:trigger q[i]} :: 1 <= i < |q| && Parent(i) != h ==> Due(d, q[Parent(i)]) <= Due(d, q[i]))
    && (forall i {:trigger q[i]} :: 1 <= i < |q| && Parent(i) == h && h > 0 ==> Due(d, q[Parent(h)]) <= Due(d, q[i]))
  }

  function Swap(q: seq<Id>, i: nat, j: nat): (r: seq<Id>)
    requires i < |q| && j < |q|
    ensures |r| == |q| && multiset(r) == multiset(q)
  {
    var r := q[i := q[j]][j := q[i]];
    assert multiset(r) == multiset(q);
    r
  }

  lemma UpStep(q: seq<Id>, d: map<Id, nat>, h: nat)
    requires 0 < h < |q| && UpOk(q, d, h) && Due(d, q[Parent(h)]) > Due(d, q[h])
    ensures UpOk(Swap(q, h, Parent(h)), d, Parent(h))
  {
    var p := Parent(h);
    var r := Swap(q, h, p);
    forall i | 1 <= i < |r| && i != p
      ensures Due(d, r[Parent(i)]) <= Due(d, r[i])
    {
      assert q[i] == r[i] || i == h;
      if p > 0 && i == h {
        assert q[p] == r[h];
      }
    }
    if p > 0 {
      assert Due(d, q[Parent(p)]) <= Due(d, q[p]);
      forall i | 1 <= i < |r| && Parent(i) == p
        ensures Due(d, r[Parent(p)]) <= Due(d, r[i])
      {
        assert i == h || Due(d, q[Parent(i)]) <= Due(d, q[i]);
      }
    }
  }

  /** min_heap_shift_up_: `e` goes into the hole at `h`, and rises to its place. */
  method ShiftUp(q: seq<Id>, h: nat, d: map<Id, nat>) returns (r: seq<Id>)
    requires h < |q| && UpOk(q, d, h)
    ensures HeapOk(r, d) && multiset(r) == multiset(q) && |r| == |q|
  {
    r := q;
    var hole := h;
    while hole > 0 && Due(d, r[Parent(hole)]) > Due(d, r[hole])
      invariant 0 <= hole < |r| == |q| && UpOk(r, d, hole) && multiset(r) == multiset(q)
    {
      UpStep(r, d, hole);
      r, hole := Swap(r, hole, Parent(hole)), Parent(hole);
    }
  }

  /** The child of `h` due first. */
  function MinChild(q: seq<Id>, d: map<Id, nat>, h: nat): (c: nat)
    requires 2 * h + 1 < |q|
    ensures 0 < c < |q| && Parent(c) == h
  {
    var c := 2 * (h + 1);
    if c == |q| || Due(d, q[c]) > Due(d, q[c - 1]) then c - 1 else c
  }

  lemma MinChildFirst(q: seq<Id>, d: map<Id, nat>, h: nat, i: nat)
    requires 2 * h + 1 < |q| && 1 <= i < |q| && Parent(i) == h
    ensures Due(d, q[MinChild(q, d, h)]) <= Due(d, q[i])
  {
    assert i == 2 * h + 1 || i == 2 * h + 2;
  }

  lemma DownStep(q: seq<Id>, d: map<Id, nat>, h: nat)
    requires 2 * h + 1 < |q| && DownOk(q, d, h) && Due(d, q[h]) > Due(d, q[MinChild(q, d, h)])
    ensures DownOk(Swap(q, h, MinChild(q, d, h)), d, MinChild(q, d, h))
  {
    var c := MinChild(q, d, h);
    var r := Swap(q, h, c);
    forall i | 1 <= i < |r| && Parent(i) != c
      ensures Due(d, r[Parent(i)]) <= Due(d, r[i])
    {
      if Parent(i) == h {
        MinChildFirst(q, d, h, i);
      } else if i == h {
        assert q[c] == r[h];
      } else {
        assert q[i] == r[i];
      }
    }
    forall i | 1 <= i < |r| && Parent(i) == c
      ensures Due(d, r[Parent(c)]) <= Due(d, r[i])
    {
      assert q[i] == r[i];
    }
  }

  lemma DownDone(q: seq<Id>, d: map<Id, nat>, h: nat)
    requires h < |q| && DownOk(q, d, h)
    requires 2 * h + 1 < |q| ==> Due(d, q[h]) <= Due(d, q[MinChild(q, d, h)])
    ensures HeapOk(q, d)
  {
    forall i | 1 <= i < |q|
      ensures Due(d, q[Parent(i)]) <= Due(d, q[i])
    {
      if Parent(i) == h {
        MinChildFirst(q, d, h, i);
      }
    }
  }

  /** min_heap_shift_down_. */
  method ShiftDown(q: seq<Id>, h: nat, d: map<Id, nat>) returns (r: seq<Id>)
    requires h < |q| && DownOk(q, d, h)
    ensures HeapOk(r, d) && multiset(r) == multiset(q) && |r| == |q|
  {
    r := q;
    var hole := h;
    while 2 * (hole + 1) <= |r|
      invariant 0 <= hole < |r| == |q| && DownOk(r, d, hole) && multiset(r) == multiset(q)
      decreases |q| - hole
    {
      var c := MinChild(r, d, hole);
      if !(Due(d, r[hole]) > Due(d, r[c])) {
        break;
      }
      DownStep(r, d, hole);
      r, hole := Swap(r, hole, c), c;
    }
    DownDone(r, d, hole);
  }

  /** The end of min_heap_erase_ and min_heap_adjust_: entry `i` goes up or down, as it must. */
  method Settle(q: seq<Id>, i: nat, d: map<Id, nat>) returns (r: seq<Id>)
    requires i < |q| && Distinct(q)
    requires if i > 0 && Due(d, q[Parent(i)]) > Due(d, q[i]) then UpOk(q, d, i) else DownOk(q, d, i)
    ensures HeapOk(r, d) && Distinct(r) && forall x :: x in r <==> x in q
  {
    hide HeapOk, UpOk, DownOk, Distinct;
    if i > 0 && Due(d, q[Parent(i)]) > Due(d, q[i]) {
      r := ShiftUp(q, i, d);
    } else {
      r := ShiftDown(q, i, d);
    }
    SameMembers(q, r);
    SameDistinct(q, r);
  }

  /** The top of a heap is due first. */
  lemma {:induction false} TopFirst(q: seq<Id>, d: map<Id, nat>, i: nat)
    requires HeapOk(q, d) && i < |q|
    ensures Due(d, q[0]) <= Due(d, q[i])
  {
    if i > 0 {
      TopFirst(q, d, Parent(i));
    }
  }

  lemma TopEarliest(q: seq<Id>, d: map<Id, nat>, s: set<Id>)
    requires HeapOk(q, d) && q != [] && Lists(q, s)
    ensures Earliest(s, d, q[0])
  {
    assert q[0] in q;
    forall y | y in s
      ensures Due(d, q[0]) <= Due(d, y)
    {
      TopFirst(q, d, IndexOf(q, y));
    }
  }

  /** min_heap_top_: an event due first. */
  method Top(p: seq<Id>, d: map<Id, nat>, ghost s: set<Id>) returns (x: Option<Id>)
    requires HeapOk(p, d) && Lists(p, s)
    ensures x.None? <==> s == {}
    ensures x.Some? ==> Earliest(s, d, x.value)
  {
    if p == [] {
      return None;
    }
    TopEarliest(p, d, s);
    return Some(p[0]);
  }

  /** min_heap_push_. */
  method Push(p: seq<Id>, x: Id, d: map<Id, nat>, ghost s: set<Id>) returns (r: seq<Id>)
    requires HeapOk(p, d) && Lists(p, s) && x !in s
    ensures HeapOk(r, d) && Lists(r, s + {x})
  {
    hide HeapOk, UpOk;
    PushOk(p, d, x);
    AppendLists(p, s, x);
    r := ShiftUp(p + [x], |p|, d);
    SameMembers(p + [x], r);
    SameDistinct(p + [x], r);
  }

  /** min_heap_erase_ of an event in the heap. */
  method Erase(p: seq<Id>, x: Id, d: map<Id, nat>, ghost s: set<Id>) returns (r: seq<Id>)
    requires HeapOk(p, d) && Lists(p, s) && x in s
    ensures HeapOk(r, d) && Lists(r, s - {x})
  {
    hide HeapOk, UpOk, DownOk, Distinct;
    var i := IndexOf(p, x);
    Dropped(p, x, i);
    var last, q := p[|p| - 1], p[..|p| - 1];
    if i == |q| {
      HeapPrefix(p, d);
      return q;
    }
    Erased(p, d, i);
    r := Settle(q[i := last], i, d);
  }

  /** min_heap_adjust_ after the deadline of `x` alone changed. */
  method Adjust(p: seq<Id>, x: Id, ghost before: map<Id, nat>, d: map<Id, nat>, ghost s: set<Id>) returns (r: seq<Id>)
    requires HeapOk(p, before) && Lists(p, s) && forall y :: y != x ==> Due(d, y) == Due(before, y)
    ensures HeapOk(r, d) && Lists(r, s + {x})
  {
    hide HeapOk, UpOk, DownOk, Distinct;
    if x !in p {
      HeapFrame(p, before, d);
      r := Push(p, x, d, s);
      return;
    }
    var i := IndexOf(p, x);
    AdjustOk(p, before, d, i);
    r := Settle(p, i, d);
  }

  /** Deadlines of things not in the heap do not matter. */
  lemma HeapFrame(p: seq<Id>, before: map<Id, nat>, after: map<Id, nat>)
    requires HeapOk(p, before) && forall x :: x in p ==> Due(after, x) == Due(before, x)
    ensures HeapOk(p, after)
  {
    hide Due;
    forall i | 1 <= i < |p|
      ensures Due(after, p[Parent(i)]) <= Due(after, p[i])
    {
      assert p[i] in p && p[Parent(i)] in p;
    }
  }

  lemma SameMembers(q: seq<Id>, r: seq<Id>)
    requires multiset(q) == multiset(r)
    ensures forall x :: x in q <==> x in r
  {
    forall x
      ensures x in q <==> x in r
    {
      assert x in q <==> multiset(q)[x] > 0;
      assert x in r <==> multiset(r)[x] > 0;
    }
  }

  lemma {:induction false} CountsDistinct(q: seq<Id>)
    requires forall x :: multiset(q)[x] <= 1
    ensures Distinct(q)
  {
    forall i, j | 0 <= i < j < |q|
      ensures q[i] != q[j]
    {
      assert q == q[..j] + [q[j]] + q[j + 1..];
      assert multiset(q)[q[j]] <= 1;
      assert q[..j][i] == q[i];
      assert q[i] in multiset(q[..j]);
    }
  }

  lemma SameDistinct(q: seq<Id>, r: seq<Id>)
    requires multiset(q) == multiset(r) && Distinct(q)
    ensures Distinct(r)
  {
    forall x
      ensures multiset(r)[x] <= 1
    {
      DistinctCount(q, x);
    }
    CountsDistinct(r);
  }

  lemma PushOk(p: seq<Id>, d: map<Id, nat>, x: Id)
    requires HeapOk(p, d)
    ensures UpOk(p + [x], d, |p|)
  {
    hide Due;
    var q := p + [x];
    forall i | 1 <= i < |q| && i != |p|
      ensures Due(d, q[Parent(i)]) <= Due(d, q[i])
    {
      assert q[i] == p[i] && q[Parent(i)] == p[Parent(i)];
    }
  }

  lemma Dropped(p: seq<Id>, x: Id, i: nat)
    requires Distinct(p) && i < |p| && p[i] == x
    ensures var q, last := p[..|p| - 1], p[|p| - 1];
            var r := if i == |q| then q else q[i := last];
            Distinct(r) && forall y :: y in r <==> y in p && y != x
  {
    var q, last := p[..|p| - 1], p[|p| - 1];
    var r := if i == |q| then q else q[i := last];
    forall y
      ensures y in r <==> y in p && y != x
    {
      if y in p && y != x {
        var j := IndexOf(p, y);
        assert if j == |q| then r[i] == y else r[j] == y;
      }
      if y in r {
        var j := IndexOf(r, y);
        assert y == (if j == i then last else p[j]);
      }
    }
  }

  lemma HeapPrefix(p: seq<Id>, d: map<Id, nat>)
    requires HeapOk(p, d) && p != []
    ensures HeapOk(p[..|p| - 1], d)
  {
    var q := p[..|p| - 1];
    forall i | 1 <= i < |q|
      ensures Due(d, q[Parent(i)]) <= Due(d, q[i])
    {
      assert q[i] == p[i] && q[Parent(i)] == p[Parent(i)];
    }
  }

  /** The last entry in place of entry `i` can only be too low or too high there. */
  lemma Erased(p: seq<Id>, d: map<Id, nat>, i: nat)
    requires HeapOk(p, d) && i < |p| - 1
    ensures var q := p[..|p| - 1][i := p[|p| - 1]];
            if i > 0 && Due(d, q[Parent(i)]) > Due(d, q[i]) then UpOk(q, d, i) else DownOk(q, d, i)
  {
    var q := p[..|p| - 1][i := p[|p| - 1]];
    forall j | 1 <= j < |q|
      ensures q[j] == (if j == i then p[|p| - 1] else p[j]) && Due(d, p[Parent(j)]) <= Due(d, p[j])
    {
      assert p[j] == p[j];
    }
    if i > 0 {
      forall j | 1 <= j < |q| && Parent(j) == i
        ensures Due(d, q[Parent(i)]) <= Due(d, q[j])
      {
        assert q[j] == p[j] && Due(d, p[Parent(i)]) <= Due(d, p[i]);
      }
    }
  }

  lemma AdjustOk(p: seq<Id>, before: map<Id, nat>, after: map<Id, nat>, i: nat)
    requires HeapOk(p, before) && Distinct(p) && i < |p|
    requires forall y :: y != p[i] ==> Due(after, y) == Due(before, y)
    ensures if i > 0 && Due(after, p[Parent(i)]) > Due(after, p[i]) then UpOk(p, after, i) else DownOk(p, after, i)
  {
    forall j | 1 <= j < |p| && Parent(j) == i && i > 0
      ensures Due(before, p[Parent(i)]) <= Due(before, p[j])
    {
      assert Due(before, p[Parent(j)]) <= Due(before, p[j]) && Due(before, p[Parent(i)]) <= Due(before, p[i]);
    }
    forall j | 1 <= j < |p|
      ensures Due(before, p[Parent(j)]) <= Due(before, p[j])
    {
      assert p[j] == p[j];
    }
  }
}
