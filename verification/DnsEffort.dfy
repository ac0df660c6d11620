/** How often a request is sent, and that its callback is scheduled once
    (android/core/src/main/jni/libevent/evdns.c:649-735, 836-957, 2161-2286). */
module DnsEffort {
  import opened Basics
  import opened BucketQueues

  /** tx_count, reissue_count and transmit_me of each live request, and how often each request ever
      made was counted as transmitted. */
  datatype Effort = Effort(tx: map<Id, int>, reissues: map<Id, int>, transmitMe: set<Id>, sent: map<Id, int>)

  /** How hard to try: transmissions to a server, and changes of server. */
  datatype Limits = Limits(maxRetransmits: int, maxReissues: nat) {
    /** The number of times a request can be transmitted between reissues. */
    function Tries(): (m: nat)
      ensures m >= 1 && m >= maxRetransmits && (m == 1 || m == maxRetransmits)
    {
      if maxRetransmits < 1 then 1 else maxRetransmits
    }
  }

  function Budget(k: nat, m: nat): nat {
    k * m
  }

  lemma BudgetNext(k: nat, m: nat)
    ensures Budget(k + 1, m) == Budget(k, m) + m
  {
  }

  lemma BudgetGrows(k: nat, n: nat, m: nat)
    requires k <= n
    ensures Budget(k, m) <= Budget(n, m)
  {
    assert Budget(n, m) == Budget(k, m) + (n - k) * m;
    assert (n - k) * m >= 0;
  }

  /** One live request: a transmission is only ever due while tries are left, and every transmission
      is covered by the reissues and the tries used. */
  ghost predicate Trying(e: Effort, l: Limits, x: Id) {
    && x in e.tx && x in e.reissues && x in e.sent
    && 0 <= e.tx[x] <= l.Tries() && 0 <= e.reissues[x] <= l.maxReissues
    && (x in e.transmitMe ==> e.tx[x] < l.Tries())
    && 0 <= e.sent[x] <= Budget(e.reissues[x], l.Tries()) + e.tx[x]
  }

  ghost predicate EffortOk(e: Effort, l: Limits, live: set<Id>, flying: set<Id>, issued: set<Id>) {
    && e.tx.Keys == live && e.reissues.Keys == live && e.transmitMe <= live
    && e.sent.Keys == issued && live <= issued
    && (forall x :: x in live ==> Trying(e, l, x))
    && (forall x :: x in live && x !in flying ==> e.tx[x] == 0)
    && (forall x :: x in issued ==> e.sent[x] <= Budget(l.maxReissues + 1, l.Tries()))
  }

  /** The one bound on transmissions that every request keeps. */
  lemma TryingBound(e: Effort, l: Limits, x: Id)
    requires Trying(e, l, x)
    ensures e.sent[x] <= Budget(l.maxReissues + 1, l.Tries())
  {
    hide Budget;
    BudgetGrows(e.reissues[x], l.maxReissues, l.Tries());
    BudgetNext(l.maxReissues, l.Tries());
  }

  /** request_new. */
  function Fresh(e: Effort, x: Id): Effort {
    Effort(e.tx[x := 0], e.reissues[x := 0], e.transmitMe - {x}, e.sent[x := 0])
  }

  lemma FreshOk(e: Effort, l: Limits, live: set<Id>, flying: set<Id>, issued: set<Id>, x: Id)
    requires EffortOk(e, l, live, flying, issued) && x !in issued
    ensures EffortOk(Fresh(e, x), l, live + {x}, flying, issued + {x})
    ensures EffortOk(Fresh(e, x), l, live + {x}, flying + {x}, issued + {x})
  {
    hide Budget;
    var f := Fresh(e, x);
    forall y | y in live
      ensures Trying(f, l, y)
    {
      assert Trying(e, l, y);
    }
    assert Trying(f, l, x);
  }

  /** evdns_request_transmit marks the request before it tries. */
  function Marked(e: Effort, x: Id): Effort {
    e.(transmitMe := e.transmitMe + {x})
  }

  lemma MarkedOk(e: Effort, l: Limits, live: set<Id>, flying: set<Id>, issued: set<Id>, x: Id)
    requires EffortOk(e, l, live, flying, issued) && x in live && x in e.tx && e.tx[x] < l.Tries()
    ensures EffortOk(Marked(e, x), l, live, flying, issued)
  {
    hide Budget;
    forall y | y in live
      ensures Trying(Marked(e, x), l, y)
    {
      assert Trying(e, l, y);
    }
  }

  /** A transmission is counted. */
  function Counted(e: Effort, x: Id): Effort
    requires x in e.tx && x in e.sent
  {
    Effort(e.tx[x := e.tx[x] + 1], e.reissues, e.transmitMe - {x}, e.sent[x := e.sent[x] + 1])
  }

  lemma CountedOk(e: Effort, l: Limits, live: set<Id>, flying: set<Id>, issued: set<Id>, x: Id)
    requires EffortOk(e, l, live, flying, issued) && x in flying && x in e.tx && x in e.sent && e.tx[x] < l.Tries()
    ensures EffortOk(Counted(e, x), l, live, flying, issued)
  {
    hide Budget;
    var f := Counted(e, x);
    forall y | y in live
      ensures Trying(f, l, y)
    {
      assert Trying(e, l, y);
    }
    TryingBound(f, l, x);
  }

  /** From `e` to `f` some of the requests due for transmission were sent, each of them once, and nothing
      else was counted. */
  ghost predicate Transmitted(e: Effort, f: Effort) {
    && f.reissues == e.reissues && f.tx.Keys == e.tx.Keys && f.sent.Keys == e.sent.Keys && f.transmitMe <= e.transmitMe
    && (forall x :: x in e.tx ==> f.tx[x] == e.tx[x] + (if x in e.transmitMe - f.transmitMe then 1 else 0))
    && (forall x :: x in e.sent ==> f.sent[x] == e.sent[x] + (if x in e.transmitMe - f.transmitMe then 1 else 0))
  }

  lemma TransmittedOne(e: Effort, x: Id)
    requires x in e.transmitMe && x in e.tx && x in e.sent
    ensures Transmitted(e, Marked(e, x)) && Transmitted(e, Counted(Marked(e, x), x))
    ensures Marked(e, x).transmitMe == e.transmitMe && Counted(Marked(e, x), x).transmitMe == e.transmitMe - {x}
  {
  }

  lemma TransmittedMore(e: Effort, f: Effort, g: Effort)
    requires Transmitted(e, f) && Transmitted(f, g)
    ensures Transmitted(e, g)
  {
  }

  /** request_reissue, once another server was found. */
  function Again(e: Effort, x: Id): Effort
    requires x in e.reissues
  {
    Effort(e.tx[x := 0], e.reissues[x := e.reissues[x] + 1], e.transmitMe + {x}, e.sent)
  }

  lemma AgainOk(e: Effort, l: Limits, live: set<Id>, flying: set<Id>, issued: set<Id>, x: Id)
    requires EffortOk(e, l, live, flying, issued) && x in live && x in e.reissues && e.reissues[x] < l.maxReissues
    ensures EffortOk(Again(e, x), l, live, flying, issued)
  {
    hide Budget;
    var f := Again(e, x);
    assert Trying(e, l, x);
    BudgetNext(e.reissues[x], l.Tries());
    forall y | y in live
      ensures Trying(f, l, y)
    {
      assert Trying(e, l, y);
    }
  }

  /** The request is gone; what it sent is remembered. */
  function Gone(e: Effort, x: Id): Effort {
    Effort(e.tx - {x}, e.reissues - {x}, e.transmitMe - {x}, e.sent)
  }

  lemma GoneOk(e: Effort, l: Limits, live: set<Id>, flying: set<Id>, issued: set<Id>, x: Id)
    requires EffortOk(e, l, live, flying, issued)
    ensures EffortOk(Gone(e, x), l, live - {x}, flying - {x}, issued)
  {
    hide Budget;
    forall y | y in live - {x}
      ensures Trying(Gone(e, x), l, y)
    {
      assert Trying(e, l, y);
    }
  }

  /** A waiting request that gets a server. */
  lemma LaunchedOk(e: Effort, l: Limits, live: set<Id>, flying: set<Id>, issued: set<Id>, x: Id)
    requires EffortOk(e, l, live, flying, issued)
    ensures EffortOk(e, l, live, flying + {x}, issued)
  {
    hide Budget;
  }

  lemma TriesLeft(e: Effort, l: Limits, live: set<Id>, flying: set<Id>, issued: set<Id>, x: Id)
    requires EffortOk(e, l, live, flying, issued) && x in live
    ensures x in e.tx && x in e.reissues && x in e.sent && e.tx[x] >= 0 && e.reissues[x] >= 0
    ensures x in e.transmitMe || x !in flying ==> e.tx[x] < l.Tries()
    ensures x !in flying ==> e.tx[x] == 0
  {
    hide Budget;
    assert Trying(e, l, x);
  }

  /** The requests in flight that have been sent to their server or are due for it. */
  function Tried(e: Effort, flying: set<Id>): set<Id> {
    set x | x in flying && x in e.tx && (e.tx[x] > 0 || x in e.transmitMe)
  }

  lemma TriedMore(e: Effort, f: Effort, l: Limits, live: set<Id>, flying: set<Id>, issued: set<Id>)
    requires EffortOk(e, l, live, flying, issued) && Transmitted(e, f)
    ensures Tried(e, flying) <= Tried(f, flying)
  {
    hide Budget;
    forall x | x in Tried(e, flying)
      ensures x in Tried(f, flying)
    {
      assert Trying(e, l, x);
    }
  }

  lemma TriedOne(e: Effort, l: Limits, live: set<Id>, flying: set<Id>, issued: set<Id>, x: Id)
    requires EffortOk(e, l, live, flying, issued) && x in flying && x in e.tx && x in e.sent
    ensures Tried(e, flying) + {x} <= Tried(Marked(e, x), flying)
    ensures Tried(e, flying) + {x} <= Tried(Counted(Marked(e, x), x), flying)
  {
    hide Budget;
    assert Trying(e, l, x);
    forall y | y in Tried(e, flying)
      ensures y in Tried(Counted(Marked(e, x), x), flying)
    {
      assert Trying(e, l, y);
    }
  }

  lemma TriedGone(e: Effort, flying: set<Id>, x: Id)
    ensures Tried(Gone(e, x), flying - {x}) == Tried(e, flying) - {x}
  {
  }

  lemma TriedGrows(e: Effort, flying: set<Id>, more: set<Id>)
    requires flying <= more
    ensures Tried(e, flying) <= Tried(e, more)
  {
  }

  // ----- callbacks ----------------------------------------------------------------------------------

  /** Every request ever made is live without a callback, or has had exactly one callback scheduled;
      `pending` are those with a callback that have yet to leave. */
  ghost predicate CallbacksOk(scheduled: seq<Id>, pending: set<Id>, live: set<Id>, issued: set<Id>) {
    && Distinct(scheduled) && pending <= live && live <= issued
    && forall x :: x in scheduled <==> x in issued && (x !in live || x in pending)
  }

  lemma ScheduledOk(scheduled: seq<Id>, pending: set<Id>, live: set<Id>, issued: set<Id>, x: Id)
    requires CallbacksOk(scheduled, pending, live, issued) && x in live && x !in pending
    ensures CallbacksOk(scheduled + [x], pending + {x}, live, issued)
  {
  }

  lemma LeftOk(scheduled: seq<Id>, pending: set<Id>, live: set<Id>, issued: set<Id>, x: Id)
    requires CallbacksOk(scheduled, pending, live, issued) && x in pending
    ensures CallbacksOk(scheduled, pending - {x}, live - {x}, issued)
  {
  }

  lemma MadeOk(scheduled: seq<Id>, pending: set<Id>, live: set<Id>, issued: set<Id>, x: Id)
    requires CallbacksOk(scheduled, pending, live, issued) && x !in issued
    ensures CallbacksOk(scheduled, pending, live + {x}, issued + {x})
  {
  }

  /** With nothing pending, a request is live with no callback or gone with one. */
  lemma OneCallback(scheduled: seq<Id>, live: set<Id>, issued: set<Id>, x: Id)
    requires CallbacksOk(scheduled, {}, live, issued) && x in issued
    ensures multiset(scheduled)[x] == if x in live then 0 else 1
  {
    DistinctCount(scheduled, x);
  }
}
