/** What nameserver_failed does to the requests of a server, and what that means for a refused request
    (android/core/src/main/jni/libevent/evdns.c:557-616, 714-735, 1334-1367). */
module DnsMoves {
  import opened Basics
  import opened Modular
  import opened BucketQueues
  import opened DnsQueues
  import opened DnsServers

  /** The requests in flight, in the order nameserver_failed walks them. */
  function Walk(heads: seq<seq<Id>>): seq<Id> {
    if heads == [] then [] else heads[0] + Walk(heads[1..])
  }

  lemma {:induction false} WalkNext(heads: seq<seq<Id>>, i: nat)
    requires i < |heads|
    ensures Walk(heads[..i + 1]) == Walk(heads[..i]) + heads[i]
  {
    if i == 0 {
      assert heads[..1] == [heads[0]] && heads[..0] == [];
      assert Walk([heads[0]]) == heads[0] + Walk([]);
    } else {
      WalkNext(heads[1..], i - 1);
      assert heads[..i + 1][1..] == heads[1..][..i] && heads[..i][1..] == heads[1..][..i - 1];
      Assoc(heads[0], Walk(heads[1..][..i - 1]), heads[i]);
    }
  }

  lemma {:induction false} WalkHas(heads: seq<seq<Id>>, x: Id)
    ensures x in Walk(heads) <==> exists h :: 0 <= h < |heads| && x in heads[h]
  {
    if heads != [] {
      WalkHas(heads[1..], x);
      if h :| 0 <= h < |heads| && x in heads[h] {
        assert h > 0 ==> x in heads[1..][h - 1];
      }
      if h :| 0 <= h < |heads[1..]| && x in heads[1..][h] {
        assert x in heads[h + 1];
      }
    }
  }

  /** Not sent yet, and assigned to `s`. */
  predicate Waits(tx: map<Id, int>, nsOf: map<Id, Sid>, s: Sid, x: Id) {
    x in tx && tx[x] == 0 && x in nsOf && nsOf[x] == s
  }

  /** The requests of a list that are moved when `s` fails, in order. */
  function Movers(list: seq<Id>, tx: map<Id, int>, nsOf: map<Id, Sid>, s: Sid): seq<Id> {
    if list == [] then [] else (if Waits(tx, nsOf, s, list[0]) then [list[0]] else []) + Movers(list[1..], tx, nsOf, s)
  }

  lemma {:induction false} MoversJoin(a: seq<Id>, b: seq<Id>, tx: map<Id, int>, nsOf: map<Id, Sid>, s: Sid)
    ensures Movers(a + b, tx, nsOf, s) == Movers(a, tx, nsOf, s) + Movers(b, tx, nsOf, s)
  {
    hide Waits;
    if a == [] {
      assert a + b == b;
    } else {
      var first := if Waits(tx, nsOf, s, a[0]) then [a[0]] else [];
      MoversJoin(a[1..], b, tx, nsOf, s);
      assert (a + b)[1..] == a[1..] + b && (a + b)[0] == a[0];
      Assoc(first, Movers(a[1..], tx, nsOf, s), Movers(b, tx, nsOf, s));
    }
  }

  lemma {:induction false} MoversHas(list: seq<Id>, tx: map<Id, int>, nsOf: map<Id, Sid>, s: Sid, x: Id)
    ensures x in Movers(list, tx, nsOf, s) <==> x in list && Waits(tx, nsOf, s, x)
  {
    hide Waits;
    if list != [] {
      MoversHas(list[1..], tx, nsOf, s, x);
    }
  }

  lemma {:induction false} MoversDistinct(list: seq<Id>, tx: map<Id, int>, nsOf: map<Id, Sid>, s: Sid)
    requires Distinct(list)
    ensures Distinct(Movers(list, tx, nsOf, s))
  {
    hide Waits;
    if list != [] {
      MoversDistinct(list[1..], tx, nsOf, s);
      MoversHas(list[1..], tx, nsOf, s, list[0]);
      var rest := Movers(list[1..], tx, nsOf, s);
      assert forall i :: 0 <= i < |rest| ==> rest[i] in rest;
    }
  }

  // ----- dealing out servers ------------------------------------------------------------------------

  /** The k-th of the picks that go round `ups`. */
  function Round(ups: seq<Sid>, k: nat): Sid
    requires ups != []
  {
    ups[k % |ups|]
  }

  /** Each of the requests `ms` in turn gets the next server of the round. */
  function Dealt(nsOf: map<Id, Sid>, ms: seq<Id>, ups: seq<Sid>): map<Id, Sid>
    requires ups != []
  {
    if ms == [] then nsOf
    else var k := |ms| - 1; Dealt(nsOf, ms[..k], ups)[ms[k] := Round(ups, k)]
  }

  lemma {:induction false} DealtAt(nsOf: map<Id, Sid>, ms: seq<Id>, ups: seq<Sid>, i: nat)
    requires ups != [] && Distinct(ms) && i < |ms|
    ensures ms[i] in Dealt(nsOf, ms, ups) && Dealt(nsOf, ms, ups)[ms[i]] == Round(ups, i)
  {
    hide Round;
    var k := |ms| - 1;
    if i < k {
      assert ms[..k][i] == ms[i];
      DealtAt(nsOf, ms[..k], ups, i);
    }
  }

  lemma {:induction false} DealtElse(nsOf: map<Id, Sid>, ms: seq<Id>, ups: seq<Sid>, x: Id)
    requires ups != [] && x !in ms
    ensures x in Dealt(nsOf, ms, ups) <==> x in nsOf
    ensures x in nsOf ==> Dealt(nsOf, ms, ups)[x] == nsOf[x]
  {
    hide Round;
    if ms != [] {
      DealtElse(nsOf, ms[..|ms| - 1], ups, x);
    }
  }

  /** The requests `ms` have been dealt servers of `ups`, and the ring has turned as far. */
  ghost predicate Dealing(was: map<Id, Sid>, ms: seq<Id>, ups: seq<Sid>, nsOf: map<Id, Sid>, sv: Servers) {
    ups != [] && nsOf == Dealt(was, ms, ups) && UpOf(sv.ring, sv.up) == Turned(ups, |ms| % |ups|)
  }

  lemma DealStart(nsOf: map<Id, Sid>, sv: Servers)
    requires UpOf(sv.ring, sv.up) != []
    ensures Dealing(nsOf, [], UpOf(sv.ring, sv.up), nsOf, sv)
  {
  }

  /** One more pick goes to one more request. */
  lemma DealNext(was: map<Id, Sid>, ms: seq<Id>, ups: seq<Sid>, nsOf: map<Id, Sid>, sv: Servers, after: Servers, x: Id)
    requires Dealing(was, ms, ups, nsOf, sv)
    requires var u := UpOf(sv.ring, sv.up); u != [] && UpOf(after.ring, after.up) == u[1..] + [u[0]]
    ensures UpOf(sv.ring, sv.up)[0] == Round(ups, |ms|)
    ensures Dealing(was, ms + [x], ups, nsOf[x := Round(ups, |ms|)], after)
  {
    hide UpOf;
    var k := |ms| % |ups|;
    TurnFront(ups, k);
    NextTurn(|ms|, |ups|);
    assert (ms + [x])[..|ms|] == ms;
    if k + 1 == |ups| {
      assert ups[k + 1..] + ups[..k + 1] == Turned(ups, 0);
    }
  }

  lemma NextTurn(m: nat, n: nat)
    requires n > 0
    ensures (m + 1) % n == if m % n + 1 == n then 0 else m % n + 1
  {
    Divided(m, n);
    if m % n + 1 == n {
      MinusTimes(n, m / n, -1);
      ModUnique(m + 1, n, m / n + 1, 0);
    } else {
      ModUnique(m + 1, n, m / n, m % n + 1);
    }
  }

  /** Two picks of a round give the same server exactly when the picks from one to the other go round. */
  lemma RoundSame(ups: seq<Sid>, k: nat, m: nat)
    requires ups != [] && Distinct(ups) && k <= m
    ensures Round(ups, k) == Round(ups, m) <==> (m - k) % |ups| == 0
  {
    var n := |ups|;
    assert 0 <= k % n < n && 0 <= m % n < n;
    SameTurn(k, m, n);
  }

  lemma SameTurn(k: nat, m: nat, n: nat)
    requires n > 0 && k <= m
    ensures k % n == m % n <==> (m - k) % n == 0
  {
    var d := m - k;
    Divided(d, n);
    Divided(k, n);
    Divided(m, n);
    MinusTimes(n, m / n, k / n);
    MinusTimes(n, d / n, -(k / n));
    if k % n == m % n {
      ModUnique(d, n, m / n - k / n, 0);
    }
    if d % n == 0 {
      ModUnique(m, n, d / n + k / n, k % n);
    }
  }

  // ----- all requests of a server -------------------------------------------------------------------

  lemma {:induction false} WalkDistinct(heads: seq<seq<Id>>)
    requires forall h :: 0 <= h < |heads| ==> Distinct(heads[h])
    requires forall g, h, x :: 0 <= g < h < |heads| && x in heads[g] ==> x !in heads[h]
    ensures Distinct(Walk(heads))
  {
    if heads != [] {
      var a, b := heads[0], Walk(heads[1..]);
      WalkDistinct(heads[1..]);
      forall i, j | 0 <= i < |a| && 0 <= j < |b|
        ensures a[i] != b[j]
      {
        WalkHas(heads[1..], b[j]);
        var h :| 0 <= h < |heads[1..]| && b[j] in heads[1..][h];
        assert b[j] in heads[h + 1] && a[i] in heads[0];
      }
    }
  }

  /** The requests that are moved when `s` fails. */
  function MoversOf(q: Queues, tx: map<Id, int>, s: Sid): seq<Id> {
    Movers(Walk(q.heads), tx, q.nsOf, s)
  }

  /** No request is in two lists. */
  lemma ListsApart(q: Queues)
    requires ListsOk(q)
    ensures forall h :: 0 <= h < |q.heads| ==> Distinct(q.heads[h])
    ensures forall g, h, x :: 0 <= g < h < |q.heads| && x in q.heads[g] ==> x !in q.heads[h]
  {
    var of := Slots(q.trans, |q.heads|);
    forall g, h, x | 0 <= g < h < |q.heads| && x in q.heads[g]
      ensures x !in q.heads[h]
    {
      assert of[x] == g;
    }
  }

  lemma MoversAre(q: Queues, tx: map<Id, int>, s: Sid, x: Id)
    requires QueuesOk(q)
    ensures Distinct(MoversOf(q, tx, s))
    ensures x in MoversOf(q, tx, s) <==> Waits(tx, q.nsOf, s, x)
  {
    hide IdsOk, CountsOk, Walk, Movers;
    ListsApart(q);
    WalkDistinct(q.heads);
    MoversDistinct(Walk(q.heads), tx, q.nsOf, s);
    MoversHas(Walk(q.heads), tx, q.nsOf, s, x);
    WalkHas(q.heads, x);
    if x in q.nsOf {
      Placed(q, x);
    }
  }

  /** A request that waited for `s` has one of the servers dealt, any other the one it had. */
  lemma DealtFacts(q: Queues, tx: map<Id, int>, s: Sid, ups: seq<Sid>, up: set<Sid>, x: Id)
    requires QueuesOk(q) && Lists(ups, up) && ups != [] && x in q.nsOf
    ensures var nsOf := Dealt(q.nsOf, MoversOf(q, tx, s), ups);
            x in nsOf && if Waits(tx, q.nsOf, s, x) then nsOf[x] in up else nsOf[x] == q.nsOf[x]
  {
    hide QueuesOk, MoversOf, Waits;
    var ms := MoversOf(q, tx, s);
    MoversAre(q, tx, s, x);
    if x in ms {
      var i := IndexOf(ms, x);
      DealtAt(q.nsOf, ms, ups, i);
      assert Round(ups, i) in ups;
    } else {
      DealtElse(q.nsOf, ms, ups, x);
    }
  }

  /** The server nameserver_pick gives next. */
  function NextPick(sv: Servers): Sid
    requires sv.ring != []
  {
    if sv.up != {} && UpOf(sv.ring, sv.up) != [] then UpOf(sv.ring, sv.up)[0] else Turned(sv.ring, 1)[0]
  }

  lemma NextPickUp(sv: Servers, known: set<Sid>)
    requires ServersOk(sv, known) && sv.up != {}
    ensures sv.ring != [] && NextPick(sv) in sv.up
  {
    hide UpOf;
    UpListed(sv, known);
    var u := UpOf(sv.ring, sv.up);
    if u != [] {
      assert u[0] in u;
    }
    RingFacts(sv, known);
  }

  /** Whether request_reissue finds another server for `x` after its server is marked down. With no other
      server up, the next in the ring has to be another. If marking it down moves `x`, which it does when the
      server was up and `x` not sent since it got it, the picks from that for `x` to that for the reissue must
      not go round the servers that are up. Otherwise it does. */
  ghost predicate Reissues(q: Queues, sv: Servers, tx: map<Id, int>, x: Id)
    requires x in q.nsOf && sv.ring != []
  {
    var s := q.nsOf[x];
    if sv.up - {s} == {} then Turned(sv.ring, 1)[0] != s
    else if s in sv.up && Waits(tx, q.nsOf, s, x) then
      var ms := MoversOf(q, tx, s);
      x in ms && (|ms| - IndexOf(ms, x)) % |sv.up - {s}| != 0
    else true
  }

  lemma DealtReissue(q: Queues, sv: Servers, tx: map<Id, int>, x: Id, ups: seq<Sid>, nsOf: map<Id, Sid>, after: Servers)
    requires QueuesOk(q) && x in q.nsOf && sv.ring != [] && after.ring != [] && q.nsOf[x] in sv.up && Waits(tx, q.nsOf, q.nsOf[x], x)
    requires after.up == sv.up - {q.nsOf[x]} != {} && Lists(ups, after.up)
    requires Dealing(q.nsOf, MoversOf(q, tx, q.nsOf[x]), ups, nsOf, after)
    ensures x in nsOf && (NextPick(after) != nsOf[x] <==> Reissues(q, sv, tx, x))
  {
    hide QueuesOk, MoversOf, Waits, UpOf, Dealt, Lists;
    var s := q.nsOf[x];
    var ms := MoversOf(q, tx, s);
    MoversAre(q, tx, s, x);
    var i := IndexOf(ms, x);
    DealtAt(q.nsOf, ms, ups, i);
    ListedSize(ups, after.up);
    ListedDistinct(ups, after.up);
    RoundSame(ups, i, |ms|);
    assert Turned(ups, |ms| % |ups|)[0] == Round(ups, |ms|);
  }

  lemma ListedDistinct(q: seq<Sid>, s: set<Sid>)
    requires Lists(q, s)
    ensures Distinct(q)
  {
  }

  /** Only the ring and who is up matter. */
  lemma ReissuesFrame(q: Queues, sv: Servers, other: Servers, tx: map<Id, int>, x: Id)
    requires x in q.nsOf && sv.ring != [] && other.ring == sv.ring && other.up == sv.up
    ensures Reissues(q, sv, tx, x) <==> Reissues(q, other, tx, x)
  {
  }

  /** A request that has been sent, or whose server was down already, is reissued whenever another server is
      up. */
  lemma OpenReissue(q: Queues, sv: Servers, tx: map<Id, int>, x: Id)
    requires x in q.nsOf && sv.ring != [] && sv.up - {q.nsOf[x]} != {}
    requires q.nsOf[x] !in sv.up || !Waits(tx, q.nsOf, q.nsOf[x], x)
    ensures Reissues(q, sv, tx, x)
  {
  }

  /** One that has not been sent is not, when only one other server is up: it was moved there already. */
  lemma LoneReissue(q: Queues, sv: Servers, tx: map<Id, int>, x: Id, t: Sid)
    requires x in q.nsOf && sv.ring != [] && q.nsOf[x] in sv.up && sv.up - {q.nsOf[x]} == {t}
    requires Waits(tx, q.nsOf, q.nsOf[x], x)
    ensures !Reissues(q, sv, tx, x)
  {
    assert |{t}| == 1;
  }
}
