/** The resolver's ring of nameservers (android/core/src/main/jni/libevent/evdns.c:558-636, 1335-1367,
    2541-2552). */
module DnsServers {
  import opened Basics
  import opened BucketQueues

  type Sid = Id

  /** The circular list from server_head on, the servers marked up and how many they are, those whose
      socket is choked, the counters of each, and the probe each has out. */
  datatype Servers = Servers(ring: seq<Sid>, up: set<Sid>, good: int, choked: set<Sid>,
                             timedout: map<Sid, int>, failed: map<Sid, int>, probe: map<Sid, Id>)

  ghost predicate ServersOk(s: Servers, known: set<Sid>) {
    && Lists(s.ring, known) && s.up <= known
    && s.good == |s.up|
    && s.timedout.Keys == known && s.failed.Keys == known
  }

  /** The ring with its head moved `n` places on. */
  function Turned(ring: seq<Sid>, n: nat): seq<Sid>
    requires n <= |ring|
  {
    ring[n..] + ring[..n]
  }

  lemma TurnedLists(ring: seq<Sid>, known: set<Sid>, n: nat)
    requires Lists(ring, known) && n <= |ring|
    ensures Lists(Turned(ring, n), known)
  {
    var r := Turned(ring, n);
    forall x
      ensures x in r <==> x in known
    {
      if x in ring {
        var i := IndexOf(ring, x);
        assert if i < n then r[|ring| - n + i] == x else r[i - n] == x;
      }
    }
    forall i, j | 0 <= i < j < |r|
      ensures r[i] != r[j]
    {
      assert r[i] == ring[if i < |ring| - n then i + n else i - (|ring| - n)];
      assert r[j] == ring[if j < |ring| - n then j + n else j - (|ring| - n)];
    }
  }

  /** The up servers of a ring, in its order. */
  function UpOf(ring: seq<Sid>, up: set<Sid>): seq<Sid> {
    if ring == [] then [] else (if ring[0] in up then [ring[0]] else []) + UpOf(ring[1..], up)
  }

  lemma {:induction false} UpOfJoin(a: seq<Sid>, b: seq<Sid>, up: set<Sid>)
    ensures UpOf(a + b, up) == UpOf(a, up) + UpOf(b, up)
  {
    if a == [] {
      assert a + b == b;
    } else {
      var first := if a[0] in up then [a[0]] else [];
      UpOfJoin(a[1..], b, up);
      assert (a + b)[1..] == a[1..] + b && (a + b)[0] == a[0];
      Assoc(first, UpOf(a[1..], up), UpOf(b, up));
    }
  }

  lemma {:induction false} UpOfMembers(ring: seq<Sid>, up: set<Sid>, x: Sid)
    ensures x in UpOf(ring, up) <==> x in ring && x in up
  {
    if ring != [] {
      UpOfMembers(ring[1..], up, x);
    }
  }

  lemma {:induction false} NoneUp(ring: seq<Sid>, up: set<Sid>)
    requires forall i :: 0 <= i < |ring| ==> ring[i] !in up
    ensures UpOf(ring, up) == []
  {
    if ring != [] {
      NoneUp(ring[1..], up);
    }
  }

  /** Turning past the first up server moves it from the front of the up servers to their end. */
  lemma TurnedUp(ring: seq<Sid>, up: set<Sid>, i: nat)
    requires i < |ring| && ring[i] in up && forall j :: 0 <= j < i ==> ring[j] !in up
    ensures var u := UpOf(ring, up); u != [] && u[0] == ring[i] && UpOf(Turned(ring, i + 1), up) == u[1..] + [u[0]]
  {
    var a, x, b := ring[..i], ring[i], ring[i + 1..];
    assert ring == a + ([x] + b);
    UpOfJoin(a, [x] + b, up);
    UpOfJoin([x], b, up);
    NoneUp(a, up);
    assert UpOf([x], up) == [x] + UpOf([], up);
    assert Turned(ring, i + 1) == b + (a + [x]);
    UpOfJoin(b, a + [x], up);
    UpOfJoin(a, [x], up);
  }

  /** nameserver_pick: the next server that is up, and the ring turned past it; with none up, the next
      server whatever its state. It looks at each server at most once. */
  method Pick(s: Servers, ghost known: set<Sid>) returns (picked: Option<Sid>, t: Servers)
    requires ServersOk(s, known)
    ensures ServersOk(t, known) && t == s.(ring := t.ring)
    ensures picked.None? <==> known == {}
    ensures picked.Some? ==> picked.value in known
    ensures s.up != {} ==>
      var u := UpOf(s.ring, s.up);
      u != [] && picked == Some(u[0]) && picked.value in s.up && UpOf(t.ring, s.up) == u[1..] + [u[0]]
    ensures s.up == {} && known != {} ==> t.ring == Turned(s.ring, 1) && picked == Some(t.ring[0])
  {
    hide ServersOk, UpOf, Turned;
    RingFacts(s, known);
    if s.ring == [] {
      return None, s;
    }
    if s.good == 0 {
      TurnedOk(s, known, 1);
      t := s.(ring := Turned(s.ring, 1));
      return Some(t.ring[0]), t;
    }
    SomeUp(s, known);
    var i := 0;
    while s.ring[i] !in s.up
      invariant 0 <= i < |s.ring| && forall j :: 0 <= j < i ==> s.ring[j] !in s.up
      decreases |s.ring| - i
    {
      i := i + 1;
    }
    TurnedOk(s, known, i + 1);
    TurnedUp(s.ring, s.up, i);
    picked, t := Some(s.ring[i]), s.(ring := Turned(s.ring, i + 1));
  }

  lemma RingFacts(s: Servers, known: set<Sid>)
    requires ServersOk(s, known)
    ensures s.ring == [] <==> known == {}
    ensures forall i :: 0 <= i < |s.ring| ==> s.ring[i] in known
    ensures (s.good == 0 <==> s.up == {}) && s.up <= known
  {
    if s.ring == [] {
      assert known == {};
    } else {
      assert s.ring[0] in s.ring;
    }
  }

  lemma TurnedOk(s: Servers, known: set<Sid>, n: nat)
    requires ServersOk(s, known) && 0 < n <= |s.ring|
    ensures ServersOk(s.(ring := Turned(s.ring, n)), known)
    ensures |Turned(s.ring, n)| == |s.ring| && Turned(s.ring, n)[0] in known
  {
    hide Lists;
    TurnedLists(s.ring, known, n);
    ListMember(Turned(s.ring, n), known);
  }

  lemma ListMember(q: seq<Sid>, known: set<Sid>)
    requires Lists(q, known) && q != []
    ensures q[0] in known
  {
    assert q[0] in q;
  }

  lemma SomeUp(s: Servers, known: set<Sid>)
    requires ServersOk(s, known) && s.good != 0
    ensures exists i :: 0 <= i < |s.ring| && s.ring[i] in s.up
  {
    var x :| x in s.up;
    assert x in s.ring;
    var i := IndexOf(s.ring, x);
    assert s.ring[i] in s.up;
  }

  lemma {:induction false} UpOfDistinct(ring: seq<Sid>, up: set<Sid>)
    requires Distinct(ring)
    ensures Distinct(UpOf(ring, up))
  {
    if ring != [] {
      UpOfDistinct(ring[1..], up);
      UpOfMembers(ring[1..], up, ring[0]);
      var rest := UpOf(ring[1..], up);
      assert forall i :: 0 <= i < |rest| ==> rest[i] in rest;
    }
  }

  /** With the states fixed, as many picks as there are up servers give each of them exactly once, in
      ring order. */
  method RoundRobin(s: Servers, ghost known: set<Sid>) returns (picks: seq<Sid>, t: Servers)
    requires ServersOk(s, known)
    ensures ServersOk(t, known) && t == s.(ring := t.ring)
    ensures picks == UpOf(s.ring, s.up) && UpOf(t.ring, s.up) == picks && Lists(picks, s.up)
  {
    hide ServersOk, UpOf, Lists;
    picks, t := [], s;
    ghost var u := UpOf(s.ring, s.up);
    UpListed(s, known);
    for i := 0 to s.good
      invariant ServersOk(t, known) && t == s.(ring := t.ring) && i <= |u|
      invariant picks == u[..i] && UpOf(t.ring, s.up) == u[i..] + u[..i]
    {
      TurnFront(u, i);
      var x;
      x, t := Pick(t, known);
      picks := picks + [x.value];
    }
  }

  lemma TurnFront<T>(u: seq<T>, i: nat)
    requires i < |u|
    ensures var v := u[i..] + u[..i]; v[0] == u[i] && v[1..] + [v[0]] == u[i + 1..] + u[..i + 1] && u[..i] + [u[i]] == u[..i + 1]
  {
  }

  lemma UpListed(s: Servers, known: set<Sid>)
    requires ServersOk(s, known)
    ensures Lists(UpOf(s.ring, s.up), s.up) && s.good == |UpOf(s.ring, s.up)| && (s.good > 0 ==> s.up != {})
  {
    var u := UpOf(s.ring, s.up);
    UpOfDistinct(s.ring, s.up);
    forall x
      ensures x in u <==> x in s.up
    {
      UpOfMembers(s.ring, s.up, x);
    }
    ListedSize(u, s.up);
  }

  lemma {:induction false} ListedSize(q: seq<Sid>, s: set<Sid>)
    requires Lists(q, s)
    ensures |q| == |s|
  {
    if q == [] {
      assert s == {};
    } else {
      var x := q[0];
      assert x in q;
      assert forall y :: y in q[1..] <==> y in q && y != x;
      ListedSize(q[1..], s - {x});
    }
  }

  /** evdns_nameserver_add_impl_: a new server, up, right behind the head. */
  function Added(s: Servers, x: Sid): Servers {
    Servers(if s.ring == [] then [x] else [s.ring[0], x] + s.ring[1..], s.up + {x}, s.good + 1, s.choked - {x},
            s.timedout[x := 0], s.failed[x := 0], s.probe - {x})
  }

  lemma AddedRing(ring: seq<Sid>, known: set<Sid>, x: Sid)
    requires Lists(ring, known) && x !in known
    ensures Lists(if ring == [] then [x] else [ring[0], x] + ring[1..], known + {x})
  {
    if ring != [] {
      InsertLists(ring, known, x, 1);
      assert ring[..1] + [x] + ring[1..] == [ring[0], x] + ring[1..];
    }
  }

  lemma AddedOk(s: Servers, known: set<Sid>, x: Sid)
    requires ServersOk(s, known) && x !in known
    ensures ServersOk(Added(s, x), known + {x})
  {
    hide Lists;
    AddedRing(s.ring, known, x);
    AddedMaps(s.timedout, known, x);
    AddedMaps(s.failed, known, x);
    assert x !in s.up;
  }

  lemma AddedMaps(m: map<Sid, int>, known: set<Sid>, x: Sid)
    requires m.Keys == known
    ensures m[x := 0].Keys == known + {x}
  {
  }

  /** A server is marked down. */
  lemma DownOk(s: Servers, known: set<Sid>, x: Sid, failed: map<Sid, int>)
    requires ServersOk(s, known) && x in s.up && failed.Keys == known
    ensures ServersOk(s.(up := s.up - {x}, good := s.good - 1, failed := failed), known) && s.good > 0 && x in known
  {
    hide Lists;
  }

  /** A server is marked up. */
  lemma UpOk(s: Servers, known: set<Sid>, x: Sid, failed: map<Sid, int>, timedout: map<Sid, int>)
    requires ServersOk(s, known) && x in known && x !in s.up && failed.Keys == known && timedout.Keys == known
    ensures ServersOk(s.(up := s.up + {x}, good := s.good + 1, failed := failed, timedout := timedout), known)
  {
    hide Lists;
  }

  /** A server that is up again, its probe forgotten. */
  function Raised(s: Servers, x: Sid): Servers {
    s.(up := s.up + {x}, good := s.good + 1, failed := s.failed[x := 0], timedout := s.timedout[x := 0], probe := s.probe - {x})
  }

  /** The other fields of a server do not matter. */
  lemma ServersFrame(s: Servers, t: Servers, known: set<Sid>)
    requires ServersOk(s, known) && t.ring == s.ring && t.up == s.up && t.good == s.good
    requires t.timedout.Keys == known && t.failed.Keys == known
    ensures ServersOk(t, known)
  {
  }

  lemma ServerFields(s: Servers, known: set<Sid>)
    requires ServersOk(s, known)
    ensures s.timedout.Keys == known && s.failed.Keys == known && s.up <= known
    ensures s.good == 0 <==> s.up == {}
  {
  }
}
