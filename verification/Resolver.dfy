/** The resolver protocol: requests in flight and waiting, servers up and down, retransmission
    (android/core/src/main/jni/libevent/evdns.c:485-957, 1318-1367, 1494-1509, 2161-2366, 2683-2911,
    3385-3414). */
module Resolver {
  import opened Basics
  import opened BucketQueues
  import opened DnsQueues
  import opened DnsServers
  import opened DnsMoves
  import opened DnsEffort

  /** What a send comes to: all sent, try again later, or an error. */
  datatype Outcome = Sent | Choked | Broken

  /** How reply_handle treats an answer. */
  datatype Answer = Good | Refusal | ServerFailed | OtherError

  /** A datagram: too short for a header, or with a header and a rest that does not parse or match the
      question, parses, or parses and holds an answer. */
  datatype Datagram = Runt | Datagram(id: nat, flags: nat, body: Body)
  datatype Body = Garbled | Bare | Answered

  /** The DNS_ERR codes of reply_handle. */
  datatype Error = Format | ServFail | NotExist | NotImpl | Refused | Truncated | Unknown | NoData

  predicate IsAnswer(flags: nat) {
    flags / 0x8000 % 2 == 1
  }

  predicate IsTruncated(flags: nat) {
    flags / 0x200 % 2 == 1
  }

  function Rcode(flags: nat): nat {
    flags % 16
  }

  /** The second word of a header as section 4.1.1 of RFC 1035 lays it out: the tests find their fields. */
  lemma HeaderFields(qr: nat, opcode: nat, aa: nat, tc: nat, rd: nat, ra: nat, z: nat, rcode: nat)
    requires qr < 2 && opcode < 16 && aa < 2 && tc < 2 && rd < 2 && ra < 2 && z < 8 && rcode < 16
    ensures var flags := 32768 * qr + 2048 * opcode + 1024 * aa + 512 * tc + 256 * rd + 128 * ra + 16 * z + rcode;
            && (IsAnswer(flags) <==> qr == 1) && (IsTruncated(flags) <==> tc == 1) && Rcode(flags) == rcode
  {
    var flags := 32768 * qr + 2048 * opcode + 1024 * aa + 512 * tc + 256 * rd + 128 * ra + 16 * z + rcode;
    var low, mid := 256 * rd + 128 * ra + 16 * z + rcode, 2 * opcode + aa;
    assert flags == 512 * (64 * qr + 2 * mid + tc) + low && low < 512;
    assert flags / 512 == 64 * qr + 2 * mid + tc;
    assert flags == 32768 * qr + (1024 * mid + 512 * tc + low) && 1024 * mid + 512 * tc + low < 32768;
    assert flags / 32768 == qr;
  }

  /** What reply_parse hands to reply_handle: it does not look behind an error other than NXDOMAIN. */
  function Seen(flags: nat, body: Body): Body {
    if IsTruncated(flags) || (Rcode(flags) != 0 && Rcode(flags) != 3) then Garbled else body
  }

  /** The error reply_handle finds, if any. */
  function ErrorOf(flags: nat, body: Body): Option<Error> {
    if IsTruncated(flags) || Rcode(flags) != 0 || body != Answered then
      Some(if IsTruncated(flags) then Truncated
           else if Rcode(flags) != 0 then
             (if Rcode(flags) - 1 > 4 then Unknown else [Format, ServFail, NotExist, NotImpl, Refused][Rcode(flags) - 1])
           else if body == Bare then NoData else Unknown)
    else None
  }

  /** What is done about a datagram depends on the header alone, but for a clean one. */
  function Judge(flags: nat, body: Body): (a: Answer)
    ensures a == Refusal <==> !IsTruncated(flags) && (Rcode(flags) == 4 || Rcode(flags) == 5)
    ensures a == ServerFailed <==> !IsTruncated(flags) && Rcode(flags) == 2
    ensures a == Good <==> !IsTruncated(flags) && Rcode(flags) == 0 && body == Answered
  {
    match ErrorOf(flags, Seen(flags, body))
    case None => Good
    case Some(e) => if e == NotImpl || e == Refused then Refusal else if e == ServFail then ServerFailed else OtherError
  }

  const MAX_INFLIGHT: nat := 65000

  /** The first of `from` are in `out`; the rest are `left`, in order. */
  ghost predicate Split(from: seq<Id>, left: seq<Id>, out: set<Id>) {
    |left| <= |from|
    && var n := |from| - |left|;
       left == from[n..] && forall k :: 0 <= k < n ==> from[k] in out
  }

  lemma SplitMore(from: seq<Id>, mid: seq<Id>, left: seq<Id>, out: set<Id>, more: set<Id>, x: Id)
    requires Split(from, mid, out) && Split(mid, left, more) && out - {x} <= more && x !in from
    ensures Split(from, left, more)
  {
    var n, m := |from| - |mid|, |from| - |left|;
    forall k | 0 <= k < m
      ensures from[k] in more
    {
      assert from[k] in from;
      if k >= n {
        assert mid[k - n] == from[k];
      }
    }
  }

  /** Nothing more of `mid` is let out, or its first. */
  lemma SplitNext(from: seq<Id>, mid: seq<Id>, left: seq<Id>, out: set<Id>, more: set<Id>)
    requires Split(from, mid, out) && out <= more && (left == mid || (mid != [] && left == mid[1..] && mid[0] in more))
    ensures Split(from, left, more)
  {
  }

  lemma SplitNone(from: seq<Id>, out: set<Id>)
    ensures Split(from, from, out)
  {
  }

  lemma OthersLess(list: seq<Id>, x: Id, y: Id)
    ensures y !in list ==> y !in Others(list, x)
  {
  }

  class Base {
    var queues: Queues
    var servers: Servers
    var effort: Effort
    /** The requests whose callback was scheduled, in order; those of them still in the queues; and
        every request ever made. */
    var scheduled: seq<Id>
    var pending: set<Id>
    var issued: set<Id>
    var maxInflight: nat
    const limits: Limits
    const maxTimeouts: int
    /** What the network does with each send. */
    const net: nat -> Outcome
    var attempts: nat

    ghost predicate Core()
      reads this
    {
      && QueuesOk(queues)
      && ServersOk(servers, queues.load.Keys)
      && EffortOk(effort, limits, queues.trans.Keys, queues.nsOf.Keys, issued)
      && CallbacksOk(scheduled, pending, queues.trans.Keys, issued)
      && 1 <= maxInflight <= MAX_INFLIGHT
    }

    ghost predicate Valid()
      reads this
    {
      Core() && pending == {}
    }

    constructor (limits: Limits, maxTimeouts: int, net: nat -> Outcome, maxInflight: nat)
      requires 1 <= maxInflight <= MAX_INFLIGHT
      ensures Valid() && issued == {} && queues.load == map[] && servers.up == servers.choked == {}
      ensures this.limits == limits && this.net == net && queues.waiting == [] && scheduled == []
      ensures this.maxInflight == maxInflight && queues.inflight == 0 && attempts == 0 && queues.trans == map[]
    {
      this.limits, this.maxTimeouts, this.net, this.maxInflight := limits, maxTimeouts, net, maxInflight;
      queues := Queues(map[], map[], seq((maxInflight + 4) / 5, _ => []), [], 0, 0, map[]);
      servers := Servers([], {}, 0, {}, map[], map[], map[]);
      effort := Effort(map[], map[], {}, map[]);
      scheduled, pending, issued, attempts := [], {}, {}, 0;
    }

    /** nameserver_pick. */
    method PickServer() returns (r: Option<Sid>)
      requires Core()
      modifies this`servers
      ensures Core() && servers == old(servers).(ring := servers.ring)
      ensures r.None? <==> queues.load.Keys == {}
      ensures r.Some? ==> r.value in queues.load && (servers.up != {} ==> r.value in servers.up)
      ensures r.Some? ==> old(servers.ring) != [] && r.value == NextPick(old(servers))
      ensures servers.up != {} ==> var u := UpOf(old(servers.ring), servers.up); u != [] && UpOf(servers.ring, servers.up) == u[1..] + [u[0]]
    {
      hide QueuesOk, EffortOk, CallbacksOk, ServersOk, UpOf;
      RingFacts(servers, queues.load.Keys);
      r, servers := Pick(servers, queues.load.Keys);
    }

    /** request_swap_ns. */
    method SwapNs(x: Id, s: Sid)
      requires Core() && x in queues.nsOf && s in queues.load
      modifies this`queues
      ensures Core()
      ensures queues == old(queues).(nsOf := old(queues.nsOf)[x := s], load := queues.load)
      ensures queues.load.Keys == old(queues.load.Keys) && queues.nsOf.Keys == old(queues.nsOf.Keys)
    {
      hide QueuesOk, EffortOk, CallbacksOk, ServersOk;
      Placed(queues, x);
      SwappedOk(queues, x, s);
      SwapShape(queues, x, s);
      if queues.nsOf[x] != s {
        var from := queues.nsOf[x];
        queues := queues.(nsOf := queues.nsOf[x := s], load := queues.load[from := queues.load[from] - 1][s := queues.load[s] + 1]);
      }
    }

    static lemma SwapShape(q: Queues, x: Id, s: Sid)
      requires x in q.nsOf && q.nsOf[x] in q.load && s in q.load
      ensures Swapped(q, x, s).load.Keys == q.load.Keys && Swapped(q, x, s).nsOf == q.nsOf[x := s]
    {
      assert q.nsOf[x] == s ==> q.nsOf[x := s] == q.nsOf;
    }

    /** The requests and their places are as they were; only servers may have been swapped. */
    twostate predicate SameRequests()
      reads this
    {
      queues == old(queues).(nsOf := queues.nsOf, load := queues.load)
      && queues.nsOf.Keys == old(queues.nsOf.Keys) && queues.load.Keys == old(queues.load.Keys)
    }

    /** A request that has not been sent yet and is assigned to `s`. */
    ghost predicate Unsent(x: Id, s: Sid)
      reads this
    {
      Waits(effort.tx, queues.nsOf, s, x)
    }

    /** Only unsent requests of `s` were moved, and to servers that are up. */
    twostate predicate MovedFrom(s: Sid)
      reads this
    {
      forall x :: x in queues.nsOf && x in old(queues.nsOf) && queues.nsOf[x] != old(queues.nsOf)[x] ==>
        old(Unsent(x, s)) && queues.nsOf[x] in servers.up
    }

    /** One list of the loop of nameserver_failed: its unsent requests of `s` are dealt the next servers that
        are up, as those of the lists before it, `ms`, were. */
    method MoveList(s: Sid, i: nat, ghost was: map<Id, Sid>, ghost ms: seq<Id>, ghost ups: seq<Sid>)
      requires Core() && i < |queues.heads| && servers.up != {} && ups != [] && Dealing(was, ms, ups, queues.nsOf, servers)
      requires forall x :: x in queues.heads[i] ==> x !in ms
      modifies this`queues, this`servers
      ensures Core() && SameRequests() && servers == old(servers).(ring := servers.ring)
      ensures Dealing(was, ms + Movers(queues.heads[i], effort.tx, was, s), ups, queues.nsOf, servers)
    {
      hide QueuesOk, EffortOk, CallbacksOk, ServersOk, Dealing, Movers, UpOf, Round;
      var list := queues.heads[i];
      var j := 0;
      NoMovers(effort.tx, was, s);
      ListDistinct(i);
      assert list[..0] == [] && ms + [] == ms;
      while j < |list|
        invariant 0 <= j <= |list| && Core() && SameRequests() && servers == old(servers).(ring := servers.ring)
        invariant Dealing(was, ms + Movers(list[..j], effort.tx, was, s), ups, queues.nsOf, servers)
      {
        var x := list[j];
        InList(i, x);
        ghost var before := ms + Movers(list[..j], effort.tx, was, s);
        MoverStep(was, ms, list, j, ups, queues.nsOf, servers, effort.tx, s);
        if effort.tx[x] == 0 && queues.nsOf[x] == s {
          SomeServer();
          ghost var sv := servers;
          var r := PickServer();
          DealNext(was, before, ups, queues.nsOf, sv, servers, x);
          assert r.value == Round(ups, |before|);
          SwapNs(x, r.value);
        } else {
          assert before + [] == before;
        }
        j := j + 1;
      }
      assert list[..|list|] == list;
    }

    static lemma NoMovers(tx: map<Id, int>, nsOf: map<Id, Sid>, s: Sid)
      ensures Movers([], tx, nsOf, s) == []
    {
    }

    lemma ListDistinct(i: nat)
      requires QueuesOk(queues) && i < |queues.heads|
      ensures Distinct(queues.heads[i])
    {
      ListsApart(queues);
    }

    /** The next request of a list still has the server it had, and is among the movers if it waits for `s`. */
    static lemma MoverStep(was: map<Id, Sid>, ms: seq<Id>, list: seq<Id>, j: nat, ups: seq<Sid>, nsOf: map<Id, Sid>, sv: Servers,
                           tx: map<Id, int>, s: Sid)
      requires j < |list| && Distinct(list) && list[j] !in ms && list[j] in nsOf && list[j] in tx
      requires Dealing(was, ms + Movers(list[..j], tx, was, s), ups, nsOf, sv)
      ensures ms + Movers(list[..j + 1], tx, was, s) ==
              ms + Movers(list[..j], tx, was, s) + (if tx[list[j]] == 0 && nsOf[list[j]] == s then [list[j]] else [])
    {
      hide Movers, UpOf, Dealt;
      var x := list[j];
      MoversHas(list[..j], tx, was, s, x);
      DealtElse(was, ms + Movers(list[..j], tx, was, s), ups, x);
      assert list[..j + 1] == list[..j] + [x];
      MoversJoin(list[..j], [x], tx, was, s);
      OneMover(x, tx, was, s);
    }

    static lemma OneMover(x: Id, tx: map<Id, int>, nsOf: map<Id, Sid>, s: Sid)
      ensures Movers([x], tx, nsOf, s) == if Waits(tx, nsOf, s, x) then [x] else []
    {
      NoMovers(tx, nsOf, s);
      assert [x][1..] == [];
    }

    lemma SomeServer()
      requires Core() && servers.up != {}
      ensures queues.load.Keys != {}
    {
      ServerFields(servers, queues.load.Keys);
    }

    lemma InList(i: nat, x: Id)
      requires Core() && i < |queues.heads| && x in queues.heads[i]
      ensures x in queues.nsOf && x in queues.trans && x in effort.tx
    {
    }

    /** nameserver_failed: the server is down, and if another is up, no unsent request stays with it. */
    method Fail(s: Sid)
      requires Core() && s in queues.load
      modifies this`queues, this`servers
      ensures Core() && SameRequests() && MovedFrom(s)
      ensures servers == old(servers).(ring := servers.ring, up := old(servers.up) - {s}, good := servers.good, failed := servers.failed)
      ensures s in old(servers.up) && servers.up != {} ==> forall x :: !Unsent(x, s)
      ensures servers.up == {} || s !in old(servers.up) ==> queues == old(queues) && servers.ring == old(servers.ring)
      ensures s in old(servers.up) && servers.up != {} ==>
        var ups := UpOf(old(servers.ring), servers.up);
        Lists(ups, servers.up) && Dealing(old(queues.nsOf), MoversOf(old(queues), effort.tx, s), ups, queues.nsOf, servers)
    {
      hide QueuesOk, EffortOk, CallbacksOk, ServersOk;
      if s !in servers.up {
        assert servers.up == servers.up - {s};
        return;
      }
      ServerFields(servers, queues.load.Keys);
      DownOk(servers, queues.load.Keys, s, servers.failed[s := 1]);
      servers := servers.(up := servers.up - {s}, good := servers.good - 1, failed := servers.failed[s := 1]);
      ServerFields(servers, queues.load.Keys);
      if servers.good == 0 {
        return;
      }
      MoveAll(s);
    }

    /** The loop of nameserver_failed over the in-flight lists: the unsent requests of `s`, in order, are dealt
        the servers that are up, in ring order and round again. */
    method MoveAll(s: Sid)
      requires Core() && servers.up != {} && s !in servers.up
      modifies this`queues, this`servers
      ensures Core() && SameRequests() && servers == old(servers).(ring := servers.ring) && MovedFrom(s)
      ensures forall x :: !Unsent(x, s)
      ensures var ups := UpOf(old(servers.ring), servers.up);
              Lists(ups, servers.up) && Dealing(old(queues.nsOf), MoversOf(old(queues), effort.tx, s), ups, queues.nsOf, servers)
    {
      hide QueuesOk, EffortOk, CallbacksOk, ServersOk, Dealing, UpOf, Movers, Walk, Lists;
      ghost var was, ups, heads, tx := queues.nsOf, UpOf(servers.ring, servers.up), queues.heads, effort.tx;
      UpListed(servers, queues.load.Keys);
      SomeUps(ups, servers.up);
      DealStart(was, servers);
      NoWalk(tx, was, s);
      assert heads[..0] == [];
      var i := 0;
      while i < |queues.heads|
        invariant 0 <= i <= |queues.heads| && Core() && SameRequests() && queues.heads == heads
        invariant servers == old(servers).(ring := servers.ring)
        invariant Dealing(was, Movers(Walk(heads[..i]), tx, was, s), ups, queues.nsOf, servers)
        decreases |queues.heads| - i
      {
        WalkStep(i, tx, was, s);
        MoveList(s, i, was, Movers(Walk(heads[..i]), tx, was, s), ups);
        i := i + 1;
      }
      assert heads[..|heads|] == heads;
      AllDealt(old(queues), tx, s, ups, servers.up, queues.nsOf, servers);
    }

    static lemma SomeUps(ups: seq<Sid>, up: set<Sid>)
      requires Lists(ups, up) && up != {}
      ensures ups != []
    {
    }

    static lemma NoWalk(tx: map<Id, int>, nsOf: map<Id, Sid>, s: Sid)
      ensures Movers(Walk([]), tx, nsOf, s) == []
    {
    }

    lemma WalkStep(i: nat, tx: map<Id, int>, was: map<Id, Sid>, s: Sid)
      requires QueuesOk(queues) && i < |queues.heads|
      ensures Movers(Walk(queues.heads[..i + 1]), tx, was, s) ==
              Movers(Walk(queues.heads[..i]), tx, was, s) + Movers(queues.heads[i], tx, was, s)
      ensures forall x :: x in queues.heads[i] ==> x !in Movers(Walk(queues.heads[..i]), tx, was, s)
    {
      hide Walk, Movers, ListsOk, IdsOk, CountsOk, Waits;
      WalkNext(queues.heads, i);
      MoversJoin(Walk(queues.heads[..i]), queues.heads[i], tx, was, s);
      ListsApart(queues);
      forall x | x in queues.heads[i]
        ensures x !in Movers(Walk(queues.heads[..i]), tx, was, s)
      {
        MoversHas(Walk(queues.heads[..i]), tx, was, s, x);
        WalkHas(queues.heads[..i], x);
      }
    }

    /** No request waits for `s` any more, and none was moved that did not. */
    static lemma AllDealt(q: Queues, tx: map<Id, int>, s: Sid, ups: seq<Sid>, up: set<Sid>, nsOf: map<Id, Sid>, sv: Servers)
      requires QueuesOk(q) && Lists(ups, up) && s !in up && nsOf.Keys == q.nsOf.Keys
      requires Dealing(q.nsOf, MoversOf(q, tx, s), ups, nsOf, sv)
      ensures forall x :: !Waits(tx, nsOf, s, x)
      ensures forall x :: x in nsOf && nsOf[x] != q.nsOf[x] ==> Waits(tx, q.nsOf, s, x) && nsOf[x] in up
    {
      hide QueuesOk, MoversOf, UpOf, Dealt, Lists;
      forall x | x in nsOf
        ensures !Waits(tx, nsOf, s, x)
        ensures nsOf[x] != q.nsOf[x] ==> Waits(tx, q.nsOf, s, x) && nsOf[x] in up
      {
        DealtFacts(q, tx, s, ups, up, x);
      }
    }

    /** Transmission never touches what is in the queues, nor brings a server up. */
    twostate predicate OnlySent()
      reads this
    {
      && SameRequests() && servers.up <= old(servers.up) && servers.probe == old(servers.probe)
      && effort.reissues == old(effort.reissues)
    }

    /** One of the sends from number `from` up to `to` broke. */
    ghost predicate Broke(from: nat, to: nat) {
      exists k :: from <= k < to && net(k) == Broken
    }

    /** One of these sends choked. */
    ghost predicate Stuck(from: nat, to: nat) {
      exists k :: from <= k < to && net(k) == Choked
    }

    lemma NeverBroke(at: nat)
      ensures !Broke(at, at) && !Stuck(at, at)
    {
    }

    lemma BrokeSplit(from: nat, mid: nat, to: nat)
      requires from <= mid <= to
      ensures Broke(from, to) <==> Broke(from, mid) || Broke(mid, to)
      ensures Stuck(from, to) <==> Stuck(from, mid) || Stuck(mid, to)
    {
    }

    /** Only a broken send takes a server down, and only a choked one marks a server choked. */
    twostate predicate Steady()
      reads this
    {
      && old(attempts) <= attempts && old(servers.choked) <= servers.choked
      && (!Broke(old(attempts), attempts) ==> servers.up == old(servers.up))
      && (!Stuck(old(attempts), attempts) ==> servers.choked == old(servers.choked))
    }

    /** The requests in flight that have been sent to their server or are due for it. */
    ghost function Going(): set<Id>
      reads this
    {
      Tried(effort, queues.nsOf.Keys)
    }

    /** evdns_request_transmit, for a request with tries left. */
    method Transmit(x: Id)
      requires Core() && x in queues.nsOf && x in effort.tx && effort.tx[x] < limits.Tries()
      modifies this`queues, this`servers, this`effort, this`attempts
      ensures Core() && OnlySent() && old(queues.nsOf.Keys) == queues.nsOf.Keys
      ensures x in old(effort.sent) && old(x in queues.nsOf) && Steady()
      ensures var tried := old(queues.nsOf[x] !in servers.choked);
              && attempts == old(attempts) + (if tried then 1 else 0)
              && effort == (if tried && net(old(attempts)) != Choked then Counted(Marked(old(effort), x), x) else Marked(old(effort), x))
              && servers.choked == old(servers.choked) + (if tried && net(old(attempts)) == Choked then {old(queues.nsOf)[x]} else {})
              && if tried && net(old(attempts)) == Broken then old(queues.nsOf)[x] !in servers.up
                 else queues == old(queues) && servers == old(servers).(choked := servers.choked)
      ensures old(Going()) + {x} <= Going()
    {
      hide QueuesOk, EffortOk, CallbacksOk, ServersOk, Tried;
      Placed(queues, x);
      TriesLeft(effort, limits, queues.trans.Keys, queues.nsOf.Keys, issued, x);
      TriedOne(effort, limits, queues.trans.Keys, queues.nsOf.Keys, issued, x);
      Mark(x);
      if queues.nsOf[x] in servers.choked {
        return;
      }
      var outcome := net(attempts);
      attempts := attempts + 1;
      if outcome == Choked {
        Choke(queues.nsOf[x]);
        return;
      }
      if outcome == Broken {
        Fail(queues.nsOf[x]);
      }
      Count(x);
    }

    /** Due for transmission. */
    method Mark(x: Id)
      requires Core() && x in queues.trans && x in effort.tx && effort.tx[x] < limits.Tries()
      modifies this`effort
      ensures Core() && effort == old(effort).(transmitMe := old(effort.transmitMe) + {x})
    {
      hide QueuesOk, EffortOk, CallbacksOk, ServersOk;
      MarkedOk(effort, limits, queues.trans.Keys, queues.nsOf.Keys, issued, x);
      effort := effort.(transmitMe := effort.transmitMe + {x});
    }

    /** Transmitted, for better or worse. */
    method Count(x: Id)
      requires Core() && x in queues.nsOf && x in effort.tx && effort.tx[x] < limits.Tries()
      modifies this`effort
      ensures Core() && x in old(effort.sent) && effort == Counted(old(effort), x)
    {
      hide QueuesOk, EffortOk, CallbacksOk, ServersOk;
      Placed(queues, x);
      TriesLeft(effort, limits, queues.trans.Keys, queues.nsOf.Keys, issued, x);
      CountedOk(effort, limits, queues.trans.Keys, queues.nsOf.Keys, issued, x);
      effort := Effort(effort.tx[x := effort.tx[x] + 1], effort.reissues, effort.transmitMe - {x}, effort.sent[x := effort.sent[x] + 1]);
    }

    method Choke(s: Sid)
      requires Core()
      modifies this`servers
      ensures Core() && servers == old(servers).(choked := old(servers.choked) + {s})
    {
      hide QueuesOk, EffortOk, CallbacksOk, ServersOk;
      ServerFields(servers, queues.load.Keys);
      ServersFrame(servers, servers.(choked := servers.choked + {s}), queues.load.Keys);
      servers := servers.(choked := servers.choked + {s});
    }

    /** One list of evdns_transmit. */
    method TransmitList(i: nat)
      requires Core() && i < |queues.heads|
      modifies this`queues, this`servers, this`effort, this`attempts
      ensures Core() && OnlySent() && Steady() && Transmitted(old(effort), effort) && old(servers.choked) <= servers.choked
      ensures servers.choked == {} ==> forall x :: x in queues.heads[i] ==> x !in effort.transmitMe
    {
      hide QueuesOk, EffortOk, CallbacksOk, ServersOk, Transmitted, Base.Broke, Base.Stuck;
      NeverBroke(attempts);
      var list := queues.heads[i];
      var j := 0;
      NothingSent(effort);
      while j < |list|
        invariant 0 <= j <= |list| && Core() && OnlySent() && Steady() && Transmitted(old(effort), effort)
        invariant old(servers.choked) <= servers.choked
        invariant servers.choked == {} ==> forall k :: 0 <= k < j ==> list[k] !in effort.transmitMe
      {
        InList(i, list[j]);
        if list[j] in effort.transmitMe {
          ghost var mid := attempts;
          TransmitMarked(list[j]);
          BrokeSplit(old(attempts), mid, attempts);
        }
        j := j + 1;
      }
    }

    /** One request that is due for transmission. */
    method TransmitMarked(x: Id)
      requires Core() && x in queues.nsOf && x in effort.transmitMe
      modifies this`queues, this`servers, this`effort, this`attempts
      ensures Core() && OnlySent() && Steady() && effort.transmitMe <= old(effort.transmitMe) && old(servers.choked) <= servers.choked
      ensures servers.choked == {} ==> x !in effort.transmitMe
      ensures forall e :: Transmitted(e, old(effort)) ==> Transmitted(e, effort)
    {
      hide QueuesOk, EffortOk, CallbacksOk, ServersOk, Transmitted, Marked, Counted, Base.Broke, Base.Stuck;
      Placed(queues, x);
      TriesLeft(effort, limits, queues.trans.Keys, queues.nsOf.Keys, issued, x);
      TransmittedOne(effort, x);
      Transmit(x);
      forall e | Transmitted(e, old(effort))
        ensures Transmitted(e, effort)
      {
        TransmittedMore(e, old(effort), effort);
      }
    }

    static lemma NothingSent(e: Effort)
      ensures Transmitted(e, e)
    {
    }

    /** evdns_transmit: requests due for transmission are sent, each once and no others; all of them, if no
        server chokes. */
    method TransmitAll()
      requires Core()
      modifies this`queues, this`servers, this`effort, this`attempts
      ensures Core() && OnlySent() && Steady() && Transmitted(old(effort), effort) && old(servers.choked) <= servers.choked
      ensures servers.choked == {} ==> forall x :: x in queues.nsOf ==> x !in effort.transmitMe
      ensures old(Going()) <= Going()
    {
      hide QueuesOk, EffortOk, CallbacksOk, ServersOk, Transmitted, Base.Broke, Base.Stuck, Tried;
      ghost var start := effort;
      EffortIsOk();
      NeverBroke(attempts);
      var i := 0;
      NothingSent(effort);
      while i < |queues.heads|
        invariant 0 <= i <= |queues.heads| && Core() && OnlySent() && Steady() && Transmitted(old(effort), effort)
        invariant old(servers.choked) <= servers.choked
        invariant servers.choked == {} ==> forall k, x :: 0 <= k < i && x in queues.heads[k] ==> x !in effort.transmitMe
        decreases |queues.heads| - i
      {
        ghost var mid := attempts;
        TransmitNext(i, old(effort));
        BrokeSplit(old(attempts), mid, attempts);
        i := i + 1;
      }
      forall x | x in queues.nsOf
        ensures servers.choked == {} ==> x !in effort.transmitMe
      {
        Placed(queues, x);
      }
      TriedMore(start, effort, limits, queues.trans.Keys, queues.nsOf.Keys, issued);
    }

    lemma EffortIsOk()
      requires Core()
      ensures EffortOk(effort, limits, queues.trans.Keys, queues.nsOf.Keys, issued)
    {
    }

    method TransmitNext(i: nat, ghost from: Effort)
      requires Core() && i < |queues.heads| && Transmitted(from, effort)
      modifies this`queues, this`servers, this`effort, this`attempts
      ensures Core() && OnlySent() && Steady() && Transmitted(from, effort) && effort.transmitMe <= old(effort.transmitMe)
      ensures old(servers.choked) <= servers.choked
      ensures servers.choked == {} ==> forall x :: x in queues.heads[i] ==> x !in effort.transmitMe
    {
      hide QueuesOk, EffortOk, CallbacksOk, ServersOk, Base.Broke, Base.Stuck;
      TransmitList(i);
      TransmittedMore(from, old(effort), effort);
    }

    /** transaction_id_pick: some id that no request in flight has. */
    method PickId(q: Queues) returns (id: nat)
      requires QueuesOk(q) && q.inflight < NO_ID
      ensures FreeId(q, id)
    {
      hide QueuesOk;
      FreeIdExists(q);
      var any: int :| FreeId(q, any);
      id := any;
    }

    /** A waiting request moves to the in-flight list its new id names, assigned to server `s`. */
    method Launch(x: Id, s: Sid)
      requires Core() && x in queues.waiting && s in queues.load && queues.inflight < NO_ID
      modifies this`queues
      ensures Core() && queues.trans.Keys == old(queues.trans.Keys) && queues.nsOf == old(queues.nsOf)[x := s]
      ensures x !in old(queues.nsOf) && queues.load.Keys == old(queues.load.Keys)
      ensures queues.nWaiting == old(queues.nWaiting) - 1 && queues.inflight == old(queues.inflight) + 1
      ensures queues.waiting == Without(old(queues.waiting), x)
    {
      hide QueuesOk, EffortOk, CallbacksOk, ServersOk, Without, Flying;
      UnqueuedOk(queues, x);
      Placed(queues, x);
      var q := queues.(trans := queues.trans - {x}, waiting := Without(queues.waiting, x), nWaiting := queues.nWaiting - 1);
      Placed(q, x);
      var id := PickId(q);
      FlyingOk(q, x, id, s);
      FlyingShape(q, x, id, s);
      LaunchedOk(effort, limits, queues.trans.Keys, queues.nsOf.Keys, issued, x);
      assert queues.trans.Keys == q.trans.Keys + {x};
      queues := Flying(q, x, id, s);
    }

    static lemma FlyingShape(q: Queues, x: Id, id: nat, s: Sid)
      requires |q.heads| > 0 && s in q.load
      ensures var r := Flying(q, x, id, s);
              && r.trans.Keys == q.trans.Keys + {x} && r.nsOf.Keys == q.nsOf.Keys + {x} && r.load.Keys == q.load.Keys
              && r.nsOf == q.nsOf[x := s] && r.waiting == q.waiting && r.nWaiting == q.nWaiting && r.inflight == q.inflight + 1
    {
    }

    /** evdns_requests_pump_waiting_queue: afterwards the in-flight limit is reached, or nothing waits,
        or there is no server at all. */
    method Pump()
      requires Core()
      modifies this`queues, this`servers, this`effort, this`attempts
      ensures Pumped() && LetOut(old(queues.waiting)) && Steady() && old(Going()) <= Going()
      ensures |queues.waiting| < |old(queues.waiting)| ==> AllSent()
      ensures Core() && queues.trans.Keys == old(queues.trans.Keys) && queues.load.Keys == old(queues.load.Keys)
      ensures old(queues.nsOf.Keys) <= queues.nsOf.Keys
      ensures servers.up <= old(servers.up) && servers.probe == old(servers.probe)
      ensures old(queues.waiting) == [] ==> servers == old(servers)
    {
      hide QueuesOk, EffortOk, CallbacksOk, ServersOk, Base.Broke, Base.Stuck, Tried, Split;
      NeverBroke(attempts);
      Placed(queues, 0);
      SplitNone(queues.waiting, Going());
      while queues.inflight < maxInflight && queues.nWaiting != 0
        invariant Core() && queues.trans.Keys == old(queues.trans.Keys) && queues.load.Keys == old(queues.load.Keys)
        invariant old(queues.nsOf.Keys) <= queues.nsOf.Keys && queues.nWaiting == |queues.waiting|
        invariant servers.up <= old(servers.up) && servers.probe == old(servers.probe)
        invariant LetOut(old(queues.waiting)) && Steady() && old(Going()) <= Going()
        invariant |queues.waiting| < |old(queues.waiting)| ==> AllSent()
        invariant |queues.waiting| <= |old(queues.waiting)|
        invariant old(queues.waiting) == [] ==> servers == old(servers)
        decreases |queues.waiting|
      {
        ghost var mid, waiting, going := attempts, queues.waiting, Going();
        var done := PumpOne();
        BrokeSplit(old(attempts), mid, attempts);
        SplitNext(old(queues.waiting), waiting, queues.waiting, going, Going());
        if done {
          break;
        }
      }
    }

    /** The in-flight limit is reached, or nothing waits, or there is no server at all. */
    ghost predicate Pumped()
      reads this
    {
      queues.inflight >= maxInflight || queues.waiting == [] || queues.load.Keys == {}
    }

    /** Of the requests `from` the first have been let out, and are in flight and sent or due to be; the rest
        wait, in order. */
    ghost predicate LetOut(from: seq<Id>)
      reads this
    {
      Split(from, queues.waiting, Going())
    }

    /** If no server is choked, nothing in flight is due to be sent. */
    ghost predicate AllSent()
      reads this
    {
      servers.choked == {} ==> forall x :: x in queues.nsOf ==> x !in effort.transmitMe
    }

    /** One turn of the pump. */
    method PumpOne() returns (stuck: bool)
      requires Core() && queues.inflight < maxInflight && queues.waiting != []
      modifies this`queues, this`servers, this`effort, this`attempts
      ensures Steady()
      ensures Core() && queues.trans.Keys == old(queues.trans.Keys) && queues.load.Keys == old(queues.load.Keys)
      ensures old(queues.nsOf.Keys) <= queues.nsOf.Keys && queues.nWaiting == |queues.waiting|
      ensures servers.up <= old(servers.up) && servers.probe == old(servers.probe)
      ensures if stuck then queues == old(queues) && queues.load.Keys == {} && effort == old(effort) && servers.choked == old(servers.choked)
              else queues.waiting == old(queues.waiting)[1..] && old(queues.waiting)[0] in Going()
      ensures old(Going()) <= Going() && (!stuck ==> AllSent())
    {
      hide QueuesOk, EffortOk, CallbacksOk, ServersOk, Base.Broke, Base.Stuck, Transmitted, Tried;
      var x := queues.waiting[0];
      FirstOut(queues.waiting);
      Placed(queues, x);
      TriesLeft(effort, limits, queues.trans.Keys, queues.nsOf.Keys, issued, x);
      var s := PickServer();
      if s.None? {
        return true;
      }
      SendNext(x, s.value);
      Placed(queues, x);
      return false;
    }

    /** The first waiting request is sent to server `s`, and then whatever else is due. */
    method SendNext(x: Id, s: Sid)
      requires Core() && queues.inflight < maxInflight && x in queues.waiting && s in queues.load
      requires x !in queues.nsOf && x in effort.tx && effort.tx[x] < limits.Tries()
      modifies this`queues, this`servers, this`effort, this`attempts
      ensures Core() && Steady() && queues.trans.Keys == old(queues.trans.Keys) && queues.load.Keys == old(queues.load.Keys)
      ensures old(queues.nsOf.Keys) <= queues.nsOf.Keys && queues.waiting == Without(old(queues.waiting), x)
      ensures servers.up <= old(servers.up) && servers.probe == old(servers.probe)
      ensures old(Going()) + {x} <= Going() && AllSent()
    {
      hide QueuesOk, EffortOk, CallbacksOk, ServersOk, Base.Broke, Base.Stuck, Transmitted, Tried, Marked, Counted, Without;
      TriedGrows(effort, queues.nsOf.Keys, queues.nsOf.Keys + {x});
      Launch(x, s);
      assert queues.nsOf.Keys == old(queues.nsOf.Keys) + {x};
      Transmit(x);
      ghost var mid := attempts;
      TransmitAll();
      BrokeSplit(old(attempts), mid, attempts);
    }

    /** reply_schedule_callback. */
    method Schedule(x: Id)
      requires Core() && x in queues.trans && x !in pending
      modifies this`scheduled, this`pending
      ensures Core() && scheduled == old(scheduled) + [x] && pending == old(pending) + {x}
    {
      hide QueuesOk, EffortOk, CallbacksOk, ServersOk;
      ScheduledOk(scheduled, pending, queues.trans.Keys, issued, x);
      scheduled := scheduled + [x];
      pending := pending + {x};
    }

    /** request_finished, once the callback is scheduled: the request leaves its list and its counters,
        and the waiting queue is pumped. */
    method Finish(x: Id)
      requires Core() && x in pending
      modifies this`queues, this`servers, this`effort, this`attempts, this`pending
      ensures Core() && pending == old(pending) - {x} && queues.trans.Keys == old(queues.trans.Keys) - {x}
      ensures queues.load.Keys == old(queues.load.Keys)
      ensures servers.up <= old(servers.up) && servers.probe == old(servers.probe)
      ensures old(queues.waiting == [] && x in queues.nsOf) ==> servers == old(servers)
      ensures Pumped() && LetOut(Others(old(queues.waiting), x)) && Steady()
      ensures old(Going()) - {x} <= Going() && old(queues.nsOf.Keys) - {x} <= queues.nsOf.Keys
    {
      hide QueuesOk, EffortOk, CallbacksOk, ServersOk, Base.Broke, Base.Stuck, Split, Others, Tried;
      Remove(x);
      Pump();
    }

    method Remove(x: Id)
      requires Core() && x in pending
      modifies this`queues, this`effort, this`pending
      ensures Core() && pending == old(pending) - {x} && queues.trans.Keys == old(queues.trans.Keys) - {x}
      ensures queues.load.Keys == old(queues.load.Keys) && x in old(queues.trans)
      ensures x in old(queues.nsOf) ==>
        queues.inflight == old(queues.inflight) - 1 && queues.nWaiting == old(queues.nWaiting) && queues.waiting == old(queues.waiting)
      ensures queues.waiting == Others(old(queues.waiting), x) && queues.nsOf.Keys == old(queues.nsOf.Keys) - {x}
      ensures Going() == old(Going()) - {x}
      ensures x !in old(queues.nsOf) ==> queues.inflight == old(queues.inflight) && queues.nWaiting == old(queues.nWaiting) - 1
    {
      hide QueuesOk, EffortOk, CallbacksOk, ServersOk, Without, Tried, Gone;
      TriedGone(effort, queues.nsOf.Keys, x);
      PendingLive(x);
      Placed(queues, x);
      GoneOk(effort, limits, queues.trans.Keys, queues.nsOf.Keys, issued, x);
      LeftOk(scheduled, pending, queues.trans.Keys, issued, x);
      var q := queues;
      if x in q.nsOf {
        LandedOk(q, x);
        var h, s := q.trans[x] % |q.heads|, q.nsOf[x];
        queues := Queues(q.trans - {x}, q.nsOf - {x}, q.heads[h := Without(q.heads[h], x)], q.waiting,
                         q.inflight - 1, q.nWaiting, q.load[s := q.load[s] - 1]);
      } else {
        UnqueuedOk(q, x);
        queues := q.(trans := q.trans - {x}, waiting := Without(q.waiting, x), nWaiting := q.nWaiting - 1);
      }
      assert queues.trans.Keys == q.trans.Keys - {x} && queues.nsOf.Keys == q.nsOf.Keys - {x} && queues.load.Keys == q.load.Keys;
      Forget(x);
      pending := pending - {x};
    }

    method Forget(x: Id)
      modifies this`effort
      ensures effort == Gone(old(effort), x)
    {
      effort := Effort(effort.tx - {x}, effort.reissues - {x}, effort.transmitMe - {x}, effort.sent);
    }

    lemma PendingLive(x: Id)
      requires Core() && x in pending
      ensures x in queues.trans && x in issued
    {
    }

    /** evdns_cancel_request. */
    method Cancel(x: Id)
      requires Core()
      modifies this`queues, this`servers, this`effort, this`attempts, this`scheduled, this`pending
      ensures Core() && pending == old(pending) && queues.load.Keys == old(queues.load.Keys)
      ensures servers.up <= old(servers.up) && servers.probe == old(servers.probe)
      ensures if x in old(queues.trans) && x !in old(pending)
              then EndedBy(x)
              else queues == old(queues) && scheduled == old(scheduled) && servers == old(servers) && attempts == old(attempts)
                   && effort == old(effort)
      ensures Steady() && old(Going()) - {x} <= Going() && old(queues.nsOf.Keys) - {x} <= queues.nsOf.Keys
    {
      hide QueuesOk, EffortOk, CallbacksOk, ServersOk, Base.Broke, Base.Stuck, Split, Others, Tried;
      NeverBroke(attempts);
      if x !in queues.trans || x in pending {
        return;
      }
      Schedule(x);
      Finish(x);
      assert pending == old(pending);
    }

    /** nameserver_up. Nothing but the server's own probe is cancelled for it. */
    method MarkUp(s: Sid)
      requires Core() && s in queues.load
      modifies this`queues, this`servers, this`effort, this`attempts, this`scheduled, this`pending
      ensures Core() && pending == old(pending) && queues.load.Keys == old(queues.load.Keys)
      ensures s in servers.up && servers.up <= old(servers.up) + {s}
      ensures queues.trans.Keys <= old(queues.trans.Keys)
      ensures forall y :: y in old(queues.trans) && (y !in queues.trans) ==>
        s !in old(servers.up) && s in old(servers.probe) && old(servers.probe)[s] == y
      ensures s in old(servers.up) ==> queues == old(queues) && servers == old(servers) && scheduled == old(scheduled)
      ensures s !in old(servers.up) && s !in old(servers.probe) ==>
        queues == old(queues) && servers == Raised(old(servers), s) && scheduled == old(scheduled)
      ensures old(attempts) <= attempts && (!Broke(old(attempts), attempts) ==> servers.up == old(servers.up) + {s})
      ensures if s in old(servers.probe) && s !in old(servers.up)
              then LetOut(OthersIfGone(old(servers.probe[s]))) && old(queues.nsOf.Keys) - {old(servers.probe[s])} <= queues.nsOf.Keys
                   && (old(servers.probe[s]) !in pending ==> old(servers.probe[s]) !in queues.trans)
                   && scheduled == old(scheduled) + (if old(servers.probe[s] in queues.trans && servers.probe[s] !in pending) then [old(servers.probe[s])] else [])
              else queues == old(queues) && scheduled == old(scheduled) && effort == old(effort)
    {
      hide QueuesOk, EffortOk, CallbacksOk, ServersOk, Base.Broke, Base.Stuck, Split, Others, Tried;
      SplitNone(queues.waiting, Going());
      NeverBroke(attempts);
      if s in servers.up {
        assert servers.up == servers.up + {s};
        return;
      }
      if s in servers.probe {
        Cancel(servers.probe[s]);
      }
      SetUp(s);
    }

    method SetUp(s: Sid)
      requires Core() && s in queues.load && s !in servers.up
      modifies this`servers
      ensures Core() && servers == Raised(old(servers), s)
    {
      hide QueuesOk, EffortOk, CallbacksOk, ServersOk;
      ServerFields(servers, queues.load.Keys);
      var bare := servers.(probe := servers.probe - {s});
      ServersFrame(servers, bare, queues.load.Keys);
      var failed, timedout := bare.failed[s := 0], bare.timedout[s := 0];
      assert failed.Keys == queues.load.Keys && timedout.Keys == queues.load.Keys;
      UpOk(bare, queues.load.Keys, s, failed, timedout);
      servers := bare.(up := bare.up + {s}, good := bare.good + 1, failed := failed, timedout := timedout);
    }

    /** Changing a server's probe or its count of timeouts. */
    method Note(s: Sid, probe: map<Sid, Id>, timedout: int)
      requires Core() && s in queues.load
      modifies this`servers
      ensures Core() && servers == old(servers).(probe := probe, timedout := old(servers.timedout)[s := timedout])
    {
      hide QueuesOk, EffortOk, CallbacksOk, ServersOk;
      ServerFields(servers, queues.load.Keys);
      var t := servers.(probe := probe, timedout := servers.timedout[s := timedout]);
      assert t.timedout.Keys == queues.load.Keys;
      ServersFrame(servers, t, queues.load.Keys);
      servers := t;
    }

    /** request_reissue: whether another server was found; if so the request starts over with it. */
    method Reissue(x: Id) returns (ok: bool)
      requires Core() && x in queues.nsOf && x in effort.reissues && effort.reissues[x] < limits.maxReissues
      modifies this`queues, this`servers, this`effort
      ensures Core() && SameRequests() && servers == old(servers).(ring := servers.ring)
      ensures ok ==> queues.nsOf[x] != old(queues.nsOf)[x] && effort == Again(old(effort), x)
      ensures old(servers.ring) != [] && (ok <==> NextPick(old(servers)) != old(queues.nsOf)[x])
      ensures ok && servers.up != {} ==> queues.nsOf[x] in servers.up
      ensures !ok ==> effort == old(effort) && queues.nsOf[x] == old(queues.nsOf)[x]
    {
      hide QueuesOk, EffortOk, CallbacksOk, ServersOk;
      Placed(queues, x);
      var last := queues.nsOf[x];
      var s := PickServer();
      SwapNs(x, s.value);
      if queues.nsOf[x] == last {
        return false;
      }
      AgainOk(effort, limits, queues.trans.Keys, queues.nsOf.Keys, issued, x);
      effort := Effort(effort.tx[x := 0], effort.reissues[x := effort.reissues[x] + 1], effort.transmitMe + {x}, effort.sent);
      return true;
    }

    /** evdns_request_timeout_callback. */
    method TimeoutRequest(x: Id)
      requires Valid() && x in queues.nsOf
      modifies this
      ensures Valid() && issued == old(issued) && maxInflight == old(maxInflight)
      ensures x in old(effort.tx)
      ensures TimedOut(x, old(servers)) && OnlyEnds()
    {
      hide QueuesOk, EffortOk, CallbacksOk, ServersOk;
      Placed(queues, x);
      TriesLeft(effort, limits, queues.trans.Keys, queues.nsOf.Keys, issued, x);
      if effort.tx[x] >= limits.maxRetransmits {
        var s := queues.nsOf[x];
        Schedule(x);
        Finish(x);
        assert pending == {};
        Fail(s);
      } else {
        Retransmit(x);
      }
    }

    method Retransmit(x: Id)
      requires Core() && x in queues.nsOf && x in effort.tx && effort.tx[x] < limits.maxRetransmits
      modifies this`queues, this`servers, this`effort, this`attempts
      ensures Core() && OnlySent() && Resent(x, old(servers), old(effort), old(attempts))
    {
      hide QueuesOk, EffortOk, CallbacksOk, ServersOk, NextPick, Tried;
      Placed(queues, x);
      TriesLeft(effort, limits, queues.trans.Keys, queues.nsOf.Keys, issued, x);
      var pick := PickServer();
      SwapNs(x, pick.value);
      Transmit(x);
      CountTimeout(x);
    }

    /** The request goes to the server that is picked next, counted unless that is choked or chokes; a broken
        send takes that server down; if it is not broken, the timeout is counted against that server. */
    ghost predicate Resent(x: Id, before: Servers, e: Effort, n: nat)
      reads this
    {
      && before.ring != [] && x in e.tx && x in e.sent
      && var t := NextPick(before);
         var tried := t !in before.choked;
         && attempts == n + (if tried then 1 else 0)
         && effort == (if tried && net(n) != Choked then Counted(Marked(e, x), x) else Marked(e, x))
         && if tried && net(n) == Broken then t !in servers.up
            else Counts(t, before) && x in queues.nsOf && (t in servers.up || servers.up == before.up ==> queues.nsOf[x] == t)
    }

    /** One more timeout of `s` than in `before`; with more in a row than allowed the count starts over and the
        server is down. */
    ghost predicate Counts(s: Sid, before: Servers)
      reads this
    {
      s in before.timedout &&
      if before.timedout[s] + 1 > maxTimeouts then servers.timedout == before.timedout[s := 0] && servers.up == before.up - {s}
      else servers.timedout == before.timedout[s := before.timedout[s] + 1] && servers.up == before.up
    }

    /** One more timeout of the server of `x`; too many in a row mark it down. */
    method CountTimeout(x: Id)
      requires Core() && x in queues.nsOf
      modifies this`queues, this`servers
      ensures Core() && OnlySent() && Counts(old(queues.nsOf[x]), old(servers))
      ensures x in old(queues.nsOf) && old(Going()) == Going()
      ensures servers.up == old(servers.up) ==> queues == old(queues)
    {
      hide QueuesOk, EffortOk, CallbacksOk, ServersOk, Tried;
      Placed(queues, x);
      ServerFields(servers, queues.load.Keys);
      var s := queues.nsOf[x];
      if servers.timedout[s] + 1 > maxTimeouts {
        Note(s, servers.probe, 0);
        Fail(s);
      } else {
        Note(s, servers.probe, servers.timedout[s] + 1);
      }
    }

    /** No request or server was made, and no callback taken back. */
    twostate predicate OnlyEnds()
      reads this
    {
      EndsSince(old(queues), old(scheduled))
    }

    ghost predicate EndsSince(q: Queues, done: seq<Id>)
      reads this
    {
      queues.load.Keys == q.load.Keys && queues.trans.Keys <= q.trans.Keys && done <= scheduled
    }

    lemma NothingEnds()
      ensures EndsSince(queues, scheduled)
    {
    }

    /** reply_handle, without search domains. */
    method HandleReply(x: Id, answer: Answer)
      requires Valid() && x in queues.nsOf
      modifies this
      ensures OnlyEnds() && Valid() && issued == old(issued) && maxInflight == old(maxInflight)
      ensures x in old(queues.trans) && x in old(effort.tx) && x in old(effort.reissues)
      ensures x in queues.trans || multiset(scheduled)[x] == 1
      ensures answer == Good || answer == OtherError ==>
        x !in queues.trans && Accepted(x)
      ensures var y := old(ProbeGoing(queues.nsOf[x], x));
              && (answer == Good ==> scheduled == old(scheduled) + [x] + y)
              && (answer == OtherError ==> scheduled == old(scheduled) + y + [x])
      ensures answer == ServerFailed ==> TimedOut(x, old(servers))
      ensures answer == Refusal ==> if x in queues.trans then ReissuedFor(x) else EndedBy(x)
      ensures answer == Refusal ==> (x in queues.trans <==> old(WillReissue(x)))
      ensures answer == Refusal && x !in queues.trans && old(queues.waiting == [] && effort.reissues[x] < limits.maxReissues) ==>
        servers.up == old(servers.up) - {old(queues.nsOf[x])}
    {
      hide QueuesOk, EffortOk, CallbacksOk, ServersOk, Reissues, Base.Broke, Base.Stuck, Split, Others, Tried,
        Base.Accepted, Base.Resent, Base.ProbeGoing, Base.LetOut, Base.ReissuedFor, Base.WillReissue;
      Placed(queues, x);
      Made(x);
      TriesLeft(effort, limits, queues.trans.Keys, queues.nsOf.Keys, issued, x);
      match answer {
        case Good =>
          Accept(x, true);
        case OtherError =>
          Accept(x, false);
        case ServerFailed =>
          TimeoutRequest(x);
        case Refusal =>
          HandleRefusal(x);
      }
      assert pending == {};
      Settled(x);
    }

    /** The refusals of reply_handle. */
    method HandleRefusal(x: Id)
      requires Valid() && x in queues.nsOf
      modifies this
      ensures Valid() && issued == old(issued) && maxInflight == old(maxInflight) && old(MayReissue(x)) && OnlyEnds()
      ensures x in queues.trans <==> old(WillReissue(x))
      ensures if x in queues.trans then ReissuedFor(x) else EndedBy(x)
      ensures x !in queues.trans && old(queues.waiting == [] && effort.reissues[x] < limits.maxReissues) ==>
        servers.up == old(servers.up) - {old(queues.nsOf[x])}
    {
      hide QueuesOk, EffortOk, CallbacksOk, ServersOk, Reissues;
      Placed(queues, x);
      var again := Refused(x);
      if !again {
        Schedule(x);
        Finish(x);
        assert pending == {};
      }
    }

    /** Server `s` is up, unless a send broke. */
    twostate predicate Praised(s: Sid)
      reads this
    {
      old(attempts) <= attempts && (!Broke(old(attempts), attempts) ==> servers.up == old(servers.up) + {s})
    }

    /** Server `s` is down and has a probe out. */
    ghost predicate Probed(s: Sid)
      reads this
    {
      s !in servers.up && s in servers.probe
    }

    /** `y` is the probe that would bring server `s` up. */
    ghost predicate ProbeOf(s: Sid, y: Id)
      reads this
    {
      s !in servers.up && s in servers.probe && servers.probe[s] == y
    }

    /** The request of `x` ended with a callback, and no other did; and waiting requests took its place. */
    twostate predicate EndedBy(x: Id)
      reads this
    {
      EndedSince(x, old(queues), old(scheduled))
    }

    ghost predicate EndedSince(x: Id, q: Queues, done: seq<Id>)
      reads this
    {
      && queues.trans.Keys == q.trans.Keys - {x} && scheduled == done + [x]
      && Pumped() && LetOut(Others(q.waiting, x))
    }

    /** `x` starts over with another server, the one it had being down. */
    twostate predicate ReissuedFor(x: Id)
      requires old(x in queues.nsOf && x in effort.reissues)
      reads this
    {
      ReissuedSince(x, old(queues), old(effort), old(servers.up), old(scheduled))
    }

    ghost predicate ReissuedSince(x: Id, q: Queues, e: Effort, up: set<Sid>, done: seq<Id>)
      requires x in q.nsOf && x in e.reissues
      reads this
    {
      && queues.trans == q.trans && queues.waiting == q.waiting && scheduled == done && effort == Again(e, x)
      && x in queues.nsOf && queues.nsOf[x] != q.nsOf[x] && servers.up == up - {q.nsOf[x]}
      && (servers.up != {} ==> queues.nsOf[x] in servers.up)
    }

    /** What a timeout does: the last one ends the request and marks its server down, any other sends it
        again unless the server chokes. */
    twostate predicate TimedOut(x: Id, before: Servers)
      requires old(x in queues.nsOf && x in effort.tx)
      reads this
    {
      TimedOutSince(x, old(queues), before, old(effort), old(scheduled), old(attempts))
    }

    ghost predicate TimedOutSince(x: Id, q: Queues, sv: Servers, e: Effort, done: seq<Id>, n: nat)
      requires x in q.nsOf && x in e.tx
      reads this
    {
      if e.tx[x] >= limits.maxRetransmits
      then EndedSince(x, q, done) && q.nsOf[x] !in servers.up
      else queues.trans == q.trans && scheduled == done && queues.waiting == q.waiting && Resent(x, sv, e, n)
    }

    /** A request that is not live any more has had its callback scheduled, once. */
    lemma Settled(x: Id)
      requires Valid() && x in issued
      ensures multiset(scheduled)[x] == if x in queues.trans then 0 else 1
    {
      hide QueuesOk, EffortOk, ServersOk;
      OneCallback(scheduled, queues.trans.Keys, issued, x);
    }

    lemma Made(x: Id)
      requires Core() && x in queues.trans
      ensures x in issued
    {
    }

    /** The server of `x` gave a usable answer: it is up, and `x` is no longer its probe. `from` are the requests
        that waited, without the probe if that was cancelled. */
    method Praise(x: Id) returns (ghost from: seq<Id>)
      requires Core() && x in queues.nsOf
      modifies this`queues, this`servers, this`effort, this`attempts, this`scheduled, this`pending
      ensures Core() && pending == old(pending) && x in queues.trans && x in queues.nsOf
      ensures queues.trans.Keys <= old(queues.trans.Keys) && queues.load.Keys == old(queues.load.Keys)
      ensures forall y :: y in old(queues.trans) && y !in queues.trans ==> old(ProbeOf(queues.nsOf[x], y))
      ensures Praised(old(queues.nsOf[x])) && LetOut(from) && x !in from
      ensures from == if old(Probed(queues.nsOf[x])) then OthersIfGone(old(servers.probe[queues.nsOf[x]])) else old(queues.waiting)
      ensures pending <= {x} ==> scheduled == old(scheduled) + old(ProbeGoing(queues.nsOf[x], x))
      ensures pending <= {x} && old(Probed(queues.nsOf[x])) ==> old(servers.probe[queues.nsOf[x]]) in {x} || old(servers.probe[queues.nsOf[x]]) !in queues.trans
    {
      hide QueuesOk, EffortOk, CallbacksOk, ServersOk, Base.Broke, Base.Stuck, Split, Others, Tried;
      Placed(queues, x);
      ServerFields(servers, queues.load.Keys);
      var s := queues.nsOf[x];
      from := queues.waiting;
      SplitNone(from, Going());
      if s in servers.probe && servers.probe[s] == x {
        Note(s, servers.probe - {s}, servers.timedout[s]);
      }
      ghost var probed := Probed(s);
      if probed {
        OthersLess(from, servers.probe[s], x);
      }
      MarkUp(s);
      if probed {
        from := OthersIfGone(old(servers.probe)[s]);
      }
    }

    /** The live probe that is cancelled when `s` comes up by an answer to `x`. */
    ghost function ProbeGoing(s: Sid, x: Id): seq<Id>
      reads this
    {
      if Probed(s) && servers.probe[s] != x && servers.probe[s] in queues.trans then [servers.probe[s]] else []
    }

    /** The requests that waited, without `y` if it is gone. */
    twostate function OthersIfGone(y: Id): seq<Id>
      reads this
    {
      if y in old(queues.trans) && y !in queues.trans then Others(old(queues.waiting), y) else old(queues.waiting)
    }

    /** A usable answer ends the request, before or after its server is praised. */
    method Accept(x: Id, early: bool)
      requires Valid() && x in queues.nsOf
      modifies this`queues, this`servers, this`effort, this`attempts, this`scheduled, this`pending
      ensures Valid() && x !in queues.trans && Accepted(x) && OnlyEnds()
      ensures var y := old(ProbeGoing(queues.nsOf[x], x)); scheduled == old(scheduled) + if early then [x] + y else y + [x]
    {
      hide QueuesOk, EffortOk, CallbacksOk, ServersOk, Base.Broke, Base.Stuck, Split, Others, Tried, Base.Pumped, Base.AcceptedSince;
      Placed(queues, x);
      ghost var s := queues.nsOf[x];
      if early {
        Schedule(x);
      }
      ghost var from := Praise(x);
      if !early {
        Schedule(x);
      }
      ghost var mid, waiting, going := attempts, queues.waiting, Going();
      Placed(queues, x);
      OthersNot(waiting, x);
      Finish(x);
      assert pending == {};
      BrokeSplit(old(attempts), mid, attempts);
      SplitMore(from, waiting, queues.waiting, going, Going(), x);
      OthersNot(old(queues.waiting), x);
      AcceptedNow(x, from, old(queues), old(servers), old(attempts));
    }

    /** The facts of Praise and Finish together. */
    lemma AcceptedNow(x: Id, from: seq<Id>, q: Queues, sv: Servers, n: nat)
      requires x in q.nsOf && queues.trans.Keys <= q.trans.Keys && n <= attempts && Pumped() && LetOut(from)
      requires var s := q.nsOf[x]; var probed := s !in sv.up && s in sv.probe;
        && (forall y :: y in q.trans && y !in queues.trans && y != x ==> probed && sv.probe[s] == y)
        && (!Broke(n, attempts) ==> servers.up == sv.up + {s}) && (probed ==> sv.probe[s] !in queues.trans)
        && from == if probed && sv.probe[s] in q.trans then Others(q.waiting, sv.probe[s]) else q.waiting
      ensures AcceptedSince(x, q, sv, n)
    {
    }

    static lemma OthersNot(list: seq<Id>, x: Id)
      ensures x !in list ==> Others(list, x) == list
    {
    }

    /** Besides `x` at most the probe of its server ended; the server is up unless a send broke; and waiting
        requests took their places. */
    twostate predicate Accepted(x: Id)
      requires old(x in queues.nsOf)
      reads this
    {
      AcceptedSince(x, old(queues), old(servers), old(attempts))
    }

    ghost predicate AcceptedSince(x: Id, q: Queues, sv: Servers, n: nat)
      requires x in q.nsOf
      reads this
    {
      var s := q.nsOf[x];
      var probed := s !in sv.up && s in sv.probe;
      && queues.trans.Keys <= q.trans.Keys
      && (forall y :: y in q.trans && y !in queues.trans && y != x ==> probed && sv.probe[s] == y)
      && n <= attempts && (!Broke(n, attempts) ==> servers.up == sv.up + {s})
      && Pumped() && (probed ==> sv.probe[s] !in queues.trans)
      && LetOut(if probed && sv.probe[s] in q.trans then Others(q.waiting, sv.probe[s]) else q.waiting)
    }

    lemma AcceptedSame(x: Id, q: Queues, sv: Servers, n: nat, timedout: map<Sid, int>)
      requires x in q.nsOf && AcceptedSince(x, q, sv.(timedout := timedout), n)
      ensures AcceptedSince(x, q, sv, n)
    {
    }

    /** A refusal: the server is marked down and the request reissued, if it may be and can be. */
    method Refused(x: Id) returns (again: bool)
      requires Core() && x in queues.nsOf
      modifies this`queues, this`servers, this`effort
      ensures Core() && SameRequests() && old(MayReissue(x))
      ensures again <==> old(WillReissue(x))
      ensures again ==> ReissuedFor(x)
      ensures servers.up == old(servers.up) - if old(effort.reissues[x] < limits.maxReissues) then {old(queues.nsOf[x])} else {}
    {
      hide QueuesOk, EffortOk, CallbacksOk, ServersOk, Reissues, Dealing, MoversOf, Lists, UpOf;
      Placed(queues, x);
      TriesLeft(effort, limits, queues.trans.Keys, queues.nsOf.Keys, issued, x);
      RingFacts(servers, queues.load.Keys);
      again := false;
      if effort.reissues[x] < limits.maxReissues {
        Fail(queues.nsOf[x]);
        RingFacts(servers, queues.load.Keys);
        if servers.up != {} {
          NextPickUp(servers, queues.load.Keys);
        }
        RefusalPick(old(queues), old(servers), effort.tx, x, queues.nsOf, servers);
        again := Reissue(x);
      } else {
        assert servers.up - {} == servers.up;
      }
    }

    /** The request is in flight, and there is a ring. */
    ghost predicate MayReissue(x: Id)
      reads this
    {
      x in queues.nsOf && x in effort.reissues && x in effort.tx && servers.ring != []
    }

    /** A refusal of `x` leads to a reissue. */
    ghost predicate WillReissue(x: Id)
      reads this
    {
      MayReissue(x) && effort.reissues[x] < limits.maxReissues && Reissues(queues, servers, effort.tx, x)
    }

    /** After the server of `x` was marked down, the next pick is another server than `x` now has exactly if
        `x` was to be reissued. */
    static lemma RefusalPick(q: Queues, sv: Servers, tx: map<Id, int>, x: Id, nsOf: map<Id, Sid>, after: Servers)
      requires QueuesOk(q) && x in q.nsOf && x in tx && sv.ring != [] && after.ring != [] && x in nsOf
      requires var s := q.nsOf[x];
               && after.up == sv.up - {s}
               && (after.up == {} || s !in sv.up ==> nsOf == q.nsOf && after.ring == sv.ring)
               && (s in sv.up && after.up != {} ==>
                     var ups := UpOf(sv.ring, after.up);
                     Lists(ups, after.up) && Dealing(q.nsOf, MoversOf(q, tx, s), ups, nsOf, after))
      requires after.up != {} ==> NextPick(after) in after.up
      ensures NextPick(after) != nsOf[x] <==> Reissues(q, sv, tx, x)
    {
      var s := q.nsOf[x];
      if s in sv.up && after.up != {} {
        hide QueuesOk, MoversOf, UpOf, Lists, Reissues, NextPick;
        var ups := UpOf(sv.ring, after.up);
        if Waits(tx, q.nsOf, s, x) {
          DealtReissue(q, sv, tx, x, ups, nsOf, after);
        } else {
          DealtFacts(q, tx, s, ups, after.up, x);
          OpenReissue(q, sv, tx, x);
        }
      } else {
        hide QueuesOk, MoversOf, UpOf, Lists, Dealing;
      }
    }

    /** A packet from server `from`: nameserver_read and reply_parse. It concerns the request in flight with
        its id; one that is too short, answers nothing in flight or is no answer changes only the server's
        count of timeouts. */
    method Receive(from: Sid, d: Datagram) returns (x: Option<Id>)
      requires Valid() && from in queues.load
      modifies this
      ensures Valid() && issued == old(issued) && maxInflight == old(maxInflight)
      ensures OnlyEnds()
      ensures x.None? <==> d.Runt? || !IsAnswer(d.flags)
                           || forall y :: y in old(queues.nsOf) && y in old(queues.trans) ==> old(queues.trans)[y] != d.id
      ensures x.None? ==> queues == old(queues) && scheduled == old(scheduled) && effort == old(effort) && attempts == old(attempts)
                          && servers == old(servers).(timedout := old(servers.timedout)[from := 0])
      ensures x.Some? ==>
        && x.value in old(queues.nsOf) && x.value in old(queues.trans) && old(queues.trans)[x.value] == d.id
        && x.value in old(effort.tx) && x.value in old(effort.reissues)
        && var a := Judge(d.flags, d.body);
           && (a == Good || a == OtherError ==> x.value !in queues.trans && multiset(scheduled)[x.value] == 1 && Accepted(x.value))
           && (a == ServerFailed ==> TimedOut(x.value, old(servers).(timedout := old(servers.timedout)[from := 0])))
           && (a == Refusal ==> if old(WillReissue(x.value)) then ReissuedFor(x.value) else EndedBy(x.value))
           && (a == Refusal && old(!WillReissue(x.value) && queues.waiting == [] && effort.reissues[x.value] < limits.maxReissues) ==>
                 servers.up == old(servers.up) - {old(queues.nsOf[x.value])})
    {
      hide QueuesOk, EffortOk, CallbacksOk, ServersOk, Reissues, Base.Broke, Base.Stuck, Split, Others, Tried,
        Base.LetOut, Base.ProbeGoing, Base.AcceptedSince, Base.EndsSince, Base.EndedSince, Base.TimedOutSince, Base.ReissuedSince;
      Note(from, servers.probe, 0);
      NothingEnds();
      if d.Runt? {
        return None;
      }
      x := Find(queues, d.id);
      if x.Some? {
        if servers.ring != [] {
          ReissuesFrame(queues, old(servers), servers, effort.tx, x.value);
        }
        if !IsAnswer(d.flags) {
          return None;
        }
        HandleReply(x.value, Judge(d.flags, d.body));
        if Judge(d.flags, d.body) in {Good, OtherError} {
          AcceptedSame(x.value, old(queues), old(servers), old(attempts), old(servers.timedout)[from := 0]);
        }
      }
    }

    /** request_new and request_submit. */
    method Resolve(x: Id)
      requires Valid() && x !in issued
      modifies this`queues, this`servers, this`effort, this`attempts, this`issued
      ensures Valid() && issued == old(issued) + {x} && queues.trans.Keys == old(queues.trans.Keys) + {x}
      ensures x in queues.nsOf <==> old(queues.inflight) < maxInflight && queues.load.Keys != {}
      ensures queues.load.Keys == old(queues.load.Keys)
      ensures x in queues.nsOf && old(servers.choked) == {} && net(old(attempts)) == Sent ==> SentOnce(x)
      ensures if x in queues.nsOf then x in Going() else x !in effort.transmitMe
    {
      hide QueuesOk, EffortOk, CallbacksOk, ServersOk, Tried;
      var id, s := NO_ID, None;
      if queues.inflight < maxInflight {
        id := PickId(queues);
        s := PickServer();
      }
      Make(x, id, s);
      if s.Some? {
        FirstSend(x);
      }
    }

    method FirstSend(x: Id)
      requires Core() && x in queues.nsOf && x in effort.tx && effort.tx[x] == 0
      modifies this`queues, this`servers, this`effort, this`attempts
      ensures Core() && OnlySent() && Steady() && x in Going()
      ensures !Broke(old(attempts), attempts) ==> queues == old(queues) && servers == old(servers).(choked := servers.choked)
      ensures old(servers.choked) == {} && net(old(attempts)) == Sent ==>
        && queues == old(queues) && servers.up == old(servers.up) && servers.choked == {} && attempts == old(attempts) + 1
        && x in effort.tx && effort.tx[x] == 1 && effort.reissues == old(effort.reissues)
    {
      hide QueuesOk, EffortOk, CallbacksOk, ServersOk, Tried;
      Placed(queues, x);
      TriesLeft(effort, limits, queues.trans.Keys, queues.nsOf.Keys, issued, x);
      FirstTry(x);
      Transmit(x);
    }

    /** The new request `x` was sent to a server that is up, if one is, and nothing else happened. */
    twostate predicate SentOnce(x: Id)
      reads this
    {
      && servers.up == old(servers.up) && servers.choked == old(servers.choked) && attempts == old(attempts) + 1
      && x in queues.nsOf && x in queues.trans && (servers.up != {} ==> queues.nsOf[x] in servers.up)
      && x in effort.tx && effort.tx[x] == 1 && x in effort.reissues && effort.reissues[x] == 0
      && queues.waiting == old(queues.waiting)
    }

    lemma FirstTry(x: Id)
      requires Core() && x in effort.tx && effort.tx[x] == 0
      ensures effort.tx[x] < limits.Tries()
    {
    }

    /** The new request joins the in-flight list of its id, or the waiting list if it has no server. */
    method Make(x: Id, id: nat, s: Option<Sid>)
      requires Core() && x !in issued && (s.Some? ==> s.value in queues.load && FreeId(queues, id))
      modifies this`queues, this`effort, this`issued
      ensures Core() && issued == old(issued) + {x} && queues.trans.Keys == old(queues.trans.Keys) + {x}
      ensures queues.nsOf == if s.Some? then old(queues.nsOf)[x := s.value] else old(queues.nsOf)
      ensures x !in old(queues.trans) && x !in old(queues.nsOf) && x in effort.tx && effort.tx[x] == 0
      ensures x in effort.reissues && effort.reissues[x] == 0 && x !in effort.transmitMe
      ensures queues.load.Keys == old(queues.load.Keys) && (s.Some? ==> queues.waiting == old(queues.waiting))
    {
      hide QueuesOk, EffortOk, CallbacksOk, ServersOk, FreeId, Flying, Fresh;
      NotMade(x);
      FreshOk(effort, limits, queues.trans.Keys, queues.nsOf.Keys, issued, x);
      FreshShape(effort, x);
      MadeOk(scheduled, pending, queues.trans.Keys, issued, x);
      Placed(queues, x);
      effort := Fresh(effort, x);
      issued := issued + {x};
      Place(x, id, s);
    }

    static lemma FreshShape(e: Effort, x: Id)
      ensures x in Fresh(e, x).tx && Fresh(e, x).tx[x] == 0 && x in Fresh(e, x).reissues && Fresh(e, x).reissues[x] == 0
      ensures x !in Fresh(e, x).transmitMe
    {
    }

    method Place(x: Id, id: nat, s: Option<Sid>)
      requires QueuesOk(queues) && x !in queues.trans && (s.Some? ==> s.value in queues.load && FreeId(queues, id))
      modifies this`queues
      ensures QueuesOk(queues) && queues.trans.Keys == old(queues.trans.Keys) + {x} && queues.load.Keys == old(queues.load.Keys)
      ensures queues.nsOf == if s.Some? then old(queues.nsOf)[x := s.value] else old(queues.nsOf)
      ensures s.Some? ==> queues.nsOf.Keys == old(queues.nsOf.Keys) + {x} && queues.waiting == old(queues.waiting)
    {
      hide QueuesOk, FreeId, Flying;
      Placed(queues, x);
      if s.Some? {
        FlyingOk(queues, x, id, s.value);
        FlyingShape(queues, x, id, s.value);
        queues := Flying(queues, x, id, s.value);
      } else {
        WaitingOk(queues, x, id);
        assert Waiting(queues, x, id).trans.Keys == queues.trans.Keys + {x};
        queues := Waiting(queues, x, id);
      }
    }

    lemma NotMade(x: Id)
      requires Core() && x !in issued
      ensures x !in queues.trans && x !in queues.nsOf
    {
      hide EffortOk, ServersOk;
      Placed(queues, x);
    }

    /** nameserver_send_probe: a request of the resolver's own, in flight whatever the limit. The source
        looks for a free id for as long as it takes, so there has to be one. */
    method SendProbe(s: Sid, x: Id)
      requires Valid() && s in queues.load && x !in issued && queues.inflight < NO_ID
      modifies this`queues, this`servers, this`effort, this`attempts, this`issued
      ensures Valid() && issued == old(issued) + {x} && queues.trans.Keys == old(queues.trans.Keys) + {x}
      ensures x in queues.nsOf && s in servers.probe && servers.probe[s] == x && x in Going() && queues.load.Keys == old(queues.load.Keys)
      ensures old(attempts) <= attempts
      ensures !Broke(old(attempts), attempts) && old(queues.inflight) >= maxInflight ==> servers.ring == old(servers.ring)
      ensures !Broke(old(attempts), attempts) ==> queues.nsOf[x] == s
    {
      hide QueuesOk, EffortOk, CallbacksOk, ServersOk, Tried;
      if queues.inflight < maxInflight {
        var _ := PickServer();
      }
      ServerFields(servers, queues.load.Keys);
      Note(s, servers.probe[s := x], servers.timedout[s]);
      var id := PickId(queues);
      Make(x, id, Some(s));
      FirstSend(x);
    }

    /** nameserver_probe_callback for a probe that was not cancelled. */
    method ProbeDone(s: Sid, good: bool)
      requires Valid() && s in queues.load
      modifies this`queues, this`servers, this`effort, this`attempts, this`scheduled, this`pending
      ensures Valid() && queues == old(queues) && scheduled == old(scheduled) && s in old(servers.failed)
      ensures var t := old(servers).(probe := old(servers.probe) - {s});
              servers == if s in t.up then t
                         else if good then Raised(t, s)
                         else t.(failed := t.failed[s := t.failed[s] + 1])
    {
      hide QueuesOk, EffortOk, CallbacksOk, ServersOk;
      ServerFields(servers, queues.load.Keys);
      Note(s, servers.probe - {s}, servers.timedout[s]);
      assert servers.timedout == old(servers.timedout);
      if good {
        MarkUp(s);
      } else if s !in servers.up {
        ServerFields(servers, queues.load.Keys);
        var t := servers.(failed := servers.failed[s := servers.failed[s] + 1]);
        assert t.failed.Keys == queues.load.Keys;
        ServersFrame(servers, t, queues.load.Keys);
        servers := t;
      }
    }

    /** evdns_base_set_max_requests_inflight, as the max-inflight option calls it: between 1 and 65000. */
    method SetMaxInflight(n: int)
      requires Valid()
      modifies this`queues, this`maxInflight
      ensures Valid() && maxInflight == (if n < 1 then 1 else if n > MAX_INFLIGHT then MAX_INFLIGHT else n)
      ensures |queues.heads| == (maxInflight + 4) / 5 && queues == old(queues).(heads := queues.heads)
    {
      hide QueuesOk, EffortOk, CallbacksOk, ServersOk;
      var max := if n < 1 then 1 else if n > MAX_INFLIGHT then MAX_INFLIGHT else n;
      var heads := Rehash(queues, (max + 4) / 5);
      queues := queues.(heads := heads);
      maxInflight := max;
    }

    /** evdns_nameserver_add_impl_. */
    method AddServer(s: Sid)
      requires Valid() && s !in queues.load
      modifies this`queues, this`servers
      ensures Valid() && queues == old(queues).(load := old(queues.load)[s := 0])
      ensures servers.up == old(servers.up) + {s} && servers.choked == old(servers.choked) - {s}
      ensures s !in servers.probe && s in servers.timedout && servers.timedout[s] == 0 && s in servers.failed && servers.failed[s] == 0
    {
      hide QueuesOk, EffortOk, CallbacksOk, ServersOk;
      NewServerOk(queues, s);
      AddedOk(servers, queues.load.Keys, s);
      assert queues.load[s := 0].Keys == queues.load.Keys + {s};
      queues := queues.(load := queues.load[s := 0]);
      servers := Added(servers, s);
    }

    /** nameserver_ready_callback for writing. */
    method Writable(s: Sid)
      requires Valid() && s in queues.load
      modifies this`queues, this`servers, this`effort, this`attempts
      ensures Valid() && OnlySent() && Transmitted(old(effort), effort) && AllSent()
      ensures old(servers.choked) - {s} <= servers.choked
      ensures old(attempts) <= attempts && (!Stuck(old(attempts), attempts) ==> servers.choked == old(servers.choked) - {s})
    {
      hide QueuesOk, EffortOk, CallbacksOk, ServersOk, Transmitted, Tried, Base.Stuck;
      ServerFields(servers, queues.load.Keys);
      ServersFrame(servers, servers.(choked := servers.choked - {s}), queues.load.Keys);
      servers := servers.(choked := servers.choked - {s});
      TransmitAll();
    }

    // ----- what it comes to -------------------------------------------------------------------------

    /** The laws of every reachable state, spelled out for a request. */
    lemma RequestLaws(x: Id)
      requires Valid() && x in issued
      ensures x in effort.sent && effort.sent[x] <= (limits.maxReissues + 1) * limits.Tries()
      ensures multiset(scheduled)[x] == if x in queues.trans then 0 else 1
      ensures x in queues.nsOf ==>
        && x in queues.trans && 0 <= queues.trans[x] < NO_ID
        && (forall h :: 0 <= h < |queues.heads| ==> multiset(queues.heads[h])[x] == if queues.trans[x] % |queues.heads| == h then 1 else 0)
        && (forall y :: y in queues.nsOf && y in queues.trans && y != x ==> queues.trans[y] != queues.trans[x])
      ensures multiset(queues.waiting)[x] == if x in queues.trans && x !in queues.nsOf then 1 else 0
    {
      Settled(x);
      Sending(x);
      Seated(x);
    }

    lemma Sending(x: Id)
      requires Core() && x in issued
      ensures x in effort.sent && effort.sent[x] <= (limits.maxReissues + 1) * limits.Tries()
    {
      hide QueuesOk, ServersOk, CallbacksOk;
    }

    lemma Seated(x: Id)
      requires QueuesOk(queues)
      ensures x in queues.nsOf ==>
        && x in queues.trans && 0 <= queues.trans[x] < NO_ID && |queues.heads| > 0
        && (forall h :: 0 <= h < |queues.heads| ==> multiset(queues.heads[h])[x] == if queues.trans[x] % |queues.heads| == h then 1 else 0)
        && (forall y :: y in queues.nsOf && y in queues.trans && y != x ==> queues.trans[y] != queues.trans[x])
      ensures multiset(queues.waiting)[x] == if x in queues.trans && x !in queues.nsOf then 1 else 0
    {
      hide CountsOk;
      forall h | 0 <= h < |queues.heads|
        ensures x in queues.nsOf ==> multiset(queues.heads[h])[x] == if queues.trans[x] % |queues.heads| == h then 1 else 0
      {
        DistinctCount(queues.heads[h], x);
        assert x in queues.nsOf ==> Slots(queues.trans, |queues.heads|)[x] == queues.trans[x] % |queues.heads|;
      }
      DistinctCount(queues.waiting, x);
    }

    /** The counters of every reachable state. */
    lemma CounterLaws(s: Sid)
      requires Valid()
      ensures queues.inflight == |queues.nsOf| && queues.nWaiting == |queues.waiting|
      ensures s in queues.load ==> queues.load[s] == |set x | x in queues.nsOf && queues.nsOf[x] == s|
      ensures servers.good == |servers.up|
      ensures Lists(servers.ring, queues.load.Keys)
    {
      hide EffortOk, CallbacksOk, ListsOk, IdsOk, Lists;
      assert |queues.nsOf| == |queues.nsOf.Keys|;
      if s in queues.load {
        assert Assigned(queues.nsOf, s) == set x | x in queues.nsOf && queues.nsOf[x] == s;
      }
    }
  }

  // ----- whole runs ---------------------------------------------------------------------------------

  datatype Op =
    | Submit(x: Id)
    | Packet(s: Sid, d: Datagram)
    | TimeOut(x: Id)
    | CancelIt(x: Id)
    | ServerError(s: Sid)
    | Probe(s: Sid, x: Id)
    | ProbeResult(s: Sid, good: bool)
    | MaxInflight(n: int)
    | NewServer(s: Sid)
    | Ready(s: Sid)
    | PumpQueue

  /** One step of a run; a step that cannot happen in this state is passed over. */
  method Apply(b: Base, op: Op)
    requires b.Valid()
    modifies b
    ensures b.Valid() && Moved(b, op) && Effect(b, op)
  {
    hide QueuesOk, EffortOk, CallbacksOk, ServersOk, Base.Steady, Split, Others, Tried, Base.Resent, Base.AllSent;
    match op
    case Submit(x) =>
      if x !in b.issued {
        b.Resolve(x);
      }
    case TimeOut(x) =>
      if x in b.queues.nsOf {
        b.TimeoutRequest(x);
      }
    case CancelIt(x) => b.Cancel(x);
    case MaxInflight(n) => b.SetMaxInflight(n);
    case PumpQueue => b.Pump();
    case NewServer(s) =>
      if s !in b.queues.load {
        b.AddServer(s);
      }
    case _ =>
      if op.s in b.queues.load {
        ApplyServer(b, op);
      }
  }

  method ApplyServer(b: Base, op: Op)
    requires b.Valid() && (op.Packet? || op.ServerError? || op.Probe? || op.ProbeResult? || op.Ready?) && op.s in b.queues.load
    modifies b
    ensures b.Valid() && Moved(b, op) && Effect(b, op)
  {
    hide QueuesOk, EffortOk, CallbacksOk, ServersOk, Base.Steady, Split, Others, Tried, Transmitted, Judge, NextPick, Base.AllSent, Base.Accepted, Base.TimedOut, Base.WillReissue, Base.EndedBy, Base.ReissuedFor;
    match op
    case Packet(s, d) =>
      OneWithId(b);
      var _ := b.Receive(s, d);
    case ServerError(s) => b.Fail(s);
    case Probe(s, x) =>
      if x !in b.issued && b.queues.inflight < NO_ID {
        b.SendProbe(s, x);
      } else {
        assert x in b.issued ==> b.issued + {x} == b.issued;
      }
    case ProbeResult(s, good) => b.ProbeDone(s, good);
    case Ready(s) => b.Writable(s);
  }

  /** Requests are made by Submit and Probe alone and servers by NewServer, only MaxInflight changes the limit, and a
      request that is gone stays gone. */
  twostate predicate Moved(b: Base, op: Op)
    reads b
  {
    && b.issued == old(b.issued) + (if op.Submit? || (op.Probe? && old(op.s in b.queues.load && b.queues.inflight < NO_ID)) then {op.x} else {})
    && b.queues.load.Keys == old(b.queues.load.Keys) + (if op.NewServer? then {op.s} else {})
    && b.maxInflight == (if op.MaxInflight? then Bounded(op.n) else old(b.maxInflight))
    && b.queues.trans.Keys <= old(b.queues.trans.Keys) + (b.issued - old(b.issued)) && old(b.scheduled) <= b.scheduled
  }

  function Bounded(n: int): nat {
    if n < 1 then 1 else if n > MAX_INFLIGHT then MAX_INFLIGHT else n
  }

  /** What each step is for. */
  twostate predicate Effect(b: Base, op: Op)
    reads b
  {
    match op
    case Submit(x) => old(x !in b.issued) ==> x in b.queues.trans
    case Packet(s, d) =>
      s in b.queues.load && d.Datagram? && IsAnswer(d.flags) && Judge(d.flags, d.body) in {Good, OtherError} ==>
        forall x :: x in old(b.queues.nsOf) && x in old(b.queues.trans) && old(b.queues.trans)[x] == d.id ==> x !in b.queues.trans
    case TimeOut(x) => old(x in b.queues.nsOf) ==> old(x in b.effort.tx) && b.TimedOut(x, old(b.servers))
    case CancelIt(x) => x !in b.queues.trans && (old(x in b.queues.trans) ==> b.EndedBy(x))
    case ServerError(s) => s in b.queues.load ==> s !in b.servers.up
    case Probe(s, x) =>
      old(s in b.queues.load && x !in b.issued && b.queues.inflight < NO_ID) ==>
        x in b.queues.nsOf && s in b.servers.probe && b.servers.probe[s] == x
    case ProbeResult(s, good) => s in b.queues.load ==> s !in b.servers.probe && (good || old(s in b.servers.up) <==> s in b.servers.up)
    case MaxInflight(n) => |b.queues.heads| == (Bounded(n) + 4) / 5
    case NewServer(s) => old(s !in b.queues.load) ==> s in b.servers.up
    case Ready(s) => s in b.queues.load ==> b.AllSent()
    case PumpQueue => b.Pumped()
  }

  /** The limit after a run. */
  function LimitAfter(ops: seq<Op>): nat {
    if ops == [] then 64
    else if ops[|ops| - 1].MaxInflight? then Bounded(ops[|ops| - 1].n)
    else LimitAfter(ops[..|ops| - 1])
  }

  /** Submitted, and cancelled later. */
  ghost predicate Dropped(ops: seq<Op>, x: Id) {
    exists i, j :: 0 <= i < j < |ops| && ops[i] == Submit(x) && ops[j] == CancelIt(x)
  }

  /** Named by a step that makes requests. */
  ghost predicate Asked(ops: seq<Op>, x: Id) {
    exists i :: 0 <= i < |ops| && (ops[i].Submit? || ops[i].Probe?) && ops[i].x == x
  }

  function Named(ops: seq<Op>): set<Sid> {
    set i | 0 <= i < |ops| && ops[i].NewServer? :: ops[i].s
  }

  /** What the steps of a run say about the requests, the servers and the limit it ends with. */
  ghost predicate Outcomes(ops: seq<Op>, load: set<Sid>, max: nat, issued: set<Id>, live: set<Id>) {
    && load == Named(ops) && max == LimitAfter(ops)
    && (forall x :: Submit(x) in ops ==> x in issued)
    && (forall x :: x in issued ==> Asked(ops, x))
    && (forall x :: Dropped(ops, x) ==> x !in live)
  }

  lemma OutcomesNext(ops: seq<Op>, op: Op, load: set<Sid>, max: nat, issued: set<Id>, live: set<Id>, all: set<Id>, now: set<Id>)
    requires Outcomes(ops, load, max, issued, live)
    requires issued <= all <= issued + (if op.Submit? || op.Probe? then {op.x} else {}) && (op.Submit? ==> op.x in all)
    requires now <= live + (all - issued) && (op.CancelIt? ==> op.x !in now)
    ensures Outcomes(ops + [op], load + (if op.NewServer? then {op.s} else {}), if op.MaxInflight? then Bounded(op.n) else max, all, now)
  {
    hide LimitAfter, Asked, Dropped, Named;
    var more := ops + [op];
    NamedNext(ops, op);
    LimitNext(ops, op);
    forall x | x in all
      ensures Asked(more, x)
    {
      AskedNext(ops, op, x);
    }
    forall x | Dropped(more, x)
      ensures x !in now
    {
      DroppedNext(ops, op, x);
    }
  }

  lemma NamedNext(ops: seq<Op>, op: Op)
    ensures Named(ops + [op]) == Named(ops) + (if op.NewServer? then {op.s} else {})
  {
    var more := ops + [op];
    assert more[|ops|] == op;
    forall s | s in Named(ops)
      ensures s in Named(more)
    {
      var i :| 0 <= i < |ops| && ops[i].NewServer? && ops[i].s == s;
      assert more[i] == ops[i];
    }
  }

  lemma LimitNext(ops: seq<Op>, op: Op)
    ensures LimitAfter(ops + [op]) == if op.MaxInflight? then Bounded(op.n) else LimitAfter(ops)
  {
    assert (ops + [op])[..|ops|] == ops;
  }

  lemma AskedNext(ops: seq<Op>, op: Op, x: Id)
    ensures Asked(ops, x) ==> Asked(ops + [op], x)
    ensures (op.Submit? || op.Probe?) && op.x == x ==> Asked(ops + [op], x)
  {
    var more := ops + [op];
    assert more[|ops|] == op;
    if Asked(ops, x) {
      var i :| 0 <= i < |ops| && (ops[i].Submit? || ops[i].Probe?) && ops[i].x == x;
      assert more[i] == ops[i];
    }
  }

  lemma DroppedNext(ops: seq<Op>, op: Op, x: Id)
    requires Dropped(ops + [op], x)
    ensures Submit(x) in ops && (Dropped(ops, x) || op == CancelIt(x))
  {
    var more := ops + [op];
    var i, j :| 0 <= i < j < |more| && more[i] == Submit(x) && more[j] == CancelIt(x);
    assert ops[i] == Submit(x);
    assert j < |ops| ==> ops[j] == CancelIt(x);
  }

  /** Over every run, whatever the network does: the laws hold in every state; the servers, the requests and the
      limit are those the run named; a request that was cancelled has ended, with one callback. */
  method Run(limits: Limits, maxTimeouts: int, net: nat -> Outcome, ops: seq<Op>) returns (b: Base)
    ensures b.Valid() && Outcomes(ops, b.queues.load.Keys, b.maxInflight, b.issued, b.queues.trans.Keys)
    ensures forall x :: Dropped(ops, x) ==> multiset(b.scheduled)[x] == 1
  {
    hide QueuesOk, EffortOk, CallbacksOk, ServersOk, Outcomes;
    b := new Base(limits, maxTimeouts, net, 64);
    Nothing();
    assert ops[..0] == [] && b.queues.load.Keys == {} && b.queues.trans.Keys == {};
    for i := 0 to |ops|
      invariant fresh(b) && b.Valid() && Outcomes(ops[..i], b.queues.load.Keys, b.maxInflight, b.issued, b.queues.trans.Keys)
    {
      ghost var load, max, issued, live := b.queues.load.Keys, b.maxInflight, b.issued, b.queues.trans.Keys;
      Apply(b, ops[i]);
      OutcomesNext(ops[..i], ops[i], load, max, issued, live, b.issued, b.queues.trans.Keys);
      assert ops[..i + 1] == ops[..i] + [ops[i]];
    }
    assert ops[..|ops|] == ops;
    forall x | Dropped(ops, x)
      ensures multiset(b.scheduled)[x] == 1
    {
      CancelledOnce(ops, b, x);
    }
  }

  lemma Nothing()
    ensures Outcomes([], {}, 64, {}, {})
  {
  }

  lemma CancelledOnce(ops: seq<Op>, b: Base, x: Id)
    requires b.Valid() && Outcomes(ops, b.queues.load.Keys, b.maxInflight, b.issued, b.queues.trans.Keys) && Dropped(ops, x)
    ensures multiset(b.scheduled)[x] == 1
  {
    assert Submit(x) in ops;
    b.Settled(x);
  }

  /** A resolver with three servers, and one request sent to one of them. */
  method ThreeServers() returns (b: Base)
    ensures fresh(b) && b.Valid() && |b.servers.up| == 3 && b.queues.waiting == [] && b.scheduled == []
    ensures 7 in b.queues.nsOf && 7 in b.queues.trans && b.queues.trans[7] >= 0 && b.queues.nsOf[7] in b.servers.up
    ensures 7 in b.effort.tx && b.effort.tx[7] == 1 && 7 in b.effort.reissues && b.effort.reissues[7] == 0 && b.limits.maxReissues == 3
  {
    hide QueuesOk, EffortOk, CallbacksOk, ServersOk;
    b := new Base(Limits(3, 3), 3, _ => Sent, 64);
    AddThree(b);
    assert b.servers.up == {1, 2, 3};
    assert 1 in b.queues.load.Keys;
    b.Resolve(7);
    IdOf(b, 7);
  }

  method AddThree(b: Base)
    requires b.Valid() && b.queues.load == map[] && b.servers.up == b.servers.choked == {}
    modifies b`queues, b`servers
    ensures b.Valid() && b.queues == old(b.queues).(load := b.queues.load) && 1 in b.queues.load
    ensures b.servers.up == {1, 2, 3} && b.servers.choked == {}
  {
    hide QueuesOk, EffortOk, CallbacksOk, ServersOk;
    b.AddServer(1);
    b.AddServer(2);
    b.AddServer(3);
  }

  lemma IdOf(b: Base, x: Id)
    requires b.Valid() && x in b.queues.nsOf
    ensures x in b.queues.trans && b.queues.trans[x] >= 0
  {
    hide ListsOk, CountsOk, EffortOk, CallbacksOk, ServersOk;
  }

  /** The same refusal twice: the first reissues the request, which is then not sent again before the second
      comes; that marks the new server down, moves the request to the third, and then picks the third again for
      the reissue, so the request ends although a server is up. */
  method RefusedTwice() returns (b: Base)
    ensures b.Valid() && b.scheduled == [7] && 7 !in b.queues.trans && |b.servers.up| == 1
  {
    hide QueuesOk, EffortOk, CallbacksOk, ServersOk;
    b := ThreeServers();
    var d := Datagram(b.queues.trans[7], 0x8005, Garbled);
    Refuse(b, 7, d);
    Refuse(b, 7, d);
  }

  /** A refusal for `x`, when as many servers are up as tries tell. */
  method Refuse(b: Base, x: Id, d: Datagram)
    requires b.Valid() && x in b.queues.nsOf && x in b.queues.trans && d == Datagram(b.queues.trans[x], 0x8005, Garbled)
    requires b.queues.nsOf[x] in b.servers.up && x in b.effort.tx && x in b.effort.reissues && b.effort.reissues[x] < b.limits.maxReissues
    requires |b.servers.up| > 1 && b.queues.waiting == [] && (b.effort.tx[x] == 0 ==> |b.servers.up| == 2)
    modifies b
    ensures b.Valid() && |b.servers.up| == |old(b.servers.up)| - 1
    ensures old(b.effort.tx[x]) != 0 ==> b.ReissuedFor(x)
    ensures old(b.effort.tx[x]) == 0 ==> b.EndedBy(x)
  {
    hide QueuesOk, EffortOk, CallbacksOk, ServersOk, Reissues, Base.Broke, Base.Stuck, Split, Others, Base.Accepted;
    var s := b.queues.nsOf[x];
    OneFewer(b.servers.up, s);
    Placed(b.queues, x);
    RingFacts(b.servers, b.queues.load.Keys);
    if b.effort.tx[x] == 0 {
      ghost var t :| b.servers.up - {s} == {t};
      LoneReissue(b.queues, b.servers, b.effort.tx, x, t);
    } else {
      OpenReissue(b.queues, b.servers, b.effort.tx, x);
    }
    SameIds(b, x, d.id);
    var y := b.Receive(s, d);
  }

  lemma OneFewer(up: set<Sid>, s: Sid)
    requires s in up
    ensures |up - {s}| == |up| - 1 && (|up| > 1 ==> up - {s} != {})
    ensures |up| == 2 ==> exists t :: up - {s} == {t}
  {
    if |up| == 2 {
      var t :| t in up - {s};
      assert |up - {s} - {t}| == 0;
      assert up - {s} == {t};
    }
  }

  lemma OneWithId(b: Base)
    requires b.Valid()
    ensures forall x, y :: x in b.queues.nsOf && y in b.queues.nsOf && x in b.queues.trans && y in b.queues.trans ==>
      b.queues.trans[x] == b.queues.trans[y] ==> x == y
  {
    hide ListsOk, CountsOk, EffortOk, CallbacksOk, ServersOk;
  }

  lemma SameIds(b: Base, x: Id, id: int)
    requires b.Valid() && x in b.queues.nsOf && x in b.queues.trans && b.queues.trans[x] == id
    ensures forall y :: y in b.queues.nsOf && y in b.queues.trans && b.queues.trans[y] == id ==> y == x
  {
    hide ListsOk, CountsOk, EffortOk, CallbacksOk, ServersOk;
  }
}
