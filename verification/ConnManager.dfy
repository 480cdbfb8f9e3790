/**
 * The operations of the connection manager on its live entries. The 256 segments are one map here: each operation holds
 * the lock of the one segment it works on. Every operation keeps the caches exact and does to the peers what the
 * cache-free specification says.
 */
module ConnManager {
  import opened Common
  import opened Sums
  import opened TrimOrder
  import opened ConnTracker
  import PeerEffects

  // ---------------------------------------------------------------- the trim, on the specification

  /** Peers that may be trimmed: not protected, and not first seen after the start of the grace period. */
  ghost function Candidates(v: View, protected: set<PeerId>, graceStart: Time): set<PeerId> {
    set p | p in v && p !in protected && v[p].firstSeen <= graceStart
  }

  /** How many connections these peers have together. */
  ghost function ConnsOf(v: View, ps: set<PeerId>): int {
    Total(CountsAmong(v, ps))
  }

  ghost function CountsAmong(v: View, ps: set<PeerId>): map<PeerId, int> {
    map p | p in ps && p in v :: |v[p].conns|
  }

  lemma ConnsOfOneMore(v: View, ps: set<PeerId>, p: PeerId)
    requires p !in ps && p in v
    ensures ConnsOf(v, ps + {p}) == ConnsOf(v, ps) + |v[p].conns|
  {
    assert CountsAmong(v, ps + {p}) == CountsAmong(v, ps)[p := |v[p].conns|];
    TotalStore(CountsAmong(v, ps), p, |v[p].conns|);
  }

  lemma ConnsOfNone(v: View)
    ensures ConnsOf(v, {}) == 0
  {
    assert CountsAmong(v, {}) == map[];
  }

  /** The peers from a position of the order on. */
  function Rest(order: seq<PeerId>, from: nat): set<PeerId>
    requires from <= |order|
  {
    set p | p in order[from..]
  }

  /** The peers before a position of the order. */
  function Front(order: seq<PeerId>, n: nat): set<PeerId>
    requires n <= |order|
  {
    set p | p in order[..n]
  }

  lemma RestOfOneMore(order: seq<PeerId>, i: nat)
    requires i < |order| && Distinct(order)
    ensures Rest(order, i) == Rest(order, i + 1) + {order[i]}
    ensures order[i] !in Rest(order, i + 1)
  {
    assert order[i..] == [order[i]] + order[i + 1..];
  }

  /** The candidates in the order of the trim. */
  ghost predicate Queue(v: View, candidates: set<PeerId>, order: seq<PeerId>, streamsOf: Conn -> nat)
    requires candidates <= v.Keys
  {
    && Distinct(order)
    && (forall p :: p in order <==> p in candidates)
    && (forall i, j :: 0 <= i < j < |order| ==>
      !Before(RankOf(v[order[j]], streamsOf), RankOf(v[order[i]], streamsOf), false))
  }

  /** The connections of these peers. */
  function AllConns(v: View, ps: set<PeerId>): set<Conn> {
    set p, c | p in ps && p in v && c in v[p].conns :: c
  }

  /**
   * A trim that stops before the n-th peer of the queue: there it has left no more than the low water mark, before any
   * earlier peer it had left more.
   */
  ghost predicate StopsAt(v: View, order: seq<PeerId>, n: nat, lowWater: int) {
    && n <= |order|
    && (ConnsOf(v, Rest(order, n)) <= lowWater || n == |order|)
    && forall j: nat :: j < n ==> lowWater < ConnsOf(v, Rest(order, j))
  }

  /** Entries without connections, which a trim deletes when it comes to them. */
  function Idle(v: View, ps: set<PeerId>): set<PeerId> {
    set p | p in ps && p in v && v[p].conns == map[]
  }

  /** Every connection is listed under its own remote peer. */
  ghost predicate Routed(v: View) {
    forall p, c :: p in v && c in v[p].conns ==> c.remote == p
  }

  /** What closing connections does to one peer: it stays, without them, unless all it had are gone. */
  function ShutPeer(peer: Peer, gone: set<Conn>): Option<Peer> {
    if peer.conns == map[] || !(peer.conns.Keys <= gone) then Some(peer.(conns := peer.conns - gone)) else None
  }

  /** The peers once these connections have all closed. */
  function Shut(v: View, gone: set<Conn>): View {
    map p | p in v && ShutPeer(v[p], gone).Some? :: ShutPeer(v[p], gone).value
  }

  lemma OneMoreShut(v: View, gone: set<Conn>, c: Conn)
    requires Routed(v)
    ensures WithoutConn(Shut(v, gone), c) == Shut(v, gone + {c})
  {
    hide ShutPeer;
    var p := c.remote;
    forall q | q in v && (q != p || c !in v[q].conns || c in gone)
      ensures ShutPeer(v[q], gone) == ShutPeer(v[q], gone + {c})
    {
      ShutPeerNoMore(v[q], gone, c);
    }
    if p in v && c in v[p].conns && c !in gone {
      ShutPeerOneMore(v[p], gone, c);
    } else if p in v {
      ShutPeerHasNot(v[p], gone, c);
    }
  }

  lemma ShutPeerHasNot(peer: Peer, gone: set<Conn>, c: Conn)
    requires c !in peer.conns || c in gone
    ensures ShutPeer(peer, gone).Some? ==> c !in ShutPeer(peer, gone).value.conns
  {
  }

  lemma ShutPeerNoMore(peer: Peer, gone: set<Conn>, c: Conn)
    requires c !in peer.conns || c in gone
    ensures ShutPeer(peer, gone) == ShutPeer(peer, gone + {c})
  {
    assert peer.conns - gone == peer.conns - (gone + {c});
    assert peer.conns.Keys <= gone <==> peer.conns.Keys <= gone + {c};
  }

  lemma ShutPeerOneMore(peer: Peer, gone: set<Conn>, c: Conn)
    requires c in peer.conns && c !in gone
    ensures var left := ShutPeer(peer, gone);
      && left.Some? && c in left.value.conns
      && ShutPeer(peer, gone + {c})
        == if |left.value.conns| == 1 then None else Some(left.value.(conns := left.value.conns - {c}))
  {
    var left := peer.conns - gone;
    assert left - {c} == peer.conns - (gone + {c});
    if |left| == 1 {
      OnlyKey(left, c);
    } else if peer.conns.Keys <= gone + {c} {
      OneKey(left, c);
    }
  }

  lemma OnlyKey(m: map<Conn, Time>, c: Conn)
    requires c in m && |m| == 1
    ensures m.Keys == {c}
  {
    assert |m.Keys - {c}| == 0;
    assert m.Keys == {c} + (m.Keys - {c});
  }

  /** Deleting the idle ones of some peers and closing all connections of the others forgets exactly these peers. */
  lemma ShutAll(v: View, ps: set<PeerId>)
    requires Routed(v)
    ensures Shut(v - Idle(v, ps), AllConns(v, ps)) == v - ps
  {
    var gone := AllConns(v, ps);
    var s := Shut(v - Idle(v, ps), gone);
    forall p | p in v ensures (p in s <==> p !in ps) && (p in s ==> s[p] == v[p]) {
      if p in ps {
        assert v[p].conns.Keys <= gone;
      } else {
        forall c | c in v[p].conns ensures c !in gone {
          assert c.remote == p;
        }
        assert v[p].conns - gone == v[p].conns;
        if v[p].conns != map[] {
          var c :| c in v[p].conns;
          assert c !in gone;
        }
      }
    }
  }

  /**
   * What a trim does, whichever queue it made. Sound: it forgets only peers that may be trimmed, and spares none that
   * comes before one it forgets. Sufficient: no more than the low water mark is left of what may be trimmed. Minimal:
   * the last peer it forgets had connections, without forgetting it too much would be left, and no trim that stops
   * earlier in the queue would do.
   */
  lemma TrimIsExact(v: View, protected: set<PeerId>, graceStart: Time, lowWater: nat, streamsOf: Conn -> nat,
                    order: seq<PeerId>, n: nat)
    requires Queue(v, Candidates(v, protected, graceStart), order, streamsOf)
    requires StopsAt(v, order, n, lowWater)
    ensures forall p :: p in Front(order, n) ==> p in v && p !in protected && v[p].firstSeen <= graceStart
    ensures forall i, j :: 0 <= i < n <= j < |order| ==>
      !Before(RankOf(v[order[j]], streamsOf), RankOf(v[order[i]], streamsOf), false)
    ensures var left := v - Front(order, n);
      ConnsOf(left, Candidates(left, protected, graceStart)) <= lowWater
    ensures 0 < n ==> v[order[n - 1]].conns != map[] && lowWater < ConnsOf(v, Rest(order, n - 1))
    ensures forall m: nat :: m <= |order| && ConnsOf(v, Rest(order, m)) <= lowWater ==> n <= m
  {
    hide Rest, Front, Before, RankOf, ConnsOf;
    FrontIsCandidates(order, n);
    RestIsLeft(v, protected, graceStart, order, n);
    ConnsOfLeft(v, order, n);
    RestOfNone(v, order);
    if 0 < n {
      RestOfOneMore(order, n - 1);
      assert order[n - 1] in order;
      ConnsOfOneMore(v, Rest(order, n), order[n - 1]);
    }
  }

  // ---------------------------------------------------------------- which peers go first

  /** How many streams each connection of a peer carries. */
  function StreamsEach(peer: Peer, streamsOf: Conn -> nat): map<Conn, int> {
    map c | c in peer.conns :: streamsOf(c)
  }

  ghost function StreamsOn(peer: Peer, streamsOf: Conn -> nat): int {
    Total(StreamsEach(peer, streamsOf))
  }

  ghost predicate HasInbound(peer: Peer) {
    exists c :: c in peer.conns && c.inbound
  }

  ghost predicate HasConns(peer: Peer) {
    exists c :: c in peer.conns
  }

  /** What the trim order sees, in terms of the peer. */
  lemma RankIs(v: View, p: PeerId, streamsOf: Conn -> nat)
    requires p in v
    ensures var r := RankOf(v[p], streamsOf);
      && (r.temp <==> !HasConns(v[p])) && r.value == PeerEffects.Worth(v, p)
      && (r.incoming <==> HasInbound(v[p])) && r.streams == StreamsOn(v[p], streamsOf)
  {
    PeerEffects.WorthIsValue(v, p);
    assert StreamCounts(v[p].conns.Keys, streamsOf) == StreamsEach(v[p], streamsOf);
    if v[p].conns != map[] {
      var c :| c in v[p].conns;
      assert HasConns(v[p]);
    }
  }

  /**
   * Which peers a trim forgets. Take one that it forgets and one that it might have forgotten but spares. If the spared
   * one has no connections, neither has the forgotten one. If both have some, or both none, the forgotten one is worth
   * at most as much; if they are worth the same, it has no streams unless the other has some too; if that is the same
   * as well, it has an inbound connection if the other has one; and if even that is the same, it has at most as many
   * streams.
   */
  lemma TrimForgetsTheLesser(v: View, protected: set<PeerId>, graceStart: Time, lowWater: int, streamsOf: Conn -> nat,
                             order: seq<PeerId>, n: nat, p: PeerId, q: PeerId)
    requires Queue(v, Candidates(v, protected, graceStart), order, streamsOf) && StopsAt(v, order, n, lowWater)
    requires p in Front(order, n)
    requires q in v && q !in Front(order, n) && q !in protected && v[q].firstSeen <= graceStart
    ensures p in v && p !in protected && v[p].firstSeen <= graceStart
    ensures !HasConns(v[q]) ==> !HasConns(v[p])
    ensures (HasConns(v[p]) <==> HasConns(v[q])) ==>
      var worth, worth' := PeerEffects.Worth(v, p), PeerEffects.Worth(v, q);
      var streams, streams' := StreamsOn(v[p], streamsOf), StreamsOn(v[q], streamsOf);
      && worth <= worth'
      && (worth == worth' ==>
        && (streams' == 0 ==> streams == 0)
        && ((streams == 0 <==> streams' == 0) ==>
          && (HasInbound(v[q]) ==> HasInbound(v[p]))
          && ((HasInbound(v[p]) <==> HasInbound(v[q])) ==> streams <= streams')))
  {
    hide ConnsOf, RankOf, HasConns, HasInbound, StreamsOn, PeerEffects.Worth;
    RankIs(v, q, streamsOf);
    FrontIsCandidates(order, n);
    RankIs(v, p, streamsOf);
    var i: nat :| i < n && order[..n][i] == p;
    assert q in Candidates(v, protected, graceStart);
    var j: nat :| j < |order| && order[j] == q;
    assert !Before(RankOf(v[order[j]], streamsOf), RankOf(v[order[i]], streamsOf), false);
  }

  lemma FrontIsOneMore(order: seq<PeerId>, i: nat)
    requires i < |order| && Distinct(order)
    ensures Front(order, i + 1) == Front(order, i) + {order[i]} && order[i] !in Front(order, i)
  {
    assert order[..i + 1] == order[..i] + [order[i]];
  }

  /** The first peers of the queue are as many as they are. */
  lemma {:induction false} FrontSize(order: seq<PeerId>, n: nat)
    requires Distinct(order) && n <= |order|
    ensures |Front(order, n)| == n
  {
    hide Distinct;
    if n == 0 {
    } else {
      FrontSize(order, n - 1);
      FrontIsOneMore(order, n - 1);
    }
  }

  lemma LeftSize(v: View, ps: set<PeerId>)
    requires ps <= v.Keys
    ensures |v - ps| == |v| - |ps|
  {
    assert (v - ps).Keys == v.Keys - ps;
    assert |(v - ps).Keys| == |v - ps| && |v.Keys| == |v|;
  }

  /** Taking the first peers of the queue away takes away as many. */
  lemma FrontTaken(v: View, order: seq<PeerId>, n: nat)
    requires Distinct(order) && n <= |order| && forall p :: p in order ==> p in v
    ensures |v - Front(order, n)| == |v| - n
  {
    hide Front, Distinct;
    FrontIsCandidates(order, n);
    FrontSize(order, n);
    LeftSize(v, Front(order, n));
  }

  /** Fewer connections are left the further down the queue a trim goes. */
  lemma {:induction false} RestShrinks(v: View, order: seq<PeerId>, i: nat, j: nat)
    requires Distinct(order) && i <= j <= |order| && forall p :: p in order ==> p in v
    ensures ConnsOf(v, Rest(order, j)) <= ConnsOf(v, Rest(order, i))
    decreases j - i
  {
    hide ConnsOf, Rest;
    if i < j {
      RestShrinks(v, order, i + 1, j);
      RestOfOneMore(order, i);
      assert order[i] in order;
      ConnsOfOneMore(v, Rest(order, i + 1), order[i]);
    }
  }

  /**
   * When a trim leaves as many peers as the low water mark: exactly when, of the peers in excess of it, which are the
   * first of the queue, all but the last leave too many connections and all of them do not.
   */
  lemma LeavesLowWaterPeersIff(v: View, order: seq<PeerId>, n: nat, lowWater: int)
    requires Distinct(order) && (forall p :: p in order ==> p in v) && StopsAt(v, order, n, lowWater)
    ensures |v - Front(order, n)| == lowWater <==>
      var excess := |v| - lowWater;
      && 0 <= excess <= |order|
      && (excess < |order| ==> ConnsOf(v, Rest(order, excess)) <= lowWater)
      && (0 < excess ==> lowWater < ConnsOf(v, Rest(order, excess - 1)))
  {
    hide ConnsOf, Rest, Front;
    FrontTaken(v, order, n);
    var excess := |v| - lowWater;
    if 0 <= excess < n {
      RestShrinks(v, order, excess, n - 1);
    }
    if n < excess <= |order| {
      RestShrinks(v, order, n, excess - 1);
    }
  }

  /** Peers with a connection have at least as many as they are, and just as many when each has one. */
  lemma {:induction false} OneEach(v: View, order: seq<PeerId>, i: nat)
    requires Distinct(order) && i <= |order|
    requires forall p :: p in order ==> p in v && v[p].conns != map[]
    ensures |order| - i <= ConnsOf(v, Rest(order, i))
    ensures ConnsOf(v, Rest(order, i)) == |order| - i <==> forall j :: i <= j < |order| ==> |v[order[j]].conns| == 1
    decreases |order| - i
  {
    hide ConnsOf, Rest;
    if i == |order| {
      RestOfNone(v, order);
    } else {
      OneEach(v, order, i + 1);
      RestOfOneMore(order, i);
      var p := order[i];
      assert p in order;
      ConnsOfOneMore(v, Rest(order, i + 1), p);
    }
  }

  lemma AsMany(v: View, order: seq<PeerId>)
    requires Distinct(order) && forall p :: p in order <==> p in v
    ensures |order| == |v|
  {
    FrontSize(order, |order|);
    assert order[..|order|] == order;
    assert Front(order, |order|) == v.Keys;
    assert |v.Keys| == |v|;
  }

  /**
   * Where every peer has a connection and may be trimmed, as many peers as the low water mark are left exactly when
   * there are as many and those at the end of the queue have one connection each.
   */
  lemma OneConnectionEachIff(v: View, order: seq<PeerId>, n: nat, lowWater: nat)
    requires Distinct(order) && (forall p :: p in order <==> p in v) && StopsAt(v, order, n, lowWater)
    requires forall p :: p in v ==> v[p].conns != map[]
    ensures |v - Front(order, n)| == lowWater <==>
      lowWater <= |order| && forall i :: |order| - lowWater <= i < |order| ==> |v[order[i]].conns| == 1
  {
    hide ConnsOf, Rest, Front, Distinct;
    FrontTaken(v, order, n);
    AsMany(v, order);
    OneEach(v, order, n);
    if lowWater <= |order| {
      OneEach(v, order, |order| - lowWater);
    }
  }

  /** One peer with two connections, when one may stay, leaves none, in whatever order. */
  lemma TrimLeavesNoPeer(p: PeerId, c: Conn, d: Conn, streamsOf: Conn -> nat, order: seq<PeerId>, n: nat)
    requires c != d
    requires var v := map[p := Peer(map[], map[], map[c := 0, d := 0], 0)];
      Queue(v, Candidates(v, {}, 0), order, streamsOf) && StopsAt(v, order, n, 1)
    ensures |map[p := Peer(map[], map[], map[c := 0, d := 0], 0)] - Front(order, n)| == 0
  {
    hide RankOf, Before, ConnsOf, Distinct, Front, Rest;
    var conns: map<Conn, Time> := map[c := 0, d := 0];
    var v: View := map[p := Peer(map[], map[], conns, 0)];
    assert Candidates(v, {}, 0) == {p};
    assert |conns| == 2;
    AsMany(v, order);
    FrontTaken(v, order, n);
    OneEach(v, order, n);
    OneEach(v, order, 0);
  }

  lemma FrontIsCandidates(order: seq<PeerId>, n: nat)
    requires n <= |order|
    ensures forall p :: p in Front(order, n) ==> p in order
  {
  }

  lemma RestOfNone(v: View, order: seq<PeerId>)
    ensures ConnsOf(v, Rest(order, |order|)) == 0
  {
    assert Rest(order, |order|) == {};
    ConnsOfNone(v);
  }

  lemma FrontOrRest(order: seq<PeerId>, n: nat)
    requires Distinct(order) && n <= |order|
    ensures Front(order, n) !! Rest(order, n)
    ensures forall p :: p in order <==> p in Front(order, n) || p in Rest(order, n)
  {
    forall p | p in Front(order, n) ensures p !in Rest(order, n) {
    }
    assert order == order[..n] + order[n..];
  }

  /** What may still be trimmed afterwards is the rest of the queue. */
  lemma RestIsLeft(v: View, protected: set<PeerId>, graceStart: Time, order: seq<PeerId>, n: nat)
    requires Distinct(order) && n <= |order|
    requires forall p :: p in order <==> p in Candidates(v, protected, graceStart)
    ensures Candidates(v - Front(order, n), protected, graceStart) == Rest(order, n)
  {
    hide Front, Rest, Distinct;
    FrontOrRest(order, n);
  }

  lemma ConnsOfLeft(v: View, order: seq<PeerId>, n: nat)
    requires Distinct(order) && n <= |order|
    ensures ConnsOf(v - Front(order, n), Rest(order, n)) == ConnsOf(v, Rest(order, n))
  {
    hide Front, Rest, Distinct, Total;
    FrontOrRest(order, n);
    assert CountsAmong(v - Front(order, n), Rest(order, n)) == CountsAmong(v, Rest(order, n));
  }

  // ---------------------------------------------------------------- the manager

  lemma OneKey(m: map<Conn, Time>, c: Conn)
    requires c in m && m.Keys <= {c}
    ensures |m| == 1
  {
    assert m.Keys == {c};
  }

  /** The count is right, and connections are listed where they belong. */
  ghost predicate ConnsCounted(v: View, connCount: int) {
    connCount == Total(ConnCounts(v)) && Routed(v)
  }

  lemma CountedSame(v: View, connCount: int, p: PeerId, peer: Peer)
    requires ConnsCounted(v, connCount)
    requires p in v && peer.conns == v[p].conns
    ensures ConnsCounted(v[p := peer], connCount)
  {
    CountsStore(v, p, peer);
  }

  lemma CountedOpen(v: View, connCount: int, c: Conn, now: Time)
    requires ConnsCounted(v, connCount)
    ensures var was := Known(v, c.remote, now);
      ConnsCounted(v[c.remote := OpenedPeer(was, c, now)], connCount + |OpenedPeer(was, c, now).conns| - |was.conns|)
  {
    CountsStore(v, c.remote, OpenedPeer(Known(v, c.remote, now), c, now));
  }

  lemma CountedClose(v: View, connCount: int, c: Conn)
    requires ConnsCounted(v, connCount)
    requires c.remote in v && c in v[c.remote].conns
    ensures ConnsCounted(WithoutConn(v, c), connCount - 1)
  {
    var p := c.remote;
    var peer := v[p];
    CountsDrop(v, p);
    var left := peer.(conns := peer.conns - {c});
    CountsStore(v, p, left);
    assert peer.conns == left.conns[c := peer.conns[c]];
  }

  // These operations first make an entry when there is none, and then change it.

  lemma TaggedIs(v: View, p: PeerId, tag: string, val: int, now: Time)
    ensures var peer := Known(v, p, now);
      v[p := peer][p := peer.(tags := peer.tags[tag := val])] == Tagged(v, p, tag, val, now)
  {
  }

  lemma BumpedIs(v: View, p: PeerId, t: DecayingTag, delta: int, now: Time)
    ensures var peer := Known(v, p, now);
      v[p := peer][p := BumpedPeer(peer, t, delta, now)] == Bumped(v, p, t, delta, now)
    ensures BumpedPeer(Known(v, p, now), t, delta, now).conns == Known(v, p, now).conns
  {
  }

  lemma WithConnIs(v: View, c: Conn, now: Time)
    ensures v[c.remote := OpenedPeer(Known(v, c.remote, now), c, now)] == WithConn(v, c, now)
  {
  }

  lemma RemovedIs(v: View, p: PeerId, t: DecayingTag, now: Time)
    ensures var peer := Known(v, p, now);
      v[p := peer][p := WithoutTag(peer, t)] == Removed(v, p, t, now)
  {
  }

  lemma CountedNew(v: View, connCount: int, p: PeerId, now: Time)
    requires ConnsCounted(v, connCount) && p !in v
    ensures ConnsCounted(v[p := Unheard(now)], connCount)
  {
    CountsStore(v, p, Unheard(now));
  }

  lemma CountedDecayed(v: View, connCount: int, visit: set<DecayingTag>, now: Time)
    requires ConnsCounted(v, connCount)
    ensures ConnsCounted(Decayed(v, visit, now), connCount)
  {
    assert ConnCounts(Decayed(v, visit, now)) == ConnCounts(v);
  }

  lemma CountedUnregistered(v: View, connCount: int, t: DecayingTag)
    requires ConnsCounted(v, connCount)
    ensures ConnsCounted(Unregistered(v, t), connCount)
  {
    assert ConnCounts(Unregistered(v, t)) == ConnCounts(v);
  }

  lemma CountedIdle(v: View, connCount: int, p: PeerId)
    requires ConnsCounted(v, connCount) && p in v && v[p].conns == map[]
    ensures ConnsCounted(v - {p}, connCount)
  {
    CountsDrop(v, p);
  }

  lemma CountedIsRouted(v: View, connCount: int)
    requires ConnsCounted(v, connCount)
    ensures Routed(v)
  {
  }

  lemma ShutNone(v: View)
    ensures Shut(v, {}) == v
  {
    forall p | p in v ensures v[p].conns - {} == v[p].conns {
    }
    forall p | p in v && v[p].conns != map[] ensures !(v[p].conns.Keys <= {}) {
      var c :| c in v[p].conns;
      assert c in v[p].conns.Keys;
    }
  }

  lemma FrontNone(v: View, order: seq<PeerId>)
    ensures AllConns(v, Front(order, 0)) == {} && v - Idle(v, Front(order, 0)) == v
  {
  }

  lemma FrontOneMore(v: View, order: seq<PeerId>, i: nat)
    requires i < |order| && Distinct(order) && order[i] in v
    ensures AllConns(v, Front(order, i + 1)) == AllConns(v, Front(order, i)) + v[order[i]].conns.Keys
    ensures v - Idle(v, Front(order, i + 1))
      == if v[order[i]].conns == map[] then v - Idle(v, Front(order, i)) - {order[i]} else v - Idle(v, Front(order, i))
    ensures order[i] !in Idle(v, Front(order, i))
  {
    hide Front, Distinct;
    FrontIsOneMore(order, i);
  }

  /** Where the loop of the trim is before it looks at the i-th peer of the queue. */
  ghost predicate Progress(v: View, order: seq<PeerId>, lowWater: int, i: nat, target: int, selected: set<Conn>,
                           now: View)
  {
    && i <= |order|
    && target == ConnsOf(v, Rest(order, i)) - lowWater
    && (forall j: nat :: j < i ==> lowWater < ConnsOf(v, Rest(order, j)))
    && selected == AllConns(v, Front(order, i))
    && now == v - Idle(v, Front(order, i))
  }

  lemma ProgressStart(v: View, order: seq<PeerId>, lowWater: int)
    ensures Progress(v, order, lowWater, 0, ConnsOf(v, Rest(order, 0)) - lowWater, {}, v)
  {
    hide ConnsOf;
    FrontNone(v, order);
  }

  lemma ProgressStep(v: View, order: seq<PeerId>, lowWater: int, i: nat, target: int, selected: set<Conn>, now: View)
    requires Distinct(order) && i < |order| && order[i] in v
    requires Progress(v, order, lowWater, i, target, selected, now) && 0 < target
    ensures order[i] in now && now[order[i]] == v[order[i]]
    ensures var conns := v[order[i]].conns;
      if conns == map[] then Progress(v, order, lowWater, i + 1, target, selected, now - {order[i]})
      else Progress(v, order, lowWater, i + 1, target - |conns|, selected + conns.Keys, now)
  {
    hide ConnsOf, Rest, AllConns, Idle, Front;
    FrontOneMore(v, order, i);
    RestOfOneMore(order, i);
    ConnsOfOneMore(v, Rest(order, i + 1), order[i]);
  }

  lemma ProgressEnd(v: View, order: seq<PeerId>, lowWater: int, i: nat, target: int, selected: set<Conn>, now: View)
    requires Progress(v, order, lowWater, i, target, selected, now)
    requires i == |order| || target <= 0
    ensures StopsAt(v, order, i, lowWater)
    ensures selected == AllConns(v, Front(order, i)) && now == v - Idle(v, Front(order, i))
  {
    hide ConnsOf;
  }

  lemma RestOfAll(order: seq<PeerId>, ps: set<PeerId>)
    requires forall p :: p in order <==> p in ps
    ensures Rest(order, 0) == ps
  {
    assert order[0..] == order;
  }

  lemma SortedIsQueue(v: View, candidates: seq<PeerId>, order: seq<PeerId>, ranks: map<PeerId, Rank>,
                      streamsOf: Conn -> nat)
    requires Distinct(candidates) && multiset(order) == multiset(candidates)
    requires forall p :: p in candidates ==> p in v && p in ranks && ranks[p] == RankOf(v[p], streamsOf)
    requires forall p :: p in order <==> p in candidates
    requires InOrder(order, ranks, false)
    ensures Queue(v, (set p | p in candidates), order, streamsOf)
  {
    hide RankOf, Before;
    DistinctOnce(candidates);
    forall i, j | 0 <= i < j < |order| ensures order[i] != order[j] {
      if order[i] == order[j] {
        TwiceIsTwo(order, i, j);
      }
    }
  }

  lemma TwiceIsTwo(items: seq<PeerId>, i: nat, j: nat)
    requires i < j < |items| && items[i] == items[j]
    ensures multiset(items)[items[i]] >= 2
  {
    assert items == items[..i] + [items[i]] + items[i + 1..j] + [items[j]] + items[j + 1..];
  }

  lemma {:induction false} DistinctOnce(items: seq<PeerId>)
    requires Distinct(items)
    ensures forall p :: multiset(items)[p] <= 1
  {
    if items != [] {
      var last := items[|items| - 1];
      DistinctOnce(items[..|items| - 1]);
      assert items == items[..|items| - 1] + [last];
      assert last !in items[..|items| - 1];
    }
  }

  class BasicConnMgr {
    const lowWater: int
    const highWater: int
    const gracePeriod: nat
    var peers: map<PeerId, PeerInfo>
    /** The cached number of connections. */
    var connCount: int
    var protected: map<PeerId, set<string>>
    /** The entries, among them all that the map holds; and the peers, without the caches. */
    ghost var entries: set<PeerInfo>
    ghost var view: View

    constructor (lowWater: int, highWater: int, gracePeriod: nat)
      ensures Valid() && view == map[] && protected == map[] && entries == {}
      ensures this.lowWater == lowWater && this.highWater == highWater && this.gracePeriod == gracePeriod
    {
      this.lowWater, this.highWater, this.gracePeriod := lowWater, highWater, gracePeriod;
      peers, connCount, protected, entries, view := map[], 0, map[], {}, map[];
      new;
      assert ConnCounts(view) == map[];
    }

    /** The entries are those of the view, each with exact caches, and the connections are counted. */
    ghost predicate Valid()
      reads this, entries
    {
      && Listed()
      && ConnsCounted(view, connCount)
    }

    ghost predicate Listed()
      reads this, entries
    {
      && peers.Keys == view.Keys
      && forall p :: p in peers ==> peers[p] in entries && peers[p].id == p && peers[p].Keeps(view[p])
    }

    /** Every entry but this peer's is as the view has it. */
    ghost predicate ListedBut(p: PeerId)
      reads this, entries
    {
      && (forall q :: q != p ==> (q in peers <==> q in view))
      && (forall q :: q in peers ==> peers[q] in entries && peers[q].id == q)
      && (forall q :: q in peers && q != p ==> q in view && peers[q].Keeps(view[q]))
    }

    /** Brings the view up to date after the tags of one peer have changed. */
    ghost method Renew(p: PeerId, peer: Peer)
      requires ListedBut(p) && ConnsCounted(view, connCount)
      requires p in peers && p in view && peers[p].Keeps(peer) && peer.conns == view[p].conns
      modifies this`view
      ensures Valid() && view == old(view)[p := peer]
    {
      hide ConnsCounted, PeerInfo.Keeps;
      CountedSame(view, connCount, p, peer);
      view := view[p := peer];
    }

    method TagInfoFor(p: PeerId, now: Time) returns (pi: PeerInfo)
      requires Valid()
      modifies this`peers, this`view, this`entries
      ensures Valid()
      ensures p in peers && pi == peers[p]
      ensures view == old(view)[p := Known(old(view), p, now)]
      ensures fresh(entries - old(entries))
    {
      hide ConnsCounted, PeerInfo.Keeps, Unheard;
      if p in peers {
        pi := peers[p];
      } else {
        pi := new PeerInfo(p, now, true);
        CountedNew(view, connCount, p, now);
        peers, entries := peers[p := pi], entries + {pi};
        view := view[p := Unheard(now)];
      }
    }

    method UpsertTag(p: PeerId, tag: string, upsert: int -> int, now: Time)
      requires Valid()
      modifies this`peers, this`view, this`entries, entries
      ensures Valid()
      ensures view == Tagged(old(view), p, tag, upsert(At(Known(old(view), p, now).tags, tag)), now)
      ensures fresh(entries - old(entries))
    {
      hide ConnsCounted, Known, PeerInfo.Keeps, Tagged, Bumped, BumpedPeer, Removed;
      TaggedIs(view, p, tag, upsert(At(Known(view, p, now).tags, tag)), now);
      var pi := TagInfoFor(p, now);
      ghost var peer := view[p];
      assert ListedBut(p);
      pi.UpsertTag(tag, upsert, peer);
      assert ListedBut(p);
      peer := peer.(tags := peer.tags[tag := upsert(At(peer.tags, tag))]);
      Renew(p, peer);
    }

    method TagPeer(p: PeerId, tag: string, val: int, now: Time)
      requires Valid()
      modifies this`peers, this`view, this`entries, entries
      ensures Valid() && view == Tagged(old(view), p, tag, val, now)
      ensures fresh(entries - old(entries))
    {
      UpsertTag(p, tag, _ => val, now);
    }

    method UntagPeer(p: PeerId, tag: string)
      requires Valid()
      modifies this`view, entries
      ensures Valid() && view == Untagged(old(view), p, tag)
    {
      hide ConnsCounted, PeerInfo.Keeps;
      if p in peers {
        ghost var peer := view[p];
        peers[p].DropTag(tag, peer);
        peer := peer.(tags := peer.tags - {tag});
        Renew(p, peer);
      }
    }

    method Bump(p: PeerId, t: DecayingTag, delta: int, now: Time)
      requires Valid()
      modifies this`peers, this`view, this`entries, entries
      ensures Valid() && view == Bumped(old(view), p, t, delta, now)
      ensures fresh(entries - old(entries))
    {
      hide ConnsCounted, Known, PeerInfo.Keeps, Tagged, Bumped, BumpedPeer, Removed;
      BumpedIs(view, p, t, delta, now);
      var pi := TagInfoFor(p, now);
      ghost var peer := view[p];
      assert ListedBut(p);
      pi.Bump(t, delta, now, peer);
      assert ListedBut(p);
      peer := BumpedPeer(peer, t, delta, now);
      Renew(p, peer);
    }

    /** Removing a decaying tag from a peer makes an entry for the peer when there is none. */
    method RemoveDecaying(p: PeerId, t: DecayingTag, now: Time)
      requires Valid()
      modifies this`peers, this`view, this`entries, entries
      ensures Valid() && view == Removed(old(view), p, t, now)
      ensures fresh(entries - old(entries))
    {
      hide ConnsCounted, Known, PeerInfo.Keeps, Tagged, Bumped, BumpedPeer, Removed;
      RemovedIs(view, p, t, now);
      var pi := TagInfoFor(p, now);
      ghost var peer := view[p];
      assert ListedBut(p);
      pi.DropDecaying(t, peer);
      assert ListedBut(p);
      peer := WithoutTag(peer, t);
      Renew(p, peer);
    }

    /** The entry a connection is added to, made when the peer was unknown. */
    method EntryToOpen(p: PeerId, now: Time) returns (pi: PeerInfo)
      requires Valid()
      modifies this`peers, this`entries
      ensures ListedBut(p) && p in peers && pi == peers[p] && pi.Opening(Known(view, p, now), now)
      ensures fresh(entries - old(entries))
      ensures pi in old(entries) || fresh(pi)
    {
      hide PeerInfo.Keeps, PeerInfo.Opening, Unheard;
      if p !in peers {
        pi := new PeerInfo(p, now, false);
        peers, entries := peers[p := pi], entries + {pi};
      } else {
        pi := peers[p];
        pi.KeepsIsOpening(view[p], now);
      }
    }

    method Connected(c: Conn, now: Time)
      requires Valid()
      modifies this`peers, this`connCount, this`view, this`entries, entries
      ensures Valid() && view == WithConn(old(view), c, now)
      ensures fresh(entries - old(entries))
    {
      hide ConnsCounted, PeerInfo.Keeps, PeerInfo.Opening, Known, OpenedPeer, WithConn;
      WithConnIs(view, c, now);
      CountedOpen(view, connCount, c, now);
      var pi := EntryToOpen(c.remote, now);
      ghost var peer := Known(view, c.remote, now);
      var more := pi.Open(c, now, peer);
      assert ListedBut(c.remote);
      connCount := connCount + more;
      view := view[c.remote := OpenedPeer(peer, c, now)];
    }

    method Disconnected(c: Conn)
      requires Valid()
      modifies this`peers, this`connCount, this`view, entries
      ensures Valid() && view == WithoutConn(old(view), c)
    {
      hide ConnsCounted, PeerInfo.Keeps;
      var p := c.remote;
      if p in peers {
        peers[p].KeepsConns(view[p]);
      }
      if p !in peers || c !in peers[p].conns {
        return;
      }
      CountedClose(view, connCount, c);
      if |peers[p].conns| == 1 {
        peers := peers - {p};
        view := view - {p};
      } else {
        SomeConn(view[p].conns, c);
        peers[p].Close(c, view[p]);
        view := view[p := view[p].(conns := view[p].conns - {c})];
      }
      connCount := connCount - 1;
    }

    /** A tick of the decayer visits every entry. */
    method Tick(visit: set<DecayingTag>, now: Time)
      requires Valid()
      modifies this`view, entries
      ensures Valid() && view == Decayed(old(view), visit, now)
    {
      hide ConnsCounted, PeerInfo.Keeps, DecayedPeer;
      var todo := peers.Keys;
      while todo != {}
        invariant entries == old(entries) && peers == old(peers) && view == old(view)
        invariant todo <= peers.Keys && ConnsCounted(view, connCount)
        invariant forall p :: p in peers ==>
          peers[p].Keeps(if p in todo then view[p] else DecayedPeer(view[p], visit, now))
        decreases todo
      {
        var p :| p in todo;
        todo := todo - {p};
        peers[p].Decay(visit, now, view[p]);
      }
      CountedDecayed(view, connCount, visit, now);
      view := Decayed(view, visit, now);
    }

    /** Closing a decaying tag takes it from every peer that has it. */
    method CloseTag(t: DecayingTag)
      requires Valid()
      modifies this`view, entries
      ensures Valid() && view == Unregistered(old(view), t)
    {
      hide ConnsCounted, PeerInfo.Keeps, WithoutTag;
      var todo := peers.Keys;
      while todo != {}
        invariant entries == old(entries) && peers == old(peers) && view == old(view)
        invariant todo <= peers.Keys && ConnsCounted(view, connCount)
        invariant forall p :: p in peers ==>
          peers[p].Keeps(if p in todo then view[p] else WithoutTag(view[p], t))
        decreases todo
      {
        var p :| p in todo;
        todo := todo - {p};
        peers[p].DropDecaying(t, view[p]);
      }
      CountedUnregistered(view, connCount, t);
      view := Unregistered(view, t);
    }

    /** Protects a peer under a tag. */
    method Protect(p: PeerId, tag: string)
      requires Valid()
      modifies this`protected
      ensures Valid()
      ensures protected == old(protected)[p := (if p in old(protected) then old(protected)[p] else {}) + {tag}]
    {
      hide ConnsCounted, PeerInfo.Keeps;
      var tags := if p in protected then protected[p] else {};
      protected := protected[p := tags + {tag}];
    }

    /** Takes one tag away; the peer is protected for as long as any other is left. */
    method Unprotect(p: PeerId, tag: string) returns (still: bool)
      requires Valid()
      modifies this`protected
      ensures Valid() && (still <==> p in protected)
      ensures p in protected <==> p in old(protected) && old(protected)[p] - {tag} != {}
      ensures p in protected ==> protected[p] == old(protected)[p] - {tag}
      ensures forall q :: q != p ==>
        (q in protected <==> q in old(protected)) && (q in protected ==> protected[q] == old(protected)[q])
    {
      hide ConnsCounted, PeerInfo.Keeps;
      if p !in protected {
        return false;
      }
      var tags := protected[p] - {tag};
      if tags == {} {
        protected := protected - {p};
        return false;
      }
      protected := protected[p := tags];
      return true;
    }

    /** The trim does something: it is enabled, there is too much, and enough of it may be trimmed. */
    ghost predicate TrimRuns(now: Time)
      reads this
    {
      && lowWater != 0 && highWater != 0 && lowWater < connCount
      && lowWater <= ConnsOf(view, Candidates(view, protected.Keys, now - gracePeriod))
    }

    /** The peers that may be trimmed, how many connections they have, and how they rank. */
    method Collect(graceStart: Time, streamsOf: Conn -> nat)
      returns (candidates: seq<PeerId>, ncandidates: int, ranks: map<PeerId, Rank>)
      requires Valid()
      ensures Distinct(candidates)
      ensures forall p :: p in candidates <==> p in Candidates(view, protected.Keys, graceStart)
      ensures ncandidates == ConnsOf(view, Candidates(view, protected.Keys, graceStart))
      ensures forall p :: p in candidates ==> p in ranks && ranks[p] == RankOf(view[p], streamsOf)
    {
      hide ConnsCounted, PeerInfo.Keeps, ConnsOf, RankOf;
      candidates, ncandidates, ranks := [], 0, map[];
      var todo := peers.Keys;
      ghost var found: set<PeerId> := {};
      ConnsOfNone(view);
      while todo != {}
        invariant todo <= peers.Keys
        invariant found == Candidates(view, protected.Keys, graceStart) - todo
        invariant Distinct(candidates) && forall p :: p in candidates <==> p in found
        invariant ncandidates == ConnsOf(view, found)
        invariant forall p :: p in candidates ==> p in ranks && ranks[p] == RankOf(view[p], streamsOf)
        decreases todo
      {
        var p :| p in todo;
        todo := todo - {p};
        var pi := peers[p];
        pi.KeepsConns(view[p]);
        if p !in protected && pi.firstSeen <= graceStart {
          ConnsOfOneMore(view, found, p);
          var rank := pi.Rank(streamsOf, view[p]);
          ranks := ranks[p := rank];
          candidates := candidates + [p];
          ncandidates := ncandidates + |pi.conns|;
          found := found + {p};
        }
      }
      assert Candidates(view, protected.Keys, graceStart) - todo == Candidates(view, protected.Keys, graceStart);
    }

    /** Deletes an entry that has no connections. */
    method Forget(p: PeerId)
      requires Valid() && p in view && view[p].conns == map[]
      modifies this`peers, this`view
      ensures Valid() && view == old(view) - {p}
    {
      hide ConnsCounted, PeerInfo.Keeps;
      CountedIdle(view, connCount, p);
      peers := peers - {p};
      view := view - {p};
    }

    /**
     * The loop of the trim: it takes peers from the front of the queue until no more than the low water mark is left,
     * choosing their connections and deleting the entries that have none.
     */
    method Select(order: seq<PeerId>, ncandidates: int) returns (selected: set<Conn>, ghost n: nat)
      requires Valid()
      requires Distinct(order) && forall p :: p in order ==> p in view
      requires ncandidates == ConnsOf(view, Rest(order, 0))
      modifies this`peers, this`view
      ensures Valid()
      ensures StopsAt(old(view), order, n, lowWater)
      ensures selected == AllConns(old(view), Front(order, n))
      ensures view == old(view) - Idle(old(view), Front(order, n))
    {
      hide ConnsCounted, PeerInfo.Keeps, Progress, StopsAt, Front, AllConns, Idle;
      var target := ncandidates - lowWater;
      selected := {};
      ghost var v := view;
      var i := 0;
      ProgressStart(v, order, lowWater);
      while i < |order| && 0 < target
        invariant Valid() && i <= |order|
        invariant Progress(v, order, lowWater, i, target, selected, view)
      {
        var p := order[i];
        ProgressStep(v, order, lowWater, i, target, selected, view);
        var pi := peers[p];
        pi.KeepsConns(view[p]);
        if |pi.conns| == 0 && pi.temp {
          Forget(p);
        } else {
          selected := selected + pi.conns.Keys;
          target := target - |pi.conns|;
        }
        i := i + 1;
      }
      n := i;
      ProgressEnd(v, order, lowWater, i, target, selected, view);
    }

    /** Which connections a trim closes. The ghost results are the queue and how far down it the trim goes. */
    method GetConnsToClose(now: Time, streamsOf: Conn -> nat)
      returns (selected: set<Conn>, ghost order: seq<PeerId>, ghost n: nat)
      requires Valid()
      modifies this`peers, this`view
      ensures Valid()
      ensures var v, candidates := old(view), Candidates(old(view), protected.Keys, now - gracePeriod);
        if old(TrimRuns(now)) then
          && Queue(v, candidates, order, streamsOf)
          && StopsAt(v, order, n, lowWater)
          && selected == AllConns(v, Front(order, n))
          && view == v - Idle(v, Front(order, n))
        else selected == {} && view == v && order == [] && n == 0
    {
      hide ConnsCounted, PeerInfo.Keeps, ConnsOf, StopsAt, AllConns, Idle, RankOf;
      selected, order, n := {}, [], 0;
      if lowWater == 0 || highWater == 0 {
        return;
      }
      if connCount <= lowWater {
        return;
      }
      var candidates, ncandidates, ranks := Collect(now - gracePeriod, streamsOf);
      if ncandidates < lowWater {
        return;
      }
      var sorted := Sort(candidates, ranks, false);
      order := sorted;
      assert (set p | p in candidates) == Candidates(view, protected.Keys, now - gracePeriod);
      SortedIsQueue(view, candidates, sorted, ranks, streamsOf);
      RestOfAll(order, Candidates(view, protected.Keys, now - gracePeriod));
      selected, n := Select(sorted, ncandidates);
    }

    /** A trim: it closes the chosen connections, and each close is notified back. */
    method Trim(now: Time, streamsOf: Conn -> nat) returns (ghost order: seq<PeerId>, ghost n: nat)
      requires Valid()
      modifies this`peers, this`connCount, this`view, entries
      ensures Valid()
      ensures var v, candidates := old(view), Candidates(old(view), protected.Keys, now - gracePeriod);
        if old(TrimRuns(now)) then
          && Queue(v, candidates, order, streamsOf)
          && StopsAt(v, order, n, lowWater)
          && view == v - Front(order, n)
        else view == v
      ensures var candidates := Candidates(view, protected.Keys, now - gracePeriod);
        0 < lowWater && 0 < highWater ==> ConnsOf(view, candidates) <= lowWater
      ensures lowWater == 0 || highWater == 0 || old(connCount) <= lowWater ==> view == old(view)
    {
      hide ConnsCounted, PeerInfo.Keeps, ConnsOf, StopsAt, AllConns, Idle, Candidates, Queue, Front, Shut;
      var selected;
      selected, order, n := GetConnsToClose(now, streamsOf);
      ghost var v := view;
      CountedIsRouted(view, connCount);
      CountedIsRouted(old(view), old(connCount));
      ShutNone(v);
      var todo := selected;
      assert selected - todo == {};
      while todo != {}
        invariant Valid() && entries == old(entries) && todo <= selected
        invariant view == Shut(v, selected - todo)
        decreases todo
      {
        var c :| c in todo;
        OneMoreShut(v, selected - todo, c);
        assert selected - (todo - {c}) == selected - todo + {c};
        todo := todo - {c};
        Disconnected(c);
      }
      assert selected - todo == selected;
      if old(TrimRuns(now)) {
        StopsWithin(old(view), order, n, lowWater);
        ShutAll(old(view), Front(order, n));
        if 0 < lowWater {
          TrimIsExact(old(view), protected.Keys, now - gracePeriod, lowWater, streamsOf, order, n);
        }
      } else if 0 < lowWater && 0 < highWater {
        LowEnough(old(view), old(connCount), Candidates(old(view), protected.Keys, now - gracePeriod), lowWater);
      }
    }
  }

  /** Some peers have no more connections than all. */
  lemma AmongAtMostAll(v: View, ps: set<PeerId>)
    ensures ConnsOf(v, ps) <= Total(ConnCounts(v))
  {
    hide Total;
    var all, some := ConnCounts(v), ps * v.Keys;
    TotalApart(all, some);
    assert all - (all.Keys - some) == CountsAmong(v, ps);
    TotalNonNegative(all - some);
  }

  /** A trim that does not run is not needed. */
  lemma LowEnough(v: View, connCount: int, candidates: set<PeerId>, lowWater: int)
    requires ConnsCounted(v, connCount) && (connCount <= lowWater || ConnsOf(v, candidates) < lowWater)
    ensures ConnsOf(v, candidates) <= lowWater
  {
    hide ConnsOf;
    AmongAtMostAll(v, candidates);
  }

  lemma StopsWithin(v: View, order: seq<PeerId>, n: nat, lowWater: int)
    requires StopsAt(v, order, n, lowWater)
    ensures n <= |order|
  {
  }

  lemma SomeConn(conns: map<Conn, Time>, c: Conn)
    requires c in conns && |conns| != 1
    ensures 1 < |conns|
  {
    assert |conns.Keys| == |conns|;
  }
}
