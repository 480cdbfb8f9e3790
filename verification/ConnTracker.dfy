/**
 * The connection manager: what it keeps about each peer, with the sums it caches, and the trim. The specification keeps
 * no cache at all: a peer is its tags and connections, and the whole manager a map of peers.
 */
module ConnTracker {
  import opened Common
  import opened Sums
  import opened TrimOrder

  type PeerId = nat
  type Time = int

  /** A connection knows its remote peer and its direction. */
  datatype Conn = Conn(id: nat, remote: PeerId, inbound: bool)

  datatype DecayingValue = DecayingValue(value: int, added: Time, lastVisit: Time)

  /** A decaying tag. A decay function answers the new value, or none to remove the tag from the peer. */
  class DecayingTag {
    const name: string
    const interval: nat
    const decayFn: DecayingValue -> Option<int>
    const bumpFn: (DecayingValue, int) -> int
    var nextTick: Time
    var closed: bool
    /** When it was registered, after how many ticks of the decayer, and how often it has been visited since. */
    ghost const registered: Time
    ghost const since: nat
    ghost var visits: nat

    constructor (name: string, interval: nat, registered: Time, decayFn: DecayingValue -> Option<int>,
                 bumpFn: (DecayingValue, int) -> int, ghost since: nat)
      ensures this.name == name && this.interval == interval && this.decayFn == decayFn && this.bumpFn == bumpFn
      ensures nextTick == registered + interval && !closed
      ensures this.registered == registered && this.since == since && visits == 0
    {
      this.name, this.interval, this.decayFn, this.bumpFn := name, interval, decayFn, bumpFn;
      nextTick, closed := registered + interval, false;
      this.registered, this.since, visits := registered, since, 0;
    }
  }

  /** What there is to know about a peer, with nothing cached. */
  datatype Peer = Peer(tags: map<string, int>, decaying: map<DecayingTag, DecayingValue>, conns: map<Conn, Time>,
                       firstSeen: Time)
  {
    ghost function Value(): int {
      Total(tags) + Total(Values(decaying))
    }
  }

  function Values(decaying: map<DecayingTag, DecayingValue>): map<DecayingTag, int> {
    map t | t in decaying :: decaying[t].value
  }

  type View = map<PeerId, Peer>

  function ConnCounts(v: View): map<PeerId, int> {
    map p | p in v :: |v[p].conns|
  }

  lemma CountsStore(v: View, p: PeerId, peer: Peer)
    ensures Total(ConnCounts(v[p := peer])) == Total(ConnCounts(v)) - At(ConnCounts(v), p) + |peer.conns|
  {
    assert ConnCounts(v[p := peer]) == ConnCounts(v)[p := |peer.conns|];
    TotalStore(ConnCounts(v), p, |peer.conns|);
  }

  lemma CountsDrop(v: View, p: PeerId)
    ensures Total(ConnCounts(v - {p})) == Total(ConnCounts(v)) - At(ConnCounts(v), p)
  {
    assert ConnCounts(v - {p}) == ConnCounts(v) - {p};
    TotalDrop(ConnCounts(v), p);
  }

  lemma ValuesStore(decaying: map<DecayingTag, DecayingValue>, t: DecayingTag, d: DecayingValue)
    ensures Total(Values(decaying[t := d]))
      == Total(Values(decaying)) - (if t in decaying then decaying[t].value else 0) + d.value
  {
    assert Values(decaying[t := d]) == Values(decaying)[t := d.value];
    TotalStore(Values(decaying), t, d.value);
  }

  lemma ValuesDrop(decaying: map<DecayingTag, DecayingValue>, t: DecayingTag)
    ensures Total(Values(decaying - {t})) == Total(Values(decaying)) - (if t in decaying then decaying[t].value else 0)
  {
    assert Values(decaying - {t}) == Values(decaying) - {t};
    TotalDrop(Values(decaying), t);
  }

  // ---------------------------------------------------------------- what each operation does to the peers

  /** A peer of which nothing is known but when it was first heard of. */
  function Unheard(now: Time): Peer {
    Peer(map[], map[], map[], now)
  }

  /** What is known of a peer, for which an entry without connections is made when there is none. */
  function Known(v: View, p: PeerId, now: Time): Peer {
    if p in v then v[p] else Unheard(now)
  }

  function Tagged(v: View, p: PeerId, tag: string, val: int, now: Time): View {
    var peer := Known(v, p, now);
    v[p := peer.(tags := peer.tags[tag := val])]
  }

  function Untagged(v: View, p: PeerId, tag: string): View {
    if p in v then v[p := v[p].(tags := v[p].tags - {tag})] else v
  }

  function OpenedPeer(peer: Peer, c: Conn, now: Time): Peer {
    if peer.conns == map[] then peer.(conns := map[c := now], firstSeen := now)
    else if c in peer.conns then peer
    else peer.(conns := peer.conns[c := now])
  }

  /** The first connection of a peer starts its grace period; a connection already known changes nothing. */
  function WithConn(v: View, c: Conn, now: Time): View {
    v[c.remote := OpenedPeer(Known(v, c.remote, now), c, now)]
  }

  /** With its last connection a peer is forgotten, tags and all. */
  function WithoutConn(v: View, c: Conn): View {
    if c.remote !in v || c !in v[c.remote].conns then v
    else if |v[c.remote].conns| == 1 then v - {c.remote}
    else v[c.remote := v[c.remote].(conns := v[c.remote].conns - {c})]
  }

  function BumpedPeer(peer: Peer, t: DecayingTag, delta: int, now: Time): Peer {
    var was := if t in peer.decaying then peer.decaying[t] else DecayingValue(0, now, now);
    peer.(decaying := peer.decaying[t := was.(value := t.bumpFn(was, delta), lastVisit := now)])
  }

  function Bumped(v: View, p: PeerId, t: DecayingTag, delta: int, now: Time): View {
    v[p := BumpedPeer(Known(v, p, now), t, delta, now)]
  }

  function Removed(v: View, p: PeerId, t: DecayingTag, now: Time): View {
    var peer := Known(v, p, now);
    v[p := WithoutTag(peer, t)]
  }

  function Unregistered(v: View, t: DecayingTag): View {
    map p | p in v :: WithoutTag(v[p], t)
  }

  function WithoutTag(peer: Peer, t: DecayingTag): Peer {
    peer.(decaying := peer.decaying - {t})
  }

  /** The visited tags take their new values or go; the others stay. */
  function DecayedTags(decaying: map<DecayingTag, DecayingValue>, visit: set<DecayingTag>, now: Time):
    map<DecayingTag, DecayingValue>
  {
    map t | t in decaying && (t in visit ==> t.decayFn(decaying[t]).Some?) ::
      if t in visit then decaying[t].(value := t.decayFn(decaying[t]).value, lastVisit := now) else decaying[t]
  }

  lemma DecayedNone(decaying: map<DecayingTag, DecayingValue>, visit: set<DecayingTag>, now: Time)
    requires visit !! decaying.Keys
    ensures DecayedTags(decaying, visit, now) == decaying
  {
  }

  /** The tags of an entry can be visited one at a time. */
  lemma DecayedOneMore(decaying: map<DecayingTag, DecayingValue>, visit: set<DecayingTag>, todo: set<DecayingTag>,
                       t: DecayingTag, now: Time)
    requires t in todo && todo <= decaying.Keys
    ensures var part := DecayedTags(decaying, visit - todo, now);
      && t in part && part[t] == decaying[t]
      && DecayedTags(decaying, visit - (todo - {t}), now)
        == (if t !in visit then part
            else match t.decayFn(part[t])
              case None => part - {t}
              case Some(after) => part[t := part[t].(value := after, lastVisit := now)])
  {
    var before, after := visit - todo, visit - (todo - {t});
    assert t !in visit ==> after == before;
    assert t in visit ==> after == before + {t};
  }

  function Decayed(v: View, visit: set<DecayingTag>, now: Time): View {
    map p | p in v :: DecayedPeer(v[p], visit, now)
  }

  function DecayedPeer(peer: Peer, visit: set<DecayingTag>, now: Time): Peer {
    peer.(decaying := DecayedTags(peer.decaying, visit, now))
  }

  // ---------------------------------------------------------------- one entry

  class PeerInfo {
    const id: PeerId
    var tags: map<string, int>
    var decaying: map<DecayingTag, DecayingValue>
    /** The cached sum of all tags. */
    var value: int
    /** Whether the entry only buffers early tags and awaits connections. */
    var temp: bool
    var conns: map<Conn, Time>
    var firstSeen: Time

    constructor (id: PeerId, firstSeen: Time, temp: bool)
      ensures this.id == id
      ensures temp ==> Keeps(Unheard(firstSeen))
      ensures !temp ==> Opening(Unheard(firstSeen), firstSeen)
    {
      this.id, this.firstSeen, this.temp, value := id, firstSeen, temp, 0;
      tags, decaying, conns := map[], map[], map[];
      new;
      assert Values(decaying) == map[];
    }

    function Info(): Peer
      reads this
    {
      Peer(tags, decaying, conns, firstSeen)
    }

    /** The caches agree with what they cache: the sum, and whether there are connections. */
    ghost predicate Coherent()
      reads this
    {
      value == Info().Value() && (temp <==> conns == map[])
    }

    /** The entry holds this of its peer, and its caches are exact. */
    ghost predicate Keeps(peer: Peer)
      reads this
    {
      Coherent() && Info() == peer
    }

    /** Sets a tag to what the caller makes of its value, zero when it had none. */
    method UpsertTag(tag: string, upsert: int -> int, ghost peer: Peer)
      requires Keeps(peer)
      modifies this
      ensures Keeps(peer.(tags := peer.tags[tag := upsert(At(peer.tags, tag))]))
    {
      var oldval := At(tags, tag);
      var newval := upsert(oldval);
      TotalStore(tags, tag, newval);
      value := value + (newval - oldval);
      tags := tags[tag := newval];
    }

    method DropTag(tag: string, ghost peer: Peer)
      requires Keeps(peer)
      modifies this
      ensures Keeps(peer.(tags := peer.tags - {tag}))
    {
      TotalDrop(tags, tag);
      value := value - At(tags, tag);
      tags := tags - {tag};
    }

    /** A bump makes the tag, worth nothing, when the peer does not have it. */
    method Bump(t: DecayingTag, delta: int, now: Time, ghost peer: Peer)
      requires Keeps(peer)
      modifies this
      ensures Keeps(BumpedPeer(peer, t, delta, now))
    {
      var v := if t in decaying then decaying[t] else DecayingValue(0, now, now);
      var prev := v.value;
      v := v.(value := t.bumpFn(v, delta), lastVisit := now);
      ValuesStore(decaying, t, v);
      decaying := decaying[t := v];
      value := value + (v.value - prev);
    }

    method DropDecaying(t: DecayingTag, ghost peer: Peer)
      requires Keeps(peer)
      modifies this
      ensures Keeps(WithoutTag(peer, t))
    {
      ValuesDrop(decaying, t);
      if t in decaying {
        value := value - decaying[t].value;
        decaying := decaying - {t};
      } else {
        assert decaying - {t} == decaying;
      }
    }

    /** A first connection makes the entry a lasting one, first seen now; one already known is not counted again. */
    method Open(c: Conn, now: Time, ghost peer: Peer) returns (more: int)
      requires Opening(peer, now)
      modifies this
      ensures Keeps(OpenedPeer(peer, c, now))
      ensures |OpenedPeer(peer, c, now).conns| == |peer.conns| + more
    {
      more := 0;
      if temp {
        temp := false;
        firstSeen := now;
      }
      if c !in conns {
        conns := conns[c := now];
        more := 1;
      }
      assert c in conns;
    }

    /** What is ready for another connection: a coherent entry, or one just made for its first connection. */
    ghost predicate Opening(peer: Peer, now: Time)
      reads this
    {
      && Info() == peer && value == peer.Value() && (temp ==> conns == map[])
      && (!temp && conns == map[] ==> firstSeen == now)
    }

    lemma KeepsIsOpening(peer: Peer, now: Time)
      requires Keeps(peer)
      ensures Opening(peer, now)
    {
    }

    lemma KeepsConns(peer: Peer)
      requires Keeps(peer)
      ensures conns == peer.conns && (temp <==> peer.conns == map[]) && firstSeen == peer.firstSeen
    {
    }

    method Close(c: Conn, ghost peer: Peer)
      requires Keeps(peer) && c in peer.conns && 1 < |peer.conns|
      modifies this
      ensures Keeps(peer.(conns := peer.conns - {c}))
    {
      assert conns == (conns - {c})[c := conns[c]];
      conns := conns - {c};
      assert |conns| == |old(conns)| - 1;
    }

    /** A tick of the decayer on this entry, one tag at a time. */
    method Decay(visit: set<DecayingTag>, now: Time, ghost peer: Peer)
      requires Keeps(peer)
      modifies this
      ensures Keeps(DecayedPeer(peer, visit, now))
    {
      hide DecayedTags, Values;
      ghost var was := decaying;
      var todo := decaying.Keys;
      DecayedNone(was, visit - todo, now);
      while todo != {}
        invariant todo <= was.Keys
        invariant decaying == DecayedTags(was, visit - todo, now)
        invariant tags == old(tags) && conns == old(conns) && firstSeen == old(firstSeen)
        invariant Coherent()
        decreases todo
      {
        var t :| t in todo;
        DecayedOneMore(was, visit, todo, t, now);
        todo := todo - {t};
        if t in visit {
          var v := decaying[t];
          match t.decayFn(v)
          case None =>
            ValuesDrop(decaying, t);
            decaying := decaying - {t};
            value := value - v.value;
          case Some(after) =>
            ValuesStore(decaying, t, v.(value := after, lastVisit := now));
            decaying := decaying[t := v.(value := after, lastVisit := now)];
            value := value + (after - v.value);
        }
      }
      assert visit - todo == visit;
    }

    /** Whether any connection is inbound, and how many streams they carry together. */
    method IncomingAndStreams(streamsOf: Conn -> nat) returns (incoming: bool, streams: nat)
      ensures incoming == Incoming(Info())
      ensures streams == StreamCount(conns.Keys, streamsOf)
    {
      incoming, streams := false, 0;
      var todo := conns.Keys;
      assert StreamCounts({}, streamsOf) == map[];
      while todo != {}
        invariant todo <= conns.Keys
        invariant incoming <==> exists c :: c in conns.Keys - todo && c.inbound
        invariant streams == Total(StreamCounts(conns.Keys - todo, streamsOf))
        decreases todo
      {
        var c :| c in todo;
        ghost var done := conns.Keys - todo;
        todo := todo - {c};
        assert conns.Keys - todo == done + {c};
        assert StreamCounts(done + {c}, streamsOf) == StreamCounts(done, streamsOf)[c := streamsOf(c)];
        TotalStore(StreamCounts(done, streamsOf), c, streamsOf(c));
        if c.inbound {
          incoming := true;
        }
        streams := streams + streamsOf(c);
      }
      assert conns.Keys - todo == conns.Keys;
    }

    /** What the trim order compares. */
    method Rank(streamsOf: Conn -> nat, ghost peer: Peer) returns (rank: Rank)
      requires Keeps(peer)
      ensures rank == RankOf(peer, streamsOf)
    {
      var incoming, streams := IncomingAndStreams(streamsOf);
      rank := TrimOrder.Rank.Rank(temp, value, incoming, streams);
    }
  }

  function StreamCounts(conns: set<Conn>, streamsOf: Conn -> nat): map<Conn, int> {
    map c | c in conns :: streamsOf(c)
  }

  ghost function StreamCount(conns: set<Conn>, streamsOf: Conn -> nat): nat {
    TotalNonNegative(StreamCounts(conns, streamsOf));
    Total(StreamCounts(conns, streamsOf))
  }

  ghost predicate Incoming(peer: Peer) {
    exists c :: c in peer.conns && c.inbound
  }

  /** What the trim order sees of a peer. */
  ghost function RankOf(peer: Peer, streamsOf: Conn -> nat): Rank {
    Rank(peer.conns == map[], peer.Value(), Incoming(peer), StreamCount(peer.conns.Keys, streamsOf))
  }
}
