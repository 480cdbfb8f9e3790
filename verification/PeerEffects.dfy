/**
 * What the operations of the connection manager mean for one peer: which tags and connections it has afterwards, what
 * it is worth, and since when it counts as seen. The worth, all tags of the peer together, decides when it is trimmed.
 */
module PeerEffects {
  import opened Common
  import opened Sums
  import opened ConnTracker

  /** The current values of decaying tags. */
  function Standing(decaying: map<DecayingTag, DecayingValue>): map<DecayingTag, int> {
    map t | t in decaying :: decaying[t].value
  }

  /** All tags of the peer together, decaying ones included; nothing for a peer that is not known. */
  ghost function Worth(v: View, p: PeerId): int {
    if p in v then Total(v[p].tags) + Total(Standing(v[p].decaying)) else 0
  }

  lemma StandingIs(decaying: map<DecayingTag, DecayingValue>)
    ensures Standing(decaying) == Values(decaying)
    ensures decaying == map[] ==> Standing(decaying) == map[]
  {
  }

  /** It is what the trim order and the cache of the entry take for the value of the peer. */
  lemma WorthIsValue(v: View, p: PeerId)
    requires p in v
    ensures Worth(v, p) == v[p].Value()
  {
    StandingIs(v[p].decaying);
  }

  /** The other peers are as before. */
  ghost predicate OthersStay(v: View, v': View, p: PeerId) {
    forall q :: q != p ==> (q in v' <==> q in v) && (q in v ==> v'[q] == v[q])
  }

  /** The peer keeps its connections, and when it was first seen; one not known before has none, and is seen now. */
  ghost predicate KeepsConns(v: View, v': View, p: PeerId, now: Time) {
    p in v' && if p in v then v'[p].conns == v[p].conns && v'[p].firstSeen == v[p].firstSeen
               else v'[p].conns == map[] && v'[p].firstSeen == now
  }

  ghost predicate KeepsTags(v: View, v': View, p: PeerId) {
    p in v' && v'[p].tags == if p in v then v[p].tags else map[]
  }

  ghost predicate KeepsDecaying(v: View, v': View, p: PeerId) {
    p in v' && v'[p].decaying == if p in v then v[p].decaying else map[]
  }

  /** The value of a tag; zero when the peer does not have it. */
  function TagOf(v: View, p: PeerId, tag: string): int {
    if p in v && tag in v[p].tags then v[p].tags[tag] else 0
  }

  function DecayingOf(v: View, p: PeerId, t: DecayingTag): int {
    if p in v && t in v[p].decaying then v[p].decaying[t].value else 0
  }

  /** Tagging gives the tag its value and moves the worth by as much; the other tags stay. */
  lemma TaggingMoves(v: View, p: PeerId, tag: string, val: int, now: Time)
    ensures var v' := Tagged(v, p, tag, val, now);
      && OthersStay(v, v', p) && KeepsConns(v, v', p, now) && KeepsDecaying(v, v', p)
      && tag in v'[p].tags && TagOf(v', p, tag) == val
      && (forall other :: other != tag ==>
        (other in v'[p].tags <==> p in v && other in v[p].tags) && TagOf(v', p, other) == TagOf(v, p, other))
      && Worth(v', p) == Worth(v, p) - TagOf(v, p, tag) + val
  {
    hide Total;
    var was := Known(v, p, now);
    TotalStore(was.tags, tag, val);
    NothingIsWorthNothing();
    StandingIs(was.decaying);
  }

  lemma NothingIsWorthNothing()
    ensures Total<string>(map[]) == 0 && Total<DecayingTag>(map[]) == 0
  {
  }

  /** Untagging takes the tag and its value away, and nothing else. */
  lemma UntaggingMoves(v: View, p: PeerId, tag: string)
    requires p in v
    ensures var v' := Untagged(v, p, tag);
      && OthersStay(v, v', p) && KeepsConns(v, v', p, 0) && KeepsDecaying(v, v', p)
      && tag !in v'[p].tags
      && (forall other :: other != tag ==>
        (other in v'[p].tags <==> other in v[p].tags) && TagOf(v', p, other) == TagOf(v, p, other))
      && Worth(v', p) == Worth(v, p) - TagOf(v, p, tag)
  {
    hide Total;
    TotalDrop(v[p].tags, tag);
  }

  /** There is nothing to take away from a peer that is not known. */
  lemma UntaggingStranger(v: View, p: PeerId, tag: string)
    requires p !in v
    ensures Untagged(v, p, tag) == v
  {
  }

  /**
   * A bump gives the decaying tag the value that its function makes of the old one, or of zero, and stamps it; the
   * worth moves by as much.
   */
  lemma BumpMoves(v: View, p: PeerId, t: DecayingTag, delta: int, now: Time)
    ensures var v' := Bumped(v, p, t, delta, now);
      var had := p in v && t in v[p].decaying;
      && OthersStay(v, v', p) && KeepsConns(v, v', p, now) && KeepsTags(v, v', p)
      && t in v'[p].decaying
      && DecayingOf(v', p, t) == t.bumpFn(if had then v[p].decaying[t] else DecayingValue(0, now, now), delta)
      && v'[p].decaying[t].lastVisit == now
      && v'[p].decaying[t].added == (if had then v[p].decaying[t].added else now)
      && (forall other :: other != t ==>
        && (other in v'[p].decaying <==> p in v && other in v[p].decaying)
        && (other in v'[p].decaying ==> v'[p].decaying[other] == v[p].decaying[other]))
      && Worth(v', p) == Worth(v, p) - DecayingOf(v, p, t) + DecayingOf(v', p, t)
  {
    hide Total;
    var was, after := Known(v, p, now), BumpedPeer(Known(v, p, now), t, delta, now);
    ValuesStore(was.decaying, t, after.decaying[t]);
    NothingIsWorthNothing();
    StandingIs(was.decaying);
    StandingIs(after.decaying);
    assert after.decaying == was.decaying[t := after.decaying[t]];
  }

  /** Removing a decaying tag from a peer takes its value away; a peer not known before is known afterwards. */
  lemma RemovalMoves(v: View, p: PeerId, t: DecayingTag, now: Time)
    ensures var v' := Removed(v, p, t, now);
      && OthersStay(v, v', p) && KeepsConns(v, v', p, now) && KeepsTags(v, v', p)
      && t !in v'[p].decaying
      && (forall other :: other != t ==>
        && (other in v'[p].decaying <==> p in v && other in v[p].decaying)
        && (other in v'[p].decaying ==> v'[p].decaying[other] == v[p].decaying[other]))
      && Worth(v', p) == Worth(v, p) - DecayingOf(v, p, t)
  {
    hide Total;
    var was := Known(v, p, now);
    ValuesDrop(was.decaying, t);
    NothingIsWorthNothing();
    StandingIs(was.decaying);
    StandingIs(was.decaying - {t});
  }

  /** Closing a tag takes it, and its value, from every peer. */
  lemma ClosingMoves(v: View, t: DecayingTag, p: PeerId)
    ensures var v' := Unregistered(v, t);
      && (p in v' <==> p in v)
      && (p in v ==>
        && KeepsConns(v, v', p, 0) && KeepsTags(v, v', p) && t !in v'[p].decaying
        && (forall other :: other != t ==>
          && (other in v'[p].decaying <==> other in v[p].decaying)
          && (other in v'[p].decaying ==> v'[p].decaying[other] == v[p].decaying[other])))
      && Worth(v', p) == Worth(v, p) - DecayingOf(v, p, t)
  {
    hide Total;
    if p in v {
      ValuesDrop(v[p].decaying, t);
      StandingIs(v[p].decaying);
      StandingIs(v[p].decaying - {t});
    }
  }

  /** A tick gives the visited tags the values their functions answer, or takes them away, and leaves the others. */
  lemma TickMoves(v: View, visit: set<DecayingTag>, now: Time, p: PeerId)
    requires p in v
    ensures var v' := Decayed(v, visit, now);
      && KeepsConns(v, v', p, now) && KeepsTags(v, v', p)
      && (forall t :: t in v'[p].decaying <==>
        t in v[p].decaying && (t in visit ==> t.decayFn(v[p].decaying[t]).Some?))
      && (forall t :: t in v'[p].decaying && t in visit ==>
        && Some(v'[p].decaying[t].value) == t.decayFn(v[p].decaying[t])
        && v'[p].decaying[t].lastVisit == now && v'[p].decaying[t].added == v[p].decaying[t].added)
      && (forall t :: t in v'[p].decaying && t !in visit ==> v'[p].decaying[t] == v[p].decaying[t])
  {
  }

  /** And makes no peer known or unknown. */
  lemma TickKeepsPeers(v: View, visit: set<DecayingTag>, now: Time)
    ensures Decayed(v, visit, now).Keys == v.Keys
  {
  }

  /**
   * A new connection is listed under its remote peer, with the time it was opened. The grace period of the peer starts
   * with a connection that is its only one; a connection already listed changes nothing.
   */
  lemma OpeningCounts(v: View, c: Conn, now: Time)
    ensures var v', p := WithConn(v, c, now), c.remote;
      var had := p in v && c in v[p].conns;
      && OthersStay(v, v', p) && KeepsTags(v, v', p) && KeepsDecaying(v, v', p)
      && c in v'[p].conns && v'[p].conns[c] == (if had then v[p].conns[c] else now)
      && (forall other :: other != c ==>
        && (other in v'[p].conns <==> p in v && other in v[p].conns)
        && (other in v'[p].conns ==> v'[p].conns[other] == v[p].conns[other]))
      && v'[p].firstSeen == (if |v'[p].conns| == 1 && !had then now else v[p].firstSeen)
      && Worth(v', p) == Worth(v, p)
  {
    var was := Known(v, c.remote, now);
    NothingIsWorthNothing();
    StandingIs(was.decaying);
    if was.conns != map[] && c !in was.conns {
      MoreThanOne(was.conns, c, now);
    }
  }

  lemma MoreThanOne(conns: map<Conn, Time>, c: Conn, now: Time)
    requires conns != map[] && c !in conns
    ensures |conns[c := now]| != 1
  {
    assert conns[c := now].Keys == conns.Keys + {c};
    assert |conns[c := now].Keys| == |conns.Keys| + 1;
    assert |conns.Keys| == |conns|;
  }

  /** A closed connection is not listed any more; with its only one the peer is forgotten, whatever it was worth. */
  lemma ClosingForgets(v: View, c: Conn)
    requires c.remote in v && c in v[c.remote].conns
    ensures var v', p := WithoutConn(v, c), c.remote;
      && OthersStay(v, v', p)
      && (p in v' <==> exists other :: other in v[p].conns && other != c)
      && (p in v' ==>
        && KeepsTags(v, v', p) && KeepsDecaying(v, v', p) && v'[p].firstSeen == v[p].firstSeen
        && (forall other :: other in v'[p].conns <==> other in v[p].conns && other != c)
        && (forall other :: other in v'[p].conns ==> v'[p].conns[other] == v[p].conns[other]))
  {
    OnlyOrNot(v[c.remote].conns, c);
  }

  lemma OnlyOrNot(conns: map<Conn, Time>, c: Conn)
    requires c in conns
    ensures |conns| == 1 <==> !exists other :: other in conns && other != c
  {
    var rest := conns.Keys - {c};
    assert conns.Keys == rest + {c};
    assert |conns| == |conns.Keys| == |rest| + 1;
    if rest != {} {
      var other :| other in rest;
      assert other in conns;
    }
  }

  /** A connection that is not listed changes nothing by closing. */
  lemma ClosingStranger(v: View, c: Conn)
    requires c.remote !in v || c !in v[c.remote].conns
    ensures WithoutConn(v, c) == v
  {
  }
}
