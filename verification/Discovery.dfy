/** Discovery with backoff: the queue of a receiver, the merge of addresses, and what the dispatcher keeps and sends. */
module Discovery {
  import opened Common

  type PeerId = nat
  type Addr = nat
  datatype AddrInfo = AddrInfo(id: PeerId, addrs: seq<Addr>)

  // ---------------------------------------------------------------- the receiver

  /**
   * One receiver: what it still has to send on, what it was seeded with, what it has received, and what it has sent.
   */
  class Receiver {
    var rcvPeers: seq<AddrInfo>
    ghost const seed: seq<AddrInfo>
    ghost var received: seq<AddrInfo>
    ghost var sent: seq<AddrInfo>
    ghost var closed: bool

    constructor (rcvPeers: seq<AddrInfo>)
      ensures Lossless() && !closed && seed == rcvPeers && received == [] && sent == []
    {
      this.rcvPeers, seed := rcvPeers, rcvPeers;
      received, sent, closed := [], [], false;
    }

    /** A first-in first-out queue that loses nothing, repeats nothing and keeps the order. */
    ghost predicate Lossless()
      reads this
    {
      sent + rcvPeers == seed + received
    }

    /** Takes a peer and sends on as many as the output channel, which is not waited for, has room for. */
    method Receive(ai: AddrInfo, room: nat)
      requires Lossless() && !closed
      modifies this`rcvPeers, this`received, this`sent
      ensures Lossless() && received == old(received) + [ai]
      ensures |sent| == |old(sent)| + (if room < |old(rcvPeers)| + 1 then room else |old(rcvPeers)| + 1)
    {
      ghost var before, all := sent, rcvPeers + [ai];
      assert before + all == before + rcvPeers + [ai] && seed + (received + [ai]) == seed + received + [ai];
      rcvPeers := rcvPeers + [ai];
      received := received + [ai];
      for i := 0 to |rcvPeers|
        invariant rcvPeers == all && received == old(received) + [ai]
        invariant i <= room && sent == before + all[..i]
      {
        if i == room {
          rcvPeers := rcvPeers[i..];
          assert all == all[..i] + all[i..];
          return;
        }
        assert all[..i + 1] == all[..i] + [all[i]];
        sent := sent + [rcvPeers[i]];
      }
      assert all[..|all|] == all;
      rcvPeers := [];
    }

    /** The input is closed: unless cancelled, everything still queued is sent, and nothing is left over. */
    method Finish(cancelledAfter: Option<nat>)
      requires Lossless() && !closed
      modifies this
      ensures closed && received == old(received)
      ensures sent <= seed + received
      ensures cancelledAfter.None? ==> sent == seed + received
    {
      for i := 0 to |rcvPeers|
        invariant rcvPeers == old(rcvPeers) && received == old(received) && closed == old(closed)
        invariant sent == old(sent) + rcvPeers[..i]
      {
        if cancelledAfter == Some(i) {
          assert seed + received == sent + rcvPeers[i..];
          closed := true;
          return;
        }
        assert rcvPeers[..i + 1] == rcvPeers[..i] + [rcvPeers[i]];
        sent := sent + [rcvPeers[i]];
      }
      assert rcvPeers[..|rcvPeers|] == rcvPeers;
      closed := true;
    }
  }

  // ---------------------------------------------------------------- the merge

  /** The elements of a sequence, each where it first occurs. */
  function Once(s: seq<Addr>): (r: seq<Addr>)
    ensures Distinct(r) && forall a :: a in r <==> a in s
  {
    if s == [] then []
    else
      var front, last := s[..|s| - 1], s[|s| - 1];
      assert forall a :: a in s <==> a in front || a == last;
      if last in front then Once(front) else Once(front) + [last]
  }

  lemma {:induction false} DistinctIsCounted(s: seq<Addr>)
    ensures |Elements(s)| <= |s|
    ensures Distinct(s) <==> |Elements(s)| == |s|
  {
    if s != [] {
      var front, last := s[..|s| - 1], s[|s| - 1];
      DistinctIsCounted(front);
      assert s == front + [last];
      assert Elements(s) == Elements(front) + {last};
      if last in front {
        var i :| 0 <= i < |front| && front[i] == last;
        assert s[i] == s[|s| - 1];
      }
    }
  }

  /** The union of two address lists, in the order seen; none when that is not longer than the first list. */
  method MergeAddrInfos(prev: AddrInfo, next: AddrInfo) returns (r: Option<AddrInfo>)
    ensures r == Merged(prev, next)
  {
    var seen: set<Addr> := {};
    var combined: seq<Addr> := [];
    combined, seen := AddAddrs(combined, seen, prev.addrs);
    assert [] + prev.addrs == prev.addrs;
    combined, seen := AddAddrs(combined, seen, next.addrs);
    OnceOfOnce(prev.addrs, next.addrs);
    if |combined| > |prev.addrs| {
      return Some(AddrInfo(prev.id, combined));
    }
    return None;
  }

  /** Appends the addresses not seen before. */
  method AddAddrs(combined: seq<Addr>, seen: set<Addr>, addrs: seq<Addr>)
    returns (combined': seq<Addr>, seen': set<Addr>)
    requires Distinct(combined) && forall a :: a in seen <==> a in combined
    ensures combined' == Once(combined + addrs) && forall a :: a in seen' <==> a in combined'
  {
    hide Once, Distinct;
    combined', seen' := combined, seen;
    OnceOfDistinct(combined);
    assert combined + addrs[..0] == combined;
    for i := 0 to |addrs|
      invariant combined' == Once(combined + addrs[..i])
      invariant forall a :: a in seen' <==> a in combined'
    {
      OnceOfOneMore(combined + addrs[..i], addrs[i]);
      assert combined + addrs[..i + 1] == combined + addrs[..i] + [addrs[i]];
      if addrs[i] !in seen' {
        seen' := seen' + {addrs[i]};
        combined' := combined' + [addrs[i]];
      }
    }
    assert addrs[..|addrs|] == addrs;
  }

  lemma {:induction false} OnceOfDistinct(s: seq<Addr>)
    requires Distinct(s)
    ensures Once(s) == s
  {
    if s != [] {
      OnceOfDistinct(s[..|s| - 1]);
      assert s == s[..|s| - 1] + [s[|s| - 1]];
    }
  }

  lemma OnceOfOneMore(s: seq<Addr>, a: Addr)
    ensures Once(s + [a]) == if a in Once(s) then Once(s) else Once(s) + [a]
  {
    assert (s + [a])[..|s|] == s;
  }

  lemma {:induction false} OnceOfOnce(s: seq<Addr>, t: seq<Addr>)
    ensures Once(Once(s) + t) == Once(s + t)
  {
    hide Once, Distinct;
    if t == [] {
      OnceOfDistinct(Once(s));
      assert Once(s) + t == Once(s) && s + t == s;
    } else {
      var front, last := t[..|t| - 1], t[|t| - 1];
      OnceOfOnce(s, front);
      OnceOfOneMore(Once(s) + front, last);
      OnceOfOneMore(s + front, last);
      assert Once(s) + t == Once(s) + front + [last] && s + t == s + front + [last];
    }
  }

  function Merged(prev: AddrInfo, next: AddrInfo): Option<AddrInfo> {
    var union := Once(prev.addrs + next.addrs);
    if |union| > |prev.addrs| then Some(AddrInfo(prev.id, union)) else None
  }

  /** How many addresses of the second list the first lacks, and how many of the first are repeated. */
  function New(prev: AddrInfo, next: AddrInfo): nat {
    |Elements(next.addrs) - Elements(prev.addrs)|
  }

  ghost function Repeated(prev: AddrInfo): nat {
    DistinctIsCounted(prev.addrs);
    |prev.addrs| - |Elements(prev.addrs)|
  }

  lemma UnionIsOnce(s: seq<Addr>, t: seq<Addr>)
    ensures Elements(Once(s + t)) == Elements(s) + Elements(t)
  {
    hide Once;
    forall a ensures a in s + t <==> a in s || a in t {
    }
  }

  /** The merge answers the union exactly when there are more new addresses than repetitions in the first list. */
  lemma MergedIff(prev: AddrInfo, next: AddrInfo)
    ensures Merged(prev, next).Some? <==> Repeated(prev) < New(prev, next)
    ensures Merged(prev, next).Some? ==>
      var union := Merged(prev, next).value.addrs;
      Distinct(union) && Elements(union) == Elements(prev.addrs) + Elements(next.addrs)
  {
    hide Once, Distinct, Elements;
    UnionIsOnce(prev.addrs, next.addrs);
    DistinctIsCounted(Once(prev.addrs + next.addrs));
    DistinctIsCounted(prev.addrs);
    var was, new' := Elements(prev.addrs), Elements(next.addrs) - Elements(prev.addrs);
    assert was + new' == was + Elements(next.addrs);
    assert |was + new'| == |was| + |new'|;
  }

  /** Every new address is noticed, whatever the second list, if and only if the first list repeats none. */
  lemma NoticesNewIff(prev: AddrInfo)
    ensures (forall next :: Merged(prev, next).Some? <==> 0 < New(prev, next)) <==> Distinct(prev.addrs)
  {
    hide Once, Distinct, Elements, New;
    DistinctIsCounted(prev.addrs);
    forall next ensures Merged(prev, next).Some? <==> Repeated(prev) < New(prev, next) {
      MergedIff(prev, next);
    }
    var next := OneNew(prev);
    assert Merged(prev, next).Some? <==> Repeated(prev) < 1;
  }

  /** There is always an address that is not on the list. */
  lemma OneNew(prev: AddrInfo) returns (next: AddrInfo)
    ensures New(prev, next) == 1
  {
    var a := Unlisted(prev.addrs);
    next := AddrInfo(prev.id, [a]);
    assert Elements(next.addrs) - Elements(prev.addrs) == {a};
  }

  lemma {:induction false} Unlisted(s: seq<Addr>) returns (a: Addr)
    ensures forall b :: b in s ==> b < a
  {
    if s == [] {
      a := 0;
    } else {
      var front, last := s[..|s| - 1], s[|s| - 1];
      a := Unlisted(front);
      a := if last < a then a else last + 1;
      assert s == front + [last];
    }
  }

  /** A new address is lost to a list that repeats one. */
  lemma NewAddressLost(p: PeerId, a: Addr, b: Addr)
    requires a != b
    ensures Merged(AddrInfo(p, [a, a]), AddrInfo(p, [b])).None? && New(AddrInfo(p, [a, a]), AddrInfo(p, [b])) == 1
  {
    var prev, next := AddrInfo(p, [a, a]), AddrInfo(p, [b]);
    assert Elements(prev.addrs) == {a} && Elements(next.addrs) == {b};
    assert Elements(next.addrs) - Elements(prev.addrs) == {b};
    MergedIff(prev, next);
  }

  // ---------------------------------------------------------------- the dispatcher

  type ChanId = nat

  /** What one peer's entry becomes when addresses are received, and whether that is news. */
  function Entry(peers: map<PeerId, AddrInfo>, ai: AddrInfo): Option<AddrInfo> {
    if ai.id in peers then Merged(peers[ai.id], ai) else Some(ai)
  }

  /** All addresses received for a peer, in the order received. */
  function ReceivedFor(received: seq<AddrInfo>, p: PeerId): seq<Addr> {
    if received == [] then []
    else
      var last := received[|received| - 1];
      ReceivedFor(received[..|received| - 1], p) + if last.id == p then last.addrs else []
  }

  /** What each channel is owed of the news since it joined: the first of them, up to its limit. */
  function Owed(news: seq<AddrInfo>, limit: int): (r: seq<AddrInfo>)
    ensures r <= news && |r| == if limit <= 0 then 0 else if limit < |news| then limit else |news|
  {
    if limit <= 0 then [] else if limit < |news| then news[..limit] else news
  }

  /** The history of a channel: the most it asked for, what was news since it joined, and what it was sent. */
  datatype Chan = Chan(limit: int, news: seq<AddrInfo>, sent: seq<AddrInfo>)

  /** A channel has been sent what it is owed, and takes as many more as that leaves. */
  ghost predicate InStep(c: Chan, remaining: int) {
    c.sent == Owed(c.news, c.limit) && remaining == c.limit - |c.sent|
  }

  function News(c: Chan, ai: AddrInfo, send: bool): Chan {
    c.(news := c.news + [ai], sent := if send then c.sent + [ai] else c.sent)
  }

  lemma InStepSend(c: Chan, remaining: int, ai: AddrInfo)
    requires InStep(c, remaining)
    ensures InStep(News(c, ai, remaining > 0), if remaining > 0 then remaining - 1 else remaining)
  {
  }

  lemma NothingOwed(limit: int)
    ensures InStep(Chan(limit, [], []), limit)
  {
  }

  /** A peer is known when something was received for it. */
  ghost predicate Received(received: seq<AddrInfo>, p: PeerId) {
    exists i :: 0 <= i < |received| && received[i].id == p
  }

  ghost predicate AllDistinct(received: seq<AddrInfo>) {
    forall i :: 0 <= i < |received| ==> Distinct(received[i].addrs)
  }

  /** The entry of each peer is the union of the addresses received for it, provided no list received repeats one. */
  ghost predicate Kept(peers: map<PeerId, AddrInfo>, received: seq<AddrInfo>) {
    && (forall p :: p in peers <==> Received(received, p))
    && (forall p :: p in peers ==> peers[p].id == p)
    && (AllDistinct(received) ==> forall p :: p in peers ==> peers[p].addrs == Once(ReceivedFor(received, p)))
  }

  class Dispatcher {
    var peers: map<PeerId, AddrInfo>
    /** How many more peers each channel takes. */
    var sendingChs: map<ChanId, int>
    ghost var received: seq<AddrInfo>
    ghost var chans: map<ChanId, Chan>

    constructor ()
      ensures Valid() && received == [] && sendingChs == map[]
    {
      peers, sendingChs, received, chans := map[], map[], [], map[];
    }

    /** Each channel has been sent what it is owed; in particular nothing when it asked for no limit at all. */
    ghost predicate Served()
      reads this
    {
      sendingChs.Keys == chans.Keys && forall ch :: ch in sendingChs ==> InStep(chans[ch], sendingChs[ch])
    }

    ghost predicate Valid()
      reads this
    {
      Served() && Kept(peers, received)
    }

    /** A receiver joins with a channel of its own. */
    method Join(ch: ChanId, limit: int)
      requires Valid() && ch !in sendingChs
      modifies this`sendingChs, this`chans
      ensures Valid()
      ensures sendingChs == old(sendingChs)[ch := limit] && chans == old(chans)[ch := Chan(limit, [], [])]
    {
      hide Kept, InStep;
      NothingOwed(limit);
      sendingChs, chans := sendingChs[ch := limit], chans[ch := Chan(limit, [], [])];
    }

    /** Handles a peer received: merges its addresses, and sends what is news to the channels that take more. */
    method Receive(ai: AddrInfo)
      requires Valid()
      modifies this
      ensures Valid() && received == old(received) + [ai]
      ensures var entry := Entry(old(peers), ai);
        if entry.Some? then peers == old(peers)[ai.id := entry.value] && Told(old(chans), chans, entry.value)
        else peers == old(peers) && chans == old(chans)
    {
      hide Kept, InStep, Merged, Told;
      KeptOneMore(peers, received, ai);
      received := received + [ai];
      var sendAi := ai;
      if ai.id in peers {
        var combined := MergeAddrInfos(peers[ai.id], ai);
        if combined.None? {
          return;
        }
        sendAi := combined.value;
      }
      peers := peers[ai.id := sendAi];
      Send(sendAi);
    }

    method Send(ai: AddrInfo)
      requires Served()
      modifies this`sendingChs, this`chans
      ensures Served() && Told(old(chans), chans, ai)
    {
      hide InStep, News;
      var todo := sendingChs.Keys;
      while todo != {}
        invariant Served() && sendingChs.Keys == old(sendingChs).Keys && todo <= sendingChs.Keys
        invariant forall ch :: ch in chans ==>
          if ch in todo then chans[ch] == old(chans)[ch]
          else chans[ch] == News(old(chans)[ch], ai, false) || chans[ch] == News(old(chans)[ch], ai, true)
        decreases todo
      {
        var ch :| ch in todo;
        todo := todo - {ch};
        InStepSend(chans[ch], sendingChs[ch], ai);
        chans := chans[ch := News(chans[ch], ai, sendingChs[ch] > 0)];
        if sendingChs[ch] > 0 {
          sendingChs := sendingChs[ch := sendingChs[ch] - 1];
        }
      }
    }
  }

  /** This was news to every channel; to some of them it was sent. */
  ghost predicate Told(before: map<ChanId, Chan>, after: map<ChanId, Chan>, ai: AddrInfo) {
    && after.Keys == before.Keys
    && forall ch :: ch in after ==> after[ch] == News(before[ch], ai, false) || after[ch] == News(before[ch], ai, true)
  }

  /** One more list received. */
  lemma KeptOneMore(peers: map<PeerId, AddrInfo>, received: seq<AddrInfo>, ai: AddrInfo)
    requires Kept(peers, received)
    ensures var entry := Entry(peers, ai);
      Kept(if entry.Some? then peers[ai.id := entry.value] else peers, received + [ai])
  {
    hide Once, Distinct, ReceivedFor, Merged;
    forall p ensures Received(received + [ai], p) <==> Received(received, p) || p == ai.id {
      ReceivedOneMore(received, ai, p);
    }
    MergedKeepsId(peers, ai);
    if AllDistinct(received + [ai]) {
      DistinctOneLess(received, ai);
      forall p
        ensures ReceivedFor(received + [ai], p) == ReceivedFor(received, p) + if p == ai.id then ai.addrs else []
      {
        ReceivedForOneMore(received, ai, p);
      }
      forall p ensures ReceivedFor(received, p) + [] == ReceivedFor(received, p) {
      }
      if ai.id in peers {
        EntryOfOneMore(peers[ai.id], ReceivedFor(received, ai.id), ai);
      } else {
        NothingReceived(received, ai.id);
        assert [] + ai.addrs == ai.addrs;
        OnceOfDistinct(ai.addrs);
      }
    }
  }

  lemma MergedKeepsId(peers: map<PeerId, AddrInfo>, ai: AddrInfo)
    requires forall p :: p in peers ==> peers[p].id == p
    ensures Entry(peers, ai).Some? ==> Entry(peers, ai).value.id == ai.id
  {
  }

  lemma DistinctOneLess(received: seq<AddrInfo>, ai: AddrInfo)
    requires AllDistinct(received + [ai])
    ensures AllDistinct(received) && Distinct(ai.addrs)
  {
    hide Distinct;
    assert (received + [ai])[|received|] == ai;
    forall i | 0 <= i < |received| ensures Distinct(received[i].addrs) {
      assert (received + [ai])[i] == received[i];
    }
  }

  lemma ReceivedOneMore(received: seq<AddrInfo>, ai: AddrInfo, p: PeerId)
    ensures Received(received + [ai], p) <==> Received(received, p) || p == ai.id
  {
    var all := received + [ai];
    assert all[|received|] == ai;
    if Received(received, p) {
      var i :| 0 <= i < |received| && received[i].id == p;
      assert all[i].id == p;
    }
  }

  lemma ReceivedForOneMore(received: seq<AddrInfo>, ai: AddrInfo, p: PeerId)
    ensures ReceivedFor(received + [ai], p) == ReceivedFor(received, p) + if p == ai.id then ai.addrs else []
  {
    assert (received + [ai])[..|received|] == received;
  }

  lemma {:induction false} NothingReceived(received: seq<AddrInfo>, p: PeerId)
    requires !Received(received, p)
    ensures ReceivedFor(received, p) == []
  {
    if received != [] {
      assert received[|received| - 1].id != p;
      NothingReceived(received[..|received| - 1], p);
    }
  }

  /** A list merged into a union is the union with it; when the merge answers none, nothing was new. */
  lemma EntryOfOneMore(prev: AddrInfo, before: seq<Addr>, ai: AddrInfo)
    requires prev.addrs == Once(before)
    ensures (if Merged(prev, ai).Some? then Merged(prev, ai).value.addrs else prev.addrs) == Once(before + ai.addrs)
  {
    OnceOfOnce(before, ai.addrs);
    OnceIsLonger(prev.addrs, ai.addrs);
  }

  lemma {:induction false} OnceIsLonger(s: seq<Addr>, t: seq<Addr>)
    requires Distinct(s)
    ensures s <= Once(s + t)
  {
    if t == [] {
      assert s + t == s;
      OnceOfDistinct(s);
    } else {
      OnceIsLonger(s, t[..|t| - 1]);
      OnceOfOneMore(s + t[..|t| - 1], t[|t| - 1]);
      assert s + t == s + t[..|t| - 1] + [t[|t| - 1]];
    }
  }
}
