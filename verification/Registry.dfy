/**
 * Which scopes the resource manager has on its books, by name, and what it relies on when it collects those that
 * are no longer used (p2p/host/resource-manager/rcmgr.go).
 */
module Registry {
  import opened Common
  import opened Resources
  import opened Ledgers
  import opened Accounts
  import opened Moves

  const SYSTEM: Id := 0
  const TRANSIENT: Id := 1
  const ALLOWED_SYSTEM: Id := 2
  const ALLOWED_TRANSIENT: Id := 3

  /** A service or protocol scope with its scopes per peer. */
  datatype Group = Group(scope: Id, peers: map<string, Id>)

  datatype Registry = Registry(peers: map<string, Id>, groups: map<Key, Group>)

  /** Between operations only the four fixed scopes are held by a reference of the manager itself. */
  function Pins(n: nat): seq<int> {
    seq(n, i requires 0 <= i < n => if i <= ALLOWED_TRANSIENT then 1 else 0)
  }

  predicate Is(w: World, i: Id, name: Name, edges: seq<Id>) {
    i < |w| && w[i].name == name && !w[i].done && w[i].owner.None? && w[i].edges == edges
  }

  predicate Fixed(w: World) {
    && Is(w, SYSTEM, System, []) && Is(w, TRANSIENT, Transient, [SYSTEM])
    && Is(w, ALLOWED_SYSTEM, AllowedSystem, []) && Is(w, ALLOWED_TRANSIENT, AllowedTransient, [ALLOWED_SYSTEM])
  }

  predicate Filed(w: World, reg: Registry) {
    && (forall p :: p in reg.peers ==> Is(w, reg.peers[p], Peer(p), [SYSTEM]))
    && (forall n :: n in reg.groups ==> GroupFiled(w, n, reg.groups[n]))
  }

  predicate GroupFiled(w: World, n: Key, group: Group) {
    && Is(w, group.scope, Shared(n), [SYSTEM])
    && (forall p :: p in group.peers ==> Is(w, group.peers[p], PerPeer(n, p), []))
  }

  /** There is at most one open scope for a peer, and it is on the books. */
  predicate PeersFiled(w: World, reg: Registry) {
    forall i :: 0 <= i < |w| && w[i].name.Peer? && !w[i].done ==>
      w[i].name.peer in reg.peers && reg.peers[w[i].name.peer] == i
  }

  /**
   * Connections, streams and spans are nobody's parents, and a scope with a per-peer parent also has the scope of
   * that peer as a parent.
   */
  predicate ParentsAt(w: World, c: Id)
    requires c < |w|
  {
    !w[c].done ==> forall e :: e in w[c].edges && e < |w| ==>
      && !w[e].name.Connection? && !w[e].name.Stream? && !w[e].name.Span?
      && (w[e].name.PerPeer? ==> exists f :: f in w[c].edges && f < |w| && w[f].name == Peer(w[e].name.peer))
  }

  predicate Parents(w: World) { forall c :: 0 <= c < |w| ==> ParentsAt(w, c) }

  predicate Tidy(w: World, reg: Registry) {
    Fixed(w) && Filed(w, reg) && PeersFiled(w, reg) && Parents(w)
  }

  // ---------------------------------------------------------------- what keeps the books tidy

  /** Scopes that may be on the books. */
  predicate Filable(name: Name) { !name.Connection? && !name.Stream? && !name.Span? }

  /** What is on the books stays as it is. */
  ghost predicate Kept(w: World, w': World) {
    forall i, name, edges :: Filable(name) && Is(w, i, name, edges) ==> Is(w', i, name, edges)
  }

  lemma KeptFixed(w: World, w': World)
    requires Fixed(w) && Kept(w, w')
    ensures Fixed(w')
  {
    hide Is;
  }

  lemma KeptFiled(w: World, w': World, reg: Registry)
    requires Filed(w, reg) && Kept(w, w')
    ensures Filed(w', reg)
  {
    hide Is;
    forall p | p in reg.peers ensures Is(w', reg.peers[p], Peer(p), [SYSTEM]) {}
    forall n | n in reg.groups ensures GroupFiled(w', n, reg.groups[n]) { KeptGroup(w, w', n, reg.groups[n]); }
  }

  lemma KeptGroup(w: World, w': World, n: Key, group: Group)
    requires GroupFiled(w, n, group) && Kept(w, w')
    ensures GroupFiled(w', n, group)
  {
    hide Is;
    forall p | p in group.peers ensures Is(w', group.peers[p], PerPeer(n, p), []) {}
  }

  /** Only counters and references may differ. */
  predicate SameNames(w: World, w': World) {
    && |w| == |w'|
    && forall i :: 0 <= i < |w| ==>
         w'[i].name == w[i].name && w'[i].done == w[i].done && w'[i].owner == w[i].owner && w'[i].edges == w[i].edges
  }

  /** Scopes may be added, may change their counters, and those off the books may also close or move. */
  predicate Grows(w: World, w': World) {
    && |w| <= |w'|
    && forall i :: 0 <= i < |w| ==>
         && w'[i].name == w[i].name && w'[i].owner == w[i].owner
         && (Filable(w[i].name) ==> w'[i].done == w[i].done && w'[i].edges == w[i].edges)
  }

  lemma GrowthKept(w: World, w': World)
    requires Grows(w, w')
    ensures Kept(w, w')
  {
  }

  lemma GrowthPeersFiled(w: World, w': World, reg: Registry)
    requires PeersFiled(w, reg) && Grows(w, w') && forall i :: |w| <= i < |w'| ==> !w'[i].name.Peer?
    ensures PeersFiled(w', reg)
  {
  }

  /** The parents of one scope stay good when no other scope changes its name. */
  lemma ParentsKept(w: World, w': World, i: Id)
    requires i < |w| <= |w'| && ParentsAt(w, i) && forall e :: e in w[i].edges ==> e < |w|
    requires forall j :: 0 <= j < |w| ==> w'[j].name == w[j].name
    requires w'[i].edges == w[i].edges && (w[i].done ==> w'[i].done)
    ensures ParentsAt(w', i)
  {
    if !w'[i].done {
      forall e | e in w[i].edges && w[e].name.PerPeer?
        ensures exists f :: f in w'[i].edges && f < |w'| && w'[f].name == Peer(w'[e].name.peer)
      {
        var f :| f in w[i].edges && f < |w| && w[f].name == Peer(w[e].name.peer);
        assert w'[f].name == w[f].name;
      }
    }
  }

  lemma EdgesKnownAt(w: World, i: Id)
    requires Shaped(w) && i < |w|
    ensures forall e :: e in w[i].edges ==> e < |w| && e != i
  {
    assert ShapeAt(Links(w), i);
    assert Links(w)[i].edges == w[i].edges;
  }

  /** Everything but the opening and closing of scopes on the books: only the moved and the new scopes are looked at. */
  lemma GrowthTidy(w: World, w': World, reg: Registry)
    requires Tidy(w, reg) && Shaped(w) && Grows(w, w')
    requires forall i :: |w| <= i < |w'| ==> !w'[i].name.Peer? && ParentsAt(w', i)
    requires forall i :: 0 <= i < |w| && (w'[i].edges != w[i].edges || (w[i].done && !w'[i].done)) ==> ParentsAt(w', i)
    ensures Tidy(w', reg)
  {
    hide Fixed, Filed, PeersFiled, Kept;
    GrowthKept(w, w');
    KeptFixed(w, w');
    KeptFiled(w, w', reg);
    GrowthPeersFiled(w, w', reg);
    forall i | 0 <= i < |w'| ensures ParentsAt(w', i) {
      if i < |w| {
        EdgesKnownAt(w, i);
        assert ParentsAt(w, i);
        if w'[i].edges == w[i].edges && !(w[i].done && !w'[i].done) { ParentsKept(w, w', i); }
      }
    }
  }

  /** A scope for a peer that has none is put on the books. */
  lemma PeerTidy(w: World, w': World, reg: Registry, p: string)
    requires Tidy(w, reg) && Shaped(w) && Grows(w, w') && p !in reg.peers
    requires |w'| == |w| + 1 && Is(w', |w|, Peer(p), [SYSTEM])
    requires forall i :: 0 <= i < |w| ==> w'[i].edges == w[i].edges && w'[i].done == w[i].done
    ensures Tidy(w', reg.(peers := reg.peers[p := |w|]))
  {
    hide Fixed, Filed, Kept, PeersFiled, Grows;
    var reg' := reg.(peers := reg.peers[p := |w|]);
    FixedNames(w);
    GrowthKept(w, w');
    KeptFixed(w, w');
    KeptFiled(w, w', reg);
    FiledPeer(w', reg, p, |w|);
    GrowthNewPeer(w, w', reg, p);
    GrowthNames(w, w');
    forall i | 0 <= i < |w'| ensures ParentsAt(w', i) {
      if i < |w| {
        EdgesKnownAt(w, i);
        assert ParentsAt(w, i);
        ParentsKept(w, w', i);
      } else {
        assert w'[SYSTEM].name == System;
      }
    }
  }

  lemma GrowthNames(w: World, w': World)
    requires Grows(w, w')
    ensures |w| <= |w'| && forall i :: 0 <= i < |w| ==> w'[i].name == w[i].name
  {
  }

  lemma GrowthNewPeer(w: World, w': World, reg: Registry, p: string)
    requires PeersFiled(w, reg) && Grows(w, w') && p !in reg.peers && |w'| == |w| + 1 && w'[|w|].name == Peer(p)
    ensures PeersFiled(w', reg.(peers := reg.peers[p := |w|]))
  {
  }

  lemma FixedNames(w: World)
    requires Fixed(w)
    ensures |w| >= 4 && w[SYSTEM].name == System && w[TRANSIENT].name == Transient
    ensures w[ALLOWED_SYSTEM].name == AllowedSystem && w[ALLOWED_TRANSIENT].name == AllowedTransient
  {
  }

  lemma FiledPeer(w: World, reg: Registry, p: string, i: Id)
    requires Filed(w, reg) && Is(w, i, Peer(p), [SYSTEM])
    ensures Filed(w, reg.(peers := reg.peers[p := i]))
  {
    hide Is;
  }

  lemma FiledGroup(w: World, reg: Registry, n: Key, i: Id)
    requires Filed(w, reg) && Is(w, i, Shared(n), [SYSTEM])
    ensures Filed(w, reg.(groups := reg.groups[n := Group(i, map[])]))
  {
    hide Is;
  }

  lemma FiledPart(w: World, reg: Registry, n: Key, p: string, i: Id)
    requires Filed(w, reg) && n in reg.groups && Is(w, i, PerPeer(n, p), [])
    ensures Filed(w, reg.(groups := reg.groups[n := reg.groups[n].(peers := reg.groups[n].peers[p := i])]))
  {
    hide Is;
    assert GroupFiled(w, n, reg.groups[n]);
  }

  // ---------------------------------------------------------------- what collection relies on

  /**
   * A per-peer scope of a service or protocol may be closed as soon as no scope for the peer is open: nothing that
   * is open has it as a parent, although it is not looked at itself.
   */
  lemma DeadPeerHasNoStreams(w: World, pins: seq<int>, reg: Registry, s: Id)
    requires Sound(w, pins) && Tidy(w, reg) && s < |w| && w[s].name.PerPeer?
    requires w[s].name.peer !in reg.peers
    ensures NoChildren(w, s)
  {
    hide Fixed, Filed, Sound;
    var p := w[s].name.peer;
    forall c | 0 <= c < |w| && !w[c].done ensures s !in w[c].edges {
      assert ParentsAt(w, c);
      if s in w[c].edges {
        var f :| f in w[c].edges && f < |w| && w[f].name == Peer(p);
        OpenParent(w, pins, c, f);
        assert false;
      }
    }
  }

  lemma OpenParent(w: World, pins: seq<int>, c: Id, e: Id)
    requires Sound(w, pins) && c < |w| && !w[c].done && e in w[c].edges
    ensures e < |w| && !w[e].done
  {
    assert Balanced(Links(w), Idle(pins));
    assert !Links(w)[c].done && Links(w)[c].edges == w[c].edges;
    assert ShapeAt(Links(w), c);
  }

  // ---------------------------------------------------------------- taking a scope off the books

  /** Scope `s` is closed; names and links are as before. */
  predicate ClosedOne(w: World, w': World, s: Id) {
    && |w| == |w'| && s < |w|
    && forall i :: 0 <= i < |w| ==>
         && w'[i].name == w[i].name && w'[i].owner == w[i].owner && w'[i].edges == w[i].edges
         && w'[i].done == (w[i].done || i == s)
  }

  lemma ClosedOneKeeps(w: World, w': World, s: Id, i: Id, name: Name, edges: seq<Id>)
    requires ClosedOne(w, w', s) && Is(w, i, name, edges) && name != w[s].name
    ensures Is(w', i, name, edges)
  {
  }

  lemma ClosedOneGroup(w: World, w': World, s: Id, n: Key, group: Group)
    requires ClosedOne(w, w', s) && GroupFiled(w, n, group)
    requires w[s].name != Shared(n) && forall p :: p in group.peers ==> w[s].name != PerPeer(n, p)
    ensures GroupFiled(w', n, group)
  {
    hide Is, ClosedOne;
    ClosedOneKeeps(w, w', s, group.scope, Shared(n), [SYSTEM]);
    forall p | p in group.peers ensures Is(w', group.peers[p], PerPeer(n, p), []) {
      ClosedOneKeeps(w, w', s, group.peers[p], PerPeer(n, p), []);
    }
  }

  lemma ClosedOneFixed(w: World, w': World, s: Id)
    requires Fixed(w) && ClosedOne(w, w', s)
    requires w[s].name !in {System, Transient, AllowedSystem, AllowedTransient}
    ensures Fixed(w')
  {
    hide Is, ClosedOne;
    ClosedOneKeeps(w, w', s, SYSTEM, System, []);
    ClosedOneKeeps(w, w', s, TRANSIENT, Transient, [SYSTEM]);
    ClosedOneKeeps(w, w', s, ALLOWED_SYSTEM, AllowedSystem, []);
    ClosedOneKeeps(w, w', s, ALLOWED_TRANSIENT, AllowedTransient, [ALLOWED_SYSTEM]);
  }

  lemma ClosedOneParents(w: World, w': World, s: Id)
    requires Parents(w) && Shaped(w) && ClosedOne(w, w', s)
    ensures Parents(w')
  {
    forall i | 0 <= i < |w'| ensures ParentsAt(w', i) {
      EdgesKnownAt(w, i);
      assert ParentsAt(w, i);
      ParentsKept(w, w', i);
    }
  }

  lemma CollectPeerTidy(w: World, w': World, reg: Registry, p: string)
    requires Tidy(w, reg) && Shaped(w) && p in reg.peers && ClosedOne(w, w', reg.peers[p])
    ensures Tidy(w', reg.(peers := reg.peers - {p}))
  {
    hide Fixed, Parents, GroupFiled, PeersFiled, Shaped, ClosedOne;
    var s, reg' := reg.peers[p], reg.(peers := reg.peers - {p});
    assert Is(w, s, Peer(p), [SYSTEM]);
    ClosedOneFixed(w, w', s);
    ClosedOneParents(w, w', s);
    ClosedPeerFiled(w, w', reg, p);
    forall q | q in reg'.peers ensures Is(w', reg'.peers[q], Peer(q), [SYSTEM]) {
      ClosedOneKeeps(w, w', s, reg.peers[q], Peer(q), [SYSTEM]);
    }
    forall n | n in reg.groups ensures GroupFiled(w', n, reg.groups[n]) { ClosedOneGroup(w, w', s, n, reg.groups[n]); }
  }

  lemma ClosedPeerFiled(w: World, w': World, reg: Registry, p: string)
    requires PeersFiled(w, reg) && p in reg.peers && ClosedOne(w, w', reg.peers[p])
    requires w[reg.peers[p]].name == Peer(p)
    ensures PeersFiled(w', reg.(peers := reg.peers - {p}))
  {
  }

  lemma CollectGroupTidy(w: World, w': World, reg: Registry, n: Key)
    requires Tidy(w, reg) && Shaped(w) && n in reg.groups && ClosedOne(w, w', reg.groups[n].scope)
    ensures Tidy(w', reg.(groups := reg.groups - {n}))
  {
    hide Fixed, Parents;
    var s, reg' := reg.groups[n].scope, reg.(groups := reg.groups - {n});
    assert GroupFiled(w, n, reg.groups[n]);
    ClosedOneFixed(w, w', s);
    ClosedOneParents(w, w', s);
    forall q | q in reg.peers ensures Is(w', reg.peers[q], Peer(q), [SYSTEM]) {
      ClosedOneKeeps(w, w', s, reg.peers[q], Peer(q), [SYSTEM]);
    }
    forall m | m in reg'.groups ensures GroupFiled(w', m, reg'.groups[m]) {
      assert GroupFiled(w, m, reg.groups[m]);
      ClosedOneGroup(w, w', s, m, reg.groups[m]);
    }
  }

  lemma CollectPartTidy(w: World, w': World, reg: Registry, n: Key, p: string)
    requires Tidy(w, reg) && Shaped(w) && n in reg.groups && p in reg.groups[n].peers
    requires ClosedOne(w, w', reg.groups[n].peers[p])
    ensures Tidy(w', reg.(groups := reg.groups[n := reg.groups[n].(peers := reg.groups[n].peers - {p})]))
  {
    hide Fixed, Parents, PeersFiled, GroupFiled, ClosedOne, Is;
    var s := reg.groups[n].peers[p];
    var group' := reg.groups[n].(peers := reg.groups[n].peers - {p});
    var reg' := reg.(groups := reg.groups[n := group']);
    PartName(w, n, reg.groups[n], p);
    ClosedOneFixed(w, w', s);
    ClosedOneParents(w, w', s);
    ClosedOnePeers(w, w', s, reg, reg');
    forall q | q in reg.peers ensures Is(w', reg.peers[q], Peer(q), [SYSTEM]) {
      ClosedOneKeeps(w, w', s, reg.peers[q], Peer(q), [SYSTEM]);
    }
    forall m | m in reg'.groups ensures GroupFiled(w', m, reg'.groups[m]) {
      ClosedOneGroup(w, w', s, m, reg'.groups[m]);
    }
  }

  lemma PartName(w: World, n: Key, group: Group, p: string)
    requires GroupFiled(w, n, group) && p in group.peers
    ensures group.peers[p] < |w| && w[group.peers[p]].name == PerPeer(n, p)
    ensures GroupFiled(w, n, group.(peers := group.peers - {p}))
  {
    assert Is(w, group.peers[p], PerPeer(n, p), []);
  }

  lemma ClosedOnePeers(w: World, w': World, s: Id, reg: Registry, reg': Registry)
    requires PeersFiled(w, reg) && ClosedOne(w, w', s) && reg'.peers == reg.peers
    ensures PeersFiled(w', reg')
  {
  }

  // ---------------------------------------------------------------- looking a scope up, or opening it

  function PeerKnown(w: World, reg: Registry, p: string, limit: Limit): World {
    if p in reg.peers then w else Created(w, Peer(p), limit, [SYSTEM])
  }

  function PeerBooked(reg: Registry, p: string, n: Id): Registry {
    if p in reg.peers then reg else reg.(peers := reg.peers[p := n])
  }

  function GroupKnown(w: World, reg: Registry, n: Key, limit: Limit): World {
    if n in reg.groups then w else Created(w, Shared(n), limit, [SYSTEM])
  }

  function GroupBooked(reg: Registry, n: Key, i: Id): Registry {
    if n in reg.groups then reg else reg.(groups := reg.groups[n := Group(i, map[])])
  }

  function PartKnown(w: World, reg: Registry, n: Key, p: string, limit: Limit): World
    requires n in reg.groups
  {
    if p in reg.groups[n].peers then w else Created(w, PerPeer(n, p), limit, [])
  }

  function PartBooked(reg: Registry, n: Key, p: string, i: Id): Registry
    requires n in reg.groups
  {
    if p in reg.groups[n].peers then reg
    else reg.(groups := reg.groups[n := reg.groups[n].(peers := reg.groups[n].peers[p := i])])
  }

  /** Conservation, exact references, limits, and what the manager relies on. */
  ghost predicate Good(w: World, reg: Registry) {
    Sound(w, Pins(|w|)) && Tidy(w, reg)
  }

  lemma PinsGrow(n: nat)
    requires n >= 4
    ensures Pins(n) + [0] == Pins(n + 1)
  {
  }

  lemma CreateGood(w: World, reg: Registry, name: Name, limit: Limit, edges: seq<Id>)
    requires Good(w, reg) && limit.Valid() && (edges == [SYSTEM] || edges == []) && !name.Peer?
    requires name.Shared? || name.PerPeer?
    ensures Good(Created(w, name, limit, edges), reg) && Is(Created(w, name, limit, edges), |w|, name, edges)
  {
    SoundIsShaped(w, Pins(|w|));
    FixedNames(w);
    PinsGrow(|w|);
    CreateKeepsSound(w, Pins(|w|), name, limit, edges);
    CreatedParents(w, name, limit, edges);
    GrowthTidy(w, Created(w, name, limit, edges), reg);
  }

  lemma CreatedParents(w: World, name: Name, limit: Limit, edges: seq<Id>)
    requires Fixed(w) && (edges == [SYSTEM] || edges == [])
    ensures var w' := Created(w, name, limit, edges);
            && Grows(w, w') && ParentsAt(w', |w|)
            && forall i :: 0 <= i < |w| ==> w'[i].edges == w[i].edges && w'[i].done == w[i].done
  {
  }

  lemma PeerKnownGood(w: World, reg: Registry, p: string, limit: Limit)
    requires Good(w, reg) && limit.Valid()
    ensures var w', reg' := PeerKnown(w, reg, p, limit), PeerBooked(reg, p, |w|);
            Good(w', reg') && p in reg'.peers && Is(w', reg'.peers[p], Peer(p), [SYSTEM])
  {
    if p !in reg.peers {
      SoundIsShaped(w, Pins(|w|));
      FixedNames(w);
      PinsGrow(|w|);
      CreateKeepsSound(w, Pins(|w|), Peer(p), limit, [SYSTEM]);
      CreatedParents(w, Peer(p), limit, [SYSTEM]);
      PeerTidy(w, Created(w, Peer(p), limit, [SYSTEM]), reg, p);
    }
  }

  lemma GroupKnownGood(w: World, reg: Registry, n: Key, limit: Limit)
    requires Good(w, reg) && limit.Valid()
    ensures var w', reg' := GroupKnown(w, reg, n, limit), GroupBooked(reg, n, |w|);
            Good(w', reg') && n in reg'.groups && Is(w', reg'.groups[n].scope, Shared(n), [SYSTEM])
  {
    if n in reg.groups {
      assert GroupFiled(w, n, reg.groups[n]);
    } else {
      CreateGood(w, reg, Shared(n), limit, [SYSTEM]);
      FiledGroup(Created(w, Shared(n), limit, [SYSTEM]), reg, n, |w|);
    }
  }

  lemma PartKnownGood(w: World, reg: Registry, n: Key, p: string, limit: Limit)
    requires Good(w, reg) && limit.Valid() && n in reg.groups
    ensures var w', reg' := PartKnown(w, reg, n, p, limit), PartBooked(reg, n, p, |w|);
            && Good(w', reg') && n in reg'.groups && p in reg'.groups[n].peers
            && Is(w', reg'.groups[n].peers[p], PerPeer(n, p), [])
  {
    assert GroupFiled(w, n, reg.groups[n]);
    if p !in reg.groups[n].peers {
      CreateGood(w, reg, PerPeer(n, p), limit, []);
      FiledPart(Created(w, PerPeer(n, p), limit, []), reg, n, p, |w|);
    }
  }

  // ---------------------------------------------------------------- the beginning

  lemma NothingIsSound()
    ensures Sound([], [])
  {
  }

  /** The manager holds a reference on each of its fixed scopes. */
  function Opened(w: World, name: Name, limit: Limit, edges: seq<Id>): World {
    Referenced(Created(w, name, limit, edges), [|w|], 1)
  }

  lemma OpenKeepsSound(w: World, pins: seq<int>, name: Name, limit: Limit, edges: seq<Id>)
    requires Sound(w, pins) && limit.Valid() && Distinct(edges)
    requires forall e :: e in edges ==> e < |w| && !w[e].done && w[e].owner.None?
    ensures Sound(Opened(w, name, limit, edges), pins + [1])
  {
    hide Sound, Created;
    CreateKeepsSound(w, pins, name, limit, edges);
    var w1 := Created(w, name, limit, edges);
    assert |pins| == |w| by { SoundPins(w, pins); }
    PinKeepsSound(w1, pins + [0], |w|, 1);
    assert (pins + [0])[|w| := 1] == pins + [1];
    OneReference(w1, |w|);
  }

  lemma SoundPins(w: World, pins: seq<int>)
    requires Sound(w, pins)
    ensures |pins| == |w|
  {
  }

  lemma OneReference(w: World, i: Id)
    requires i < |w|
    ensures Referenced(w, [i], 1) == w[i := w[i].(refCnt := w[i].refCnt + 1)]
  {
  }

  /** The four fixed scopes of a new manager. */
  function Start(system: Limit, transient: Limit, allowedSystem: Limit, allowedTransient: Limit): World {
    Opened(Opened(Opened(Opened([], System, system, []), Transient, transient, [SYSTEM]),
                  AllowedSystem, allowedSystem, []), AllowedTransient, allowedTransient, [ALLOWED_SYSTEM])
  }

  lemma OpenedScopes(w: World, name: Name, limit: Limit, edges: seq<Id>)
    ensures var w' := Opened(w, name, limit, edges);
            && |w'| == |w| + 1 && Is(w', |w|, name, edges)
            && forall i, n, es :: Is(w, i, n, es) ==> Is(w', i, n, es)
  {
  }

  lemma StartIsGood(system: Limit, transient: Limit, allowedSystem: Limit, allowedTransient: Limit)
    requires system.Valid() && transient.Valid() && allowedSystem.Valid() && allowedTransient.Valid()
    ensures Good(Start(system, transient, allowedSystem, allowedTransient), Registry(map[], map[]))
  {
    hide Sound, Opened;
    NothingIsSound();
    var w1 := Opened([], System, system, []);
    var w2 := Opened(w1, Transient, transient, [SYSTEM]);
    var w3 := Opened(w2, AllowedSystem, allowedSystem, []);
    var w4 := Opened(w3, AllowedTransient, allowedTransient, [ALLOWED_SYSTEM]);
    OpenedScopes([], System, system, []);
    OpenedScopes(w1, Transient, transient, [SYSTEM]);
    OpenedScopes(w2, AllowedSystem, allowedSystem, []);
    OpenedScopes(w3, AllowedTransient, allowedTransient, [ALLOWED_SYSTEM]);
    StartTidy(w4);
    OpenKeepsSound([], [], System, system, []);
    OpenKeepsSound(w1, [] + [1], Transient, transient, [SYSTEM]);
    OpenKeepsSound(w2, [] + [1] + [1], AllowedSystem, allowedSystem, []);
    OpenKeepsSound(w3, [] + [1] + [1] + [1], AllowedTransient, allowedTransient, [ALLOWED_SYSTEM]);
    assert [] + [1] + [1] + [1] + [1] == Pins(4);
  }

  lemma StartTidy(w: World)
    requires Fixed(w) && |w| == 4
    ensures Tidy(w, Registry(map[], map[]))
  {
    forall c | 0 <= c < |w| ensures ParentsAt(w, c) {
      assert c == SYSTEM || c == TRANSIENT || c == ALLOWED_SYSTEM || c == ALLOWED_TRANSIENT;
    }
  }

  // ---------------------------------------------------------------- attaching connections and streams

  predicate Attachable(w: World, s: Id) {
    s < |w| && (w[s].name.Connection? || w[s].name.Stream?) && w[s].owner.None? && !w[s].done
  }

  /** Where a memory limit of MaxInt64 switches the overflow check off, there is room for `d` all the same. */
  predicate Takes(w: World, d: Stat) {
    forall i :: ALLOWED_TRANSIENT < i < |w| ==> Fits(w[i].limit, w[i].rc, d)
  }

  lemma LeafByName(w: World, reg: Registry, s: Id)
    requires Good(w, reg) && s < |w| && (w[s].name.Connection? || w[s].name.Stream?)
    ensures NoChildren(w, s)
  {
    hide Fixed, Filed, PeersFiled, Sound;
    SoundIsShaped(w, Pins(|w|));
    forall i | 0 <= i < |w| && !w[i].done ensures s !in w[i].edges {
      assert ParentsAt(w, i);
      EdgesKnownAt(w, i);
    }
  }

  /** Attaching a scope to parents that it may have, as far as the books go. */
  lemma AttachedGood(w: World, reg: Registry, s: Id, joins: seq<Id>, leaves: seq<Id>, edges: seq<Id>)
    requires Good(w, reg) && Attachable(w, s) && Prepared(w, s, joins, leaves, edges)
    requires (joins != [] || leaves != []) && Known(w, leaves) && CountedOn(w, s, joins, leaves, edges)
    requires ParentsAt(w[s := w[s].(edges := edges)], s)
    ensures Good(Attached(w, s, joins, leaves, edges), reg)
  {
    var w' := Attached(w, s, joins, leaves, edges);
    AttachedNames(w, s, joins, leaves, edges);
    hide Attached, Fixed, Filed, PeersFiled, Parents, Sound, Prepared, CountedOn, Known;
    LeafByName(w, reg, s);
    AttachIsSoundIff(w, Pins(|w|), s, joins, leaves, edges);
    SoundIsShaped(w, Pins(|w|));
    ParentsOfNames(w[s := w[s].(edges := edges)], w', s);
    GrowthTidy(w, w', reg);
  }

  lemma AttachedNames(w: World, s: Id, joins: seq<Id>, leaves: seq<Id>, edges: seq<Id>)
    requires Attachable(w, s)
    ensures var w' := Attached(w, s, joins, leaves, edges);
            && Grows(w, w') && SameNames(w[s := w[s].(edges := edges)], w')
            && forall i :: 0 <= i < |w| ==> w'[i].done == w[i].done && (i != s ==> w'[i].edges == w[i].edges)
  {
    var w' := Attached(w, s, joins, leaves, edges);
    forall i | 0 <= i < |w| && i != s
      ensures w'[i].name == w[i].name && w'[i].done == w[i].done && w'[i].owner == w[i].owner
        && w'[i].edges == w[i].edges
    {
      MovedScopeNames(w[i], i in joins, i in leaves, w[s].rc);
    }
    assert w'[s] == w[s].(edges := edges);
    hide Attached;
  }

  lemma MovedScopeNames(c: Scope, joins: bool, leaves: bool, d: Stat)
    ensures var c' := MovedScope(c, joins, leaves, d);
            c'.name == c.name && c'.done == c.done && c'.owner == c.owner && c'.edges == c.edges
  {
  }

  lemma ParentsOfNames(w: World, w': World, i: Id)
    requires SameNames(w, w') && i < |w| && ParentsAt(w, i)
    ensures ParentsAt(w', i)
  {
    if !w[i].done {
      forall e | e in w'[i].edges && e < |w'| && w'[e].name.PerPeer?
        ensures exists f :: f in w'[i].edges && f < |w'| && w'[f].name == Peer(w'[e].name.peer)
      {
        var f :| f in w[i].edges && f < |w| && w[f].name == Peer(w[e].name.peer);
        assert w'[f].name == w[f].name;
      }
    }
  }

  /** A scope that was looked up or opened is none of those that `s` is or has already. */
  lemma JoinedIsSane(w: World, reg: Registry, s: Id, e: Id)
    requires Good(w, reg) && s < |w| && e < |w|
    ensures Sane(w[s].rc) && Sane(w[e].rc) && Amount(w[s].rc)
  {
    assert Limited(w);
  }

  lemma TakesMore(w: World, name: Name, limit: Limit, edges: seq<Id>, d: Stat)
    requires Takes(w, d) && Amount(d)
    ensures Takes(Created(w, name, limit, edges), d)
  {
  }

  /** Creating a scope under the system leaves a connection or stream as it is. */
  lemma CreatedElsewhere(w: World, name: Name, limit: Limit, edges: seq<Id>, s: Id)
    requires s < |w| && s !in edges
    ensures Created(w, name, limit, edges)[s] == w[s]
  {
  }

  predicate Standard(t: Id, y: Id) { (t, y) == (TRANSIENT, SYSTEM) || (t, y) == (ALLOWED_TRANSIENT, ALLOWED_SYSTEM) }

  ghost predicate HasOnly(edges: seq<Id>, t: Id, y: Id) { forall x :: x in edges <==> x == t || x == y }

  /** What SetPeer does to a connection that counts on a transient and a system scope. */
  lemma PeerAttach(w: World, reg: Registry, p: string, limit: Limit, s: Id, t: Id, y: Id)
    requires Good(w, reg) && limit.Valid() && Attachable(w, s) && Takes(w, w[s].rc)
    requires Standard(t, y) && HasOnly(w[s].edges, t, y)
    ensures var w1, reg1 := PeerKnown(w, reg, p, limit), PeerBooked(reg, p, |w|);
            && Good(w1, reg1) && p in reg1.peers && |w| <= |w1| && w1[s] == w[s]
            && var e := reg1.peers[p];
            && e < |w1| && !w1[e].done && Sane(w1[e].rc) && Amount(w[s].rc) && e != s && e != t && e != y && t < |w|
                && y < |w| && s != t && s != y
            && (Verdict(w1[e], Bulk(w[s].rc)).None? ==> Good(Attached(w1, s, [e], [t], [e, y]), reg1))
  {
    hide Good, Takes, Attached, PeerKnown, PeerBooked, Verdict, Sane, Amount;
    var w1, reg1 := PeerKnown(w, reg, p, limit), PeerBooked(reg, p, |w|);
    GoodParents(w, reg, t, y);
    PeerKnownGood(w, reg, p, limit);
    PeerElsewhere(w, reg, p, limit, s, w[s].rc);
    var e := reg1.peers[p];
    GoodParents(w1, reg1, t, y);
    JoinedIsSane(w1, reg1, s, e);
    if Verdict(w1[e], Bulk(w[s].rc)).None? {
      PeerPrepared(w1, reg1, p, s, t, y, e);
      AttachedGood(w1, reg1, s, [e], [t], [e, y]);
    }
  }

  lemma GoodParents(w: World, reg: Registry, t: Id, y: Id)
    requires Good(w, reg) && Standard(t, y)
    ensures t < |w| && y < |w| && t != y && !w[t].done && !w[y].done && w[t].owner.None? && w[y].owner.None?
    ensures w[t].name in {Transient, AllowedTransient} && w[y].name in {System, AllowedSystem}
  {
  }

  /** Looking a peer up does not touch connections and streams. */
  lemma PeerElsewhere(w: World, reg: Registry, p: string, limit: Limit, s: Id, d: Stat)
    requires Good(w, reg) && s < |w| && (w[s].name.Connection? || w[s].name.Stream?) && Takes(w, d) && d == w[s].rc
    ensures var w1 := PeerKnown(w, reg, p, limit); |w| <= |w1| && w1[s] == w[s] && Takes(w1, d)
  {
    GoodNames(w, reg);
    JoinedIsSane(w, reg, s, s);
    hide Good, Created, Takes, Amount;
    TakesMore(w, Peer(p), limit, [SYSTEM], d);
    CreatedElsewhere(w, Peer(p), limit, [SYSTEM], s);
    assert |Created(w, Peer(p), limit, [SYSTEM])| == |w| + 1;
  }

  lemma GoodNames(w: World, reg: Registry)
    requires Good(w, reg)
    ensures |w| >= 4 && w[SYSTEM].name == System && w[TRANSIENT].name == Transient
    ensures w[ALLOWED_SYSTEM].name == AllowedSystem && w[ALLOWED_TRANSIENT].name == AllowedTransient
  {
  }

  lemma PeerPrepared(w: World, reg: Registry, p: string, s: Id, t: Id, y: Id, e: Id)
    requires Good(w, reg) && Attachable(w, s) && Takes(w, w[s].rc) && Standard(t, y) && HasOnly(w[s].edges, t, y)
    requires p in reg.peers && e == reg.peers[p] && Verdict(w[e], Bulk(w[s].rc)).None?
    ensures Prepared(w, s, [e], [t], [e, y]) && CountedOn(w, s, [e], [t], [e, y]) && Known(w, [t])
    ensures ParentsAt(w[s := w[s].(edges := [e, y])], s)
  {
    hide Verdict, Fits, Good, Takes;
    GoodParents(w, reg, t, y);
    PeerIs(w, reg, p, w[s].rc);
  }

  lemma PeerIs(w: World, reg: Registry, p: string, d: Stat)
    requires Good(w, reg) && p in reg.peers && Takes(w, d)
    ensures var e := reg.peers[p]; Is(w, e, Peer(p), [SYSTEM]) && Fits(w[e].limit, w[e].rc, d)
  {
    FitsAt(w, d, reg.peers[p]);
  }

  lemma FitsAt(w: World, d: Stat, e: Id)
    requires Fixed(w) && Takes(w, d) && e < |w| && (w[e].name.Peer? || w[e].name.Shared? || w[e].name.PerPeer?)
    ensures Fits(w[e].limit, w[e].rc, d)
  {
    FixedNames(w);
  }

  /** SetPeer as the code does it, on values: refused by the peer's scope, or moved there from the transient scope. */
  predicate PeerSet(w: World, reg: Registry, p: string, limit: Limit, s: Id, t: Id, y: Id, err: Option<Error>,
                    w': World, reg': Registry)
    requires s < |w|
  {
    var w1, reg1 := PeerKnown(w, reg, p, limit), PeerBooked(reg, p, |w|);
    && reg' == reg1 && p in reg1.peers && reg1.peers[p] < |w1| && s < |w1|
    && var e := reg1.peers[p];
    && err == Verdict(w1[e], Bulk(w[s].rc))
    && w' == if err.Some? then w1 else Attached(w1, s, [e], [t], [e, y])
  }

  /** The facts SetPeer starts from. */
  lemma PeerSetBegin(w: World, reg: Registry, p: string, limit: Limit, s: Id, t: Id, y: Id)
    requires Good(w, reg) && limit.Valid() && Attachable(w, s) && Takes(w, w[s].rc)
    requires Standard(t, y) && HasOnly(w[s].edges, t, y)
    ensures var w1, reg1 := PeerKnown(w, reg, p, limit), PeerBooked(reg, p, |w|);
            && p in reg1.peers && s < |w1| && t < |w1| && s != t && w1[s].rc == w[s].rc
            && var e := reg1.peers[p]; e < |w1| && e != s && e != t && Sane(w1[e].rc) && Amount(w[s].rc)
  {
    hide Good, PeerKnown, PeerBooked, Attached;
    PeerAttach(w, reg, p, limit, s, t, y);
  }

  /** SetPeer keeps everything sound and on the books. */
  lemma PeerSetGood(w: World, reg: Registry, p: string, limit: Limit, s: Id, t: Id, y: Id, err: Option<Error>,
                    w': World, reg': Registry)
    requires Good(w, reg) && limit.Valid() && Attachable(w, s) && Takes(w, w[s].rc)
    requires Standard(t, y) && HasOnly(w[s].edges, t, y)
    requires PeerSet(w, reg, p, limit, s, t, y, err, w', reg')
    ensures Good(w', reg')
  {
    hide Good, PeerKnown, PeerBooked, Attached;
    PeerAttach(w, reg, p, limit, s, t, y);
  }

  // ---------------------------------------------------------------- from the allowlisted scopes to the standard ones

  /** The scope has left its parents and counts on nobody. */
  function Stranded(w: World, s: Id): World
    requires s < |w|
  {
    Attached(w, s, [], w[s].edges, [])
  }

  /** transferAllowedToStandard: when one of the standard scopes refuses, the connection is left without any parent. */
  predicate Transferred(w: World, s: Id, err: Option<Error>, w': World)
    requires s < |w|
  {
    var w0 := Stranded(w, s);
    && |w| >= 4
    && var first, second := Verdict(w0[SYSTEM], Bulk(w[s].rc)), Verdict(w0[TRANSIENT], Bulk(w[s].rc));
    && err == (if first.Some? then first else second)
    && w' == if err.Some? then w0 else Attached(w0, s, [SYSTEM, TRANSIENT], [], [SYSTEM, TRANSIENT])
  }

  lemma StrandedGood(w: World, reg: Registry, s: Id)
    requires Good(w, reg) && Attachable(w, s) && HasOnly(w[s].edges, ALLOWED_TRANSIENT, ALLOWED_SYSTEM)
    ensures var w0 := Stranded(w, s);
            && Good(w0, reg) && Attachable(w0, s) && w0[s] == w[s].(edges := [])
            && SYSTEM < |w| && TRANSIENT < |w| && w0[SYSTEM] == w[SYSTEM] && w0[TRANSIENT] == w[TRANSIENT]
            && s != SYSTEM && s != TRANSIENT
    ensures forall e :: e in w[s].edges ==> e < |w| && !w[e].done && e != s
  {
    hide Attached, Good, Fixed, Prepared, CountedOn;
    StrandedPrepared(w, reg, s);
    AttachedGood(w, reg, s, [], w[s].edges, []);
    AttachedElsewhere(w, s, [], w[s].edges, []);
  }

  lemma AttachedElsewhere(w: World, s: Id, joins: seq<Id>, leaves: seq<Id>, edges: seq<Id>)
    requires s < |w|
    ensures var w' := Attached(w, s, joins, leaves, edges);
            && w'[s] == w[s].(edges := edges)
            && forall i :: 0 <= i < |w| && i != s && i !in joins && i !in leaves ==> w'[i] == w[i]
  {
  }

  lemma StrandedPrepared(w: World, reg: Registry, s: Id)
    requires Good(w, reg) && Attachable(w, s) && HasOnly(w[s].edges, ALLOWED_TRANSIENT, ALLOWED_SYSTEM)
    ensures Prepared(w, s, [], w[s].edges, []) && CountedOn(w, s, [], w[s].edges, []) && Known(w, w[s].edges)
    ensures w[s].edges != [] && ParentsAt(w[s := w[s].(edges := [])], s)
    ensures SYSTEM !in w[s].edges && TRANSIENT !in w[s].edges && s != SYSTEM && s != TRANSIENT && |w| >= 4
    ensures forall e :: e in w[s].edges ==> e < |w| && !w[e].done && e != s
  {
    FixedNames(w);
    hide Sound, Filed, PeersFiled, Parents;
    assert ALLOWED_SYSTEM in w[s].edges;
    forall j | 0 <= j < |w[s].edges| ensures w[s].edges[j] < |w| { assert w[s].edges[j] in w[s].edges; }
  }

  lemma TransferredGood(w: World, reg: Registry, s: Id, err: Option<Error>, w': World)
    requires Good(w, reg) && Attachable(w, s) && HasOnly(w[s].edges, ALLOWED_TRANSIENT, ALLOWED_SYSTEM)
    requires Transferred(w, s, err, w') && Fits(w[SYSTEM].limit, w[SYSTEM].rc, w[s].rc)
    requires Fits(w[TRANSIENT].limit, w[TRANSIENT].rc, w[s].rc) && Takes(w, w[s].rc)
    ensures Good(w', reg) && Attachable(w', s)
    ensures w'[s] == w[s].(edges := if err.Some? then [] else [SYSTEM, TRANSIENT]) && Takes(w', w[s].rc)
  {
    StrandedGood(w, reg, s);
    var w0 := Stranded(w, s);
    if err.None? {
      StandardPrepared(w0, reg, s);
      AttachedGood(w0, reg, s, [SYSTEM, TRANSIENT], [], [SYSTEM, TRANSIENT]);
    }
    StrandedTakes(w, reg, s, w[s].rc);
  }

  lemma StandardPrepared(w: World, reg: Registry, s: Id)
    requires Good(w, reg) && Attachable(w, s) && w[s].edges == [] && |w| >= 4
    requires Verdict(w[SYSTEM], Bulk(w[s].rc)).None? && Fits(w[SYSTEM].limit, w[SYSTEM].rc, w[s].rc)
    requires Verdict(w[TRANSIENT], Bulk(w[s].rc)).None? && Fits(w[TRANSIENT].limit, w[TRANSIENT].rc, w[s].rc)
    ensures Prepared(w, s, [SYSTEM, TRANSIENT], [], [SYSTEM, TRANSIENT])
    ensures CountedOn(w, s, [SYSTEM, TRANSIENT], [], [SYSTEM, TRANSIENT])
    ensures ParentsAt(w[s := w[s].(edges := [SYSTEM, TRANSIENT])], s)
  {
    FixedNames(w);
    hide Sound, Filed, PeersFiled, Parents, Verdict, Fits;
  }

  lemma StrandedTakes(w: World, reg: Registry, s: Id, d: Stat)
    requires s < |w| && Takes(w, d) && HasOnly(w[s].edges, ALLOWED_TRANSIENT, ALLOWED_SYSTEM)
    ensures Takes(Stranded(w, s), d)
    ensures Takes(Attached(Stranded(w, s), s, [SYSTEM, TRANSIENT], [], [SYSTEM, TRANSIENT]), d)
  {
    hide Fits;
  }

  /** The facts transferAllowedToStandard starts from. */
  lemma StrandedFacts(w: World, reg: Registry, s: Id)
    requires Good(w, reg) && Attachable(w, s) && HasOnly(w[s].edges, ALLOWED_TRANSIENT, ALLOWED_SYSTEM)
    ensures var w0 := Stranded(w, s);
            && |w| >= 4 && w0[s].rc == w[s].rc && s != SYSTEM && s != TRANSIENT
            && Sane(w0[SYSTEM].rc) && Sane(w0[TRANSIENT].rc) && Amount(w[s].rc) && !w0[SYSTEM].done
    ensures s !in w[s].edges && Distinct(w[s].edges)
  {
    StrandedShape(w, reg, s);
    hide Good, Stranded, Attachable, HasOnly, Sane, Amount;
    StrandedGood(w, reg, s);
    JoinedIsSane(w, reg, s, SYSTEM);
    JoinedIsSane(w, reg, s, TRANSIENT);
  }

  lemma StrandedShape(w: World, reg: Registry, s: Id)
    requires Good(w, reg) && s < |w|
    ensures s !in w[s].edges && Distinct(w[s].edges) && |w| >= 4 && !w[SYSTEM].done
  {
    SoundIsShaped(w, Pins(|w|));
    EdgesKnownAt(w, s);
    assert ShapeAt(Links(w), s);
    assert Links(w)[s].edges == w[s].edges;
  }

  /**
   * When SetPeer is safe: the connection is open and counts on exactly the transient and the system scope. A retry
   * after a transfer that failed, and a call on a closed connection, are not.
   */
  lemma SetPeerIsSoundIff(w: World, reg: Registry, p: string, s: Id, t: Id, y: Id)
    requires Good(w, reg) && Standard(t, y) && p in reg.peers
    requires s < |w| && w[s].name.Connection? && w[s].owner.None? && Takes(w, w[s].rc)
    requires reg.peers[p] < |w| && Verdict(w[reg.peers[p]], Bulk(w[s].rc)).None?
    ensures var e := reg.peers[p];
            Sound(Attached(w, s, [e], [t], [e, y]), Pins(|w|)) <==> !w[s].done && HasOnly(w[s].edges, t, y)
  {
    hide Good, Sound, Verdict, Takes, Prepared, CountedOn, HasOnly, Attached;
    GoodIsSound(w, reg);
    LeafByName(w, reg, s);
    PeerParts(w, reg, p, s, t, y);
    AttachIsSoundIff(w, Pins(|w|), s, [reg.peers[p]], [t], [reg.peers[p], y]);
  }

  /** After a transfer that failed the connection has no parents, and attaching it then is never sound. */
  lemma RetryIsUnsound(w: World, reg: Registry, p: string, s: Id)
    requires Good(w, reg) && p in reg.peers
    requires s < |w| && w[s].name.Connection? && w[s].owner.None? && Takes(w, w[s].rc) && w[s].edges == []
    requires reg.peers[p] < |w| && Verdict(w[reg.peers[p]], Bulk(w[s].rc)).None?
    ensures var e := reg.peers[p]; !Sound(Attached(w, s, [e], [TRANSIENT], [e, SYSTEM]), Pins(|w|))
  {
    hide Good, Sound, Verdict, Takes, Attached;
    SetPeerIsSoundIff(w, reg, p, s, TRANSIENT, SYSTEM);
    assert TRANSIENT !in w[s].edges;
  }

  /** A SetPeer that is refused: by the standard scopes, when it has to transfer to them first, or by the peer's. */
  ghost predicate SetPeerRefused(w: World, reg: Registry, p: string, limit: Limit, s: Id, allowlisted: bool,
                                 matches: bool, err: Error, mid: World, w': World, reg': Registry)
    requires s < |w|
  {
    if !(allowlisted && !matches) then
      PeerSet(w, reg, p, limit, s, if allowlisted then ALLOWED_TRANSIENT else TRANSIENT,
              if allowlisted then ALLOWED_SYSTEM else SYSTEM, Some(err), w', reg')
    else
      || (Transferred(w, s, Some(err), mid) && w' == mid && reg' == reg)
      || (Transferred(w, s, None, mid) && |mid| == |w|
          && PeerSet(mid, reg, p, limit, s, TRANSIENT, SYSTEM, Some(err), w', reg'))
  }

  /**
   * Every scope there was is as before, reference counts included, but for the one reference that a scope opened for
   * the peer has on the system scope; that scope counts nothing.
   */
  predicate Restored(w: World, w': World) {
    && |w| <= |w'| <= |w| + 1
    && (forall i :: 0 <= i < |w| ==>
      w'[i] == w[i].(refCnt := w[i].refCnt + if i == SYSTEM && |w| < |w'| then 1 else 0))
    && (forall i :: |w| <= i < |w'| ==> w'[i].rc == ZERO && w'[i].refCnt == 0)
  }

  /**
   * When a refused SetPeer is all-or-nothing: just when it did not have to leave the allowlisted scopes, that is,
   * unless the connection is allowlisted and the peer is not. Then a refusal by the standard scopes leaves the
   * connection without parents, and a later refusal by the peer's scope leaves it on the standard ones.
   */
  lemma RefusedSetPeerRestoresIff(w: World, reg: Registry, p: string, limit: Limit, s: Id, allowlisted: bool,
                                  matches: bool, err: Error, mid: World, w': World, reg': Registry)
    requires Good(w, reg) && s < |w| && Attachable(w, s)
    requires if allowlisted then HasOnly(w[s].edges, ALLOWED_TRANSIENT, ALLOWED_SYSTEM)
             else HasOnly(w[s].edges, TRANSIENT, SYSTEM)
    requires SetPeerRefused(w, reg, p, limit, s, allowlisted, matches, err, mid, w', reg')
    ensures Restored(w, w') <==> !(allowlisted && !matches)
  {
    hide Good, Attachable, PeerSet, Transferred, Attached, PeerKnown;
    if !(allowlisted && !matches) {
      PeerRefused(w, reg, p, limit, s, if allowlisted then ALLOWED_TRANSIENT else TRANSIENT,
                  if allowlisted then ALLOWED_SYSTEM else SYSTEM, err, w', reg');
    } else {
      assert ALLOWED_SYSTEM in w[s].edges;
      if Transferred(w, s, Some(err), mid) && w' == mid && reg' == reg {
        TransferredEdges(w, reg, s, Some(err), mid);
      } else {
        TransferredEdges(w, reg, s, None, mid);
        PeerRefused(mid, reg, p, limit, s, TRANSIENT, SYSTEM, err, w', reg');
        assert w'[s].edges == mid[s].edges;
      }
    }
  }

  lemma PeerRefused(w: World, reg: Registry, p: string, limit: Limit, s: Id, t: Id, y: Id, err: Error, w': World,
                    reg': Registry)
    requires s < |w| && PeerSet(w, reg, p, limit, s, t, y, Some(err), w', reg')
    ensures Restored(w, w')
  {
    hide Restored;
    CreatedRestored(w, Peer(p), limit);
    RestoredSelf(w);
  }

  lemma RestoredSelf(w: World)
    ensures Restored(w, w)
  {
  }

  lemma TransferredEdges(w: World, reg: Registry, s: Id, err: Option<Error>, w': World)
    requires Good(w, reg) && s < |w| && Attachable(w, s) && HasOnly(w[s].edges, ALLOWED_TRANSIENT, ALLOWED_SYSTEM)
    requires Transferred(w, s, err, w')
    ensures |w'| == |w| && w'[s].edges == (if err.Some? then [] else [SYSTEM, TRANSIENT])
    ensures ALLOWED_SYSTEM !in w'[s].edges
  {
    hide Good, Attachable, Attached, Verdict;
    StrandedGood(w, reg, s);
    AttachedElsewhere(Stranded(w, s), s, [SYSTEM, TRANSIENT], [], [SYSTEM, TRANSIENT]);
  }

  lemma CreatedRestored(w: World, name: Name, limit: Limit)
    ensures Restored(w, Created(w, name, limit, [SYSTEM]))
  {
  }

  lemma GoodIsSound(w: World, reg: Registry)
    requires Good(w, reg)
    ensures Sound(w, Pins(|w|))
  {
  }

  lemma PeerParts(w: World, reg: Registry, p: string, s: Id, t: Id, y: Id)
    requires Good(w, reg) && Standard(t, y) && p in reg.peers && s < |w| && w[s].name.Connection? && Takes(w, w[s].rc)
    requires reg.peers[p] < |w| && Verdict(w[reg.peers[p]], Bulk(w[s].rc)).None?
    ensures var e := reg.peers[p];
            && Prepared(w, s, [e], [t], [e, y]) && Known(w, [t])
            && (CountedOn(w, s, [e], [t], [e, y]) <==> HasOnly(w[s].edges, t, y))
  {
    hide Good, Verdict, Takes, Fits;
    GoodParents(w, reg, t, y);
    PeerIs(w, reg, p, w[s].rc);
  }

  // ---------------------------------------------------------------- attaching a stream to a protocol or service

  function GroupEdges(front: seq<Id>, q: Id, mid: seq<Id>, c: Id): seq<Id> { front + [q] + mid + [c] + [SYSTEM] }

  /**
   * SetProtocol and SetService as the code does them, on values: refused by the protocol or service, refused by its
   * part for the peer, or joined to both. Scopes that had to be opened stay, without anything on them.
   */
  predicate GroupSet(w: World, reg: Registry, n: Key, p: string, limit: Limit, partLimit: Limit, s: Id, leaves: seq<Id>,
                     front: seq<Id>, mid: seq<Id>, err: Option<Error>, w': World, reg': Registry)
    requires s < |w|
  {
    var d, w1, reg1 := w[s].rc, GroupKnown(w, reg, n, limit), GroupBooked(reg, n, |w|);
    && n in reg1.groups && reg1.groups[n].scope < |w1|
    && var c := reg1.groups[n].scope;
    var first := Verdict(w1[c], Bulk(d));
    if first.Some? then
      err == first && w' == w1 && reg' == reg1
    else
      var w2, reg2 := PartKnown(w1, reg1, n, p, partLimit), PartBooked(reg1, n, p, |w1|);
      && n in reg2.groups && p in reg2.groups[n].peers && reg2.groups[n].peers[p] < |w2| && s < |w2|
      && var q := reg2.groups[n].peers[p];
      && err == Verdict(w2[q], Bulk(d)) && reg' == reg2
      && w' == if err.Some? then w2 else Attached(w2, s, [c, q], leaves, GroupEdges(front, q, mid, c))
  }

  /** The stream counts on these parents, one of which is its peer, and none of which belongs to `n`. */
  predicate Joinable(w: World, reg: Registry, n: Key, p: string, s: Id, leaves: seq<Id>, front: seq<Id>, mid: seq<Id>) {
    && Attachable(w, s) && Takes(w, w[s].rc)
    && w[s].edges == front + mid + leaves + [SYSTEM]
    && p in reg.peers && reg.peers[p] in front && (forall x :: x in leaves ==> x == TRANSIENT)
    && (forall x :: x in w[s].edges && x < |w| ==> w[x].name != Shared(n) && w[x].name != PerPeer(n, p))
  }

  lemma DistinctParts(front: seq<Id>, mid: seq<Id>, leaves: seq<Id>, q: Id, c: Id)
    requires Distinct(front + mid + leaves + [SYSTEM]) && q != c
    requires q !in front + mid + leaves + [SYSTEM] && c !in front + mid + leaves + [SYSTEM]
    ensures Distinct(GroupEdges(front, q, mid, c))
    ensures forall x :: x in leaves ==> x !in GroupEdges(front, q, mid, c) && x !in front
    ensures forall x :: x in GroupEdges(front, q, mid, c) <==>
                        x == q || x == c || (x in front + mid + leaves + [SYSTEM] && x !in leaves)
  {
    var old_, new_ := front + mid + leaves + [SYSTEM], GroupEdges(front, q, mid, c);
    var a, b := |front|, |mid|;
    forall i | 0 <= i < |new_|
      ensures new_[i] == if i == a then q else if i == a + b + 1 then c else old_[OldPlace(a, b, |old_|, i)]
    {
    }
    forall i, j | 0 <= i < j < |new_| ensures new_[i] != new_[j] {
      assert i != a && i != a + b + 1 && j != a && j != a + b + 1 ==>
        OldPlace(a, b, |old_|, i) < OldPlace(a, b, |old_|, j);
    }
    forall x | x in leaves ensures x !in new_ && x !in front {
      var k :| 0 <= k < |leaves| && leaves[k] == x;
      assert old_[a + b + k] == x;
      forall i | 0 <= i < |new_| ensures new_[i] != x {
        assert old_[OldPlace(a, b, |old_|, i)] == x ==> i == a || i == a + b + 1;
      }
      forall i | 0 <= i < a ensures front[i] != x { assert old_[i] == front[i]; }
    }
    assert forall x :: x in new_ <==> x in front || x == q || x in mid || x == c || x == SYSTEM;
    assert forall x :: x in old_ <==> x in front || x in mid || x in leaves || x == SYSTEM;
    assert old_[|old_| - 1] == SYSTEM;
  }

  /** Where element `i` of the new edges, if it is not a new parent, was before. */
  function OldPlace(a: nat, b: nat, n: nat, i: nat): nat
    requires n > 0
  {
    if i < a then i else if 0 < i <= a + b then i - 1 else n - 1
  }

  /** The parents that an open scope has already. */
  lemma OldParents(w: World, reg: Registry, s: Id)
    requires Good(w, reg) && s < |w| && !w[s].done
    ensures Distinct(w[s].edges) && s !in w[s].edges && ParentsAt(w, s)
    ensures forall e :: e in w[s].edges ==> e < |w| && !w[e].done && w[e].owner.None?
  {
    SoundIsShaped(w, Pins(|w|));
    EdgesKnownAt(w, s);
    assert ShapeAt(Links(w), s) && Links(w)[s].edges == w[s].edges;
    forall e | e in w[s].edges ensures e < |w| && !w[e].done && w[e].owner.None? {
      OpenParent(w, Pins(|w|), s, e);
      assert Links(w)[e].owner == w[e].owner;
    }
  }

  lemma PartIs(w: World, reg: Registry, n: Key, p: string, d: Stat)
    requires Good(w, reg) && n in reg.groups && p in reg.groups[n].peers && Takes(w, d)
    ensures var c, q := reg.groups[n].scope, reg.groups[n].peers[p];
            && Is(w, c, Shared(n), [SYSTEM]) && Is(w, q, PerPeer(n, p), [])
            && Fits(w[c].limit, w[c].rc, d) && Fits(w[q].limit, w[q].rc, d)
  {
    assert GroupFiled(w, n, reg.groups[n]);
    FitsAt(w, d, reg.groups[n].scope);
    FitsAt(w, d, reg.groups[n].peers[p]);
  }

  lemma GroupPrepared(w: World, reg: Registry, n: Key, p: string, s: Id, leaves: seq<Id>, front: seq<Id>, mid: seq<Id>)
    requires Good(w, reg) && Joinable(w, reg, n, p, s, leaves, front, mid)
    requires n in reg.groups && p in reg.groups[n].peers && reg.groups[n].scope < |w| && reg.groups[n].peers[p] < |w|
    requires Verdict(w[reg.groups[n].scope], Bulk(w[s].rc)).None?
      && Verdict(w[reg.groups[n].peers[p]], Bulk(w[s].rc)).None?
    ensures var c, q := reg.groups[n].scope, reg.groups[n].peers[p];
            var edges := GroupEdges(front, q, mid, c);
            && Prepared(w, s, [c, q], leaves, edges) && CountedOn(w, s, [c, q], leaves, edges) && Known(w, leaves)
            && ParentsAt(w[s := w[s].(edges := edges)], s)
  {
    hide Good, Takes, Verdict, Fits, GroupEdges, Distinct;
    var c, q := reg.groups[n].scope, reg.groups[n].peers[p];
    var edges := GroupEdges(front, q, mid, c);
    OldParents(w, reg, s);
    PartIs(w, reg, n, p, w[s].rc);
    PeerIs(w, reg, p, w[s].rc);
    DistinctParts(front, mid, leaves, q, c);
    forall j | 0 <= j < |leaves| ensures leaves[j] < |w| { assert leaves[j] in w[s].edges; }
    assert reg.peers[p] in front + mid + leaves + [SYSTEM] && reg.peers[p] !in leaves;
    assert Prepared(w, s, [c, q], leaves, edges);
    assert CountedOn(w, s, [c, q], leaves, edges);
    assert Known(w, leaves);
    GoodNames(w, reg);
    assert forall x :: x in front + mid + leaves + [SYSTEM] <==> x in w[s].edges;
    GroupParents(w, s, leaves, edges, n, p, c, q, reg.peers[p]);
  }

  lemma GroupParents(w: World, s: Id, leaves: seq<Id>, edges: seq<Id>, n: Key, p: string, c: Id, q: Id, e: Id)
    requires Attachable(w, s) && ParentsAt(w, s) && TRANSIENT < |w| && w[TRANSIENT].name == Transient
    requires forall x :: x in leaves ==> x == TRANSIENT
    requires forall x :: x in edges <==> x == q || x == c || (x in w[s].edges && x !in leaves)
    requires c < |w| && w[c].name == Shared(n) && q < |w| && w[q].name == PerPeer(n, p)
    requires e < |w| && w[e].name == Peer(p) && e in edges
    ensures ParentsAt(w[s := w[s].(edges := edges)], s)
  {
    var w' := w[s := w[s].(edges := edges)];
    forall x | x in edges && x < |w| && w'[x].name.PerPeer?
      ensures exists f :: f in edges && f < |w| && w'[f].name == Peer(w'[x].name.peer)
    {
      if x == q {
        assert e in edges && w'[e].name == Peer(p);
      } else {
        var f :| f in w[s].edges && f < |w| && w[f].name == Peer(w[x].name.peer);
        assert f in edges && w'[f].name == w[f].name;
      }
    }
  }

  /** Looking up a service or protocol keeps what the stream counts on. */
  lemma GroupKnownJoinable(w: World, reg: Registry, n: Key, p: string, limit: Limit, s: Id, leaves: seq<Id>,
                           front: seq<Id>, mid: seq<Id>)
    requires Good(w, reg) && limit.Valid() && Joinable(w, reg, n, p, s, leaves, front, mid)
    ensures var w1, reg1 := GroupKnown(w, reg, n, limit), GroupBooked(reg, n, |w|);
            && Good(w1, reg1) && Joinable(w1, reg1, n, p, s, leaves, front, mid) && n in reg1.groups
            && |w| <= |w1| && w1[s] == w[s]
            && var c := reg1.groups[n].scope; c < |w1| && c != s && !w1[c].done && Sane(w1[c].rc) && Amount(w1[s].rc)
  {
    GoodNames(w, reg);
    OldParents(w, reg, s);
    JoinedIsSane(w, reg, s, s);
    CreatedJoinable(w, reg, n, p, s, leaves, front, mid, Shared(n), limit, [SYSTEM]);
    hide Good, Created, Joinable, Takes, Sane, Amount;
    GroupKnownGood(w, reg, n, limit);
    var w1, reg1 := GroupKnown(w, reg, n, limit), GroupBooked(reg, n, |w|);
    JoinedIsSane(w1, reg1, s, reg1.groups[n].scope);
  }

  lemma CreatedJoinable(w: World, reg: Registry, n: Key, p: string, s: Id, leaves: seq<Id>, front: seq<Id>,
                        mid: seq<Id>, name: Name, limit: Limit, edges: seq<Id>)
    requires Joinable(w, reg, n, p, s, leaves, front, mid) && Amount(w[s].rc) && s !in edges
    requires forall e :: e in w[s].edges ==> e < |w|
    ensures var w1 := Created(w, name, limit, edges);
            && w1[s] == w[s]
            && (forall reg1: Registry ::
                  reg1.peers == reg.peers ==> Joinable(w1, reg1, n, p, s, leaves, front, mid))
  {
    TakesMore(w, name, limit, edges, w[s].rc);
    CreatedElsewhere(w, name, limit, edges, s);
    CreatedNames(w, name, limit, edges);
    hide Created, Takes, Amount;
  }

  lemma CreatedNames(w: World, name: Name, limit: Limit, edges: seq<Id>)
    ensures forall i :: 0 <= i < |w| ==> Created(w, name, limit, edges)[i].name == w[i].name
    ensures Created(w, name, limit, edges)[|w|].name == name
  {
  }

  lemma PartKnownJoinable(w: World, reg: Registry, n: Key, p: string, limit: Limit, s: Id, leaves: seq<Id>,
                          front: seq<Id>, mid: seq<Id>)
    requires Good(w, reg) && limit.Valid() && Joinable(w, reg, n, p, s, leaves, front, mid)
    requires n in reg.groups && reg.groups[n].scope < |w|
    ensures var w2, reg2 := PartKnown(w, reg, n, p, limit), PartBooked(reg, n, p, |w|);
            && Good(w2, reg2) && Joinable(w2, reg2, n, p, s, leaves, front, mid)
            && n in reg2.groups && p in reg2.groups[n].peers && reg2.groups[n].scope == reg.groups[n].scope
            && |w| <= |w2| && w2[s] == w[s] && w2[reg.groups[n].scope] == w[reg.groups[n].scope]
            && var q := reg2.groups[n].peers[p];
               q < |w2| && q != s && q != reg.groups[n].scope && Sane(w2[q].rc)
  {
    OldParents(w, reg, s);
    JoinedIsSane(w, reg, s, s);
    CreatedJoinable(w, reg, n, p, s, leaves, front, mid, PerPeer(n, p), limit, []);
    CreatedElsewhere(w, PerPeer(n, p), limit, [], reg.groups[n].scope);
    hide Good, Created, Joinable, Takes, Sane, Amount;
    PartKnownGood(w, reg, n, p, limit);
    var w2, reg2 := PartKnown(w, reg, n, p, limit), PartBooked(reg, n, p, |w|);
    GroupScopeName(w2, reg2, n);
    JoinedIsSane(w2, reg2, s, reg2.groups[n].peers[p]);
  }

  lemma GroupScopeName(w: World, reg: Registry, n: Key)
    requires Good(w, reg) && n in reg.groups
    ensures Is(w, reg.groups[n].scope, Shared(n), [SYSTEM])
  {
    assert GroupFiled(w, n, reg.groups[n]);
  }

  /** SetProtocol and SetService keep everything sound and on the books. */
  lemma GroupSetGood(w: World, reg: Registry, n: Key, p: string, limit: Limit, partLimit: Limit, s: Id, leaves: seq<Id>,
                     front: seq<Id>, mid: seq<Id>, err: Option<Error>, w': World, reg': Registry)
    requires Good(w, reg) && limit.Valid() && partLimit.Valid() && Joinable(w, reg, n, p, s, leaves, front, mid)
    requires GroupSet(w, reg, n, p, limit, partLimit, s, leaves, front, mid, err, w', reg')
    ensures Good(w', reg')
  {
    hide Good, Joinable, GroupKnown, GroupBooked, PartKnown, PartBooked, Attached, Verdict, Prepared, CountedOn,
      Known, Sane, Amount, ParentsAt, Attachable;
    JoinableIs(w, reg, n, p, s, leaves, front, mid);
    GroupKnownJoinable(w, reg, n, p, limit, s, leaves, front, mid);
    var w1, reg1 := GroupKnown(w, reg, n, limit), GroupBooked(reg, n, |w|);
    var c := reg1.groups[n].scope;
    if Verdict(w1[c], Bulk(w[s].rc)).None? {
      PartKnownJoinable(w1, reg1, n, p, partLimit, s, leaves, front, mid);
      var w2, reg2 := PartKnown(w1, reg1, n, p, partLimit), PartBooked(reg1, n, p, |w1|);
      if err.None? {
        GroupPrepared(w2, reg2, n, p, s, leaves, front, mid);
        JoinableIs(w2, reg2, n, p, s, leaves, front, mid);
        AttachedGood(w2, reg2, s, [c, reg2.groups[n].peers[p]], leaves,
                     GroupEdges(front, reg2.groups[n].peers[p], mid, c));
      }
    }
  }

  lemma JoinableIs(w: World, reg: Registry, n: Key, p: string, s: Id, leaves: seq<Id>, front: seq<Id>, mid: seq<Id>)
    requires Joinable(w, reg, n, p, s, leaves, front, mid)
    ensures s < |w| && Attachable(w, s)
  {
  }

  /** The part for the peer is looked up while the protocol or service is already charged. */
  lemma PartKnownAttached(w: World, reg: Registry, n: Key, p: string, limit: Limit, s: Id, c: Id)
    requires s < |w| && c < |w| && n in reg.groups
    ensures PartKnown(Attached(w, s, [c], [], w[s].edges), reg, n, p, limit) ==
            Attached(PartKnown(w, reg, n, p, limit), s, [c], [], w[s].edges)
  {
    AttachCreate(w, s, [c], w[s].edges, PerPeer(n, p), limit);
  }

  /** The same up to the point where both new parents are charged, or neither. */
  predicate GroupJoined(w: World, reg: Registry, n: Key, p: string, limit: Limit, partLimit: Limit, s: Id,
                        err: Option<Error>, w': World, reg': Registry)
    requires s < |w|
  {
    var d, w1, reg1 := w[s].rc, GroupKnown(w, reg, n, limit), GroupBooked(reg, n, |w|);
    && n in reg1.groups && reg1.groups[n].scope < |w1|
    && var c := reg1.groups[n].scope;
    var first := Verdict(w1[c], Bulk(d));
    if first.Some? then
      err == first && w' == w1 && reg' == reg1
    else
      var w2, reg2 := PartKnown(w1, reg1, n, p, partLimit), PartBooked(reg1, n, p, |w1|);
      && n in reg2.groups && reg2.groups[n].scope == c && p in reg2.groups[n].peers && reg2.groups[n].peers[p] < |w2|
      && s < |w2| && w2[s] == w[s]
      && var q := reg2.groups[n].peers[p];
      && q != c && q != s && c != s && c < |w2|
      && err == Verdict(w2[q], Bulk(d)) && reg' == reg2
      && w' == if err.Some? then w2 else Attached(w2, s, [c, q], [], w[s].edges)
  }

  /** What remains: to leave the transient scope, if the stream is on it, and to set the edges. */
  lemma GroupSettled(w: World, reg: Registry, n: Key, p: string, limit: Limit, partLimit: Limit, s: Id, front: seq<Id>,
                     mid: seq<Id>, err: Option<Error>, w': World, reg': Registry)
    requires s < |w| && GroupJoined(w, reg, n, p, limit, partLimit, s, err, w', reg')
    ensures err.Some? ==> forall leaves: seq<Id> ::
      GroupSet(w, reg, n, p, limit, partLimit, s, leaves, front, mid, err, w', reg')
    ensures err.None? ==>
      && n in reg'.groups && p in reg'.groups[n].peers && s < |w'|
      && var edges := GroupEdges(front, reg'.groups[n].peers[p], mid, reg'.groups[n].scope);
      && GroupSet(w, reg, n, p, limit, partLimit, s, [], front, mid, err, w'[s := w'[s].(edges := edges)], reg')
      && (TRANSIENT < |w'| && TRANSIENT != s && TRANSIENT != reg'.groups[n].scope
          && TRANSIENT != reg'.groups[n].peers[p] ==>
            var left := Referenced(RemovedOn(w', [TRANSIENT], [], w[s].rc), [TRANSIENT], -1);
            GroupSet(w, reg, n, p, limit, partLimit, s, [TRANSIENT], front, mid, err,
                     left[s := left[s].(edges := edges)], reg'))
  {
    hide Attached, AddedOn, RemovedOn, Referenced, Verdict, GroupKnown, GroupBooked, PartKnown, PartBooked;
    if err.None? {
      var w2 := PartKnown(GroupKnown(w, reg, n, limit), GroupBooked(reg, n, |w|), n, p, partLimit);
      var c, q := reg'.groups[n].scope, reg'.groups[n].peers[p];
      var edges := GroupEdges(front, q, mid, c);
      AttachEdges(w2, s, [c, q], [], w[s].edges, edges);
      if TRANSIENT < |w'| && TRANSIENT != s && TRANSIENT != c && TRANSIENT != q {
        AttachLeave(w2, s, [c, q], [], w[s].edges, TRANSIENT);
        assert [] + [TRANSIENT] == [TRANSIENT];
        AttachEdges(w2, s, [c, q], [TRANSIENT], w[s].edges, edges);
      }
    }
  }

  /** The new parents are not the transient scope. */
  lemma JoinedNames(w: World, reg: Registry, n: Key, p: string, limit: Limit, partLimit: Limit, s: Id, leaves: seq<Id>,
                    front: seq<Id>, mid: seq<Id>, err: Option<Error>, w': World, reg': Registry)
    requires Good(w, reg) && limit.Valid() && partLimit.Valid() && Joinable(w, reg, n, p, s, leaves, front, mid)
    requires GroupJoined(w, reg, n, p, limit, partLimit, s, err, w', reg') && err.None?
    ensures TRANSIENT < |w'| && s != TRANSIENT && n in reg'.groups && p in reg'.groups[n].peers
    ensures reg'.groups[n].scope != TRANSIENT && reg'.groups[n].peers[p] != TRANSIENT
  {
    hide Good, Joinable, GroupKnown, GroupBooked, PartKnown, PartBooked, Verdict, Attached, Attachable, Takes;
    var w1, reg1 := GroupKnown(w, reg, n, limit), GroupBooked(reg, n, |w|);
    GroupKnownGood(w, reg, n, limit);
    PartKnownGood(w1, reg1, n, p, partLimit);
    var w2, reg2 := PartKnown(w1, reg1, n, p, partLimit), PartBooked(reg1, n, p, |w1|);
    GoodNames(w2, reg2);
    GoodNames(w, reg);
    GroupScopeName(w2, reg2, n);
    JoinableIs(w, reg, n, p, s, leaves, front, mid);
    NotTransient(w, s);
  }

  lemma NotTransient(w: World, s: Id)
    requires Attachable(w, s) && TRANSIENT < |w| && w[TRANSIENT].name == Transient
    ensures s != TRANSIENT
  {
  }

  lemma ProtocolEdges(e: Id, q: Id, c: Id)
    ensures GroupEdges([e], q, [], c) == [e, q, c, SYSTEM]
  {
  }

  lemma ServiceEdges(e: Id, pp: Id, q: Id, pc: Id, c: Id)
    ensures GroupEdges([e, pp], q, [pc], c) == [e, pp, q, pc, c, SYSTEM]
  {
  }

  lemma JoinableProtocol(w: World, reg: Registry, n: Key, p: string, s: Id)
    requires Good(w, reg) && Attachable(w, s) && Takes(w, w[s].rc) && p in reg.peers
    requires w[s].edges == [reg.peers[p], TRANSIENT, SYSTEM]
    ensures Joinable(w, reg, n, p, s, [TRANSIENT], [reg.peers[p]], [])
  {
    hide Good, Takes;
    GoodNames(w, reg);
    PeerIs(w, reg, p, w[s].rc);
    assert [reg.peers[p]] + [] + [TRANSIENT] + [SYSTEM] == [reg.peers[p], TRANSIENT, SYSTEM];
  }

  lemma JoinableService(w: World, reg: Registry, n: Key, k: Key, p: string, s: Id, pp: Id, pc: Id)
    requires Good(w, reg) && Attachable(w, s) && Takes(w, w[s].rc) && p in reg.peers && n != k
    requires w[s].edges == [reg.peers[p], pp, pc, SYSTEM]
    requires pp < |w| && w[pp].name == PerPeer(k, p) && pc < |w| && w[pc].name == Shared(k)
    ensures Joinable(w, reg, n, p, s, [], [reg.peers[p], pp], [pc])
  {
    hide Good, Takes;
    GoodNames(w, reg);
    PeerIs(w, reg, p, w[s].rc);
    assert [reg.peers[p], pp] + [pc] + [] + [SYSTEM] == [reg.peers[p], pp, pc, SYSTEM];
  }

  // ---------------------------------------------------------------- opening connections and streams

  /** The new scope, if its request was refused and it was closed again. */
  function Discarded(name: Name, limit: Limit, edges: seq<Id>): Scope { Ended(Fresh(name, limit, None, edges)) }

  /**
   * Opening a connection or stream, on values: it is charged to itself and to all its parents, or all scopes there
   * were before are exactly as before, reference counts included.
   */
  predicate Tried(w: World, name: Name, limit: Limit, edges: seq<Id>, req: Request, err: Option<Error>, w': World) {
    var w1 := Created(w, name, limit, edges);
    && Shaped(w1) && Known(w1, Path(Links(w1), |w|))
    && err == FirstRefusal(w1, Path(Links(w1), |w|), req)
    && w' == if err.None? then Reserved(w1, |w|, Delta(req)) else w + [Discarded(name, limit, edges)]
  }

  /** Parents for a new connection or stream. */
  predicate Parental(w: World, edges: seq<Id>) {
    && Distinct(edges)
    && forall e :: e in edges ==> e < |w| && !w[e].done && w[e].owner.None? && Filable(w[e].name) && !w[e].name.PerPeer?
  }

  lemma OpenGood(w: World, reg: Registry, name: Name, limit: Limit, edges: seq<Id>)
    requires Good(w, reg) && limit.Valid() && Parental(w, edges) && (name.Connection? || name.Stream?)
    ensures Good(Created(w, name, limit, edges), reg) && Shaped(Created(w, name, limit, edges))
    ensures Attachable(Created(w, name, limit, edges), |w|)
  {
    hide Good, Sound, Created, Tidy, Shaped, Grows, ParentsAt, Attachable, Limited;
    GoodParts(w, reg);
    PinsGrow(|w|);
    CreateKeepsSound(w, Pins(|w|), name, limit, edges);
    OpenedNames(w, name, limit, edges);
    GrowthTidy(w, Created(w, name, limit, edges), reg);
    GoodFrom(Created(w, name, limit, edges), reg);
    SoundIsShaped(Created(w, name, limit, edges), Pins(|w| + 1));
  }

  lemma GoodParts(w: World, reg: Registry)
    requires Good(w, reg)
    ensures Sound(w, Pins(|w|)) && Tidy(w, reg) && Shaped(w) && |w| >= 4 && Limited(w)
  {
    SoundIsShaped(w, Pins(|w|));
  }

  lemma GoodFrom(w: World, reg: Registry)
    requires Sound(w, Pins(|w|)) && Tidy(w, reg)
    ensures Good(w, reg)
  {
  }

  lemma OpenedNames(w: World, name: Name, limit: Limit, edges: seq<Id>)
    requires Parental(w, edges) && (name.Connection? || name.Stream?)
    ensures var w' := Created(w, name, limit, edges);
            && Grows(w, w') && ParentsAt(w', |w|) && !w'[|w|].name.Peer? && Attachable(w', |w|)
            && forall i :: 0 <= i < |w| ==> w'[i].edges == w[i].edges && w'[i].done == w[i].done
  {
  }

  /** A connection or stream request asks for no memory, so it cannot wrap a counter. */
  lemma ReserveGood(w: World, reg: Registry, s: Id, req: Request)
    requires Good(w, reg) && s < |w| && Shaped(w) && (req.AddConn? || req.AddStream?)
    requires Known(w, Path(Links(w), s)) && FirstRefusal(w, Path(Links(w), s), req) == None
    ensures Good(Reserved(w, s, Delta(req)), reg)
  {
    hide Good, Sound, Tidy, Shaped, Granted, Reserved, Limited, Grows;
    GoodParts(w, reg);
    ReserveGranted(w, s, req);
    ReservedNames(w, s, Delta(req));
    ReserveKeepsSound(w, Pins(|w|), s, req);
    GrowthTidy(w, Reserved(w, s, Delta(req)), reg);
    GoodFrom(Reserved(w, s, Delta(req)), reg);
  }

  lemma ReservedNames(w: World, s: Id, d: Stat)
    requires Shaped(w) && s < |w|
    ensures var w' := Reserved(w, s, d);
            && Grows(w, w') && |w'| == |w|
            && forall i :: 0 <= i < |w| ==> w'[i].edges == w[i].edges && w'[i].done == w[i].done
  {
    hide Links, Add, Plus;
  }

  lemma ReserveGranted(w: World, s: Id, req: Request)
    requires Limited(w) && s < |w| && Shaped(w) && (req.AddConn? || req.AddStream?)
    requires Known(w, Path(Links(w), s)) && FirstRefusal(w, Path(Links(w), s), req) == None
    ensures Granted(w, s, req)
  {
    hide GraphOf, Check;
    forall i | i in Path(Links(w), s)
      ensures i < |w| && Verdict(w[i], req) == None && Fits(w[i].limit, w[i].rc, Delta(req))
    {
      GrantedBy(w, Path(Links(w), s), req, i);
    }
  }

  lemma {:induction false} GrantedBy(w: World, ids: seq<Id>, req: Request, i: Id)
    requires Known(w, ids) && FirstRefusal(w, ids, req) == None && i in ids
    ensures i < |w| && Verdict(w[i], req) == None
  {
    hide Check;
    if i != ids[0] {
      assert i in ids[1..];
      GrantedBy(w, ids[1..], req, i);
    }
  }

  /** A connection or stream that nobody reserved anything on leaves no trace but itself. */
  lemma DiscardGood(w: World, reg: Registry, name: Name, limit: Limit, edges: seq<Id>)
    requires Good(w, reg) && limit.Valid() && Parental(w, edges) && (name.Connection? || name.Stream?)
    ensures var w1 := Created(w, name, limit, edges);
            && Shaped(w1) && Finished(w1, |w|) == w + [Discarded(name, limit, edges)]
            && Good(w + [Discarded(name, limit, edges)], reg)
  {
    hide Good, Sound, Created, Tidy, Shaped, Discarded, Finished, Limited, Grows, ParentsAt;
    var w1, w' := Created(w, name, limit, edges), w + [Discarded(name, limit, edges)];
    GoodParts(w, reg);
    DiscardedWorld(w, name, limit, edges);
    DiscardedNames(w, name, limit, edges);
    OpenGood(w, reg, name, limit, edges);
    LeafByName(w1, reg, |w|);
    GoodParts(w1, reg);
    FinishKeepsSound(w1, Pins(|w1|), |w|);
    GrowthTidy(w, w', reg);
    GoodFrom(w', reg);
  }

  lemma DiscardedNames(w: World, name: Name, limit: Limit, edges: seq<Id>)
    requires name.Connection? || name.Stream?
    ensures var w' := w + [Discarded(name, limit, edges)];
            && Grows(w, w') && ParentsAt(w', |w|) && !w'[|w|].name.Peer? && |w'| == |w| + 1
            && forall i :: 0 <= i < |w| ==> w'[i].edges == w[i].edges && w'[i].done == w[i].done
  {
  }

  lemma DiscardedWorld(w: World, name: Name, limit: Limit, edges: seq<Id>)
    requires Limited(w) && forall e :: e in edges ==> e < |w|
    ensures var w1 := Created(w, name, limit, edges);
            Shaped(w1) ==> Finished(w1, |w|) == w + [Discarded(name, limit, edges)]
  {
    hide Remove, Links, Sane, GraphOf, Dropped, Created;
    var w1 := Created(w, name, limit, edges);
    CreatedLast(w, name, limit, edges);
    DroppedCreated(w, name, limit, edges);
    if Shaped(w1) {
      assert Finished(w1, |w|) == Dropped(w1, edges, ZERO)[|w| := Ended(w1[|w|])];
    }
  }

  lemma CreatedLast(w: World, name: Name, limit: Limit, edges: seq<Id>)
    ensures Created(w, name, limit, edges)[|w|] == Fresh(name, limit, None, edges)
  {
  }

  lemma DroppedCreated(w: World, name: Name, limit: Limit, edges: seq<Id>)
    requires Limited(w) && forall e :: e in edges ==> e < |w|
    ensures Dropped(Created(w, name, limit, edges), edges, ZERO) == w + [Fresh(name, limit, None, edges)]
  {
    hide Remove, Sane;
    var w', all := Dropped(Created(w, name, limit, edges), edges, ZERO), w + [Fresh(name, limit, None, edges)];
    forall i | 0 <= i < |w| ensures w'[i] == all[i] {
      RemoveNothing(w[i].rc);
      if i in edges { TakenAndDropped(w[i]); }
    }
    assert |w| !in edges;
  }

  lemma TakenAndDropped(c: Scope)
    requires Remove(c.rc, ZERO) == c.rc
    ensures var c1 := c.(refCnt := c.refCnt + 1);
            c1.(rc := if c1.done then c1.rc else Remove(c1.rc, ZERO), refCnt := c1.refCnt - 1) == c
  {
    hide Remove;
  }

  lemma RemoveNothing(rc: Stat)
    requires Sane(rc)
    ensures Remove(rc, ZERO) == rc
  {
  }

  lemma TriedGood(w: World, reg: Registry, name: Name, limit: Limit, edges: seq<Id>, req: Request, err: Option<Error>,
                  w': World)
    requires Good(w, reg) && limit.Valid() && Parental(w, edges) && (name.Connection? || name.Stream?)
    requires (req.AddConn? || req.AddStream?) && Tried(w, name, limit, edges, req, err, w')
    ensures Good(w', reg) && |w'| == |w| + 1
  {
    hide Good, Created, Parental, Discarded, Reserved, FirstRefusal, Known, Attachable;
    OpenGood(w, reg, name, limit, edges);
    if err.None? {
      ReserveGood(Created(w, name, limit, edges), reg, |w|, req);
      ReservedLength(Created(w, name, limit, edges), |w|, Delta(req));
    } else {
      DiscardGood(w, reg, name, limit, edges);
    }
  }

  lemma ReservedLength(w: World, s: Id, d: Stat)
    requires Shaped(w) && s < |w|
    ensures |Reserved(w, s, d)| == |w|
  {
  }

  /** A refused connection or stream leaves every scope there was before exactly as it was. */
  lemma RefusalLeavesAll(w: World, name: Name, limit: Limit, edges: seq<Id>, req: Request, err: Option<Error>,
                         w': World)
    requires Tried(w, name, limit, edges, req, err, w') && err.Some?
    ensures w <= w' && |w'| == |w| + 1 && w'[|w|].done && w'[|w|].rc == ZERO
  {
  }

  lemma StandardParental(w: World, reg: Registry, t: Id, y: Id)
    requires Good(w, reg) && Standard(t, y)
    ensures Parental(w, [t, y])
  {
    GoodParents(w, reg, t, y);
    hide Good;
  }

  lemma StreamParental(w: World, reg: Registry, p: string)
    requires Good(w, reg) && p in reg.peers
    ensures Parental(w, [reg.peers[p], TRANSIENT, SYSTEM])
  {
    hide Good;
    GoodParents(w, reg, TRANSIENT, SYSTEM);
    PeerAt(w, reg, p);
  }

  lemma PeerAt(w: World, reg: Registry, p: string)
    requires Good(w, reg) && p in reg.peers
    ensures Is(w, reg.peers[p], Peer(p), [SYSTEM])
  {
  }

  /** The request can be put to every scope on the path of the new one. */
  lemma OpenSane(w: World, reg: Registry, name: Name, limit: Limit, edges: seq<Id>)
    requires Good(w, reg) && limit.Valid() && Parental(w, edges) && (name.Connection? || name.Stream?)
    ensures var w1 := Created(w, name, limit, edges);
            && Shaped(w1) && Known(w1, Path(Links(w1), |w|))
            && forall i :: i in Path(Links(w1), |w|) && i < |w1| ==> Sane(w1[i].rc)
  {
    hide Good, Created, Parental, Sane, GraphOf;
    OpenGood(w, reg, name, limit, edges);
    GoodParts(Created(w, name, limit, edges), reg);
    PathKnown(Created(w, name, limit, edges), |w|);
  }

  lemma PathKnown(w: World, s: Id)
    requires Shaped(w) && s < |w|
    ensures Known(w, Path(Links(w), s))
  {
    hide GraphOf;
    PathFacts(Links(w), s);
    var path := Path(Links(w), s);
    forall j | 0 <= j < |path| ensures path[j] < |w| { assert path[j] in path; }
  }

  lemma TriedAttachable(w: World, name: Name, limit: Limit, edges: seq<Id>, req: Request, w': World)
    requires Tried(w, name, limit, edges, req, None, w') && (name.Connection? || name.Stream?)
    ensures Attachable(w', |w|) && w'[|w|].edges == edges && w'[|w|].rc == Add(ZERO, Delta(req))
  {
    hide Add, FirstRefusal, GraphOf;
    var w1 := Created(w, name, limit, edges);
    BeyondFactsOf(w1, |w|);
    assert w1[|w|] == Fresh(name, limit, None, edges);
  }

  lemma BeyondFactsOf(w: World, s: Id)
    requires Shaped(w) && s < |w|
    ensures s in Path(Links(w), s)
  {
  }

  // ---------------------------------------------------------------- what users do to scopes

  /** Where a memory limit of MaxInt64 switches the overflow check off, there is room for `d` all the same. */
  predicate FitsOn(w: World, ids: seq<Id>, d: Stat) {
    forall i :: i in ids && i < |w| ==> Fits(w[i].limit, w[i].rc, d)
  }

  /** What a reservation needs to know, and that none of the path refusing means it is granted. */
  lemma UserReserveParts(w: World, reg: Registry, s: Id, req: Request)
    requires Good(w, reg) && s < |w| && !req.Bulk?
    ensures Shaped(w) && Known(w, Path(Links(w), s))
    ensures forall i :: i in Path(Links(w), s) && i < |w| ==> Sane(w[i].rc)
    ensures FitsOn(w, Path(Links(w), s), Delta(req)) && FirstRefusal(w, Path(Links(w), s), req) == None
      ==> Granted(w, s, req)
  {
    hide Good, Sane, GraphOf, Check, Fits, Delta, Amount;
    GoodParts(w, reg);
    PathKnown(w, s);
    forall i | i in Path(Links(w), s) && i < |w| ensures Sane(w[i].rc) {
      JoinedIsSane(w, reg, i, i);
    }
    if FitsOn(w, Path(Links(w), s), Delta(req)) && FirstRefusal(w, Path(Links(w), s), req) == None {
      BeyondFactsOf(w, s);
      GrantedBy(w, Path(Links(w), s), req, s);
      RequestAmount(w[s], req);
      forall i | i in Path(Links(w), s)
        ensures i < |w| && Verdict(w[i], req) == None && Fits(w[i].limit, w[i].rc, Delta(req))
      {
        GrantedBy(w, Path(Links(w), s), req, i);
      }
    }
  }

  lemma RequestAmount(c: Scope, req: Request)
    requires Verdict(c, req).None? && !req.Bulk?
    ensures Amount(Delta(req))
  {
  }

  lemma UserReserveGood(w: World, reg: Registry, s: Id, req: Request)
    requires Good(w, reg) && Shaped(w) && s < |w| && Granted(w, s, req)
    ensures Good(Reserved(w, s, Delta(req)), reg)
  {
    hide Good, Sound, Tidy, Shaped, Granted, Reserved, Limited, Grows;
    GoodParts(w, reg);
    ReservedNames(w, s, Delta(req));
    ReserveKeepsSound(w, Pins(|w|), s, req);
    GrowthTidy(w, Reserved(w, s, Delta(req)), reg);
    GoodFrom(Reserved(w, s, Delta(req)), reg);
  }

  lemma UserReleaseGood(w: World, reg: Registry, s: Id, d: Stat)
    requires Good(w, reg) && Shaped(w) && s < |w| && Holds(w, Pins(|w|), s, d)
    ensures Good(Released(w, s, d), reg)
  {
    hide Good, Sound, Tidy, Shaped, Holds, Released, Limited, Grows;
    GoodParts(w, reg);
    ReleasedNames(w, s, d);
    ReleaseKeepsSound(w, Pins(|w|), s, d);
    GrowthTidy(w, Released(w, s, d), reg);
    GoodFrom(Released(w, s, d), reg);
  }

  lemma ReleasedNames(w: World, s: Id, d: Stat)
    requires Shaped(w) && s < |w|
    ensures var w' := Released(w, s, d);
            && Grows(w, w') && |w'| == |w|
            && forall i :: 0 <= i < |w| ==> w'[i].edges == w[i].edges && w'[i].done == w[i].done
  {
    hide Links, Remove, Minus;
  }

  lemma UserSpanGood(w: World, reg: Registry, o: Id)
    requires Good(w, reg) && o < |w| && !w[o].done
    ensures Good(SpanOpened(w, o), reg)
  {
    hide Good, Sound, Tidy, Shaped, SpanOpened, Limited, Grows, ParentsAt;
    GoodParts(w, reg);
    PinsGrow(|w|);
    SpanNames(w, o);
    SpanOpenKeepsSound(w, Pins(|w|), o);
    GrowthTidy(w, SpanOpened(w, o), reg);
    GoodFrom(SpanOpened(w, o), reg);
  }

  lemma SpanNames(w: World, o: Id)
    requires o < |w|
    ensures var w' := SpanOpened(w, o);
            && Grows(w, w') && |w'| == |w| + 1 && !w'[|w|].name.Peer? && ParentsAt(w', |w|)
            && forall i :: 0 <= i < |w| ==> w'[i].edges == w[i].edges && w'[i].done == w[i].done
  {
  }

  /** Connections, streams and spans may be closed at any time, spans also after their owners. */
  lemma UserDoneGood(w: World, reg: Registry, s: Id)
    requires Good(w, reg) && Shaped(w) && s < |w| && !w[s].done
    requires w[s].name.Span? <==> w[s].owner.Some?
    requires w[s].name.Connection? || w[s].name.Stream? || w[s].name.Span?
    ensures Good(Finished(w, s), reg)
  {
    hide Good, Sound, Tidy, Shaped, Finished, Limited, Grows, NoChildren;
    GoodParts(w, reg);
    if w[s].owner.Some? {
      FinishSpanKeepsSound(w, Pins(|w|), s);
    } else {
      LeafByName(w, reg, s);
      FinishKeepsSound(w, Pins(|w|), s);
    }
    FinishedNames(w, s);
    GrowthTidy(w, Finished(w, s), reg);
    GoodFrom(Finished(w, s), reg);
  }

  lemma FinishedNames(w: World, s: Id)
    requires Shaped(w) && s < |w| && !w[s].done && !Filable(w[s].name)
    ensures var w' := Finished(w, s);
            && Grows(w, w') && |w'| == |w|
            && forall i :: 0 <= i < |w| ==> w'[i].edges == w[i].edges && (w[i].done ==> w'[i].done)
  {
    hide GraphOf, RemovedOn, Dropped, Shape;
    ShapeOf(w, s);
    if w[s].owner.None? {
      SameLinksDropped(w, w[s].edges, w[s].rc);
    } else {
      var o := w[s].owner.value;
      SameLinksRemoved(w, LivePath(Links(w), o), LiveSpine(Links(w), o), w[s].rc);
    }
  }

  lemma ShapeOf(w: World, s: Id)
    requires Shaped(w) && s < |w|
    ensures ShapeAt(Links(w), s) && Links(w)[s].owner == w[s].owner
  {
  }

  lemma SameLinksDropped(w: World, ids: seq<Id>, d: Stat)
    ensures SameNames(w, Dropped(w, ids, d))
  {
  }

  lemma SameLinksRemoved(w: World, path: seq<Id>, spine: seq<Id>, d: Stat)
    ensures SameNames(w, RemovedOn(w, path, spine, d))
  {
  }

  // ---------------------------------------------------------------- garbage collection

  /** The scopes that a collection has closed so far: those of `groups`, of `peers` and of `parts`. */
  predicate Gone(w: World, reg: Registry, groups: set<Key>, peers: set<string>, parts: set<(Key, string)>, i: Id)
    requires i < |w|
  {
    match w[i].name
    case Peer(p) => p in peers && p in reg.peers && reg.peers[p] == i
    case Shared(n) => n in groups && n in reg.groups && reg.groups[n].scope == i
    case PerPeer(n, p) => (n, p) in parts && n in reg.groups && p in reg.groups[n].peers && reg.groups[n].peers[p] == i
    case _ => false
  }

  /**
   * The effect of a collection on all scopes: those collected are closed and empty, the system scope gets back what
   * they counted, and nothing else changes. (What exactly the system scope gets back follows from the balance.)
   */
  predicate Swept(w: World, reg: Registry, groups: set<Key>, peers: set<string>, parts: set<(Key, string)>, w': World) {
    && |w'| == |w|
    && (forall i :: 0 <= i < |w| && i != SYSTEM ==>
          w'[i] == if Gone(w, reg, groups, peers, parts, i) then Ended(w[i]) else w[i])
    && (SYSTEM < |w| ==> w'[SYSTEM] == w[SYSTEM].(rc := w'[SYSTEM].rc, refCnt := w'[SYSTEM].refCnt))
  }

  /** What is on the books afterwards. */
  function Cleared(reg: Registry, groups: set<Key>, peers: set<string>, parts: set<(Key, string)>): Registry {
    Registry(reg.peers - peers,
             map n | n in reg.groups && n !in groups ::
               Group(reg.groups[n].scope, map p | p in reg.groups[n].peers
                 && (n, p) !in parts :: reg.groups[n].peers[p]))
  }

  /** Closing a scope under the system, or one without edges. */
  lemma FinishedOne(w: World, s: Id)
    requires Shaped(w) && s < |w| && !w[s].done && w[s].owner.None? && s != SYSTEM
      && (w[s].edges == [SYSTEM] || w[s].edges == [])
    ensures var w' := Finished(w, s);
            && |w'| == |w| && w'[s] == Ended(w[s]) && ClosedOne(w, w', s)
            && (forall i :: 0 <= i < |w| && i != s && i != SYSTEM ==> w'[i] == w[i])
            && (SYSTEM < |w| ==> w'[SYSTEM] == w[SYSTEM].(rc := w'[SYSTEM].rc, refCnt := w'[SYSTEM].refCnt))
  {
    hide Remove, GraphOf;
  }

  /** Only scopes without references are collected, so none that an open scope counts on. */
  lemma CollectGroupGood(w: World, reg: Registry, n: Key)
    requires Good(w, reg) && n in reg.groups && reg.groups[n].scope < |w| && Unused(w[reg.groups[n].scope])
    ensures Shaped(w) && Good(Finished(w, reg.groups[n].scope), reg.(groups := reg.groups - {n}))
    ensures NoChildren(w, reg.groups[n].scope)
  {
    hide Good, Sound, Tidy, Shaped, Finished, NoChildren, Limited, ClosedOne;
    var s := reg.groups[n].scope;
    GoodParts(w, reg);
    GoodNames(w, reg);
    GroupScopeName(w, reg, n);
    UnreferencedHasNoChildren(w, Pins(|w|), s);
    FinishKeepsSound(w, Pins(|w|), s);
    FinishedOne(w, s);
    CollectGroupTidy(w, Finished(w, s), reg, n);
    GoodFrom(Finished(w, s), reg.(groups := reg.groups - {n}));
  }

  lemma CollectPeerGood(w: World, reg: Registry, p: string)
    requires Good(w, reg) && p in reg.peers && reg.peers[p] < |w| && Unused(w[reg.peers[p]])
    ensures Shaped(w) && Good(Finished(w, reg.peers[p]), reg.(peers := reg.peers - {p}))
    ensures NoChildren(w, reg.peers[p])
  {
    hide Good, Sound, Tidy, Shaped, Finished, NoChildren, Limited, ClosedOne;
    var s := reg.peers[p];
    GoodParts(w, reg);
    GoodNames(w, reg);
    PeerAt(w, reg, p);
    UnreferencedHasNoChildren(w, Pins(|w|), s);
    FinishKeepsSound(w, Pins(|w|), s);
    FinishedOne(w, s);
    CollectPeerTidy(w, Finished(w, s), reg, p);
    GoodFrom(Finished(w, s), reg.(peers := reg.peers - {p}));
  }

  /** The part of a service or protocol for a dead peer is closed without a look at it: nothing open counts on it. */
  lemma CollectPartGood(w: World, reg: Registry, n: Key, p: string)
    requires Good(w, reg) && n in reg.groups && p in reg.groups[n].peers && p !in reg.peers
    ensures reg.groups[n].peers[p] < |w| && Shaped(w)
    ensures NoChildren(w, reg.groups[n].peers[p])
    ensures Good(Finished(w, reg.groups[n].peers[p]),
                 reg.(groups := reg.groups[n := reg.groups[n].(peers := reg.groups[n].peers - {p})]))
  {
    hide Good, Sound, Tidy, Shaped, Finished, NoChildren, Limited, ClosedOne;
    var s := reg.groups[n].peers[p];
    var reg' := reg.(groups := reg.groups[n := reg.groups[n].(peers := reg.groups[n].peers - {p})]);
    GoodParts(w, reg);
    GoodNames(w, reg);
    PartAt(w, reg, n, p);
    DeadPeerHasNoStreams(w, Pins(|w|), reg, s);
    FinishKeepsSound(w, Pins(|w|), s);
    FinishedOne(w, s);
    CollectPartTidy(w, Finished(w, s), reg, n, p);
    GoodFrom(Finished(w, s), reg');
  }

  lemma PartAt(w: World, reg: Registry, n: Key, p: string)
    requires Good(w, reg) && n in reg.groups && p in reg.groups[n].peers
    ensures Is(w, reg.groups[n].peers[p], PerPeer(n, p), [])
  {
    assert GroupFiled(w, n, reg.groups[n]);
  }

  /** Everything but scope `s` and the counters of the system scope stays. */
  predicate OnlyEnded(v: World, v': World, s: Id) {
    && |v'| == |v| && s < |v| && s != SYSTEM && v'[s] == Ended(v[s])
    && (forall i :: 0 <= i < |v| && i != s && i != SYSTEM ==> v'[i] == v[i])
    && (SYSTEM < |v| ==> v'[SYSTEM] == v[SYSTEM].(rc := v'[SYSTEM].rc, refCnt := v'[SYSTEM].refCnt))
  }

  lemma FinishedOnly(v: World, s: Id)
    requires Shaped(v) && s < |v| && !v[s].done && v[s].owner.None? && s != SYSTEM
      && (v[s].edges == [SYSTEM] || v[s].edges == [])
    ensures OnlyEnded(v, Finished(v, s), s)
  {
    hide Finished;
    FinishedOne(v, s);
  }

  lemma SweepGroupNames(w: World, reg: Registry, gs: set<Key>, v: World, v': World, n: Key)
    requires Swept(w, reg, gs, {}, {}, v) && n in reg.groups && n !in gs
    requires OnlyEnded(v, v', reg.groups[n].scope) && v[reg.groups[n].scope].name == Shared(n)
    ensures Swept(w, reg, gs + {n}, {}, {}, v')
  {
    var s := reg.groups[n].scope;
    assert w[s].name == Shared(n);
    forall i | 0 <= i < |w|
      ensures Gone(w, reg, gs + {n}, {}, {}, i) <==> Gone(w, reg, gs, {}, {}, i) || i == s {}
    hide Gone;
  }

  lemma SweepPeerNames(w: World, reg: Registry, gs: set<Key>, ps: set<string>, v: World, v': World, p: string)
    requires Swept(w, reg, gs, ps, {}, v) && p in reg.peers && p !in ps
    requires OnlyEnded(v, v', reg.peers[p]) && v[reg.peers[p]].name == Peer(p)
    ensures Swept(w, reg, gs, ps + {p}, {}, v')
  {
    var s := reg.peers[p];
    assert w[s].name == Peer(p);
    forall i | 0 <= i < |w|
      ensures Gone(w, reg, gs, ps + {p}, {}, i) <==> Gone(w, reg, gs, ps, {}, i) || i == s {}
    hide Gone;
  }

  lemma SweepPartNames(w: World, reg: Registry, gs: set<Key>, ps: set<string>, qs: set<(Key, string)>, v: World,
                       v': World, n: Key, p: string)
    requires Swept(w, reg, gs, ps, qs, v) && n in reg.groups && p in reg.groups[n].peers && (n, p) !in qs
    requires OnlyEnded(v, v', reg.groups[n].peers[p]) && v[reg.groups[n].peers[p]].name == PerPeer(n, p)
    ensures Swept(w, reg, gs, ps, qs + {(n, p)}, v')
  {
    var s := reg.groups[n].peers[p];
    assert w[s].name == PerPeer(n, p);
    forall i | 0 <= i < |w|
      ensures Gone(w, reg, gs, ps, qs + {(n, p)}, i) <==> Gone(w, reg, gs, ps, qs, i) || i == s {}
    hide Gone;
  }

  lemma ClearedGroup(reg: Registry, gs: set<Key>, n: Key)
    requires n in reg.groups && n !in gs
    ensures var now, next := Cleared(reg, gs, {}, {}), Cleared(reg, gs + {n}, {}, {});
            && n in now.groups && now.groups[n].scope == reg.groups[n].scope
            && now.(groups := now.groups - {n}) == next
  {
    assert Cleared(reg, gs, {}, {}).groups - {n} == Cleared(reg, gs + {n}, {}, {}).groups;
  }

  lemma ClearedPeer(reg: Registry, gs: set<Key>, ps: set<string>, p: string)
    requires p in reg.peers && p !in ps
    ensures var now, next := Cleared(reg, gs, ps, {}), Cleared(reg, gs, ps + {p}, {});
            p in now.peers && now.peers[p] == reg.peers[p] && now.(peers := now.peers - {p}) == next
  {
  }

  /** One more service or protocol is collected. */
  lemma SweepGroup(w: World, reg: Registry, gs: set<Key>, v: World, n: Key)
    requires Swept(w, reg, gs, {}, {}, v) && n in reg.groups && n !in gs
    requires Good(v, Cleared(reg, gs, {}, {})) && reg.groups[n].scope < |v| && Unused(v[reg.groups[n].scope])
    ensures Shaped(v)
    ensures Swept(w, reg, gs + {n}, {}, {}, Finished(v, reg.groups[n].scope))
    ensures Good(Finished(v, reg.groups[n].scope), Cleared(reg, gs + {n}, {}, {}))
  {
    hide Good, Cleared, Finished, Shaped, NoChildren, Swept, OnlyEnded, Unused, Sound, Tidy, Limited;
    var now, s := Cleared(reg, gs, {}, {}), reg.groups[n].scope;
    ClearedGroup(reg, gs, n);
    GoodNames(v, now);
    GroupScopeName(v, now, n);
    GoodParts(v, now);
    CollectGroupGood(v, now, n);
    FinishedOnly(v, s);
    SweepGroupNames(w, reg, gs, v, Finished(v, s), n);
  }

  lemma SweepPeer(w: World, reg: Registry, gs: set<Key>, ps: set<string>, v: World, p: string)
    requires Swept(w, reg, gs, ps, {}, v) && p in reg.peers && p !in ps
    requires Good(v, Cleared(reg, gs, ps, {})) && reg.peers[p] < |v| && Unused(v[reg.peers[p]])
    ensures Shaped(v)
    ensures Swept(w, reg, gs, ps + {p}, {}, Finished(v, reg.peers[p]))
    ensures Good(Finished(v, reg.peers[p]), Cleared(reg, gs, ps + {p}, {}))
  {
    hide Good, Cleared, Finished, Shaped, NoChildren, Swept, OnlyEnded, Unused, Sound, Tidy, Limited;
    var now, s := Cleared(reg, gs, ps, {}), reg.peers[p];
    ClearedPeer(reg, gs, ps, p);
    GoodNames(v, now);
    PeerAt(v, now, p);
    GoodParts(v, now);
    CollectPeerGood(v, now, p);
    FinishedOnly(v, s);
    SweepPeerNames(w, reg, gs, ps, v, Finished(v, s), p);
  }

  lemma SweepPart(w: World, reg: Registry, gs: set<Key>, ps: set<string>, qs: set<(Key, string)>, v: World, n: Key,
                  p: string)
    requires Swept(w, reg, gs, ps, qs, v) && n in reg.groups && n !in gs && p in ps && p in reg.groups[n].peers
      && (n, p) !in qs
    requires Good(v, Cleared(reg, gs, ps, qs))
    ensures Shaped(v) && reg.groups[n].peers[p] < |v|
    ensures Swept(w, reg, gs, ps, qs + {(n, p)}, Finished(v, reg.groups[n].peers[p]))
    ensures Good(Finished(v, reg.groups[n].peers[p]), Cleared(reg, gs, ps, qs + {(n, p)}))
  {
    hide Good, Cleared, Finished, Shaped, NoChildren, Swept, OnlyEnded, Unused, Sound, Tidy, Limited;
    var now, s := Cleared(reg, gs, ps, qs), reg.groups[n].peers[p];
    ClearedPart(reg, gs, ps, qs, n, p);
    GoodNames(v, now);
    PartAt(v, now, n, p);
    GoodParts(v, now);
    CollectPartGood(v, now, n, p);
    FinishedOnly(v, s);
    SweepPartNames(w, reg, gs, ps, qs, v, Finished(v, s), n, p);
  }

  lemma ClearedPart(reg: Registry, gs: set<Key>, ps: set<string>, qs: set<(Key, string)>, n: Key, p: string)
    requires n in reg.groups && n !in gs && p in reg.groups[n].peers
    ensures var now := Cleared(reg, gs, ps, qs);
            && n in now.groups
            && ((n, p) !in qs ==>
                  p in now.groups[n].peers && now.groups[n].peers[p] == reg.groups[n].peers[p])
            && (p in ps ==> p !in now.peers)
            && now.(groups := now.groups[n := now.groups[n].(peers := now.groups[n].peers - {p})]) ==
               Cleared(reg, gs, ps, qs + {(n, p)})
  {
    var now, next := Cleared(reg, gs, ps, qs), Cleared(reg, gs, ps, qs + {(n, p)});
    forall m | m in now.groups
      ensures next.groups[m] == if m == n then now.groups[n].(peers := now.groups[n].peers - {p}) else now.groups[m]
    {
      assert next.groups[m].peers == if m == n then now.groups[n].peers - {p} else now.groups[m].peers;
    }
    assert now.groups[n := now.groups[n].(peers := now.groups[n].peers - {p})] == next.groups;
  }

  lemma NothingSwept(w: World, reg: Registry)
    ensures Swept(w, reg, {}, {}, {}, w) && Cleared(reg, {}, {}, {}) == reg
  {
    forall n | n in reg.groups
      ensures Cleared(reg, {}, {}, {}).groups[n] == reg.groups[n]
    {
      assert Cleared(reg, {}, {}, {}).groups[n].peers == reg.groups[n].peers;
    }
    assert Cleared(reg, {}, {}, {}).groups == reg.groups;
  }

  /** A service or protocol that was not collected is as it was. */
  lemma GroupUnswept(w: World, reg: Registry, gs: set<Key>, v: World, n: Key)
    requires Good(w, reg) && Swept(w, reg, gs, {}, {}, v) && n in reg.groups && n !in gs
    ensures reg.groups[n].scope < |w| && v[reg.groups[n].scope] == w[reg.groups[n].scope]
    ensures n in Cleared(reg, gs, {}, {}).groups && Cleared(reg, gs, {}, {}).groups[n].scope == reg.groups[n].scope
  {
    hide Good;
    GoodNames(w, reg);
    GroupScopeName(w, reg, n);
  }

  lemma PeerUnswept(w: World, reg: Registry, gs: set<Key>, ps: set<string>, v: World, p: string)
    requires Good(w, reg) && Swept(w, reg, gs, ps, {}, v) && p in reg.peers && p !in ps
    ensures reg.peers[p] < |w| && v[reg.peers[p]] == w[reg.peers[p]]
    ensures p in Cleared(reg, gs, ps, {}).peers && Cleared(reg, gs, ps, {}).peers[p] == reg.peers[p]
  {
    hide Good;
    GoodNames(w, reg);
    PeerAt(w, reg, p);
  }

  lemma PartUnswept(reg: Registry, gs: set<Key>, ps: set<string>, qs: set<(Key, string)>, n: Key, p: string)
    requires n in reg.groups && n !in gs && (n, p) !in qs
    ensures var now := Cleared(reg, gs, ps, qs);
            && n in now.groups && (p in now.groups[n].peers <==> p in reg.groups[n].peers)
            && (p in reg.groups[n].peers ==> now.groups[n].peers[p] == reg.groups[n].peers[p])
  {
  }

  /** Protocols that a collection closes: not sticky, without references and with nothing but memory on them. */
  function IdleGroups(w: World, reg: Registry, sticky: set<Key>): set<Key> {
    set n | n in reg.groups && n.Protocol? && n !in sticky && reg.groups[n].scope < |w|
      && Unused(w[reg.groups[n].scope])
  }

  function IdlePeers(w: World, reg: Registry, sticky: set<string>): set<string> {
    set p | p in reg.peers && p !in sticky && reg.peers[p] < |w| && Unused(w[reg.peers[p]])
  }

  /** What the services and the remaining protocols keep for dead peers. */
  function DeadParts(reg: Registry, gs: set<Key>, ps: set<string>): set<(Key, string)> {
    set n, p | n in reg.groups && n !in gs && p in ps && p in reg.groups[n].peers :: (n, p)
  }

  lemma IdleGroup(w: World, reg: Registry, sticky: set<Key>, n: Key)
    requires n in reg.groups && n.Protocol? && reg.groups[n].scope < |w|
    ensures n in IdleGroups(w, reg, sticky) <==> n !in sticky && Unused(w[reg.groups[n].scope])
  {
    hide Unused;
  }

  lemma IdlePeer(w: World, reg: Registry, sticky: set<string>, p: string)
    requires p in reg.peers && reg.peers[p] < |w|
    ensures p in IdlePeers(w, reg, sticky) <==> p !in sticky && Unused(w[reg.peers[p]])
  {
    hide Unused;
  }

  lemma IdleWithin(w: World, reg: Registry, stickyN: set<Key>, stickyP: set<string>)
    ensures forall n :: n in IdleGroups(w, reg, stickyN) ==> n in reg.groups && n.Protocol?
    ensures IdlePeers(w, reg, stickyP) <= reg.peers.Keys
  {
    hide Unused;
  }

  /** The parts of `n` for these peers. */
  function PartsFor(reg: Registry, n: Key, ps: set<string>): set<(Key, string)>
    requires n in reg.groups
  {
    set p | p in ps && p in reg.groups[n].peers :: (n, p)
  }

  /** The dead parts of services and protocols other than those in `todo`. */
  function PartsDone(reg: Registry, gs: set<Key>, ps: set<string>, todo: set<Key>): set<(Key, string)> {
    set q | q in DeadParts(reg, gs, ps) && q.0 !in todo
  }

  lemma NoParts(reg: Registry, gs: set<Key>, ps: set<string>, todo: set<Key>)
    requires todo == reg.groups.Keys - gs
    ensures PartsDone(reg, gs, ps, todo) == {}
  {
  }

  lemma AllParts(reg: Registry, gs: set<Key>, ps: set<string>)
    ensures PartsDone(reg, gs, ps, {}) == DeadParts(reg, gs, ps)
  {
  }

  lemma PartsOf(reg: Registry, gs: set<Key>, ps: set<string>, todo: set<Key>, n: Key)
    requires n in todo && n in reg.groups && n !in gs
    ensures PartsDone(reg, gs, ps, todo - {n}) == PartsDone(reg, gs, ps, todo) + PartsFor(reg, n, ps)
    ensures forall p :: (n, p) !in PartsDone(reg, gs, ps, todo)
  {
  }

  lemma NoPartsFor(reg: Registry, n: Key, ps: set<string>, qs: set<(Key, string)>)
    requires n in reg.groups
    ensures qs + PartsFor(reg, n, ps - ps) == qs
  {
  }

  lemma OnePeerPart(reg: Registry, n: Key, ps: set<string>, todo: set<string>, p: string)
    requires n in reg.groups && todo <= ps && p in todo
    ensures PartsFor(reg, n, ps - (todo - {p})) == PartsFor(reg, n, ps - todo)
      + if p in reg.groups[n].peers then {(n, p)} else {}
    ensures (n, p) !in PartsFor(reg, n, ps - todo)
  {
  }
}
