/**
 * What the resource manager does for its callers, spelled out in counters and limits: who gets a stream or connection
 * and what is counted for it, who may move, and what a collection closes.
 */
module Admission {
  import opened Common
  import opened Int64
  import opened Resources
  import opened Ledgers
  import opened Accounts
  import opened Moves
  import opened Registry

  // ---------------------------------------------------------------- the scopes that are asked

  lemma PathOfRoot(g: Graph, s: Id)
    requires Shape(g) && s < |g| && g[s].owner.None?
    ensures Path(g, s) == [s] + g[s].edges
  {
  }

  /** The scopes whose answer decides about a new connection or stream: its own and its parents. */
  lemma PathOfNew(w: World, name: Name, limit: Limit, edges: seq<Id>)
    requires Shaped(Created(w, name, limit, edges))
    ensures Path(Links(Created(w, name, limit, edges)), |w|) == [|w|] + edges
  {
    hide Created, Shape, Path;
    CreatedLast(w, name, limit, edges);
    PathOfRoot(Links(Created(w, name, limit, edges)), |w|);
  }

  lemma CreatedKeeps(w: World, name: Name, limit: Limit, edges: seq<Id>, i: Id)
    requires i < |w|
    ensures var c := Created(w, name, limit, edges)[i];
      c.limit == w[i].limit && c.rc == w[i].rc && c.done == w[i].done
  {
  }

  lemma ReservedAt(w: World, s: Id, d: Stat, i: Id)
    requires Shaped(w) && s < |w| && i < |w|
    ensures |Reserved(w, s, d)| == |w| && Reserved(w, s, d)[i].limit == w[i].limit
    ensures i !in Path(Links(w), s) ==> Reserved(w, s, d)[i].rc == w[i].rc
    ensures i in Path(Links(w), s) ==> Reserved(w, s, d)[i].rc == Add(w[i].rc, d)
  {
  }

  /** Nobody refuses exactly when every one of them would grant the request. */
  lemma {:induction false} NoRefusal(w: World, ids: seq<Id>, req: Request)
    requires Known(w, ids)
    ensures FirstRefusal(w, ids, req) == None <==> forall i :: i in ids ==> i < |w| && Verdict(w[i], req) == None
  {
    hide Verdict;
    if ids != [] {
      NoRefusal(w, ids[1..], req);
      assert ids == [ids[0]] + ids[1..];
    }
  }

  // ---------------------------------------------------------------- opening streams and connections

  /** A new connection or stream is granted by itself and each of its parents, and then counted on all of them. */
  lemma TriedIsExact(w: World, reg: Registry, name: Name, limit: Limit, edges: seq<Id>, req: Request,
                     err: Option<Error>, w': World)
    requires Good(w, reg) && limit.Valid() && Parental(w, edges) && (name.Connection? || name.Stream?)
    requires Tried(w, name, limit, edges, req, err, w')
    ensures err.None? <==>
      Check(limit, ZERO, req) == None && forall e :: e in edges ==> e < |w| && Check(w[e].limit, w[e].rc, req) == None
    ensures |w'| == |w| + 1
    ensures err.None? ==> w'[|w|].rc == Add(ZERO, Delta(req)) && forall i :: 0 <= i < |w| ==>
      w'[i].rc == if i in edges then Add(w[i].rc, Delta(req)) else w[i].rc
    ensures err.Some? ==> w <= w'
  {
    hide Good, Created, Reserved, FirstRefusal, Path, Shape, Check, Add, Delta;
    var w1 := Created(w, name, limit, edges);
    PathOfNew(w, name, limit, edges);
    CreatedLast(w, name, limit, edges);
    NoRefusal(w1, [|w|] + edges, req);
    forall e | e in edges ensures e < |w| && Verdict(w1[e], req) == Check(w[e].limit, w[e].rc, req) {
      CreatedKeeps(w, name, limit, edges, e);
    }
    if err.None? {
      forall i | 0 <= i <= |w| ensures |w'| == |w1| && (i < |w| ==> w1[i].rc == w[i].rc)
        && w'[i].rc == if i in [|w|] + edges then Add(w1[i].rc, Delta(req)) else w1[i].rc
      {
        ReservedAt(w1, |w|, Delta(req), i);
        if i < |w| {
          CreatedKeeps(w, name, limit, edges, i);
        }
      }
    } else {
      RefusalLeavesAll(w, name, limit, edges, req, err, w');
    }
  }

  /** One more stream of this direction is within the limits. */
  predicate RoomForStream(limit: Limit, rc: Stat, inbound: bool) {
    && (if inbound then rc.streams.inbound + 1 <= limit.streams.inbound
        else rc.streams.outbound + 1 <= limit.streams.outbound)
    && rc.streams.inbound + rc.streams.outbound + 1 <= limit.streamTotal
  }

  /** One more stream of this direction is counted, and nothing else. */
  predicate OneMoreStream(before: Stat, after: Stat, inbound: bool) {
    && after.streams.inbound == before.streams.inbound + (if inbound then 1 else 0)
    && after.streams.outbound == before.streams.outbound + (if inbound then 0 else 1)
    && after.memory == before.memory && after.conns == before.conns && after.fd == before.fd
  }

  /**
   * A stream is opened exactly when its own limit, the peer, the transient and the system scope each have room for one
   * more of its direction; then it is counted, in its direction, there and nowhere else.
   */
  lemma StreamOpens(w: World, reg: Registry, p: string, limit: Limit, dir: Direction, err: Option<Error>, w': World)
    requires Good(w, reg) && limit.Valid() && p in reg.peers
    requires Tried(w, Stream(p), limit, [reg.peers[p], TRANSIENT, SYSTEM], AddStream(dir), err, w')
    ensures |w'| == |w| + 1 && reg.peers[p] < |w| && TRANSIENT < |w|
    ensures err.None? <==>
      && RoomForStream(limit, ZERO, dir == Inbound)
      && RoomForStream(w[reg.peers[p]].limit, w[reg.peers[p]].rc, dir == Inbound)
      && RoomForStream(w[TRANSIENT].limit, w[TRANSIENT].rc, dir == Inbound)
      && RoomForStream(w[SYSTEM].limit, w[SYSTEM].rc, dir == Inbound)
    ensures err.None? ==> OneMoreStream(ZERO, w'[|w|].rc, dir == Inbound)
    ensures err.None? ==> forall i :: 0 <= i < |w| ==>
      if i == reg.peers[p] || i == TRANSIENT || i == SYSTEM then OneMoreStream(w[i].rc, w'[i].rc, dir == Inbound)
      else w'[i].rc == w[i].rc
  {
    hide Good, Tried, Check, Add, Delta, Sane;
    var edges := [reg.peers[p], TRANSIENT, SYSTEM];
    StreamParental(w, reg, p);
    TriedIsExact(w, reg, Stream(p), limit, edges, AddStream(dir), err, w');
    StreamAdmission(limit, ZERO, dir);
    ZeroIsSane();
    StreamIsCounted(ZERO, dir);
    assert forall e :: e in edges <==> e == reg.peers[p] || e == TRANSIENT || e == SYSTEM;
    assert reg.peers[p] in edges && TRANSIENT in edges && SYSTEM in edges;
    forall e | e in edges
      ensures e < |w| && (Check(w[e].limit, w[e].rc, AddStream(dir)) == None
                          <==> RoomForStream(w[e].limit, w[e].rc, dir == Inbound))
      ensures OneMoreStream(w[e].rc, Add(w[e].rc, Delta(AddStream(dir))), dir == Inbound)
    {
      StreamAdmission(w[e].limit, w[e].rc, dir);
      JoinedIsSane(w, reg, e, e);
      StreamIsCounted(w[e].rc, dir);
    }
  }

  lemma ZeroIsSane()
    ensures Sane(ZERO)
  {
  }

  predicate RoomForConn(limit: Limit, rc: Stat, inbound: bool, usefd: bool) {
    && (if inbound then rc.conns.inbound + 1 <= limit.conns.inbound else rc.conns.outbound + 1 <= limit.conns.outbound)
    && rc.conns.inbound + rc.conns.outbound + 1 <= limit.connTotal
    && (usefd ==> rc.fd + 1 <= limit.fd)
  }

  predicate OneMoreConn(before: Stat, after: Stat, inbound: bool, usefd: bool) {
    && after.conns.inbound == before.conns.inbound + (if inbound then 1 else 0)
    && after.conns.outbound == before.conns.outbound + (if inbound then 0 else 1)
    && after.fd == before.fd + (if usefd then 1 else 0)
    && after.memory == before.memory && after.streams == before.streams
  }

  /** The same for a connection, by its own limit and the two scopes that it is tried on. */
  lemma ConnectionOpens(w: World, reg: Registry, t: Id, y: Id, limit: Limit, dir: Direction, usefd: bool,
                        err: Option<Error>, w': World)
    requires Good(w, reg) && limit.Valid() && Standard(t, y)
    requires Tried(w, Name.Connection, limit, [t, y], AddConn(dir, usefd), err, w')
    ensures |w'| == |w| + 1 && t < |w| && y < |w|
    ensures err.None? <==>
      && RoomForConn(limit, ZERO, dir == Inbound, usefd)
      && RoomForConn(w[t].limit, w[t].rc, dir == Inbound, usefd)
      && RoomForConn(w[y].limit, w[y].rc, dir == Inbound, usefd)
    ensures err.None? ==> OneMoreConn(ZERO, w'[|w|].rc, dir == Inbound, usefd)
    ensures err.None? ==> forall i :: 0 <= i < |w| ==>
      if i == t || i == y then OneMoreConn(w[i].rc, w'[i].rc, dir == Inbound, usefd) else w'[i].rc == w[i].rc
  {
    hide Good, Tried, Check, Add, Delta, Sane, Standard;
    var req, edges := AddConn(dir, usefd), [t, y];
    StandardParental(w, reg, t, y);
    TriedIsExact(w, reg, Name.Connection, limit, edges, req, err, w');
    ConnAdmission(limit, ZERO, dir, usefd);
    ZeroIsSane();
    ConnIsCounted(ZERO, dir, usefd);
    assert forall e :: e in edges <==> e == t || e == y;
    assert t in edges && y in edges;
    forall e | e in edges
      ensures e < |w| && (Check(w[e].limit, w[e].rc, req) == None
                          <==> RoomForConn(w[e].limit, w[e].rc, dir == Inbound, usefd))
      ensures OneMoreConn(w[e].rc, Add(w[e].rc, Delta(req)), dir == Inbound, usefd)
    {
      ConnAdmission(w[e].limit, w[e].rc, dir, usefd);
      JoinedIsSane(w, reg, e, e);
      ConnIsCounted(w[e].rc, dir, usefd);
    }
  }

  // ---------------------------------------------------------------- moving a connection to its peer

  /** Whatever a connection or stream counts is within the limits as well, memory up to the whole of its limit. */
  predicate RoomForAll(limit: Limit, rc: Stat, st: Stat) {
    && (limit.memory == MAX_INT64 || rc.memory + st.memory <= limit.memory)
    && (0 < st.streams.inbound ==> rc.streams.inbound + st.streams.inbound <= limit.streams.inbound)
    && (0 < st.streams.outbound ==> rc.streams.outbound + st.streams.outbound <= limit.streams.outbound)
    && rc.streams.inbound + st.streams.inbound + rc.streams.outbound + st.streams.outbound <= limit.streamTotal
    && (0 < st.conns.inbound ==> rc.conns.inbound + st.conns.inbound <= limit.conns.inbound)
    && (0 < st.conns.outbound ==> rc.conns.outbound + st.conns.outbound <= limit.conns.outbound)
    && rc.conns.inbound + st.conns.inbound + rc.conns.outbound + st.conns.outbound <= limit.connTotal
    && (0 < st.fd ==> rc.fd + st.fd <= limit.fd)
  }

  /** SetPeer moves an open connection exactly when the peer's scope has room for all that it counts. */
  lemma SetPeerMovesIff(w: World, reg: Registry, p: string, limit: Limit, s: Id, t: Id, y: Id, err: Option<Error>,
                        w': World, reg': Registry)
    requires Good(w, reg) && limit.Valid() && Attachable(w, s) && Takes(w, w[s].rc)
    requires Standard(t, y) && HasOnly(w[s].edges, t, y)
    requires PeerSet(w, reg, p, limit, s, t, y, err, w', reg')
    ensures p in reg'.peers && s < |w'|
    ensures err.None? <==>
      if p in reg.peers then RoomForAll(w[reg.peers[p]].limit, w[reg.peers[p]].rc, w[s].rc)
      else RoomForAll(limit, ZERO, w[s].rc)
    ensures err.None? ==> w'[s].edges == [reg'.peers[p], y]
    ensures err.Some? ==> w'[s] == w[s]
  {
    hide Good, Attached, Verdict, Check, Takes, Attachable, Standard, HasOnly, Created, Amount, Sane;
    PeerAttach(w, reg, p, limit, s, t, y);
    var w1, e := PeerKnown(w, reg, p, limit), reg'.peers[p];
    if p !in reg.peers {
      CreatedLast(w, Peer(p), limit, [SYSTEM]);
    }
    GoodParts(w1, reg');
    MoveVerdict(w1, e, w[s].rc);
    if err.None? {
      AttachedElsewhere(w1, s, [e], [t], [e, y]);
    }
  }

  /** What an open scope answers to something that moves. */
  lemma MoveVerdict(w: World, e: Id, st: Stat)
    requires Limited(w) && e < |w| && Amount(st) && !w[e].done
    ensures Verdict(w[e], Bulk(st)).None? <==> RoomForAll(w[e].limit, w[e].rc, st)
  {
    hide Check;
    MoveAdmission(w[e].limit, w[e].rc, st);
  }

  /** What a scope on the books, or one opened for the purpose, has room for. */
  predicate RoomAt(w: World, known: bool, i: Id, limit: Limit, st: Stat) {
    if known then i < |w| && RoomForAll(w[i].limit, w[i].rc, st) else RoomForAll(limit, ZERO, st)
  }

  /**
   * SetProtocol and SetService take an open stream in exactly when the protocol or service, and what it keeps for the
   * peer, both have room for all that the stream counts.
   */
  lemma GroupJoinsIff(w: World, reg: Registry, n: Key, p: string, limit: Limit, partLimit: Limit, s: Id,
                      leaves: seq<Id>, front: seq<Id>, mid: seq<Id>, err: Option<Error>, w': World, reg': Registry)
    requires Good(w, reg) && limit.Valid() && partLimit.Valid() && Joinable(w, reg, n, p, s, leaves, front, mid)
    requires GroupSet(w, reg, n, p, limit, partLimit, s, leaves, front, mid, err, w', reg')
    ensures s < |w| && (err.None? <==>
      && RoomAt(w, n in reg.groups, if n in reg.groups then reg.groups[n].scope else 0, limit, w[s].rc)
      && RoomAt(w, n in reg.groups && p in reg.groups[n].peers,
                if n in reg.groups && p in reg.groups[n].peers then reg.groups[n].peers[p] else 0, partLimit, w[s].rc))
  {
    hide Good, Takes, Attached, Verdict, RoomForAll, Attachable, Created, GroupEdges, Amount, Limited;
    JoinableIs(w, reg, n, p, s, leaves, front, mid);
    JoinedIsSane(w, reg, s, s);
    var d, w1, reg1 := w[s].rc, GroupKnown(w, reg, n, limit), GroupBooked(reg, n, |w|);
    GroupKnownGood(w, reg, n, limit);
    GroupAt(w, reg, n, limit, d);
    PartOnBooks(w, reg, n, p, limit);
    if Verdict(w1[reg1.groups[n].scope], Bulk(d)).None? {
      PartKnownGood(w1, reg1, n, p, partLimit);
      PartAnswers(w1, reg1, n, p, partLimit, d);
    } else {
      PartAnswers(w1, reg1, n, p, partLimit, d);
    }
  }

  /** What the scope of a service or protocol answers. */
  lemma GroupAt(w: World, reg: Registry, n: Key, limit: Limit, d: Stat)
    requires Good(w, reg) && limit.Valid() && Amount(d)
    ensures var w1, reg1 := GroupKnown(w, reg, n, limit), GroupBooked(reg, n, |w|);
      && n in reg1.groups && reg1.groups[n].scope < |w1|
      && (Verdict(w1[reg1.groups[n].scope], Bulk(d)).None?
          <==> RoomAt(w, n in reg.groups, if n in reg.groups then reg.groups[n].scope else 0, limit, d))
  {
    hide Good, Verdict, RoomForAll, Created, Amount, Limited;
    var w1, reg1 := GroupKnown(w, reg, n, limit), GroupBooked(reg, n, |w|);
    GroupKnownGood(w, reg, n, limit);
    GoodParts(w1, reg1);
    if n !in reg.groups {
      CreatedLast(w, Shared(n), limit, [SYSTEM]);
    }
    MoveVerdict(w1, reg1.groups[n].scope, d);
  }

  /** And what the part of it for a peer does. */
  lemma PartAnswers(w: World, reg: Registry, n: Key, p: string, limit: Limit, d: Stat)
    requires Good(w, reg) && limit.Valid() && Amount(d) && n in reg.groups
    ensures var w1, reg1 := PartKnown(w, reg, n, p, limit), PartBooked(reg, n, p, |w|);
      && n in reg1.groups && p in reg1.groups[n].peers && reg1.groups[n].peers[p] < |w1|
      && (Verdict(w1[reg1.groups[n].peers[p]], Bulk(d)).None?
          <==> RoomAt(w, p in reg.groups[n].peers, if p in reg.groups[n].peers then reg.groups[n].peers[p] else 0,
                      limit, d))
  {
    hide Good, Verdict, RoomForAll, Created, Amount, Limited;
    var w1, reg1 := PartKnown(w, reg, n, p, limit), PartBooked(reg, n, p, |w|);
    PartKnownGood(w, reg, n, p, limit);
    GoodParts(w1, reg1);
    if p !in reg.groups[n].peers {
      CreatedLast(w, PerPeer(n, p), limit, []);
    }
    MoveVerdict(w1, reg1.groups[n].peers[p], d);
  }

  /** Opening the scope of a service or protocol does not touch what it keeps for a peer. */
  lemma PartOnBooks(w: World, reg: Registry, n: Key, p: string, limit: Limit)
    requires Good(w, reg)
    ensures var w1, reg1 := GroupKnown(w, reg, n, limit), GroupBooked(reg, n, |w|);
      && n in reg1.groups && (p in reg1.groups[n].peers <==> n in reg.groups && p in reg.groups[n].peers)
      && (p in reg1.groups[n].peers ==> w1 == w && reg1.groups[n].peers[p] == reg.groups[n].peers[p])
  {
  }

  // ---------------------------------------------------------------- what a collection closes

  /** Nothing refers to the scope and nothing but memory is counted on it. */
  predicate OnlyMemory(c: Scope) {
    && c.refCnt <= 0 && c.rc.fd == 0
    && c.rc.streams.inbound == 0 && c.rc.streams.outbound == 0
    && c.rc.conns.inbound == 0 && c.rc.conns.outbound == 0
  }

  /**
   * A collection closes, of the scopes on the books, exactly these: the protocols and the peers that are not sticky and
   * have nothing but memory on them, and what the services and the other protocols keep for those peers.
   */
  lemma CollectionIsExact(w: World, reg: Registry, stickyN: set<Key>, stickyP: set<string>, w': World)
    requires Good(w, reg)
    requires var gs, ps := IdleGroups(w, reg, stickyN), IdlePeers(w, reg, stickyP);
      Swept(w, reg, gs, ps, DeadParts(reg, gs, ps), w')
    ensures |w'| == |w|
    ensures forall p :: p in reg.peers ==>
      var i := reg.peers[p]; i < |w| && (w'[i].done <==> p !in stickyP && OnlyMemory(w[i]))
    ensures forall n :: n in reg.groups ==>
      var i := reg.groups[n].scope;
      i < |w| && (w'[i].done <==> n.Protocol? && n !in stickyN && OnlyMemory(w[i]))
    ensures forall n, p :: n in reg.groups && p in reg.groups[n].peers ==>
      var i := reg.groups[n].peers[p];
      && i < |w|
      && (w'[i].done <==>
          p in reg.peers && w'[reg.peers[p]].done && !w'[reg.groups[n].scope].done)
    ensures forall i :: 0 <= i < |w| && !w[i].name.Peer? && !w[i].name.Shared? && !w[i].name.PerPeer? ==>
      w'[i].done == w[i].done
  {
    hide Good, Swept, IdleGroups, IdlePeers, DeadParts, OnlyMemory;
    forall p | p in reg.peers
      ensures var i := reg.peers[p]; i < |w| && |w'| == |w| && (w'[i].done <==> p !in stickyP && OnlyMemory(w[i]))
    {
      PeerCollected(w, reg, stickyN, stickyP, w', p);
    }
    forall n | n in reg.groups
      ensures var i := reg.groups[n].scope;
        && i < |w| && |w'| == |w|
        && (w'[i].done <==> n.Protocol? && n !in stickyN && OnlyMemory(w[i]))
    {
      GroupCollected(w, reg, stickyN, stickyP, w', n);
    }
    forall n, p | n in reg.groups && p in reg.groups[n].peers
      ensures var i := reg.groups[n].peers[p];
        && i < |w| && |w'| == |w|
        && (w'[i].done <==> p in reg.peers && w'[reg.peers[p]].done && !w'[reg.groups[n].scope].done)
    {
      PartCollected(w, reg, stickyN, stickyP, w', n, p);
    }
    OthersStay(w, reg, IdleGroups(w, reg, stickyN), IdlePeers(w, reg, stickyP),
               DeadParts(reg, IdleGroups(w, reg, stickyN), IdlePeers(w, reg, stickyP)), w');
  }

  lemma OthersStay(w: World, reg: Registry, gs: set<Key>, ps: set<string>, qs: set<(Key, string)>, w': World)
    requires Swept(w, reg, gs, ps, qs, w')
    ensures |w'| == |w|
    ensures forall i :: 0 <= i < |w| && !w[i].name.Peer? && !w[i].name.Shared? && !w[i].name.PerPeer? ==>
      w'[i].done == w[i].done
  {
  }

  /** Of the open scopes but the system scope, those are closed that the sweep takes. */
  lemma SweptAt(w: World, reg: Registry, gs: set<Key>, ps: set<string>, qs: set<(Key, string)>, w': World, i: Id)
    requires Swept(w, reg, gs, ps, qs, w') && i < |w| && i != SYSTEM && !w[i].done
    ensures |w'| == |w| && (w'[i].done <==> Gone(w, reg, gs, ps, qs, i))
  {
    hide Gone;
  }

  lemma UnusedIs(c: Scope)
    requires !c.done
    ensures Unused(c) <==> OnlyMemory(c)
  {
  }

  lemma PeerCollected(w: World, reg: Registry, stickyN: set<Key>, stickyP: set<string>, w': World, p: string)
    requires Good(w, reg) && p in reg.peers
    requires var gs, ps := IdleGroups(w, reg, stickyN), IdlePeers(w, reg, stickyP);
      Swept(w, reg, gs, ps, DeadParts(reg, gs, ps), w')
    ensures var i := reg.peers[p];
      i < |w| && |w'| == |w| && (w'[i].done <==> p !in stickyP && OnlyMemory(w[i]))
    ensures reg.peers[p] < |w| && (w'[reg.peers[p]].done <==> p in IdlePeers(w, reg, stickyP))
  {
    var i, gs, ps := reg.peers[p], IdleGroups(w, reg, stickyN), IdlePeers(w, reg, stickyP);
    hide Good, Swept, IdleGroups, IdlePeers, DeadParts, OnlyMemory, Unused;
    PeerAt(w, reg, p);
    GoodNames(w, reg);
    SweptAt(w, reg, gs, ps, DeadParts(reg, gs, ps), w', i);
    IdlePeer(w, reg, stickyP, p);
    UnusedIs(w[i]);
  }

  lemma GroupCollected(w: World, reg: Registry, stickyN: set<Key>, stickyP: set<string>, w': World, n: Key)
    requires Good(w, reg) && n in reg.groups
    requires var gs, ps := IdleGroups(w, reg, stickyN), IdlePeers(w, reg, stickyP);
      Swept(w, reg, gs, ps, DeadParts(reg, gs, ps), w')
    ensures var i := reg.groups[n].scope;
      i < |w| && |w'| == |w| && (w'[i].done <==> n.Protocol? && n !in stickyN && OnlyMemory(w[i]))
    ensures reg.groups[n].scope < |w| && (w'[reg.groups[n].scope].done <==> n in IdleGroups(w, reg, stickyN))
  {
    var i, gs, ps := reg.groups[n].scope, IdleGroups(w, reg, stickyN), IdlePeers(w, reg, stickyP);
    hide Good, Swept, IdleGroups, IdlePeers, DeadParts, OnlyMemory, Unused;
    GroupScopeName(w, reg, n);
    GoodNames(w, reg);
    SweptAt(w, reg, gs, ps, DeadParts(reg, gs, ps), w', i);
    IdleWithin(w, reg, stickyN, stickyP);
    if n.Protocol? {
      IdleGroup(w, reg, stickyN, n);
    }
    UnusedIs(w[i]);
  }

  lemma PartCollected(w: World, reg: Registry, stickyN: set<Key>, stickyP: set<string>, w': World, n: Key, p: string)
    requires Good(w, reg) && n in reg.groups && p in reg.groups[n].peers
    requires var gs, ps := IdleGroups(w, reg, stickyN), IdlePeers(w, reg, stickyP);
      Swept(w, reg, gs, ps, DeadParts(reg, gs, ps), w')
    ensures |w'| == |w| && reg.groups[n].scope < |w| && (p in reg.peers ==> reg.peers[p] < |w|)
    ensures var i := reg.groups[n].peers[p];
      && i < |w|
      && (w'[i].done <==> p in reg.peers && w'[reg.peers[p]].done && !w'[reg.groups[n].scope].done)
  {
    var i, gs, ps := reg.groups[n].peers[p], IdleGroups(w, reg, stickyN), IdlePeers(w, reg, stickyP);
    hide Good, Swept, IdleGroups, IdlePeers, OnlyMemory, Unused;
    PartAt(w, reg, n, p);
    GoodNames(w, reg);
    SweptAt(w, reg, gs, ps, DeadParts(reg, gs, ps), w', i);
    GroupCollected(w, reg, stickyN, stickyP, w', n);
    IdleWithin(w, reg, stickyN, stickyP);
    if p in reg.peers {
      PeerCollected(w, reg, stickyN, stickyP, w', p);
    }
  }

  /** What a collection closes goes off the books, and what it leaves open stays on them. */
  lemma BooksAfterCollection(w: World, reg: Registry, stickyN: set<Key>, stickyP: set<string>, w': World)
    requires Good(w, reg)
    requires var gs, ps := IdleGroups(w, reg, stickyN), IdlePeers(w, reg, stickyP);
      Swept(w, reg, gs, ps, DeadParts(reg, gs, ps), w')
    ensures var gs, ps := IdleGroups(w, reg, stickyN), IdlePeers(w, reg, stickyP);
      var reg' := Cleared(reg, gs, ps, DeadParts(reg, gs, ps));
      && (forall p :: p in reg.peers ==> reg.peers[p] < |w'| && (p in reg'.peers <==> !w'[reg.peers[p]].done))
      && (forall n :: n in reg.groups ==>
        reg.groups[n].scope < |w'| && (n in reg'.groups <==> !w'[reg.groups[n].scope].done))
      && (forall n, p :: n in reg'.groups && n in reg.groups && p in reg.groups[n].peers ==>
        reg.groups[n].peers[p] < |w'| && (p in reg'.groups[n].peers <==> !w'[reg.groups[n].peers[p]].done))
  {
    var gs, ps := IdleGroups(w, reg, stickyN), IdlePeers(w, reg, stickyP);
    var reg' := Cleared(reg, gs, ps, DeadParts(reg, gs, ps));
    hide Good, Swept, IdleGroups, IdlePeers;
    forall p | p in reg.peers
      ensures reg.peers[p] < |w'| && (p in reg'.peers <==> !w'[reg.peers[p]].done)
    {
      PeerCollected(w, reg, stickyN, stickyP, w', p);
    }
    forall n | n in reg.groups
      ensures reg.groups[n].scope < |w'| && (n in reg'.groups <==> !w'[reg.groups[n].scope].done)
    {
      GroupCollected(w, reg, stickyN, stickyP, w', n);
    }
    forall n, p | n in reg'.groups && n in reg.groups && p in reg.groups[n].peers
      ensures reg.groups[n].peers[p] < |w'| && (p in reg'.groups[n].peers <==> !w'[reg.groups[n].peers[p]].done)
    {
      PartCollected(w, reg, stickyN, stickyP, w', n, p);
      IdleWithin(w, reg, stickyN, stickyP);
      if p in reg.peers {
        PeerCollected(w, reg, stickyN, stickyP, w', p);
      }
    }
  }
}
