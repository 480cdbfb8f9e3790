/**
 * A run in which a connection is stranded: it is admitted by the allowlisted scopes only, its peer is not allowlisted,
 * and the standard scopes still have no room. The call that fails is then repeated.
 */
module Stranding {
  import opened Common
  import opened Int64
  import opened Resources
  import opened Ledgers
  import opened Accounts
  import opened Moves
  import opened Registry
  import opened Admission

  const NO_ROOM := Limit(0, NO_FLOW, 0, NO_FLOW, 0, 0)
  const ROOM := Limit(MAX_INT64, Flow(8, 8), 8, Flow(8, 8), 8, 8)
  const NOBODY := Registry(map[], map[])
  const ONE_CONN := AddConn(Inbound, false)

  /** Only allowlisted connections have room. */
  function Beginning(): World {
    Start(NO_ROOM, NO_ROOM, ROOM, ROOM)
  }

  /** These scopes count nothing. */
  predicate Unused(w: World) {
    forall i :: 0 <= i < |w| ==> w[i].rc == ZERO
  }

  lemma OpenedUnused(w: World, name: Name, limit: Limit, edges: seq<Id>)
    requires Unused(w)
    ensures var w' := Opened(w, name, limit, edges);
      && |w'| == |w| + 1 && Unused(w') && w'[|w|].limit == limit
      && forall i :: 0 <= i < |w| ==> w'[i].limit == w[i].limit
  {
  }

  lemma BeginningIs()
    ensures var w := Beginning();
      && |w| == 4 && Unused(w) && Good(w, NOBODY) && w[SYSTEM].limit == NO_ROOM
      && w[ALLOWED_SYSTEM].limit == ROOM && w[ALLOWED_TRANSIENT].limit == ROOM
  {
    hide Opened, Unused, Good;
    StartIsGood(NO_ROOM, NO_ROOM, ROOM, ROOM);
    var w1 := Opened([], System, NO_ROOM, []);
    var w2 := Opened(w1, Transient, NO_ROOM, [SYSTEM]);
    var w3 := Opened(w2, AllowedSystem, ROOM, []);
    assert Unused([]) by { NothingUnused(); }
    OpenedUnused([], System, NO_ROOM, []);
    OpenedUnused(w1, Transient, NO_ROOM, [SYSTEM]);
    OpenedUnused(w2, AllowedSystem, ROOM, []);
    OpenedUnused(w3, AllowedTransient, ROOM, [ALLOWED_SYSTEM]);
  }

  lemma NothingUnused()
    ensures Unused([])
  {
  }

  /** The standard scopes refuse the connection. */
  lemma StandardRefuse(w: World) returns (err: Error, w': World)
    requires Good(w, NOBODY) && w[SYSTEM].limit == NO_ROOM
    ensures Tried(w, Name.Connection, ROOM, [TRANSIENT, SYSTEM], ONE_CONN, Some(err), w')
    ensures w <= w' && |w'| == |w| + 1 && w'[|w|].rc == ZERO
  {
    hide Good, FirstRefusal, Room, Created, Path, Shape;
    var edges := [TRANSIENT, SYSTEM];
    var w1 := Created(w, Name.Connection, ROOM, edges);
    StandardParental(w, NOBODY, TRANSIENT, SYSTEM);
    OpenSane(w, NOBODY, Name.Connection, ROOM, edges);
    OpenGood(w, NOBODY, Name.Connection, ROOM, edges);
    GoodParts(w1, NOBODY);
    PathOfNew(w, Name.Connection, ROOM, edges);
    var path := [|w|] + edges;
    AdmissionIsExact(w1, path, ONE_CONN);
    assert path[2] == SYSTEM;
    CreatedKeeps(w, Name.Connection, ROOM, edges, SYSTEM);
    NoRoom(w1[SYSTEM].rc, ONE_CONN);
    err := FirstRefusal(w1, path, ONE_CONN).value;
    w' := w + [Discarded(Name.Connection, ROOM, edges)];
  }

  lemma NoRoom(rc: Stat, req: Request)
    requires Sane(rc) && (req == ONE_CONN || req == Bulk(Delta(ONE_CONN)))
    ensures !Room(NO_ROOM, rc, req)
  {
  }

  lemma RoomForOne(req: Request)
    requires req == ONE_CONN || req == Bulk(Delta(ONE_CONN))
    ensures Room(ROOM, ZERO, req)
  {
  }

  /** The allowlisted scopes admit it. */
  lemma AllowlistAdmits(w: World) returns (w': World)
    requires Good(w, NOBODY) && |w| > ALLOWED_TRANSIENT
    requires forall i :: i == ALLOWED_SYSTEM || i == ALLOWED_TRANSIENT ==> w[i].limit == ROOM && w[i].rc == ZERO
    ensures Tried(w, Name.Connection, ROOM, [ALLOWED_TRANSIENT, ALLOWED_SYSTEM], ONE_CONN, None, w')
  {
    hide Good, FirstRefusal, Room, Created, Reserved, Path, Shape, Delta;
    var edges := [ALLOWED_TRANSIENT, ALLOWED_SYSTEM];
    var w1 := Created(w, Name.Connection, ROOM, edges);
    StandardParental(w, NOBODY, ALLOWED_TRANSIENT, ALLOWED_SYSTEM);
    OpenSane(w, NOBODY, Name.Connection, ROOM, edges);
    OpenGood(w, NOBODY, Name.Connection, ROOM, edges);
    GoodParts(w1, NOBODY);
    OpenParents(w1);
    PathOfNew(w, Name.Connection, ROOM, edges);
    CreatedLast(w, Name.Connection, ROOM, edges);
    RoomForOne(ONE_CONN);
    forall i | i in [|w|] + edges ensures i < |w1| && !w1[i].done && Room(w1[i].limit, w1[i].rc, ONE_CONN) {
      if i < |w| {
        CreatedKeeps(w, Name.Connection, ROOM, edges, i);
      }
    }
    AdmissionIsExact(w1, [|w|] + edges, ONE_CONN);
    w' := Reserved(w1, |w|, Delta(ONE_CONN));
  }

  /** And no other scope notices. */
  lemma AdmissionKeeps(w: World, w': World, i: Id)
    requires Tried(w, Name.Connection, ROOM, [ALLOWED_TRANSIENT, ALLOWED_SYSTEM], ONE_CONN, None, w')
    requires i < |w| && i != ALLOWED_SYSTEM && i != ALLOWED_TRANSIENT
    ensures |w'| == |w| + 1 && w'[i].limit == w[i].limit && w'[i].rc == w[i].rc
  {
    hide FirstRefusal, Created, Reserved, Path, Shape, Delta;
    var edges := [ALLOWED_TRANSIENT, ALLOWED_SYSTEM];
    var w1 := Created(w, Name.Connection, ROOM, edges);
    PathOfNew(w, Name.Connection, ROOM, edges);
    CreatedKeeps(w, Name.Connection, ROOM, edges, i);
    ReservedAt(w1, |w|, Delta(ONE_CONN), i);
  }

  lemma OpenParents(w: World)
    requires Tidy(w, NOBODY)
    ensures |w| > ALLOWED_TRANSIENT && !w[ALLOWED_SYSTEM].done && !w[ALLOWED_TRANSIENT].done
  {
  }

  /** The connection in question, after both attempts. */
  const CONN: Id := 5

  /** It is the fifth scope after the four fixed ones: the first attempt left a closed one behind. */
  lemma Admitted() returns (first: World, err: Error, w: World)
    ensures Tried(Beginning(), Name.Connection, ROOM, [TRANSIENT, SYSTEM], ONE_CONN, Some(err), first)
    ensures Tried(first, Name.Connection, ROOM, [ALLOWED_TRANSIENT, ALLOWED_SYSTEM], ONE_CONN, None, w)
    ensures Good(w, NOBODY) && |w| == 6 && Attachable(w, CONN) && w[CONN].name.Connection?
    ensures w[CONN].edges == [ALLOWED_TRANSIENT, ALLOWED_SYSTEM] && w[CONN].rc == Delta(ONE_CONN)
    ensures w[SYSTEM].limit == NO_ROOM && w[4].rc == ZERO
  {
    hide Good, Tried, Beginning, Attachable, Add, Delta, Parental;
    BeginningIs();
    err, first := StandardRefuse(Beginning());
    StandardParental(Beginning(), NOBODY, TRANSIENT, SYSTEM);
    TriedGood(Beginning(), NOBODY, Name.Connection, ROOM, [TRANSIENT, SYSTEM], ONE_CONN, Some(err), first);
    w := AllowlistAdmits(first);
    StandardParental(first, NOBODY, ALLOWED_TRANSIENT, ALLOWED_SYSTEM);
    TriedGood(first, NOBODY, Name.Connection, ROOM, [ALLOWED_TRANSIENT, ALLOWED_SYSTEM], ONE_CONN, None, w);
    TriedAttachable(first, Name.Connection, ROOM, [ALLOWED_TRANSIENT, ALLOWED_SYSTEM], ONE_CONN, w);
    TriedName(first, w);
    AdmissionKeeps(first, w, SYSTEM);
    AdmissionKeeps(first, w, 4);
    AddedToNothing();
  }

  lemma AddedToNothing()
    ensures Add(ZERO, Delta(ONE_CONN)) == Delta(ONE_CONN)
  {
  }

  lemma TriedName(w: World, w': World)
    requires Tried(w, Name.Connection, ROOM, [ALLOWED_TRANSIENT, ALLOWED_SYSTEM], ONE_CONN, None, w')
    ensures |w| < |w'| && w'[|w|].name.Connection?
  {
    hide FirstRefusal;
    CreatedLast(w, Name.Connection, ROOM, [ALLOWED_TRANSIENT, ALLOWED_SYSTEM]);
  }

  /** Attaching it to a peer that is not allowlisted fails, and leaves it without parents. */
  lemma TransferFails(w: World, p: string) returns (err: Error, w': World)
    requires Good(w, NOBODY) && |w| == 6 && Attachable(w, CONN) && w[CONN].name.Connection?
    requires w[CONN].edges == [ALLOWED_TRANSIENT, ALLOWED_SYSTEM] && w[CONN].rc == Delta(ONE_CONN)
    requires w[SYSTEM].limit == NO_ROOM && w[4].rc == ZERO
    ensures SetPeerRefused(w, NOBODY, p, ROOM, CONN, true, false, err, w', w', NOBODY) && !Restored(w, w')
    ensures Good(w', NOBODY) && |w'| == 6 && w'[CONN] == w[CONN].(edges := []) && w'[4].rc == ZERO
  {
    hide Good, Attached, Room, Restored;
    StrandedGood(w, NOBODY, CONN);
    AttachedElsewhere(w, CONN, [], w[CONN].edges, []);
    JoinedIsSane(w, NOBODY, CONN, SYSTEM);
    GoodParts(w, NOBODY);
    CheckIsExact(NO_ROOM, w[SYSTEM].rc, Bulk(Delta(ONE_CONN)));
    NoRoom(w[SYSTEM].rc, Bulk(Delta(ONE_CONN)));
    err := Verdict(w[SYSTEM], Bulk(Delta(ONE_CONN))).value;
    w' := Stranded(w, CONN);
    RefusedSetPeerRestoresIff(w, NOBODY, p, ROOM, CONN, true, false, err, w', w', NOBODY);
  }

  /** The second call does not transfer again: the peer's scope grants it, and the books no longer balance. */
  lemma RetryBreaks(w: World, p: string) returns (w1: World)
    requires Good(w, NOBODY) && |w| == 6 && w[CONN].name.Connection? && w[CONN].owner.None? && w[CONN].edges == []
    requires w[CONN].rc == Delta(ONE_CONN) && w[4].rc == ZERO
    ensures PeerSet(w, NOBODY, p, ROOM, CONN, TRANSIENT, SYSTEM, None, w1, PeerBooked(NOBODY, p, 6))
    ensures !Sound(w1, Pins(7))
  {
    hide Good, Sound, Takes, Delta, Verdict, Created, Attached;
    var known, reg := PeerKnown(w, NOBODY, p, ROOM), PeerBooked(NOBODY, p, 6);
    PeerKnownGood(w, NOBODY, p, ROOM);
    CreatedElsewhere(w, Peer(p), ROOM, [SYSTEM], CONN);
    CreatedElsewhere(w, Peer(p), ROOM, [SYSTEM], 4);
    CreatedLast(w, Peer(p), ROOM, [SYSTEM]);
    PeerGrants(known[6]);
    AllTake(known);
    RetryIsUnsound(known, reg, p, CONN);
    w1 := Attached(known, CONN, [6], [TRANSIENT], [6, SYSTEM]);
  }

  /** The whole run: a connection is opened, at the second attempt; attaching it to a peer fails; and is repeated. */
  lemma RetryHappens(p: string) returns (first: World, refusal: Error, w: World, err: Error, w': World, w'': World)
    ensures Tried(Beginning(), Name.Connection, ROOM, [TRANSIENT, SYSTEM], ONE_CONN, Some(refusal), first)
    ensures Tried(first, Name.Connection, ROOM, [ALLOWED_TRANSIENT, ALLOWED_SYSTEM], ONE_CONN, None, w)
    ensures Good(w, NOBODY) && |w| == |w'| == 6
    ensures SetPeerRefused(w, NOBODY, p, ROOM, CONN, true, false, err, w', w', NOBODY) && !Restored(w, w')
    ensures PeerSet(w', NOBODY, p, ROOM, CONN, TRANSIENT, SYSTEM, None, w'', PeerBooked(NOBODY, p, 6))
    ensures !Sound(w'', Pins(7))
  {
    hide Good, Tried, SetPeerRefused, PeerSet, PeerBooked, Restored, Sound, Delta;
    first, refusal, w := Admitted();
    err, w' := TransferFails(w, p);
    w'' := RetryBreaks(w', p);
  }

  lemma PeerGrants(c: Scope)
    requires !c.done && c.limit == ROOM && c.rc == ZERO
    ensures Verdict(c, Bulk(Delta(ONE_CONN))).None?
  {
    hide Room, Check, Delta;
    DeltaAmount();
    RoomForOne(Bulk(Delta(ONE_CONN)));
    CheckIsExact(ROOM, ZERO, Bulk(Delta(ONE_CONN)));
  }

  lemma DeltaAmount()
    ensures Amount(Delta(ONE_CONN))
  {
  }

  lemma AllTake(w: World)
    requires |w| == 7 && w[4].rc == ZERO && w[CONN].rc == Delta(ONE_CONN) && w[6].rc == ZERO
    ensures Takes(w, Delta(ONE_CONN))
  {
  }
}
