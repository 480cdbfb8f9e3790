/**
 * The resource manager as objects: opening connections and streams, attaching them to peers, protocols and
 * services, and collecting what is no longer used (p2p/host/resource-manager/rcmgr.go).
 *
 * The source keeps services and protocols in two maps of two types with the same code; here they are one map, by
 * key. Limits come from a function of the name, and whether an address is allowlisted is a parameter.
 */
module Manager {
  import opened Common
  import opened Resources
  import opened Ledgers
  import opened Accounts
  import opened Scopes
  import opened Moves
  import opened Registry

  /** A service or protocol scope; `peers` are its scopes per peer. */
  datatype GroupScope = GroupScope(scope: ResourceScope, peers: map<string, ResourceScope>)
  {
    ghost function View(): Group { Group(scope.id, IdsOf(peers)) }

    ghost predicate InList(u: seq<ResourceScope>) { scope.InList(u) && AllInList(peers, u) }
  }

  ghost function IdsOf(m: map<string, ResourceScope>): map<string, Id> {
    map p | p in m :: m[p].id
  }

  ghost function ViewsOf(groups: map<Key, GroupScope>): map<Key, Group> {
    map n | n in groups :: groups[n].View()
  }

  ghost predicate AllInList(m: map<string, ResourceScope>, u: seq<ResourceScope>) {
    forall p :: p in m ==> m[p].InList(u)
  }

  ghost predicate GroupsInList(groups: map<Key, GroupScope>, u: seq<ResourceScope>) {
    forall n :: n in groups ==> groups[n].InList(u)
  }

  lemma InListGrows(m: map<string, ResourceScope>, groups: map<Key, GroupScope>, u: seq<ResourceScope>,
                    u': seq<ResourceScope>)
    requires u <= u' && AllInList(m, u) && GroupsInList(groups, u)
    ensures AllInList(m, u') && GroupsInList(groups, u')
  {
    forall p | p in m ensures m[p].InList(u') { assert m[p].InList(u); }
    forall n | n in groups ensures groups[n].InList(u') {
      assert groups[n].InList(u);
      forall p | p in groups[n].peers ensures groups[n].peers[p].InList(u') { assert groups[n].peers[p].InList(u); }
    }
  }

  lemma PeerEntry(m: map<string, ResourceScope>, p: string, u: seq<ResourceScope>)
    ensures p in IdsOf(m) <==> p in m
    ensures p in m ==> IdsOf(m)[p] == m[p].id
    ensures AllInList(m, u) && p in m ==> m[p].InList(u)
  {
  }

  lemma PeerUpdate(m: map<string, ResourceScope>, p: string, s: ResourceScope, u: seq<ResourceScope>)
    ensures IdsOf(m[p := s]) == IdsOf(m)[p := s.id]
    ensures AllInList(m, u) && s.InList(u) ==> AllInList(m[p := s], u)
  {
  }

  lemma GroupEntry(groups: map<Key, GroupScope>, n: Key, u: seq<ResourceScope>)
    ensures n in ViewsOf(groups) <==> n in groups
    ensures n in groups ==> ViewsOf(groups)[n] == groups[n].View()
    ensures GroupsInList(groups, u) && n in groups ==> groups[n].InList(u)
  {
  }

  lemma PartEntry(groups: map<Key, GroupScope>, n: Key, p: string, u: seq<ResourceScope>)
    requires n in groups && GroupsInList(groups, u)
    ensures n in ViewsOf(groups) && (p in ViewsOf(groups)[n].peers <==> p in groups[n].peers)
    ensures p in groups[n].peers ==>
      var s := groups[n].peers[p]; ViewsOf(groups)[n].peers[p] == s.id && s.InList(u) && s in u
  {
    assert groups[n].InList(u);
  }

  lemma GroupUpdate(groups: map<Key, GroupScope>, n: Key, g: GroupScope, u: seq<ResourceScope>)
    ensures ViewsOf(groups[n := g]) == ViewsOf(groups)[n := g.View()]
    ensures GroupsInList(groups, u) && g.InList(u) ==> GroupsInList(groups[n := g], u)
  {
  }

  lemma PeerRemove(m: map<string, ResourceScope>, p: string, u: seq<ResourceScope>)
    ensures IdsOf(m - {p}) == IdsOf(m) - {p}
    ensures AllInList(m, u) ==> AllInList(m - {p}, u)
  {
  }

  lemma GroupRemove(groups: map<Key, GroupScope>, n: Key, u: seq<ResourceScope>)
    ensures ViewsOf(groups - {n}) == ViewsOf(groups) - {n}
    ensures GroupsInList(groups, u) ==> GroupsInList(groups - {n}, u)
  {
  }

  lemma PartRemove(groups: map<Key, GroupScope>, n: Key, p: string, u: seq<ResourceScope>)
    requires n in groups
    ensures var g := groups[n].(peers := groups[n].peers - {p});
            && n in ViewsOf(groups)
            && ViewsOf(groups[n := g])
              == ViewsOf(groups)[n := ViewsOf(groups)[n].(peers := ViewsOf(groups)[n].peers - {p})]
            && (GroupsInList(groups, u) ==> GroupsInList(groups[n := g], u))
  {
    var g := groups[n].(peers := groups[n].peers - {p});
    PeerRemove(groups[n].peers, p, u);
    GroupUpdate(groups, n, g, u);
    if GroupsInList(groups, u) { assert groups[n].InList(u); }
  }

  lemma NoEntries(u: seq<ResourceScope>)
    ensures IdsOf(map[]) == map[] && ViewsOf(map[]) == map[] && AllInList(map[], u) && GroupsInList(map[], u)
  {
  }

  /** The limits for each kind of scope. */
  datatype Limiter = Limiter(system: Limit, transient: Limit, allowedSystem: Limit, allowedTransient: Limit,
                             conn: Limit, peer: string -> Limit, stream: string -> Limit, group: Key -> Limit,
                             part: Key -> Limit)
  {
    ghost predicate Valid() {
      && system.Valid() && transient.Valid() && allowedSystem.Valid() && allowedTransient.Valid() && conn.Valid()
      && (forall p :: peer(p).Valid()) && (forall p :: stream(p).Valid())
      && (forall n :: group(n).Valid()) && (forall n :: part(n).Valid())
    }

    lemma StartGood()
      requires Valid()
      ensures Good(Start(system, transient, allowedSystem, allowedTransient), Registry(map[], map[]))
    {
      hide Good, Start;
      StartIsGood(system, transient, allowedSystem, allowedTransient);
    }
  }

  class ResourceManager {
    const limits: Limiter
    const system: ResourceScope
    const transient: ResourceScope
    const allowedSystem: ResourceScope
    const allowedTransient: ResourceScope
    var peers: map<string, ResourceScope>
    var groups: map<Key, GroupScope>
    var stickyPeers: set<string>
    var stickyProtocols: set<Key>
    /** All scopes ever created. */
    ghost var all: seq<ResourceScope>

    ghost function Reg(): Registry
      reads this
    {
      Registry(IdsOf(peers), ViewsOf(groups))
    }

    ghost predicate Linked()
      reads this, all`edges
    {
      && limits.Valid() && Wired(all) && |all| >= 4
      && system == all[SYSTEM] && transient == all[TRANSIENT]
      && allowedSystem == all[ALLOWED_SYSTEM] && allowedTransient == all[ALLOWED_TRANSIENT]
      && AllInList(peers, all) && GroupsInList(groups, all)
    }

    ghost predicate Valid()
      reads this, all
    {
      Linked() && Good(WorldOf(all), Reg())
    }

    constructor (limits: Limiter, s: ResourceScope, t: ResourceScope, as_: ResourceScope, at_: ResourceScope,
                 ghost u: seq<ResourceScope>)
      ensures this.limits == limits && peers == map[] && groups == map[] && stickyPeers == {} && stickyProtocols == {}
      ensures system == s && transient == t && allowedSystem == as_ && allowedTransient == at_ && all == u
    {
      this.limits := limits;
      system, transient, allowedSystem, allowedTransient := s, t, as_, at_;
      peers, groups, stickyPeers, stickyProtocols := map[], map[], {}, {};
      all := u;
    }

    /** NewResourceManager. */
    static method NewManager(limits: Limiter) returns (r: ResourceManager)
      requires limits.Valid()
      ensures fresh(r) && r.Valid() && r.limits == limits && r.peers == map[] && r.groups == map[]
      ensures forall i :: 0 <= i < |r.all| ==> fresh(r.all[i])
    {
      hide Limiter.Valid, Good, Start, WorldOf, Wired, IdsOf, ViewsOf, AllInList, GroupsInList;
      limits.StartGood();
      var s, t, as_, at_, u := NewFixedScopes(limits);
      r := new ResourceManager(limits, s, t, as_, at_, u);
      NoEntries(u);
    }

    static method NewFixedScopes(limits: Limiter)
      returns (s: ResourceScope, t: ResourceScope, as_: ResourceScope, at_: ResourceScope, ghost u: seq<ResourceScope>)
      ensures u == [s, t, as_, at_] && Wired(u) && fresh(s) && fresh(t) && fresh(as_) && fresh(at_)
      ensures WorldOf(u) == Start(limits.system, limits.transient, limits.allowedSystem, limits.allowedTransient)
    {
      hide Opened, Wired, WorldOf, Ids;
      NoIds();
      s, u := NewFixed(System, limits.system, [], []);
      OneId(s);
      t, u := NewFixed(Transient, limits.transient, [s], u);
      as_, u := NewFixed(AllowedSystem, limits.allowedSystem, [], u);
      OneId(as_);
      at_, u := NewFixed(AllowedTransient, limits.allowedTransient, [as_], u);
    }

    static method NewFixed(name: Name, limit: Limit, edges: seq<ResourceScope>, ghost u: seq<ResourceScope>)
      returns (r: ResourceScope, ghost u': seq<ResourceScope>)
      requires Wired(u) && Distinct(Ids(edges)) && forall e :: e in edges ==> e.InList(u)
      modifies edges`refCnt
      ensures fresh(r) && u' == u + [r] && u <= u' && r.InList(u') && Wired(u') && r.id == |u|
      ensures WorldOf(u') == Opened(old(WorldOf(u)), name, limit, Ids(edges))
    {
      r, u' := NewResourceScope(name, limit, edges, u);
      r.IncRef(u');
    }

    lemma FixedIds()
      requires Linked()
      ensures system.InList(all) && transient.InList(all) && allowedSystem.InList(all) && allowedTransient.InList(all)
      ensures system.id == SYSTEM && transient.id == TRANSIENT
      ensures allowedSystem.id == ALLOWED_SYSTEM && allowedTransient.id == ALLOWED_TRANSIENT
      ensures Ids([system]) == [SYSTEM]
    {
    }

    // ---------------------------------------------------------------- looking scopes up

    /** The scope of a peer, opened if there is none, with a reference for the caller. */
    method GetPeerScope(p: string) returns (s: ResourceScope)
      requires Linked()
      modifies this`peers, this`all, all`refCnt
      ensures Linked() && old(all) <= all && s.InList(all) && (s in old(all) || fresh(s))
      ensures forall x :: x in all ==> x in old(all) || fresh(x)
      ensures p in peers && peers[p] == s
      ensures Reg() == PeerBooked(old(Reg()), p, |old(all)|)
      ensures WorldOf(all) == Referenced(PeerKnown(old(WorldOf(all)), old(Reg()), p, limits.peer(p)), [s.id], 1)
    {
      PeerEntry(peers, p, all);
      hide Wired, WorldOf, Referenced, Created, IdsOf, ViewsOf, AllInList, GroupsInList;
      if p in peers {
        s := peers[p];
        assert s in all;
      } else {
        s := NewPeerScope(p);
      }
      s.IncRef(all);
    }

    method NewPeerScope(p: string) returns (s: ResourceScope)
      requires Linked() && p !in peers
      modifies this`peers, this`all, system`refCnt
      ensures Linked() && all == old(all) + [s] && s.id == |old(all)| && fresh(s)
      ensures peers == old(peers)[p := s] && Reg() == old(Reg()).(peers := old(Reg()).peers[p := |old(all)|])
      ensures WorldOf(all) == Created(old(WorldOf(all)), Peer(p), limits.peer(p), [SYSTEM])
    {
      hide Wired, WorldOf, Created, IdsOf, ViewsOf, Ids, AllInList, GroupsInList;
      FixedIds();
      s := NewScope(Peer(p), limits.peer(p), [system]);
      PeerUpdate(peers, p, s, all);
      peers := peers[p := s];
    }

    /** A new scope is put on the list, but not yet on the books. */
    method NewScope(name: Name, limit: Limit, edges: seq<ResourceScope>) returns (s: ResourceScope)
      requires Linked() && Distinct(Ids(edges)) && forall e :: e in edges ==> e.InList(all)
      modifies this`all, edges`refCnt
      ensures Linked() && all == old(all) + [s] && s.id == |old(all)| && s.InList(all) && fresh(s)
      ensures WorldOf(all) == Created(old(WorldOf(all)), name, limit, Ids(edges))
      ensures s.edges == edges && s.name == name && s.owner == null && !s.done && s.rc == ZERO
    {
      hide Wired, WorldOf, Created, IdsOf, ViewsOf, Ids, AllInList, GroupsInList;
      ghost var u := all;
      s, all := NewResourceScope(name, limit, edges, all);
      InListGrows(peers, groups, u, all);
    }

    /** The scope of a service or protocol, opened if there is none, with a reference for the caller. */
    method GetGroupScope(n: Key) returns (s: ResourceScope)
      requires Linked()
      modifies this`groups, this`all, all`refCnt
      ensures Linked() && old(all) <= all && s.InList(all) && (s in old(all) || fresh(s))
      ensures forall x :: x in all ==> x in old(all) || fresh(x)
      ensures n in groups && groups[n].scope == s
      ensures Reg() == GroupBooked(old(Reg()), n, |old(all)|)
      ensures WorldOf(all) == Referenced(GroupKnown(old(WorldOf(all)), old(Reg()), n, limits.group(n)), [s.id], 1)
    {
      GroupEntry(groups, n, all);
      hide Wired, WorldOf, Referenced, Created, IdsOf, ViewsOf, AllInList, GroupsInList;
      if n in groups {
        s := groups[n].scope;
        assert s in all;
      } else {
        s := NewGroupScope(n);
      }
      s.IncRef(all);
    }

    method NewGroupScope(n: Key) returns (s: ResourceScope)
      requires Linked() && n !in groups
      modifies this`groups, this`all, system`refCnt
      ensures Linked() && all == old(all) + [s] && s.id == |old(all)| && fresh(s)
      ensures groups == old(groups)[n := GroupScope(s, map[])]
      ensures Reg() == old(Reg()).(groups := old(Reg()).groups[n := Group(|old(all)|, map[])])
      ensures WorldOf(all) == Created(old(WorldOf(all)), Shared(n), limits.group(n), [SYSTEM])
    {
      hide Wired, WorldOf, Created, IdsOf, ViewsOf, Ids, AllInList, GroupsInList;
      FixedIds();
      s := NewScope(Shared(n), limits.group(n), [system]);
      NoEntries(all);
      GroupUpdate(groups, n, GroupScope(s, map[]), all);
      groups := groups[n := GroupScope(s, map[])];
    }

    /** The scope of a service or protocol for one peer, opened if there is none, with a reference for the caller. */
    method GetPartScope(n: Key, p: string) returns (s: ResourceScope)
      requires Linked() && n in groups
      modifies this`groups, this`all, all`refCnt
      ensures Linked() && old(all) <= all && s.InList(all) && (s in old(all) || fresh(s))
      ensures forall x :: x in all ==> x in old(all) || fresh(x)
      ensures n in groups && p in groups[n].peers && groups[n].peers[p] == s && groups[n].scope == old(groups[n].scope)
      ensures n in old(Reg()).groups && Reg() == PartBooked(old(Reg()), n, p, |old(all)|)
      ensures WorldOf(all) == Referenced(PartKnown(old(WorldOf(all)), old(Reg()), n, p, limits.part(n)), [s.id], 1)
    {
      hide Wired, WorldOf, Referenced, Created, IdsOf, ViewsOf, AllInList, GroupsInList;
      s := PartScope(n, p);
      s.IncRef(all);
    }

    method PartScope(n: Key, p: string) returns (s: ResourceScope)
      requires Linked() && n in groups
      modifies this`groups, this`all
      ensures Linked() && old(all) <= all && s.InList(all) && (s in old(all) || fresh(s))
      ensures forall x :: x in all ==> x in old(all) || fresh(x)
      ensures n in groups && p in groups[n].peers && groups[n].peers[p] == s && groups[n].scope == old(groups[n].scope)
      ensures n in old(Reg()).groups && Reg() == PartBooked(old(Reg()), n, p, |old(all)|)
      ensures WorldOf(all) == PartKnown(old(WorldOf(all)), old(Reg()), n, p, limits.part(n))
    {
      hide Wired, WorldOf, Created, IdsOf, ViewsOf, AllInList, GroupsInList;
      PartEntry(groups, n, p, all);
      if p in groups[n].peers {
        s := groups[n].peers[p];
      } else {
        s := NewPartScope(n, p);
      }
    }

    method NewPartScope(n: Key, p: string) returns (s: ResourceScope)
      requires Linked() && n in groups && p !in groups[n].peers
      modifies this`groups, this`all
      ensures Linked() && all == old(all) + [s] && s.id == |old(all)| && fresh(s)
      ensures groups == old(groups)[n := old(groups[n]).(peers := old(groups[n]).peers[p := s])]
      ensures n in old(Reg()).groups
      ensures Reg() == var g := old(Reg()).groups[n];
                       old(Reg()).(groups := old(Reg()).groups[n := g.(peers := g.peers[p := |old(all)|])])
      ensures WorldOf(all) == Created(old(WorldOf(all)), PerPeer(n, p), limits.part(n), [])
    {
      NoIds();
      hide Wired, WorldOf, Created, IdsOf, ViewsOf, Ids, AllInList, GroupsInList;
      s := NewScope(PerPeer(n, p), limits.part(n), []);
      GroupEntry(groups, n, all);
      PeerUpdate(groups[n].peers, p, s, all);
      var g := groups[n].(peers := groups[n].peers[p := s]);
      GroupUpdate(groups, n, g, all);
      groups := groups[n := g];
    }

    // ---------------------------------------------------------------- opening connections and streams

    /** A new scope asks for its own connection or stream; if it is refused, it is closed again. */
    method TryOpen(name: Name, limit: Limit, edges: seq<ResourceScope>, req: Request)
      returns (s: ResourceScope, err: Option<Error>)
      requires Valid() && limit.Valid() && (name.Connection? || name.Stream?) && (req.AddConn? || req.AddStream?)
      requires Parental(WorldOf(all), Ids(edges)) && forall e :: e in edges ==> e.InList(all)
      modifies this`all, all`rc, all`own, all`refCnt
      ensures Valid() && Reg() == old(Reg())
      ensures all == old(all) + [s] && fresh(s) && s.id == |old(all)| && s.edges == edges && s.name == name
      ensures Tried(old(WorldOf(all)), name, limit, Ids(edges), req, err, WorldOf(all))
    {
      hide Good, WorldOf, Wired, Created, Parental, Tried, Shaped, IdsOf, ViewsOf, AllInList, GroupsInList;
      ghost var w := WorldOf(all);
      ParentalDistinct(w, Ids(edges));
      forall i | 0 <= i < |edges| ensures edges[i] in all { assert edges[i].InList(all); }
      s := NewScope(name, limit, edges);
      err := Charge(s, req, w, limit);
    }

    /** The new scope `s` reserves, or is closed. */
    method Charge(s: ResourceScope, req: Request, ghost w: World, ghost limit: Limit) returns (err: Option<Error>)
      requires Linked() && limit.Valid() && (s.name.Connection? || s.name.Stream?) && (req.AddConn? || req.AddStream?)
      requires s.InList(all) && s.id == |w| && |all| == |w| + 1
      requires Good(w, Reg()) && Parental(w, Ids(s.edges)) && WorldOf(all) == Created(w, s.name, limit, Ids(s.edges))
      modifies all`rc, all`own, all`refCnt, s`done
      ensures Valid() && Tried(w, s.name, limit, Ids(s.edges), req, err, WorldOf(all))
    {
      hide Good, WorldOf, Wired, Created, Parental, FirstRefusal, Reserved, Finished, Discarded, Shaped, IdsOf,
        ViewsOf, AllInList, GroupsInList;
      ghost var ids := Ids(s.edges);
      OpenSane(w, Reg(), s.name, limit, ids);
      DiscardGood(w, Reg(), s.name, limit, ids);
      err := s.Reserve(req, all);
      if err.Some? {
        s.Done(all);
      }
      TriedGood(w, Reg(), s.name, limit, ids, req, err, WorldOf(all));
    }

    /**
     * Opens a connection; `allowed` says whether its address is allowlisted. A connection that the standard scopes
     * refuse is tried again on the allowlisted ones. The ghost results tell what became of the first attempt.
     */
    method OpenConnection(dir: Direction, usefd: bool, allowed: bool)
      returns (conn: Option<Connection>, err: Option<Error>, ghost first: Option<Error>, ghost mid: World)
      requires Valid()
      modifies this`all, all`rc, all`own, all`refCnt
      ensures Valid() && Reg() == old(Reg())
      ensures Tried(old(WorldOf(all)), Name.Connection, limits.conn, [TRANSIENT, SYSTEM], AddConn(dir, usefd), first,
                    mid)
      ensures first.None? || !allowed ==> err == first && WorldOf(all) == mid
      ensures first.Some? && allowed ==>
        Tried(mid, Name.Connection, limits.conn, [ALLOWED_TRANSIENT, ALLOWED_SYSTEM], AddConn(dir, usefd), err,
              WorldOf(all))
      ensures conn.Some? <==> err.None?
      ensures conn.Some? ==> fresh(conn.value) && conn.value.rcmgr == this && conn.value.peer == null
                             && conn.value.isAllowlisted == first.Some? && conn.value.Ready()
      ensures err.Some? ==> old(WorldOf(all)) <= WorldOf(all)
      ensures old(all) <= all && forall i :: 0 <= i < |all| ==> all[i] in old(all) || fresh(all[i])
    {
      hide Good, WorldOf, Wired, Parental, Tried, Attachable, AllInList, GroupsInList;
      ghost var w := WorldOf(all);
      FixedIds();
      TwoIds(transient, system);
      TwoIds(allowedTransient, allowedSystem);
      StandardParental(w, Reg(), TRANSIENT, SYSTEM);
      var isAllowlisted := false;
      var s: ResourceScope;
      s, err := TryOpen(Name.Connection, limits.conn, [transient, system], AddConn(dir, usefd));
      first, mid := err, WorldOf(all);
      if err.Some? {
        RefusalLeavesAll(w, Name.Connection, limits.conn, [TRANSIENT, SYSTEM], AddConn(dir, usefd), err, mid);
        if allowed {
          isAllowlisted := true;
          StandardParental(mid, Reg(), ALLOWED_TRANSIENT, ALLOWED_SYSTEM);
          s, err := TryOpen(Name.Connection, limits.conn, [allowedTransient, allowedSystem], AddConn(dir, usefd));
        }
      }
      if err.Some? {
        if allowed {
          RefusalLeavesAll(mid, Name.Connection, limits.conn, [ALLOWED_TRANSIENT, ALLOWED_SYSTEM], AddConn(dir, usefd),
                           err, WorldOf(all));
        }
        conn := None;
      } else {
        conn := NewConnection(s, isAllowlisted, AddConn(dir, usefd), if isAllowlisted then mid else w);
      }
    }

    method NewConnection(s: ResourceScope, isAllowlisted: bool, req: Request, ghost w: World)
      returns (conn: Option<Connection>)
      requires Valid() && s.InList(all) && s.id == |w|
      requires Ids(s.edges) == if isAllowlisted then [ALLOWED_TRANSIENT, ALLOWED_SYSTEM] else [TRANSIENT, SYSTEM]
      requires Tried(w, Name.Connection, limits.conn, Ids(s.edges), req, None, WorldOf(all))
      ensures conn.Some? && fresh(conn.value) && conn.value.rcmgr == this && conn.value.peer == null
        && conn.value.scope == s
      ensures conn.value.isAllowlisted == isAllowlisted && conn.value.Ready()
    {
      hide Valid, WorldOf, Tried, Ids, Connection.Ready;
      ghost var v := WorldOf(all);
      var c := new Connection(this, s, isAllowlisted);
      assert Valid() && WorldOf(all) == v;
      c.ReadyNow(req, w);
      conn := Some(c);
    }

    /** Opens a stream to a peer; the scope of the peer is opened first if there is none. */
    method OpenStream(p: string, dir: Direction) returns (stream: Option<StreamScope>, err: Option<Error>)
      requires Valid()
      modifies this`peers, this`all, all`rc, all`own, all`refCnt
      ensures Valid() && Reg() == PeerBooked(old(Reg()), p, |old(all)|)
      ensures var w := old(WorldOf(all));
              && p in Reg().peers
              && Tried(PeerKnown(w, old(Reg()), p, limits.peer(p)), Stream(p), limits.stream(p),
                       [Reg().peers[p], TRANSIENT, SYSTEM], AddStream(dir), err, WorldOf(all))
      ensures stream.Some? <==> err.None?
      ensures stream.Some? ==> fresh(stream.value) && stream.value.rcmgr == this && stream.value.peerName == p
                               && stream.value.proto.None? && stream.value.OnTransient()
      ensures err.Some? ==> PeerKnown(old(WorldOf(all)), old(Reg()), p, limits.peer(p)) <= WorldOf(all)
      ensures old(all) <= all && forall i :: 0 <= i < |all| ==> all[i] in old(all) || fresh(all[i])
    {
      hide Good, WorldOf, Wired, Parental, Tried, Attachable, Created, PeerKnown, PeerBooked, Referenced, IdsOf,
        ViewsOf, AllInList, GroupsInList;
      ghost var w, reg := WorldOf(all), Reg();
      ghost var w1 := PeerKnown(w, reg, p, limits.peer(p));
      PeerKnownGood(w, reg, p, limits.peer(p));
      var peer := GetPeerScope(p);
      PeerEntry(peers, p, all);
      FixedIds();
      ThreeIds(peer, transient, system);
      StreamParental(w1, Reg(), p);
      ParentalDistinct(w1, [peer.id, TRANSIENT, SYSTEM]);
      var s := NewStreamScope(p, peer, w1);
      assert forall i :: 0 <= i < |all| ==> all[i] in old(all) || fresh(all[i]);
      err := Charge(s, AddStream(dir), w1, limits.stream(p));
      if err.Some? {
        RefusalLeavesAll(w1, Stream(p), limits.stream(p), [peer.id, TRANSIENT, SYSTEM], AddStream(dir), err,
                         WorldOf(all));
        stream := None;
      } else {
        stream := NewStream(p, s, peer, AddStream(dir), w1);
      }
    }

    /** The edge takes over the reference that the caller has on the scope of the peer. */
    method NewStreamScope(p: string, peer: ResourceScope, ghost w1: World) returns (s: ResourceScope)
      requires Linked() && peer.InList(all) && Distinct(Ids([peer, transient, system]))
      requires |w1| == |all| && WorldOf(all) == Referenced(w1, [peer.id], 1)
      modifies this`all, peer`refCnt, transient`refCnt, system`refCnt
      ensures Linked() && all == old(all) + [s] && fresh(s) && s.id == |w1| && s.name == Stream(p)
      ensures s.edges == [peer, transient, system] && s.InList(all) && !s.done && s.rc == ZERO && Reg() == old(Reg())
      ensures WorldOf(all) == Created(w1, Stream(p), limits.stream(p), [peer.id, TRANSIENT, SYSTEM])
    {
      hide WorldOf, Wired, Created, Referenced, IdsOf, ViewsOf, AllInList, GroupsInList, Ids, Distinct;
      FixedIds();
      ThreeIds(peer, transient, system);
      CreateUnderPin(w1, peer.id, Stream(p), limits.stream(p), [peer.id, TRANSIENT, SYSTEM]);
      s := NewScope(Stream(p), limits.stream(p), [peer, transient, system]);
      peer.DecRef(all);
    }

    method NewStream(p: string, s: ResourceScope, peer: ResourceScope, req: Request, ghost w: World)
      returns (stream: Option<StreamScope>)
      requires Valid() && s.InList(all) && s.id == |w| && p in peers && peers[p] == peer
      requires Ids(s.edges) == [peer.id, TRANSIENT, SYSTEM]
      requires Tried(w, Stream(p), limits.stream(p), Ids(s.edges), req, None, WorldOf(all))
      ensures stream.Some? && fresh(stream.value) && stream.value.rcmgr == this && stream.value.peerName == p
      ensures stream.value.scope == s && stream.value.proto.None? && stream.value.OnTransient()
    {
      hide Valid, WorldOf, Tried, Ids, StreamScope.OnTransient;
      ghost var v := WorldOf(all);
      var c := new StreamScope(this, s, p, peer);
      assert Valid() && WorldOf(all) == v;
      c.ReadyNow(req, w);
      stream := Some(c);
    }

    // ---------------------------------------------------------------- garbage collection

    /** Unused protocols, unused peers, and what services and protocols keep for those peers, are closed. */
    method Gc()
      requires Valid()
      modifies this`groups, this`peers, all`rc, all`own, all`refCnt, all`done
      ensures Valid()
      ensures var w, reg := old(WorldOf(all)), old(Reg());
              var gs, ps := IdleGroups(w, reg, stickyProtocols), IdlePeers(w, reg, stickyPeers);
              var qs := DeadParts(reg, gs, ps);
              Swept(w, reg, gs, ps, qs, WorldOf(all)) && Reg() == Cleared(reg, gs, ps, qs)
    {
      hide Good, WorldOf, Wired, Swept, Cleared, IdleGroups, IdlePeers, DeadParts, IdsOf, ViewsOf, AllInList,
        GroupsInList;
      ghost var w, reg := WorldOf(all), Reg();
      ghost var gs := CollectGroups();
      var dead := CollectPeers(w, reg, gs);
      CollectParts(dead, w, reg, gs);
    }

    method CollectGroups() returns (ghost gs: set<Key>)
      requires Valid()
      modifies this`groups, all`rc, all`own, all`refCnt, all`done
      ensures Valid() && gs == IdleGroups(old(WorldOf(all)), old(Reg()), stickyProtocols)
      ensures Swept(old(WorldOf(all)), old(Reg()), gs, {}, {}, WorldOf(all)) && Reg() == Cleared(old(Reg()), gs, {}, {})
    {
      hide Good, WorldOf, Wired, Swept, Cleared, Unused, IdleGroups, IdlePeers, DeadParts, IdsOf, ViewsOf, AllInList,
        GroupsInList;
      ghost var w, reg := WorldOf(all), Reg();
      ghost var idle := IdleGroups(w, reg, stickyProtocols);
      NothingSwept(w, reg);
      IdleWithin(w, reg, stickyProtocols, stickyPeers);
      GroupKeys();
      var todo := set n | n in groups && n.Protocol?;
      gs := {};
      while todo != {}
        invariant Valid() && gs == idle - todo && stickyProtocols == old(stickyProtocols)
        invariant Swept(w, reg, gs, {}, {}, WorldOf(all)) && Reg() == Cleared(reg, gs, {}, {})
        invariant forall n :: n in todo ==> n in reg.groups && n.Protocol?
        decreases todo
      {
        hide Good, WorldOf, Wired, Swept, Cleared, Unused, IdleGroups, IdlePeers, DeadParts, IdsOf, ViewsOf,
          AllInList, GroupsInList;
        var n :| n in todo;
        gs := CollectGroup(n, w, reg, gs);
        IdleGroup(w, reg, stickyProtocols, n);
        todo := todo - {n};
      }
    }

    lemma GroupKeys()
      ensures Reg().groups.Keys == groups.Keys && Reg().peers.Keys == peers.Keys
    {
    }

    method CollectPeers(ghost w: World, ghost reg: Registry, ghost gs: set<Key>) returns (dead: set<string>)
      requires Valid() && Good(w, reg) && Swept(w, reg, gs, {}, {}, WorldOf(all)) && Reg() == Cleared(reg, gs, {}, {})
      modifies this`peers, all`rc, all`own, all`refCnt, all`done
      ensures Valid() && dead == IdlePeers(w, reg, stickyPeers)
      ensures Swept(w, reg, gs, dead, {}, WorldOf(all)) && Reg() == Cleared(reg, gs, dead, {})
    {
      hide Good, WorldOf, Wired, Swept, Cleared, Unused, IdleGroups, IdlePeers, DeadParts, IdsOf, ViewsOf, AllInList,
        GroupsInList;
      ghost var idle := IdlePeers(w, reg, stickyPeers);
      IdleWithin(w, reg, stickyProtocols, stickyPeers);
      var todo := peers.Keys;
      PeersCleared(reg, gs, todo);
      dead := {};
      while todo != {}
        invariant Valid() && todo <= reg.peers.Keys && dead == idle - todo && stickyPeers == old(stickyPeers)
        invariant Swept(w, reg, gs, dead, {}, WorldOf(all)) && Reg() == Cleared(reg, gs, dead, {})
        decreases todo
      {
        hide Good, WorldOf, Wired, Swept, Cleared, Unused, IdleGroups, IdlePeers, DeadParts, IdsOf, ViewsOf,
          AllInList, GroupsInList;
        var p :| p in todo;
        dead := CollectPeer(p, w, reg, gs, dead);
        IdlePeer(w, reg, stickyPeers, p);
        todo := todo - {p};
      }
    }

    lemma PeersCleared(reg: Registry, gs: set<Key>, keys: set<string>)
      requires Reg() == Cleared(reg, gs, {}, {}) && keys == peers.Keys
      ensures keys == reg.peers.Keys
    {
      assert Reg().peers.Keys == peers.Keys;
      assert reg.peers - {} == reg.peers;
    }

    method CollectParts(dead: set<string>, ghost w: World, ghost reg: Registry, ghost gs: set<Key>)
      requires Valid() && Swept(w, reg, gs, dead, {}, WorldOf(all)) && Reg() == Cleared(reg, gs, dead, {})
      modifies this`groups, all`rc, all`own, all`refCnt, all`done
      ensures Valid() && Swept(w, reg, gs, dead, DeadParts(reg, gs, dead), WorldOf(all))
      ensures Reg() == Cleared(reg, gs, dead, DeadParts(reg, gs, dead))
    {
      hide Good, WorldOf, Wired, Swept, Cleared, Unused, IdleGroups, IdlePeers, DeadParts, IdsOf, ViewsOf, AllInList,
        GroupsInList;
      var todo := groups.Keys;
      ghost var qs: set<(Key, string)> := {};
      GroupsCleared(reg, gs, dead, {});
      NoParts(reg, gs, dead, todo);
      while todo != {}
        invariant Valid() && todo <= reg.groups.Keys - gs && qs == PartsDone(reg, gs, dead, todo)
        invariant Swept(w, reg, gs, dead, qs, WorldOf(all)) && Reg() == Cleared(reg, gs, dead, qs)
        decreases todo
      {
        hide Good, WorldOf, Wired, Swept, Cleared, Unused, IdleGroups, IdlePeers, DeadParts, IdsOf, ViewsOf,
          AllInList, GroupsInList;
        var n :| n in todo;
        PartsOf(reg, gs, dead, todo, n);
        qs := CollectPartsOf(n, dead, w, reg, gs, qs);
        todo := todo - {n};
      }
      AllParts(reg, gs, dead);
    }

    lemma GroupsCleared(reg: Registry, gs: set<Key>, ps: set<string>, qs: set<(Key, string)>)
      requires Reg() == Cleared(reg, gs, ps, qs)
      ensures groups.Keys == reg.groups.Keys - gs
    {
      assert Reg().groups.Keys == groups.Keys;
    }

    method CollectPartsOf(n: Key, dead: set<string>, ghost w: World, ghost reg: Registry, ghost gs: set<Key>,
                          ghost qs: set<(Key, string)>)
      returns (ghost qs': set<(Key, string)>)
      requires Valid() && n in reg.groups && n !in gs && forall p :: (n, p) !in qs
      requires Swept(w, reg, gs, dead, qs, WorldOf(all)) && Reg() == Cleared(reg, gs, dead, qs)
      modifies this`groups, all`rc, all`own, all`refCnt, all`done
      ensures Valid() && qs' == qs + PartsFor(reg, n, dead)
      ensures Swept(w, reg, gs, dead, qs', WorldOf(all)) && Reg() == Cleared(reg, gs, dead, qs')
    {
      hide Good, WorldOf, Wired, Swept, Cleared, Unused, IdleGroups, IdlePeers, DeadParts, IdsOf, ViewsOf, AllInList,
        GroupsInList;
      var todo := dead;
      qs' := qs;
      NoPartsFor(reg, n, dead, qs);
      while todo != {}
        invariant Valid() && todo <= dead && qs' == qs + PartsFor(reg, n, dead - todo)
        invariant Swept(w, reg, gs, dead, qs', WorldOf(all)) && Reg() == Cleared(reg, gs, dead, qs')
        decreases todo
      {
        hide Good, WorldOf, Wired, Swept, Cleared, Unused, IdleGroups, IdlePeers, DeadParts, IdsOf, ViewsOf,
          AllInList, GroupsInList;
        var p :| p in todo;
        OnePeerPart(reg, n, dead, todo, p);
        qs' := CollectPart(n, p, w, reg, gs, dead, qs');
        todo := todo - {p};
      }
      assert dead - {} == dead;
    }

    /** One service or protocol is collected if it is unused. */
    method CollectGroup(n: Key, ghost w: World, ghost reg: Registry, ghost gs: set<Key>) returns (ghost gs': set<Key>)
      requires Valid() && Good(w, reg) && n in reg.groups && n !in gs
      requires Swept(w, reg, gs, {}, {}, WorldOf(all)) && Reg() == Cleared(reg, gs, {}, {})
      modifies this`groups, all`rc, all`own, all`refCnt, all`done
      ensures Valid() && Swept(w, reg, gs', {}, {}, WorldOf(all)) && Reg() == Cleared(reg, gs', {}, {})
      ensures reg.groups[n].scope < |w|
      ensures gs' == if n !in stickyProtocols && Unused(w[reg.groups[n].scope]) then gs + {n} else gs
    {
      hide Good, WorldOf, Wired, Swept, Cleared, Finished, Unused, Shaped, IdsOf, ViewsOf, AllInList, GroupsInList;
      gs' := gs;
      GroupUnswept(w, reg, gs, WorldOf(all), n);
      if n in stickyProtocols {
        return;
      }
      GroupEntry(groups, n, all);
      var s := groups[n].scope;
      ViewAt(all, s);
      var unused := s.IsUnused();
      if unused {
        gs' := gs + {n};
        SweepGroup(w, reg, gs, WorldOf(all), n);
        ClearedGroup(reg, gs, n);
        s.Done(all);
        GroupRemove(groups, n, all);
        groups := groups - {n};
      }
    }

    method CollectPeer(p: string, ghost w: World, ghost reg: Registry, ghost gs: set<Key>, ps: set<string>)
      returns (ps': set<string>)
      requires Valid() && Good(w, reg) && p in reg.peers && p !in ps
      requires Swept(w, reg, gs, ps, {}, WorldOf(all)) && Reg() == Cleared(reg, gs, ps, {})
      modifies this`peers, all`rc, all`own, all`refCnt, all`done
      ensures Valid() && Swept(w, reg, gs, ps', {}, WorldOf(all)) && Reg() == Cleared(reg, gs, ps', {})
      ensures reg.peers[p] < |w|
      ensures ps' == if p !in stickyPeers && Unused(w[reg.peers[p]]) then ps + {p} else ps
    {
      hide Good, WorldOf, Wired, Swept, Cleared, Finished, Unused, Shaped, IdsOf, ViewsOf, AllInList, GroupsInList;
      ps' := ps;
      PeerUnswept(w, reg, gs, ps, WorldOf(all), p);
      if p in stickyPeers {
        return;
      }
      PeerEntry(peers, p, all);
      var s := peers[p];
      ViewAt(all, s);
      var unused := s.IsUnused();
      if unused {
        ps' := ps + {p};
        SweepPeer(w, reg, gs, ps, WorldOf(all), p);
        ClearedPeer(reg, gs, ps, p);
        s.Done(all);
        PeerRemove(peers, p, all);
        peers := peers - {p};
      }
    }

    /** What a service or protocol keeps for a dead peer is closed without further checks. */
    method CollectPart(n: Key, p: string, ghost w: World, ghost reg: Registry, ghost gs: set<Key>,
                       ghost ps: set<string>, ghost qs: set<(Key, string)>)
      returns (ghost qs': set<(Key, string)>)
      requires Valid() && n in reg.groups && n !in gs && p in ps && (n, p) !in qs
      requires Swept(w, reg, gs, ps, qs, WorldOf(all)) && Reg() == Cleared(reg, gs, ps, qs)
      modifies this`groups, all`rc, all`own, all`refCnt, all`done
      ensures Valid() && Swept(w, reg, gs, ps, qs', WorldOf(all)) && Reg() == Cleared(reg, gs, ps, qs')
      ensures qs' == if p in reg.groups[n].peers then qs + {(n, p)} else qs
    {
      hide Good, WorldOf, Wired, Swept, Cleared, Finished, Shaped, IdsOf, ViewsOf, AllInList, GroupsInList;
      qs' := qs;
      PartUnswept(reg, gs, ps, qs, n, p);
      GroupEntry(groups, n, all);
      PartEntry(groups, n, p, all);
      if p in groups[n].peers {
        qs' := qs + {(n, p)};
        SweepPart(w, reg, gs, ps, qs, WorldOf(all), n, p);
        ClearedPart(reg, gs, ps, qs, n, p);
        var s := groups[n].peers[p];
        s.Done(all);
        PartRemove(groups, n, p, all);
        groups := groups[n := groups[n].(peers := groups[n].peers - {p})];
      }
    }

    // ---------------------------------------------------------------- what users do to scopes

    /** A user reserves on a scope it was given. */
    method UserReserve(s: ResourceScope, req: Request) returns (err: Option<Error>)
      requires Valid() && s.InList(all) && !req.Bulk?
      requires Shaped(WorldOf(all)) && FitsOn(WorldOf(all), Path(Links(WorldOf(all)), s.id), Delta(req))
      modifies all`rc, all`own
      ensures Valid() && Reg() == old(Reg())
      ensures var w := old(WorldOf(all));
              && Shaped(w) && Known(w, Path(Links(w), s.id)) && err == FirstRefusal(w, Path(Links(w), s.id), req)
              && WorldOf(all) == if err.None? then Reserved(w, s.id, Delta(req)) else w
    {
      hide Good, WorldOf, Wired, Reserved, FirstRefusal, Granted, FitsOn, Shaped, GraphOf, IdsOf, ViewsOf, AllInList,
        GroupsInList;
      ghost var w := WorldOf(all);
      UserReserveParts(w, Reg(), s.id, req);
      err := s.Reserve(req, all);
      if err.None? {
        UserReserveGood(w, Reg(), s.id, req);
      }
    }

    /** A user releases what it holds directly on a scope. */
    method UserRelease(s: ResourceScope, d: Stat)
      requires Valid() && s.InList(all) && Holds(WorldOf(all), Pins(|all|), s.id, d)
      modifies all`rc, all`own
      ensures Valid() && Reg() == old(Reg())
      ensures Shaped(old(WorldOf(all))) && WorldOf(all) == Released(old(WorldOf(all)), s.id, d)
    {
      hide Good, WorldOf, Wired, Released, Holds, Shaped, GraphOf, IdsOf, ViewsOf, AllInList, GroupsInList;
      ghost var w := WorldOf(all);
      GoodParts(w, Reg());
      s.Release(d, all);
      UserReleaseGood(w, Reg(), s.id, d);
    }

    /** A user opens a span under a scope; under a closed one there is none. */
    method UserBeginSpan(s: ResourceScope) returns (span: Option<ResourceScope>)
      requires Valid() && s.InList(all)
      modifies this`all, s`refCnt, s`spanID
      ensures Valid() && Reg() == old(Reg()) && (span.Some? <==> !s.done)
      ensures span.None? ==> all == old(all) && WorldOf(all) == old(WorldOf(all))
      ensures span.Some? ==> fresh(span.value) && all == old(all) + [span.value] && span.value.owner == s
                             && WorldOf(all) == SpanOpened(old(WorldOf(all)), s.id)
    {
      hide Good, WorldOf, Wired, SpanOpened, IdsOf, ViewsOf, AllInList, GroupsInList;
      ghost var w, u := WorldOf(all), all;
      ViewAt(all, s);
      ghost var u';
      span, u' := s.BeginSpan(all);
      if span.Some? {
        InListGrows(peers, groups, u, u');
        UserSpanGood(w, Reg(), s.id);
      }
      all := u';
    }

    /** A user closes a connection, a stream or a span, whatever has been closed before. */
    method UserDone(s: ResourceScope)
      requires Valid() && s.InList(all) && (s.name.Span? <==> s.owner != null)
      requires s.name.Connection? || s.name.Stream? || s.name.Span?
      modifies all`rc, all`own, all`refCnt, s`done
      ensures Valid() && Reg() == old(Reg())
      ensures Shaped(old(WorldOf(all))) && WorldOf(all) == Finished(old(WorldOf(all)), s.id)
    {
      hide Good, WorldOf, Wired, Finished, Shaped, GraphOf, IdsOf, ViewsOf, AllInList, GroupsInList;
      ghost var w := WorldOf(all);
      ViewAt(all, s);
      OwnerAt(s);
      GoodParts(w, Reg());
      if !s.done {
        UserDoneGood(w, Reg(), s.id);
      } else {
        FinishedParts(w, s.id);
      }
      s.Done(all);
    }

    lemma OwnerAt(s: ResourceScope)
      requires s.InList(all)
      ensures WorldOf(all)[s.id].owner.Some? <==> s.owner != null
    {
    }
  }

  lemma ParentalDistinct(w: World, ids: seq<Id>)
    requires Parental(w, ids)
    ensures Distinct(ids)
  {
  }

  lemma TwoIds(a: ResourceScope, b: ResourceScope)
    ensures Ids([a, b]) == [a.id, b.id]
  {
  }

  lemma ThreeIds(a: ResourceScope, b: ResourceScope, c: ResourceScope)
    ensures Ids([a, b, c]) == [a.id, b.id, c.id]
  {
  }

  lemma FourIds(a: ResourceScope, b: ResourceScope, c: ResourceScope, d: ResourceScope)
    ensures Ids([a, b, c, d]) == [a.id, b.id, c.id, d.id]
  {
  }

  lemma SixIds(a: ResourceScope, b: ResourceScope, c: ResourceScope, d: ResourceScope, e: ResourceScope,
               f: ResourceScope)
    ensures Ids([a, b, c, d, e, f]) == [a.id, b.id, c.id, d.id, e.id, f.id]
  {
  }

  /** The scope leaves one parent and has new edges from now on. */
  method LeaveFor(s: ResourceScope, parent: ResourceScope, edges: seq<ResourceScope>, stat: Stat,
                  ghost u: seq<ResourceScope>)
    requires Wired(u) && s.InList(u) && parent.InList(u) && forall e :: e in edges ==> e.InList(u)
    modifies parent`rc, parent`refCnt, s`edges
    ensures Wired(u) && s.edges == edges
    ensures WorldOf(u) == var left := Referenced(RemovedOn(old(WorldOf(u)), [parent.id], [], stat), [parent.id], -1);
                          left[s.id := left[s.id].(edges := Ids(edges))]
  {
    hide WorldOf, Wired, Referenced, RemovedOn, Ids;
    parent.ReleaseForChild(stat, u);
    parent.DecRef(u);
    s.SetEdges(edges, u);
  }

  /** A connection scope. */
  class Connection {
    const rcmgr: ResourceManager
    const scope: ResourceScope
    var isAllowlisted: bool
    var peer: ResourceScope?

    constructor (rcmgr: ResourceManager, scope: ResourceScope, isAllowlisted: bool)
      ensures this.rcmgr == rcmgr && this.scope == scope && this.isAllowlisted == isAllowlisted && peer == null
    {
      this.rcmgr, this.scope, this.isAllowlisted, peer := rcmgr, scope, isAllowlisted, null;
    }

    ghost function TransientId(): Id
      reads this
    {
      if isAllowlisted then ALLOWED_TRANSIENT else TRANSIENT
    }

    ghost function SystemId(): Id
      reads this
    {
      if isAllowlisted then ALLOWED_SYSTEM else SYSTEM
    }

    /** Not yet attached to a peer, the scope counts on the transient and system scopes of its kind. */
    ghost predicate Ready()
      reads this, rcmgr, rcmgr.all
    {
      && rcmgr.Valid() && scope.InList(rcmgr.all) && Attachable(WorldOf(rcmgr.all), scope.id)
      && HasOnly(Ids(scope.edges), TransientId(), SystemId())
    }

    lemma ReadyNow(req: Request, w: World)
      requires rcmgr.Valid() && scope.InList(rcmgr.all) && scope.id == |w|
        && Ids(scope.edges) == [TransientId(), SystemId()]
      requires Tried(w, Name.Connection, rcmgr.limits.conn, Ids(scope.edges), req, None, WorldOf(rcmgr.all))
      ensures Ready()
    {
      hide ResourceManager.Valid, WorldOf, Tried, Ids, Attachable;
      TriedAttachable(w, Name.Connection, rcmgr.limits.conn, Ids(scope.edges), req, WorldOf(rcmgr.all));
    }

    /**
     * The connection leaves the allowlisted scopes for the standard ones; if they refuse, it is left without parents.
     */
    method TransferAllowedToStandard() returns (err: Option<Error>)
      requires Ready() && isAllowlisted
      modifies rcmgr.all`refCnt, rcmgr.all`rc, scope`edges
      ensures rcmgr.Linked()
      ensures Transferred(old(WorldOf(rcmgr.all)), scope.id, err, WorldOf(rcmgr.all))
    {
      hide Good, WorldOf, Wired, Referenced, AddedOn, RemovedOn, Dropped, Attached, Attachable, HasOnly, Verdict,
        Sane, Amount;
      hide AllInList, GroupsInList, Fixed, Tidy;
      ghost var w, u := WorldOf(rcmgr.all), rcmgr.all;
      rcmgr.FixedIds();
      ViewAt(u, scope);
      StrandedFacts(w, rcmgr.Reg(), scope.id);
      var stat := scope.rc;
      scope.DropEdges(stat, u);
      NoIds();
      scope.SetEdges([], u);
      AttachDrop(w, scope.id);
      err := JoinStandard(stat, Stranded(w, scope.id));
    }

    /** The standard system scope first, then the standard transient scope. */
    method JoinStandard(stat: Stat, ghost w: World) returns (err: Option<Error>)
      requires rcmgr.Linked() && WorldOf(rcmgr.all) == w && scope.InList(rcmgr.all) && w[scope.id].rc == stat
      requires scope.id != SYSTEM && scope.id != TRANSIENT && Sane(w[SYSTEM].rc) && Sane(w[TRANSIENT].rc)
        && Amount(stat)
      requires !w[SYSTEM].done
      modifies rcmgr.all`refCnt, rcmgr.all`rc, scope`edges
      ensures rcmgr.Linked()
      ensures var first, second := Verdict(w[SYSTEM], Bulk(stat)), Verdict(w[TRANSIENT], Bulk(stat));
              && err == (if first.Some? then first else second)
              && WorldOf(rcmgr.all) == if err.Some? then w
                                       else Attached(w, scope.id, [SYSTEM, TRANSIENT], [], [SYSTEM, TRANSIENT])
    {
      hide WorldOf, Wired, Referenced, AddedOn, RemovedOn, Attached, Verdict, Sane, Amount, AllInList, GroupsInList;
      ghost var u := rcmgr.all;
      rcmgr.FixedIds();
      AttachTwo(w, scope.id, SYSTEM, TRANSIENT, [SYSTEM, TRANSIENT]);
      var systemScope, transientScope := rcmgr.system, rcmgr.transient;
      ViewAt(u, systemScope);
      err := systemScope.ReserveAllForChild(stat, u);
      if err.Some? {
        return;
      }
      systemScope.IncRef(u);
      ViewAt(u, transientScope);
      err := transientScope.ReserveAllForChild(stat, u);
      if err.Some? {
        systemScope.ReleaseForChild(stat, u);
        systemScope.DecRef(u);
        return;
      }
      transientScope.IncRef(u);
      TwoIds(systemScope, transientScope);
      scope.SetEdges([systemScope, transientScope], u);
    }

    /**
     * Attaches the connection to a peer; `matches` says whether the allowlist has this peer at this address. The
     * ghost result is the state after a transfer to the standard scopes, if there was one.
     */
    method SetPeer(p: string, matches: bool) returns (err: Option<SetError>, ghost mid: World)
      requires peer == null ==> Ready() && Takes(WorldOf(rcmgr.all), scope.rc)
      requires peer == null && isAllowlisted && !matches ==>
        && Fits(rcmgr.system.limit, rcmgr.system.rc, scope.rc)
        && Fits(rcmgr.transient.limit, rcmgr.transient.rc, scope.rc)
      modifies this`peer, this`isAllowlisted, rcmgr`peers, rcmgr`all, rcmgr.all`refCnt, rcmgr.all`rc, scope`edges
      ensures old(rcmgr.all) <= rcmgr.all
      ensures forall i :: 0 <= i < |rcmgr.all| ==> rcmgr.all[i] in old(rcmgr.all) || fresh(rcmgr.all[i])
      ensures old(peer) != null ==>
        err == Some(AlreadyAttached) && unchanged(this) && unchanged(rcmgr) && unchanged(rcmgr.all)
      ensures old(peer) == null ==> rcmgr.Valid()
      ensures old(peer) == null && !(old(isAllowlisted) && !matches) ==>
        && mid == old(WorldOf(rcmgr.all)) && isAllowlisted == old(isAllowlisted)
        && (err.Some? ==> err.value.Refused? && peer == null)
        && PeerSet(mid, old(rcmgr.Reg()), p, rcmgr.limits.peer(p), scope.id, old(TransientId()), old(SystemId()),
                   Reason(err), WorldOf(rcmgr.all), rcmgr.Reg())
      ensures old(peer) == null && old(isAllowlisted) && !matches ==>
        && !isAllowlisted && |mid| == |old(rcmgr.all)| && (err.Some? ==> err.value.Refused? && peer == null)
        && ((Transferred(old(WorldOf(rcmgr.all)), scope.id, Reason(err), mid) && err.Some?
               && WorldOf(rcmgr.all) == mid && rcmgr.Reg() == old(rcmgr.Reg()) && scope.edges == [])
            || (Transferred(old(WorldOf(rcmgr.all)), scope.id, None, mid)
               && PeerSet(mid, old(rcmgr.Reg()), p, rcmgr.limits.peer(p), scope.id, TRANSIENT, SYSTEM,
                          Reason(err), WorldOf(rcmgr.all), rcmgr.Reg())))
    {
      hide Good, WorldOf, Wired, Attachable, HasOnly, Takes, Fits, Transferred, PeerSet, AllInList, GroupsInList;
      mid := WorldOf(rcmgr.all);
      if peer != null {
        return Some(AlreadyAttached), mid;
      }
      rcmgr.FixedIds();
      var system, transient := rcmgr.system, rcmgr.transient;
      if isAllowlisted {
        system, transient := rcmgr.allowedSystem, rcmgr.allowedTransient;
        if !matches {
          ghost var w := WorldOf(rcmgr.all);
          ViewAt(rcmgr.all, scope);
          ViewAt(rcmgr.all, rcmgr.system);
          ViewAt(rcmgr.all, rcmgr.transient);
          var refused := TransferAllowedToStandard();
          mid := WorldOf(rcmgr.all);
          isAllowlisted := false;
          TransferredGood(w, rcmgr.Reg(), scope.id, refused, mid);
          ViewAt(rcmgr.all, scope);
          NoEdges(scope);
          if refused.Some? {
            return Some(Refused(refused.value)), mid;
          }
          system, transient := rcmgr.system, rcmgr.transient;
        }
      }
      var refused := JoinPeer(p, transient, system);
      err := if refused.Some? then Some(Refused(refused.value)) else None;
    }

    /** The connection moves from the transient scope to that of its peer, or nothing changes. */
    method JoinPeer(p: string, transient: ResourceScope, system: ResourceScope) returns (err: Option<Error>)
      requires Ready() && Takes(WorldOf(rcmgr.all), scope.rc) && peer == null
      requires transient.InList(rcmgr.all) && transient.id == TransientId()
      requires system.InList(rcmgr.all) && system.id == SystemId()
      modifies this`peer, rcmgr`peers, rcmgr`all, rcmgr.all`refCnt, rcmgr.all`rc, scope`edges
      ensures old(rcmgr.all) <= rcmgr.all
      ensures forall i :: 0 <= i < |rcmgr.all| ==> rcmgr.all[i] in old(rcmgr.all) || fresh(rcmgr.all[i])
      ensures rcmgr.Valid()
      ensures PeerSet(old(WorldOf(rcmgr.all)), old(rcmgr.Reg()), p, rcmgr.limits.peer(p), scope.id, transient.id,
                      system.id, err, WorldOf(rcmgr.all), rcmgr.Reg())
      ensures peer == if err.Some? then null else rcmgr.peers[p]
    {
      hide Takes, Sane, Amount, Verdict, Attachable, HasOnly, WorldOf, Good, Wired, Referenced, AddedOn, RemovedOn,
        Attached;
      hide PeerKnown, PeerBooked, IdsOf, ViewsOf, AllInList, GroupsInList;
      ghost var w, reg := WorldOf(rcmgr.all), rcmgr.Reg();
      ghost var limit, t, y := rcmgr.limits.peer(p), transient.id, system.id;
      ViewAt(rcmgr.all, scope);
      PeerSetBegin(w, reg, p, limit, scope.id, t, y);
      err := MoveToPeer(p, transient, system);
      PeerSetGood(w, reg, p, limit, scope.id, t, y, err, WorldOf(rcmgr.all), rcmgr.Reg());
    }

    /** The steps of SetPeer, from looking up the scope of the peer to the new edges. */
    method MoveToPeer(p: string, transient: ResourceScope, system: ResourceScope) returns (err: Option<Error>)
      requires rcmgr.Linked() && scope.InList(rcmgr.all) && transient.InList(rcmgr.all) && system.InList(rcmgr.all)
      requires var w, reg, s, t := WorldOf(rcmgr.all), rcmgr.Reg(), scope.id, transient.id;
               var w1, reg1 := PeerKnown(w, reg, p, rcmgr.limits.peer(p)), PeerBooked(reg, p, |w|);
               && p in reg1.peers && s < |w1| && t < |w1| && s != t && w1[s].rc == w[s].rc
               && var e := reg1.peers[p]; e < |w1| && e != s && e != t && Sane(w1[e].rc) && Amount(w[s].rc)
      modifies this`peer, rcmgr`peers, rcmgr`all, rcmgr.all`refCnt, rcmgr.all`rc, scope`edges
      ensures old(rcmgr.all) <= rcmgr.all
      ensures forall i :: 0 <= i < |rcmgr.all| ==> rcmgr.all[i] in old(rcmgr.all) || fresh(rcmgr.all[i])
      ensures rcmgr.Linked()
      ensures PeerSet(old(WorldOf(rcmgr.all)), old(rcmgr.Reg()), p, rcmgr.limits.peer(p), scope.id, transient.id,
                      system.id, err, WorldOf(rcmgr.all), rcmgr.Reg())
      ensures peer == if err.Some? then old(peer) else rcmgr.peers[p]
    {
      hide Sane, Amount, Verdict, WorldOf, Wired, Referenced, AddedOn, RemovedOn, Attached;
      hide PeerKnown, PeerBooked, IdsOf, ViewsOf, AllInList, GroupsInList;
      ghost var w1 := PeerKnown(WorldOf(rcmgr.all), rcmgr.Reg(), p, rcmgr.limits.peer(p));
      ViewAt(rcmgr.all, scope);
      var s := rcmgr.GetPeerScope(p);
      PeerEntry(rcmgr.peers, p, rcmgr.all);
      AttachOne(w1, scope.id, s.id, transient.id, [s.id, system.id]);
      ViewAt(rcmgr.all, s);
      var stat := scope.rc;
      err := s.ReserveAllForChild(stat, rcmgr.all);
      LeaveOrGiveUp(s, err, transient, system, stat, w1, rcmgr.all);
    }

    /** A refused peer scope is let go again; otherwise the scope leaves the transient scope for that of the peer. */
    method LeaveOrGiveUp(s: ResourceScope, err: Option<Error>, transient: ResourceScope, system: ResourceScope,
                         stat: Stat, ghost w: World, ghost u: seq<ResourceScope>)
      requires Wired(u) && scope.InList(u) && s.InList(u) && transient.InList(u) && system.InList(u) && |u| == |w|
      requires s.id != scope.id && s.id != transient.id && scope.id != transient.id && stat == w[scope.id].rc
      requires WorldOf(u) == if err.Some? then Referenced(w, [s.id], 1)
                             else AddedOn(Referenced(w, [s.id], 1), [s.id], [], stat)
      modifies this`peer, s`refCnt, transient`rc, transient`refCnt, scope`edges
      ensures Wired(u)
      ensures WorldOf(u) == if err.Some? then w else Attached(w, scope.id, [s.id], [transient.id], [s.id, system.id])
      ensures peer == if err.Some? then old(peer) else s
    {
      hide WorldOf, Wired, Referenced, AddedOn, RemovedOn, Attached;
      AttachOne(w, scope.id, s.id, transient.id, [s.id, system.id]);
      if err.Some? {
        s.DecRef(u);
      } else {
        peer := s;
        TwoIds(s, system);
        LeaveFor(scope, transient, [s, system], stat, u);
      }
    }
  }

  /** A stream scope; it belongs to a peer from the start. */
  class StreamScope {
    const rcmgr: ResourceManager
    const scope: ResourceScope
    const peerName: string
    const peer: ResourceScope
    var proto: Option<Key>
    var svc: Option<Key>
    var protoScope: ResourceScope?
    var svcScope: ResourceScope?
    var peerProtoScope: ResourceScope?
    var peerSvcScope: ResourceScope?

    constructor (rcmgr: ResourceManager, scope: ResourceScope, peerName: string, peer: ResourceScope)
      ensures this.rcmgr == rcmgr && this.scope == scope && this.peerName == peerName && this.peer == peer
      ensures proto == None && svc == None
    {
      this.rcmgr, this.scope, this.peerName, this.peer := rcmgr, scope, peerName, peer;
      proto, svc, protoScope, svcScope, peerProtoScope, peerSvcScope := None, None, null, null, null, null;
    }

    /** Before SetProtocol: the stream counts on its peer and on the transient scope. */
    ghost predicate OnTransient()
      reads this, rcmgr, rcmgr.all
    {
      && rcmgr.Valid() && scope.InList(rcmgr.all) && Attachable(WorldOf(rcmgr.all), scope.id)
      && peerName in rcmgr.peers && rcmgr.peers[peerName] == peer
      && Ids(scope.edges) == [peer.id, TRANSIENT, SYSTEM]
    }

    lemma ReadyNow(req: Request, w: World)
      requires rcmgr.Valid() && scope.InList(rcmgr.all) && scope.id == |w|
      requires peerName in rcmgr.peers && rcmgr.peers[peerName] == peer
        && Ids(scope.edges) == [peer.id, TRANSIENT, SYSTEM]
      requires Tried(w, Stream(peerName), rcmgr.limits.stream(peerName), Ids(scope.edges), req, None,
                     WorldOf(rcmgr.all))
      ensures OnTransient()
    {
      hide ResourceManager.Valid, WorldOf, Tried, Ids, Attachable;
      TriedAttachable(w, Stream(peerName), rcmgr.limits.stream(peerName), Ids(scope.edges), req, WorldOf(rcmgr.all));
    }

    /**
     * Between SetProtocol and SetService: the stream counts on its peer, its protocol and the part of it for the peer.
     */
    ghost predicate OnProtocol()
      reads this, rcmgr, rcmgr.all
    {
      && rcmgr.Valid() && scope.InList(rcmgr.all) && Attachable(WorldOf(rcmgr.all), scope.id)
      && peerName in rcmgr.peers && rcmgr.peers[peerName] == peer
      && protoScope != null && protoScope.InList(rcmgr.all) && peerProtoScope != null
          && peerProtoScope.InList(rcmgr.all)
      && proto.Some? && proto.value.Protocol? && protoScope.name == Shared(proto.value)
      && peerProtoScope.name == PerPeer(proto.value, peerName)
      && Ids(scope.edges) == [peer.id, peerProtoScope.id, protoScope.id, SYSTEM]
    }

    method SetProtocol(name: string) returns (err: Option<SetError>)
      requires proto.None? ==> OnTransient() && Takes(WorldOf(rcmgr.all), scope.rc)
      modifies this, rcmgr`groups, rcmgr`all, rcmgr.all`refCnt, rcmgr.all`rc, scope`edges
      ensures old(rcmgr.all) <= rcmgr.all
      ensures forall i :: 0 <= i < |rcmgr.all| ==> rcmgr.all[i] in old(rcmgr.all) || fresh(rcmgr.all[i])
      ensures old(proto).Some? ==>
        err == Some(AlreadyAttached) && unchanged(this) && unchanged(rcmgr) && unchanged(rcmgr.all)
      ensures old(proto).None? ==>
        && rcmgr.Valid() && (err.Some? ==> err.value.Refused?)
            && proto == (if err.Some? then None else Some(Protocol(name)))
        && GroupSet(old(WorldOf(rcmgr.all)), old(rcmgr.Reg()), Protocol(name), peerName,
                    rcmgr.limits.group(Protocol(name)), rcmgr.limits.part(Protocol(name)), scope.id, [TRANSIENT],
                    [peer.id], [], Reason(err), WorldOf(rcmgr.all), rcmgr.Reg())
    {
      if proto.Some? {
        return Some(AlreadyAttached);
      }
      hide Good, WorldOf, Wired, GroupSet, AllInList, GroupsInList, Takes, Attachable;
      var refused := AttachProtocol(Protocol(name));
      err := if refused.Some? then Some(Refused(refused.value)) else None;
    }

    method AttachProtocol(n: Key) returns (err: Option<Error>)
      requires proto.None? && OnTransient() && Takes(WorldOf(rcmgr.all), scope.rc)
      modifies this`proto, this`protoScope, this`peerProtoScope
      modifies rcmgr`groups, rcmgr`all, rcmgr.all`refCnt, rcmgr.all`rc, scope`edges
      ensures old(rcmgr.all) <= rcmgr.all
      ensures forall i :: 0 <= i < |rcmgr.all| ==> rcmgr.all[i] in old(rcmgr.all) || fresh(rcmgr.all[i])
      ensures rcmgr.Valid() && proto == if err.Some? then None else Some(n)
      ensures GroupSet(old(WorldOf(rcmgr.all)), old(rcmgr.Reg()), n, peerName, rcmgr.limits.group(n),
                       rcmgr.limits.part(n), scope.id, [TRANSIENT], [peer.id], [], err, WorldOf(rcmgr.all), rcmgr.Reg())
    {
      hide Good, WorldOf, Wired, Joinable, GroupJoined, GroupSet, GroupEdges, AllInList, GroupsInList, Referenced,
        RemovedOn, Takes, Attachable, IdsOf, ViewsOf;
      ghost var w, reg, lim1, lim2 := WorldOf(rcmgr.all), rcmgr.Reg(), rcmgr.limits.group(n), rcmgr.limits.part(n);
      ViewAt(rcmgr.all, scope);
      ProtocolJoinable(n);
      PeerEntry(rcmgr.peers, peerName, rcmgr.all);
      var c, q;
      var stat := scope.rc;
      err, c, q := JoinGroup(n, [TRANSIENT], [peer.id], []);
      GroupSettled(w, reg, n, peerName, lim1, lim2, scope.id, [peer.id], [], err, WorldOf(rcmgr.all), rcmgr.Reg());
      if err.None? {
        JoinedNames(w, reg, n, peerName, lim1, lim2, scope.id, [TRANSIENT], [peer.id], [], err, WorldOf(rcmgr.all),
                    rcmgr.Reg());
        SettleProtocol(n, c, q, stat);
      }
      GroupSetGood(w, reg, n, peerName, lim1, lim2, scope.id, [TRANSIENT], [peer.id], [], err,
                   WorldOf(rcmgr.all), rcmgr.Reg());
    }

    /** The stream leaves the transient scope for its protocol. */
    method SettleProtocol(n: Key, c: ResourceScope, q: ResourceScope, stat: Stat)
      requires rcmgr.Linked() && scope.InList(rcmgr.all) && peer.InList(rcmgr.all) && c.InList(rcmgr.all)
        && q.InList(rcmgr.all)
      modifies this`proto, this`protoScope, this`peerProtoScope
      modifies rcmgr.transient`refCnt, rcmgr.transient`rc, scope`edges
      ensures rcmgr.Linked() && proto == Some(n) && protoScope == c && peerProtoScope == q
        && scope.edges == [peer, q, c, rcmgr.system]
      ensures WorldOf(rcmgr.all) ==
        var left := Referenced(RemovedOn(old(WorldOf(rcmgr.all)), [TRANSIENT], [], stat), [TRANSIENT], -1);
        left[scope.id := left[scope.id].(edges := GroupEdges([peer.id], q.id, [], c.id))]
    {
      hide WorldOf, Wired, AllInList, GroupsInList, Referenced, RemovedOn;
      rcmgr.FixedIds();
      proto, protoScope, peerProtoScope := Some(n), c, q;
      FourIds(peer, q, c, rcmgr.system);
      ProtocolEdges(peer.id, q.id, c.id);
      LeaveFor(scope, rcmgr.transient, [peer, q, c, rcmgr.system], stat, rcmgr.all);
    }

    lemma ProtocolJoinable(n: Key)
      requires OnTransient() && Takes(WorldOf(rcmgr.all), scope.rc)
      ensures Joinable(WorldOf(rcmgr.all), rcmgr.Reg(), n, peerName, scope.id, [TRANSIENT], [peer.id], [])
    {
      hide Good, Takes, Attachable, Joinable, WorldOf, Wired, IdsOf, ViewsOf, AllInList, GroupsInList, Ids;
      ViewAt(rcmgr.all, scope);
      PeerEntry(rcmgr.peers, peerName, rcmgr.all);
      JoinableProtocol(WorldOf(rcmgr.all), rcmgr.Reg(), n, peerName, scope.id);
    }

    method SetService(name: string) returns (err: Option<SetError>)
      requires svc.None? && proto.Some? ==> OnProtocol() && Takes(WorldOf(rcmgr.all), scope.rc)
      modifies this, rcmgr`groups, rcmgr`all, rcmgr.all`refCnt, rcmgr.all`rc, scope`edges
      ensures old(rcmgr.all) <= rcmgr.all
      ensures forall i :: 0 <= i < |rcmgr.all| ==> rcmgr.all[i] in old(rcmgr.all) || fresh(rcmgr.all[i])
      ensures old(svc).Some? || old(proto).None? ==>
        && err == Some(if old(svc).Some? then AlreadyAttached else NoProtocol)
        && unchanged(this) && unchanged(rcmgr) && unchanged(rcmgr.all)
      ensures old(svc).None? && old(proto).Some? ==>
        && rcmgr.Valid() && (err.Some? ==> err.value.Refused?)
            && svc == (if err.Some? then None else Some(Service(name)))
        && GroupSet(old(WorldOf(rcmgr.all)), old(rcmgr.Reg()), Service(name), peerName,
                    rcmgr.limits.group(Service(name)), rcmgr.limits.part(Service(name)), scope.id, [], old(Front()),
                    old(Mid()), Reason(err), WorldOf(rcmgr.all), rcmgr.Reg())
    {
      if svc.Some? {
        return Some(AlreadyAttached);
      }
      if proto.None? {
        return Some(NoProtocol);
      }
      hide Good, WorldOf, Wired, GroupSet, AllInList, GroupsInList, Takes, Attachable;
      var refused := AttachService(Service(name));
      err := if refused.Some? then Some(Refused(refused.value)) else None;
    }

    ghost function Front(): seq<Id>
      reads this
    {
      if peerProtoScope == null then [peer.id] else [peer.id, peerProtoScope.id]
    }

    ghost function Mid(): seq<Id>
      reads this
    {
      if protoScope == null then [] else [protoScope.id]
    }

    method AttachService(n: Key) returns (err: Option<Error>)
      requires svc.None? && n.Service? && OnProtocol() && Takes(WorldOf(rcmgr.all), scope.rc)
      modifies this`svc, this`svcScope, this`peerSvcScope
      modifies rcmgr`groups, rcmgr`all, rcmgr.all`refCnt, rcmgr.all`rc, scope`edges
      ensures old(rcmgr.all) <= rcmgr.all
      ensures forall i :: 0 <= i < |rcmgr.all| ==> rcmgr.all[i] in old(rcmgr.all) || fresh(rcmgr.all[i])
      ensures rcmgr.Valid() && svc == if err.Some? then None else Some(n)
      ensures GroupSet(old(WorldOf(rcmgr.all)), old(rcmgr.Reg()), n, peerName, rcmgr.limits.group(n),
                       rcmgr.limits.part(n), scope.id, [], old(Front()), old(Mid()), err, WorldOf(rcmgr.all),
                       rcmgr.Reg())
    {
      hide Good, WorldOf, Wired, Joinable, GroupJoined, GroupSet, GroupEdges, AllInList, GroupsInList, Referenced,
        RemovedOn, Takes, Attachable, IdsOf, ViewsOf;
      ghost var w, reg, lim1, lim2 := WorldOf(rcmgr.all), rcmgr.Reg(), rcmgr.limits.group(n), rcmgr.limits.part(n);
      ghost var front, mid := Front(), Mid();
      ViewAt(rcmgr.all, scope);
      ServiceJoinable(n);
      PeerEntry(rcmgr.peers, peerName, rcmgr.all);
      var c, q;
      err, c, q := JoinGroup(n, [], front, mid);
      GroupSettled(w, reg, n, peerName, lim1, lim2, scope.id, front, mid, err, WorldOf(rcmgr.all), rcmgr.Reg());
      if err.None? {
        SettleService(n, c, q);
      }
      GroupSetGood(w, reg, n, peerName, lim1, lim2, scope.id, [], front, mid, err, WorldOf(rcmgr.all), rcmgr.Reg());
    }

    /** The stream keeps all its parents and counts on its service as well. */
    method SettleService(n: Key, c: ResourceScope, q: ResourceScope)
      requires rcmgr.Linked() && scope.InList(rcmgr.all) && peer.InList(rcmgr.all) && c.InList(rcmgr.all)
        && q.InList(rcmgr.all)
      requires protoScope != null && protoScope.InList(rcmgr.all) && peerProtoScope != null
        && peerProtoScope.InList(rcmgr.all)
      modifies this`svc, this`svcScope, this`peerSvcScope, scope`edges
      ensures rcmgr.Linked() && svc == Some(n) && svcScope == c && peerSvcScope == q
      ensures scope.edges == [peer, peerProtoScope, q, protoScope, c, rcmgr.system]
      ensures WorldOf(rcmgr.all) ==
        var w := old(WorldOf(rcmgr.all)); w[scope.id := w[scope.id].(edges := GroupEdges(Front(), q.id, Mid(), c.id))]
    {
      hide WorldOf, Wired, AllInList, GroupsInList;
      rcmgr.FixedIds();
      svc, svcScope, peerSvcScope := Some(n), c, q;
      SixIds(peer, peerProtoScope, q, protoScope, c, rcmgr.system);
      ServiceEdges(peer.id, peerProtoScope.id, q.id, protoScope.id, c.id);
      scope.SetEdges([peer, peerProtoScope, q, protoScope, c, rcmgr.system], rcmgr.all);
    }

    lemma ServiceJoinable(n: Key)
      requires OnProtocol() && n.Service? && Takes(WorldOf(rcmgr.all), scope.rc)
      ensures Joinable(WorldOf(rcmgr.all), rcmgr.Reg(), n, peerName, scope.id, [], Front(), Mid())
    {
      hide Good, Takes, Attachable, Joinable, WorldOf, Wired, IdsOf, ViewsOf, AllInList, GroupsInList, Ids;
      var w, reg := WorldOf(rcmgr.all), rcmgr.Reg();
      ViewAt(rcmgr.all, scope);
      ViewAt(rcmgr.all, protoScope);
      ViewAt(rcmgr.all, peerProtoScope);
      PeerEntry(rcmgr.peers, peerName, rcmgr.all);
      JoinableService(w, reg, n, proto.value, peerName, scope.id, peerProtoScope.id, protoScope.id);
    }

    /** The steps SetProtocol and SetService share: both new parents are looked up and charged, or none is. */
    method JoinGroup(n: Key, ghost leaves: seq<Id>, ghost front: seq<Id>, ghost mid: seq<Id>)
      returns (err: Option<Error>, c: ResourceScope, q: ResourceScope?)
      requires rcmgr.Valid() && scope.InList(rcmgr.all)
      requires Joinable(WorldOf(rcmgr.all), rcmgr.Reg(), n, peerName, scope.id, leaves, front, mid)
      modifies rcmgr`groups, rcmgr`all, rcmgr.all`refCnt, rcmgr.all`rc
      ensures forall x :: x in rcmgr.all ==> x in old(rcmgr.all) || fresh(x)
      ensures rcmgr.Linked() && old(rcmgr.all) <= rcmgr.all
      ensures GroupJoined(old(WorldOf(rcmgr.all)), old(rcmgr.Reg()), n, peerName, rcmgr.limits.group(n),
                          rcmgr.limits.part(n), scope.id, err, WorldOf(rcmgr.all), rcmgr.Reg())
      ensures err.None? ==> q != null && n in rcmgr.Reg().groups && peerName in rcmgr.Reg().groups[n].peers
                            && c.InList(rcmgr.all) && c.id == rcmgr.Reg().groups[n].scope
                            && q.InList(rcmgr.all) && q.id == rcmgr.Reg().groups[n].peers[peerName]
    {
      hide Good, Joinable, WorldOf, Attached, Verdict, Sane, Amount;
      hide GroupKnown, GroupBooked, PartKnown, PartBooked, IdsOf, ViewsOf, AllInList, GroupsInList;
      ghost var w, reg, s := WorldOf(rcmgr.all), rcmgr.Reg(), scope.id;
      ghost var w1, reg1 := GroupKnown(w, reg, n, rcmgr.limits.group(n)), GroupBooked(reg, n, |w|);
      ViewAt(rcmgr.all, scope);
      JoinableIs(w, reg, n, peerName, s, leaves, front, mid);
      GroupKnownJoinable(w, reg, n, peerName, rcmgr.limits.group(n), s, leaves, front, mid);
      err, c := ReserveGroup(n);
      q := null;
      if err.None? {
        PartKnownJoinable(w1, reg1, n, peerName, rcmgr.limits.part(n), s, leaves, front, mid);
        assert forall i :: 0 <= i < |rcmgr.all| ==> rcmgr.all[i] in old(rcmgr.all) || fresh(rcmgr.all[i]);
        err, q := ReservePart(n, c, w1);
      }
    }

    /** The service or protocol is looked up and charged. */
    method ReserveGroup(n: Key) returns (err: Option<Error>, c: ResourceScope)
      requires rcmgr.Linked() && scope.InList(rcmgr.all)
      requires var w, reg := WorldOf(rcmgr.all), rcmgr.Reg();
               var w1, reg1 := GroupKnown(w, reg, n, rcmgr.limits.group(n)), GroupBooked(reg, n, |w|);
               && n in reg1.groups && |w| <= |w1| && w1[scope.id] == w[scope.id] && Amount(w[scope.id].rc)
               && var e := reg1.groups[n].scope; e < |w1| && e != scope.id && Sane(w1[e].rc)
      modifies rcmgr`groups, rcmgr`all, rcmgr.all`refCnt, rcmgr.all`rc
      ensures forall x :: x in rcmgr.all ==> x in old(rcmgr.all) || fresh(x)
      ensures rcmgr.Linked() && old(rcmgr.all) <= rcmgr.all && c.InList(rcmgr.all) && n in rcmgr.groups
      ensures var w, reg := old(WorldOf(rcmgr.all)), old(rcmgr.Reg());
              var w1 := GroupKnown(w, reg, n, rcmgr.limits.group(n));
              && rcmgr.Reg() == GroupBooked(reg, n, |w|) && n in rcmgr.Reg().groups
                  && c.id == rcmgr.Reg().groups[n].scope
              && c.id < |w1| && err == Verdict(w1[c.id], Bulk(w[scope.id].rc))
              && WorldOf(rcmgr.all) == if err.Some? then w1 else Attached(w1, scope.id, [c.id], [], w[scope.id].edges)
    {
      hide WorldOf, Wired, Referenced, AddedOn, Attached, Verdict, Sane, Amount;
      hide GroupKnown, GroupBooked, IdsOf, ViewsOf, AllInList, GroupsInList;
      ghost var w1 := GroupKnown(WorldOf(rcmgr.all), rcmgr.Reg(), n, rcmgr.limits.group(n));
      ViewAt(rcmgr.all, scope);
      c := rcmgr.GetGroupScope(n);
      GroupEntry(rcmgr.groups, n, rcmgr.all);
      AttachFirst(w1, scope.id, c.id);
      ViewAt(rcmgr.all, c);
      var stat := scope.rc;
      err := c.ReserveAllForChild(stat, rcmgr.all);
      if err.Some? {
        c.DecRef(rcmgr.all);
      }
    }

    /** The part for the peer is looked up and charged; if it refuses, the service or protocol is let go as well. */
    method ReservePart(n: Key, c: ResourceScope, ghost w1: World) returns (err: Option<Error>, q: ResourceScope)
      requires rcmgr.Linked() && scope.InList(rcmgr.all) && c.InList(rcmgr.all) && n in rcmgr.groups
      requires var s := scope.id;
               && |w1| == |rcmgr.all| && c.id != s && !w1[c.id].done && Sane(w1[c.id].rc) && Amount(w1[s].rc)
               && n in rcmgr.Reg().groups
               && WorldOf(rcmgr.all) == Attached(w1, s, [c.id], [], w1[s].edges)
               && var w2, reg2 := PartKnown(w1, rcmgr.Reg(), n, peerName, rcmgr.limits.part(n)),
                   PartBooked(rcmgr.Reg(), n, peerName, |w1|);
               && n in reg2.groups && peerName in reg2.groups[n].peers && |w1| <= |w2| && w2[s] == w1[s]
                   && w2[c.id] == w1[c.id]
               && var e := reg2.groups[n].peers[peerName]; e < |w2| && e != s && e != c.id && Sane(w2[e].rc)
      modifies rcmgr`groups, rcmgr`all, rcmgr.all`refCnt, rcmgr.all`rc
      ensures forall x :: x in rcmgr.all ==> x in old(rcmgr.all) || fresh(x)
      ensures rcmgr.Linked() && old(rcmgr.all) <= rcmgr.all && c.InList(rcmgr.all) && q.InList(rcmgr.all)
      ensures var reg, s := old(rcmgr.Reg()), scope.id;
              var w2 := PartKnown(w1, reg, n, peerName, rcmgr.limits.part(n));
              && rcmgr.Reg() == PartBooked(reg, n, peerName, |w1|)
              && n in rcmgr.Reg().groups && peerName in rcmgr.Reg().groups[n].peers
                  && q.id == rcmgr.Reg().groups[n].peers[peerName]
              && q.id < |w2| && err == Verdict(w2[q.id], Bulk(w1[s].rc))
              && WorldOf(rcmgr.all) == if err.Some? then w2 else Attached(w2, s, [c.id, q.id], [], w1[s].edges)
    {
      hide WorldOf, Wired, Referenced, AddedOn, RemovedOn, Attached, Verdict, Sane, Amount;
      hide PartKnown, PartBooked, IdsOf, ViewsOf, AllInList, GroupsInList;
      ghost var w2, s := PartKnown(w1, rcmgr.Reg(), n, peerName, rcmgr.limits.part(n)), scope.id;
      ViewAt(rcmgr.all, scope);
      PartKnownAttached(w1, rcmgr.Reg(), n, peerName, rcmgr.limits.part(n), s, c.id);
      AttachedElsewhere(w1, s, [c.id], [], w1[s].edges);
      q := rcmgr.GetPartScope(n, peerName);
      PartEntry(rcmgr.groups, n, peerName, rcmgr.all);
      AttachSecond(w2, s, c.id, q.id);
      ViewAt(rcmgr.all, q);
      var stat := scope.rc;
      err := q.ReserveAllForChild(stat, rcmgr.all);
      if err.Some? {
        c.ReleaseForChild(stat, rcmgr.all);
        c.DecRef(rcmgr.all);
        q.DecRef(rcmgr.all);
      }
    }
  }

  datatype SetError = AlreadyAttached | NoProtocol | Refused(error: Error)

  function Reason(err: Option<SetError>): Option<Error> {
    if err.Some? && err.value.Refused? then Some(err.value.error) else None
  }

  lemma NoEdges(s: ResourceScope)
    ensures Ids(s.edges) == [] ==> s.edges == []
    ensures Ids(s.edges) == [SYSTEM, TRANSIENT] ==> HasOnly(Ids(s.edges), TRANSIENT, SYSTEM)
  {
    assert |Ids(s.edges)| == |s.edges|;
  }

  lemma OneId(s: ResourceScope)
    ensures Ids([s]) == [s.id]
  {
  }

  lemma NoIds()
    ensures Ids([]) == []
    ensures Wired([]) && WorldOf([]) == []
  {
  }
}
