/**
 * The resource scope as an object: reservations with rollback, releases, spans and closing
 * (p2p/host/resource-manager/scope.go). `u` is the list of all scopes ever created.
 *
 * The source spells every operation out for memory, streams and connections; the three spellings differ only in
 * which counters they check and change, which here is the request or the amount that is passed along.
 */
module Scopes {
  import opened Common
  import opened Int64
  import opened Resources
  import opened Ledgers
  import opened Accounts

  class ResourceScope {
    /** The number of the scope in `u`; the proofs follow it. */
    ghost const id: Id
    const name: Name
    const limit: Limit
    const owner: ResourceScope?
    var done: bool
    var refCnt: int
    var spanID: nat
    var rc: Stat
    var edges: seq<ResourceScope>
    ghost var own: Stat

    constructor (ghost id: Id, name: Name, limit: Limit, owner: ResourceScope?, edges: seq<ResourceScope>)
      ensures this.id == id
      ensures View() == Fresh(name, limit, if owner == null then None else Some(owner.id), Ids(edges))
      ensures this.owner == owner && this.edges == edges
    {
      this.id, this.name, this.limit, this.owner, this.edges := id, name, limit, owner, edges;
      done, refCnt, spanID, rc, own := false, 0, 0, ZERO, ZERO;
    }

    ghost function View(): Scope
      reads this
    {
      Scope(name, limit, rc, own, refCnt, done, spanID, if owner == null then None else Some(owner.id), Ids(edges))
    }

    // ---------------------------------------------------------------- one scope at a time

    ghost predicate InList(u: seq<ResourceScope>) { id < |u| && u[id] == this }

    /** A single request of a child. */
    method ReserveForChild(req: Request, ghost u: seq<ResourceScope>) returns (err: Option<Error>)
      requires Wired(u) && InList(u) && !req.Bulk?
      modifies this`rc
      ensures Wired(u)
      ensures err == Verdict(old(WorldOf(u))[id], req)
      ensures WorldOf(u) == if err.None? then AddedOn(old(WorldOf(u)), [id], [], Delta(req)) else old(WorldOf(u))
    {
      if done {
        return Some(ScopeClosed);
      }
      err := Check(limit, rc, req);
      if err.None? {
        rc := Add(rc, Delta(req));
      }
    }

    /** All that a child holds, memory first; what was granted is undone when a later part is refused. */
    method ReserveAllForChild(st: Stat, ghost u: seq<ResourceScope>) returns (err: Option<Error>)
      requires Wired(u) && InList(u) && Sane(rc) && Amount(st)
      modifies this`rc
      ensures Wired(u)
      ensures err == Verdict(old(WorldOf(u))[id], Bulk(st))
      ensures WorldOf(u) == if err.None? then AddedOn(old(WorldOf(u)), [id], [], st) else old(WorldOf(u))
    {
      if done {
        return Some(ScopeClosed);
      }
      err := ReserveParts(st);
    }

    method ReserveParts(st: Stat) returns (err: Option<Error>)
      requires Sane(rc) && Amount(st)
      modifies this`rc
      ensures err == Check(limit, old(rc), Bulk(st))
      ensures rc == if err.None? then Add(old(rc), st) else old(rc)
    {
      err := CheckMemory(limit, rc, st.memory, PRIORITY_ALWAYS);
      if err.Some? {
        return;
      }
      rc := rc.(memory := Wrap(rc.memory + st.memory));
      err := CheckStreams(limit, rc, st.streams.inbound, st.streams.outbound);
      if err.Some? {
        rc := rc.(memory := Clamp(Wrap(rc.memory - st.memory)));
        return;
      }
      rc := rc.(streams := PlusFlow(rc.streams, st.streams));
      err := CheckConns(limit, rc, st.conns.inbound, st.conns.outbound, st.fd);
      if err.Some? {
        rc := rc.(memory := Clamp(Wrap(rc.memory - st.memory)));
        rc := rc.(streams := ClampFlow(MinusFlow(rc.streams, st.streams)));
        return;
      }
      rc := rc.(conns := PlusFlow(rc.conns, st.conns), fd := rc.fd + st.fd);
    }

    method ReleaseForChild(st: Stat, ghost u: seq<ResourceScope>)
      requires Wired(u) && InList(u)
      modifies this`rc
      ensures Wired(u)
      ensures WorldOf(u) == RemovedOn(old(WorldOf(u)), [id], [], st)
    {
      if done {
        return;
      }
      rc := Remove(rc, st);
    }

    method IncRef(ghost u: seq<ResourceScope>)
      requires Wired(u) && InList(u)
      modifies this`refCnt
      ensures Wired(u)
      ensures WorldOf(u) == Referenced(old(WorldOf(u)), [id], 1)
    {
      refCnt := refCnt + 1;
    }

    method DecRef(ghost u: seq<ResourceScope>)
      requires Wired(u) && InList(u)
      modifies this`refCnt
      ensures Wired(u)
      ensures WorldOf(u) == Referenced(old(WorldOf(u)), [id], -1)
    {
      refCnt := refCnt - 1;
    }

    /** Memory alone does not keep a scope in use. */
    method IsUnused() returns (unused: bool)
      ensures unused == Unused(View())
      ensures unused <==> done || (refCnt <= 0 && rc.fd == 0
                                   && rc.streams.inbound == 0 && rc.streams.outbound == 0
                                   && rc.conns.inbound == 0 && rc.conns.outbound == 0)
    {
      if done {
        return true;
      }
      if refCnt > 0 {
        return false;
      }
      return rc.streams == NO_FLOW && rc.conns == NO_FLOW && rc.fd == 0;
    }

    // ---------------------------------------------------------------- along owners and edges

    /** A reservation is granted by the whole path or refused, and then nothing is left of it anywhere. */
    method Reserve(req: Request, ghost u: seq<ResourceScope>) returns (err: Option<Error>)
      requires Wired(u) && InList(u) && Shaped(WorldOf(u)) && !req.Bulk?
      requires SaneOn(WorldOf(u), Path(Links(WorldOf(u)), id))
      modifies u`rc, u`own
      ensures Wired(u) && Known(old(WorldOf(u)), Path(Links(old(WorldOf(u))), id))
      ensures err == FirstRefusal(old(WorldOf(u)), Path(Links(old(WorldOf(u))), id), req)
      ensures WorldOf(u) == if err.None? then Reserved(old(WorldOf(u)), id, Delta(req)) else old(WorldOf(u))
      decreases id, 1
    {
      hide GraphOf, AddedOn, FirstRefusal, Wired;
      RefuseStep(WorldOf(u), id, req);
      if done {
        return Some(ScopeClosed);
      }
      err := Check(limit, rc, req);
      if err.Some? {
        return;
      }
      ReserveSteps(WorldOf(u), id, req);
      SetCounters(Add(rc, Delta(req)), own, u);
      err := ReserveForEdges(req, u);
      if err.Some? {
        SetCounters(Remove(rc, Delta(req)), own, u);
        return;
      }
      SetCounters(rc, Plus(own, Delta(req)), u);
    }

    /** Only the counters of this scope change. */
    method SetCounters(rc: Stat, ghost own: Stat, ghost u: seq<ResourceScope>)
      requires Wired(u) && InList(u)
      modifies this`rc, this`own
      ensures Wired(u)
      ensures WorldOf(u) == old(WorldOf(u))[id := old(WorldOf(u))[id].(rc := rc, own := own)]
    {
      this.rc, this.own := rc, own;
    }

    method ReserveForEdges(req: Request, ghost u: seq<ResourceScope>) returns (err: Option<Error>)
      requires Wired(u) && InList(u) && Shaped(WorldOf(u)) && !req.Bulk? && Amount(Delta(req))
      requires SaneOn(WorldOf(u), Beyond(Links(WorldOf(u)), id))
      modifies u`rc, u`own
      ensures Wired(u) && Known(old(WorldOf(u)), Beyond(Links(old(WorldOf(u))), id))
      ensures err == FirstRefusal(old(WorldOf(u)), Beyond(Links(old(WorldOf(u))), id), req)
      ensures var w := old(WorldOf(u));
              WorldOf(u) == if err.None? then AddedOn(w, Beyond(Links(w), id), Owners(Links(w), id), Delta(req)) else w
      decreases id, 0
    {
      ghost var w := WorldOf(u);
      assert ShapeAt(Links(w), id);
      BeyondFacts(w, id);
      if owner != null {
        err := owner.Reserve(req, u);
      } else {
        err := ReserveOnEdges(req, u);
      }
    }

    /** The edges are asked in turn; when one refuses, those before it get back what they granted. */
    method ReserveOnEdges(req: Request, ghost u: seq<ResourceScope>) returns (err: Option<Error>)
      requires Wired(u) && InList(u) && Distinct(Ids(edges)) && !req.Bulk? && Amount(Delta(req))
      requires SaneOn(WorldOf(u), Ids(edges))
      modifies u`rc
      ensures Wired(u) && Known(old(WorldOf(u)), Ids(edges))
      ensures err == FirstRefusal(old(WorldOf(u)), Ids(edges), req)
      ensures WorldOf(u) == if err.None? then AddedOn(old(WorldOf(u)), Ids(edges), [], Delta(req)) else old(WorldOf(u))
    {
      hide AddedOn, Delta, FirstRefusal, Wired, WorldOf;
      ghost var w, ids := WorldOf(u), Ids(edges);
      EdgesKnown(this, u);
      var reserved: nat;
      reserved, err := ReserveInTurn(req, u);
      RefusalAt(w, ids, reserved, req);
      if err.Some? {
        UndoOnEdges(reserved, Delta(req), w, u);
      } else {
        assert ids[..reserved] == ids;
      }
    }

    /** How many edges granted the request, and what the next one answered. */
    method ReserveInTurn(req: Request, ghost u: seq<ResourceScope>) returns (reserved: nat, err: Option<Error>)
      requires Wired(u) && InList(u) && Distinct(Ids(edges)) && Known(WorldOf(u), Ids(edges)) && !req.Bulk?
      modifies u`rc
      ensures Wired(u) && reserved <= |edges| && (err.None? ==> reserved == |edges|)
      ensures WorldOf(u) == AddedOn(old(WorldOf(u)), Ids(edges)[..reserved], [], Delta(req))
      ensures forall j :: 0 <= j < reserved ==> Verdict(old(WorldOf(u))[Ids(edges)[j]], req) == None
      ensures err.Some? ==> reserved < |edges| && err == Verdict(old(WorldOf(u))[Ids(edges)[reserved]], req)
    {
      ghost var w, ids := WorldOf(u), Ids(edges);
      EdgesKnown(this, u);
      reserved, err := 0, None;
      NothingDone(w, Delta(req));
      while reserved < |edges|
        invariant reserved <= |edges| && Wired(u) && err.None?
        invariant WorldOf(u) == AddedOn(w, ids[..reserved], [], Delta(req))
        invariant forall j :: 0 <= j < reserved ==> Verdict(w[ids[j]], req) == None
      {
        hide AddedOn, Delta, Verdict, Wired, WorldOf;
        AddedNext(w, ids, reserved, Delta(req));
        err := edges[reserved].ReserveForChild(req, u);
        if err.Some? {
          return;
        }
        reserved := reserved + 1;
      }
    }

    /** The first `n` edges give back what they were charged. */
    method UndoOnEdges(n: nat, d: Stat, ghost w: World, ghost u: seq<ResourceScope>)
      requires Wired(u) && InList(u) && n <= |edges| && Distinct(Ids(edges)) && Known(w, Ids(edges))
      requires WorldOf(u) == AddedOn(w, Ids(edges)[..n], [], d)
      requires Amount(d) && SaneOn(w, Ids(edges)) && forall j :: 0 <= j < n ==> !w[Ids(edges)[j]].done
      modifies u`rc
      ensures Wired(u) && WorldOf(u) == w
    {
      hide AddedOn, RemovedOn, Wired;
      ghost var ids := Ids(edges);
      EdgesKnown(this, u);
      assert ids[0..n] == ids[..n];
      for i := 0 to n
        invariant Wired(u) && WorldOf(u) == AddedOn(w, ids[i..n], [], d)
      {
        AddedUndone(w, ids, i, n, d);
        edges[i].ReleaseForChild(d, u);
      }
      NothingDone(w, d);
      assert ids[n..n] == [];
    }

    /** A release reaches the owners up to the first closed one; if none is closed, also the edges. */
    method Release(st: Stat, ghost u: seq<ResourceScope>)
      requires Wired(u) && InList(u) && Shaped(WorldOf(u))
      modifies u`rc, u`own
      ensures Wired(u)
      ensures WorldOf(u) == Released(old(WorldOf(u)), id, st)
      decreases id
    {
      hide GraphOf, RemovedOn, Released, Shaped, Wired;
      ghost var w := WorldOf(u);
      ScopeShape(this, u);
      ReleaseSteps(w, id, st);
      if done {
        return;
      }
      SetCounters(Remove(rc, st), Minus(own, st), u);
      if owner != null {
        owner.Release(st, u);
      } else {
        ReleaseOnEdges(st, u);
      }
    }

    method ReleaseOnEdges(st: Stat, ghost u: seq<ResourceScope>)
      requires Wired(u) && InList(u) && Distinct(Ids(edges))
      modifies u`rc
      ensures Wired(u)
      ensures WorldOf(u) == RemovedOn(old(WorldOf(u)), Ids(edges), [], st)
    {
      hide RemovedOn, Wired;
      ghost var w, ids := WorldOf(u), Ids(edges);
      EdgesKnown(this, u);
      NothingDone(w, st);
      for i := 0 to |edges|
        invariant Wired(u) && WorldOf(u) == RemovedOn(w, ids[..i], [], st)
      {
        RemovedNext(w, ids, i, st);
        edges[i].ReleaseForChild(st, u);
      }
      assert ids[..|edges|] == ids;
    }

    /** The scope closes, and everything it counts goes back to its owners or to its edges. */
    method Done(ghost u: seq<ResourceScope>)
      requires Wired(u) && InList(u) && Shaped(WorldOf(u))
      modifies u`rc, u`own, u`refCnt, this`done
      ensures Wired(u)
      ensures WorldOf(u) == Finished(old(WorldOf(u)), id)
    {
      hide Finished, Released, Dropped, Referenced, GraphOf, Shaped, Wired;
      ghost var w := WorldOf(u);
      ScopeShape(this, u);
      FinishedParts(w, id);
      if done {
        return;
      }
      var stat := rc;
      if owner != null {
        owner.Release(stat, u);
        owner.DecRef(u);
      } else {
        DropEdges(stat, u);
      }
      MarkDone(u);
    }

    method MarkDone(ghost u: seq<ResourceScope>)
      requires Wired(u) && InList(u)
      modifies this`rc, this`own, this`done
      ensures Wired(u)
      ensures WorldOf(u) == old(WorldOf(u))[id := Ended(old(WorldOf(u))[id])]
    {
      rc, own, done := ZERO, ZERO, true;
    }

    method DropEdges(st: Stat, ghost u: seq<ResourceScope>)
      requires Wired(u) && InList(u) && Distinct(Ids(edges)) && id !in Ids(edges)
      modifies u`rc, u`refCnt
      ensures Wired(u)
      ensures WorldOf(u) == Dropped(old(WorldOf(u)), Ids(edges), st)
    {
      hide Dropped, RemovedOn, Referenced, Wired;
      ghost var w, ids := WorldOf(u), Ids(edges);
      EdgesKnown(this, u);
      NothingDone(w, st);
      for i := 0 to |edges|
        invariant Wired(u) && WorldOf(u) == Dropped(w, ids[..i], st)
      {
        DroppedNext(w, ids, i, st);
        edges[i].ReleaseForChild(st, u);
        edges[i].DecRef(u);
      }
      assert ids[..|edges|] == ids;
    }

    method SetEdges(edges: seq<ResourceScope>, ghost u: seq<ResourceScope>)
      requires Wired(u) && InList(u) && forall e :: e in edges ==> e.InList(u)
      modifies this`edges
      ensures Wired(u) && this.edges == edges
      ensures WorldOf(u) == old(WorldOf(u))[id := old(WorldOf(u))[id].(edges := Ids(edges))]
    {
      this.edges := edges;
    }

    method NextSpanID(ghost u: seq<ResourceScope>) returns (n: nat)
      requires Wired(u) && InList(u)
      modifies this`spanID
      ensures Wired(u) && n == old(spanID) + 1
      ensures WorldOf(u) == old(WorldOf(u))[id := old(WorldOf(u))[id].(spanId := n)]
    {
      spanID := spanID + 1;
      return spanID;
    }

    /** A new span has the limit of its owner, which it keeps from being collected. */
    method BeginSpan(ghost u: seq<ResourceScope>) returns (span: Option<ResourceScope>, ghost u': seq<ResourceScope>)
      requires Wired(u) && InList(u)
      modifies this`refCnt, this`spanID
      ensures Wired(u') && (span.Some? <==> !old(done))
      ensures span.None? ==> u' == u && WorldOf(u') == old(WorldOf(u))
      ensures span.Some? ==> fresh(span.value) && u' == u + [span.value] && span.value.owner == this
      ensures span.Some? ==> span.value.limit == limit
      ensures span.Some? ==> WorldOf(u') == SpanOpened(old(WorldOf(u)), id)
    {
      hide Referenced, SpanOpened;
      u' := u;
      if done {
        return None, u;
      }
      ghost var w := WorldOf(u);
      assert w[id].name == name && w[id].spanId == spanID && w[id].limit == limit;
      IncRef(u);
      var n := NextSpanID(u);
      SpanOpenedParts(w, id);
      ghost var w1 := WorldOf(u);
      var s := new ResourceScope(|u|, Span(name, n), limit, this, []);
      assert Wired(u) && WorldOf(u) == w1;
      assert Ids([]) == [] && s.View() == Fresh(Span(w[id].name, w[id].spanId + 1), w[id].limit, Some(id), []);
      u' := Listed(u, s);
      span := Some(s);
    }
  }

  /** A scope with edges takes a reference on each of them. */
  method NewResourceScope(name: Name, limit: Limit, edges: seq<ResourceScope>, ghost u: seq<ResourceScope>)
    returns (r: ResourceScope, ghost u': seq<ResourceScope>)
    requires Wired(u) && Distinct(Ids(edges)) && forall e :: e in edges ==> e.InList(u)
    modifies edges`refCnt
    ensures fresh(r) && u' == u + [r] && u <= u' && r.InList(u') && Wired(u') && r.id == |u| && r.owner == null
      && r.edges == edges && r.name == name
    ensures !r.done && r.rc == ZERO
    ensures WorldOf(u') == Created(old(WorldOf(u)), name, limit, Ids(edges))
  {
    hide Referenced;
    ghost var w, ids := WorldOf(u), Ids(edges);
    forall j | 0 <= j < |edges| ensures edges[j].InList(u) && edges[j].id == ids[j] { assert edges[j] in edges; }
    NothingDone(w, ZERO);
    for i := 0 to |edges|
      invariant Wired(u) && WorldOf(u) == Referenced(w, ids[..i], 1)
    {
      ReferencedNext(w, ids, i);
      edges[i].IncRef(u);
    }
    assert ids[..|edges|] == ids;
    r := new ResourceScope(|u|, name, limit, null, edges);
    u' := Listed(u, r);
  }

  /** A new scope is put on the list. */
  ghost method Listed(u: seq<ResourceScope>, r: ResourceScope) returns (u': seq<ResourceScope>)
    requires Wired(u) && r.id == |u| && (r.owner != null ==> r.owner.InList(u))
    requires forall e :: e in r.edges ==> e.InList(u)
    ensures u' == u + [r] && Wired(u') && WorldOf(u') == WorldOf(u) + [r.View()]
  {
    u' := u + [r];
  }

  // ---------------------------------------------------------------- objects and values

  ghost function Ids(scopes: seq<ResourceScope>): seq<Id> {
    seq(|scopes|, i requires 0 <= i < |scopes| => scopes[i].id)
  }

  /** `u` lists all scopes by number, and owners and edges are in it. */
  ghost predicate Wired(u: seq<ResourceScope>)
    reads u`edges
  {
    forall i :: 0 <= i < |u| ==>
      && u[i].id == i
      && (u[i].owner != null ==> u[i].owner.InList(u))
      && (forall e :: e in u[i].edges ==> e.InList(u))
  }

  /** What all scopes are, as values. */
  ghost function WorldOf(u: seq<ResourceScope>): (w: World)
    ensures |w| == |u|
    reads u
  {
    seq(|u|, i requires 0 <= i < |u| reads u => u[i].View())
  }

  lemma ViewAt(u: seq<ResourceScope>, r: ResourceScope)
    requires r.InList(u)
    ensures WorldOf(u)[r.id] == r.View() && WorldOf(u)[r.id].rc == r.rc && WorldOf(u)[r.id].edges == Ids(r.edges)
    ensures WorldOf(u)[r.id].done == r.done && WorldOf(u)[r.id].name == r.name
  {
  }

  lemma EdgesKnown(r: ResourceScope, u: seq<ResourceScope>)
    requires Wired(u) && r.InList(u)
    ensures Known(WorldOf(u), Ids(r.edges)) && WorldOf(u)[r.id].edges == Ids(r.edges)
    ensures forall j :: 0 <= j < |r.edges| ==> r.edges[j].InList(u) && r.edges[j].id == Ids(r.edges)[j]
  {
    forall j | 0 <= j < |r.edges| ensures r.edges[j].InList(u) && r.edges[j].id == Ids(r.edges)[j] {
      assert r.edges[j] in r.edges;
    }
  }

  lemma ScopeShape(r: ResourceScope, u: seq<ResourceScope>)
    requires Wired(u) && r.InList(u) && Shaped(WorldOf(u))
    ensures r.owner != null ==> r.owner.InList(u) && r.owner.id < r.id
    ensures Distinct(Ids(r.edges)) && r.id !in Ids(r.edges)
    ensures WorldOf(u)[r.id] == r.View()
  {
    assert ShapeAt(Links(WorldOf(u)), r.id);
  }

  // ---------------------------------------------------------------- steps of the loops, on values

  /** The counters of these scopes are not negative and fit their Go types. */
  predicate SaneOn(w: World, ids: seq<Id>) { forall i :: i in ids && i < |w| ==> Sane(w[i].rc) }

  lemma BeyondFacts(w: World, s: Id)
    requires Shaped(w) && s < |w|
    ensures Known(w, Path(Links(w), s)) && Known(w, Beyond(Links(w), s))
    ensures s !in Beyond(Links(w), s)
  {
    var g := Links(w);
    assert ShapeAt(g, s);
    PathFacts(g, s);
    if g[s].owner.Some? { PathFacts(g, g[s].owner.value); }
    var path, beyond := Path(g, s), Beyond(g, s);
    assert path == [s] + beyond;
    forall j | 0 <= j < |path| ensures path[j] < |w| { assert path[j] in path; }
    forall j | 0 <= j < |beyond| ensures beyond[j] < |w| { assert beyond[j] == path[j + 1]; }
  }

  lemma LinksKept(w: World, s: Id, c: Scope)
    requires s < |w| && Shaped(w) && c.limit == w[s].limit
    requires c.done == w[s].done && c.owner == w[s].owner && c.edges == w[s].edges
    ensures Shaped(w[s := c])
    ensures Beyond(Links(w[s := c]), s) == Beyond(Links(w), s) && Owners(Links(w[s := c]), s) == Owners(Links(w), s)
    ensures w[s].owner.Some? && w[s].owner.value < s ==>
      var o := w[s].owner.value;
      LivePath(Links(w[s := c]), o) == LivePath(Links(w), o) && LiveSpine(Links(w[s := c]), o) == LiveSpine(Links(w), o)
  {
    var g, g' := Links(w), Links(w[s := c]);
    forall i | 0 <= i < |g'| ensures ShapeAt(g', i) { assert ShapeAt(g, i); }
    assert ShapeAt(g, s);
    if g[s].owner.Some? { SamePaths(g, g', g[s].owner.value); }
  }

  lemma {:induction false} RefusalElsewhere(w: World, ids: seq<Id>, req: Request, s: Id, c: Scope)
    requires Known(w, ids) && s < |w| && s !in ids
    ensures FirstRefusal(w[s := c], ids, req) == FirstRefusal(w, ids, req)
  {
    if ids != [] {
      assert ids[0] in ids;
      RefusalElsewhere(w, ids[1..], req, s, c);
    }
  }

  /** If the first `n` scopes grant, the answer is that of the next, or there is none. */
  lemma {:induction false} RefusalAt(w: World, ids: seq<Id>, n: nat, req: Request)
    requires Known(w, ids) && n <= |ids| && forall j :: 0 <= j < n ==> Verdict(w[ids[j]], req) == None
    ensures n == |ids| ==> FirstRefusal(w, ids, req) == None
    ensures n < |ids| && Verdict(w[ids[n]], req).Some? ==> FirstRefusal(w, ids, req) == Verdict(w[ids[n]], req)
  {
    if n > 0 {
      assert Verdict(w[ids[0]], req) == None;
      forall j | 0 <= j < n - 1 ensures Verdict(w[ids[1..][j]], req) == None { assert ids[1..][j] == ids[j + 1]; }
      RefusalAt(w, ids[1..], n - 1, req);
    }
  }

  /** Counting on the scope itself before, and owning after, the rest of the path. */
  lemma ReservedStep(w: World, s: Id, d: Stat)
    requires s < |w| && Shaped(w) && s !in Beyond(Links(w), s)
    ensures var rest := AddedOn(w[s := w[s].(rc := Add(w[s].rc, d))], Beyond(Links(w), s), Owners(Links(w), s), d);
            Reserved(w, s, d) == rest[s := rest[s].(own := Plus(rest[s].own, d))]
  {
    var path, spine := Beyond(Links(w), s), Owners(Links(w), s);
    assert Path(Links(w), s) == [s] + path && Spine(Links(w), s) == [s] + spine;
    var p, q := [s] + path, [s] + spine;
    assert s in p && s in q;
    assert forall i :: i != s ==> (i in p <==> i in path) && (i in q <==> i in spine);
  }

  /** A scope that refuses answers for its whole path. */
  lemma RefuseStep(w: World, s: Id, req: Request)
    requires Shaped(w) && s < |w|
    ensures Known(w, Path(Links(w), s))
    ensures Verdict(w[s], req).Some? ==> FirstRefusal(w, Path(Links(w), s), req) == Verdict(w[s], req)
  {
    hide GraphOf;
    BeyondFacts(w, s);
  }

  /** The scope itself first, then the rest of the path, then the scope's own charge. */
  lemma ReserveSteps(w: World, s: Id, req: Request)
    requires Shaped(w) && s < |w| && !req.Bulk? && SaneOn(w, Path(Links(w), s)) && Verdict(w[s], req).None?
    requires Known(w, Path(Links(w), s))
    ensures var d, w1 := Delta(req), w[s := w[s].(rc := Add(w[s].rc, Delta(req)))];
      && Shaped(w1) && Amount(d)
      && var path, spine := Beyond(Links(w1), s), Owners(Links(w1), s);
      && Known(w1, path) && SaneOn(w1, path)
      && FirstRefusal(w, Path(Links(w), s), req) == FirstRefusal(w1, path, req)
      && w1[s := w1[s].(rc := Remove(w1[s].rc, d))] == w
      && var w2 := AddedOn(w1, path, spine, d);
      && Reserved(w, s, d) == w2[s := w2[s].(own := Plus(w2[s].own, d))]
  {
    hide GraphOf, Add, Remove, AddedOn, Check;
    var c := w[s].(rc := Add(w[s].rc, Delta(req)));
    GrantedAmount(w[s], req);
    LinksKept(w, s, c);
    PathRefusal(w, s, req, c);
    RemoveUndoesAdd(w[s].rc, Delta(req));
    BeyondFacts(w, s);
    ReservedStep(w, s, Delta(req));
  }

  lemma PathRefusal(w: World, s: Id, req: Request, c: Scope)
    requires Shaped(w) && s < |w| && Verdict(w[s], req).None? && SaneOn(w, Path(Links(w), s))
    ensures var path := Beyond(Links(w), s);
            && Known(w, Path(Links(w), s)) && Known(w[s := c], path) && SaneOn(w[s := c], path) && Sane(w[s].rc)
            && FirstRefusal(w, Path(Links(w), s), req) == FirstRefusal(w[s := c], path, req)
  {
    hide GraphOf, Check;
    BeyondFacts(w, s);
    var path := Path(Links(w), s);
    assert path[0] == s && path[1..] == Beyond(Links(w), s);
    assert s in path && forall i :: i in Beyond(Links(w), s) ==> i in path;
    RefusalElsewhere(w, Beyond(Links(w), s), req, s, c);
  }

  lemma GrantedAmount(c: Scope, req: Request)
    requires Verdict(c, req).None? && !req.Bulk?
    ensures Amount(Delta(req))
  {
  }

  lemma NothingDone(w: World, d: Stat)
    ensures AddedOn(w, [], [], d) == w && RemovedOn(w, [], [], d) == w && Dropped(w, [], d) == w
    ensures Referenced(w, [], 1) == w
  {
  }

  lemma AddedNext(w: World, ids: seq<Id>, n: nat, d: Stat)
    requires Distinct(ids) && n < |ids| && Known(w, ids)
    ensures AddedOn(w, ids[..n], [], d)[ids[n]] == w[ids[n]]
    ensures AddedOn(w, ids[..n + 1], [], d) == AddedOn(AddedOn(w, ids[..n], [], d), [ids[n]], [], d)
  {
    NextOf(ids, n);
  }

  lemma NextOf(ids: seq<Id>, n: nat)
    requires Distinct(ids) && n < |ids|
    ensures ids[n] !in ids[..n]
    ensures forall i :: i in ids[..n + 1] <==> i in ids[..n] || i == ids[n]
  {
    assert ids[..n + 1] == ids[..n] + [ids[n]];
  }

  lemma AddedUndone(w: World, ids: seq<Id>, i: nat, n: nat, d: Stat)
    requires Distinct(ids) && i < n <= |ids| && Known(w, ids) && Amount(d) && Sane(w[ids[i]].rc) && !w[ids[i]].done
    ensures AddedOn(w, ids[i + 1..n], [], d) == RemovedOn(AddedOn(w, ids[i..n], [], d), [ids[i]], [], d)
  {
    RemoveUndoesAdd(w[ids[i]].rc, d);
    FirstOf(ids, i, n);
  }

  lemma FirstOf(ids: seq<Id>, i: nat, n: nat)
    requires Distinct(ids) && i < n <= |ids|
    ensures ids[i] !in ids[i + 1..n]
    ensures forall x :: x in ids[i..n] <==> x in ids[i + 1..n] || x == ids[i]
  {
    assert ids[i..n] == [ids[i]] + ids[i + 1..n];
  }

  lemma RemovedNext(w: World, ids: seq<Id>, n: nat, d: Stat)
    requires Distinct(ids) && n < |ids| && Known(w, ids)
    ensures RemovedOn(w, ids[..n + 1], [], d) == RemovedOn(RemovedOn(w, ids[..n], [], d), [ids[n]], [], d)
  {
    NextOf(ids, n);
  }

  /** The scope itself first, then the rest of the path. */
  lemma ReleaseSteps(w: World, s: Id, d: Stat)
    requires s < |w| && Shaped(w)
    ensures w[s].done ==> Released(w, s, d) == w
    ensures !w[s].done ==>
      var w1 := w[s := w[s].(rc := Remove(w[s].rc, d), own := Minus(w[s].own, d))];
      && Shaped(w1)
      && (w[s].owner.Some? ==> w[s].owner.value < s && Released(w, s, d) == Released(w1, w[s].owner.value, d))
      && (w[s].owner.None? ==> Released(w, s, d) == RemovedOn(w1, w[s].edges, [], d))
  {
    assert ShapeAt(Links(w), s);
    assert Links(w)[s].owner == w[s].owner && Links(w)[s].edges == w[s].edges && Links(w)[s].done == w[s].done;
    hide GraphOf, ShapeAt;
    NothingDone(w, d);
    if !w[s].done {
      LinksKept(w, s, w[s].(rc := Remove(w[s].rc, d), own := Minus(w[s].own, d)));
      if w[s].owner.Some? {
        SpanStep(Links(w), s, w[s].owner.value);
        RemovedFirst(w, LivePath(Links(w), w[s].owner.value), LiveSpine(Links(w), w[s].owner.value), s, d);
      } else {
        RemovedFirst(w, w[s].edges, [], s, d);
        assert [s] + [] == [s];
      }
    }
  }

  lemma RemovedFirst(w: World, path: seq<Id>, spine: seq<Id>, s: Id, d: Stat)
    requires s < |w| && !w[s].done && s !in path && s !in spine
    ensures var c := w[s].(rc := Remove(w[s].rc, d), own := Minus(w[s].own, d));
            RemovedOn(w[s := c], path, spine, d) == RemovedOn(w, [s] + path, [s] + spine, d)
  {
    var p, q := [s] + path, [s] + spine;
    assert s in p && s in q;
    assert forall i :: i != s ==> (i in p <==> i in path) && (i in q <==> i in spine);
  }

  lemma DroppedNext(w: World, ids: seq<Id>, n: nat, d: Stat)
    requires Distinct(ids) && n < |ids| && Known(w, ids)
    ensures Dropped(w, ids[..n + 1], d) == Referenced(RemovedOn(Dropped(w, ids[..n], d), [ids[n]], [], d), [ids[n]], -1)
  {
    NextOf(ids, n);
  }

  lemma ReferencedNext(w: World, ids: seq<Id>, n: nat)
    requires Distinct(ids) && n < |ids| && Known(w, ids)
    ensures Referenced(w, ids[..n + 1], 1) == Referenced(Referenced(w, ids[..n], 1), [ids[n]], 1)
  {
    NextOf(ids, n);
  }

  /** Closing changes the scope itself only at the end. */
  lemma FinishedParts(w: World, s: Id)
    requires Shaped(w) && s < |w|
    ensures w[s].done ==> Finished(w, s) == w
    ensures !w[s].done && w[s].owner.None? ==>
      var w1 := Dropped(w, w[s].edges, w[s].rc); Finished(w, s) == w1[s := Ended(w1[s])]
    ensures !w[s].done && w[s].owner.Some? ==>
      && w[s].owner.value < s
      && var w1 := Referenced(Released(w, w[s].owner.value, w[s].rc), [w[s].owner.value], -1);
         Finished(w, s) == w1[s := Ended(w1[s])]
  {
    hide GraphOf, ShapeAt;
    ScopeLinks(w, s);
    if !w[s].done && w[s].owner.Some? {
      var o := w[s].owner.value;
      PathFacts(Links(w), o);
      OwnerThenSelf(Released(w, o, w[s].rc), o, s, w[s]);
    }
  }

  lemma ScopeLinks(w: World, s: Id)
    requires Shaped(w) && s < |w|
    ensures w[s].owner.Some? ==> w[s].owner.value < s
    ensures s !in w[s].edges && forall e :: e in w[s].edges ==> e < |w|
    ensures Links(w)[s].owner == w[s].owner && Links(w)[s].edges == w[s].edges && Links(w)[s].done == w[s].done
  {
    assert ShapeAt(Links(w), s);
    assert Links(w)[s].owner == w[s].owner && Links(w)[s].edges == w[s].edges && Links(w)[s].done == w[s].done;
  }

  lemma OwnerThenSelf(w: World, o: Id, s: Id, c: Scope)
    requires o < s < |w| && w[s] == c
    ensures var w1 := Referenced(w, [o], -1);
            w[o := w[o].(refCnt := w[o].refCnt - 1)][s := Ended(c)] == w1[s := Ended(w1[s])]
  {
  }

  lemma SpanOpenedParts(w: World, s: Id)
    requires s < |w|
    ensures var w1 := Referenced(w, [s], 1);
            SpanOpened(w, s) == w1[s := w1[s].(spanId := w[s].spanId + 1)] +
              [Fresh(Span(w[s].name, w[s].spanId + 1), w[s].limit, Some(s), [])]
  {
  }
}
