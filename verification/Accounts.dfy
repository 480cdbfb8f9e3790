/**
 * The scopes of the resource manager as values, the effect of each operation on all of them, and the proof
 * that every operation keeps all six counters of every scope balanced and within their limits.
 */
module Accounts {
  import opened Common
  import opened Resources
  import opened Ledgers

  /** A service or a protocol. */
  datatype Key = Service(name: string) | Protocol(name: string)

  /** What a scope stands for; `Shared` is a service or protocol scope and `PerPeer` the part of it for one peer. */
  datatype Name =
    | System | Transient | AllowedSystem | AllowedTransient
    | Peer(peer: string) | Shared(key: Key) | PerPeer(key: Key, peer: string)
    | Connection | Stream(peer: string)
    | Span(of: Name, number: nat)

  /** A scope: `own` is what was reserved on it directly, through its spans included (for the proofs only). */
  datatype Scope = Scope(name: Name, limit: Limit, rc: Stat, own: Stat, refCnt: int, done: bool, spanId: nat,
                         owner: Option<Id>, edges: seq<Id>)

  /** All scopes ever created, in creation order. */
  type World = seq<Scope>

  // ---------------------------------------------------------------- the six counters

  datatype Kind = MemoryKind | StreamsIn | StreamsOut | ConnsIn | ConnsOut | FdKind

  function At(st: Stat, k: Kind): int {
    match k
    case MemoryKind => st.memory
    case StreamsIn => st.streams.inbound
    case StreamsOut => st.streams.outbound
    case ConnsIn => st.conns.inbound
    case ConnsOut => st.conns.outbound
    case FdKind => st.fd
  }

  /** The books of one counter of all scopes. */
  function GraphOf(w: World, k: Kind): (g: Graph)
    ensures |g| == |w|
  {
    seq(|w|, i requires 0 <= i < |w| => NodeOf(w[i], k))
  }

  function NodeOf(c: Scope, k: Kind): Node {
    Node(At(c.rc, k), At(c.own, k), c.refCnt, c.done, c.owner, c.edges)
  }

  /** Owners, edges and closed flags are the same in the books of every counter. */
  function Links(w: World): Graph { GraphOf(w, MemoryKind) }

  predicate Shaped(w: World) { Shape(Links(w)) }

  lemma SameShape(w: World, k: Kind)
    ensures SameLinks(Links(w), GraphOf(w, k)) && (Shaped(w) ==> Shape(GraphOf(w, k)))
  {
    if Shaped(w) {
      forall i | 0 <= i < |w| ensures ShapeAt(GraphOf(w, k), i) { assert ShapeAt(Links(w), i); }
    }
  }

  lemma SameWays(w: World, k: Kind, s: Id)
    requires Shaped(w) && s < |w|
    ensures Shape(GraphOf(w, k))
    ensures var g := GraphOf(w, k);
            && Path(g, s) == Path(Links(w), s) && Spine(g, s) == Spine(Links(w), s)
            && LivePath(g, s) == LivePath(Links(w), s) && LiveSpine(g, s) == LiveSpine(Links(w), s)
  {
    SameShape(w, k);
    SamePaths(Links(w), GraphOf(w, k), s);
  }

  // ---------------------------------------------------------------- the invariant

  /** No operation is under way; scope `i` has `pins[i]` references that are neither an edge nor a span. */
  function Idle(pins: seq<int>): Ledger {
    seq(|pins|, i requires 0 <= i < |pins| => Entry(0, 0, pins[i]))
  }

  /** Counters stay within limits and within their Go types. */
  predicate Limited(w: World) {
    forall i :: 0 <= i < |w| ==> w[i].limit.Valid() && Sane(w[i].rc) && (!w[i].done ==> Within(w[i].limit, w[i].rc))
  }

  /** Conservation, exact reference counts, open parents and limits, between operations. */
  ghost predicate Sound(w: World, pins: seq<int>) {
    && |pins| == |w| && Limited(w)
    && forall k: Kind :: Balanced(GraphOf(w, k), Idle(pins))
  }

  lemma SoundIsShaped(w: World, pins: seq<int>)
    requires Sound(w, pins)
    ensures Shaped(w)
  {
    assert Balanced(GraphOf(w, MemoryKind), Idle(pins));
  }

  // ---------------------------------------------------------------- reserving

  /** What a scope answers to a request. */
  function Verdict(c: Scope, req: Request): Option<Error> {
    if c.done then Some(ScopeClosed) else Check(c.limit, c.rc, req)
  }

  predicate Known(w: World, ids: seq<Id>) { forall j :: 0 <= j < |ids| ==> ids[j] < |w| }

  /** The answer of the first scope in `ids` that refuses. */
  function FirstRefusal(w: World, ids: seq<Id>, req: Request): Option<Error>
    requires Known(w, ids)
  {
    if ids == [] then None
    else
      var first := Verdict(w[ids[0]], req);
      if first.Some? then first else FirstRefusal(w, ids[1..], req)
  }

  /** Exact admission: nobody refuses exactly when every scope is open and has room. */
  lemma {:induction false} AdmissionIsExact(w: World, ids: seq<Id>, req: Request)
    requires Known(w, ids) && Limited(w) && (req.Bulk? ==> Amount(req.stat))
    ensures FirstRefusal(w, ids, req) == None <==>
            forall i :: i in ids ==> i < |w| && !w[i].done && Room(w[i].limit, w[i].rc, req)
  {
    if ids != [] {
      AdmissionIsExact(w, ids[1..], req);
      CheckIsExact(w[ids[0]].limit, w[ids[0]].rc, req);
      assert ids == [ids[0]] + ids[1..];
    }
  }

  /** `d` is counted on the whole path of `s`, and is the own charge of the owner chain. */
  function Reserved(w: World, s: Id, d: Stat): World
    requires Shaped(w) && s < |w|
  {
    AddedOn(w, Path(Links(w), s), Spine(Links(w), s), d)
  }

  function AddedOn(w: World, path: seq<Id>, spine: seq<Id>, d: Stat): (w': World)
    ensures |w'| == |w|
  {
    seq(|w|, i requires 0 <= i < |w| =>
      if i in path then w[i].(rc := Add(w[i].rc, d), own := if i in spine then Plus(w[i].own, d) else w[i].own)
      else w[i])
  }

  /** What a scope holds directly: its own charge without that of its open spans. */
  function DirectOf(w: World, pins: seq<int>, s: Id, k: Kind): int
    requires s < |w| == |pins|
  {
    Direct(GraphOf(w, k), Idle(pins), s)
  }

  /** The request is granted on the whole path, and the int64 counters can take it. */
  predicate Granted(w: World, s: Id, req: Request)
    requires Shaped(w) && s < |w|
  {
    && Amount(Delta(req))
    && forall i :: i in Path(Links(w), s) ==>
         i < |w| && Verdict(w[i], req) == None && Fits(w[i].limit, w[i].rc, Delta(req))
  }

  lemma GrantedAt(w: World, s: Id, req: Request, i: Id)
    requires Limited(w) && Shaped(w) && s < |w| && Granted(w, s, req) && i in Path(Links(w), s)
    ensures !w[i].done && Add(w[i].rc, Delta(req)) == Plus(w[i].rc, Delta(req))
    ensures Within(w[i].limit, Plus(w[i].rc, Delta(req)))
  {
    GrantKeepsLimits(w[i].limit, w[i].rc, req);
  }

  /** A granted request meets only open scopes, so a release would reach exactly its path. */
  lemma GrantedWays(w: World, s: Id, req: Request, k: Kind)
    requires Shaped(w) && s < |w| && Granted(w, s, req)
    ensures var g, l := GraphOf(w, k), Links(w);
            && Shape(g) && Path(g, s) == Path(l, s) && LivePath(g, s) == Path(l, s) && LiveSpine(g, s) == Spine(l, s)
            && (forall i :: i in Path(g, s) ==> i < |g| && !g[i].done)
            && (forall i :: i in Spine(l, s) ==> i in Path(l, s))
  {
    SameWays(w, k, s);
    PathFacts(Links(w), s);
    OpenPathIsLive(Links(w), s);
  }

  lemma ReservedGraph(w: World, s: Id, req: Request, k: Kind)
    requires Limited(w) && Shaped(w) && s < |w| && Granted(w, s, req)
    ensures Shape(GraphOf(w, k))
    ensures GraphOf(Reserved(w, s, Delta(req)), k) == Shifted(GraphOf(w, k), s, At(Delta(req), k))
  {
    GrantedWays(w, s, req, k);
    var path := Path(Links(w), s);
    forall i | i in path ensures i < |w| && !w[i].done && Add(w[i].rc, Delta(req)) == Plus(w[i].rc, Delta(req)) {
      GrantedAt(w, s, req, i);
    }
    AddedGraph(w, path, Spine(Links(w), s), Delta(req), k);
  }

  lemma AddedGraph(w: World, path: seq<Id>, spine: seq<Id>, d: Stat, k: Kind)
    requires forall i :: i in path ==> i < |w| && !w[i].done && Add(w[i].rc, d) == Plus(w[i].rc, d)
    ensures GraphOf(AddedOn(w, path, spine, d), k) == ShiftedOn(GraphOf(w, k), path, spine, At(d, k))
  {
    var w', g' := AddedOn(w, path, spine, d), ShiftedOn(GraphOf(w, k), path, spine, At(d, k));
    forall i | 0 <= i < |w| ensures NodeOf(w'[i], k) == g'[i] {
      NodeAfter(w[i], d, i in spine, k);
    }
  }

  lemma NodeAfter(c: Scope, d: Stat, spine: bool, k: Kind)
    ensures NodeOf(c.(rc := Plus(c.rc, d), own := if spine then Plus(c.own, d) else c.own), k) ==
            var n := NodeOf(c, k); n.(use := n.use + At(d, k), own := if spine then n.own + At(d, k) else n.own)
  {
  }

  /** A granted reservation keeps everything sound, and is the scope's own to release afterwards. */
  lemma ReserveKeepsSound(w: World, pins: seq<int>, s: Id, req: Request)
    requires Sound(w, pins) && Shaped(w) && s < |w| && Granted(w, s, req)
    ensures Sound(Reserved(w, s, Delta(req)), pins)
    ensures forall t, k :: 0 <= t < |w| ==>
      DirectOf(Reserved(w, s, Delta(req)), pins, t, k) == DirectOf(w, pins, t, k) + if t == s then At(Delta(req), k)
        else 0
  {
    var d := Delta(req);
    var w' := Reserved(w, s, d);
    ReserveKeepsLimits(w, s, req);
    forall k: Kind
      ensures Balanced(GraphOf(w', k), Idle(pins))
      ensures forall t :: 0 <= t < |w| ==>
        DirectOf(w', pins, t, k) == DirectOf(w, pins, t, k) + if t == s then At(d, k) else 0
    {
      ReserveKeepsBooks(w, pins, s, req, k);
    }
  }

  lemma ReserveKeepsBooks(w: World, pins: seq<int>, s: Id, req: Request, k: Kind)
    requires Sound(w, pins) && Shaped(w) && s < |w| && Granted(w, s, req)
    ensures var g' := GraphOf(Reserved(w, s, Delta(req)), k);
            Balanced(g', Idle(pins)) && DirectMoves(GraphOf(w, k), g', Idle(pins), s, At(Delta(req), k))
  {
    assert Balanced(GraphOf(w, k), Idle(pins));
    GrantedWays(w, s, req, k);
    ReserveBalances(GraphOf(w, k), Idle(pins), s, At(Delta(req), k));
    ReservedGraph(w, s, req, k);
  }

  lemma ReserveKeepsLimits(w: World, s: Id, req: Request)
    requires Limited(w) && Shaped(w) && s < |w| && Granted(w, s, req)
    ensures Limited(Reserved(w, s, Delta(req)))
  {
    var w' := Reserved(w, s, Delta(req));
    forall i | 0 <= i < |w|
      ensures w'[i].limit.Valid() && Sane(w'[i].rc) && (!w'[i].done ==> Within(w'[i].limit, w'[i].rc))
    {
      if i in Path(Links(w), s) { GrantedAt(w, s, req, i); }
    }
  }

  // ---------------------------------------------------------------- releasing

  /** `d` is taken from the owner chain of `s` up to the first closed scope, and from the edges if none is closed. */
  function Released(w: World, s: Id, d: Stat): World
    requires Shaped(w) && s < |w|
  {
    RemovedOn(w, LivePath(Links(w), s), LiveSpine(Links(w), s), d)
  }

  function RemovedOn(w: World, path: seq<Id>, spine: seq<Id>, d: Stat): (w': World)
    ensures |w'| == |w|
  {
    seq(|w|, i requires 0 <= i < |w| =>
      if i in path && !w[i].done then
        w[i].(rc := Remove(w[i].rc, d), own := if i in spine then Minus(w[i].own, d) else w[i].own)
      else w[i])
  }

  /** The caller holds `d` directly on `s`: the rule that users must keep. */
  predicate Holds(w: World, pins: seq<int>, s: Id, d: Stat)
    requires s < |w| == |pins|
  {
    Amount(d) && (!w[s].done ==> forall k: Kind :: At(d, k) <= DirectOf(w, pins, s, k))
  }

  /** Every scope a release reaches counts at least what is released, so the clamps do not fire. */
  lemma ReleaseIsCovered(w: World, pins: seq<int>, s: Id, d: Stat, i: Id)
    requires Sound(w, pins) && Shaped(w) && s < |w| && Holds(w, pins, s, d)
    requires i < |w| && i in LivePath(Links(w), s) && !w[i].done
    ensures Leq(d, w[i].rc) && Remove(w[i].rc, d) == Minus(w[i].rc, d)
  {
    forall k: Kind ensures At(d, k) <= At(w[i].rc, k) { CoveredAt(w, pins, s, d, i, k); }
    LeqByKinds(d, w[i].rc);
    RemoveIsExact(w[i].rc, d);
  }

  lemma LeqByKinds(a: Stat, b: Stat)
    requires forall k: Kind :: At(a, k) <= At(b, k)
    ensures Leq(a, b)
  {
    assert At(a, MemoryKind) <= At(b, MemoryKind) && At(a, StreamsIn) <= At(b, StreamsIn);
    assert At(a, StreamsOut) <= At(b, StreamsOut) && At(a, ConnsIn) <= At(b, ConnsIn);
    assert At(a, ConnsOut) <= At(b, ConnsOut) && At(a, FdKind) <= At(b, FdKind);
  }

  /** The books of one counter after a release. */
  lemma ReleaseBooks(w: World, pins: seq<int>, s: Id, d: Stat, k: Kind, x: int)
    requires Sound(w, pins) && Shaped(w) && s < |w| && Holds(w, pins, s, d) && x == -At(d, k)
    ensures Shape(GraphOf(w, k)) && Balanced(Shifted(GraphOf(w, k), s, x), Idle(pins))
  {
    assert Balanced(GraphOf(w, k), Idle(pins));
    assert At(d, k) >= 0;
    if !w[s].done { assert At(d, k) <= DirectOf(w, pins, s, k); }
    ReleaseBalances(GraphOf(w, k), Idle(pins), s, x);
  }

  lemma CoveredAt(w: World, pins: seq<int>, s: Id, d: Stat, i: Id, k: Kind)
    requires Sound(w, pins) && Shaped(w) && s < |w| && Holds(w, pins, s, d)
    requires i < |w| && i in LivePath(Links(w), s) && !w[i].done
    ensures At(d, k) <= At(w[i].rc, k)
  {
    var x := -At(d, k);
    ReleaseBooks(w, pins, s, d, k, x);
    SameWays(w, k, s);
    var g' := Shifted(GraphOf(w, k), s, x);
    UseCovers(g', Idle(pins), i);
    assert BooksBalance(g'[i], Tally(g', i), Idle(pins)[i]);
  }

  lemma ReleasedGraph(w: World, pins: seq<int>, s: Id, d: Stat, k: Kind, x: int)
    requires Sound(w, pins) && Shaped(w) && s < |w| && Holds(w, pins, s, d) && x == -At(d, k)
    ensures Shape(GraphOf(w, k))
    ensures GraphOf(Released(w, s, d), k) == Shifted(GraphOf(w, k), s, x)
  {
    SameWays(w, k, s);
    var path := LivePath(Links(w), s);
    forall i | i in path && i < |w| && !w[i].done ensures Remove(w[i].rc, d) == Minus(w[i].rc, d) {
      ReleaseIsCovered(w, pins, s, d, i);
    }
    RemovedGraph(w, path, LiveSpine(Links(w), s), d, k, x);
  }

  lemma RemovedGraph(w: World, path: seq<Id>, spine: seq<Id>, d: Stat, k: Kind, x: int)
    requires forall i :: i in path && i < |w| && !w[i].done ==> Remove(w[i].rc, d) == Minus(w[i].rc, d)
    requires x == -At(d, k)
    ensures GraphOf(RemovedOn(w, path, spine, d), k) == ShiftedOn(GraphOf(w, k), path, spine, x)
  {
    var w', g' := RemovedOn(w, path, spine, d), ShiftedOn(GraphOf(w, k), path, spine, x);
    forall i | 0 <= i < |w| ensures NodeOf(w'[i], k) == g'[i] {
      NodeBefore(w[i], d, i in spine, k, x);
    }
  }

  lemma NodeBefore(c: Scope, d: Stat, spine: bool, k: Kind, x: int)
    requires x == -At(d, k)
    ensures NodeOf(c.(rc := Minus(c.rc, d), own := if spine then Minus(c.own, d) else c.own), k) ==
            var n := NodeOf(c, k); n.(use := n.use + x, own := if spine then n.own + x else n.own)
  {
  }

  /** A release of what the caller holds keeps everything sound; at a closed owner it stops. */
  lemma ReleaseKeepsSound(w: World, pins: seq<int>, s: Id, d: Stat)
    requires Sound(w, pins) && Shaped(w) && s < |w| && Holds(w, pins, s, d)
    ensures Sound(Released(w, s, d), pins)
  {
    var w' := Released(w, s, d);
    forall i | 0 <= i < |w|
      ensures w'[i].limit.Valid() && Sane(w'[i].rc) && (!w'[i].done ==> Within(w'[i].limit, w'[i].rc))
    {
      if i in LivePath(Links(w), s) && !w[i].done { ReleaseIsCovered(w, pins, s, d, i); }
    }
    forall k: Kind ensures Balanced(GraphOf(w', k), Idle(pins)) {
      var x := -At(d, k);
      ReleaseBooks(w, pins, s, d, k, x);
      ReleasedGraph(w, pins, s, d, k, x);
    }
  }

  // ---------------------------------------------------------------- closing

  function Ended(c: Scope): Scope { c.(rc := ZERO, own := ZERO, done := true) }

  /** `d` is taken from the open scopes among `ids`, and one reference from all of them. */
  function Dropped(w: World, ids: seq<Id>, d: Stat): (w': World)
    ensures |w'| == |w|
  {
    seq(|w|, i requires 0 <= i < |w| =>
      if i in ids then w[i].(rc := if w[i].done then w[i].rc else Remove(w[i].rc, d), refCnt := w[i].refCnt - 1)
        else w[i])
  }

  /** The scope closes and returns everything it counts to its owner, or to its edges. */
  function Finished(w: World, s: Id): World
    requires Shaped(w) && s < |w|
  {
    if w[s].done then w
    else
      assert ShapeAt(Links(w), s);
      match w[s].owner
      case None => Dropped(w, w[s].edges, w[s].rc)[s := Ended(w[s])]
      case Some(o) =>
        var w1 := Released(w, o, w[s].rc);
        w1[o := w1[o].(refCnt := w1[o].refCnt - 1)][s := Ended(w[s])]
  }

  predicate NoChildren(w: World, s: Id) {
    forall i :: 0 <= i < |w| && !w[i].done ==> s !in w[i].edges
  }

  /** A scope whose references are all gone has no open scope that counts on it. */
  lemma UnreferencedHasNoChildren(w: World, pins: seq<int>, s: Id)
    requires Sound(w, pins) && s < |w| && w[s].refCnt <= 0
    ensures NoChildren(w, s) && w[s].refCnt == pins[s] == 0
  {
    var g := Links(w);
    assert Balanced(g, Idle(pins));
    assert BooksBalance(g[s], Tally(g, s), Idle(pins)[s]);
    BalancedTotals(g, Idle(pins), s);
    forall i | 0 <= i < |w| && !w[i].done ensures s !in w[i].edges { assert g[i].edges == w[i].edges; }
  }

  /** Without open children a scope counts exactly its own charge. */
  lemma LeafCountsItsOwn(w: World, pins: seq<int>, s: Id)
    requires Sound(w, pins) && s < |w| && !w[s].done && NoChildren(w, s)
    ensures w[s].rc == w[s].own
  {
    forall k: Kind ensures At(w[s].rc, k) == At(w[s].own, k) && Tally(GraphOf(w, k), s).edgeRefs == 0 {
      LeafBooks(w, pins, s, k);
    }
    LeqByKinds(w[s].rc, w[s].own);
    LeqByKinds(w[s].own, w[s].rc);
  }

  lemma LeafBooks(w: World, pins: seq<int>, s: Id, k: Kind)
    requires Sound(w, pins) && s < |w| && !w[s].done && NoChildren(w, s)
    ensures At(w[s].rc, k) == At(w[s].own, k) && Tally(GraphOf(w, k), s).edgeRefs == 0
  {
    var g := GraphOf(w, k);
    assert Balanced(g, Idle(pins));
    NoRefsToNone(g, s);
    BalancedTotals(g, Idle(pins), s);
    assert BooksBalance(g[s], Tally(g, s), Idle(pins)[s]);
  }

  /** Each edge counts what its child counts, so nothing is clamped when it is returned. */
  lemma EdgeCountsChild(w: World, pins: seq<int>, s: Id, e: Id)
    requires Sound(w, pins) && s < |w| && !w[s].done && e in w[s].edges
    ensures e < |w| && e != s && !w[e].done && Leq(w[s].own, w[e].rc)
    ensures Remove(w[e].rc, w[s].own) == Minus(w[e].rc, w[s].own)
  {
    assert Balanced(Links(w), Idle(pins));
    assert ShapeAt(Links(w), s) && !Links(w)[s].done;
    forall k: Kind ensures At(w[s].own, k) <= At(w[e].rc, k) && 0 <= At(w[s].own, k) {
      var g := GraphOf(w, k);
      assert Balanced(g, Idle(pins));
      ShareInTally(g, Idle(pins), s, e);
    }
    assert At(w[s].own, MemoryKind) >= 0 && At(w[s].own, StreamsIn) >= 0 && At(w[s].own, StreamsOut) >= 0;
    assert At(w[s].own, ConnsIn) >= 0 && At(w[s].own, ConnsOut) >= 0 && At(w[s].own, FdKind) >= 0;
    LeqByKinds(w[s].own, w[e].rc);
    RemoveIsExact(w[e].rc, w[s].own);
  }

  /** The books of one counter when a scope with edges closes. */
  lemma FinishedGraph(w: World, pins: seq<int>, s: Id, k: Kind, d: int)
    requires Sound(w, pins) && Shaped(w) && s < |w| && !w[s].done && w[s].owner.None? && NoChildren(w, s)
    requires d == -At(w[s].rc, k)
    ensures var g := GraphOf(w, k); GraphOf(Finished(w, s), k) == Adjusted(g[s := Closed(g[s])], g[s].edges, d, -1)
  {
    LeafCountsItsOwn(w, pins, s);
    assert ShapeAt(Links(w), s);
    forall e | e in w[s].edges
      ensures e < |w| && e != s && !w[e].done && Remove(w[e].rc, w[s].rc) == Minus(w[e].rc, w[s].rc)
    {
      EdgeCountsChild(w, pins, s, e);
    }
    EndedGraph(w, s, w[s].edges, w[s].rc, k, d);
  }

  lemma EndedGraph(w: World, s: Id, edges: seq<Id>, d: Stat, k: Kind, x: int)
    requires s < |w| && x == -At(d, k)
    requires forall e :: e in edges ==> e < |w| && e != s && !w[e].done && Remove(w[e].rc, d) == Minus(w[e].rc, d)
    ensures var g := GraphOf(w, k);
            GraphOf(Dropped(w, edges, d)[s := Ended(w[s])], k) == Adjusted(g[s := Closed(g[s])], edges, x, -1)
  {
    var w', g' := Dropped(w, edges, d)[s := Ended(w[s])],
      Adjusted(GraphOf(w, k)[s := Closed(GraphOf(w, k)[s])], edges, x, -1);
    forall i | 0 <= i < |w| ensures NodeOf(w'[i], k) == g'[i] {
      if i == s {
        EndedNode(w[s], k);
      } else if i in edges {
        DroppedNode(w[i], d, k, x);
      }
    }
  }

  lemma EndedNode(c: Scope, k: Kind)
    ensures NodeOf(Ended(c), k) == Closed(NodeOf(c, k))
  {
  }

  lemma DroppedNode(c: Scope, d: Stat, k: Kind, x: int)
    requires x == -At(d, k)
    ensures NodeOf(c.(rc := Minus(c.rc, d), refCnt := c.refCnt - 1), k) ==
            var n := NodeOf(c, k); n.(use := n.use + x, refCnt := n.refCnt + -1)
  {
  }

  /** A scope without open children closes: the books stay balanced and every unit leaves each edge once. */
  lemma FinishKeepsSound(w: World, pins: seq<int>, s: Id)
    requires Sound(w, pins) && Shaped(w) && s < |w| && !w[s].done && w[s].owner.None? && NoChildren(w, s)
    ensures Sound(Finished(w, s), pins)
  {
    var w' := Finished(w, s);
    LeafCountsItsOwn(w, pins, s);
    forall i | 0 <= i < |w|
      ensures w'[i].limit.Valid() && Sane(w'[i].rc) && (!w'[i].done ==> Within(w'[i].limit, w'[i].rc))
    {
      if i != s && i in w[s].edges { EdgeCountsChild(w, pins, s, i); }
    }
    forall k: Kind ensures Balanced(GraphOf(w', k), Idle(pins)) { FinishBooks(w, pins, s, k); }
  }

  lemma FinishBooks(w: World, pins: seq<int>, s: Id, k: Kind)
    requires Sound(w, pins) && Shaped(w) && s < |w| && !w[s].done && w[s].owner.None? && NoChildren(w, s)
    ensures Balanced(GraphOf(Finished(w, s), k), Idle(pins))
  {
    LeafBooks(w, pins, s, k);
    assert Balanced(GraphOf(w, k), Idle(pins));
    var d := -At(w[s].rc, k);
    FinishBalances(GraphOf(w, k), Idle(pins), s, d);
    FinishedGraph(w, pins, s, k, d);
  }

  /** Closing a span first: its owner then holds what the span held, and may release it. */
  function SpanEnded(w: World, s: Id): World
    requires s < |w|
  {
    w[s := Ended(w[s])]
  }

  lemma SpanEndedGraph(w: World, s: Id, k: Kind)
    requires s < |w|
    ensures GraphOf(SpanEnded(w, s), k) == GraphOf(w, k)[s := Closed(GraphOf(w, k)[s])]
  {
    EndedNode(w[s], k);
  }

  /** What garbage collection asks of a scope: no references and nothing but memory on it. */
  predicate Unused(c: Scope) {
    c.done || (c.refCnt <= 0 && c.rc.streams == NO_FLOW && c.rc.conns == NO_FLOW && c.rc.fd == 0)
  }

  lemma PinKeepsSound(w: World, pins: seq<int>, t: Id, n: int)
    requires Sound(w, pins) && t < |w| && 0 <= pins[t] + n
    ensures Sound(w[t := w[t].(refCnt := w[t].refCnt + n)], pins[t := pins[t] + n])
  {
    var w', pins' := w[t := w[t].(refCnt := w[t].refCnt + n)], pins[t := pins[t] + n];
    forall k: Kind ensures Balanced(GraphOf(w', k), Idle(pins')) {
      var g := GraphOf(w, k);
      assert Balanced(g, Idle(pins));
      PinBalances(g, Idle(pins), t, n);
      assert GraphOf(w', k) == g[t := g[t].(refCnt := g[t].refCnt + n)];
      assert Idle(pins') == AddPins(Idle(pins), t, n);
    }
  }

  /** A span closes first; then its owner holds what the span held, and has one reference to drop. */
  lemma SpanEndKeepsSound(w: World, pins: seq<int>, s: Id, o: Id)
    requires Sound(w, pins) && s < |w| && o < s && !w[s].done && w[s].owner == Some(o)
    ensures var w1, pins1 := SpanEnded(w, s), pins[o := pins[o] + 1];
            Sound(w1, pins1) && Holds(w1, pins1, o, w[s].rc) && 0 <= pins[o]
  {
    var w1, pins1 := SpanEnded(w, s), pins[o := pins[o] + 1];
    forall k: Kind
      ensures Balanced(GraphOf(w1, k), Idle(pins1)) && 0 <= pins[o]
      ensures !w1[o].done ==> At(w[s].rc, k) <= DirectOf(w1, pins1, o, k)
    {
      var g := GraphOf(w, k);
      assert Balanced(g, Idle(pins));
      SpanEndedGraph(w, s, k);
      var x := -At(w[s].rc, k);
      SpanClosesFirst(g, Idle(pins), s, o, x);
      assert Idle(pins1) == AddPins(Idle(pins), o, 1);
    }
    assert Balanced(GraphOf(w1, MemoryKind), Idle(pins1));
  }

  /** A span closes, whatever became of its owners before: nothing is released twice. */
  lemma FinishSpanKeepsSound(w: World, pins: seq<int>, s: Id)
    requires Sound(w, pins) && Shaped(w) && s < |w| && !w[s].done && w[s].owner.Some?
    ensures Sound(Finished(w, s), pins)
  {
    assert ShapeAt(Links(w), s);
    var o, d := w[s].owner.value, w[s].rc;
    var w1, pins1 := SpanEnded(w, s), pins[o := pins[o] + 1];
    SpanEndKeepsSound(w, pins, s, o);
    SoundIsShaped(w1, pins1);
    ReleaseKeepsSound(w1, pins1, o, d);
    var w2 := Released(w1, o, d);
    UnpinKeepsSound(w2, pins, o);
    assert Finished(w, s) == Unreferenced(w2, o) by { FinishedSpan(w, s, o); }
  }

  function Unreferenced(w: World, o: Id): World
    requires o < |w|
  {
    w[o := w[o].(refCnt := w[o].refCnt - 1)]
  }

  lemma UnpinKeepsSound(w: World, pins: seq<int>, o: Id)
    requires |pins| == |w| && o < |w| && 0 <= pins[o] && Sound(w, pins[o := pins[o] + 1])
    ensures Sound(Unreferenced(w, o), pins)
  {
    PinKeepsSound(w, pins[o := pins[o] + 1], o, -1);
    assert pins[o := pins[o] + 1][o := pins[o]] == pins;
  }

  lemma FinishedSpan(w: World, s: Id, o: Id)
    requires s < |w| && Shaped(w) && Shaped(SpanEnded(w, s)) && o < s && !w[s].done && w[s].owner == Some(o)
    ensures Finished(w, s) == Unreferenced(Released(SpanEnded(w, s), o, w[s].rc), o)
  {
    hide GraphOf;
    SpanEndedWays(w, s, o);
    RemovedElsewhere(w, LivePath(Links(w), o), LiveSpine(Links(w), o), w[s].rc, s, Ended(w[s]));
  }

  lemma SpanEndedWays(w: World, s: Id, o: Id)
    requires s < |w| && Shaped(w) && Shaped(SpanEnded(w, s)) && o < s && w[s].owner.Some?
    ensures LivePath(Links(SpanEnded(w, s)), o) == LivePath(Links(w), o)
    ensures LiveSpine(Links(SpanEnded(w, s)), o) == LiveSpine(Links(w), o)
    ensures s !in LivePath(Links(w), o)
  {
    SamePaths(Links(w), Links(SpanEnded(w, s)), o);
    PathFacts(Links(w), o);
  }

  lemma RemovedElsewhere(w: World, path: seq<Id>, spine: seq<Id>, d: Stat, s: Id, c: Scope)
    requires s < |w| && s !in path
    ensures RemovedOn(w, path, spine, d)[s := c] == RemovedOn(w[s := c], path, spine, d)
  {
  }

  // ---------------------------------------------------------------- opening

  function Fresh(name: Name, limit: Limit, owner: Option<Id>, edges: seq<Id>): Scope {
    Scope(name, limit, ZERO, ZERO, 0, false, 0, owner, edges)
  }

  /** `n` references more on each of the scopes. */
  function Referenced(w: World, ids: seq<Id>, n: int): (w': World)
    ensures |w'| == |w|
  {
    seq(|w|, i requires 0 <= i < |w| => if i in ids then w[i].(refCnt := w[i].refCnt + n) else w[i])
  }

  /** A new scope has a reference on each of its edges. */
  function Created(w: World, name: Name, limit: Limit, edges: seq<Id>): (w': World)
    ensures |w'| == |w| + 1
  {
    Referenced(w, edges, 1) + [Fresh(name, limit, None, edges)]
  }

  lemma CreateKeepsSound(w: World, pins: seq<int>, name: Name, limit: Limit, edges: seq<Id>)
    requires Sound(w, pins) && limit.Valid() && Distinct(edges)
    requires forall e :: e in edges ==> e < |w| && !w[e].done && w[e].owner.None?
    ensures Sound(Created(w, name, limit, edges), pins + [0])
  {
    var w' := Created(w, name, limit, edges);
    forall k: Kind ensures Balanced(GraphOf(w', k), Idle(pins + [0])) {
      var g, led := GraphOf(w, k), Idle(pins);
      assert Balanced(g, led);
      forall e | e in edges ensures e < |g| && 0 <= led[e].pins + 1 { assert BooksBalance(g[e], Tally(g, e), led[e]); }
      AdjustBalances(g, led, edges, 0, 1);
      var g1, led1 := Adjusted(g, edges, 0, 1), Carry(led, edges, 0, 1);
      forall e | e in edges ensures e < |g1| && !g1[e].done && g1[e].owner.None? && led1[e].pins >= 1 {
        assert BooksBalance(g[e], Tally(g, e), led[e]);
      }
      CreateBalances(g1, led1, edges);
      CreatedGraph(w, name, limit, edges, k);
      PinnedAndUnpinned(pins, edges);
    }
  }

  lemma CreatedGraph(w: World, name: Name, limit: Limit, edges: seq<Id>, k: Kind)
    ensures GraphOf(Created(w, name, limit, edges), k) == Adjusted(GraphOf(w, k), edges, 0, 1) + [NewNode(None, edges)]
  {
  }

  lemma PinnedAndUnpinned(pins: seq<int>, edges: seq<Id>)
    ensures Idle(pins + [0]) == Carry(Carry(Idle(pins), edges, 0, 1), edges, 0, -1) + [NOTHING]
  {
  }

  function SpanOpened(w: World, o: Id): World
    requires o < |w|
  {
    w[o := w[o].(refCnt := w[o].refCnt + 1, spanId := w[o].spanId + 1)] +
      [Fresh(Span(w[o].name, w[o].spanId + 1), w[o].limit, Some(o), [])]
  }

  lemma SpanOpenKeepsSound(w: World, pins: seq<int>, o: Id)
    requires Sound(w, pins) && o < |w| && !w[o].done
    ensures Sound(SpanOpened(w, o), pins + [0])
  {
    var w' := SpanOpened(w, o);
    forall k: Kind ensures Balanced(GraphOf(w', k), Idle(pins + [0])) {
      var g := GraphOf(w, k);
      assert Balanced(g, Idle(pins));
      BeginSpanBalances(g, Idle(pins), o);
      assert GraphOf(w', k) == SpanBegun(g, o);
      assert Idle(pins + [0]) == Idle(pins) + [NOTHING];
    }
  }
}
