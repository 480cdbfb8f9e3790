/**
 * Connections and streams move between parent sets: what the scope counts is reserved on the parents it joins
 * and released on those it leaves (p2p/host/resource-manager/rcmgr.go, SetPeer, SetProtocol and SetService).
 */
module Moves {
  import opened Common
  import opened Resources
  import opened Ledgers
  import opened Accounts

  // ---------------------------------------------------------------- one counter

  function Joins(old_: seq<Id>, new_: seq<Id>, i: Id): bool { i in new_ && i !in old_ }

  function MovedNode(n: Node, joins: bool, leaves: bool, d: int): Node {
    if joins then n.(use := n.use + d, refCnt := n.refCnt + 1)
    else if leaves then n.(use := n.use - d, refCnt := n.refCnt - 1)
    else n
  }

  function MovedGraph(g: Graph, s: Id, edges: seq<Id>, d: int): Graph
    requires s < |g|
  {
    seq(|g|, i requires 0 <= i < |g| =>
      if i == s then g[s].(edges := edges)
      else MovedNode(g[i], Joins(g[s].edges, edges, i), Joins(edges, g[s].edges, i), d))
  }

  lemma MovedTally(g: Graph, s: Id, edges: seq<Id>, d: int, t: Id)
    requires s < |g| && !g[s].done && d == g[s].own
    ensures var total, total' := Tally(g, t), Tally(MovedGraph(g, s, edges, d), t);
            && total'.spanSum == total.spanSum && total'.spanRefs == total.spanRefs
            && total'.edgeSum == total.edgeSum + (if Joins(g[s].edges, edges, t) then d
                else if Joins(edges, g[s].edges, t) then -d else 0)
            && total'.edgeRefs == total.edgeRefs + (if Joins(g[s].edges, edges, t) then 1
                else if Joins(edges, g[s].edges, t) then -1 else 0)
  {
    var g1 := g[s := g[s].(edges := edges)];
    TallyUpdate(g, s, g1[s], t);
    SameShares(g1, MovedGraph(g, s, edges, d), t);
  }

  /** Moving keeps the books, whatever sets of open parents are left and joined. */
  lemma MoveBalances(g: Graph, led: Ledger, s: Id, edges: seq<Id>, d: int)
    requires Balanced(g, led) && s < |g| && !g[s].done && g[s].owner.None? && d == g[s].own
    requires Distinct(edges) && s !in edges
    requires forall e :: e in edges ==> e < |g| && !g[e].done && g[e].owner.None?
    ensures Balanced(MovedGraph(g, s, edges, d), led)
  {
    var g' := MovedGraph(g, s, edges, d);
    RewiredGraph(g, s, edges);
    LinksKeepGraph(g[s := g[s].(edges := edges)], g');
    assert ShapeAt(g, s);
    forall i | 0 <= i < |g| ensures BooksBalance(g'[i], Tally(g', i), led[i]) {
      MovedTally(g, s, edges, d, i);
      MovedBooks(g[i], Tally(g, i), Tally(g', i), led[i], Joins(g[s].edges, edges, i), Joins(edges, g[s].edges, i), d,
                 g'[i]);
    }
  }

  lemma MovedBooks(c: Node, total: Totals, total': Totals, entry: Entry, joins: bool, leaves: bool, d: int, c': Node)
    requires BooksBalance(c, total, entry)
    requires total'.spanSum == total.spanSum && total'.spanRefs == total.spanRefs
    requires total'.edgeSum == total.edgeSum + if joins then d else if leaves then -d else 0
    requires total'.edgeRefs == total.edgeRefs + if joins then 1 else if leaves then -1 else 0
    requires c'.(edges := c.edges) == MovedNode(c, joins, leaves, d)
    ensures BooksBalance(c', total', entry)
  {
  }

  // ---------------------------------------------------------------- all counters

  function MovedScope(c: Scope, joins: bool, leaves: bool, d: Stat): Scope {
    if joins then c.(rc := Add(c.rc, d), refCnt := c.refCnt + 1)
    else if leaves then c.(rc := if c.done then c.rc else Remove(c.rc, d), refCnt := c.refCnt - 1)
    else c
  }

  /** The scope `s` has new edges; those it joins are charged what it counts, those it leaves get it back. */
  function Moved(w: World, s: Id, edges: seq<Id>): (w': World)
    requires s < |w|
    ensures |w'| == |w|
  {
    seq(|w|, i requires 0 <= i < |w| =>
      if i == s then w[s].(edges := edges)
      else MovedScope(w[i], Joins(w[s].edges, edges, i), Joins(edges, w[s].edges, i), w[s].rc))
  }

  /** The new parents are open and those among them that are joined have room. */
  predicate Welcome(w: World, s: Id, edges: seq<Id>)
    requires s < |w|
  {
    && Distinct(edges) && s !in edges
    && forall e :: e in edges ==>
         && e < |w| && !w[e].done && w[e].owner.None?
         && (e !in w[s].edges ==> Verdict(w[e], Bulk(w[s].rc)).None? && Fits(w[e].limit, w[e].rc, w[s].rc))
  }

  /** A scope that may move: open, no span, and nobody's parent. */
  predicate Movable(w: World, s: Id) {
    s < |w| && !w[s].done && w[s].owner.None? && NoChildren(w, s)
  }

  lemma JoinedScope(w: World, s: Id, edges: seq<Id>, e: Id)
    requires Limited(w) && s < |w| && Welcome(w, s, edges) && Sane(w[s].rc) && e in edges && e !in w[s].edges
    ensures !w[e].done && Add(w[e].rc, w[s].rc) == Plus(w[e].rc, w[s].rc) && Within(w[e].limit, Plus(w[e].rc, w[s].rc))
  {
    hide Check, Add, Plus, Within;
    GrantKeepsLimits(w[e].limit, w[e].rc, Bulk(w[s].rc));
  }

  lemma MovedScopeNode(c: Scope, joins: bool, leaves: bool, d: Stat, k: Kind)
    requires joins ==> Add(c.rc, d) == Plus(c.rc, d)
    requires leaves ==> !c.done && Remove(c.rc, d) == Minus(c.rc, d)
    ensures NodeOf(MovedScope(c, joins, leaves, d), k) == MovedNode(NodeOf(c, k), joins, leaves, At(d, k))
  {
    hide Add, Remove;
  }

  lemma MovedBooksOf(w: World, pins: seq<int>, s: Id, edges: seq<Id>, k: Kind)
    requires Sound(w, pins) && Movable(w, s) && Welcome(w, s, edges)
    ensures GraphOf(Moved(w, s, edges), k) == MovedGraph(GraphOf(w, k), s, edges, At(w[s].own, k))
  {
    hide Add, Remove, Check;
    var w', g' := Moved(w, s, edges), MovedGraph(GraphOf(w, k), s, edges, At(w[s].own, k));
    LeafCountsItsOwn(w, pins, s);
    forall i | 0 <= i < |w| ensures NodeOf(w'[i], k) == g'[i] {
      if i != s {
        if Joins(w[s].edges, edges, i) { JoinedScope(w, s, edges, i); }
        if Joins(edges, w[s].edges, i) { EdgeCountsChild(w, pins, s, i); }
        MovedScopeNode(w[i], Joins(w[s].edges, edges, i), Joins(edges, w[s].edges, i), w[s].rc, k);
      }
    }
  }

  /** A move to welcoming parents keeps everything sound: no unit is lost or counted twice on the way. */
  lemma MoveKeepsSound(w: World, pins: seq<int>, s: Id, edges: seq<Id>)
    requires Sound(w, pins) && Movable(w, s) && Welcome(w, s, edges)
    ensures Sound(Moved(w, s, edges), pins)
  {
    hide Add, Remove, Check, Fits, GraphOf, Balanced;
    var w' := Moved(w, s, edges);
    LeafCountsItsOwn(w, pins, s);
    forall i | 0 <= i < |w|
      ensures w'[i].limit.Valid() && Sane(w'[i].rc) && (!w'[i].done ==> Within(w'[i].limit, w'[i].rc))
    {
      if i != s {
        if Joins(w[s].edges, edges, i) { JoinedScope(w, s, edges, i); }
        if Joins(edges, w[s].edges, i) { EdgeCountsChild(w, pins, s, i); }
      }
    }
    forall k: Kind ensures Balanced(GraphOf(w', k), Idle(pins)) { MoveKeepsBooks(w, pins, s, edges, k); }
  }

  lemma MoveKeepsBooks(w: World, pins: seq<int>, s: Id, edges: seq<Id>, k: Kind)
    requires Sound(w, pins) && Movable(w, s) && Welcome(w, s, edges)
    ensures Balanced(GraphOf(Moved(w, s, edges), k), Idle(pins))
  {
    hide Moved, MovedGraph, Check, Verdict, Fits;
    assert Balanced(GraphOf(w, k), Idle(pins));
    forall e | e in edges ensures e < |w| && !GraphOf(w, k)[e].done && GraphOf(w, k)[e].owner.None? {}
    MoveBalances(GraphOf(w, k), Idle(pins), s, edges, At(w[s].own, k));
    MovedBooksOf(w, pins, s, edges, k);
  }

  // ---------------------------------------------------------------- what the code does, step by step

  /**
   * What counts on `s` is reserved on `joins`, with a reference each, and released on `leaves`, with a reference
   * each; then `edges` become the edges of `s`, whatever they were before.
   */
  function Attached(w: World, s: Id, joins: seq<Id>, leaves: seq<Id>, edges: seq<Id>): (w': World)
    requires s < |w|
    ensures |w'| == |w|
  {
    seq(|w|, i requires 0 <= i < |w| =>
      if i == s then w[s].(edges := edges) else MovedScope(w[i], i in joins, i in leaves, w[s].rc))
  }

  /** The scope counted on exactly the scopes it leaves and those of its new edges that it does not join. */
  ghost predicate CountedOn(w: World, s: Id, joins: seq<Id>, leaves: seq<Id>, edges: seq<Id>)
    requires s < |w|
  {
    forall x :: x in w[s].edges <==> x in leaves || (x in edges && x !in joins)
  }

  /** What SetPeer, SetProtocol and SetService make sure of: open parents, and room on those that are joined. */
  predicate Prepared(w: World, s: Id, joins: seq<Id>, leaves: seq<Id>, edges: seq<Id>)
    requires s < |w|
  {
    && Distinct(edges) && s !in edges && s !in leaves
    && (forall e :: e in joins ==> e in edges)
    && (forall e :: e in leaves ==> e !in edges)
    && (forall e :: e in edges ==> e < |w| && !w[e].done && w[e].owner.None?)
    && (forall e :: e in joins && e < |w| ==> Verdict(w[e], Bulk(w[s].rc)).None? && Fits(w[e].limit, w[e].rc, w[s].rc))
  }

  lemma AttachedIsMoved(w: World, s: Id, joins: seq<Id>, leaves: seq<Id>, edges: seq<Id>)
    requires s < |w| && Prepared(w, s, joins, leaves, edges) && CountedOn(w, s, joins, leaves, edges)
    requires forall e :: e in joins ==> e !in w[s].edges
    ensures Attached(w, s, joins, leaves, edges) == Moved(w, s, edges) && Welcome(w, s, edges)
  {
    hide Add, Remove, Check, Fits;
    forall i | 0 <= i < |w|
      ensures i in joins <==> Joins(w[s].edges, edges, i)
      ensures i in leaves <==> Joins(edges, w[s].edges, i)
    {
    }
  }

  /**
   * Exactly when it is safe to attach a scope: the scope is open, and it was counted on precisely the parents
   * that the code takes it to be counted on. In particular a closed scope, or a connection that a failed transfer
   * left without edges, must not be attached.
   */
  lemma AttachIsSoundIff(w: World, pins: seq<int>, s: Id, joins: seq<Id>, leaves: seq<Id>, edges: seq<Id>)
    requires Sound(w, pins) && s < |w| && w[s].owner.None? && NoChildren(w, s)
    requires Prepared(w, s, joins, leaves, edges) && (joins != [] || leaves != []) && Known(w, leaves)
    ensures Sound(Attached(w, s, joins, leaves, edges), pins) <==>
            !w[s].done && CountedOn(w, s, joins, leaves, edges)
  {
    hide Sound, Check, Add, Remove, Fits, Verdict;
    if !w[s].done && CountedOn(w, s, joins, leaves, edges) {
      AttachedIsMoved(w, s, joins, leaves, edges);
      MoveKeepsSound(w, pins, s, edges);
    } else if Sound(Attached(w, s, joins, leaves, edges), pins) {
      AttachedEdges(w, pins, s, joins, leaves, edges);
    }
  }

  lemma AttachedEdges(w: World, pins: seq<int>, s: Id, joins: seq<Id>, leaves: seq<Id>, edges: seq<Id>)
    requires Sound(w, pins) && s < |w| && w[s].owner.None?
    requires Prepared(w, s, joins, leaves, edges) && (joins != [] || leaves != []) && Known(w, leaves)
    requires Sound(Attached(w, s, joins, leaves, edges), pins)
    ensures !w[s].done && CountedOn(w, s, joins, leaves, edges)
  {
    hide Check, Add, Remove, Fits, Verdict, Attached;
    var t := if joins != [] then joins[0] else leaves[0];
    assert t in joins || t in leaves;
    AttachedRefs(w, pins, s, joins, leaves, edges, t);
    SoundIsShaped(w, pins);
    assert ShapeAt(Links(w), s);
    forall x | x in w[s].edges || x in leaves || x in edges
      ensures x in w[s].edges <==> x in leaves || (x in edges && x !in joins)
    {
      AttachedRefs(w, pins, s, joins, leaves, edges, x);
    }
  }

  function One(b: bool): int { if b then 1 else 0 }

  /** The reference counts before and after tell which edges there were before. */
  lemma AttachedRefs(w: World, pins: seq<int>, s: Id, joins: seq<Id>, leaves: seq<Id>, edges: seq<Id>, t: Id)
    requires s < |w| && t < |w| && t != s && w[s].owner.None?
    requires Sound(w, pins) && Sound(Attached(w, s, joins, leaves, edges), pins)
    ensures (if t in joins then 1 else if t in leaves then -1 else 0) ==
            if w[s].done then 0 else One(t in edges) - One(t in w[s].edges)
  {
    hide Add, Remove, Attached, GraphOf, Balanced;
    var w' := Attached(w, s, joins, leaves, edges);
    RefCountsExact(w, pins, t);
    RefCountsExact(w', pins, t);
    AttachedEdgeRefs(w, s, joins, leaves, edges, t);
    assert w'[t].refCnt == w[t].refCnt + (if t in joins then 1 else if t in leaves then -1 else 0) by {
      AttachedAt(w, s, joins, leaves, edges, t);
    }
  }

  lemma RefCountsExact(w: World, pins: seq<int>, t: Id)
    requires Sound(w, pins) && t < |w|
    ensures w[t].refCnt == Tally(Links(w), t).edgeRefs + Tally(Links(w), t).spanRefs + pins[t]
  {
    var g := Links(w);
    assert Balanced(g, Idle(pins));
    assert BooksBalance(g[t], Tally(g, t), Idle(pins)[t]);
  }

  lemma AttachedEdgeRefs(w: World, s: Id, joins: seq<Id>, leaves: seq<Id>, edges: seq<Id>, t: Id)
    requires s < |w| && w[s].owner.None?
    ensures var total, total' := Tally(Links(w), t), Tally(Links(Attached(w, s, joins, leaves, edges)), t);
            && total'.spanRefs == total.spanRefs
            && total'.edgeRefs == total.edgeRefs + if w[s].done then 0 else One(t in edges) - One(t in w[s].edges)
  {
    hide Add, Remove;
    var g, g' := Links(w), Links(Attached(w, s, joins, leaves, edges));
    var g1 := g[s := g[s].(edges := edges)];
    TallyUpdate(g, s, g1[s], t);
    SameShares(g1, g', t);
  }

  lemma AttachedAt(w: World, s: Id, joins: seq<Id>, leaves: seq<Id>, edges: seq<Id>, t: Id)
    requires s < |w| && t < |w| && t != s
    ensures Attached(w, s, joins, leaves, edges)[t] == MovedScope(w[t], t in joins, t in leaves, w[s].rc)
  {
  }

  // ---------------------------------------------------------------- the steps of the code

  lemma AttachNothing(w: World, s: Id)
    requires s < |w|
    ensures Attached(w, s, [], [], w[s].edges) == w
  {
  }

  /** A parent that nothing has happened to yet is as it was. */
  lemma AttachElsewhere(w: World, s: Id, joins: seq<Id>, leaves: seq<Id>, edges: seq<Id>, e: Id)
    requires s < |w| && e < |w| && e != s && e !in joins && e !in leaves
    ensures Attached(w, s, joins, leaves, edges)[e] == w[e]
  {
  }

  lemma AttachJoin(w: World, s: Id, joins: seq<Id>, edges: seq<Id>, e: Id)
    requires s < |w| && e < |w| && e != s && e !in joins
    ensures AddedOn(Referenced(Attached(w, s, joins, [], edges), [e], 1), [e], [], w[s].rc) ==
            Attached(w, s, joins + [e], [], edges)
  {
    hide Add;
  }

  lemma AttachUnjoin(w: World, s: Id, joins: seq<Id>, edges: seq<Id>, e: Id)
    requires s < |w| && e < |w| && e != s && e !in joins && !w[e].done && Sane(w[e].rc) && Amount(w[s].rc)
    ensures Referenced(RemovedOn(Attached(w, s, joins + [e], [], edges), [e], [], w[s].rc), [e], -1) ==
            Attached(w, s, joins, [], edges)
  {
    RemoveUndoesAdd(w[e].rc, w[s].rc);
    hide Add, Remove, Sane, Amount;
  }

  lemma AttachLeave(w: World, s: Id, joins: seq<Id>, leaves: seq<Id>, edges: seq<Id>, e: Id)
    requires s < |w| && e < |w| && e != s && e !in joins && e !in leaves
    ensures Referenced(RemovedOn(Attached(w, s, joins, leaves, edges), [e], [], w[s].rc), [e], -1) ==
            Attached(w, s, joins, leaves + [e], edges)
  {
    hide Remove;
  }

  lemma AttachEdges(w: World, s: Id, joins: seq<Id>, leaves: seq<Id>, edges: seq<Id>, edges': seq<Id>)
    requires s < |w|
    ensures var w1 := Attached(w, s, joins, leaves, edges);
            w1[s := w1[s].(edges := edges')] == Attached(w, s, joins, leaves, edges')
  {
  }

  lemma AttachCreate(w: World, s: Id, joins: seq<Id>, edges: seq<Id>, name: Name, limit: Limit)
    requires s < |w| && forall e :: e in joins ==> e < |w|
    ensures Created(Attached(w, s, joins, [], edges), name, limit, []) ==
            Attached(Created(w, name, limit, []), s, joins, [], edges)
  {
    hide Add;
  }

  /** The one new parent: reserve, leave one old parent, rewire. */
  lemma AttachOne(w: World, s: Id, e: Id, t: Id, edges: seq<Id>)
    requires s < |w| && e < |w| && t < |w| && e != s && e != t && s != t
    ensures var pinned := Referenced(w, [e], 1);
            && pinned[e].rc == w[e].rc && Verdict(pinned[e], Bulk(w[s].rc)) == Verdict(w[e], Bulk(w[s].rc))
            && Referenced(pinned, [e], -1) == w
            && var joined := AddedOn(pinned, [e], [], w[s].rc);
            && var left := Referenced(RemovedOn(joined, [t], [], w[s].rc), [t], -1);
            && left[s := left[s].(edges := edges)] == Attached(w, s, [e], [t], edges)
  {
    hide Attached, AddedOn, RemovedOn, Check;
    AttachNothing(w, s);
    AttachJoin(w, s, [], w[s].edges, e);
    assert [] + [e] == [e] && [] + [t] == [t];
    AttachLeave(w, s, [e], [], w[s].edges, t);
    AttachEdges(w, s, [e], [t], w[s].edges, edges);
  }

  /** Leaving all parents at once. */
  lemma AttachDrop(w: World, s: Id)
    requires s < |w| && s !in w[s].edges
    ensures var left := Dropped(w, w[s].edges, w[s].rc);
            left[s := left[s].(edges := [])] == Attached(w, s, [], w[s].edges, [])
  {
    hide Remove;
  }

  /** Two new parents in turn, each reserved first and referenced then; a refusal by the second undoes the first. */
  lemma AttachTwo(w: World, s: Id, e: Id, f: Id, edges: seq<Id>)
    requires s < |w| && e < |w| && f < |w| && e != s && f != s && e != f
    requires !w[e].done && Sane(w[e].rc) && Amount(w[s].rc)
    ensures var first := Referenced(AddedOn(w, [e], [], w[s].rc), [e], 1);
            && Referenced(RemovedOn(first, [e], [], w[s].rc), [e], -1) == w
            && first[f] == w[f]
            && var both := Referenced(AddedOn(first, [f], [], w[s].rc), [f], 1);
            && both[s := both[s].(edges := edges)] == Attached(w, s, [e, f], [], edges)
  {
    hide Attached, AddedOn, RemovedOn, Referenced, Sane, Amount;
    AttachNothing(w, s);
    var first := Attached(w, s, [] + [e], [], w[s].edges);
    AttachJoin(w, s, [], w[s].edges, e);
    ReservedFirst(w, e, w[s].rc);
    AttachUnjoin(w, s, [], w[s].edges, e);
    AttachElsewhere(w, s, [] + [e], [], w[s].edges, f);
    AttachJoin(w, s, [] + [e], w[s].edges, f);
    ReservedFirst(first, f, w[s].rc);
    assert [] + [e] + [f] == [e, f];
    AttachEdges(w, s, [e, f], [], w[s].edges, edges);
  }

  lemma ReservedFirst(w: World, e: Id, d: Stat)
    requires e < |w|
    ensures Referenced(AddedOn(w, [e], [], d), [e], 1) == AddedOn(Referenced(w, [e], 1), [e], [], d)
  {
    hide Add;
  }

  /** With `c` reserved, a second parent `q` is asked: what is undone if it refuses, and what follows if it grants. */
  lemma AttachSecond(w: World, s: Id, c: Id, q: Id)
    requires s < |w| && c < |w| && q < |w| && c != s && q != s && c != q
    requires !w[c].done && Sane(w[c].rc) && Amount(w[s].rc)
    ensures var d, pinned := w[s].rc, Referenced(Attached(w, s, [c], [], w[s].edges), [q], 1);
            && pinned[q].rc == w[q].rc && Verdict(pinned[q], Bulk(d)) == Verdict(w[q], Bulk(d))
            && Referenced(Referenced(RemovedOn(pinned, [c], [], d), [c], -1), [q], -1) == w
            && AddedOn(pinned, [q], [], d) == Attached(w, s, [c, q], [], w[s].edges)
  {
    hide AddedOn, RemovedOn, Referenced, Attached, Sane, Amount, Check;
    var d, x := w[s].rc, Attached(w, s, [c], [], w[s].edges);
    AttachElsewhere(w, s, [c], [], w[s].edges, q);
    PinnedVerdict(x, q, Bulk(d));
    assert [] + [c] == [c] && [c] + [q] == [c, q];
    AttachNothing(w, s);
    AttachUnjoin(w, s, [], w[s].edges, c);
    UndoPinned(x, c, q, d);
    AttachJoin(w, s, [c], w[s].edges, q);
  }

  lemma PinnedVerdict(w: World, q: Id, req: Request)
    requires q < |w|
    ensures Referenced(w, [q], 1)[q].rc == w[q].rc && Verdict(Referenced(w, [q], 1)[q], req) == Verdict(w[q], req)
  {
    hide Check;
  }

  lemma UndoPinned(x: World, c: Id, q: Id, d: Stat)
    requires c < |x| && q < |x| && c != q
    ensures Referenced(Referenced(RemovedOn(Referenced(x, [q], 1), [c], [], d), [c], -1), [q], -1) ==
            Referenced(RemovedOn(x, [c], [], d), [c], -1)
  {
    hide Remove;
  }

  lemma AttachFirst(w: World, s: Id, c: Id)
    requires s < |w| && c < |w| && c != s
    ensures var d, pinned := w[s].rc, Referenced(w, [c], 1);
            && pinned[c].rc == w[c].rc && Verdict(pinned[c], Bulk(d)) == Verdict(w[c], Bulk(d))
            && Referenced(pinned, [c], -1) == w
            && AddedOn(pinned, [c], [], d) == Attached(w, s, [c], [], w[s].edges)
  {
    PinBack(w, c);
    hide AddedOn, Referenced, Attached, Check;
    PinnedVerdict(w, c, Bulk(w[s].rc));
    AttachNothing(w, s);
    AttachJoin(w, s, [], w[s].edges, c);
    assert [] + [c] == [c];
  }

  lemma PinBack(w: World, c: Id)
    ensures Referenced(Referenced(w, [c], 1), [c], -1) == w
  {
  }

  /** A pin taken before and dropped after a scope is created is no matter. */
  lemma CreateUnderPin(w: World, e: Id, name: Name, limit: Limit, edges: seq<Id>)
    requires e < |w|
    ensures Referenced(Created(Referenced(w, [e], 1), name, limit, edges), [e], -1) == Created(w, name, limit, edges)
  {
  }
}
