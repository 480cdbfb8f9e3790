/**
 * Double-entry books for one counter (memory, say) of all scopes of the resource manager: what each scope
 * counts, what it has charged to others, and the primitive changes that every operation is made of.
 * Each primitive change comes with the lemma that it keeps the books balanced.
 */
module Ledgers {
  import opened Common

  type Id = nat

  /**
   * One counter of a scope. `use` is the counter; `own` is what was reserved on the scope directly, through its
   * spans included, and exists for the proofs only. `owner` is set for spans only and `edges`, the linearized
   * parent set, for the other scopes only.
   */
  datatype Node = Node(use: int, own: int, refCnt: int, done: bool, owner: Option<Id>, edges: seq<Id>)

  /** All scopes ever created, in creation order. */
  type Graph = seq<Node>

  // ---------------------------------------------------------------- what all scopes together put on one scope

  /** Charges and references that reach a scope over edges and from its spans. */
  datatype Totals = Totals(edgeSum: int, spanSum: int, edgeRefs: int, spanRefs: int)

  const NO_TOTALS := Totals(0, 0, 0, 0)

  function AddTotals(a: Totals, b: Totals): Totals {
    Totals(a.edgeSum + b.edgeSum, a.spanSum + b.spanSum, a.edgeRefs + b.edgeRefs, a.spanRefs + b.spanRefs)
  }

  function SubTotals(a: Totals, b: Totals): Totals {
    Totals(a.edgeSum - b.edgeSum, a.spanSum - b.spanSum, a.edgeRefs - b.edgeRefs, a.spanRefs - b.spanRefs)
  }

  /** What scope `c`, while open, puts on scope `t`. */
  function ShareOf(c: Node, t: Id): Totals {
    if c.done then NO_TOTALS
    else
      var edge := t in c.edges;
      var span := c.owner == Some(t);
      Totals(if edge then c.own else 0, if span then c.own else 0, if edge then 1 else 0, if span then 1 else 0)
  }

  /** The sum of the first `n` shares. */
  function Total(shares: seq<Totals>, n: nat): Totals
    requires n <= |shares|
  {
    if n == 0 then NO_TOTALS else AddTotals(Total(shares, n - 1), shares[n - 1])
  }

  lemma {:induction false} TotalOfPrefix(a: seq<Totals>, b: seq<Totals>, n: nat)
    requires n <= |a| && n <= |b| && forall i :: 0 <= i < n ==> a[i] == b[i]
    ensures Total(a, n) == Total(b, n)
  {
    if n > 0 { TotalOfPrefix(a, b, n - 1); }
  }

  lemma {:induction false} TotalUpdate(shares: seq<Totals>, k: nat, x: Totals, n: nat)
    requires k < n <= |shares|
    ensures Total(shares[k := x], n) == AddTotals(SubTotals(Total(shares, n), shares[k]), x)
  {
    if k == n - 1 {
      TotalOfPrefix(shares[k := x], shares, k);
    } else {
      TotalUpdate(shares, k, x, n - 1);
    }
  }

  lemma {:induction false} TotalBounds(shares: seq<Totals>, n: nat)
    requires n <= |shares| && forall i :: 0 <= i < n ==> Proper(shares[i])
    ensures Proper(Total(shares, n))
  {
    if n > 0 {
      TotalBounds(shares, n - 1);
      assert Proper(shares[n - 1]);
      ProperSum(Total(shares, n - 1), shares[n - 1]);
    }
  }

  lemma ProperSum(a: Totals, b: Totals)
    requires Proper(a) && Proper(b)
    ensures Proper(AddTotals(a, b))
  {
  }

  lemma {:induction false} NoRefsInTotal(shares: seq<Totals>, n: nat)
    requires n <= |shares| && forall i :: 0 <= i < n ==> shares[i].edgeRefs >= 0
    ensures Total(shares, n).edgeRefs >= 0
    ensures Total(shares, n).edgeRefs == 0 ==> forall i :: 0 <= i < n ==> shares[i].edgeRefs == 0
  {
    if n > 0 {
      NoRefsInTotal(shares, n - 1);
      assert shares[n - 1].edgeRefs >= 0;
    }
  }

  lemma {:induction false} TotalOfNothing(shares: seq<Totals>, n: nat)
    requires n <= |shares| && forall i :: 0 <= i < n ==> shares[i] == NO_TOTALS
    ensures Total(shares, n) == NO_TOTALS
  {
    if n > 0 {
      TotalOfNothing(shares, n - 1);
      assert shares[n - 1] == NO_TOTALS;
    }
  }

  /** Not negative, and no charge without an edge. */
  predicate Proper(x: Totals) {
    && 0 <= x.edgeSum && 0 <= x.spanSum && x.edgeRefs >= 0 && x.spanRefs >= 0
    && (x.edgeRefs == 0 ==> x.edgeSum == 0)
  }

  function Shares(g: Graph, t: Id): seq<Totals> {
    seq(|g|, i requires 0 <= i < |g| => ShareOf(g[i], t))
  }

  function Tally(g: Graph, t: Id): Totals { Total(Shares(g, t), |g|) }

  lemma TallyUpdate(g: Graph, k: Id, c: Node, t: Id)
    requires k < |g|
    ensures Tally(g[k := c], t) == AddTotals(SubTotals(Tally(g, t), ShareOf(g[k], t)), ShareOf(c, t))
  {
    assert Shares(g[k := c], t) == Shares(g, t)[k := ShareOf(c, t)];
    TotalUpdate(Shares(g, t), k, ShareOf(c, t), |g|);
  }

  lemma TallyAppend(g: Graph, c: Node, t: Id)
    ensures Tally(g + [c], t) == AddTotals(Tally(g, t), ShareOf(c, t))
  {
    var shares := Shares(g + [c], t);
    TotalOfPrefix(shares, Shares(g, t), |g|);
  }

  lemma TallyBounds(g: Graph, t: Id)
    requires forall i :: 0 <= i < |g| ==> 0 <= g[i].own
    ensures Proper(Tally(g, t))
    ensures Tally(g, t).edgeRefs == 0 ==> forall i :: 0 <= i < |g| && !g[i].done ==> t !in g[i].edges
  {
    var shares := Shares(g, t);
    TotalBounds(shares, |g|);
    NoRefsInTotal(shares, |g|);
    if Tally(g, t).edgeRefs == 0 {
      forall i | 0 <= i < |g| && !g[i].done ensures t !in g[i].edges { assert shares[i].edgeRefs == 0; }
    }
  }

  lemma TallyOfStranger(g: Graph, t: Id)
    requires forall i :: 0 <= i < |g| ==> t !in g[i].edges && g[i].owner != Some(t)
    ensures Tally(g, t) == NO_TOTALS
  {
    TotalOfNothing(Shares(g, t), |g|);
  }

  // ---------------------------------------------------------------- the shape of the scope graph

  /** A span is younger than its owner and has no edges; edges lead to other scopes that are not spans. */
  predicate ShapeAt(g: Graph, i: Id)
    requires i < |g|
  {
    var c := g[i];
    && (c.owner.Some? ==> c.owner.value < i && c.edges == [])
    && Distinct(c.edges)
    && (forall e :: e in c.edges ==> e < |g| && e != i && g[e].owner.None?)
  }

  predicate Shape(g: Graph) { forall i :: 0 <= i < |g| ==> ShapeAt(g, i) }

  // ---------------------------------------------------------------- the ledger of unfinished operations

  /**
   * What unfinished operations have changed on one scope but not yet on the others.
   * `charged`: counted on the scope, but in nobody's `own`.
   * `owed`: given up by a span, but not yet by its owner.
   * `pins`: references that are neither an edge nor a span.
   */
  datatype Entry = Entry(charged: int, owed: int, pins: int)

  type Ledger = seq<Entry>

  const NOTHING := Entry(0, 0, 0)

  /** The books of one scope balance, given the totals that the other scopes put on it. */
  predicate BooksBalance(c: Node, total: Totals, entry: Entry) {
    && 0 <= c.own && entry.pins >= 0
    && c.refCnt == total.edgeRefs + total.spanRefs + entry.pins
    && (!c.done ==>
          && c.use == c.own + total.edgeSum + entry.charged
          && total.spanSum + entry.owed <= c.own)
  }

  predicate Books(g: Graph, led: Ledger)
    requires |led| == |g|
  {
    forall t :: 0 <= t < |g| ==> BooksBalance(g[t], Tally(g, t), led[t])
  }

  /** No scope outlives its parents: the edges of an open scope are open. */
  predicate ParentsOpen(g: Graph) {
    forall i :: 0 <= i < |g| && !g[i].done ==> forall e :: e in g[i].edges ==> e < |g| && !g[e].done
  }

  /** The invariant: the graph has its shape, open scopes have open parents, every scope's books balance. */
  predicate Balanced(g: Graph, led: Ledger) {
    |led| == |g| && Shape(g) && ParentsOpen(g) && Books(g, led)
  }

  lemma BalancedTotals(g: Graph, led: Ledger, t: Id)
    requires Balanced(g, led)
    ensures Proper(Tally(g, t))
    ensures Tally(g, t).edgeRefs == 0 ==> forall i :: 0 <= i < |g| && !g[i].done ==> t !in g[i].edges
  {
    forall i | 0 <= i < |g| ensures 0 <= g[i].own { assert BooksBalance(g[i], Tally(g, i), led[i]); }
    TallyBounds(g, t);
  }

  /** A scope counts at least what any one open scope has charged to it over an edge. */
  lemma ShareInTally(g: Graph, led: Ledger, s: Id, t: Id)
    requires Balanced(g, led) && s < |g| && t < |g| && !g[s].done && !g[t].done && t in g[s].edges
    requires 0 <= led[t].charged
    ensures 0 <= g[s].own <= g[t].use
  {
    assert BooksBalance(g[s], Tally(g, s), led[s]) && BooksBalance(g[t], Tally(g, t), led[t]);
    forall i | 0 <= i < |g| ensures 0 <= g[i].own { assert BooksBalance(g[i], Tally(g, i), led[i]); }
    var shares := Shares(g, t);
    assert shares[s] == ShareOf(g[s], t);
    ShareInTotal(shares, |g|, s);
  }

  lemma {:induction false} ShareInTotal(shares: seq<Totals>, n: nat, k: nat)
    requires k < n <= |shares| && forall i :: 0 <= i < n ==> 0 <= shares[i].edgeSum
    ensures 0 <= shares[k].edgeSum <= Total(shares, n).edgeSum
  {
    assert 0 <= shares[n - 1].edgeSum;
    if k < n - 1 {
      ShareInTotal(shares, n - 1, k);
    } else {
      TotalNotNegative(shares, n - 1);
    }
  }

  lemma {:induction false} TotalNotNegative(shares: seq<Totals>, n: nat)
    requires n <= |shares| && forall i :: 0 <= i < n ==> 0 <= shares[i].edgeSum
    ensures 0 <= Total(shares, n).edgeSum
  {
    if n > 0 {
      TotalNotNegative(shares, n - 1);
      assert 0 <= shares[n - 1].edgeSum;
    }
  }

  // ---------------------------------------------------------------- changes of the ledger

  function Charge(led: Ledger, t: Id, d: int): Ledger
    requires t < |led|
  {
    led[t := led[t].(charged := led[t].charged + d)]
  }

  function Uncharge(led: Ledger, t: Id, d: int): Ledger
    requires t < |led|
  {
    Charge(led, t, -d)
  }

  function AddPins(led: Ledger, t: Id, n: int): Ledger
    requires t < |led|
  {
    led[t := led[t].(pins := led[t].pins + n)]
  }

  /** The scopes in `ids` carry `d` more of unfinished operations, and `n` more pins. */
  function Carry(led: Ledger, ids: seq<Id>, d: int, n: int): Ledger {
    seq(|led|, i requires 0 <= i < |led| =>
      if i in ids then led[i].(charged := led[i].charged + d, pins := led[i].pins + n) else led[i])
  }

  function Owe(led: Ledger, t: Id, d: int): Ledger
    requires t < |led|
  {
    led[t := led[t].(owed := led[t].owed + d)]
  }

  // ---------------------------------------------------------------- the primitive changes

  /**
   * An unfinished operation charges a scope (`d` positive) or takes its charge back (`d` negative);
   * a closed scope ignores it.
   */
  lemma ChargeBalances(g: Graph, led: Ledger, t: Id, d: int)
    requires Balanced(g, led) && t < |g|
    ensures Balanced(Charged(g, t, d), Charge(led, t, d))
  {
    assert BooksBalance(g[t], Tally(g, t), led[t]);
    var c := if g[t].done then g[t] else g[t].(use := g[t].use + d);
    SameGraph(g, t, c);
    BooksAfter(g, led, t, c, led[t].(charged := led[t].charged + d));
    assert Charged(g, t, d) == g[t := c];
  }

  function Charged(g: Graph, t: Id, d: int): Graph
    requires t < |g|
  {
    if g[t].done then g else g[t := g[t].(use := g[t].use + d)]
  }

  /** An open scope counts at least what it owns, what its spans own and what operations have charged to it. */
  lemma UseCovers(g: Graph, led: Ledger, t: Id)
    requires Balanced(g, led) && t < |g| && !g[t].done
    ensures g[t].use >= g[t].own + led[t].charged >= led[t].charged
    ensures g[t].own >= led[t].owed
  {
    assert BooksBalance(g[t], Tally(g, t), led[t]);
    BalancedTotals(g, led, t);
  }

  /** One scope changes, but not what it puts on others. */
  lemma BooksAfter(g: Graph, led: Ledger, t: Id, c: Node, entry: Entry)
    requires |led| == |g| && t < |g| && Books(g, led)
    requires c.own == g[t].own && c.done == g[t].done && c.owner == g[t].owner && c.edges == g[t].edges
    requires BooksBalance(c, Tally(g, t), entry)
    ensures Books(g[t := c], led[t := entry])
  {
    var g' := g[t := c];
    forall i | 0 <= i < |g| ensures BooksBalance(g'[i], Tally(g', i), led[t := entry][i]) {
      SameTally(g, t, c, i);
    }
  }

  lemma SameGraph(g: Graph, k: Id, c: Node)
    requires k < |g| && Shape(g) && ParentsOpen(g)
    requires c.owner == g[k].owner && c.edges == g[k].edges && c.done == g[k].done
    ensures Shape(g[k := c]) && ParentsOpen(g[k := c])
  {
    var g' := g[k := c];
    forall i | 0 <= i < |g| ensures ShapeAt(g', i) { assert ShapeAt(g, i); }
  }

  /** A change that leaves what the scope puts on others leaves all totals. */
  lemma SameTally(g: Graph, k: Id, c: Node, t: Id)
    requires k < |g| && c.own == g[k].own && c.done == g[k].done && c.owner == g[k].owner && c.edges == g[k].edges
    ensures Tally(g[k := c], t) == Tally(g, t)
  {
    TallyUpdate(g, k, c, t);
  }

  /** A pin is taken or dropped (IncRef, DecRef). */
  lemma PinBalances(g: Graph, led: Ledger, t: Id, n: int)
    requires Balanced(g, led) && t < |g| && led[t].pins + n >= 0
    ensures Balanced(g[t := g[t].(refCnt := g[t].refCnt + n)], AddPins(led, t, n))
  {
    var c := g[t].(refCnt := g[t].refCnt + n);
    SameGraph(g, t, c);
    BooksAfter(g, led, t, c, led[t].(pins := led[t].pins + n));
  }

  /**
   * The reservation of a scope with edges becomes its own (`d` positive) or is given up (`d` negative):
   * what the scope and its edges count no longer belongs to the operation, or belongs to it from now on.
   */
  lemma SettleBalances(g: Graph, led: Ledger, s: Id, d: int)
    requires Balanced(g, led) && s < |g| && !g[s].done && g[s].owner.None?
    requires 0 <= g[s].own + d && Tally(g, s).spanSum + led[s].owed <= g[s].own + d
    ensures Balanced(g[s := g[s].(own := g[s].own + d)], Carry(Uncharge(led, s, d), g[s].edges, -d, 0))
  {
    var c := g[s].(own := g[s].own + d);
    var g', led' := g[s := c], Carry(Uncharge(led, s, d), g[s].edges, -d, 0);
    assert ShapeAt(g, s);
    SameGraph(g, s, c);
    forall i | 0 <= i < |g| ensures BooksBalance(g'[i], Tally(g', i), led'[i]) {
      SettledTally(g, s, d, i);
      if i == s {
        SettledOwn(g[s], Tally(g, s), led[s], d);
      } else if i in g[s].edges {
        SettledEdge(g[i], Tally(g, i), led[i], d);
      } else {
        assert led'[i] == led[i];
      }
    }
  }

  lemma SettledTally(g: Graph, s: Id, d: int, t: Id)
    requires s < |g| && !g[s].done && g[s].owner.None?
    ensures Tally(g[s := g[s].(own := g[s].own + d)], t) ==
            if t in g[s].edges then Tally(g, t).(edgeSum := Tally(g, t).edgeSum + d) else Tally(g, t)
  {
    TallyUpdate(g, s, g[s].(own := g[s].own + d), t);
  }

  lemma SettledOwn(c: Node, total: Totals, entry: Entry, d: int)
    requires BooksBalance(c, total, entry) && !c.done
    requires 0 <= c.own + d && total.spanSum + entry.owed <= c.own + d
    ensures BooksBalance(c.(own := c.own + d), total, entry.(charged := entry.charged + -d))
  {
  }

  lemma SettledEdge(c: Node, total: Totals, entry: Entry, d: int)
    requires BooksBalance(c, total, entry)
    ensures BooksBalance(c, total.(edgeSum := total.edgeSum + d), entry.(charged := entry.charged + -d))
  {
  }

  /** The same for a span, which passes its own charge on to its owner instead of to edges. */
  lemma SettleSpanBalances(g: Graph, led: Ledger, s: Id, o: Id, d: int)
    requires Balanced(g, led) && s < |g| && o < |g| && !g[s].done && g[s].owner == Some(o)
    requires 0 <= g[s].own + d && Tally(g, s).spanSum + led[s].owed <= g[s].own + d
    ensures Balanced(g[s := g[s].(own := g[s].own + d)], Owe(Uncharge(led, s, d), o, -d))
  {
    var c := g[s].(own := g[s].own + d);
    var g', led' := g[s := c], Owe(Uncharge(led, s, d), o, -d);
    assert ShapeAt(g, s);
    SameGraph(g, s, c);
    forall i | 0 <= i < |g| ensures BooksBalance(g'[i], Tally(g', i), led'[i]) {
      SettledSpanTally(g, s, d, i);
      if i == s {
        SettledOwn(g[s], Tally(g, s), led[s], d);
      } else if i == o {
        SettledOwner(g[i], Tally(g, i), led[i], d);
      } else {
        assert led'[i] == led[i];
      }
    }
  }

  lemma SettledSpanTally(g: Graph, s: Id, d: int, t: Id)
    requires s < |g| && !g[s].done && g[s].owner.Some? && g[s].edges == []
    ensures Tally(g[s := g[s].(own := g[s].own + d)], t) ==
            if g[s].owner.value == t then Tally(g, t).(spanSum := Tally(g, t).spanSum + d) else Tally(g, t)
  {
    TallyUpdate(g, s, g[s].(own := g[s].own + d), t);
  }

  lemma SettledOwner(c: Node, total: Totals, entry: Entry, d: int)
    requires BooksBalance(c, total, entry)
    ensures BooksBalance(c, total.(spanSum := total.spanSum + d), entry.(owed := entry.owed + -d))
  {
  }

  /** A debt of the spans of `t` to `t` is opened (`d` positive) or struck off (`d` negative). */
  lemma OweBalances(g: Graph, led: Ledger, t: Id, d: int)
    requires Balanced(g, led) && t < |g|
    requires !g[t].done ==> Tally(g, t).spanSum + (led[t].owed + d) <= g[t].own
    ensures Balanced(g, Owe(led, t, d))
  {
    assert BooksBalance(g[t], Tally(g, t), led[t]);
    BooksAfter(g, led, t, g[t], led[t].(owed := led[t].owed + d));
    assert g[t := g[t]] == g;
  }

  // ---------------------------------------------------------------- closing

  function Closed(c: Node): Node { c.(use := 0, own := 0, done := true) }

  /**
   * A scope that nobody has as an edge, and that no unfinished operation has charged, holds exactly its own
   * charge. When it closes, that charge and one reference are left to be returned on each of its edges.
   */
  lemma CloseBalances(g: Graph, led: Ledger, s: Id)
    requires Balanced(g, led) && s < |g| && !g[s].done && g[s].owner.None?
    requires Tally(g, s).edgeRefs == 0 && led[s].charged == 0
    ensures g[s].use == g[s].own
    ensures Balanced(g[s := Closed(g[s])], Carry(led, g[s].edges, g[s].own, 1))
  {
    var g', led' := g[s := Closed(g[s])], Carry(led, g[s].edges, g[s].own, 1);
    assert ShapeAt(g, s) && BooksBalance(g[s], Tally(g, s), led[s]);
    BalancedTotals(g, led, s);
    CloseGraph(g, s);
    forall i | 0 <= i < |g| ensures BooksBalance(g'[i], Tally(g', i), led'[i]) {
      ClosedTally(g, s, i);
      if i == s {
      } else if i in g[s].edges {
        ClosedEdge(g[i], Tally(g, i), led[i], g[s].own);
      } else {
        assert led'[i] == led[i];
      }
    }
  }

  lemma CloseGraph(g: Graph, s: Id)
    requires s < |g| && Shape(g) && ParentsOpen(g)
    requires forall i :: 0 <= i < |g| && !g[i].done ==> s !in g[i].edges
    ensures Shape(g[s := Closed(g[s])]) && ParentsOpen(g[s := Closed(g[s])])
  {
    var g' := g[s := Closed(g[s])];
    forall i | 0 <= i < |g| ensures ShapeAt(g', i) { assert ShapeAt(g, i); }
  }

  lemma ClosedTally(g: Graph, s: Id, t: Id)
    requires s < |g| && !g[s].done && g[s].owner.None?
    ensures Tally(g[s := Closed(g[s])], t) ==
            if t in g[s].edges
            then Tally(g, t).(edgeSum := Tally(g, t).edgeSum - g[s].own, edgeRefs := Tally(g, t).edgeRefs - 1)
            else Tally(g, t)
  {
    TallyUpdate(g, s, Closed(g[s]), t);
  }

  lemma ClosedEdge(c: Node, total: Totals, entry: Entry, d: int)
    requires BooksBalance(c, total, entry)
    ensures BooksBalance(c, total.(edgeSum := total.edgeSum - d, edgeRefs := total.edgeRefs - 1),
                         entry.(charged := entry.charged + d, pins := entry.pins + 1))
  {
  }

  /** A span that closes leaves its charge and one reference to be returned on its owner. */
  lemma CloseSpanBalances(g: Graph, led: Ledger, s: Id, o: Id)
    requires Balanced(g, led) && s < |g| && o < |g| && !g[s].done && g[s].owner == Some(o)
    requires led[s].charged == 0
    ensures g[s].use == g[s].own
    ensures Balanced(g[s := Closed(g[s])], AddPins(Owe(led, o, g[s].own), o, 1))
  {
    var g', led' := g[s := Closed(g[s])], AddPins(Owe(led, o, g[s].own), o, 1);
    assert ShapeAt(g, s) && BooksBalance(g[s], Tally(g, s), led[s]);
    SpansAreNoEdges(g, led, s);
    CloseGraph(g, s);
    forall i | 0 <= i < |g| ensures BooksBalance(g'[i], Tally(g', i), led'[i]) {
      ClosedSpanTally(g, s, i);
      if i == s {
      } else if i == o {
        ClosedOwner(g[i], Tally(g, i), led[i], g[s].own);
      } else {
        assert led'[i] == led[i];
      }
    }
  }

  lemma SpansAreNoEdges(g: Graph, led: Ledger, s: Id)
    requires Balanced(g, led) && s < |g| && g[s].owner.Some?
    ensures Tally(g, s).edgeSum == 0
    ensures forall i :: 0 <= i < |g| ==> s !in g[i].edges
  {
    forall i | 0 <= i < |g| ensures s !in g[i].edges { assert ShapeAt(g, i); }
    NoRefsToNone(g, s);
    BalancedTotals(g, led, s);
  }

  lemma NoRefsToNone(g: Graph, t: Id)
    requires forall i :: 0 <= i < |g| && !g[i].done ==> t !in g[i].edges
    ensures Tally(g, t).edgeRefs == 0
  {
    NoRefsIfNone(Shares(g, t), |g|);
  }

  lemma {:induction false} NoRefsIfNone(shares: seq<Totals>, n: nat)
    requires n <= |shares| && forall i :: 0 <= i < n ==> shares[i].edgeRefs == 0
    ensures Total(shares, n).edgeRefs == 0
  {
    if n > 0 {
      NoRefsIfNone(shares, n - 1);
      assert shares[n - 1].edgeRefs == 0;
    }
  }

  lemma ClosedSpanTally(g: Graph, s: Id, t: Id)
    requires s < |g| && !g[s].done && g[s].owner.Some? && g[s].edges == []
    ensures Tally(g[s := Closed(g[s])], t) ==
            if g[s].owner.value == t
            then Tally(g, t).(spanSum := Tally(g, t).spanSum - g[s].own, spanRefs := Tally(g, t).spanRefs - 1)
            else Tally(g, t)
  {
    TallyUpdate(g, s, Closed(g[s]), t);
  }

  lemma ClosedOwner(c: Node, total: Totals, entry: Entry, d: int)
    requires BooksBalance(c, total, entry)
    ensures BooksBalance(c, total.(spanSum := total.spanSum - d, spanRefs := total.spanRefs - 1),
                         entry.(owed := entry.owed + d, pins := entry.pins + 1))
  {
  }

  // ---------------------------------------------------------------- moving between parents

  /** A scope leaves its edges: its charge and one reference are left to be returned on each of them. */
  lemma LeaveEdgesBalances(g: Graph, led: Ledger, s: Id)
    requires Balanced(g, led) && s < |g| && !g[s].done
    ensures Balanced(g[s := g[s].(edges := [])], Carry(led, g[s].edges, g[s].own, 1))
  {
    var g', led' := g[s := g[s].(edges := [])], Carry(led, g[s].edges, g[s].own, 1);
    assert ShapeAt(g, s);
    RewiredGraph(g, s, []);
    forall i | 0 <= i < |g| ensures BooksBalance(g'[i], Tally(g', i), led'[i]) {
      LeftTally(g, s, i);
      if i in g[s].edges {
        ClosedEdge(g[i], Tally(g, i), led[i], g[s].own);
      } else {
        RewiredBooks(g[i], g'[i], Tally(g, i), led[i]);
        assert led'[i] == led[i];
      }
    }
  }

  lemma RewiredBooks(c: Node, c': Node, total: Totals, entry: Entry)
    requires BooksBalance(c, total, entry) && c' == c.(edges := c'.edges)
    ensures BooksBalance(c', total, entry)
  {
  }

  lemma RewiredGraph(g: Graph, s: Id, edges: seq<Id>)
    requires s < |g| && Shape(g) && ParentsOpen(g) && Distinct(edges) && s !in edges
    requires g[s].owner.Some? ==> edges == []
    requires forall e :: e in edges ==> e < |g| && !g[e].done && g[e].owner.None?
    ensures Shape(g[s := g[s].(edges := edges)]) && ParentsOpen(g[s := g[s].(edges := edges)])
  {
    var g' := g[s := g[s].(edges := edges)];
    forall i | 0 <= i < |g| ensures ShapeAt(g', i) { assert ShapeAt(g, i); }
  }

  lemma LeftTally(g: Graph, s: Id, t: Id)
    requires s < |g| && !g[s].done
    ensures Tally(g[s := g[s].(edges := [])], t) ==
            if t in g[s].edges
            then Tally(g, t).(edgeSum := Tally(g, t).edgeSum - g[s].own, edgeRefs := Tally(g, t).edgeRefs - 1)
            else Tally(g, t)
  {
    TallyUpdate(g, s, g[s].(edges := []), t);
  }

  /** A scope without edges joins new ones, on each of which its charge was reserved and a reference taken. */
  lemma JoinEdgesBalances(g: Graph, led: Ledger, s: Id, edges: seq<Id>)
    requires Balanced(g, led) && s < |g| && !g[s].done && g[s].owner.None? && g[s].edges == []
    requires Distinct(edges) && s !in edges
    requires forall e :: e in edges ==> e < |g| && !g[e].done && g[e].owner.None? && led[e].pins >= 1
    ensures Balanced(g[s := g[s].(edges := edges)], Carry(led, edges, -g[s].own, -1))
  {
    var g', led' := g[s := g[s].(edges := edges)], Carry(led, edges, -g[s].own, -1);
    RewiredGraph(g, s, edges);
    forall i | 0 <= i < |g| ensures BooksBalance(g'[i], Tally(g', i), led'[i]) {
      JoinedTally(g, s, edges, i);
      if i in edges {
        JoinedEdge(g[i], Tally(g, i), led[i], g[s].own);
      } else {
        RewiredBooks(g[i], g'[i], Tally(g, i), led[i]);
        assert led'[i] == led[i];
      }
    }
  }

  lemma JoinedTally(g: Graph, s: Id, edges: seq<Id>, t: Id)
    requires s < |g| && !g[s].done && g[s].edges == []
    ensures Tally(g[s := g[s].(edges := edges)], t) ==
            if t in edges
            then Tally(g, t).(edgeSum := Tally(g, t).edgeSum + g[s].own, edgeRefs := Tally(g, t).edgeRefs + 1)
            else Tally(g, t)
  {
    TallyUpdate(g, s, g[s].(edges := edges), t);
  }

  lemma JoinedEdge(c: Node, total: Totals, entry: Entry, d: int)
    requires BooksBalance(c, total, entry) && entry.pins >= 1
    ensures BooksBalance(c, total.(edgeSum := total.edgeSum + d, edgeRefs := total.edgeRefs + 1),
                         entry.(charged := entry.charged + -d, pins := entry.pins + -1))
  {
  }

  // ---------------------------------------------------------------- new scopes

  function NewNode(owner: Option<Id>, edges: seq<Id>): Node {
    Node(0, 0, 0, false, owner, edges)
  }

  /** A new scope turns a pin on each of its edges into an edge. */
  lemma CreateBalances(g: Graph, led: Ledger, edges: seq<Id>)
    requires Balanced(g, led) && Distinct(edges)
    requires forall e :: e in edges ==> e < |g| && !g[e].done && g[e].owner.None? && led[e].pins >= 1
    ensures Balanced(g + [NewNode(None, edges)], Carry(led, edges, 0, -1) + [NOTHING])
  {
    var c := NewNode(None, edges);
    var g', led' := g + [c], Carry(led, edges, 0, -1) + [NOTHING];
    AppendGraph(g, c);
    forall i | 0 <= i < |g'| ensures BooksBalance(g'[i], Tally(g', i), led'[i]) {
      if i == |g| {
        TallyOfNew(g, c);
      } else if i in edges {
        CreatedTally(g, None, edges, i);
        CreatedEdge(g[i], Tally(g, i), led[i]);
      } else {
        CreatedTally(g, None, edges, i);
        assert led'[i] == led[i];
      }
    }
  }

  lemma CreatedTally(g: Graph, owner: Option<Id>, edges: seq<Id>, t: Id)
    requires t < |g|
    ensures Tally(g + [NewNode(owner, edges)], t) ==
            Tally(g, t).(edgeRefs := Tally(g, t).edgeRefs + (if t in edges then 1 else 0),
                         spanRefs := Tally(g, t).spanRefs + (if owner == Some(t) then 1 else 0))
  {
    TallyAppend(g, NewNode(owner, edges), t);
    ShareOfNew(owner, edges, t);
  }

  lemma ShareOfNew(owner: Option<Id>, edges: seq<Id>, t: Id)
    ensures var share := ShareOf(NewNode(owner, edges), t);
            && share.edgeSum == share.spanSum == 0
            && share.edgeRefs == (if t in edges then 1 else 0)
            && share.spanRefs == (if owner == Some(t) then 1 else 0)
  {
  }

  /** A scope that nobody refers to yet. */
  lemma TallyOfNew(g: Graph, c: Node)
    requires Shape(g) && |g| !in c.edges && c.owner != Some(|g|)
    ensures Tally(g + [c], |g|) == NO_TOTALS
  {
    forall i | 0 <= i < |g| ensures |g| !in g[i].edges && g[i].owner != Some(|g|) { assert ShapeAt(g, i); }
    TallyOfStranger(g + [c], |g|);
  }

  lemma CreatedEdge(c: Node, total: Totals, entry: Entry)
    requires BooksBalance(c, total, entry) && entry.pins >= 1
    ensures BooksBalance(c, total.(edgeRefs := total.edgeRefs + 1),
                         entry.(charged := entry.charged + 0, pins := entry.pins + -1))
  {
  }

  lemma AppendGraph(g: Graph, c: Node)
    requires Shape(g) && ParentsOpen(g) && Distinct(c.edges)
    requires c.owner.Some? ==> c.owner.value < |g| && c.edges == []
    requires forall e :: e in c.edges ==> e < |g| && !g[e].done && g[e].owner.None?
    ensures Shape(g + [c]) && ParentsOpen(g + [c])
  {
    var g' := g + [c];
    forall i | 0 <= i < |g'| ensures ShapeAt(g', i) { if i < |g| { assert ShapeAt(g, i); } }
  }

  /** A new span takes a reference on its owner and has the owner's limit (BeginSpan). */
  lemma BeginSpanBalances(g: Graph, led: Ledger, o: Id)
    requires Balanced(g, led) && o < |g| && !g[o].done
    ensures Balanced(SpanBegun(g, o), led + [NOTHING])
  {
    var span := NewNode(Some(o), []);
    var c := g[o].(refCnt := g[o].refCnt + 1);
    var g1, g' := g[o := c], SpanBegun(g, o);
    assert ShapeAt(g, o);
    SameGraph(g, o, c);
    AppendGraph(g1, span);
    var led' := led + [NOTHING];
    forall i | 0 <= i < |g'| ensures BooksBalance(g'[i], Tally(g', i), led'[i]) {
      if i == |g| {
        TallyOfNew(g1, span);
      } else {
        CreatedTally(g1, Some(o), [], i);
        SameTally(g, o, c, i);
        if i == o { BegunOwner(g[o], Tally(g, o), led[o]); }
      }
    }
  }

  function SpanBegun(g: Graph, o: Id): Graph
    requires o < |g|
  {
    g[o := g[o].(refCnt := g[o].refCnt + 1)] + [NewNode(Some(o), [])]
  }

  lemma BegunOwner(c: Node, total: Totals, entry: Entry)
    requires BooksBalance(c, total, entry)
    ensures BooksBalance(c.(refCnt := c.refCnt + 1), total.(spanRefs := total.spanRefs + 1), entry)
  {
  }

  // ---------------------------------------------------------------- whole operations

  /** The owner chain of a scope, from itself up to a scope that is not a span. */
  function Spine(g: Graph, s: Id): seq<Id>
    requires Shape(g) && s < |g|
  {
    assert ShapeAt(g, s);
    if g[s].owner.None? then [s] else [s] + Spine(g, g[s].owner.value)
  }

  /** All scopes a reservation on `s` is charged to: its owner chain and the edges of the last owner. */
  function Path(g: Graph, s: Id): seq<Id>
    requires Shape(g) && s < |g|
    decreases s, 1
  {
    [s] + Beyond(g, s)
  }

  /** The path without `s` itself. */
  function Beyond(g: Graph, s: Id): seq<Id>
    requires Shape(g) && s < |g|
    decreases s, 0
  {
    assert ShapeAt(g, s);
    if g[s].owner.None? then g[s].edges else Path(g, g[s].owner.value)
  }

  /** The owner chain without `s` itself. */
  function Owners(g: Graph, s: Id): seq<Id>
    requires Shape(g) && s < |g|
  {
    assert ShapeAt(g, s);
    if g[s].owner.None? then [] else Spine(g, g[s].owner.value)
  }

  /** The owner chain up to the first closed scope, where a release stops. */
  function LiveSpine(g: Graph, s: Id): seq<Id>
    requires Shape(g) && s < |g|
  {
    assert ShapeAt(g, s);
    if g[s].done then []
    else if g[s].owner.None? then [s]
    else [s] + LiveSpine(g, g[s].owner.value)
  }

  /** The scopes a release on `s` reaches. */
  function LivePath(g: Graph, s: Id): seq<Id>
    requires Shape(g) && s < |g|
  {
    assert ShapeAt(g, s);
    if g[s].done then []
    else if g[s].owner.None? then [s] + g[s].edges
    else [s] + LivePath(g, g[s].owner.value)
  }

  /** Paths lead to older spans and to scopes that are not spans. */
  lemma {:induction false} PathFacts(g: Graph, s: Id)
    requires Shape(g) && s < |g|
    ensures forall i :: i in Path(g, s) ==> i < |g|
    ensures forall i :: i in Spine(g, s) ==> i in Path(g, s) && i <= s
    ensures forall i :: i in Path(g, s) && g[i].owner.Some? ==> i <= s
    ensures forall i :: i in LivePath(g, s) ==> i in Path(g, s)
    ensures forall i :: i in LiveSpine(g, s) ==> i in Spine(g, s) && i in LivePath(g, s) && !g[i].done
  {
    assert ShapeAt(g, s);
    if g[s].owner.Some? { PathFacts(g, g[s].owner.value); }
  }

  /** On an open path nothing stops a release. */
  lemma {:induction false} OpenPathIsLive(g: Graph, s: Id)
    requires Shape(g) && s < |g|
    requires forall i :: i in Path(g, s) ==> i < |g| && !g[i].done
    ensures LivePath(g, s) == Path(g, s) && LiveSpine(g, s) == Spine(g, s)
  {
    assert ShapeAt(g, s);
    assert s in Path(g, s);
    if g[s].owner.Some? {
      assert forall i :: i in Path(g, g[s].owner.value) ==> i in Path(g, s);
      OpenPathIsLive(g, g[s].owner.value);
    }
  }

  /** `d` is added along everything a release on `s` would reach. */
  function Shifted(g: Graph, s: Id, d: int): Graph
    requires Shape(g) && s < |g|
  {
    ShiftedOn(g, LivePath(g, s), LiveSpine(g, s), d)
  }

  function ShiftedOn(g: Graph, path: seq<Id>, spine: seq<Id>, d: int): Graph {
    seq(|g|, i requires 0 <= i < |g| =>
      if i in path && !g[i].done then
        g[i].(use := g[i].use + d, own := if i in spine then g[i].own + d else g[i].own)
      else g[i])
  }

  /** One step along the owner chain. */
  lemma SpanStep(g: Graph, s: Id, o: Id)
    requires Shape(g) && s < |g| && !g[s].done && g[s].owner == Some(o)
    ensures o < s
    ensures LivePath(g, s) == [s] + LivePath(g, o) && LiveSpine(g, s) == [s] + LiveSpine(g, o)
    ensures s !in LivePath(g, o) && s !in LiveSpine(g, o)
  {
    assert ShapeAt(g, s);
    PathFacts(g, o);
  }

  lemma ShiftedSpan(g: Graph, s: Id, o: Id, d: int)
    requires Shape(g) && s < |g| && !g[s].done && g[s].owner == Some(o) && o < s
    ensures Shifted(g, o, d)[s] == g[s]
    ensures Shifted(g, s, d) == Shifted(g, o, d)[s := Bumped(g[s], d)]
  {
    SpanStep(g, s, o);
    ShiftedOnLast(g, LivePath(g, o), LiveSpine(g, o), s, d);
  }

  lemma ShiftedOnLast(g: Graph, path: seq<Id>, spine: seq<Id>, s: Id, d: int)
    requires s < |g| && !g[s].done && s !in path
    ensures ShiftedOn(g, path, spine, d)[s] == g[s]
    ensures ShiftedOn(g, [s] + path, [s] + spine, d) == ShiftedOn(g, path, spine, d)[s := Bumped(g[s], d)]
  {
    var p, q := [s] + path, [s] + spine;
    assert s in p && s in q;
    assert forall i :: i != s ==> (i in p <==> i in path) && (i in q <==> i in spine);
  }

  /** The same, the span first. */
  lemma ShiftedSpanFirst(g: Graph, g1: Graph, s: Id, o: Id, d: int)
    requires Shape(g) && s < |g| && !g[s].done && g[s].owner == Some(o) && o < s
    requires g1 == g[s := Bumped(g[s], d)] && Shape(g1)
    ensures Shifted(g1, o, d) == Shifted(g, s, d)
  {
    SamePaths(g, g1, o);
    SpanStep(g, s, o);
    ShiftedOnFirst(g, LivePath(g, o), LiveSpine(g, o), s, d);
  }

  lemma ShiftedOnFirst(g: Graph, path: seq<Id>, spine: seq<Id>, s: Id, d: int)
    requires s < |g| && !g[s].done && s !in path
    ensures ShiftedOn(g[s := Bumped(g[s], d)], path, spine, d) == ShiftedOn(g, [s] + path, [s] + spine, d)
  {
    var p, q := [s] + path, [s] + spine;
    assert s in p && s in q;
    assert forall i :: i != s ==> (i in p <==> i in path) && (i in q <==> i in spine);
  }

  function Bumped(c: Node, d: int): Node { c.(use := c.use + d, own := c.own + d) }

  /** Links decide the paths; counters do not. */
  predicate SameLinks(g: Graph, g': Graph) {
    && |g| == |g'|
    && forall i :: 0 <= i < |g| ==> g'[i].done == g[i].done && g'[i].owner == g[i].owner && g'[i].edges == g[i].edges
  }

  /** Only owners decide a path, and they are older than their spans. */
  lemma {:induction false} SamePaths(g: Graph, g': Graph, s: Id)
    requires Shape(g) && Shape(g') && s < |g| && s < |g'|
    requires forall i :: 0 <= i <= s ==>
      g'[i].done == g[i].done && g'[i].owner == g[i].owner && g'[i].edges == g[i].edges
    ensures Spine(g, s) == Spine(g', s) && Path(g, s) == Path(g', s)
    ensures LiveSpine(g, s) == LiveSpine(g', s) && LivePath(g, s) == LivePath(g', s)
  {
    assert ShapeAt(g, s);
    if g[s].owner.Some? { SamePaths(g, g', g[s].owner.value); }
  }

  /** What the scope holds that its spans do not, and that no span has given back. */
  function Direct(g: Graph, led: Ledger, s: Id): int
    requires s < |g| == |led|
  {
    g[s].own - Tally(g, s).spanSum - led[s].owed
  }

  /** Only on `s` does what may be released directly change, and there by `d`. */
  predicate DirectMoves(g: Graph, g': Graph, led: Ledger, s: Id, d: int)
    requires |g| == |g'| == |led|
  {
    forall t :: 0 <= t < |g| ==> Direct(g', led, t) == Direct(g, led, t) + if t == s then d else 0
  }

  /** A scope with edges and its edges take up `d` together. */
  lemma RootShiftBalances(g: Graph, led: Ledger, s: Id, d: int)
    requires Balanced(g, led) && s < |g| && !g[s].done && g[s].owner.None?
    requires 0 <= g[s].own + d && 0 <= Direct(g, led, s) + d
    ensures Balanced(Shifted(g, s, d), led)
    ensures DirectMoves(g, Shifted(g, s, d), led, s, d)
  {
    var g' := Shifted(g, s, d);
    assert ShapeAt(g, s);
    RootShiftNodes(g, s, d);
    LinksKeepGraph(g, g');
    forall i | 0 <= i < |g|
      ensures BooksBalance(g'[i], Tally(g', i), led[i])
      ensures Tally(g', i).spanSum == Tally(g, i).spanSum
    {
      RootShiftTally(g, s, d, i);
      RootShiftBooks(g[i], Tally(g, i), led[i], i == s, i in g[s].edges && !g[i].done, d);
    }
    assert Books(g', led);
    assert g'[s].own == g[s].own + d;
  }

  lemma RootShiftNodes(g: Graph, s: Id, d: int)
    requires Shape(g) && s < |g| && !g[s].done && g[s].owner.None?
    ensures SameLinks(g, Shifted(g, s, d))
    ensures Shifted(g, s, d) == seq(|g|, i requires 0 <= i < |g| =>
      if i == s then Bumped(g[i], d)
      else if i in g[s].edges && !g[i].done then g[i].(use := g[i].use + d)
      else g[i])
  {
    assert ShapeAt(g, s);
    assert LivePath(g, s) == [s] + g[s].edges && LiveSpine(g, s) == [s];
  }

  lemma RootShiftBooks(c: Node, total: Totals, entry: Entry, root: bool, edge: bool, d: int)
    requires BooksBalance(c, total, entry) && !(root && edge)
    requires root ==> !c.done && 0 <= c.own + d && total.spanSum + entry.owed <= c.own + d
    ensures root ==> BooksBalance(Bumped(c, d), total, entry)
    ensures edge ==> BooksBalance(c.(use := c.use + d), total.(edgeSum := total.edgeSum + d), entry)
    ensures c.done ==> BooksBalance(c, total.(edgeSum := total.edgeSum + d), entry)
  {
  }

  lemma RootShiftTally(g: Graph, s: Id, d: int, t: Id)
    requires Shape(g) && s < |g| && !g[s].done && g[s].owner.None?
    ensures Tally(Shifted(g, s, d), t) ==
            if t in g[s].edges then Tally(g, t).(edgeSum := Tally(g, t).edgeSum + d) else Tally(g, t)
  {
    assert ShapeAt(g, s);
    var g1 := g[s := g[s].(own := g[s].own + d)];
    SettledTally(g, s, d, t);
    SameShares(Shifted(g, s, d), g1, t);
  }

  /** Counters alone do not change what scopes put on each other. */
  lemma SameShares(g: Graph, g': Graph, t: Id)
    requires SameLinks(g, g') && forall i :: 0 <= i < |g| ==> g'[i].own == g[i].own
    ensures Tally(g, t) == Tally(g', t)
  {
    TotalOfPrefix(Shares(g, t), Shares(g', t), |g|);
  }

  lemma LinksKeepGraph(g: Graph, g': Graph)
    requires Shape(g) && ParentsOpen(g) && SameLinks(g, g')
    ensures Shape(g') && ParentsOpen(g')
  {
    forall i | 0 <= i < |g'| ensures ShapeAt(g', i) { assert ShapeAt(g, i); }
  }

  /** A span takes up `d`; its owner must follow. */
  lemma SpanBumpBalances(g: Graph, led: Ledger, s: Id, o: Id, d: int)
    requires Balanced(g, led) && s < |g| && o < s && !g[s].done && g[s].owner == Some(o)
    requires 0 <= g[s].own + d && 0 <= Direct(g, led, s) + d
    ensures Balanced(g[s := Bumped(g[s], d)], Owe(led, o, -d))
    ensures forall i :: 0 <= i < |g| ==>
      Tally(g[s := Bumped(g[s], d)], i) == if i == o then Tally(g, i).(spanSum := Tally(g, i).spanSum + d)
        else Tally(g, i)
  {
    ChargeBalances(g, led, s, d);
    var g1, led1 := Charged(g, s, d), Charge(led, s, d);
    assert ShapeAt(g, s);
    SameTally(g, s, g1[s], s);
    SettleSpanBalances(g1, led1, s, o, d);
    assert g1[s := g1[s].(own := g1[s].own + d)] == g[s := Bumped(g[s], d)];
    assert Owe(Uncharge(led1, s, d), o, -d) == Owe(led, o, -d);
    forall i | 0 <= i < |g|
      ensures Tally(g[s := Bumped(g[s], d)], i) ==
              if i == o then Tally(g, i).(spanSum := Tally(g, i).spanSum + d) else Tally(g, i)
    {
      SettledSpanTally(g1, s, d, i);
      SameTally(g, s, g1[s], i);
    }
  }

  /** A granted reservation keeps the books, and what it adds is the scope's own to release. */
  lemma {:induction false} ReserveBalances(g: Graph, led: Ledger, s: Id, d: int)
    requires Balanced(g, led) && s < |g| && 0 <= d
    requires forall i :: i in Path(g, s) ==> i < |g| && !g[i].done
    ensures Balanced(Shifted(g, s, d), led)
    ensures DirectMoves(g, Shifted(g, s, d), led, s, d)
  {
    assert ShapeAt(g, s) && BooksBalance(g[s], Tally(g, s), led[s]);
    assert s in Path(g, s);
    if g[s].owner.None? {
      RootShiftBalances(g, led, s, d);
    } else {
      var o := g[s].owner.value;
      assert forall i :: i in Path(g, o) ==> i in Path(g, s);
      ReserveBalances(g, led, o, d);
      ShiftedSpan(g, s, o, d);
      SpanFollows(g, Shifted(g, o, d), led, s, o, d);
    }
  }

  /** After its owner, a span takes up `d`. */
  lemma SpanFollows(g: Graph, g1: Graph, led: Ledger, s: Id, o: Id, d: int)
    requires Balanced(g, led) && Balanced(g1, led) && |g| == |g1| && 0 <= d
    requires s < |g| && o < s && !g[s].done && g[s].owner == Some(o) && g1[s] == g[s]
    requires DirectMoves(g, g1, led, o, d) && !g[o].done
    ensures Balanced(g1[s := Bumped(g[s], d)], led) && DirectMoves(g, g1[s := Bumped(g[s], d)], led, s, d)
  {
    var g2 := g1[s := Bumped(g[s], d)];
    assert BooksBalance(g[s], Tally(g, s), led[s]) && BooksBalance(g[o], Tally(g, o), led[o]);
    SpanBumpBalances(g1, led, s, o, d);
    assert Direct(g1, led, o) == Direct(g, led, o) + d;
    assert Tally(g2, o).spanSum == Tally(g1, o).spanSum + d && g2[o] == g1[o];
    OweBalances(g2, Owe(led, o, -d), o, d);
    assert Owe(Owe(led, o, -d), o, d) == led;
  }

  /** A release of no more than the scope holds directly keeps the books; it stops at a closed owner. */
  lemma {:induction false} ReleaseBalances(g: Graph, led: Ledger, s: Id, d: int)
    requires Balanced(g, led) && s < |g| && d <= 0
    requires forall i :: 0 <= i < |led| ==> 0 <= led[i].owed
    requires !g[s].done ==> 0 <= Direct(g, led, s) + d
    ensures Balanced(Shifted(g, s, d), led)
    decreases s
  {
    assert ShapeAt(g, s);
    DirectIsOwn(g, led, s);
    if g[s].done {
      ShiftedClosed(g, s, d);
    } else if g[s].owner.None? {
      RootShiftBalances(g, led, s, d);
    } else {
      var o := g[s].owner.value;
      var g1 := g[s := Bumped(g[s], d)];
      SpanLeads(g, led, s, o, d);
      ReleaseBalances(g1, led, o, d);
      ShiftedSpanFirst(g, g1, s, o, d);
    }
  }

  lemma DirectIsOwn(g: Graph, led: Ledger, s: Id)
    requires Balanced(g, led) && s < |g| && 0 <= led[s].owed
    ensures !g[s].done ==> 0 <= Direct(g, led, s) <= g[s].own
  {
    assert BooksBalance(g[s], Tally(g, s), led[s]);
    BalancedTotals(g, led, s);
  }

  lemma ShiftedClosed(g: Graph, s: Id, d: int)
    requires Shape(g) && s < |g| && g[s].done
    ensures Shifted(g, s, d) == g
  {
    assert LivePath(g, s) == [];
  }

  /** Before its owner, a span gives up `-d`, which the owner may then give up too. */
  lemma SpanLeads(g: Graph, led: Ledger, s: Id, o: Id, d: int)
    requires s < |g| && o < s && !g[s].done && g[s].owner == Some(o) && Balanced(g, led)
    requires d <= 0 <= g[s].own + d && 0 <= Direct(g, led, s) + d
    ensures var g1 := g[s := Bumped(g[s], d)]; Balanced(g1, led) && (!g[o].done ==> 0 <= Direct(g1, led, o) + d)
  {
    SpanBumpBalances(g, led, s, o, d);
    var g1, led1 := g[s := Bumped(g[s], d)], Owe(led, o, -d);
    assert BooksBalance(g1[o], Tally(g1, o), led1[o]);
    OweBalances(g1, led1, o, d);
    assert Owe(led1, o, d) == led;
  }

  // ---------------------------------------------------------------- closing, with everything returned

  /** `d` is added to the counters and `n` to the references of all scopes in `ids`; closed ones do not count. */
  function Adjusted(g: Graph, ids: seq<Id>, d: int, n: int): Graph {
    seq(|g|, i requires 0 <= i < |g| =>
      if i in ids then g[i].(use := if g[i].done then g[i].use else g[i].use + d, refCnt := g[i].refCnt + n) else g[i])
  }

  lemma AdjustBalances(g: Graph, led: Ledger, ids: seq<Id>, d: int, n: int)
    requires Balanced(g, led)
    requires forall i :: i in ids ==> i < |g| && 0 <= led[i].pins + n
    ensures Balanced(Adjusted(g, ids, d, n), Carry(led, ids, d, n))
  {
    var g', led' := Adjusted(g, ids, d, n), Carry(led, ids, d, n);
    LinksKeepGraph(g, g');
    forall i | 0 <= i < |g| ensures BooksBalance(g'[i], Tally(g', i), led'[i]) {
      SameShares(g, g', i);
      AdjustedBooks(g[i], Tally(g, i), led[i], d, n);
      if i !in ids { assert g'[i] == g[i] && led'[i] == led[i]; }
    }
  }

  lemma AdjustedBooks(c: Node, total: Totals, entry: Entry, d: int, n: int)
    requires BooksBalance(c, total, entry)
    ensures 0 <= entry.pins + n ==>
      BooksBalance(c.(use := if c.done then c.use else c.use + d, refCnt := c.refCnt + n), total,
                   entry.(charged := entry.charged + d, pins := entry.pins + n))
  {
  }

  /** A scope with edges closes: its whole counter and one reference go back to each edge. */
  lemma FinishBalances(g: Graph, led: Ledger, s: Id, d: int)
    requires Balanced(g, led) && s < |g| && !g[s].done && g[s].owner.None?
    requires Tally(g, s).edgeRefs == 0 && led[s].charged == 0 && d == -g[s].use
    ensures Balanced(Adjusted(g[s := Closed(g[s])], g[s].edges, d, -1), led)
  {
    CloseBalances(g, led, s);
    var g1, led1, edges := g[s := Closed(g[s])], Carry(led, g[s].edges, g[s].own, 1), g[s].edges;
    forall i | i in edges ensures i < |g| && 0 <= led1[i].pins + -1 { PinnedEdge(g, led, s, i); }
    AdjustBalances(g1, led1, edges, d, -1);
    CarryBack(led, edges, g[s].own, d);
  }

  lemma PinnedEdge(g: Graph, led: Ledger, s: Id, e: Id)
    requires Balanced(g, led) && s < |g| && e in g[s].edges
    ensures e < |g| && 0 <= led[e].pins
  {
    assert ShapeAt(g, s);
    assert BooksBalance(g[e], Tally(g, e), led[e]);
  }

  lemma CarryBack(led: Ledger, ids: seq<Id>, own: int, d: int)
    requires d == -own
    ensures Carry(Carry(led, ids, own, 1), ids, d, -1) == led
  {
  }

  lemma SpanClosesFirst(g: Graph, led: Ledger, s: Id, o: Id, d: int)
    requires Balanced(g, led) && s < |g| && o < s && !g[s].done && g[s].owner == Some(o)
    requires led[s].charged == 0 && d == -g[s].use
    ensures var g1, led1 := g[s := Closed(g[s])], AddPins(led, o, 1);
            Balanced(g1, led1) && d <= 0 <= led[o].pins && (!g1[o].done ==> 0 <= Direct(g1, led1, o) + d)
  {
    CloseSpanBalances(g, led, s, o);
    var g1, led1 := g[s := Closed(g[s])], AddPins(Owe(led, o, g[s].own), o, 1);
    assert BooksBalance(g[s], Tally(g, s), led[s]) && BooksBalance(g[o], Tally(g, o), led[o]);
    assert BooksBalance(g1[o], Tally(g1, o), led1[o]);
    OweBalances(g1, led1, o, d);
    assert Owe(led1, o, d) == AddPins(led, o, 1);
  }
}
