/** The order in which the connection manager trims peers, and the sort by it. */
module TrimOrder {
  /** What the order looks at: the entry is temporary, its value, whether any connection is inbound, its streams. */
  datatype Rank = Rank(temp: bool, value: int, incoming: bool, streams: nat)

  /** The less function of SortByValueAndStreams. */
  predicate Before(left: Rank, right: Rank, byMoreStreams: bool) {
    if left.temp != right.temp then left.temp
    else if left.value != right.value then left.value < right.value
    else if right.streams != left.streams && (left.streams == 0 || right.streams == 0) then left.streams < right.streams
    else if left.incoming != right.incoming then left.incoming
    else if byMoreStreams then right.streams < left.streams
    else left.streams < right.streams
  }

  /** The five criteria of a rank, most important first; less is pruned earlier. */
  function Criteria(r: Rank, byMoreStreams: bool): (c: seq<int>)
    ensures |c| == 5
  {
    [if r.temp then 0 else 1,
     r.value,
     if r.streams == 0 then 0 else 1,
     if r.incoming then 0 else 1,
     if byMoreStreams then -(r.streams as int) else r.streams]
  }

  /** The lexicographic order of sequences of numbers. */
  predicate LexLess(a: seq<int>, b: seq<int>)
    requires |a| == |b|
  {
    a != [] && (a[0] < b[0] || (a[0] == b[0] && LexLess(a[1..], b[1..])))
  }

  /** Exactly one of less, greater and equal holds. */
  lemma {:induction false} LexTotal(a: seq<int>, b: seq<int>)
    requires |a| == |b|
    ensures LexLess(a, b) || LexLess(b, a) || a == b
    ensures !(LexLess(a, b) && LexLess(b, a))
    ensures a == b ==> !LexLess(a, b)
  {
    if a != [] {
      LexTotal(a[1..], b[1..]);
      if a[0] == b[0] && a[1..] == b[1..] {
        assert a == [a[0]] + a[1..] && b == [b[0]] + b[1..];
      }
    }
  }

  lemma {:induction false} LexTransitive(a: seq<int>, b: seq<int>, c: seq<int>)
    requires |a| == |b| == |c|
    requires LexLess(a, b) && LexLess(b, c)
    ensures LexLess(a, c)
  {
    if a[0] == b[0] == c[0] {
      LexTransitive(a[1..], b[1..], c[1..]);
    }
  }

  /**
   * The comparator is the lexicographic order of the five criteria: although it compares stream counts first only
   * when one side has none, the direction never overrides what an earlier criterion decided.
   */
  lemma BeforeIsLexicographic(left: Rank, right: Rank, byMoreStreams: bool)
    ensures Before(left, right, byMoreStreams) <==> LexLess(Criteria(left, byMoreStreams),
                                                            Criteria(right, byMoreStreams))
  {
    var a, b := Criteria(left, byMoreStreams), Criteria(right, byMoreStreams);
    assert a[1..][0] == a[1] && b[1..][0] == b[1];
    assert a[1..][1..][0] == a[2] && b[1..][1..][0] == b[2];
    assert a[1..][1..][1..][0] == a[3] && b[1..][1..][1..][0] == b[3];
    assert a[1..][1..][1..][1..][0] == a[4] && b[1..][1..][1..][1..][0] == b[4];
    assert LexLess(a[1..][1..][1..][1..], b[1..][1..][1..][1..]) <==> a[4] < b[4];
    assert LexLess(a[1..][1..][1..], b[1..][1..][1..]) <==> a[3] < b[3] || (a[3] == b[3] && a[4] < b[4]);
    assert LexLess(a[1..][1..], b[1..][1..])
      <==> a[2] < b[2] || (a[2] == b[2] && (a[3] < b[3] || (a[3] == b[3] && a[4] < b[4])));
  }

  /** Neither comes before the other. */
  predicate Tied(left: Rank, right: Rank, byMoreStreams: bool) {
    !Before(left, right, byMoreStreams) && !Before(right, left, byMoreStreams)
  }

  /**
   * Two ranks tie exactly when they meet all criteria alike, so equally ranked peers differ in nothing the order sees.
   */
  lemma TiedIsEqual(left: Rank, right: Rank, byMoreStreams: bool)
    ensures Tied(left, right, byMoreStreams) <==> left == right
  {
    BeforeIsLexicographic(left, right, byMoreStreams);
    BeforeIsLexicographic(right, left, byMoreStreams);
    var a, b := Criteria(left, byMoreStreams), Criteria(right, byMoreStreams);
    LexTotal(a, b);
    if a == b {
      assert a[0] == b[0] && a[1] == b[1] && a[3] == b[3] && a[4] == b[4];
    }
  }

  /** A strict weak order, whichever way streams are compared: what a sort needs of its less function. */
  lemma BeforeIsStrictWeakOrder(a: Rank, b: Rank, c: Rank, byMoreStreams: bool)
    ensures !Before(a, a, byMoreStreams)
    ensures Before(a, b, byMoreStreams) && Before(b, c, byMoreStreams) ==> Before(a, c, byMoreStreams)
    ensures Tied(a, b, byMoreStreams) && Tied(b, c, byMoreStreams) ==> Tied(a, c, byMoreStreams)
    ensures !Before(b, a, byMoreStreams) && !Before(c, b, byMoreStreams) ==> !Before(c, a, byMoreStreams)
  {
    BeforeIsLexicographic(a, a, byMoreStreams);
    BeforeIsLexicographic(a, b, byMoreStreams);
    BeforeIsLexicographic(b, c, byMoreStreams);
    BeforeIsLexicographic(a, c, byMoreStreams);
    BeforeIsLexicographic(b, a, byMoreStreams);
    BeforeIsLexicographic(c, b, byMoreStreams);
    BeforeIsLexicographic(c, a, byMoreStreams);
    hide Before, Criteria, LexLess;
    var ka, kb, kc := Criteria(a, byMoreStreams), Criteria(b, byMoreStreams), Criteria(c, byMoreStreams);
    LexTotal(ka, ka);
    LexTotal(ka, kb);
    LexTotal(kb, kc);
    LexTotal(ka, kc);
    if LexLess(ka, kb) && LexLess(kb, kc) {
      LexTransitive(ka, kb, kc);
    }
    if LexLess(kc, ka) {
      if LexLess(ka, kb) {
        LexTransitive(kc, ka, kb);
      } else if LexLess(kb, kc) {
        LexTransitive(kb, kc, ka);
      }
    }
  }

  /** No item comes before an earlier one. */
  ghost predicate InOrder<T>(items: seq<T>, ranks: map<T, Rank>, byMoreStreams: bool)
    requires forall t :: t in items ==> t in ranks
  {
    forall i, j :: 0 <= i < j < |items| ==> !Before(ranks[items[j]], ranks[items[i]], byMoreStreams)
  }

  /** Sorting by insertion: what a sort promises for the strict weak order it is given. */
  method Sort<T(==)>(items: seq<T>, ranks: map<T, Rank>, byMoreStreams: bool) returns (sorted: seq<T>)
    requires forall t :: t in items ==> t in ranks
    ensures multiset(sorted) == multiset(items)
    ensures forall t :: t in sorted <==> t in items
    ensures InOrder(sorted, ranks, byMoreStreams)
  {
    sorted := [];
    for n := 0 to |items|
      invariant multiset(sorted) == multiset(items[..n])
      invariant forall t :: t in sorted ==> t in items
      invariant InOrder(sorted, ranks, byMoreStreams)
    {
      var at := |sorted|;
      while 0 < at && Before(ranks[items[n]], ranks[sorted[at - 1]], byMoreStreams)
        invariant 0 <= at <= |sorted|
        invariant forall j :: at <= j < |sorted| ==> Before(ranks[items[n]], ranks[sorted[j]], byMoreStreams)
      {
        at := at - 1;
      }
      InsertKeepsOrder(sorted, items[n], at, ranks, byMoreStreams);
      assert items[..n + 1] == items[..n] + [items[n]];
      assert sorted == sorted[..at] + sorted[at..];
      sorted := sorted[..at] + [items[n]] + sorted[at..];
    }
    assert items[..|items|] == items;
    forall t: T | t in items ensures t in sorted {
      assert t in multiset(items);
    }
  }

  lemma InsertKeepsOrder<T>(items: seq<T>, t: T, at: nat, ranks: map<T, Rank>, byMoreStreams: bool)
    requires at <= |items| && t in ranks && forall u :: u in items ==> u in ranks
    requires InOrder(items, ranks, byMoreStreams)
    requires forall j :: at <= j < |items| ==> Before(ranks[t], ranks[items[j]], byMoreStreams)
    requires at == 0 || !Before(ranks[t], ranks[items[at - 1]], byMoreStreams)
    ensures InOrder(items[..at] + [t] + items[at..], ranks, byMoreStreams)
  {
    var after := items[..at] + [t] + items[at..];
    forall i, j | 0 <= i < j < |after| ensures !Before(ranks[after[j]], ranks[after[i]], byMoreStreams) {
      if j == at && 0 < at {
        BeforeIsStrictWeakOrder(ranks[items[i]], ranks[items[at - 1]], ranks[t], byMoreStreams);
        BeforeIsStrictWeakOrder(ranks[items[i]], ranks[items[i]], ranks[t], byMoreStreams);
        assert after[i] == items[i];
      } else if i == at {
        assert after[j] == items[j - 1];
        BeforeIsStrictWeakOrder(ranks[t], ranks[items[j - 1]], ranks[t], byMoreStreams);
      } else {
        var a, b := if i < at then i else i - 1, if j < at then j else j - 1;
        assert after[i] == items[a] && after[j] == items[b];
      }
    }
  }
}
