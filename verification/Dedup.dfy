/** Deduplication of addresses in place: sort by bytes, keep the first of each run, clear the tail. */
module Dedup {
  import opened Common

  /** The byte-wise order: bytes.Compare answers less. */
  predicate Less(a: Bytes, b: Bytes) {
    b != [] && (a == [] || a[0] < b[0] || (a[0] == b[0] && Less(a[1..], b[1..])))
  }

  /**
   * One comes before the other exactly when it is a proper prefix, or has the smaller byte where they first differ.
   */
  lemma {:induction false} LessIsByteOrder(a: Bytes, b: Bytes)
    ensures Less(a, b) <==> a < b || exists k :: 0 <= k < |a| && k < |b| && a[..k] == b[..k] && a[k] < b[k]
  {
    if a != [] && b != [] && a[0] == b[0] {
      var a', b' := a[1..], b[1..];
      LessIsByteOrder(a', b');
      assert a == [a[0]] + a' && b == [a[0]] + b';
      assert a < b <==> a' < b';
      if k :| 0 <= k < |a'| && k < |b'| && a'[..k] == b'[..k] && a'[k] < b'[k] {
        assert a[..k + 1] == [a[0]] + a'[..k] && b[..k + 1] == [a[0]] + b'[..k];
        assert a[k + 1] < b[k + 1];
      }
      if k :| 0 <= k < |a| && k < |b| && a[..k] == b[..k] && a[k] < b[k] {
        assert a'[..k - 1] == a[..k][1..] && b'[..k - 1] == b[..k][1..];
        assert a'[k - 1] < b'[k - 1];
      }
    } else if a != [] && b != [] && a[0] != b[0] {
      if a[0] < b[0] {
        assert a[..0] == b[..0];
      }
    }
  }

  lemma {:induction false} LessIsTotal(a: Bytes, b: Bytes)
    ensures Less(a, b) || Less(b, a) || a == b
    ensures !(Less(a, b) && Less(b, a)) && (a == b ==> !Less(a, b))
  {
    if a != [] && b != [] {
      LessIsTotal(a[1..], b[1..]);
      if a[0] == b[0] && a[1..] == b[1..] {
        assert a == [a[0]] + a[1..] && b == [b[0]] + b[1..];
      }
    }
  }

  lemma {:induction false} LessIsTransitive(a: Bytes, b: Bytes, c: Bytes)
    requires Less(a, b) && Less(b, c)
    ensures Less(a, c)
  {
    if a != [] && a[0] == b[0] == c[0] {
      LessIsTransitive(a[1..], b[1..], c[1..]);
    }
  }

  ghost predicate Sorted(s: seq<Bytes>) {
    forall i, j :: 0 <= i < j < |s| ==> !Less(s[j], s[i])
  }

  ghost predicate Increasing(s: seq<Bytes>) {
    forall i, j :: 0 <= i < j < |s| ==> Less(s[i], s[j])
  }

  lemma ElementsOfSum(s: seq<Bytes>, t: seq<Bytes>)
    ensures Elements(s + t) == Elements(s) + Elements(t)
  {
    forall a | a in Elements(s) + Elements(t) ensures a in s + t {
      if a in s {
        var i :| 0 <= i < |s| && s[i] == a;
        assert (s + t)[i] == a;
      } else {
        var i :| 0 <= i < |t| && t[i] == a;
        assert (s + t)[|s| + i] == a;
      }
    }
  }

  lemma SomeElement(s: seq<Bytes>)
    requires s != []
    ensures Elements(s) != {}
  {
    assert s[0] in Elements(s);
  }

  /** The library's sort. */
  method Sort(items: seq<Bytes>) returns (sorted: seq<Bytes>)
    ensures |sorted| == |items| && Elements(sorted) == Elements(items) && Sorted(sorted)
  {
    hide Less, Elements;
    sorted := [];
    assert items[..0] == [];
    for n := 0 to |items|
      invariant |sorted| == n && Elements(sorted) == Elements(items[..n]) && Sorted(sorted)
    {
      var at := n;
      while 0 < at && Less(items[n], sorted[at - 1])
        invariant 0 <= at <= n
        invariant forall j :: at <= j < n ==> Less(items[n], sorted[j])
      {
        at := at - 1;
      }
      InsertKeepsSorted(sorted, items[n], at);
      assert items[..n + 1] == items[..n] + [items[n]];
      assert sorted == sorted[..at] + sorted[at..];
      ElementsOfSum(sorted[..at], sorted[at..]);
      ElementsOfSum(sorted[..at] + [items[n]], sorted[at..]);
      ElementsOfSum(sorted[..at], [items[n]]);
      ElementsOfSum(items[..n], [items[n]]);
      sorted := sorted[..at] + [items[n]] + sorted[at..];
    }
    assert items[..|items|] == items;
  }

  lemma InsertKeepsSorted(s: seq<Bytes>, a: Bytes, at: nat)
    requires Sorted(s) && at <= |s|
    requires forall j :: at <= j < |s| ==> Less(a, s[j])
    requires at == 0 || !Less(a, s[at - 1])
    ensures Sorted(s[..at] + [a] + s[at..])
  {
    hide Less;
    var t := s[..at] + [a] + s[at..];
    forall i, j | 0 <= i < j < |t| ensures !Less(t[j], t[i]) {
      if j == at {
        assert t[j] == a && t[i] == s[i];
        NotLessIsTransitive(a, s[at - 1], s[i]);
      } else if i == at {
        assert t[i] == a && t[j] == s[j - 1];
        LessIsTotal(a, s[j - 1]);
      } else {
        assert t[i] == s[if i < at then i else i - 1] && t[j] == s[if j < at then j else j - 1];
      }
    }
  }

  lemma NotLessIsTransitive(a: Bytes, b: Bytes, c: Bytes)
    requires !Less(a, b) && (b == c || !Less(b, c))
    ensures !Less(a, c)
  {
    hide Less;
    LessIsTotal(a, b);
    LessIsTotal(b, c);
    LessIsTotal(a, c);
    if Less(a, c) {
      if Less(b, a) {
        LessIsTransitive(b, a, c);
      } else if Less(c, b) {
        LessIsTransitive(a, c, b);
      }
    }
  }

  /**
   * Deduplicates in place: the first n cells hold the addresses given, each once and in increasing order, and the
   * others are cleared. The comparison with the cell before always reads what the sort left there, as the compaction
   * has only written at or below it.
   */
  method DedupAddrs(addrs: array<Option<Bytes>>) returns (n: nat)
    requires forall i :: 0 <= i < addrs.Length ==> addrs[i].Some?
    modifies addrs
    ensures n <= addrs.Length
    ensures forall i :: 0 <= i < n ==> addrs[i].Some?
    ensures Increasing(Held(addrs[..n]))
    ensures Elements(Held(addrs[..n])) == old(Elements(Held(addrs[..])))
    ensures forall i :: n <= i < addrs.Length ==> addrs[i].None?
  {
    if addrs.Length == 0 {
      return 0;
    }
    var sorted := SortAddrs(addrs);
    n := Compact(addrs, sorted);
    ghost var kept := addrs[..n];
    for i := n to addrs.Length
      invariant addrs[..n] == kept
      invariant forall j :: n <= j < i ==> addrs[j].None?
    {
      addrs[i] := None;
    }
  }

  /** Moves each address that differs from the one before it to the front. */
  method Compact(addrs: array<Option<Bytes>>, ghost sorted: seq<Bytes>) returns (idx: nat)
    requires 0 < addrs.Length == |sorted| && Sorted(sorted)
    requires forall i :: 0 <= i < addrs.Length ==> addrs[i] == Some(sorted[i])
    modifies addrs
    ensures 1 <= idx <= addrs.Length
    ensures forall i :: 0 <= i < idx ==> addrs[i].Some?
    ensures Compacted(Held(addrs[..idx]), sorted)
  {
    hide Compacted, Sorted, Held;
    idx := 1;
    CompactedFirst(addrs[..1], sorted);
    for i := 1 to addrs.Length
      invariant 1 <= idx <= i
      invariant forall j :: 0 <= j < idx ==> addrs[j].Some?
      invariant forall j :: i - 1 <= j < addrs.Length ==> addrs[j] == Some(sorted[j])
      invariant Compacted(Held(addrs[..idx]), sorted[..i])
    {
      ghost var kept := addrs[..idx];
      CompactedOneMore(Held(kept), sorted, i);
      HeldOneMore(kept, sorted[i]);
      if addrs[i - 1] != addrs[i] {
        addrs[idx] := addrs[i];
        assert addrs[..idx + 1] == kept + [Some(sorted[i])];
        idx := idx + 1;
      }
    }
    assert sorted[..addrs.Length] == sorted;
  }

  lemma CompactedFirst(cells: seq<Option<Bytes>>, sorted: seq<Bytes>)
    requires sorted != [] && cells == [Some(sorted[0])]
    ensures Compacted(Held(cells), sorted[..1])
  {
    assert Held(cells) == sorted[..1];
  }

  /** What these cells hold. */
  function Held(cells: seq<Option<Bytes>>): (s: seq<Bytes>)
    requires forall i :: 0 <= i < |cells| ==> cells[i].Some?
    ensures |s| == |cells|
  {
    seq(|cells|, i requires 0 <= i < |cells| => cells[i].value)
  }

  lemma HeldOneMore(cells: seq<Option<Bytes>>, a: Bytes)
    requires forall i :: 0 <= i < |cells| ==> cells[i].Some?
    ensures Held(cells + [Some(a)]) == Held(cells) + [a]
  {
  }

  method SortAddrs(addrs: array<Option<Bytes>>) returns (sorted: seq<Bytes>)
    requires forall i :: 0 <= i < addrs.Length ==> addrs[i].Some?
    modifies addrs
    ensures |sorted| == addrs.Length && Sorted(sorted)
    ensures Elements(sorted) == old(Elements(Held(addrs[..])))
    ensures forall i :: 0 <= i < addrs.Length ==> addrs[i] == Some(sorted[i])
  {
    sorted := Sort(Held(addrs[..]));
    forall i | 0 <= i < addrs.Length {
      addrs[i] := Some(sorted[i]);
    }
  }

  /** Each element of a sorted sequence once. */
  ghost predicate Compacted(kept: seq<Bytes>, s: seq<Bytes>) {
    && Increasing(kept) && Elements(kept) == Elements(s)
    && kept != [] && s != [] && kept[|kept| - 1] == s[|s| - 1]
  }

  lemma CompactedOneMore(kept: seq<Bytes>, s: seq<Bytes>, i: nat)
    requires 1 <= i < |s| && Sorted(s) && Compacted(kept, s[..i])
    ensures Compacted(if s[i - 1] != s[i] then kept + [s[i]] else kept, s[..i + 1])
  {
    hide Less;
    assert s[..i + 1] == s[..i] + [s[i]];
    assert s[..i][i - 1] == s[i - 1];
    ElementsOfSum(s[..i], [s[i]]);
    ElementsOfSum(kept, [s[i]]);
    if s[i - 1] != s[i] {
      LessIsTotal(s[i - 1], s[i]);
      var more := kept + [s[i]];
      forall j | 0 <= j < |kept| ensures Less(more[j], s[i]) {
        if j < |kept| - 1 {
          LessIsTransitive(kept[j], s[i - 1], s[i]);
        }
      }
    }
  }

  /**
   * The result depends on nothing but which addresses were given: an increasing sequence is determined by its elements.
   * So the order and the repetitions of the input do not matter, and a second deduplication changes nothing.
   */
  lemma {:induction false} IncreasingIsCanonical(s: seq<Bytes>, t: seq<Bytes>)
    requires Increasing(s) && Increasing(t) && Elements(s) == Elements(t)
    ensures s == t
  {
    hide Less;
    if s == [] {
      if t != [] {
        SomeElement(t);
      }
    } else {
      assert s[0] in Elements(s);
      FirstIsLeast(s, t);
      FirstIsLeast(t, s);
      assert s == [s[0]] + s[1..] && t == [t[0]] + t[1..];
      FirstOnce(s);
      FirstOnce(t);
      assert Elements(s[1..]) == Elements(s) - {s[0]};
      IncreasingIsCanonical(s[1..], t[1..]);
    }
  }

  lemma FirstOnce(s: seq<Bytes>)
    requires s != [] && Increasing(s)
    ensures Elements(s[1..]) == Elements(s) - {s[0]}
  {
    hide Less;
    assert s == [s[0]] + s[1..];
    forall a | a in s[1..] ensures a != s[0] {
      LessIsTotal(s[0], a);
    }
  }

  lemma FirstIsLeast(s: seq<Bytes>, t: seq<Bytes>)
    requires Increasing(s) && Increasing(t) && s != [] && Elements(s) == Elements(t)
    ensures t != [] && t[0] == s[0]
  {
    hide Less;
    assert s[0] in Elements(t);
    assert t[0] in Elements(s);
    LessIsTotal(s[0], t[0]);
  }
}
