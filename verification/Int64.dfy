/** Two's-complement 64-bit arithmetic and the two overflow helpers of the resource manager. */
module Int64 {

  const MAX_INT64: int := 0x7FFF_FFFF_FFFF_FFFF
  const MIN_INT64: int := -0x8000_0000_0000_0000

  predicate InRange(x: int) { MIN_INT64 <= x <= MAX_INT64 }

  type int64 = x: int | MIN_INT64 <= x <= MAX_INT64

  /** The value an int64 variable holds after an operation whose exact result is `x`. */
  function Wrap(x: int): (r: int64)
    ensures InRange(x) ==> r == x
    ensures exists k: int :: x == r + 0x1_0000_0000_0000_0000 * k
  {
    var m := x % 0x1_0000_0000_0000_0000;
    var r := if m > MAX_INT64 then m - 0x1_0000_0000_0000_0000 else m;
    assert x == r + 0x1_0000_0000_0000_0000 * (if m > MAX_INT64 then x / 0x1_0000_0000_0000_0000 + 1
      else x / 0x1_0000_0000_0000_0000);
    r
  }

  function Abs(x: int): nat { if x < 0 then -x else x }

  /** Go's `/`: the quotient is truncated toward zero, and the one overflowing case wraps. */
  function Div(a: int64, b: int64): int64
    requires b != 0
  {
    var q: int := Abs(a) / Abs(b);
    Wrap(if (a < 0) == (b < 0) then q else -q)
  }

  function AddWithOverflow(a: int, b: int): (r: (int64, bool))
  {
    var c := Wrap(a + b);
    (c, (c > a) == (b > 0))
  }

  function MulWithOverflow(a: int64, b: int64): (r: (int64, bool))
  {
    var c := Wrap(a * b);
    if a == 0 || b == 0 || a == 1 || b == 1 then
      (c, true)
    else if a == MIN_INT64 || b == MIN_INT64 then
      (c, false)
    else
      (c, Div(c, b) == a)
  }

  /** The helper accepts a sum exactly when the true sum fits, and then returns it. */
  lemma AddIsExact(a: int64, b: int64)
    ensures AddWithOverflow(a, b).1 <==> InRange(a + b)
    ensures AddWithOverflow(a, b).1 ==> AddWithOverflow(a, b).0 == a + b
  {
    var x := a + b;
    assert x / 0x1_0000_0000_0000_0000 in {-1, 0};
  }

  /** Two multiples of `d` less than `d` apart are equal. */
  lemma NearMultiples(x: int, y: int, d: int)
    requires d > 0 && -d < x * d - y * d < d
    ensures x == y
  {
    assert x * d - y * d == (x - y) * d;
    if x > y { AtLeastOneTimes(x - y, d); }
    if y > x { AtLeastOneTimes(y - x, d); NegatedProduct(x - y, d); }
  }

  lemma AtLeastOneTimes(n: int, d: int)
    requires n >= 1 && d >= 1
    ensures n * d >= d && n * d >= n
  {
    assert (n - 1) * d >= 0;
    assert n * (d - 1) >= 0;
  }

  lemma NegatedProduct(a: int, b: int)
    ensures (-a) * b == -(a * b) && a * (-b) == -(a * b) && (-a) * (-b) == a * b
  {
  }

  lemma MulSigns(a: int, b: int)
    ensures Abs(a * b) == Abs(a) * Abs(b)
    ensures a != 0 && b != 0 ==> a * b != 0 && ((a * b < 0) == ((a < 0) != (b < 0)))
  {
    NegatedProduct(a, b);
    if a != 0 && b != 0 { AtLeastOneTimes(Abs(a), Abs(b)); }
  }

  /** The magnitude of a quotient that is not the overflowing one. */
  lemma DivMagnitude(c: int64, b: int64)
    requires b != 0 && !(c == MIN_INT64 && b == -1)
    ensures Abs(Div(c, b)) == Abs(c) / Abs(b)
    ensures Div(c, b) != 0 ==> (Div(c, b) < 0) == ((c < 0) != (b < 0))
  {
    var q: int :| q == Abs(c) / Abs(b);
    QuotientBound(c, b, q);
    SignedMagnitude(q, (c < 0) == (b < 0));
  }

  lemma QuotientBound(c: int64, b: int64, q: int)
    requires b != 0 && !(c == MIN_INT64 && b == -1) && q == Abs(c) / Abs(b)
    ensures 0 <= q && (q <= MAX_INT64 || (q == MAX_INT64 + 1 && !((c < 0) == (b < 0))))
  {
    QuotientFits(Abs(c), Abs(b), q);
    LargestQuotient(c, b, q);
  }

  lemma LargestQuotient(c: int64, b: int64, q: int)
    requires b != 0 && !(c == MIN_INT64 && b == -1) && 0 <= q
    requires if Abs(b) >= 2 then q <= MAX_INT64 else q == Abs(c)
    ensures q <= MAX_INT64 || (q == MAX_INT64 + 1 && !((c < 0) == (b < 0)))
  {
  }

  lemma SignedMagnitude(q: int, positive: bool)
    requires 0 <= q && (q <= MAX_INT64 || (q == MAX_INT64 + 1 && !positive))
    ensures var s := Wrap(if positive then q else -q); Abs(s) == q && (s != 0 ==> (s < 0) == !positive)
  {
  }

  lemma QuotientFits(x: nat, y: nat, q: nat)
    requires y >= 1 && x <= MAX_INT64 + 1 && q == x / y
    ensures if y >= 2 then q <= MAX_INT64 else q == x
  {
    if y >= 2 && q >= 2 { ProductAtLeast(q, y); }
  }

  /** An exact product divides back. */
  lemma ExactProductDivides(a: int64, b: int64)
    requires b != 0 && a != 0 && a != MIN_INT64 && InRange(a * b)
    ensures Div(a * b, b) == a
  {
    MulSigns(a, b);
    var q := Abs(a * b) / Abs(b);
    NearMultiples(Abs(a), q, Abs(b));
    assert !(a * b == MIN_INT64 && b == -1) by { if b == -1 { NegatedProduct(a, 1); } }
    DivMagnitude(a * b, b);
  }

  /** If dividing the wrapped product gives `a` back, nothing was lost to wrapping. */
  lemma DividesBackOnlyIfExact(a: int64, b: int64)
    requires b != 0 && a != 0 && a != MIN_INT64 && b != MIN_INT64
    requires Div(Wrap(a * b), b) == a
    ensures InRange(a * b)
  {
    var c := Wrap(a * b);
    var k: int :| a * b == c + 0x1_0000_0000_0000_0000 * k;
    if b != -1 {
      MulSigns(a, b);
      DivMagnitude(c, b);
      assert Abs(a) == Abs(c) / Abs(b);
      assert 0 <= Abs(c) - Abs(a) * Abs(b) < Abs(b);
      assert Abs(c) - Abs(a * b) < MAX_INT64;
      assert c != 0;
      assert (c < 0) == (a * b < 0);
    }
  }

  /** The helper accepts a product exactly when the true product fits, and then returns it. */
  lemma MulIsExact(a: int64, b: int64)
    ensures var (c, ok) := MulWithOverflow(a, b);
            (ok <==> InRange(a * b)) && (ok ==> c == a * b)
  {
    if a == 0 || b == 0 || a == 1 || b == 1 {
    } else if a == MIN_INT64 || b == MIN_INT64 {
      MulSigns(a, b);
      if Abs(a) >= 2 && Abs(b) >= 2 { ProductAtLeast(Abs(a), Abs(b)); }
    } else {
      if InRange(a * b) { ExactProductDivides(a, b); }
      if Div(Wrap(a * b), b) == a { DividesBackOnlyIfExact(a, b); }
    }
  }

  lemma ProductAtLeast(x: nat, y: nat)
    requires x >= 2 && y >= 2
    ensures x * y >= 2 * x && x * y >= 2 * y
  {
    assert x * y >= 2 * y;
    assert x * y >= x * 2;
  }
}
