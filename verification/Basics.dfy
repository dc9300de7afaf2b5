/** Small arithmetic and set facts the other modules share. */
module Basics {

  function One(b: bool): nat {
    if b then 1 else 0
  }

  function Min(a: nat, b: nat): nat {
    if a < b then a else b
  }

  /** Multiplication by repeated addition, which the solver unfolds more readily than a product. */
  function Times(k: nat, q: nat): nat {
    if k == 0 then 0 else q + Times(k - 1, q)
  }

  lemma {:induction false} TimesIsProduct(k: nat, q: nat)
    ensures Times(k, q) == k * q
  {
    if k > 0 {
      TimesIsProduct(k - 1, q);
      assert k * q == (k - 1) * q + q;
    }
  }

  /** A number is a multiple and a remainder in one way only. */
  lemma RemainderOf(x: nat, q: nat, r: nat, n: nat)
    requires r < n && x == q * n + r
    ensures x % n == r
  {
    var d := q - x / n;
    assert x == (x / n) * n + x % n;
    assert d * n == x % n - r;
    Multiples(d, n);
    assert d == 0;
  }

  lemma Multiples(d: int, n: nat)
    ensures d >= 1 ==> d * n >= n
    ensures d <= -1 ==> d * n + n <= 0
  {
    assert d >= 1 ==> (d - 1) * n >= 0;
    assert d <= -1 ==> (d + 1) * n <= 0;
  }

  lemma FirstApart<T>(first: seq<T>, rest: seq<T>)
    requires first != []
    ensures first + rest == [first[0]] + (first[1..] + rest)
  {
  }

  lemma SubsetSize(a: set<nat>, b: set<nat>)
    requires a <= b
    ensures |a| <= |b|
  {
    assert b == a + (b - a);
  }
}
