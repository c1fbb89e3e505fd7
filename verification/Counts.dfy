/** Vectors of per-factory load counts: totals, peaks, squares, and when one is evenly spread. */
module Counts {

  lemma SubsetCardinality<T>(a: set<T>, b: set<T>)
    requires a <= b
    ensures |a| <= |b|
  {
    if a != {} {
      var x :| x in a;
      SubsetCardinality(a - {x}, b - {x});
    }
  }

  predicate IsMin(c: seq<nat>, i: nat) {
    i < |c| && forall j :: 0 <= j < |c| ==> c[i] <= c[j]
  }

  function Bump(c: seq<nat>, i: nat): (r: seq<nat>)
    requires i < |c|
  {
    c[i := c[i] + 1]
  }

  function Zeros(n: nat): (r: seq<nat>)
    ensures |r| == n && forall i :: 0 <= i < n ==> r[i] == 0
  {
    seq(n, _ => 0)
  }

  function Sum(c: seq<nat>): nat {
    if c == [] then 0 else c[0] + Sum(c[1..])
  }

  function SumOfSquares(c: seq<nat>): nat {
    if c == [] then 0 else c[0] * c[0] + SumOfSquares(c[1..])
  }

  /** The largest entry. */
  function Peak(c: seq<nat>): (m: nat)
    requires c != []
    ensures exists i :: 0 <= i < |c| && c[i] == m
    ensures forall i :: 0 <= i < |c| ==> c[i] <= m
  {
    if |c| == 1 then c[0]
    else
      var m := Peak(c[1..]);
      assert forall i :: 1 <= i < |c| ==> c[i] == c[1..][i - 1];
      if m <= c[0] then c[0] else m
  }

  lemma {:induction false} SumOfBump(c: seq<nat>, i: nat)
    requires i < |c|
    ensures Sum(Bump(c, i)) == Sum(c) + 1
  {
    if i > 0 {
      assert Bump(c, i)[1..] == Bump(c[1..], i - 1);
      SumOfBump(c[1..], i - 1);
    } else {
      assert Bump(c, i)[1..] == c[1..];
    }
  }

  lemma {:induction false} SumOfZeros(n: nat)
    ensures Sum(Zeros(n)) == 0
  {
    if n > 0 {
      assert Zeros(n)[1..] == Zeros(n - 1);
      SumOfZeros(n - 1);
    }
  }

  /** Every entry is q or q + 1. */
  predicate Balanced(c: seq<nat>, q: nat) {
    forall i :: 0 <= i < |c| ==> q <= c[i] <= q + 1
  }

  /** In a balanced vector the total fixes how many entries are on the upper level. */
  lemma {:induction false} BalancedTotals(c: seq<nat>, q: nat)
    requires Balanced(c, q)
    ensures multiset(c)[q] + multiset(c)[q + 1] == |c|
    ensures Sum(c) == |c| * q + multiset(c)[q + 1]
  {
    if c != [] {
      var d := c[1..];
      assert c == [c[0]] + d;
      BalancedTotals(d, q);
      OneMore(|d|, q);
    }
  }

  lemma OneMore(n: nat, q: nat)
    ensures (n + 1) * q == n * q + q
  {
  }

  /** The line through (q, q^2) and (q + 1, (q + 1)^2), summed over the entries of c. */
  function Line(c: seq<nat>, q: nat): int {
    if c == [] then 0 else (2 * q + 1) * c[0] - q * (q + 1) + Line(c[1..], q)
  }

  lemma {:induction false} LineOfTotal(c: seq<nat>, q: nat)
    ensures Line(c, q) == (2 * q + 1) * Sum(c) - |c| * (q * (q + 1))
  {
    if c != [] {
      var d := c[1..];
      LineOfTotal(d, q);
      Distribute(2 * q + 1, c[0], Sum(d));
      Distribute(q * (q + 1), 1, |d|);
    }
  }

  lemma Distribute(k: int, a: int, b: int)
    ensures k * (a + b) == k * a + k * b
  {
  }

  /** Squares never lie below the line, and a balanced vector lies on it. */
  lemma {:induction false} SquaresAboveLine(d: seq<nat>, q: nat)
    ensures SumOfSquares(d) >= Line(d, q)
    ensures Balanced(d, q) ==> SumOfSquares(d) == Line(d, q)
  {
    if d != [] {
      EntryAboveLine(d[0], q);
      SquaresAboveLine(d[1..], q);
    }
  }

  /** An integer is never strictly between q and q + 1. */
  lemma EntryAboveLine(x: nat, q: nat)
    ensures x * x >= (2 * q + 1) * x - q * (q + 1)
    ensures q <= x <= q + 1 ==> x * x == (2 * q + 1) * x - q * (q + 1)
  {
    var a: int := x - q;
    assert a * (a - 1) >= 0;
    assert a * (a - 1) == x * x - (2 * q + 1) * x + q * (q + 1);
  }

  lemma {:induction false} SumUpperBound(d: seq<nat>, m: nat)
    requires forall i :: 0 <= i < |d| ==> d[i] <= m
    ensures Sum(d) <= |d| * m
  {
    if d != [] {
      SumUpperBound(d[1..], m);
      assert |d| * m == |d[1..]| * m + m;
    }
  }

  /** Quotient and remainder are the only way to write a total as n * q + r with r < n. */
  lemma QuotientUnique(k: nat, n: nat, q: nat, r: nat)
    requires k == n * q + r && r < n
    ensures k / n == q && k % n == r
  {
    SameQuotient(n, k / n, k % n, q, r);
  }

  lemma Divide(k: nat, n: nat) returns (q: nat, r: nat)
    requires n > 0
    ensures k == n * q + r && r < n
  {
    q, r := k / n, k % n;
  }

  lemma MultipleFarFromZero(n: nat, e: int)
    requires e != 0
    ensures n * e >= n || n * e <= 0 - n
  {
  }

  /** An evenly spread vector: r of its entries hold q + 1 and the others q. */
  predicate EvenlySpread(c: seq<nat>, q: nat, r: nat) {
    Balanced(c, q) && r < |c| && multiset(c)[q + 1] == r && multiset(c)[q] == |c| - r
  }

  /** Entries within one of each other are as evenly spread as the total allows. */
  lemma BalancedIsEvenlySpread(c: seq<nat>, low: nat, q: nat, r: nat)
    requires Balanced(c, low) && Sum(c) == |c| * q + r && r < |c|
    ensures EvenlySpread(c, q, r)
  {
    BalancedTotals(c, low);
    if multiset(c)[low + 1] < |c| {
      SameQuotient(|c|, low, multiset(c)[low + 1], q, r);
    } else {
      AllOnUpperLevel(c, low);
      BalancedTotals(c, low + 1);
      SameQuotient(|c|, low + 1, 0, q, r);
    }
  }

  lemma AllOnUpperLevel(c: seq<nat>, q: nat)
    requires Balanced(c, q) && multiset(c)[q + 1] == |c|
    ensures Balanced(c, q + 1) && multiset(c)[q + 1] == |c| && multiset(c)[q + 2] == 0
  {
    BalancedTotals(c, q);
    assert q !in multiset(c);
    forall i | 0 <= i < |c| ensures c[i] == q + 1 {
      assert c[i] in multiset(c);
    }
    assert q + 2 !in c;
  }

  lemma SameQuotient(n: nat, a: nat, r: nat, b: nat, s: nat)
    requires n * a + r == n * b + s && r < n && s < n
    ensures a == b && r == s
  {
    var e := a - b;
    Distribute(n, e, b);
    if e != 0 {
      MultipleFarFromZero(n, e);
    }
  }

  /** Two evenly spread vectors of the same length hold the same counts, up to order. */
  lemma EvenlySpreadUnique(c: seq<nat>, d: seq<nat>, q: nat, r: nat)
    requires |c| == |d| && EvenlySpread(c, q, r) && EvenlySpread(d, q, r)
    ensures multiset(c) == multiset(d)
  {
  }

  /** A balanced vector has the least peak and the least sum of squares for its total. */
  lemma BalancedOptimal(c: seq<nat>, q: nat, d: seq<nat>)
    requires c != [] && |c| == |d| && Sum(c) == Sum(d)
    requires Balanced(c, q)
    ensures Peak(c) <= Peak(d)
    ensures SumOfSquares(c) <= SumOfSquares(d)
  {
    SquaresAboveLine(c, q);
    SquaresAboveLine(d, q);
    LineOfTotal(c, q);
    LineOfTotal(d, q);
    PeakOfBalanced(c, q);
    if Peak(d) < Peak(c) {
      SumUpperBound(d, Peak(d));
      SumUpperBoundMonotone(|c|, Peak(d), Peak(c) - 1);
    }
  }

  lemma SumUpperBoundMonotone(n: nat, a: nat, b: nat)
    requires a <= b
    ensures n * a <= n * b
  {
  }

  /** The total of a balanced vector exceeds what its length could hold below its peak. */
  lemma PeakOfBalanced(c: seq<nat>, q: nat)
    requires c != [] && Balanced(c, q)
    ensures Peak(c) > 0 ==> Sum(c) > |c| * (Peak(c) - 1)
  {
    var upper := multiset(c)[q + 1];
    BalancedTotals(c, q);
    assert Peak(c) == q + 1 ==> upper > 0 by {
      if Peak(c) == q + 1 {
        assert q + 1 in multiset(c);
      }
    }
    AboveLevel(|c|, q, upper, Peak(c), Sum(c));
  }

  lemma AboveLevel(n: nat, q: nat, upper: nat, peak: nat, total: nat)
    requires n > 0 && total == n * q + upper && ((peak == q + 1 && upper > 0) || peak == q)
    ensures total > n * (peak - 1)
  {
    assert n * (q - 1) == n * q - n;
  }
}
