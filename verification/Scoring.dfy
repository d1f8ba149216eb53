// Contributions of terms to scores, over exact arithmetic, and the frontier of
// (tf, length) pairs that bounds them.
module Scoring {

  // How often one document has the term.
  datatype Posting = Posting(doc: nat, tf: nat)

  datatype Impact = Impact(tf: nat, length: nat)

  const MaxImpacts := 8

  /******* BM25 *******/

  // What one term adds to a BM25 score, with 1.2 for k1 and 0.75 for b.
  function Contribution(idf: real, tf: nat, length: nat, avgLength: real): real
    requires avgLength > 0.0
  {
    Fraction(length, avgLength);
    idf * (tf as real * 2.2 / (tf as real + 1.2 * (1.0 - 0.75 + 0.75 * (length as real) / avgLength)))
  }

  lemma Fraction(length: nat, avgLength: real)
    requires avgLength > 0.0
    ensures 0.75 * (length as real) / avgLength >= 0.0
  {
    DivideGrows(0.0, 0.75 * (length as real), avgLength);
  }

  lemma DivideGrows(x: real, y: real, d: real)
    requires x <= y && d > 0.0
    ensures x / d <= y / d
  {
    assert (y - x) / d >= 0.0 by { var q := (y - x) / d; assert q * d == y - x; NonNegative(q, d); }
    assert y / d - x / d == (y - x) / d;
  }

  lemma NonNegative(q: real, d: real)
    requires d > 0.0 && q * d >= 0.0
    ensures q >= 0.0
  {
  }

  // x / (x + c) grows with x and falls with c.
  lemma ShareGrows(x: real, c: real, y: real, d: real)
    requires 0.0 <= x <= y && 0.0 < d <= c
    ensures x * 2.2 / (x + c) <= y * 2.2 / (y + d)
  {
    var p, q := x + c, y + d;
    assert x * d <= y * c by {
      ProductGrows(x, y, d);
      ProductGrows(d, c, y);
      assert y * d == d * y && y * c == c * y;
    }
    assert x * q <= y * p by {
      assert x * q == x * y + x * d;
      assert y * p == y * x + y * c;
      assert x * y == y * x;
    }
    CrossDivide(x * 2.2, p, y * 2.2, q);
  }

  lemma ProductGrows(x: real, y: real, d: real)
    requires x <= y && d >= 0.0
    ensures x * d <= y * d
  {
    assert (y - x) * d >= 0.0;
    assert (y - x) * d == y * d - x * d;
  }

  lemma CrossDivide(a: real, p: real, b: real, q: real)
    requires p > 0.0 && q > 0.0 && a * q <= b * p
    ensures a / p <= b / q
  {
    var u, v := a / p, b / q;
    assert u * p == a && v * q == b;
    assert u * p * q <= v * q * p;
    assert (v - u) * (p * q) == v * q * p - u * p * q;
    assert p * q > 0.0;
    NonNegative(v - u, p * q);
  }

  // More occurrences in a shorter document contribute at least as much.
  lemma ContributionGrows(idf: real, tf: nat, length: nat, tf': nat, length': nat, avgLength: real)
    requires idf >= 0.0 && avgLength > 0.0 && tf <= tf' && length' <= length
    ensures Contribution(idf, tf, length, avgLength) <= Contribution(idf, tf', length', avgLength)
  {
    var c := 1.2 * (1.0 - 0.75 + 0.75 * (length as real) / avgLength);
    var d := 1.2 * (1.0 - 0.75 + 0.75 * (length' as real) / avgLength);
    DivideGrows(0.75 * (length' as real), 0.75 * (length as real), avgLength);
    Fraction(length', avgLength);
    ShareGrows(tf as real, c, tf' as real, d);
    var x, y := tf as real * 2.2 / (tf as real + c), tf' as real * 2.2 / (tf' as real + d);
    ProductGrows(x, y, idf);
    assert idf * x == x * idf && idf * y == y * idf;
  }

  lemma ContributionZero(idf: real, length: nat, avgLength: real)
    requires avgLength > 0.0
    ensures Contribution(idf, 0, length, avgLength) == 0.0
  {
    Fraction(length, avgLength);
    var c := 1.2 * (1.0 - 0.75 + 0.75 * (length as real) / avgLength);
    assert 0.0 * 2.2 / (0.0 + c) == 0.0;
  }

  lemma ContributionPositive(idf: real, tf: nat, length: nat, avgLength: real)
    requires idf >= 0.0 && avgLength > 0.0
    ensures Contribution(idf, tf, length, avgLength) >= 0.0
  {
    ContributionZero(idf, length, avgLength);
    ContributionGrows(idf, 0, length, tf, length, avgLength);
  }

  /******* The frontier *******/

  // Longer documents only for more occurrences.
  ghost predicate Frontier(f: seq<Impact>) {
    forall j, k :: 0 <= j < k < |f| ==> f[j].length < f[k].length && f[j].tf < f[k].tf
  }

  ghost predicate Dominated(f: seq<Impact>, tf: nat, length: nat) {
    exists k :: 0 <= k < |f| && f[k].tf >= tf && f[k].length <= length
  }

  // Adds a pair to the frontier. Everything it dominated it still dominates, and
  // the new pair too, also when two neighbours had to be merged.
  method AddImpact(impacts: seq<Impact>, tf: nat, length: nat) returns (f: seq<Impact>)
    requires Frontier(impacts) && |impacts| <= MaxImpacts
    ensures Frontier(f) && |f| <= MaxImpacts
    ensures Dominated(f, tf, length)
    ensures forall t, l :: Dominated(impacts, t, l) ==> Dominated(f, t, l)
    ensures |impacts| < MaxImpacts ==> forall p :: p in f ==> p in impacts || p == Impact(tf, length)
  {
    f := impacts;
    var end := 0;
    while end < |f| && f[end].length <= length
      invariant end <= |f| && forall k :: 0 <= k < end ==> f[k].length <= length
    {
      end := end + 1;
    }
    if end > 0 && f[end - 1].tf >= tf {
      return;
    }
    var start := end;
    while start > 0 && f[start - 1].length == length
      invariant start <= end && forall k :: start <= k < end ==> f[k].length == length
    {
      start := start - 1;
    }
    ghost var shorter := end;
    while end < |f| && f[end].tf <= tf
      invariant shorter <= end <= |f|
      invariant forall k :: start <= k < end ==> f[k].length >= length && f[k].tf <= tf
    {
      end := end + 1;
    }
    f := Replaced(f, start, end, tf, length);
    if |f| > MaxImpacts {
      var merge := 0;
      for k := 1 to |f| - 1
        invariant merge < |f| - 1
      {
        if f[k + 1].tf - f[k].tf < f[merge + 1].tf - f[merge].tf {
          merge := k;
        }
      }
      f := Merged(f, merge);
    }
  }

  // Puts the pair in the place of those it dominates.
  method Replaced(f: seq<Impact>, start: nat, end: nat, tf: nat, length: nat) returns (g: seq<Impact>)
    requires Frontier(f) && start <= end <= |f|
    requires forall k :: 0 <= k < start ==> f[k].length < length && f[k].tf < tf
    requires forall k :: start <= k < end ==> f[k].length >= length && f[k].tf <= tf
    requires forall k :: end <= k < |f| ==> f[k].length > length && f[k].tf > tf
    ensures Frontier(g) && |g| == |f| - (end - start) + 1
    ensures Dominated(g, tf, length)
    ensures forall t, l :: Dominated(f, t, l) ==> Dominated(g, t, l)
    ensures forall p :: p in g ==> p in f || p == Impact(tf, length)
  {
    g := f[..start] + [Impact(tf, length)] + f[end..];
    assert g[start] == Impact(tf, length);
    forall t, l | Dominated(f, t, l) ensures Dominated(g, t, l) {
      var k :| 0 <= k < |f| && f[k].tf >= t && f[k].length <= l;
      var j := if k < start then k else if k < end then start else k - end + start + 1;
      assert g[j].tf >= t && g[j].length <= l;
    }
  }

  // Two neighbours become one pair that dominates both.
  method Merged(f: seq<Impact>, at: nat) returns (g: seq<Impact>)
    requires Frontier(f) && at + 1 < |f|
    ensures Frontier(g) && |g| == |f| - 1
    ensures forall t, l :: Dominated(f, t, l) ==> Dominated(g, t, l)
  {
    g := f[..at] + [Impact(f[at + 1].tf, f[at].length)] + f[at + 2..];
    forall t, l | Dominated(f, t, l) ensures Dominated(g, t, l) {
      var k :| 0 <= k < |f| && f[k].tf >= t && f[k].length <= l;
      var j := if k <= at then k else k - 1;
      assert g[j].tf >= t && g[j].length <= l;
    }
  }

  // The largest contribution of any pair on the frontier.
  method Bound(impacts: seq<Impact>, idf: real, avgLength: real) returns (best: real)
    requires impacts != [] ==> avgLength > 0.0
    ensures best >= 0.0
    ensures forall k :: 0 <= k < |impacts| ==> Contribution(idf, impacts[k].tf, impacts[k].length, avgLength) <= best
    ensures best == 0.0 || exists k :: 0 <= k < |impacts| && best == Contribution(idf, impacts[k].tf, impacts[k].length, avgLength)
  {
    best := 0.0;
    for j := 0 to |impacts|
      invariant best >= 0.0
      invariant forall k :: 0 <= k < j ==> Contribution(idf, impacts[k].tf, impacts[k].length, avgLength) <= best
      invariant best == 0.0 || exists k :: 0 <= k < j && best == Contribution(idf, impacts[k].tf, impacts[k].length, avgLength)
    {
      var contribution := Contribution(idf, impacts[j].tf, impacts[j].length, avgLength);
      if contribution > best {
        best := contribution;
      }
    }
  }

  // It bounds every posting the frontier dominates.
  lemma BoundCovers(impacts: seq<Impact>, idf: real, avgLength: real, best: real, tf: nat, length: nat)
    requires idf >= 0.0 && avgLength > 0.0 && Dominated(impacts, tf, length)
    requires forall k :: 0 <= k < |impacts| ==> Contribution(idf, impacts[k].tf, impacts[k].length, avgLength) <= best
    ensures Contribution(idf, tf, length, avgLength) <= best
  {
    var k :| 0 <= k < |impacts| && impacts[k].tf >= tf && impacts[k].length <= length;
    ContributionGrows(idf, tf, length, impacts[k].tf, impacts[k].length, avgLength);
  }
}
