// What a score says about a document: rare terms weigh more, more occurrences
// count for more, and never for more than a fixed multiple.
module Relevance {
  import opened Scoring
  import opened Documents

  ghost predicate Increasing(log: real -> real) {
    forall x: real, y: real :: 0.0 < x < y ==> log(x) < log(y)
  }

  lemma Cancel(x: real, y: real, f: real)
    requires f > 0.0 && x * f < y * f
    ensures x < y
  {
  }

  lemma QuotientLess(a: real, b: real, x: real, y: real)
    requires 0.0 < x < a && 0.0 < b < y
    ensures x / y < a / b
  {
    var p, q := a / b, x / y;
    assert p * b == a && q * y == x;
    QuotientPositive(x, y);
    Difference(b, y, q);
    assert q * b == b * q && y * q == q * y;
    Cancel(q, p, b);
  }

  // A term that fewer documents hold weighs strictly more.
  lemma RarerWeighsMore(log: real -> real, n: nat, df: nat, more: nat)
    requires Increasing(log) && df < more <= n
    ensures Idf(log, n, df) > Idf(log, n, more)
  {
    var a, b := n as real - df as real + 0.5, df as real + 0.5;
    var x, y := n as real - more as real + 0.5, more as real + 0.5;
    QuotientLess(a, b, x, y);
    assert x / y > 0.0 by { QuotientPositive(x, y); }
  }

  lemma QuotientPositive(x: real, y: real)
    requires x > 0.0 && y > 0.0
    ensures x / y > 0.0
  {
    var q := x / y;
    assert q * y == x > 0.0 * y;
    Cancel(0.0, q, y);
  }

  // One occurrence in a document of average length counts for exactly the term's
  // weight.
  lemma AverageOccurrence(idf: real, length: nat, avgLength: real)
    requires avgLength > 0.0 && length as real == avgLength
    ensures Contribution(idf, 1, length, avgLength) == idf
  {
    assert 0.75 * (length as real) / avgLength == 0.75 by {
      var q := 0.75 * (length as real) / avgLength;
      assert q * avgLength == 0.75 * avgLength;
      SameFactor(q, 0.75, avgLength);
    }
    assert 2.2 / (1.0 + 1.2 * (1.0 - 0.75 + 0.75)) == 1.0;
  }

  lemma SameFactor(x: real, y: real, f: real)
    requires f > 0.0 && x * f == y * f
    ensures x == y
  {
    if x < y {
      Difference(x, y, f);
    } else if y < x {
      Difference(y, x, f);
    }
  }

  lemma Difference(x: real, y: real, f: real)
    requires f > 0.0 && x < y
    ensures x * f < y * f
  {
    var d := y - x;
    assert d * f > 0.0;
    assert y * f == x * f + d * f;
  }

  // Each further occurrence counts for something, and all of them together for
  // less than 2.2 times the term's weight.
  lemma OccurrencesSaturate(idf: real, tf: nat, length: nat, avgLength: real)
    requires idf > 0.0 && avgLength > 0.0
    ensures Contribution(idf, tf, length, avgLength) < Contribution(idf, tf + 1, length, avgLength) < 2.2 * idf
  {
    Fraction(length, avgLength);
    var c := 1.2 * (1.0 - 0.75 + 0.75 * (length as real) / avgLength);
    assert c > 0.0;
    var x, y := tf as real, tf as real + 1.0;
    ShareStrict(x, c);
    ShareBelow(y, c);
    Difference(x * 2.2 / (x + c), y * 2.2 / (y + c), idf);
    Difference(y * 2.2 / (y + c), 2.2, idf);
    assert idf * (x * 2.2 / (x + c)) == (x * 2.2 / (x + c)) * idf;
    assert idf * (y * 2.2 / (y + c)) == (y * 2.2 / (y + c)) * idf;
  }

  lemma ShareStrict(x: real, c: real)
    requires x >= 0.0 && c > 0.0
    ensures x * 2.2 / (x + c) < (x + 1.0) * 2.2 / (x + 1.0 + c)
  {
    var p, q := x * 2.2 / (x + c), (x + 1.0) * 2.2 / (x + 1.0 + c);
    var d, e := x + c, x + 1.0 + c;
    assert p * d == x * 2.2 && q * e == (x + 1.0) * 2.2;
    ShareBelow(x, c);
    assert p * e == p * d + p;
    Cancel(p, q, e);
  }

  lemma ShareBelow(y: real, c: real)
    requires y >= 0.0 && c > 0.0
    ensures y * 2.2 / (y + c) < 2.2
  {
    var q := y * 2.2 / (y + c);
    assert q * (y + c) == y * 2.2;
    assert 2.2 * (y + c) == y * 2.2 + 2.2 * c;
    Cancel(q, 2.2, y + c);
  }
}
