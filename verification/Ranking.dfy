// The order of search results, and the heap that keeps the best of them.
module Ranking {

  // A scored document. slot is where the index stores it.
  datatype Hit = Hit(score: real, slot: nat, id: string)

  predicate IdLess(a: string, b: string) {
    b != [] && (a == [] || a[0] < b[0] || (a[0] == b[0] && IdLess(a[1..], b[1..])))
  }

  // a comes after b in the results: a lower score, or the same and a later id.
  predicate RanksBelow(a: Hit, b: Hit) {
    if a.score != b.score then a.score < b.score else IdLess(b.id, a.id)
  }

  lemma {:induction false} IdOrder(a: string, b: string)
    ensures IdLess(a, b) ==> !IdLess(b, a) && a != b
    ensures a == b || IdLess(a, b) || IdLess(b, a)
  {
    if a != [] && b != [] {
      IdOrder(a[1..], b[1..]);
      if a[0] == b[0] && a[1..] == b[1..] {
        assert a == [a[0]] + a[1..] && b == [b[0]] + b[1..];
      }
    }
  }

  lemma {:induction false} IdTransitive(a: string, b: string, c: string)
    requires IdLess(a, b) && IdLess(b, c)
    ensures IdLess(a, c)
  {
    if a != [] && a[0] == b[0] && b[0] == c[0] {
      IdTransitive(a[1..], b[1..], c[1..]);
    }
  }

  // Of two hits for different documents exactly one ranks below the other.
  lemma RankOrder(a: Hit, b: Hit)
    ensures RanksBelow(a, b) ==> !RanksBelow(b, a) && a != b
    ensures a.id != b.id ==> RanksBelow(a, b) || RanksBelow(b, a)
  {
    IdOrder(a.id, b.id);
  }

  lemma RankTransitive(a: Hit, b: Hit, c: Hit)
    requires RanksBelow(a, b) && RanksBelow(b, c)
    ensures RanksBelow(a, c)
  {
    if a.score == b.score == c.score {
      IdTransitive(c.id, b.id, a.id);
    }
  }

  // Not ranking below carries over.
  lemma NotBelowTransitive(a: Hit, b: Hit, c: Hit)
    requires !RanksBelow(b, a) && !RanksBelow(c, b)
    ensures !RanksBelow(c, a)
  {
    if RanksBelow(c, a) {
      IdOrder(a.id, b.id);
      IdOrder(b.id, c.id);
      if a.id != b.id && b.id != c.id {
        RankTransitive(c, a, b);
      }
    }
  }

  /******* The best of a set *******/

  ghost predicate DistinctIds(hits: set<Hit>) {
    forall g, h :: g in hits && h in hits && g.id == h.id ==> g == h
  }

  // kept are the limit best of all, or all of them when there are fewer.
  ghost predicate Best(kept: set<Hit>, all: set<Hit>, limit: nat) {
    && kept <= all
    && |kept| == (if |all| < limit then |all| else limit)
    && forall g, h :: g in all && g !in kept && h in kept ==> RanksBelow(g, h)
  }

  lemma SameSize(x: set<Hit>, y: set<Hit>)
    requires x <= y && |x| == |y|
    ensures x == y
  {
    assert y == x + (y - x) && |y| == |x| + |y - x|;
  }

  // There is only one such choice.
  lemma BestUnique(x: set<Hit>, y: set<Hit>, all: set<Hit>, limit: nat)
    requires Best(x, all, limit) && Best(y, all, limit)
    ensures x == y
  {
    if x != y {
      if x <= y {
        SameSize(x, y);
      } else {
        var g :| g in x && g !in y;
        if y <= x {
          SameSize(y, x);
        }
        var h :| h in y && h !in x;
        RankOrder(g, h);
      }
    }
  }

  lemma BestAddFits(kept: set<Hit>, all: set<Hit>, limit: nat, h: Hit)
    requires Best(kept, all, limit) && |kept| < limit && h !in all
    ensures Best(kept + {h}, all + {h}, limit) && kept == all
  {
    SameSize(kept, all);
  }

  // A full choice and one more: the newcomer takes the place of the worst, or
  // stays out.
  lemma BestAddFull(kept: set<Hit>, all: set<Hit>, limit: nat, worst: Hit, h: Hit)
    requires Best(kept, all, limit) && |kept| == limit && worst in kept && h !in all
    requires forall g :: g in kept ==> g == worst || RanksBelow(worst, g)
    requires DistinctIds(all + {h})
    ensures Best(if RanksBelow(worst, h) then kept - {worst} + {h} else kept, all + {h}, limit)
  {
    assert |all| >= limit by { if |all| < limit { assert false; } }
    if RanksBelow(worst, h) {
      var kept' := kept - {worst} + {h};
      assert |kept'| == limit;
      forall g, k | g in all + {h} && g !in kept' && k in kept' ensures RanksBelow(g, k) {
        if g == worst {
        } else {
          assert RanksBelow(g, worst);
          RankTransitive(g, worst, k);
        }
      }
    } else {
      RankOrder(worst, h);
      forall k | k in kept ensures RanksBelow(h, k) {
        if k != worst {
          RankTransitive(h, worst, k);
        }
      }
    }
  }

  // What is not worth offering: it ranks below everything kept.
  lemma BestWithout(kept: set<Hit>, all: set<Hit>, more: set<Hit>, limit: nat)
    requires Best(kept, all, limit) && all <= more && (|kept| == limit || more == all)
    requires forall g, h :: g in more && g !in all && h in kept ==> RanksBelow(g, h)
    ensures Best(kept, more, limit)
  {
    assert more == all + (more - all) && |more| == |all| + |more - all|;
  }

  /******* The heap *******/

  function Parent(k: nat): nat
    requires k > 0
  {
    (k - 1) / 2
  }

  // The root ranks lowest.
  ghost predicate Heap(hits: seq<Hit>) {
    forall k :: 0 < k < |hits| ==> !RanksBelow(hits[k], hits[Parent(k)])
  }

  lemma {:induction false} RootLowest(hits: seq<Hit>, k: nat)
    requires Heap(hits) && k < |hits|
    ensures !RanksBelow(hits[k], hits[0])
  {
    if k > 0 {
      RootLowest(hits, Parent(k));
      NotBelowTransitive(hits[0], hits[Parent(k)], hits[k]);
    } else {
      RankOrder(hits[0], hits[0]);
    }
  }

  ghost predicate NoRepeats(hits: seq<Hit>) {
    forall j, k :: 0 <= j < k < |hits| ==> hits[j] != hits[k]
  }

  ghost function Elements(hits: seq<Hit>): set<Hit> {
    set h | h in hits
  }

  lemma ElementsAppend(hits: seq<Hit>, h: Hit)
    ensures Elements(hits + [h]) == Elements(hits) + {h}
  {
  }

  lemma {:induction false} ElementsSize(hits: seq<Hit>)
    requires NoRepeats(hits)
    ensures |Elements(hits)| == |hits|
  {
    if hits != [] {
      var init, last := hits[..|hits| - 1], hits[|hits| - 1];
      ElementsSize(init);
      ElementsAppend(init, last);
      assert hits == init + [last];
    }
  }

  function Swapped(hits: seq<Hit>, j: nat, k: nat): seq<Hit>
    requires j < |hits| && k < |hits|
  {
    hits[j := hits[k]][k := hits[j]]
  }

  lemma SwapKeeps(hits: seq<Hit>, j: nat, k: nat)
    requires j < |hits| && k < |hits| && NoRepeats(hits)
    ensures NoRepeats(Swapped(hits, j, k)) && Elements(Swapped(hits, j, k)) == Elements(hits)
  {
    var other := Swapped(hits, j, k);
    forall h ensures h in hits <==> h in other {
      if h in hits {
        var x :| 0 <= x < |hits| && hits[x] == h;
        assert other[if x == j then k else if x == k then j else x] == h;
      }
    }
  }

  // Every link is in order but the one from k up, and k's children fit its parent.
  ghost predicate RisingAt(hits: seq<Hit>, k: nat) {
    && k < |hits|
    && (forall j :: 0 < j < |hits| && j != k ==> !RanksBelow(hits[j], hits[Parent(j)]))
    && (forall j :: 0 < j < |hits| && Parent(j) == k && k > 0 ==> !RanksBelow(hits[j], hits[Parent(k)]))
  }

  // Every link is in order but those from k down, and k's children fit its parent.
  ghost predicate SinkingAt(hits: seq<Hit>, k: nat) {
    && k < |hits|
    && (forall j :: 0 < j < |hits| && Parent(j) != k ==> !RanksBelow(hits[j], hits[Parent(j)]))
    && (forall j :: 0 < j < |hits| && Parent(j) == k && k > 0 ==> !RanksBelow(hits[j], hits[Parent(k)]))
  }

  lemma RiseStep(hits: seq<Hit>, k: nat)
    requires RisingAt(hits, k) && k > 0 && RanksBelow(hits[k], hits[Parent(k)])
    ensures RisingAt(Swapped(hits, k, Parent(k)), Parent(k))
  {
    var p := Parent(k);
    var other := Swapped(hits, k, p);
    RankOrder(hits[k], hits[p]);
    forall j | 0 < j < |other| && j != p ensures !RanksBelow(other[j], other[Parent(j)]) {
      if Parent(j) == p && j != k {
        NotBelowTransitive(hits[k], hits[p], hits[j]);
      }
    }
    forall j | 0 < j < |other| && Parent(j) == p && p > 0 ensures !RanksBelow(other[j], other[Parent(p)]) {
      if j != k {
        NotBelowTransitive(hits[Parent(p)], hits[p], hits[j]);
      }
    }
  }

  lemma SinkStep(hits: seq<Hit>, k: nat, low: nat)
    requires k < |hits| && SinkingAt(hits, k) && 0 < low < |hits| && Parent(low) == k && RanksBelow(hits[low], hits[k])
    requires forall j :: 0 < j < |hits| && Parent(j) == k ==> !RanksBelow(hits[j], hits[low])
    ensures SinkingAt(Swapped(hits, k, low), low)
  {
    var other := Swapped(hits, k, low);
    RankOrder(hits[low], hits[k]);
    forall j | 0 < j < |other| && Parent(j) != low ensures !RanksBelow(other[j], other[Parent(j)]) {
    }
    forall j | 0 < j < |other| && Parent(j) == low ensures !RanksBelow(other[j], other[k]) {
      assert !RanksBelow(hits[j], hits[low]);
    }
  }

  // A heap with the worst kept hit at its root.
  class TopK {
    const limit: nat
    var hits: seq<Hit>
    ghost var offered: set<Hit>

    ghost predicate Valid()
      reads this
    {
      && limit > 0 && |hits| <= limit && Heap(hits) && NoRepeats(hits) && DistinctIds(offered)
      && Best(Elements(hits), offered, limit)
    }

    constructor (limit: nat)
      requires limit > 0
      ensures Valid() && this.limit == limit && hits == [] && offered == {}
    {
      this.limit, hits, offered := limit, [], {};
      new;
      assert Elements([]) == {};
    }

    predicate Full()
      reads this
    {
      |hits| >= limit
    }

    // No kept hit scores below the root.
    lemma RootScore(h: Hit)
      requires Valid() && Full() && h in hits
      ensures h.score >= hits[0].score
    {
      var k :| 0 <= k < |hits| && hits[k] == h;
      RootLowest(hits, k);
    }

    lemma WorstIsRoot()
      requires Valid() && hits != []
      ensures forall g :: g in hits ==> g == hits[0] || RanksBelow(hits[0], g)
    {
      forall k | 0 <= k < |hits| ensures hits[k] == hits[0] || RanksBelow(hits[0], hits[k]) {
        RootLowest(hits, k);
        RankOrder(hits[0], hits[k]);
        assert hits[0] in Elements(hits) && hits[k] in Elements(hits);
      }
    }

    // Takes a hit in, while there is room or at the expense of the worst one kept.
    method Offer(h: Hit) returns (added: bool)
      requires Valid() && h !in offered && DistinctIds(offered + {h})
      modifies this
      ensures Valid() && offered == old(offered) + {h}
      ensures added == (h in hits) && (old(Full()) ==> Full())
      ensures !added ==> hits == old(hits)
      ensures old(Full()) ==> hits[0].score >= old(hits[0].score)
    {
      hide Best, DistinctIds, RanksBelow;
      ghost var kept := Elements(hits);
      ElementsSize(hits);
      NewOne(h);
      if |hits| < limit {
        Appended(hits, h);
        hits := hits + [h];
        BestAddFits(kept, offered, limit, h);
        offered := offered + {h};
        SiftUp();
        return true;
      }
      WorstIsRoot();
      BestAddFull(kept, offered, limit, hits[0], h);
      offered := offered + {h};
      if !RanksBelow(hits[0], h) {
        return false;
      }
      ghost var worst := hits[0];
      ReplaceRoot(hits, h);
      hits := hits[0 := h];
      SiftDown();
      RootRises(worst, kept, h);
      added := true;
    }

    lemma RootRises(worst: Hit, kept: set<Hit>, h: Hit)
      requires hits != [] && Elements(hits) == kept - {worst} + {h} && RanksBelow(worst, h)
      requires forall g :: g in kept ==> g == worst || RanksBelow(worst, g)
      ensures hits[0].score >= worst.score
    {
      assert hits[0] in Elements(hits);
    }

    lemma NewOne(h: Hit)
      requires Valid() && h !in offered
      ensures h !in hits
    {
      assert forall g :: g in hits ==> g in Elements(hits);
    }

    method SiftUp()
      requires hits != [] && NoRepeats(hits) && RisingAt(hits, |hits| - 1)
      modifies this`hits
      ensures Heap(hits) && NoRepeats(hits) && Elements(hits) == old(Elements(hits)) && |hits| == |old(hits)|
    {
      hide RanksBelow, NoRepeats, Elements, RisingAt, Heap;
      var k: nat := |hits| - 1;
      while k > 0
        invariant k < |hits| && RisingAt(hits, k) && NoRepeats(hits) && Elements(hits) == old(Elements(hits)) && |hits| == |old(hits)|
      {
        var parent := (k - 1) / 2;
        if !RanksBelow(hits[k], hits[parent]) {
          break;
        }
        RiseStep(hits, k);
        SwapKeeps(hits, k, parent);
        hits := Swapped(hits, k, parent);
        k := parent;
      }
      Risen(hits, k);
    }

    method SiftDown()
      requires hits != [] && NoRepeats(hits) && SinkingAt(hits, 0)
      modifies this`hits
      ensures Heap(hits) && NoRepeats(hits) && Elements(hits) == old(Elements(hits)) && |hits| == |old(hits)|
    {
      hide RanksBelow, NoRepeats, Elements, SinkingAt, Heap;
      var k: nat := 0;
      while true
        invariant k < |hits| && SinkingAt(hits, k) && NoRepeats(hits) && Elements(hits) == old(Elements(hits)) && |hits| == |old(hits)|
        decreases |hits| - k
      {
        var low := k;
        var left, right := 2 * k + 1, 2 * k + 2;
        if left < |hits| && RanksBelow(hits[left], hits[low]) {
          low := left;
        }
        if right < |hits| && RanksBelow(hits[right], hits[low]) {
          low := right;
        }
        LowestOfThree(hits, k, low);
        if low == k {
          return;
        }
        SinkStep(hits, k, low);
        SwapKeeps(hits, k, low);
        hits := Swapped(hits, k, low);
        k := low;
      }
    }
  }

  lemma Risen(hits: seq<Hit>, k: nat)
    requires RisingAt(hits, k) && (k == 0 || !RanksBelow(hits[k], hits[Parent(k)]))
    ensures Heap(hits)
  {
  }

  // A heap and one more at its end.
  lemma Appended(hits: seq<Hit>, h: Hit)
    requires Heap(hits) && NoRepeats(hits) && h !in hits
    ensures NoRepeats(hits + [h]) && RisingAt(hits + [h], |hits|) && Elements(hits + [h]) == Elements(hits) + {h}
  {
  }

  function Lowest(hits: seq<Hit>, k: nat): nat
    requires k < |hits|
  {
    var left := if 2 * k + 1 < |hits| && RanksBelow(hits[2 * k + 1], hits[k]) then 2 * k + 1 else k;
    if 2 * k + 2 < |hits| && RanksBelow(hits[2 * k + 2], hits[left]) then 2 * k + 2 else left
  }

  lemma LowestOfThree(hits: seq<Hit>, k: nat, low: nat)
    requires k < |hits| && low == Lowest(hits, k)
    ensures low == k || (0 < low < |hits| && Parent(low) == k && RanksBelow(hits[low], hits[k]))
    ensures forall j :: 0 < j < |hits| && Parent(j) == k ==> !RanksBelow(hits[j], hits[low])
    ensures low == k && SinkingAt(hits, k) ==> Heap(hits)
  {
    forall j | 0 < j < |hits| && Parent(j) == k ensures !RanksBelow(hits[j], hits[low]) {
      assert j == 2 * k + 1 || j == 2 * k + 2;
      RankOrder(hits[j], hits[j]);
      if low == 2 * k + 2 && j == 2 * k + 1 {
        var left := if RanksBelow(hits[j], hits[k]) then j else k;
        RankOrder(hits[low], hits[left]);
        if left == k && RanksBelow(hits[j], hits[low]) {
          RankTransitive(hits[j], hits[low], hits[k]);
        }
      }
    }
    if low == 2 * k + 2 && 2 * k + 1 < |hits| && RanksBelow(hits[2 * k + 1], hits[k]) {
      RankTransitive(hits[low], hits[2 * k + 1], hits[k]);
    }
  }

  lemma ReplaceRoot(hits: seq<Hit>, h: Hit)
    requires hits != [] && Heap(hits) && NoRepeats(hits) && h !in hits
    ensures var other := hits[0 := h];
      NoRepeats(other) && SinkingAt(other, 0) && Elements(other) == Elements(hits) - {hits[0]} + {h} && h in other
  {
    var other := hits[0 := h];
    assert other[0] == h;
    forall g ensures g in other <==> g in Elements(hits) - {hits[0]} + {h} {
      if g in hits && g != hits[0] {
        var x :| 0 <= x < |hits| && hits[x] == g;
        assert other[x] == g;
      }
    }
  }
}
