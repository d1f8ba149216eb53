// The two ways a query is evaluated, each proved to keep exactly the best limit of
// all matching documents.
module Pruning {
  import opened Results
  import opened Scoring
  import opened Sums
  import opened Ranking
  import opened MaxScore

  // At every cursor of a list of terms.
  ghost predicate AllBehind(lists: seq<TermList>, at: seq<nat>, d: nat) {
    |at| == |lists| && forall k :: 0 <= k < |lists| ==> Behind(lists[k].postings, at[k], d)
  }

  ghost predicate AllAt(lists: seq<TermList>, at: seq<nat>, d: nat, order: seq<nat>)
    requires |at| == |lists| && InRange(order, |lists|)
  {
    forall k :: 0 <= k < |order| ==> At(lists[order[k]].postings, at[order[k]], d)
  }

  lemma BehindLater(lists: seq<TermList>, at: seq<nat>, d: nat, e: nat)
    requires AllBehind(lists, at, d) && d <= e
    ensures AllBehind(lists, at, e)
  {
  }

  /******* Orders *******/

  ghost predicate ByBound(lists: seq<TermList>, order: seq<nat>)
    requires InRange(order, |lists|)
  {
    forall j, k :: 0 <= j < k < |order| ==> lists[order[j]].bound <= lists[order[k]].bound
  }

  // The terms by ascending bound.
  method SortByBound(lists: seq<TermList>) returns (order: seq<nat>)
    ensures IsOrder(order, |lists|) && ByBound(lists, order)
  {
    order := [];
    for n := 0 to |lists|
      invariant IsOrder(order, n) && ByBound(lists, order)
    {
      order := InsertByBound(lists, order, n);
    }
  }

  method InsertByBound(lists: seq<TermList>, order: seq<nat>, n: nat) returns (longer: seq<nat>)
    requires n < |lists| && IsOrder(order, n) && InRange(order, |lists|) && ByBound(lists, order)
    ensures IsOrder(longer, n + 1) && InRange(longer, |lists|) && ByBound(lists, longer)
  {
    hide IsOrder;
    OrderSize(order, n);
    var place: nat := n;
    while place > 0 && lists[order[place - 1]].bound > lists[n].bound
      invariant place <= n && forall k :: place <= k < n ==> lists[order[k]].bound > lists[n].bound
    {
      place := place - 1;
    }
    Inserted(order, place, n);
    longer := order[..place] + [n] + order[place..];
  }

  lemma OrderSize(order: seq<nat>, n: nat)
    requires IsOrder(order, n)
    ensures |order| == n && InRange(order, n)
  {
  }

  lemma Inserted(order: seq<nat>, place: nat, n: nat)
    requires IsOrder(order, n) && place <= n
    ensures IsOrder(order[..place] + [n] + order[place..], n + 1)
  {
    var longer := order[..place] + [n] + order[place..];
    assert order == order[..place] + order[place..];
    assert multiset(longer) == multiset(order) + multiset{n};
    assert Indices(n + 1) == Indices(n) + [n];
    assert multiset(Indices(n + 1)) == multiset(Indices(n)) + multiset{n};
  }

  // What the bounds of the first j terms add up to.
  ghost function PrefixSum(lists: seq<TermList>, order: seq<nat>, j: nat): real
    requires InRange(order, |lists|) && j <= |order|
  {
    SumOver(Bounds(lists), order[..j])
  }

  // The bounds of the weakest terms added up, one term more at each place.
  ghost predicate PrefixesOk(prefix: seq<real>, lists: seq<TermList>, order: seq<nat>) {
    && IsOrder(order, |lists|) && |prefix| == |order|
    && forall j :: 0 <= j < |order| ==> prefix[j] == PrefixSum(lists, order, j + 1)
  }

  lemma PrefixSumNext(lists: seq<TermList>, order: seq<nat>, j: nat)
    requires InRange(order, |lists|) && j < |order|
    ensures PrefixSum(lists, order, j + 1) == PrefixSum(lists, order, j) + lists[order[j]].bound
  {
    SumAppend(Bounds(lists), order[..j], order[j]);
    assert order[..j + 1] == order[..j] + [order[j]];
  }

  lemma PrefixSumNone(lists: seq<TermList>, order: seq<nat>)
    requires InRange(order, |lists|)
    ensures PrefixSum(lists, order, 0) == 0.0
  {
  }

  method Prefixes(lists: seq<TermList>, order: seq<nat>) returns (prefix: seq<real>)
    requires IsOrder(order, |lists|)
    ensures PrefixesOk(prefix, lists, order)
  {
    hide SumOver, PrefixSum;
    prefix := [];
    var sum := 0.0;
    PrefixSumNone(lists, order);
    for j := 0 to |order|
      invariant |prefix| == j && sum == PrefixSum(lists, order, j)
      invariant forall i :: 0 <= i < j ==> prefix[i] == PrefixSum(lists, order, i + 1)
    {
      PrefixSumNext(lists, order, j);
      sum := sum + lists[order[j]].bound;
      prefix := prefix + [sum];
    }
  }

  /******* One document *******/

  // Adds up what the terms positioned on d contribute, in query order.
  method ExactScore(lists: seq<TermList>, at: array<nat>, c: Corpus, d: nat) returns (score: real)
    requires CorpusOk(c) && ListsOk(lists, c) && d < |c.live| && c.live[d]
    requires at.Length == |lists| && forall k :: 0 <= k < |lists| ==> At(lists[k].postings, at[k], d)
    ensures score == Score(lists, c, d)
  {
    hide SumOver, Contribution, ListOk, Value, At;
    ghost var v := Values(lists, c, d);
    score := 0.0;
    SumNone(v);
    assert Indices(|lists|)[..0] == [];
    for k := 0 to |lists|
      invariant InRange(Indices(|lists|)[..k], |lists|) && score == SumOver(v, Indices(|lists|)[..k])
    {
      AtValue(lists[k], c, at[k], d);
      SumAppend(v, Indices(|lists|)[..k], k);
      assert Indices(|lists|)[..k + 1] == Indices(|lists|)[..k] + [k];
      if DocAt(lists[k].postings, at[k]) == d {
        score := score + Contribution(lists[k].idf, lists[k].postings[at[k]].tf, c.lengths[d], c.avgLength);
      }
    }
    assert Indices(|lists|)[..|lists|] == Indices(|lists|);
  }

  // What the terms positioned on d among the later ones contribute.
  method EssentialPart(lists: seq<TermList>, at: array<nat>, c: Corpus, d: nat, order: seq<nat>, essential: nat) returns (partial: real)
    requires CorpusOk(c) && ListsOk(lists, c) && d < |c.live| && c.live[d]
    requires IsOrder(order, |lists|) && essential <= |order| && at.Length == |lists|
    requires InRange(order[essential..], |lists|) && AllAt(lists, at[..], d, order[essential..])
    ensures partial == SumOver(Values(lists, c, d), order[essential..])
  {
    hide SumOver, Contribution, ListOk, Value, At;
    ghost var v := Values(lists, c, d);
    partial := 0.0;
    SumNone(v);
    assert order[essential..essential] == [];
    for k := essential to |order|
      invariant InRange(order[essential..k], |lists|) && partial == SumOver(v, order[essential..k])
    {
      var t := order[k];
      assert t == order[essential..][k - essential];
      AtValue(lists[t], c, at[t], d);
      SumAppend(v, order[essential..k], t);
      assert order[essential..k + 1] == order[essential..k] + [t];
      if DocAt(lists[t].postings, at[t]) == d {
        partial := partial + Contribution(lists[t].idf, lists[t].postings[at[t]].tf, c.lengths[d], c.avgLength);
      }
    }
    assert order[essential..|order|] == order[essential..];
  }

  lemma SlackOnly(x: real, slack: real, threshold: real)
    requires x >= 0.0 && slack >= 1.0 && x * slack < threshold
    ensures x < threshold
  {
    ProductGrows(1.0, slack, x);
  }

  lemma SumStep(v: seq<real>, order: seq<nat>, j: nat)
    requires j < |order| && InRange(order, |v|)
    ensures InRange(order[j..], |v|) && InRange(order[j + 1..], |v|)
    ensures SumOver(v, order[j..]) == v[order[j]] + SumOver(v, order[j + 1..])
  {
    hide SumOver;
    assert order[j..] == [order[j]] + order[j + 1..];
    SumConcat(v, [order[j]], order[j + 1..]);
    SumNone(v);
    SumAppend(v, [], order[j]);
    assert [] + [order[j]] == [order[j]];
  }

  // Whether d could still be among the best: gives up only when it surely is not.
  // Otherwise all cursors stand at d or past it.
  method Competitive(lists: seq<TermList>, at: array<nat>, c: Corpus, d: nat, order: seq<nat>, essential: nat,
                     prefix: seq<real>, threshold: Option<real>, slack: real) returns (yes: bool)
    requires CorpusOk(c) && ListsOk(lists, c) && d < |c.live| && c.live[d] && slack >= 1.0
    requires PrefixesOk(prefix, lists, order) && essential <= |order| && at.Length == |lists|
    requires AllBehind(lists, at[..], d)
    requires InRange(order[essential..], |lists|) && AllAt(lists, at[..], d, order[essential..])
    modifies at
    ensures AllBehind(lists, at[..], d)
    ensures AllAt(lists, at[..], d, order[essential..])
    ensures yes ==> forall k :: 0 <= k < |lists| ==> At(lists[k].postings, at[k], d)
    ensures !yes ==> threshold.Some? && Score(lists, c, d) < threshold.value
  {
    hide SumOver, Contribution, ListOk, Value, Score, Sorted;
    ghost var v := Values(lists, c, d);
    if essential == 0 {
      EveryTerm(lists, at[..], d, order);
      return true;
    }
    var partial := EssentialPart(lists, at, c, d, order, essential);
    var j := essential;
    while j > 0
      invariant 0 <= j <= essential && AllBehind(lists, at[..], d)
      invariant InRange(order[j..], |lists|) && AllAt(lists, at[..], d, order[j..])
      invariant partial == SumOver(v, order[j..])
    {
      j := j - 1;
      if threshold.Some? && (partial + prefix[j]) * slack < threshold.value {
        TooLow(lists, c, d, order, prefix, j, partial, slack, threshold.value);
        EssentialStays(lists, at[..], d, order, j + 1, essential);
        return false;
      }
      var t := order[j];
      SeekTerm(lists, at, c, d, order, j);
      AtTerm(lists, at[..], d, order, j);
      AtValue(lists[t], c, at[t], d);
      SumStep(v, order, j);
      if DocAt(lists[t].postings, at[t]) == d {
        partial := partial + Contribution(lists[t].idf, lists[t].postings[at[t]].tf, c.lengths[d], c.avgLength);
      }
    }
    EveryTerm(lists, at[..], d, order);
    EssentialStays(lists, at[..], d, order, 0, essential);
    yes := true;
  }

  lemma AtTerm(lists: seq<TermList>, at: seq<nat>, d: nat, order: seq<nat>, j: nat)
    requires |at| == |lists| && j < |order| && InRange(order[j..], |lists|) && AllAt(lists, at, d, order[j..])
    ensures order[j] < |lists| && At(lists[order[j]].postings, at[order[j]], d)
  {
    assert order[j..][0] == order[j];
  }

  lemma EssentialStays(lists: seq<TermList>, at: seq<nat>, d: nat, order: seq<nat>, j: nat, essential: nat)
    requires j <= essential <= |order| && |at| == |lists|
    requires InRange(order[j..], |lists|) && InRange(order[essential..], |lists|) && AllAt(lists, at, d, order[j..])
    ensures AllAt(lists, at, d, order[essential..])
  {
    hide At;
    forall k | 0 <= k < |order[essential..]| ensures At(lists[order[essential..][k]].postings, at[order[essential..][k]], d) {
      assert order[essential..][k] == order[j..][k + essential - j];
    }
  }

  lemma EveryTerm(lists: seq<TermList>, at: seq<nat>, d: nat, order: seq<nat>)
    requires IsOrder(order, |lists|) && |at| == |lists| && InRange(order[0..], |lists|) && AllAt(lists, at, d, order[0..])
    ensures forall k :: 0 <= k < |lists| ==> At(lists[k].postings, at[k], d)
  {
    hide At;
    forall k | 0 <= k < |lists| ensures At(lists[k].postings, at[k], d) {
      assert Indices(|lists|)[k] == k;
      assert k in multiset(Indices(|lists|));
      var i :| 0 <= i < |order| && order[i] == k;
      assert order[0..][i] == k;
    }
  }

  lemma TooLow(lists: seq<TermList>, c: Corpus, d: nat, order: seq<nat>, prefix: seq<real>, j: nat, partial: real, slack: real, threshold: real)
    requires CorpusOk(c) && ListsOk(lists, c) && d < |c.live| && c.live[d] && slack >= 1.0
    requires PrefixesOk(prefix, lists, order) && j < |order|
    requires InRange(order[j + 1..], |lists|) && partial == SumOver(Values(lists, c, d), order[j + 1..])
    requires (partial + prefix[j]) * slack < threshold
    ensures Score(lists, c, d) < threshold
  {
    hide SumOver, ListOk, Value, Score, IsOrder;
    OrderSize(order, |lists|);
    ScoreInOrder(lists, c, d, order, j + 1);
    PartBounded(lists, c, d, order, j + 1);
    var v := Values(lists, c, d);
    var early, later := order[..j + 1], order[j + 1..];
    forall k | 0 <= k < |later| ensures v[later[k]] >= 0.0 {
      ValueBounds(lists[later[k]], c, d);
    }
    SumNonNegative(v, later);
    forall k | 0 <= k < |early| ensures v[early[k]] >= 0.0 {
      ValueBounds(lists[early[k]], c, d);
    }
    SumNonNegative(v, early);
    SlackOnly(partial + prefix[j], slack, threshold);
  }

  // Brings one more term to d.
  method SeekTerm(lists: seq<TermList>, at: array<nat>, c: Corpus, d: nat, order: seq<nat>, j: nat)
    requires CorpusOk(c) && ListsOk(lists, c) && IsOrder(order, |lists|) && j < |order| && at.Length == |lists|
    requires AllBehind(lists, at[..], d) && InRange(order[j + 1..], |lists|) && AllAt(lists, at[..], d, order[j + 1..])
    modifies at
    ensures AllBehind(lists, at[..], d) && InRange(order[j..], |lists|) && AllAt(lists, at[..], d, order[j..])
  {
    hide Contribution;
    var t := order[j];
    ghost var before := at[..];
    var pos := Seek(lists[t].postings, at[t], d);
    at[t] := pos;
    assert At(lists[t].postings, pos, d);
    forall k | 0 <= k < |order[j..]| ensures At(lists[order[j..][k]].postings, at[order[j..][k]], d) {
      if k > 0 && order[j..][k] != t {
        assert order[j..][k] == order[j + 1..][k - 1];
        assert At(lists[order[j + 1..][k - 1]].postings, before[order[j + 1..][k - 1]], d);
      }
    }
  }

  /******* All documents *******/

  // x has yet to come up in one of the essential terms.
  ghost predicate Pending(lists: seq<TermList>, order: seq<nat>, essential: nat, low: nat, x: nat)
    requires InRange(order, |lists|)
  {
    x >= low && exists j :: essential <= j < |order| && TfOf(lists[order[j]].postings, x) > 0
  }

  // Every matching document was offered, or cannot be among the best, or is yet
  // to come.
  ghost predicate DoneOr(lists: seq<TermList>, c: Corpus, order: seq<nat>, essential: nat, low: nat, offered: set<Hit>, threshold: Option<real>)
    requires CorpusOk(c) && InRange(order, |lists|)
  {
    forall x :: IsHit(lists, c, x) ==>
      || HitOf(lists, c, x) in offered
      || (threshold.Some? && Score(lists, c, x) < threshold.value)
      || Pending(lists, order, essential, low, x)
  }

  ghost predicate OfferedOk(lists: seq<TermList>, c: Corpus, offered: set<Hit>, low: nat)
    requires CorpusOk(c)
  {
    offered <= AllHits(lists, c) && forall h :: h in offered ==> h.slot < low
  }

  ghost predicate CursorsOk(lists: seq<TermList>, at: seq<nat>, order: seq<nat>, essential: nat, low: nat) {
    && AllBehind(lists, at, low) && essential <= |order|
    && InRange(order[essential..], |lists|) && AllAt(lists, at, low, order[essential..])
  }

  // The terms that no longer bring candidates cannot lift a document to the
  // threshold on their own.
  ghost predicate EssentialOk(lists: seq<TermList>, order: seq<nat>, essential: nat, threshold: Option<real>)
    requires InRange(order, |lists|)
  {
    essential <= |order| && (essential > 0 ==> threshold.Some? && PrefixSum(lists, order, essential) < threshold.value)
  }

  ghost predicate ThresholdOk(top: TopK, threshold: Option<real>)
    requires top.Valid()
    reads top
  {
    threshold == if top.Full() then Some(top.hits[0].score) else None
  }

  ghost predicate NoLower(x: Option<real>, y: Option<real>) {
    x.Some? ==> y.Some? && x.value <= y.value
  }

  method NextDoc(lists: seq<TermList>, at: array<nat>, c: Corpus, order: seq<nat>, essential: nat) returns (d: nat)
    requires CorpusOk(c) && ListsOk(lists, c) && at.Length == |lists| && InRange(order, |lists|) && essential <= |order|
    ensures d <= NoDoc && forall j :: essential <= j < |order| ==> d <= DocAt(lists[order[j]].postings, at[order[j]])
    ensures d < NoDoc ==> exists j :: essential <= j < |order| && DocAt(lists[order[j]].postings, at[order[j]]) == d
  {
    d := NoDoc;
    for k := essential to |order|
      invariant d <= NoDoc && forall j :: essential <= j < k ==> d <= DocAt(lists[order[j]].postings, at[order[j]])
      invariant d < NoDoc ==> exists j :: essential <= j < k && DocAt(lists[order[j]].postings, at[order[j]]) == d
    {
      var doc := DocAt(lists[order[k]].postings, at[order[k]]);
      if doc < d {
        d := doc;
      }
    }
  }

  // Nothing pending lies before the least document the essential terms stand at.
  lemma PendingFrom(lists: seq<TermList>, at: seq<nat>, c: Corpus, order: seq<nat>, essential: nat, low: nat, d: nat, x: nat)
    requires CorpusOk(c) && ListsOk(lists, c) && InRange(order, |lists|) && |at| == |lists|
    requires CursorsOk(lists, at, order, essential, low) && Pending(lists, order, essential, low, x)
    requires forall j :: essential <= j < |order| ==> d <= DocAt(lists[order[j]].postings, at[order[j]])
    ensures d <= x < |c.live|
  {
    hide Contribution;
    var j :| essential <= j < |order| && TfOf(lists[order[j]].postings, x) > 0;
    var p, pos := lists[order[j]].postings, at[order[j]];
    AtTermFrom(lists, at, low, order, essential, j);
    assert ListOk(lists[order[j]], c);
    var k :| 0 <= k < |p| && p[k].doc == x;
    assert pos <= k;
  }

  lemma AtTermFrom(lists: seq<TermList>, at: seq<nat>, d: nat, order: seq<nat>, essential: nat, j: nat)
    requires |at| == |lists| && essential <= j < |order| && InRange(order[essential..], |lists|) && AllAt(lists, at, d, order[essential..])
    ensures order[j] < |lists| && At(lists[order[j]].postings, at[order[j]], d)
  {
    assert order[essential..][j - essential] == order[j];
  }

  // The cursors may as well be thought to stand at d.
  lemma StandAt(lists: seq<TermList>, at: seq<nat>, c: Corpus, order: seq<nat>, essential: nat, low: nat, d: nat)
    requires CorpusOk(c) && ListsOk(lists, c) && InRange(order, |lists|) && |at| == |lists|
    requires CursorsOk(lists, at, order, essential, low) && d < NoDoc
    requires forall j :: essential <= j < |order| ==> d <= DocAt(lists[order[j]].postings, at[order[j]])
    requires exists j :: essential <= j < |order| && DocAt(lists[order[j]].postings, at[order[j]]) == d
    ensures low <= d < |c.live| && Matches(lists, d) && CursorsOk(lists, at, order, essential, d)
  {
    hide Contribution, Matches;
    var i :| essential <= i < |order| && DocAt(lists[order[i]].postings, at[order[i]]) == d;
    StandsOn(lists, at, c, order, essential, low, d, i);
    BehindLater(lists, at, low, d);
    forall k | 0 <= k < |order[essential..]| ensures At(lists[order[essential..][k]].postings, at[order[essential..][k]], d) {
      var t := order[essential..][k];
      assert t == order[essential + k] && ListOk(lists[t], c) && Behind(lists[t].postings, at[t], d);
    }
  }

  lemma StandsOn(lists: seq<TermList>, at: seq<nat>, c: Corpus, order: seq<nat>, essential: nat, low: nat, d: nat, i: nat)
    requires CorpusOk(c) && ListsOk(lists, c) && InRange(order, |lists|) && |at| == |lists|
    requires CursorsOk(lists, at, order, essential, low) && d < NoDoc
    requires essential <= i < |order| && DocAt(lists[order[i]].postings, at[order[i]]) == d
    ensures low <= d < |c.live| && Matches(lists, d)
  {
    hide Contribution;
    AtTermFrom(lists, at, low, order, essential, i);
    assert ListOk(lists[order[i]], c);
    TfAt(lists[order[i]].postings, at[order[i]]);
  }

  method GrowNonEssential(lists: seq<TermList>, c: Corpus, order: seq<nat>, from: nat, prefix: seq<real>, slack: real, threshold: real)
    returns (essential: nat)
    requires CorpusOk(c) && ListsOk(lists, c) && PrefixesOk(prefix, lists, order) && slack >= 1.0
    requires EssentialOk(lists, order, from, Some(threshold))
    ensures from <= essential && EssentialOk(lists, order, essential, Some(threshold))
  {
    hide PrefixSum, Contribution;
    essential := from;
    while essential < |order| && prefix[essential] * slack < threshold
      invariant from <= essential && EssentialOk(lists, order, essential, Some(threshold))
    {
      PrefixNonNegative(lists, c, order, essential + 1);
      SlackOnly(prefix[essential], slack, threshold);
      essential := essential + 1;
    }
  }

  lemma PrefixNonNegative(lists: seq<TermList>, c: Corpus, order: seq<nat>, j: nat)
    requires CorpusOk(c) && ListsOk(lists, c) && InRange(order, |lists|) && j <= |order|
    ensures PrefixSum(lists, order, j) >= 0.0
  {
    hide SumOver, Contribution;
    forall k | 0 <= k < j ensures Bounds(lists)[order[..j][k]] >= 0.0 {
      assert ListOk(lists[order[k]], c);
    }
    SumNonNegative(Bounds(lists), order[..j]);
  }

  // Looks at one document that came up.
  method Consider(lists: seq<TermList>, at: array<nat>, c: Corpus, d: nat, order: seq<nat>, from: nat, prefix: seq<real>,
                  slack: real, before: Option<real>, top: TopK) returns (essential: nat, threshold: Option<real>)
    requires CorpusOk(c) && ListsOk(lists, c) && PrefixesOk(prefix, lists, order) && slack >= 1.0 && at.Length == |lists|
    requires d < |c.live| && c.live[d] && Matches(lists, d) && CursorsOk(lists, at[..], order, from, d)
    requires top.Valid() && ThresholdOk(top, before) && OfferedOk(lists, c, top.offered, d)
    requires EssentialOk(lists, order, from, before)
    modifies at, top
    ensures top.Valid() && ThresholdOk(top, threshold) && NoLower(before, threshold)
    ensures from <= essential <= |order| && EssentialOk(lists, order, essential, threshold)
    ensures AllBehind(lists, at[..], d) && AllAt(lists, at[..], d, order[from..])
    ensures old(top.offered) <= top.offered <= old(top.offered) + {HitOf(lists, c, d)}
    ensures HitOf(lists, c, d) in top.offered || (threshold.Some? && Score(lists, c, d) < threshold.value)
  {
    hide SumOver, Contribution, ListsOk, PrefixSum, Values, PrefixesOk, TopK.Valid, OfferedOk, AllAt, AllBehind, Score, Matches;
    essential, threshold := from, before;
    PrefixesOrder(prefix, lists, order);
    var yes := Competitive(lists, at, c, d, order, from, prefix, before, slack);
    if !yes {
      return;
    }
    var score := ExactScore(lists, at, c, d);
    if !top.Full() || (before.Some? && score >= before.value) {
      var hit := Hit(score, d, c.ids[d]);
      OfferFits(lists, c, top.offered, d);
      var added := top.Offer(hit);
      TopFull(top);
      if added && top.Full() {
        threshold := Some(top.hits[0].score);
        NoLowerEssential(lists, order, from, before, top.hits[0].score);
        essential := GrowNonEssential(lists, c, order, from, prefix, slack, top.hits[0].score);
      }
    }
  }

  lemma PrefixesOrder(prefix: seq<real>, lists: seq<TermList>, order: seq<nat>)
    requires PrefixesOk(prefix, lists, order)
    ensures IsOrder(order, |lists|)
  {
  }

  lemma NoLowerEssential(lists: seq<TermList>, order: seq<nat>, from: nat, before: Option<real>, score: real)
    requires InRange(order, |lists|) && EssentialOk(lists, order, from, before) && NoLower(before, Some(score))
    ensures EssentialOk(lists, order, from, Some(score))
  {
  }

  lemma TopFull(top: TopK)
    requires top.Valid()
    ensures top.Full() ==> top.hits != []
  {
  }

  lemma OfferFits(lists: seq<TermList>, c: Corpus, offered: set<Hit>, d: nat)
    requires CorpusOk(c) && OfferedOk(lists, c, offered, d) && IsHit(lists, c, d)
    ensures HitOf(lists, c, d) !in offered && DistinctIds(offered + {HitOf(lists, c, d)})
  {
    hide Score, Matches;
    HitsDistinct(lists, c, offered, d);
  }

  // Moves the essential terms that stand on d past it.
  method Advance(lists: seq<TermList>, at: array<nat>, c: Corpus, d: nat, order: seq<nat>, essential: nat)
    requires CorpusOk(c) && ListsOk(lists, c) && at.Length == |lists| && InRange(order, |lists|) && d < NoDoc
    requires CursorsOk(lists, at[..], order, essential, d)
    modifies at
    ensures CursorsOk(lists, at[..], order, essential, d + 1)
  {
    hide Contribution, At, Behind, CorpusOk;
    BehindLater(lists, at[..], d, d + 1);
    forall j | essential <= j < |order| ensures At(lists[order[j]].postings, at[order[j]], d) {
      AtTermFrom(lists, at[..], d, order, essential, j);
    }
    for k := essential to |order|
      invariant forall t :: 0 <= t < |lists| ==> Behind(lists[t].postings, at[t], d + 1)
      invariant forall j :: essential <= j < k ==> At(lists[order[j]].postings, at[order[j]], d + 1)
      invariant forall j :: k <= j < |order| ==> At(lists[order[j]].postings, at[order[j]], d) || At(lists[order[j]].postings, at[order[j]], d + 1)
    {
      var t := order[k];
      assert ListOk(lists[t], c);
      StepPast(lists[t].postings, at[t], d);
      if DocAt(lists[t].postings, at[t]) == d {
        at[t] := at[t] + 1;
      }
    }
    EssentialAt(lists, at[..], d + 1, order, essential);
  }

  lemma EssentialAt(lists: seq<TermList>, at: seq<nat>, d: nat, order: seq<nat>, essential: nat)
    requires |at| == |lists| && InRange(order, |lists|) && essential <= |order|
    requires forall j :: essential <= j < |order| ==> At(lists[order[j]].postings, at[order[j]], d)
    ensures InRange(order[essential..], |lists|) && AllAt(lists, at, d, order[essential..])
  {
    hide At;
    forall k | 0 <= k < |order[essential..]| ensures At(lists[order[essential..][k]].postings, at[order[essential..][k]], d) {
      assert order[essential..][k] == order[essential + k];
    }
  }

  lemma StepPast(p: seq<Posting>, pos: nat, d: nat)
    requires Sorted(p) && (At(p, pos, d) || At(p, pos, d + 1)) && d < NoDoc
    ensures var next := if DocAt(p, pos) == d then pos + 1 else pos;
      At(p, next, d + 1) && Behind(p, next, d + 1)
  {
  }

  lemma DoneStep(lists: seq<TermList>, at: seq<nat>, c: Corpus, order: seq<nat>, from: nat, essential: nat, low: nat, d: nat,
                 offered: set<Hit>, offered': set<Hit>, before: Option<real>, threshold: Option<real>)
    requires CorpusOk(c) && ListsOk(lists, c) && IsOrder(order, |lists|) && |at| == |lists|
    requires CursorsOk(lists, at, order, from, low) && from <= essential
    requires forall j :: from <= j < |order| ==> d <= DocAt(lists[order[j]].postings, at[order[j]])
    requires DoneOr(lists, c, order, from, low, offered, before) && offered <= offered' && NoLower(before, threshold)
    requires EssentialOk(lists, order, essential, threshold)
    requires IsHit(lists, c, d) ==> HitOf(lists, c, d) in offered' || (threshold.Some? && Score(lists, c, d) < threshold.value)
    ensures DoneOr(lists, c, order, essential, d + 1, offered', threshold)
  {
    hide SumOver, Contribution, ListsOk, CursorsOk, Score, IsOrder, Matches;
    OrderSize(order, |lists|);
    forall x: nat | IsHit(lists, c, x)
      ensures
        || HitOf(lists, c, x) in offered'
        || (threshold.Some? && Score(lists, c, x) < threshold.value)
        || Pending(lists, order, essential, d + 1, x)
    {
      if Pending(lists, order, from, low, x) {
        PendingFrom(lists, at, c, order, from, low, d, x);
        if x > d && !Pending(lists, order, essential, d + 1, x) {
          OnlyEarly(lists, c, x, order, essential);
          StillSome(lists, order, from, essential, x);
        }
      }
    }
  }

  lemma StillSome(lists: seq<TermList>, order: seq<nat>, from: nat, essential: nat, x: nat)
    requires InRange(order, |lists|) && from <= essential <= |order|
    requires exists j :: from <= j < |order| && TfOf(lists[order[j]].postings, x) > 0
    requires forall j :: essential <= j < |order| ==> TfOf(lists[order[j]].postings, x) == 0
    ensures essential > 0
  {
  }

  // At the end the heap holds the best of all matching documents.
  lemma Finished(lists: seq<TermList>, c: Corpus, order: seq<nat>, essential: nat, low: nat, threshold: Option<real>, top: TopK)
    requires CorpusOk(c) && InRange(order, |lists|) && top.Valid() && ThresholdOk(top, threshold)
    requires OfferedOk(lists, c, top.offered, low) && DoneOr(lists, c, order, essential, low, top.offered, threshold)
    requires forall x :: IsHit(lists, c, x) ==> !Pending(lists, order, essential, low, x)
    ensures Best(Elements(top.hits), AllHits(lists, c), top.limit)
  {
    hide Score, Matches, Pending, NoRepeats;
    var all := AllHits(lists, c);
    var kept := Elements(top.hits);
    ElementsSize(top.hits);
    forall g, h | g in all && g !in top.offered && h in kept ensures RanksBelow(g, h) {
      assert g == HitOf(lists, c, g.slot) && IsHit(lists, c, g.slot);
      if top.Full() {
        top.RootScore(h);
      }
    }
    if !top.Full() {
      forall g | g in all ensures g in top.offered {
        assert g == HitOf(lists, c, g.slot) && IsHit(lists, c, g.slot);
      }
    }
    BestWithout(kept, top.offered, all, top.limit);
  }

  lemma NoneLeft(lists: seq<TermList>, at: seq<nat>, c: Corpus, order: seq<nat>, essential: nat, low: nat)
    requires CorpusOk(c) && ListsOk(lists, c) && InRange(order, |lists|) && |at| == |lists|
    requires CursorsOk(lists, at, order, essential, low)
    requires forall j :: essential <= j < |order| ==> NoDoc <= DocAt(lists[order[j]].postings, at[order[j]])
    ensures forall x :: IsHit(lists, c, x) ==> !Pending(lists, order, essential, low, x)
  {
    hide Contribution, ListsOk, CursorsOk, Score, Matches, Pending;
    forall x | IsHit(lists, c, x) && Pending(lists, order, essential, low, x) ensures false {
      PendingFrom(lists, at, c, order, essential, low, NoDoc, x);
    }
  }

  method ScorePruned(lists: seq<TermList>, c: Corpus, top: TopK)
    requires CorpusOk(c) && ListsOk(lists, c) && top.Valid() && top.offered == {} && top.hits == []
    modifies top
    ensures top.Valid() && Best(Elements(top.hits), AllHits(lists, c), top.limit)
  {
    hide SumOver, Contribution, ListsOk, PrefixSum, PrefixesOk, TopK.Valid, OfferedOk, DoneOr, CursorsOk, CorpusOk, IsOrder, Matches;
    var order := SortByBound(lists);
    OrderSize(order, |lists|);
    var prefix := Prefixes(lists, order);
    var at := new nat[|lists|](_ => 0);
    var slack := 1.0 + (|lists| as real + 16.0) * 0.000000000001;
    var threshold: Option<real> := None;
    var essential, low: nat := 0, 0;
    Begin(lists, at[..], c, order, top);
    while essential < |order|
      invariant top.Valid() && ThresholdOk(top, threshold) && OfferedOk(lists, c, top.offered, low)
      invariant CursorsOk(lists, at[..], order, essential, low) && EssentialOk(lists, order, essential, threshold)
      invariant DoneOr(lists, c, order, essential, low, top.offered, threshold) && low <= NoDoc
      decreases NoDoc - low
    {
      var d := NextDoc(lists, at, c, order, essential);
      if d == NoDoc {
        NoneLeft(lists, at[..], c, order, essential, low);
        Finished(lists, c, order, essential, low, threshold, top);
        return;
      }
      StandAt(lists, at[..], c, order, essential, low, d);
      OfferedLater(lists, c, top.offered, low, d);
      ghost var from, before, positions, offered := essential, threshold, at[..], top.offered;
      if c.live[d] {
        CursorParts(lists, at[..], order, essential, d);
        essential, threshold := Consider(lists, at, c, d, order, essential, prefix, slack, threshold, top);
        FewerEssential(lists, at[..], order, from, essential, d);
        OfferedNext(lists, c, offered, top.offered, d);
      } else {
        OfferedLater(lists, c, top.offered, d, d + 1);
      }
      DoneStep(lists, positions, c, order, from, essential, low, d, offered, top.offered, before, threshold);
      Advance(lists, at, c, d, order, essential);
      low := d + 1;
    }
    Finished(lists, c, order, essential, low, threshold, top);
  }

  lemma Begin(lists: seq<TermList>, at: seq<nat>, c: Corpus, order: seq<nat>, top: TopK)
    requires CorpusOk(c) && ListsOk(lists, c) && IsOrder(order, |lists|) && |at| == |lists| && (forall k :: 0 <= k < |at| ==> at[k] == 0)
    requires top.Valid() && top.offered == {} && top.hits == []
    ensures ThresholdOk(top, None) && OfferedOk(lists, c, {}, 0) && CursorsOk(lists, at, order, 0, 0)
    ensures EssentialOk(lists, order, 0, None) && DoneOr(lists, c, order, 0, 0, {}, None)
  {
    hide SumOver, Contribution, Score;
    forall x | IsHit(lists, c, x) ensures Pending(lists, order, 0, 0, x) {
      var k :| 0 <= k < |lists| && TfOf(lists[k].postings, x) > 0;
      var j := InOrder(order, |lists|, k);
    }
  }

  lemma InOrder(order: seq<nat>, n: nat, k: nat) returns (j: nat)
    requires IsOrder(order, n) && k < n
    ensures j < |order| && order[j] == k
  {
    assert Indices(n)[k] == k;
    assert k in multiset(Indices(n));
    j :| 0 <= j < |order| && order[j] == k;
  }

  lemma OfferedLater(lists: seq<TermList>, c: Corpus, offered: set<Hit>, low: nat, d: nat)
    requires CorpusOk(c) && OfferedOk(lists, c, offered, low) && low <= d
    ensures OfferedOk(lists, c, offered, d)
  {
    hide AllHits;
  }

  lemma OfferedNext(lists: seq<TermList>, c: Corpus, offered: set<Hit>, offered': set<Hit>, d: nat)
    requires CorpusOk(c) && OfferedOk(lists, c, offered, d) && IsHit(lists, c, d)
    requires offered' <= offered + {HitOf(lists, c, d)}
    ensures OfferedOk(lists, c, offered', d + 1)
  {
    hide Score, Matches;
  }

  lemma CursorParts(lists: seq<TermList>, at: seq<nat>, order: seq<nat>, essential: nat, d: nat)
    requires CursorsOk(lists, at, order, essential, d)
    ensures |at| == |lists| && essential <= |order|
  {
  }

  lemma FewerEssential(lists: seq<TermList>, at: seq<nat>, order: seq<nat>, from: nat, essential: nat, d: nat)
    requires from <= essential <= |order| && InRange(order, |lists|) && InRange(order[from..], |lists|)
    requires AllBehind(lists, at, d) && AllAt(lists, at, d, order[from..])
    ensures CursorsOk(lists, at, order, essential, d)
  {
    hide At, Behind;
    EssentialStays(lists, at, d, order, from, essential);
  }

  /******* Long queries *******/

  // What the first k terms contribute to d.
  ghost function PartOf(lists: seq<TermList>, c: Corpus, d: nat, k: nat): real
    requires CorpusOk(c) && d < |c.live| && k <= |lists|
  {
    SumOver(Values(lists, c, d), Indices(|lists|)[..k])
  }

  lemma PartNext(lists: seq<TermList>, c: Corpus, d: nat, k: nat)
    requires CorpusOk(c) && d < |c.live| && k < |lists|
    ensures PartOf(lists, c, d, k + 1) == PartOf(lists, c, d, k) + Value(lists[k], c, d)
  {
    hide SumOver, Value;
    SumAppend(Values(lists, c, d), Indices(|lists|)[..k], k);
    assert Indices(|lists|)[..k + 1] == Indices(|lists|)[..k] + [k];
  }

  lemma PartEnds(lists: seq<TermList>, c: Corpus, d: nat)
    requires CorpusOk(c) && d < |c.live|
    ensures PartOf(lists, c, d, 0) == 0.0 && PartOf(lists, c, d, |lists|) == Score(lists, c, d)
  {
    hide Value;
    SumNone(Values(lists, c, d));
    assert Indices(|lists|)[..|lists|] == Indices(|lists|);
  }

  ghost predicate Seen(p: seq<Posting>, j: nat, d: nat) {
    exists i :: 0 <= i < j && i < |p| && p[i].doc == d
  }

  // What the accumulator holds for d after k terms and j postings of the next.
  ghost function Accumulated(lists: seq<TermList>, c: Corpus, d: nat, k: nat, j: nat): real
    requires CorpusOk(c) && d < |c.live| && k < |lists|
  {
    PartOf(lists, c, d, k) + if Seen(lists[k].postings, j, d) then Value(lists[k], c, d) else 0.0
  }

  ghost predicate MatchedBy(lists: seq<TermList>, k: nat, d: nat) {
    exists i :: 0 <= i < k && i < |lists| && TfOf(lists[i].postings, d) > 0
  }

  lemma SeenNext(lists: seq<TermList>, c: Corpus, k: nat, j: nat, d: nat)
    requires CorpusOk(c) && d < |c.live| && c.live[d] && k < |lists| && ListOk(lists[k], c) && j < |lists[k].postings|
    ensures var p := lists[k].postings[j];
      Accumulated(lists, c, d, k, j + 1) == Accumulated(lists, c, d, k, j)
        + if p.doc == d then Contribution(lists[k].idf, p.tf, c.lengths[d], c.avgLength) else 0.0
    ensures Seen(lists[k].postings, j + 1, d) <==> Seen(lists[k].postings, j, d) || lists[k].postings[j].doc == d
  {
    hide PartOf, Contribution;
    TfAt(lists[k].postings, j);
  }

  lemma SeenAll(lists: seq<TermList>, c: Corpus, k: nat, d: nat)
    requires CorpusOk(c) && d < |c.live| && c.live[d] && k < |lists| && ListOk(lists[k], c)
    ensures Accumulated(lists, c, d, k, 0) == PartOf(lists, c, d, k)
    ensures Accumulated(lists, c, d, k, |lists[k].postings|) == PartOf(lists, c, d, k + 1)
    ensures MatchedBy(lists, k + 1, d) <==> MatchedBy(lists, k, d) || Seen(lists[k].postings, |lists[k].postings|, d)
  {
    hide PartOf, Contribution, Value;
    PartNext(lists, c, d, k);
    ValueBounds(lists[k], c, d);
    if i :| 0 <= i < |lists[k].postings| && lists[k].postings[i].doc == d {
      TfAt(lists[k].postings, i);
    }
  }

  // The slots that matched so far, each once.
  ghost predicate TouchedOk(touched: seq<nat>, matched: seq<bool>) {
    && (forall i :: 0 <= i < |touched| ==> touched[i] < |matched| && matched[touched[i]])
    && (forall d :: 0 <= d < |matched| && matched[d] ==> d in touched)
    && forall i, j :: 0 <= i < j < |touched| ==> touched[i] != touched[j]
  }

  lemma TouchedMore(touched: seq<nat>, matched: seq<bool>, d: nat)
    requires TouchedOk(touched, matched) && d < |matched| && !matched[d]
    ensures TouchedOk(touched + [d], matched[d := true])
  {
  }

  ghost predicate SumsOk(lists: seq<TermList>, c: Corpus, k: nat, scores: seq<real>, matched: seq<bool>)
    requires CorpusOk(c) && k <= |lists|
  {
    && |scores| == |matched| == |c.live|
    && forall d :: 0 <= d < |c.live| ==> (c.live[d] ==> scores[d] == PartOf(lists, c, d, k)) && (matched[d] <==> c.live[d] && MatchedBy(lists, k, d))
  }

  // Adds one term's contributions to the accumulator.
  method AccumulateTerm(lists: seq<TermList>, c: Corpus, k: nat, scores: array<real>, matched: array<bool>, touched: seq<nat>) returns (more: seq<nat>)
    requires CorpusOk(c) && ListsOk(lists, c) && k < |lists| && SumsOk(lists, c, k, scores[..], matched[..]) && TouchedOk(touched, matched[..])
    modifies scores, matched
    ensures SumsOk(lists, c, k + 1, scores[..], matched[..]) && TouchedOk(more, matched[..])
  {
    hide PartOf, Contribution, Value, Accumulated, MatchedBy, Seen, TouchedOk;
    assert ListOk(lists[k], c);
    var p, idf := lists[k].postings, lists[k].idf;
    more := touched;
    forall d | 0 <= d < |c.live| && c.live[d] ensures Accumulated(lists, c, d, k, 0) == PartOf(lists, c, d, k) && !Seen(p, 0, d) {
      SeenAll(lists, c, k, d);
      NoneSeen(p, d);
    }
    for j := 0 to |p|
      invariant scores.Length == matched.Length == |c.live| && TouchedOk(more, matched[..])
      invariant forall d :: 0 <= d < |c.live| && c.live[d] ==> scores[d] == Accumulated(lists, c, d, k, j)
      invariant forall d :: 0 <= d < |c.live| ==> (matched[d] <==> c.live[d] && (MatchedBy(lists, k, d) || Seen(p, j, d)))
    {
      forall d | 0 <= d < |c.live| && c.live[d]
        ensures Accumulated(lists, c, d, k, j + 1) == Accumulated(lists, c, d, k, j) + (if p[j].doc == d then Contribution(idf, p[j].tf, c.lengths[d], c.avgLength) else 0.0)
        ensures Seen(p, j + 1, d) <==> Seen(p, j, d) || p[j].doc == d
      {
        SeenNext(lists, c, k, j, d);
      }
      var doc := p[j].doc;
      if c.live[doc] {
        if !matched[doc] {
          TouchedMore(more, matched[..], doc);
          ghost var before := matched[..];
          matched[doc] := true;
          assert matched[..] == before[doc := true];
          more := more + [doc];
        }
        scores[doc] := scores[doc] + Contribution(idf, p[j].tf, c.lengths[doc], c.avgLength);
      }
    }
    forall d | 0 <= d < |c.live| && c.live[d]
      ensures scores[d] == PartOf(lists, c, d, k + 1) && (matched[d] <==> MatchedBy(lists, k + 1, d))
    {
      SeenAll(lists, c, k, d);
    }
  }

  lemma NoneSeen(p: seq<Posting>, d: nat)
    ensures !Seen(p, 0, d)
  {
  }

  lemma SumsStart(lists: seq<TermList>, c: Corpus, scores: seq<real>, matched: seq<bool>)
    requires CorpusOk(c) && |scores| == |matched| == |c.live|
    requires forall d :: 0 <= d < |c.live| ==> scores[d] == 0.0 && !matched[d]
    ensures SumsOk(lists, c, 0, scores, matched) && TouchedOk([], matched)
  {
    hide PartOf;
    forall d | 0 <= d < |c.live| ensures PartOf(lists, c, d, 0) == 0.0 && !MatchedBy(lists, 0, d) {
      PartEnds(lists, c, d);
    }
  }

  lemma SumsEnd(lists: seq<TermList>, c: Corpus, scores: seq<real>, matched: seq<bool>, d: nat)
    requires CorpusOk(c) && SumsOk(lists, c, |lists|, scores, matched) && d < |c.live|
    ensures matched[d] <==> IsHit(lists, c, d)
    ensures matched[d] ==> scores[d] == Score(lists, c, d)
  {
    hide PartOf, Score;
    PartEnds(lists, c, d);
  }

  // Without bounds: adds up all scores list by list, then offers every match.
  method ScoreExhaustive(lists: seq<TermList>, c: Corpus, top: TopK)
    requires CorpusOk(c) && ListsOk(lists, c) && top.Valid() && top.offered == {} && top.hits == []
    modifies top
    ensures top.Valid() && Best(Elements(top.hits), AllHits(lists, c), top.limit)
  {
    hide CorpusOk, ListsOk, SumsOk, TouchedOk, TopK.Valid, AllHits, IsHit, HitOf;
    CorpusSizes(c);
    var scores, matched := Zeros(|c.live|);
    var touched: seq<nat> := [];
    SumsStart(lists, c, scores[..], matched[..]);
    for k := 0 to |lists|
      invariant SumsOk(lists, c, k, scores[..], matched[..]) && TouchedOk(touched, matched[..])
      invariant top.Valid() && top.offered == {} && top.hits == []
    {
      touched := AccumulateTerm(lists, c, k, scores, matched, touched);
    }
    OfferTouched(lists, c, top, scores[..], matched[..], touched);
  }

  lemma CorpusSizes(c: Corpus)
    requires CorpusOk(c)
    ensures |c.live| == |c.lengths| == |c.ids|
  {
  }

  method Zeros(n: nat) returns (scores: array<real>, matched: array<bool>)
    ensures fresh(scores) && fresh(matched) && scores.Length == matched.Length == n
    ensures forall d :: 0 <= d < n ==> scores[d] == 0.0 && !matched[d]
  {
    scores := new real[n](_ => 0.0);
    matched := new bool[n](_ => false);
  }

  // Offers a document unless it scores below the worst that a full heap keeps.
  method OfferUseful(lists: seq<TermList>, c: Corpus, top: TopK, d: nat, score: real, ghost before: Option<real>) returns (ghost threshold: Option<real>)
    requires CorpusOk(c) && top.Valid() && ThresholdOk(top, before) && IsHit(lists, c, d) && score == Score(lists, c, d)
    requires top.offered <= AllHits(lists, c) && forall h :: h in top.offered ==> h.slot != d
    modifies top
    ensures top.Valid() && ThresholdOk(top, threshold) && NoLower(before, threshold)
    ensures old(top.offered) <= top.offered <= old(top.offered) + {HitOf(lists, c, d)}
    ensures HitOf(lists, c, d) in top.offered || (threshold.Some? && score < threshold.value)
  {
    hide TopK.Valid, Score, Matches, AllHits;
    threshold := before;
    TopFull(top);
    if !top.Full() || score >= top.hits[0].score {
      HitsDistinct(lists, c, top.offered, d);
      var _ := top.Offer(Hit(score, d, c.ids[d]));
      TopFull(top);
      threshold := if top.Full() then Some(top.hits[0].score) else None;
    }
  }

  method OfferTouched(lists: seq<TermList>, c: Corpus, top: TopK, scores: seq<real>, matched: seq<bool>, touched: seq<nat>)
    requires CorpusOk(c) && top.Valid() && top.offered == {} && top.hits == []
    requires SumsOk(lists, c, |lists|, scores, matched) && TouchedOk(touched, matched)
    modifies top
    ensures top.Valid() && Best(Elements(top.hits), AllHits(lists, c), top.limit)
  {
    hide TopK.Valid, SumsOk, TouchedOk, Score, IsHit, HitOf, AllHits, CorpusOk, ThresholdOk;
    ghost var threshold: Option<real> := None;
    NotYetFull(top);
    TouchedAreHits(lists, c, scores, matched, touched);
    for i := 0 to |touched|
      invariant top.Valid() && ThresholdOk(top, threshold)
      invariant top.offered <= AllHits(lists, c) && forall h :: h in top.offered ==> h.slot in touched[..i]
      invariant forall j :: 0 <= j < i ==>
        HitOf(lists, c, touched[j]) in top.offered || (threshold.Some? && Score(lists, c, touched[j]) < threshold.value)
    {
      var d := touched[i];
      ghost var before, offered := threshold, top.offered;
      threshold := OfferUseful(lists, c, top, d, scores[d], before);
      OneMore(lists, c, d);
      assert touched[..i + 1] == touched[..i] + [d];
    }
    assert touched[..|touched|] == touched;
    forall x | IsHit(lists, c, x)
      ensures HitOf(lists, c, x) in top.offered || (threshold.Some? && Score(lists, c, x) < threshold.value)
    {
      var j :| 0 <= j < |touched| && touched[j] == x;
    }
    NothingPending(lists, c, top.offered, threshold);
    Finished(lists, c, [], 0, NoDoc, threshold, top);
  }

  lemma TouchedAreHits(lists: seq<TermList>, c: Corpus, scores: seq<real>, matched: seq<bool>, touched: seq<nat>)
    requires CorpusOk(c) && SumsOk(lists, c, |lists|, scores, matched) && TouchedOk(touched, matched)
    ensures |scores| == |c.live| && forall i :: 0 <= i < |touched| ==>
      touched[i] < |c.live| && IsHit(lists, c, touched[i]) && scores[touched[i]] == Score(lists, c, touched[i])
    ensures forall x: nat :: IsHit(lists, c, x) ==> x < |c.live| && x in touched
    ensures forall i, j :: 0 <= i < j < |touched| ==> touched[i] != touched[j]
  {
    hide Score, Matches, MatchedBy, PartOf;
    forall d | 0 <= d < |c.live| ensures (matched[d] <==> IsHit(lists, c, d)) && (matched[d] ==> scores[d] == Score(lists, c, d)) {
      SumsEnd(lists, c, scores, matched, d);
    }
  }

  lemma OneMore(lists: seq<TermList>, c: Corpus, d: nat)
    requires CorpusOk(c) && IsHit(lists, c, d)
    ensures d < |c.live| && HitOf(lists, c, d) in AllHits(lists, c) && HitOf(lists, c, d).slot == d
  {
    hide Score, Matches;
  }

  lemma NotYetFull(top: TopK)
    requires top.Valid() && top.hits == []
    ensures !top.Full() && ThresholdOk(top, None)
  {
  }

  lemma NothingPending(lists: seq<TermList>, c: Corpus, offered: set<Hit>, threshold: Option<real>)
    requires CorpusOk(c) && offered <= AllHits(lists, c)
    requires forall x :: IsHit(lists, c, x) ==> HitOf(lists, c, x) in offered || (threshold.Some? && Score(lists, c, x) < threshold.value)
    ensures DoneOr(lists, c, [], 0, NoDoc, offered, threshold) && OfferedOk(lists, c, offered, NoDoc)
    ensures forall x :: IsHit(lists, c, x) ==> !Pending(lists, [], 0, NoDoc, x)
  {
    hide Score, Matches;
  }
}
