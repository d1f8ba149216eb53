// Scoring the documents that match a query: exhaustively, or document at a time
// while skipping those that cannot reach the best limit.
module MaxScore {
  import opened Scoring
  import opened Sums
  import opened Ranking

  // One query term: where it occurs, its weight, and a bound on what it can add.
  datatype TermList = TermList(postings: seq<Posting>, idf: real, bound: real)

  // What scoring needs to know of the stored documents, by slot.
  datatype Corpus = Corpus(live: seq<bool>, lengths: seq<nat>, ids: seq<string>, avgLength: real)

  // No slot reaches this number.
  const NoDoc := 0xFFFF_FFFF

  ghost predicate Sorted(p: seq<Posting>) {
    forall j, k :: 0 <= j < k < |p| ==> p[j].doc < p[k].doc
  }

  ghost predicate CorpusOk(c: Corpus) {
    && |c.live| == |c.lengths| == |c.ids| <= NoDoc && c.avgLength > 0.0
    && forall d, e :: 0 <= d < e < |c.live| && c.live[d] && c.live[e] ==> c.ids[d] != c.ids[e]
  }

  ghost predicate ListOk(t: TermList, c: Corpus)
    requires CorpusOk(c)
  {
    && Sorted(t.postings) && t.idf >= 0.0 && t.bound >= 0.0
    && forall k :: 0 <= k < |t.postings| ==>
         var p := t.postings[k];
         p.tf > 0 && p.doc < |c.live| && (c.live[p.doc] ==> Contribution(t.idf, p.tf, c.lengths[p.doc], c.avgLength) <= t.bound)
  }

  ghost predicate ListsOk(lists: seq<TermList>, c: Corpus)
    requires CorpusOk(c)
  {
    forall k :: 0 <= k < |lists| ==> ListOk(lists[k], c)
  }

  /******* Scores *******/

  // How often a term occurs in the document at d.
  ghost function TfOf(p: seq<Posting>, d: nat): nat {
    if exists k :: 0 <= k < |p| && p[k].doc == d then
      var k :| 0 <= k < |p| && p[k].doc == d;
      p[k].tf
    else 0
  }

  lemma TfAt(p: seq<Posting>, k: nat)
    requires Sorted(p) && k < |p|
    ensures TfOf(p, p[k].doc) == p[k].tf
  {
  }

  ghost function Value(t: TermList, c: Corpus, d: nat): real
    requires CorpusOk(c) && d < |c.live|
  {
    Contribution(t.idf, TfOf(t.postings, d), c.lengths[d], c.avgLength)
  }

  ghost function Values(lists: seq<TermList>, c: Corpus, d: nat): (v: seq<real>)
    requires CorpusOk(c) && d < |c.live|
    ensures |v| == |lists| && forall k :: 0 <= k < |lists| ==> v[k] == Value(lists[k], c, d)
  {
    seq(|lists|, k requires 0 <= k < |lists| => Value(lists[k], c, d))
  }

  ghost function Score(lists: seq<TermList>, c: Corpus, d: nat): real
    requires CorpusOk(c) && d < |c.live|
  {
    SumOver(Values(lists, c, d), Indices(|lists|))
  }

  ghost predicate Matches(lists: seq<TermList>, d: nat) {
    exists k :: 0 <= k < |lists| && TfOf(lists[k].postings, d) > 0
  }

  ghost function HitOf(lists: seq<TermList>, c: Corpus, d: nat): Hit
    requires CorpusOk(c) && d < |c.live|
  {
    Hit(Score(lists, c, d), d, c.ids[d])
  }

  ghost predicate IsHit(lists: seq<TermList>, c: Corpus, d: nat)
    requires CorpusOk(c)
  {
    d < |c.live| && c.live[d] && Matches(lists, d)
  }

  // Every live document that matches, with its score.
  ghost function AllHits(lists: seq<TermList>, c: Corpus): set<Hit>
    requires CorpusOk(c)
  {
    set d | 0 <= d < |c.live| && IsHit(lists, c, d) :: HitOf(lists, c, d)
  }

  lemma HitsDistinct(lists: seq<TermList>, c: Corpus, hits: set<Hit>, d: nat)
    requires CorpusOk(c) && hits <= AllHits(lists, c) && IsHit(lists, c, d)
    ensures DistinctIds(hits + {HitOf(lists, c, d)})
    ensures (forall h :: h in hits ==> h.slot != d) ==> HitOf(lists, c, d) !in hits
  {
    hide Score, Matches;
    forall g, h | g in hits + {HitOf(lists, c, d)} && h in hits + {HitOf(lists, c, d)} && g.id == h.id ensures g == h {
      assert g == HitOf(lists, c, g.slot) && h == HitOf(lists, c, h.slot);
    }
  }

  lemma ValueBounds(t: TermList, c: Corpus, d: nat)
    requires CorpusOk(c) && ListOk(t, c) && d < |c.live| && c.live[d]
    ensures 0.0 <= Value(t, c, d) <= t.bound
    ensures TfOf(t.postings, d) == 0 ==> Value(t, c, d) == 0.0
  {
    ContributionPositive(t.idf, TfOf(t.postings, d), c.lengths[d], c.avgLength);
    ContributionZero(t.idf, c.lengths[d], c.avgLength);
    if k :| 0 <= k < |t.postings| && t.postings[k].doc == d {
      TfAt(t.postings, k);
    }
  }

  function Bounds(lists: seq<TermList>): seq<real> {
    seq(|lists|, k requires 0 <= k < |lists| => lists[k].bound)
  }

  ghost predicate IsOrder(order: seq<nat>, n: nat) {
    multiset(order) == multiset(Indices(n)) && InRange(order, n) && |order| == n
  }

  // A score, however its parts are added up.
  lemma ScoreInOrder(lists: seq<TermList>, c: Corpus, d: nat, order: seq<nat>, j: nat)
    requires CorpusOk(c) && d < |c.live| && IsOrder(order, |lists|) && j <= |order|
    ensures InRange(order[..j], |lists|) && InRange(order[j..], |lists|)
    ensures var v := Values(lists, c, d);
      Score(lists, c, d) == SumOver(v, order[..j]) + SumOver(v, order[j..])
  {
    hide SumOver, Values;
    var v := Values(lists, c, d);
    SumPermuted(v, order, Indices(|lists|));
    SumConcat(v, order[..j], order[j..]);
    assert order == order[..j] + order[j..];
  }

  // What the first j terms in the order can add to any live document.
  lemma PartBounded(lists: seq<TermList>, c: Corpus, d: nat, order: seq<nat>, j: nat)
    requires CorpusOk(c) && ListsOk(lists, c) && d < |c.live| && c.live[d] && IsOrder(order, |lists|) && j <= |order|
    ensures InRange(order[..j], |lists|)
    ensures SumOver(Values(lists, c, d), order[..j]) <= SumOver(Bounds(lists), order[..j])
  {
    hide SumOver, Value, ListOk;
    var v, b := Values(lists, c, d), Bounds(lists);
    forall k | 0 <= k < j ensures v[order[..j][k]] <= b[order[..j][k]] {
      ValueBounds(lists[order[k]], c, d);
    }
    SumBounded(v, b, order[..j]);
  }

  // A document that none of the later terms occur in scores no more than the
  // earlier ones allow.
  lemma OnlyEarly(lists: seq<TermList>, c: Corpus, d: nat, order: seq<nat>, j: nat)
    requires CorpusOk(c) && ListsOk(lists, c) && d < |c.live| && c.live[d] && IsOrder(order, |lists|) && j <= |order|
    requires forall k :: j <= k < |order| ==> TfOf(lists[order[k]].postings, d) == 0
    ensures InRange(order[..j], |lists|)
    ensures Score(lists, c, d) <= SumOver(Bounds(lists), order[..j])
  {
    hide SumOver, Value, ListOk, Score;
    ScoreInOrder(lists, c, d, order, j);
    PartBounded(lists, c, d, order, j);
    var v := Values(lists, c, d);
    forall k | 0 <= k < |order[j..]| ensures v[order[j..][k]] == 0.0 {
      ValueBounds(lists[order[j + k]], c, d);
    }
    SumZero(v, order[j..]);
  }

  /******* Cursors *******/

  // Nothing at or after d was passed.
  ghost predicate Behind(p: seq<Posting>, pos: nat, d: nat) {
    pos <= |p| && forall j :: 0 <= j < pos ==> p[j].doc < d
  }

  // Standing on d, or where d would be.
  ghost predicate At(p: seq<Posting>, pos: nat, d: nat) {
    Behind(p, pos, d) && forall j :: pos <= j < |p| ==> p[j].doc >= d
  }

  function DocAt(p: seq<Posting>, pos: nat): nat {
    if pos < |p| then p[pos].doc else NoDoc
  }

  lemma AtValue(t: TermList, c: Corpus, pos: nat, d: nat)
    requires CorpusOk(c) && ListOk(t, c) && d < |c.live| && c.live[d] && At(t.postings, pos, d)
    ensures DocAt(t.postings, pos) == d <==> TfOf(t.postings, d) > 0
    ensures DocAt(t.postings, pos) == d ==>
      pos < |t.postings| && Value(t, c, d) == Contribution(t.idf, t.postings[pos].tf, c.lengths[d], c.avgLength)
    ensures DocAt(t.postings, pos) != d ==> Value(t, c, d) == 0.0
  {
    ValueBounds(t, c, d);
    if pos < |t.postings| {
      TfAt(t.postings, pos);
    }
  }

  // Finds where target is or would be: strides that double until one goes too far,
  // then bisection inside the last stride.
  method Seek(p: seq<Posting>, from: nat, target: nat) returns (pos: nat)
    requires Sorted(p) && from <= |p|
    ensures from <= pos <= |p|
    ensures forall j :: from <= j < pos ==> p[j].doc < target
    ensures forall j :: pos <= j < |p| ==> p[j].doc >= target
  {
    var lo := from;
    if lo >= |p| || p[lo].doc >= target {
      return lo;
    }
    var step := 1;
    var hi := lo + 1;
    while hi < |p| && p[hi].doc < target
      invariant from <= lo < hi && lo < |p| && p[lo].doc < target && step > 0
      decreases |p| - lo
    {
      lo := hi;
      step := step * 2;
      hi := lo + step;
    }
    if hi > |p| {
      hi := |p|;
    }
    while lo + 1 < hi
      invariant from <= lo < hi <= |p| && p[lo].doc < target && (hi < |p| ==> p[hi].doc >= target)
    {
      var mid := (lo + hi) / 2;
      if p[mid].doc < target {
        lo := mid;
      } else {
        hi := mid;
      }
    }
    pos := hi;
  }
}
