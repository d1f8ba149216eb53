// A search: the terms of the query become lists, the lists are scored, and the
// best documents come back in order, exactly as scoring every document would say.
module Searching {
  import opened Scoring
  import opened Sums
  import opened Ranking
  import opened MaxScore
  import opened Pruning
  import opened Documents
  import opened IndexState
  import opened SearchIndex

  /******* Lists *******/

  function CorpusOf(s: State, avgLength: real): Corpus {
    Corpus(s.live, s.lengths, seq(|s.docs|, k requires 0 <= k < |s.docs| => s.docs[k].id), avgLength)
  }

  // list is what the index holds for term.
  ghost predicate ListFor(s: State, log: real -> real, list: TermList, term: string)
    requires StateOk(s)
  {
    && term in s.terms && list.postings == s.terms[term].postings
    && list.idf == Idf(log, |Contents(s)|, |Holders(Contents(s), term)|)
  }

  ghost predicate ListsFor(s: State, log: real -> real, lists: seq<TermList>, terms: seq<string>)
    requires StateOk(s)
  {
    |lists| == |terms| && forall k :: 0 <= k < |lists| ==> ListFor(s, log, lists[k], terms[k])
  }

  lemma CorpusValid(s: State, avgLength: real)
    requires StateOk(s) && |s.docs| <= NoDoc && avgLength > 0.0
    ensures CorpusOk(CorpusOf(s, avgLength))
  {
    hide Rank, EntryOk, TermsOk;
    var c := CorpusOf(s, avgLength);
    forall d, e | 0 <= d < e < |c.live| && c.live[d] && c.live[e] ensures c.ids[d] != c.ids[e] {
      LiveSlot(s, d);
      LiveSlot(s, e);
    }
  }

  lemma TermStored(s: State, t: string)
    requires StateOk(s)
    ensures t in s.terms <==> Holders(Contents(s), t) != {}
    ensures t in s.terms ==> s.terms[t].df == |Holders(Contents(s), t)| && EntryOk(t, s.terms[t], s.docs, s.lengths, s.live)
    ensures t in s.terms ==> s.tokens > 0 && |s.slots| > 0 && s.terms[t].df <= |s.slots|
    ensures s.tokens == TotalLength(Contents(s)) && |s.slots| == |Contents(s)|
  {
    hide EntryOk, Tf, SlotsOk, TotalLength;
    ContentsNamed(s);
    if t in s.terms {
      HeldHasLength(Contents(s), t);
      HoldersSize(Contents(s), t);
    } else {
      NobodyHolds(s, t);
    }
  }

  // A list with a bound that covers its frontier is fit to be searched.
  lemma ListValid(s: State, c: Corpus, t: string, list: TermList)
    requires StateOk(s) && c == CorpusOf(s, c.avgLength) && CorpusOk(c) && t in s.terms && list.postings == s.terms[t].postings
    requires list.idf >= 0.0 && list.bound >= 0.0
    requires var f := s.terms[t].impacts; forall k :: 0 <= k < |f| ==> Contribution(list.idf, f[k].tf, f[k].length, c.avgLength) <= list.bound
    ensures ListOk(list, c)
  {
    hide Contribution, Tf, Rank, TotalLength, Holders, Dominated;
    var e := s.terms[t];
    assert EntryOk(t, e, s.docs, s.lengths, s.live);
    forall k | 0 <= k < |list.postings|
      ensures
        var p := list.postings[k];
        p.tf > 0 && p.doc < |c.live| && (c.live[p.doc] ==> Contribution(list.idf, p.tf, c.lengths[p.doc], c.avgLength) <= list.bound)
    {
      var p := list.postings[k];
      assert PostingOk(t, p, e.impacts, s.docs, s.lengths, s.live);
      BoundCovers(e.impacts, list.idf, c.avgLength, list.bound, p.tf, s.lengths[p.doc]);
    }
  }

  method ListOf(index: Index, term: string, log: real -> real, avgLength: real) returns (list: TermList)
    requires index.Valid() && term in index.terms && LogLike(log) && |index.docs| <= NoDoc
    requires avgLength > 0.0
    ensures ListFor(index.View(), log, list, term)
    ensures CorpusOk(CorpusOf(index.View(), avgLength)) && ListOk(list, CorpusOf(index.View(), avgLength))
  {
    hide StateOk, Contents, Contribution, Idf, EntryOk, Holders;
    ghost var s := index.View();
    TermStored(s, term);
    FrontierOf(s, term);
    CorpusValid(s, avgLength);
    var entry := index.terms[term];
    var idf := Idf(log, |index.slots|, entry.df);
    IdfPositive(log, |index.slots|, entry.df);
    var bound := Bound(entry.impacts, idf, avgLength);
    list := TermList(entry.postings, idf, bound);
    ListValid(s, CorpusOf(s, avgLength), term, list);
  }

  // The lists of the distinct indexed terms of a query, in query order.
  method ListsOf(index: Index, tokens: seq<string>, log: real -> real, avgLength: real) returns (lists: seq<TermList>)
    requires index.Valid() && LogLike(log) && |index.docs| <= NoDoc && (index.tokens > 0 && |index.slots| > 0 ==> avgLength > 0.0)
    ensures ListsFor(index.View(), log, lists, QueryTerms(index.Stored(), tokens))
    ensures lists != [] ==> CorpusOk(CorpusOf(index.View(), avgLength)) && ListsOk(lists, CorpusOf(index.View(), avgLength)) && index.tokens > 0 && |index.slots| > 0
  {
    hide StateOk, Contents, ListFor, ListsFor, ListOk, ListsOk, CorpusOk, CorpusOf, Holders, QueryTerms;
    ghost var s := index.View();
    StateSizes(s);
    ghost var m := Contents(s);
    lists := [];
    var seen: set<string> := {};
    NoListsYet(s, log);
    for k := 0 to |tokens|
      invariant seen == set t | t in tokens[..k]
      invariant ListsFor(s, log, lists, QueryTerms(m, tokens[..k]))
      invariant lists != [] ==> CorpusOk(CorpusOf(s, avgLength)) && ListsOk(lists, CorpusOf(s, avgLength)) && index.tokens > 0 && |index.slots| > 0
    {
      var term := tokens[k];
      QueryTermsNext(m, tokens, k);
      assert tokens[..k + 1] == tokens[..k] + [term];
      TermStored(s, term);
      if term !in seen {
        seen := seen + {term};
        if term in index.terms {
          var list := ListOf(index, term, log, avgLength);
          ListsAppend(s, log, lists, QueryTerms(m, tokens[..k]), list, term, CorpusOf(s, avgLength));
          lists := lists + [list];
        }
      }
    }
    assert tokens[..|tokens|] == tokens;
  }

  lemma NoListsYet(s: State, log: real -> real)
    requires StateOk(s)
    ensures ListsFor(s, log, [], QueryTerms(Contents(s), []))
  {
    hide StateOk, Contents;
  }

  lemma QueryTermsNext(m: Docs, tokens: seq<string>, k: nat)
    requires k < |tokens|
    ensures tokens[k] in tokens[..k] || Holders(m, tokens[k]) == {} ==> QueryTerms(m, tokens[..k + 1]) == QueryTerms(m, tokens[..k])
    ensures tokens[k] !in tokens[..k] && Holders(m, tokens[k]) != {} ==> QueryTerms(m, tokens[..k + 1]) == QueryTerms(m, tokens[..k]) + [tokens[k]]
    ensures tokens[..0] == []
  {
    assert tokens[..k + 1][..k] == tokens[..k];
  }

  lemma ListsAppend(s: State, log: real -> real, lists: seq<TermList>, terms: seq<string>, list: TermList, term: string, c: Corpus)
    requires StateOk(s) && ListsFor(s, log, lists, terms) && ListFor(s, log, list, term) && CorpusOk(c) && ListOk(list, c)
    requires lists != [] ==> ListsOk(lists, c)
    ensures ListsFor(s, log, lists + [list], terms + [term]) && ListsOk(lists + [list], c)
  {
    hide StateOk, ListFor, ListOk, CorpusOk;
  }

  /******* From hits to results *******/

  lemma ListTf(s: State, t: string, d: nat)
    requires StateOk(s) && t in s.terms && d < |s.docs| == |s.live| && s.live[d]
    ensures TfOf(s.terms[t].postings, d) == Tf(s.docs[d], t) && s.lengths[d] == Length(s.docs[d])
  {
    hide Tf, Rank, TotalLength, Holders, Dominated;
    var e := s.terms[t];
    assert EntryOk(t, e, s.docs, s.lengths, s.live);
    if k :| 0 <= k < |e.postings| && e.postings[k].doc == d {
      TfAt(e.postings, k);
      assert PostingOk(t, e.postings[k], e.impacts, s.docs, s.lengths, s.live);
    }
  }

  // The index scores a document as the reference does.
  lemma SameScore(s: State, log: real -> real, lists: seq<TermList>, terms: seq<string>, c: Corpus, d: nat)
    requires StateOk(s) && ListsFor(s, log, lists, terms) && CorpusOk(c) && c == CorpusOf(s, c.avgLength)
    requires |s.slots| > 0 && s.tokens > 0 && c.avgLength == s.tokens as real / |s.slots| as real
    requires d < |c.live| && c.live[d]
    ensures TotalLength(Contents(s)) > 0 && |Contents(s)| > 0
    ensures Score(lists, c, d) == DocScore(Contents(s), log, s.docs[d], terms)
    ensures Matches(lists, d) <==> DocMatches(s.docs[d], terms)
  {
    hide SumOver, Contribution, Tf, SlotsOk, TermsOk, Idf, Holders, TotalLength, Contents, TfOf;
    StateSizes(s);
    StoredSize(s);
    forall k | 0 <= k < |lists|
      ensures TfOf(lists[k].postings, d) == Tf(s.docs[d], terms[k]) && s.lengths[d] == Length(s.docs[d])
    {
      assert ListFor(s, log, lists[k], terms[k]);
      ListTf(s, terms[k], d);
    }
    assert Values(lists, c, d) == TermValues(Contents(s), log, s.docs[d], terms);
  }

  lemma StoredSize(s: State)
    requires StateOk(s)
    ensures s.tokens == TotalLength(Contents(s)) && |s.slots| == |Contents(s)|
  {
    hide TermsOk, Rank, TotalLength;
    ContentsNamed(s);
  }

  ghost predicate SameDocs(s: State, log: real -> real, lists: seq<TermList>, terms: seq<string>, c: Corpus)
    requires CorpusOk(c) && StateOk(s) && TotalLength(Contents(s)) > 0 && |Contents(s)| > 0
  {
    && (forall h :: h in AllHits(lists, c) ==>
          && h.id in Matching(Contents(s), terms) && h.slot < |s.docs| && s.docs[h.slot] == Contents(s)[h.id]
          && Answer(h.id, s.docs[h.slot].title, h.score) == AnswerFor(Contents(s), log, terms, h.id))
    && (forall id :: id in Matching(Contents(s), terms) ==> exists h :: h in AllHits(lists, c) && h.id == id)
  }

  // The hits are the documents of the map that match.
  lemma HitsAreMatches(s: State, log: real -> real, lists: seq<TermList>, terms: seq<string>, c: Corpus)
    requires StateOk(s) && ListsFor(s, log, lists, terms) && CorpusOk(c) && c == CorpusOf(s, c.avgLength)
    requires |s.slots| > 0 && s.tokens > 0 && c.avgLength == s.tokens as real / |s.slots| as real
    ensures TotalLength(Contents(s)) > 0 && |Contents(s)| > 0
    ensures SameDocs(s, log, lists, terms, c)
  {
    hide Score, Tf, TermsOk, DocMatches, Matches, TotalLength, DocScore, Rank, ListsFor;
    StoredSize(s);
    StateSizes(s);
    forall h | h in AllHits(lists, c)
      ensures
        && h.id in Matching(Contents(s), terms) && h.slot < |s.docs| && s.docs[h.slot] == Contents(s)[h.id]
        && Answer(h.id, s.docs[h.slot].title, h.score) == AnswerFor(Contents(s), log, terms, h.id)
    {
      SameScore(s, log, lists, terms, c, h.slot);
      LiveContents(s, h.slot);
    }
    forall id | id in Matching(Contents(s), terms) ensures exists h :: h in AllHits(lists, c) && h.id == id {
      var d := s.slots[id];
      SlotOwner(s, id);
      LiveSlotOf(s, id);
      SameScore(s, log, lists, terms, c, d);
      assert HitOf(lists, c, d) in AllHits(lists, c);
    }
  }

  lemma LiveSlotOf(s: State, id: string)
    requires SlotsOk(s) && id in s.slots
    ensures s.slots[id] < |s.live| && s.live[s.slots[id]] && Contents(s)[id] == s.docs[s.slots[id]]
  {
  }

  ghost function Ids(hits: set<Hit>): set<string> {
    set h | h in hits :: h.id
  }

  lemma {:induction false} IdsSize(hits: set<Hit>)
    requires DistinctIds(hits)
    ensures |Ids(hits)| == |hits|
  {
    if hits != {} {
      var h :| h in hits;
      IdsSize(hits - {h});
      assert Ids(hits) == Ids(hits - {h}) + {h.id};
    }
  }

  lemma AllDistinct(lists: seq<TermList>, c: Corpus)
    requires CorpusOk(c)
    ensures DistinctIds(AllHits(lists, c))
  {
    hide Score, Matches;
  }

  ghost predicate Ranked(hits: seq<Hit>) {
    forall j, k :: 0 <= j < k < |hits| ==> RanksBelow(hits[k], hits[j])
  }

  // The best first.
  method SortHits(hits: seq<Hit>) returns (sorted: seq<Hit>)
    requires NoRepeats(hits) && DistinctIds(Elements(hits))
    ensures Ranked(sorted) && Elements(sorted) == Elements(hits) && |sorted| == |hits|
  {
    hide RanksBelow;
    sorted := [];
    for k := 0 to |hits|
      invariant Ranked(sorted) && Elements(sorted) == Elements(hits[..k]) && |sorted| == k
    {
      assert hits[..k + 1] == hits[..k] + [hits[k]];
      ElementsAppend(hits[..k], hits[k]);
      NotBefore(hits, k);
      sorted := InsertHit(sorted, hits[k], hits);
    }
    assert hits[..|hits|] == hits;
  }

  lemma NotBefore(hits: seq<Hit>, k: nat)
    requires NoRepeats(hits) && k < |hits|
    ensures hits[k] !in Elements(hits[..k]) && Elements(hits[..k]) <= Elements(hits) && hits[k] in Elements(hits)
  {
  }

  method InsertHit(sorted: seq<Hit>, h: Hit, ghost all: seq<Hit>) returns (longer: seq<Hit>)
    requires Ranked(sorted) && h !in Elements(sorted) && Elements(sorted) <= Elements(all) && h in Elements(all) && DistinctIds(Elements(all))
    ensures Ranked(longer) && Elements(longer) == Elements(sorted) + {h} && |longer| == |sorted| + 1
  {
    hide RanksBelow;
    var place: nat := |sorted|;
    while place > 0 && RanksBelow(sorted[place - 1], h)
      invariant place <= |sorted| && forall k :: place <= k < |sorted| ==> RanksBelow(sorted[k], h)
    {
      place := place - 1;
    }
    forall k | 0 <= k < place ensures RanksBelow(h, sorted[k]) {
      assert sorted[k] in Elements(sorted) && sorted[place - 1] in Elements(sorted);
      RankOrder(h, sorted[place - 1]);
      if k < place - 1 {
        RankTransitive(h, sorted[place - 1], sorted[k]);
      }
    }
    longer := sorted[..place] + [h] + sorted[place..];
    assert sorted == sorted[..place] + sorted[place..];
  }

  lemma ResultsFollow(s: State, log: real -> real, lists: seq<TermList>, tokens: seq<string>, c: Corpus, hits: seq<Hit>, limit: nat, results: seq<Answer>)
    requires StateOk(s) && ListsFor(s, log, lists, QueryTerms(Contents(s), tokens)) && CorpusOk(c) && limit > 0 && lists != []
    requires TotalLength(Contents(s)) > 0 && |Contents(s)| > 0 && SameDocs(s, log, lists, QueryTerms(Contents(s), tokens), c)
    requires Ranked(hits) && Best(Elements(hits), AllHits(lists, c), limit) && |hits| == |Elements(hits)|
    requires |results| == |hits| && forall k :: 0 <= k < |hits| ==> hits[k].slot < |s.docs| && results[k] == Answer(hits[k].id, s.docs[hits[k].slot].title, hits[k].score)
    ensures IsSearchResult(results, Contents(s), log, tokens, limit)
  {
    hide StateOk, ListFor, AllHits, CorpusOk, DocMatches, AnswerFor, TotalLength, QueryTerms, SlotsOk, Contents, RanksBelow, AnswerBelow, Elements, Best, SameDocs;
    StateSizes(s);
    var m, terms, all := Contents(s), QueryTerms(Contents(s), tokens), AllHits(lists, c);
    MatchCount(s, log, lists, terms, c);
    BestParts(hits, all, limit);
    forall k | 0 <= k < |hits| ensures results[k].id in Matching(m, terms) && results[k] == AnswerFor(m, log, terms, results[k].id) {
      HitAnswer(s, log, lists, terms, c, hits[k]);
    }
    forall j, k | 0 <= j < k < |hits| ensures AnswerBelow(results[k], results[j]) {
      BelowSame(hits[k], hits[j], results[k], results[j]);
    }
    forall id, k | id in Matching(m, terms) && 0 <= k < |results| && (forall j :: 0 <= j < |results| ==> results[j].id != id)
      ensures AnswerBelow(AnswerFor(m, log, terms, id), results[k])
    {
      var g := MatchHit(s, log, lists, terms, c, id);
      NotKept(hits, g);
      assert RanksBelow(g, hits[k]);
      NamedById(m, log, terms, id);
      BelowSame(g, hits[k], AnswerFor(m, log, terms, id), results[k]);
    }
  }

  lemma NamedById(m: Docs, log: real -> real, terms: seq<string>, id: string)
    requires TotalLength(m) > 0 && |m| > 0 && id in m
    ensures AnswerFor(m, log, terms, id).id == id
  {
  }

  lemma BelowSame(g: Hit, h: Hit, a: Answer, b: Answer)
    requires RanksBelow(g, h) && a.id == g.id && a.score == g.score && b.id == h.id && b.score == h.score
    ensures AnswerBelow(a, b)
  {
  }

  lemma NotKept(hits: seq<Hit>, g: Hit)
    requires forall j :: 0 <= j < |hits| ==> hits[j].id != g.id
    ensures g !in Elements(hits)
  {
  }

  lemma BestParts(hits: seq<Hit>, all: set<Hit>, limit: nat)
    requires Best(Elements(hits), all, limit) && |hits| == |Elements(hits)|
    ensures |hits| == (if |all| < limit then |all| else limit)
    ensures forall k :: 0 <= k < |hits| ==> hits[k] in all && hits[k] in Elements(hits)
    ensures forall g, k :: g in all && g !in Elements(hits) && 0 <= k < |hits| ==> RanksBelow(g, hits[k])
  {
    hide RanksBelow;
  }

  lemma HitAnswer(s: State, log: real -> real, lists: seq<TermList>, terms: seq<string>, c: Corpus, h: Hit)
    requires CorpusOk(c) && StateOk(s) && TotalLength(Contents(s)) > 0 && |Contents(s)| > 0
    requires SameDocs(s, log, lists, terms, c) && h in AllHits(lists, c)
    ensures h.id in Matching(Contents(s), terms) && h.slot < |s.docs|
    ensures Answer(h.id, s.docs[h.slot].title, h.score) == AnswerFor(Contents(s), log, terms, h.id)
  {
    hide AllHits, Matching, AnswerFor;
  }

  lemma MatchHit(s: State, log: real -> real, lists: seq<TermList>, terms: seq<string>, c: Corpus, id: string) returns (h: Hit)
    requires CorpusOk(c) && StateOk(s) && TotalLength(Contents(s)) > 0 && |Contents(s)| > 0
    requires SameDocs(s, log, lists, terms, c) && id in Matching(Contents(s), terms)
    ensures h in AllHits(lists, c) && h.id == id && h.score == AnswerFor(Contents(s), log, terms, id).score
  {
    hide AllHits, Matching, AnswerFor;
    h :| h in AllHits(lists, c) && h.id == id;
  }

  lemma MatchCount(s: State, log: real -> real, lists: seq<TermList>, terms: seq<string>, c: Corpus)
    requires CorpusOk(c) && StateOk(s) && TotalLength(Contents(s)) > 0 && |Contents(s)| > 0 && SameDocs(s, log, lists, terms, c)
    ensures |AllHits(lists, c)| == |Matching(Contents(s), terms)|
  {
    hide AllHits, Matching, AnswerFor, CorpusOk, StateOk;
    StateSizes(s);
    AllDistinct(lists, c);
    IdsSize(AllHits(lists, c));
    assert Ids(AllHits(lists, c)) == Matching(Contents(s), terms);
  }

  /******* The search *******/

  // Answers a query as the map of stored documents demands.
  method Search(index: Index, tokens: seq<string>, limit: int, log: real -> real) returns (results: seq<Answer>)
    requires index.Valid() && |index.docs| <= NoDoc && LogLike(log)
    ensures IsSearchResult(results, index.Stored(), log, tokens, limit)
  {
    hide StateOk, Contents, ListsFor, CorpusOk, ListsOk, Best, SameDocs, NoRepeats, DistinctIds, TopK.Valid, IsSearchResult;
    ghost var s := index.View();
    StoredSize(s);
    StateSizes(s);
    if limit <= 0 || |index.slots| == 0 {
      NoResults(s, log, tokens, limit);
      return [];
    }
    var avgLength := index.tokens as real / |index.slots| as real;
    Average(index.tokens, |index.slots|);
    var lists := ListsOf(index, tokens, log, avgLength);
    SameNumber(s, log, lists, tokens);
    if lists == [] {
      NothingToFind(s, log, tokens, limit);
      return [];
    }
    var c := CorpusOf(index.View(), avgLength);
    HitsAreMatches(s, log, lists, QueryTerms(Contents(s), tokens), c);
    var top := new TopK(limit);
    if |lists| > MaxPrunedTerms {
      ScoreExhaustive(lists, c, top);
    } else {
      ScorePruned(lists, c, top);
    }
    HeapParts(top, lists, c);
    var hits := SortHits(top.hits);
    InRangeHits(s, log, lists, QueryTerms(Contents(s), tokens), c, hits, limit);
    results := Present(index.docs, hits);
    ResultsFollow(s, log, lists, tokens, c, hits, limit, results);
  }

  method Present(docs: seq<Document>, hits: seq<Hit>) returns (results: seq<Answer>)
    requires forall k :: 0 <= k < |hits| ==> hits[k].slot < |docs|
    ensures |results| == |hits|
    ensures forall k :: 0 <= k < |hits| ==> results[k] == Answer(hits[k].id, docs[hits[k].slot].title, hits[k].score)
  {
    results := [];
    for k := 0 to |hits|
      invariant |results| == k
      invariant forall j :: 0 <= j < k ==> results[j] == Answer(hits[j].id, docs[hits[j].slot].title, hits[j].score)
    {
      results := results + [Answer(hits[k].id, docs[hits[k].slot].title, hits[k].score)];
    }
  }

  lemma Average(total: nat, n: nat)
    requires n > 0
    ensures total > 0 ==> total as real / n as real > 0.0
  {
    if total > 0 {
      AveragePositive(total, n);
    }
  }

  lemma SameNumber(s: State, log: real -> real, lists: seq<TermList>, tokens: seq<string>)
    requires StateOk(s) && ListsFor(s, log, lists, QueryTerms(Contents(s), tokens))
    ensures |lists| == |QueryTerms(Contents(s), tokens)|
  {
    hide StateOk, ListFor, Contents;
  }

  lemma NoResults(s: State, log: real -> real, tokens: seq<string>, limit: int)
    requires StateOk(s) && (limit <= 0 || |s.slots| == 0)
    ensures IsSearchResult([], Contents(s), log, tokens, limit)
  {
    hide StateOk, DocScore, TotalLength, Holders;
    StoredSize(s);
    StateSizes(s);
    if |s.slots| == 0 {
      EmptyQuery(Contents(s), tokens);
    }
  }

  lemma {:induction false} EmptyQuery(m: Docs, tokens: seq<string>)
    requires |m| == 0
    ensures QueryTerms(m, tokens) == []
  {
    if tokens != [] {
      EmptyQuery(m, tokens[..|tokens| - 1]);
      NoHolders(m, tokens[|tokens| - 1]);
    }
  }

  lemma NoHolders(m: Docs, t: string)
    requires |m| == 0
    ensures Holders(m, t) == {}
  {
    HoldersSize(m, t);
  }

  lemma NothingToFind(s: State, log: real -> real, tokens: seq<string>, limit: int)
    requires StateOk(s) && QueryTerms(Contents(s), tokens) == []
    ensures IsSearchResult([], Contents(s), log, tokens, limit)
  {
  }

  lemma HeapParts(top: TopK, lists: seq<TermList>, c: Corpus)
    requires top.Valid() && CorpusOk(c) && Best(Elements(top.hits), AllHits(lists, c), top.limit)
    ensures NoRepeats(top.hits) && DistinctIds(Elements(top.hits)) && |Elements(top.hits)| == |top.hits|
  {
    hide CorpusOk, AllHits, RanksBelow;
    AllDistinct(lists, c);
    ElementsSize(top.hits);
  }

  lemma InRangeHits(s: State, log: real -> real, lists: seq<TermList>, terms: seq<string>, c: Corpus, hits: seq<Hit>, limit: nat)
    requires CorpusOk(c) && StateOk(s) && TotalLength(Contents(s)) > 0 && |Contents(s)| > 0 && SameDocs(s, log, lists, terms, c)
    requires Best(Elements(hits), AllHits(lists, c), limit)
    ensures forall k :: 0 <= k < |hits| ==> hits[k].slot < |s.docs|
  {
    hide CorpusOk, AllHits, StateOk, Matching, AnswerFor, RanksBelow;
    forall k | 0 <= k < |hits| ensures hits[k].slot < |s.docs| {
      assert hits[k] in Elements(hits);
    }
  }

  /******* Only one answer *******/

  function AsHit(a: Answer): Hit {
    Hit(a.score, 0, a.id)
  }

  // The k-th answers agree when those before do.
  lemma NextAnswer(x: seq<Answer>, y: seq<Answer>, m: Docs, log: real -> real, tokens: seq<string>, limit: int, k: nat)
    requires IsSearchResult(x, m, log, tokens, limit) && IsSearchResult(y, m, log, tokens, limit)
    requires k < |x| == |y| && x[..k] == y[..k] && limit > 0 && QueryTerms(m, tokens) != []
    ensures !AnswerBelow(y[k], x[k])
  {
    hide Matching, AnswerFor, TotalLength, QueryTerms, IdLess;
    if AnswerBelow(y[k], x[k]) {
      forall j | 0 <= j < |y| ensures y[j].id != x[k].id {
        if j < k {
          assert y[j] == x[..k][j] && AnswerBelow(x[k], x[j]);
          RankOrder(AsHit(x[k]), AsHit(x[j]));
          SameIdSameAnswer(x, m, log, tokens, limit, k, j);
        } else {
          AtOrBelow(y, k, j);
          if j > k {
            RankTransitive(AsHit(y[j]), AsHit(y[k]), AsHit(x[k]));
          }
          OneId(x, y, m, log, tokens, limit, k, j);
        }
      }
      assert AnswerBelow(x[k], y[k]);
      RankOrder(AsHit(x[k]), AsHit(y[k]));
    }
  }

  lemma AtOrBelow(y: seq<Answer>, k: nat, j: nat)
    requires k <= j < |y| && forall i, h :: 0 <= i < h < |y| ==> AnswerBelow(y[h], y[i])
    ensures j == k || AnswerBelow(y[j], y[k])
  {
  }

  lemma SameIdSameAnswer(x: seq<Answer>, m: Docs, log: real -> real, tokens: seq<string>, limit: int, k: nat, j: nat)
    requires IsSearchResult(x, m, log, tokens, limit) && limit > 0 && QueryTerms(m, tokens) != [] && j < k < |x|
    ensures x[k].id != x[j].id
  {
    hide DocMatches, AnswerFor, TotalLength, QueryTerms;
    RankOrder(AsHit(x[k]), AsHit(x[j]));
    assert AnswerBelow(x[k], x[j]);
    var terms := QueryTerms(m, tokens);
    assert x[k] == AnswerFor(m, log, terms, x[k].id) && x[j] == AnswerFor(m, log, terms, x[j].id);
  }

  lemma OneId(x: seq<Answer>, y: seq<Answer>, m: Docs, log: real -> real, tokens: seq<string>, limit: int, k: nat, j: nat)
    requires IsSearchResult(x, m, log, tokens, limit) && IsSearchResult(y, m, log, tokens, limit)
    requires limit > 0 && QueryTerms(m, tokens) != [] && k < |x| && j < |y| && AnswerBelow(y[j], x[k])
    ensures y[j].id != x[k].id
  {
    hide DocMatches, AnswerFor, TotalLength, QueryTerms;
    RankOrder(AsHit(y[j]), AsHit(x[k]));
    var terms := QueryTerms(m, tokens);
    assert x[k] == AnswerFor(m, log, terms, x[k].id) && y[j] == AnswerFor(m, log, terms, y[j].id);
  }

  // The reference allows exactly one answer.
  lemma {:induction false} SearchResultUnique(x: seq<Answer>, y: seq<Answer>, m: Docs, log: real -> real, tokens: seq<string>, limit: int, k: nat)
    requires IsSearchResult(x, m, log, tokens, limit) && IsSearchResult(y, m, log, tokens, limit)
    ensures |x| == |y|
    ensures k <= |x| ==> x[..k] == y[..k]
  {
    hide Matching, AnswerFor, TotalLength, QueryTerms, AnswerBelow;
    if 0 < k <= |x| {
      SearchResultUnique(x, y, m, log, tokens, limit, k - 1);
      NextAnswer(x, y, m, log, tokens, limit, k - 1);
      NextAnswer(y, x, m, log, tokens, limit, k - 1);
      SameRank(x, y, m, log, tokens, limit, k - 1);
      assert x[..k] == x[..k - 1] + [x[k - 1]] && y[..k] == y[..k - 1] + [y[k - 1]];
    }
  }

  lemma SameRank(x: seq<Answer>, y: seq<Answer>, m: Docs, log: real -> real, tokens: seq<string>, limit: int, k: nat)
    requires IsSearchResult(x, m, log, tokens, limit) && IsSearchResult(y, m, log, tokens, limit)
    requires limit > 0 && QueryTerms(m, tokens) != [] && k < |x| == |y| && !AnswerBelow(x[k], y[k]) && !AnswerBelow(y[k], x[k])
    ensures x[k] == y[k]
  {
    hide Matching, AnswerFor, TotalLength, QueryTerms;
    RankOrder(AsHit(x[k]), AsHit(y[k]));
  }
}
