// What an index of documents stands for: a map from id to the latest document,
// and the exhaustive scoring of that map that searches must agree with.
module Documents {
  import opened Scoring
  import opened Sums
  import opened Ranking

  // tokens are the words of title and body, in order and in lower case.
  datatype Document = Document(id: string, title: string, tokens: seq<string>)

  const NoDocument := Document("", "", [])

  type Docs = map<string, Document>

  datatype Answer = Answer(id: string, title: string, score: real)

  function Count(tokens: seq<string>, term: string): nat {
    if tokens == [] then 0
    else Count(tokens[..|tokens| - 1], term) + if tokens[|tokens| - 1] == term then 1 else 0
  }

  // How often a document holds a term. Terms of one byte are not indexed.
  function Tf(doc: Document, term: string): nat {
    if |term| > 1 then Count(doc.tokens, term) else 0
  }

  function Length(doc: Document): nat {
    |doc.tokens|
  }

  ghost predicate Named(m: Docs) {
    forall id :: id in m ==> m[id].id == id
  }

  ghost function Holders(m: Docs, term: string): set<string> {
    set id | id in m && Tf(m[id], term) > 0
  }

  ghost function TotalLength(m: Docs): nat {
    if m.Keys == {} then 0
    else
      var id :| id in m;
      Length(m[id]) + TotalLength(m - {id})
  }

  lemma {:induction false} TotalRemove(m: Docs, id: string)
    requires id in m
    ensures TotalLength(m) == Length(m[id]) + TotalLength(m - {id})
    decreases |m|
  {
    hide Length;
    var first :| first in m && TotalLength(m) == Length(m[first]) + TotalLength(m - {first});
    if first != id {
      TotalRemove(m - {first}, id);
      TotalRemove(m - {id}, first);
      assert m - {first} - {id} == m - {id} - {first};
    }
  }

  lemma TotalAdd(m: Docs, doc: Document)
    requires doc.id !in m
    ensures TotalLength(m[doc.id := doc]) == TotalLength(m) + Length(doc)
  {
    TotalRemove(m[doc.id := doc], doc.id);
    assert m[doc.id := doc] - {doc.id} == m;
  }

  lemma {:induction false} CountPositive(tokens: seq<string>, term: string)
    ensures Count(tokens, term) > 0 <==> term in tokens
  {
    if tokens != [] {
      CountPositive(tokens[..|tokens| - 1], term);
      assert tokens == tokens[..|tokens| - 1] + [tokens[|tokens| - 1]];
    }
  }

  // A term that some document holds makes the average length positive.
  lemma HeldHasLength(m: Docs, term: string)
    requires Holders(m, term) != {}
    ensures TotalLength(m) > 0 && |m| > 0
  {
    var id :| id in Holders(m, term);
    CountPositive(m[id].tokens, term);
    TotalRemove(m, id);
    assert id in m.Keys && |m.Keys| == |m|;
  }

  lemma HoldersSize(m: Docs, term: string)
    ensures |Holders(m, term)| <= |m|
  {
    assert Holders(m, term) <= m.Keys;
    assert m.Keys == Holders(m, term) + (m.Keys - Holders(m, term));
    assert |m.Keys| == |m|;
  }

  /******* The reference *******/

  // The logarithm, which exceeds 0 beyond 1. Nothing else about it matters.
  ghost predicate LogLike(log: real -> real) {
    forall x :: x > 1.0 ==> log(x) > 0.0
  }

  // The weight of a term that df of n documents hold.
  function Idf(log: real -> real, n: nat, df: nat): real {
    log(1.0 + (n as real - df as real + 0.5) / (df as real + 0.5))
  }

  lemma IdfPositive(log: real -> real, n: nat, df: nat)
    requires LogLike(log) && df <= n
    ensures Idf(log, n, df) > 0.0
  {
    var a, b := n as real - df as real + 0.5, df as real + 0.5;
    assert a > 0.0 && b > 0.0;
    assert a / b > 0.0 by {
      var q := a / b;
      assert q * b == a;
      NonNegative(q, b);
    }
  }

  // The distinct terms of a query that some document holds, in query order.
  ghost function QueryTerms(m: Docs, tokens: seq<string>): seq<string> {
    if tokens == [] then []
    else
      var t := tokens[|tokens| - 1];
      QueryTerms(m, tokens[..|tokens| - 1]) + if t in tokens[..|tokens| - 1] || Holders(m, t) == {} then [] else [t]
  }

  ghost function TermValue(m: Docs, log: real -> real, doc: Document, term: string): real
    requires TotalLength(m) > 0 && |m| > 0
  {
    Contribution(Idf(log, |m|, |Holders(m, term)|), Tf(doc, term), Length(doc), TotalLength(m) as real / |m| as real)
  }

  lemma AveragePositive(total: nat, n: nat)
    requires total > 0 && n > 0
    ensures total as real / n as real > 0.0
  {
    var q := total as real / n as real;
    assert q * (n as real) == total as real;
    NonNegative(q, n as real);
  }

  ghost function TermValues(m: Docs, log: real -> real, doc: Document, terms: seq<string>): (v: seq<real>)
    requires TotalLength(m) > 0 && |m| > 0
    ensures |v| == |terms| && forall k :: 0 <= k < |terms| ==> v[k] == TermValue(m, log, doc, terms[k])
  {
    seq(|terms|, k requires 0 <= k < |terms| => TermValue(m, log, doc, terms[k]))
  }

  ghost function DocScore(m: Docs, log: real -> real, doc: Document, terms: seq<string>): real
    requires TotalLength(m) > 0 && |m| > 0
  {
    SumOver(TermValues(m, log, doc, terms), Indices(|terms|))
  }

  ghost predicate DocMatches(doc: Document, terms: seq<string>) {
    exists k :: 0 <= k < |terms| && Tf(doc, terms[k]) > 0
  }

  ghost function Matching(m: Docs, terms: seq<string>): set<string> {
    set id | id in m && DocMatches(m[id], terms)
  }

  predicate AnswerBelow(a: Answer, b: Answer) {
    if a.score != b.score then a.score < b.score else IdLess(b.id, a.id)
  }

  ghost function AnswerFor(m: Docs, log: real -> real, terms: seq<string>, id: string): Answer
    requires TotalLength(m) > 0 && |m| > 0 && id in m
  {
    Answer(id, m[id].title, DocScore(m, log, m[id], terms))
  }

  // Scoring every document in the map and keeping the limit best, in order.
  ghost predicate IsSearchResult(results: seq<Answer>, m: Docs, log: real -> real, tokens: seq<string>, limit: int) {
    var terms := QueryTerms(m, tokens);
    if limit <= 0 || terms == [] then results == []
    else
      && TotalLength(m) > 0 && |m| > 0
      && (forall k :: 0 <= k < |results| ==> results[k].id in Matching(m, terms) && results[k] == AnswerFor(m, log, terms, results[k].id))
      && (forall j, k :: 0 <= j < k < |results| ==> AnswerBelow(results[k], results[j]))
      && |results| == (if |Matching(m, terms)| < limit then |Matching(m, terms)| else limit)
      && forall id, k :: id in Matching(m, terms) && 0 <= k < |results| && (forall j :: 0 <= j < |results| ==> results[j].id != id) ==>
           AnswerBelow(AnswerFor(m, log, terms, id), results[k])
  }
}
