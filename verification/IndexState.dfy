// The inverted index as values: dense slots, tombstones and posting lists, and
// when they stand for a map of documents.
module IndexState {
  import opened Scoring
  import opened MaxScore
  import opened Documents

  datatype TermEntry = TermEntry(postings: seq<Posting>, df: nat, impacts: seq<Impact>)

  datatype State = State(
    slots: map<string, nat>, docs: seq<Document>, lengths: seq<nat>, live: seq<bool>,
    terms: map<string, TermEntry>, tokens: nat, dead: nat)

  /******* Slots *******/

  // How many of the first n slots are live: the slot a document moves to.
  function Rank(live: seq<bool>, n: nat): nat
    requires n <= |live|
  {
    if n == 0 then 0 else Rank(live, n - 1) + if live[n - 1] then 1 else 0
  }

  ghost predicate SlotsOk(s: State) {
    && |s.docs| == |s.lengths| == |s.live|
    && (forall id :: id in s.slots ==> s.slots[id] < |s.docs| && s.live[s.slots[id]] && s.docs[s.slots[id]].id == id)
    && (forall k :: 0 <= k < |s.docs| && s.live[k] ==>
          s.docs[k].id in s.slots && s.slots[s.docs[k].id] == k && s.lengths[k] == Length(s.docs[k]))
    && |s.slots| == Rank(s.live, |s.live|) && s.dead == |s.live| - |s.slots|
  }

  // The map the index stands for.
  ghost function Contents(s: State): Docs
    requires SlotsOk(s)
  {
    map id | id in s.slots :: s.docs[s.slots[id]]
  }

  /******* Terms *******/

  // The list holds exactly the live documents with the term, perhaps tombstones
  // too, and the frontier dominates every posting.
  ghost predicate EntryOk(t: string, e: TermEntry, docs: seq<Document>, lengths: seq<nat>, live: seq<bool>)
    requires |docs| == |lengths| == |live|
  {
    && Sorted(e.postings) && Frontier(e.impacts) && |e.impacts| <= MaxImpacts
    && (forall k :: 0 <= k < |e.postings| ==> PostingOk(t, e.postings[k], e.impacts, docs, lengths, live))
    && (forall d :: 0 <= d < |docs| && live[d] && Tf(docs[d], t) > 0 ==> HasPosting(e.postings, d))
  }

  ghost predicate PostingOk(t: string, p: Posting, impacts: seq<Impact>, docs: seq<Document>, lengths: seq<nat>, live: seq<bool>)
    requires |docs| == |lengths| == |live|
  {
    && p.tf > 0 && p.doc < |docs| && Dominated(impacts, p.tf, lengths[p.doc])
    && (live[p.doc] ==> p.tf == Tf(docs[p.doc], t))
  }

  ghost predicate HasPosting(postings: seq<Posting>, d: nat) {
    exists k :: 0 <= k < |postings| && postings[k].doc == d
  }

  ghost predicate TermsOk(s: State)
    requires SlotsOk(s)
  {
    && (forall t :: t in s.terms ==>
          EntryOk(t, s.terms[t], s.docs, s.lengths, s.live) && s.terms[t].df == |Holders(Contents(s), t)| > 0)
    && (forall t, d :: 0 <= d < |s.docs| && s.live[d] && Tf(s.docs[d], t) > 0 ==> t in s.terms)
  }

  ghost predicate StateOk(s: State) {
    SlotsOk(s) && TermsOk(s) && s.tokens == TotalLength(Contents(s))
  }

  const Empty := State(map[], [], [], [], map[], 0, 0)

  lemma EmptyOk()
    ensures StateOk(Empty) && Contents(Empty) == map[]
  {
  }

  lemma LiveContents(s: State, d: nat)
    requires SlotsOk(s) && d < |s.docs| && s.live[d]
    ensures s.docs[d].id in Contents(s) && Contents(s)[s.docs[d].id] == s.docs[d]
  {
  }

  lemma ContentsNamed(s: State)
    requires SlotsOk(s)
    ensures Named(Contents(s)) && |Contents(s)| == |s.slots|
  {
    assert Contents(s).Keys == s.slots.Keys;
    assert |Contents(s).Keys| == |Contents(s)| && |s.slots.Keys| == |s.slots|;
  }

  lemma {:induction false} RankSet(live: seq<bool>, k: nat, b: bool, n: nat)
    requires k < |live| && n <= |live|
    ensures Rank(live[k := b], n) == Rank(live, n) + (if k < n && b && !live[k] then 1 else 0) - (if k < n && !b && live[k] then 1 else 0)
  {
    if n > 0 {
      RankSet(live, k, b, n - 1);
    }
  }

  lemma {:induction false} RankAppend(live: seq<bool>, b: bool, n: nat)
    requires n <= |live|
    ensures Rank(live + [b], n) == Rank(live, n)
  {
    if n > 0 {
      RankAppend(live, b, n - 1);
    }
  }

  lemma {:induction false} RankGrows(live: seq<bool>, m: nat, n: nat)
    requires m <= n <= |live|
    ensures Rank(live, m) <= Rank(live, n) <= Rank(live, m) + (n - m)
    ensures m < n && live[m] ==> Rank(live, m) < Rank(live, n)
  {
    if m < n {
      RankGrows(live, m, n - 1);
    }
  }

  // Each new slot is taken by exactly one live document.
  lemma {:induction false} RankOnto(live: seq<bool>, n: nat, r: nat) returns (d: nat)
    requires n <= |live| && r < Rank(live, n)
    ensures d < n && live[d] && Rank(live, d) == r
  {
    if live[n - 1] && Rank(live, n - 1) == r {
      d := n - 1;
    } else {
      d := RankOnto(live, n - 1, r);
    }
  }

  /******* Retiring a slot *******/

  // The dictionary without one document: terms nobody else holds are dropped,
  // stale postings and all.
  ghost predicate TermsRetired(before: map<string, TermEntry>, after: map<string, TermEntry>, old': Document) {
    forall t ::
      (t in after <==> t in before && (Tf(old', t) > 0 ==> before[t].df > 1))
      && (t in after ==> after[t] == if Tf(old', t) > 0 then before[t].(df := before[t].df - 1) else before[t])
  }

  function Retired(s: State, slot: nat, terms: map<string, TermEntry>): State
    requires slot < |s.docs| == |s.lengths| == |s.live| && s.lengths[slot] <= s.tokens
  {
    s.(slots := s.slots - {s.docs[slot].id}, docs := s.docs[slot := NoDocument], live := s.live[slot := false],
       terms := terms, tokens := s.tokens - s.lengths[slot], dead := s.dead + 1)
  }

  lemma RetiredTokens(s: State, slot: nat)
    requires StateOk(s) && slot < |s.docs| && s.live[slot]
    ensures s.lengths[slot] <= s.tokens && s.docs[slot].id in s.slots
  {
    LiveContents(s, slot);
    TotalRemove(Contents(s), s.docs[slot].id);
  }

  lemma RetiredNames(s: State, slot: nat, terms: map<string, TermEntry>)
    requires SlotsOk(s) && slot < |s.docs| && s.live[slot] && s.lengths[slot] <= s.tokens
    ensures var r := Retired(s, slot, terms);
      forall id :: id in r.slots ==> r.slots[id] < |r.docs| && r.live[r.slots[id]] && r.docs[r.slots[id]].id == id
  {
    hide Length, Rank;
    var r := Retired(s, slot, terms);
    forall id | id in r.slots ensures r.slots[id] < |r.docs| && r.live[r.slots[id]] && r.docs[r.slots[id]].id == id {
      assert s.docs[s.slots[id]].id == id;
      assert s.slots[id] != slot;
    }
  }

  lemma RetiredHolds(s: State, slot: nat, terms: map<string, TermEntry>)
    requires SlotsOk(s) && slot < |s.docs| && s.live[slot] && s.lengths[slot] <= s.tokens
    ensures var r := Retired(s, slot, terms);
      forall k :: 0 <= k < |r.docs| && r.live[k] ==> r.docs[k].id in r.slots && r.slots[r.docs[k].id] == k && r.lengths[k] == Length(r.docs[k])
  {
    hide Length, Rank;
    var r := Retired(s, slot, terms);
    forall k | 0 <= k < |r.docs| && r.live[k]
      ensures r.docs[k].id in r.slots && r.slots[r.docs[k].id] == k && r.lengths[k] == Length(r.docs[k])
    {
      assert s.live[k] && k != slot;
      assert s.slots[s.docs[k].id] == k;
    }
  }

  lemma SlotOf(s: State, id: string)
    requires SlotsOk(s) && id in s.slots
    ensures s.slots[id] < |s.docs| && s.docs[s.slots[id]].id == id
  {
    hide Length, Rank;
  }

  lemma RemovedContents(s: State, r: State, id: string)
    requires SlotsOk(s) && SlotsOk(r) && r.slots == s.slots - {id}
    requires forall other :: other in r.slots ==>
      r.slots[other] < |r.docs| && s.slots[other] < |s.docs| && r.docs[r.slots[other]] == s.docs[s.slots[other]]
    ensures Contents(r) == Contents(s) - {id}
  {
    hide Length, Rank, SlotsOk, Contents;
    ContentsAt(s);
    ContentsAt(r);
  }

  lemma RetiredContents(s: State, slot: nat, terms: map<string, TermEntry>)
    requires SlotsOk(s) && slot < |s.docs| && s.live[slot] && s.lengths[slot] <= s.tokens
    requires SlotsOk(Retired(s, slot, terms))
    ensures Contents(Retired(s, slot, terms)) == Contents(s) - {s.docs[slot].id}
  {
    SlotSizes(s);
    hide Length, Rank, SlotsOk, Contents;
    var r, id := Retired(s, slot, terms), s.docs[slot].id;
    forall other | other in r.slots
      ensures r.slots[other] < |r.docs| && s.slots[other] < |s.docs| && r.docs[r.slots[other]] == s.docs[s.slots[other]]
    {
      SlotOf(s, other);
    }
    RemovedContents(s, r, id);
  }

  lemma RetiredSlots(s: State, slot: nat, terms: map<string, TermEntry>)
    requires StateOk(s) && slot < |s.docs| && s.live[slot] && s.lengths[slot] <= s.tokens
    ensures SlotsOk(Retired(s, slot, terms)) && Contents(Retired(s, slot, terms)) == Contents(s) - {s.docs[slot].id}
  {
    hide TermsOk, Rank, Length, TotalLength, Contents;
    RankSet(s.live, slot, false, |s.live|);
    MapMinus(s.slots, s.docs[slot].id);
    RetiredNames(s, slot, terms);
    RetiredHolds(s, slot, terms);
    RetiredContents(s, slot, terms);
  }

  lemma MapMinus(m: map<string, nat>, id: string)
    requires id in m
    ensures |m - {id}| == |m| - 1
  {
    assert (m - {id}).Keys == m.Keys - {id};
    assert |(m - {id}).Keys| == |m - {id}| && |m.Keys| == |m|;
  }

  lemma HoldersRemove(m: Docs, id: string, t: string)
    requires id in m
    ensures Holders(m - {id}, t) == Holders(m, t) - {id}
    ensures |Holders(m - {id}, t)| == |Holders(m, t)| - if Tf(m[id], t) > 0 then 1 else 0
  {
  }

  lemma HoldersAdd(m: Docs, doc: Document, t: string)
    requires doc.id !in m
    ensures |Holders(m[doc.id := doc], t)| == |Holders(m, t)| + if Tf(doc, t) > 0 then 1 else 0
  {
    var n := m[doc.id := doc];
    HoldersRemove(n, doc.id, t);
    assert n - {doc.id} == m;
  }

  lemma EntryRetired(t: string, e: TermEntry, s: State, slot: nat, df: nat)
    requires |s.docs| == |s.lengths| == |s.live| && EntryOk(t, e, s.docs, s.lengths, s.live) && slot < |s.docs|
    ensures EntryOk(t, e.(df := df), s.docs[slot := NoDocument], s.lengths, s.live[slot := false])
  {
    hide Tf, Dominated, Frontier;
    forall k | 0 <= k < |e.postings| ensures PostingOk(t, e.postings[k], e.impacts, s.docs[slot := NoDocument], s.lengths, s.live[slot := false]) {
      assert PostingOk(t, e.postings[k], e.impacts, s.docs, s.lengths, s.live);
    }
  }

  lemma RetireOk(s: State, slot: nat, terms: map<string, TermEntry>)
    requires StateOk(s) && slot < |s.docs| && s.live[slot] && s.lengths[slot] <= s.tokens
    requires TermsRetired(s.terms, terms, s.docs[slot])
    ensures StateOk(Retired(s, slot, terms)) && Contents(Retired(s, slot, terms)) == Contents(s) - {s.docs[slot].id}
  {
    hide EntryOk, Tf, SlotsOk, Holders, TotalLength;
    SlotSizes(s);
    RetiredSlots(s, slot, terms);
    var r, m, id := Retired(s, slot, terms), Contents(s), s.docs[slot].id;
    LiveContents(s, slot);
    TotalRemove(m, id);
    SlotLength(s, slot);
    forall t | t in terms ensures EntryOk(t, terms[t], r.docs, r.lengths, r.live) && terms[t].df == |Holders(Contents(r), t)| > 0 {
      EntryRetired(t, s.terms[t], s, slot, terms[t].df);
      HoldersRemove(m, id, t);
    }
    forall t, d | 0 <= d < |r.docs| && r.live[d] && Tf(r.docs[d], t) > 0 ensures t in terms {
      HoldersRemove(m, id, t);
      StillHeld(r, d, t);
    }
  }

  lemma SlotSizes(s: State)
    requires SlotsOk(s)
    ensures |s.docs| == |s.lengths| == |s.live|
  {
  }

  lemma SlotLength(s: State, d: nat)
    requires SlotsOk(s) && d < |s.docs| && s.live[d]
    ensures s.lengths[d] == Length(s.docs[d])
  {
  }

  lemma StillHeld(s: State, d: nat, t: string)
    requires SlotsOk(s) && d < |s.docs| && s.live[d] && Tf(s.docs[d], t) > 0
    ensures |Holders(Contents(s), t)| > 0
  {
    LiveContents(s, d);
    assert s.docs[d].id in Holders(Contents(s), t);
  }

  /******* Adding a document *******/

  ghost predicate EntryAdded(t: string, before: map<string, TermEntry>, e: TermEntry, slot: nat, doc: Document) {
    var old' := if t in before then before[t] else TermEntry([], 0, []);
    && e.postings == old'.postings + [Posting(slot, Tf(doc, t))] && e.df == old'.df + 1
    && Frontier(e.impacts) && |e.impacts| <= MaxImpacts && Dominated(e.impacts, Tf(doc, t), Length(doc))
    && forall tf, l :: Dominated(old'.impacts, tf, l) ==> Dominated(e.impacts, tf, l)
  }

  ghost predicate TermsAdded(before: map<string, TermEntry>, after: map<string, TermEntry>, slot: nat, doc: Document) {
    forall t ::
      (t in after <==> t in before || Tf(doc, t) > 0)
      && (t in after ==> if Tf(doc, t) > 0 then EntryAdded(t, before, after[t], slot, doc) else t in before && after[t] == before[t])
  }

  function Added(s: State, doc: Document, terms: map<string, TermEntry>): State {
    s.(slots := s.slots[doc.id := |s.docs|], docs := s.docs + [doc], lengths := s.lengths + [Length(doc)], live := s.live + [true],
       terms := terms, tokens := s.tokens + Length(doc))
  }

  lemma AddedNames(s: State, doc: Document, terms: map<string, TermEntry>)
    requires SlotsOk(s) && doc.id !in s.slots
    ensures var r := Added(s, doc, terms);
      forall id :: id in r.slots ==> r.slots[id] < |r.docs| && r.live[r.slots[id]] && r.docs[r.slots[id]].id == id
  {
    hide Length, Rank;
    var r := Added(s, doc, terms);
    forall id | id in r.slots ensures r.slots[id] < |r.docs| && r.live[r.slots[id]] && r.docs[r.slots[id]].id == id {
      if id != doc.id {
        assert r.docs[r.slots[id]] == s.docs[s.slots[id]];
      }
    }
  }

  lemma AddedHolds(s: State, doc: Document, terms: map<string, TermEntry>)
    requires SlotsOk(s) && doc.id !in s.slots
    ensures var r := Added(s, doc, terms);
      |r.docs| == |r.live| == |r.lengths|
      && forall k :: 0 <= k < |r.docs| && r.live[k] ==> r.docs[k].id in r.slots && r.slots[r.docs[k].id] == k && r.lengths[k] == Length(r.docs[k])
  {
    hide Length, Rank;
    var r := Added(s, doc, terms);
    forall k | 0 <= k < |r.docs| && r.live[k]
      ensures r.docs[k].id in r.slots && r.slots[r.docs[k].id] == k && r.lengths[k] == Length(r.docs[k])
    {
      if k < |s.docs| {
        assert r.docs[k] == s.docs[k] && s.live[k];
      }
    }
  }

  lemma AddedContents(s: State, doc: Document, terms: map<string, TermEntry>)
    requires SlotsOk(s) && doc.id !in s.slots && SlotsOk(Added(s, doc, terms))
    ensures Contents(Added(s, doc, terms)) == Contents(s)[doc.id := doc]
  {
    hide Length, Rank, SlotsOk, Contents;
    var r := Added(s, doc, terms);
    ContentsAt(s);
    ContentsAt(r);
    forall id | id in r.slots ensures Contents(r)[id] == Contents(s)[doc.id := doc][id] {
      assert id != doc.id ==> r.docs[r.slots[id]] == s.docs[s.slots[id]];
    }
  }

  lemma ContentsAt(s: State)
    requires SlotsOk(s)
    ensures Contents(s).Keys == s.slots.Keys
    ensures forall id :: id in s.slots ==> s.slots[id] < |s.docs| && Contents(s)[id] == s.docs[s.slots[id]]
  {
    hide Length, Rank;
  }

  lemma AddedSlots(s: State, doc: Document, terms: map<string, TermEntry>)
    requires SlotsOk(s) && doc.id !in s.slots
    ensures SlotsOk(Added(s, doc, terms)) && Contents(Added(s, doc, terms)) == Contents(s)[doc.id := doc]
  {
    hide Length, Rank, Contents;
    RankAppendLive(s.live);
    MapPlus(s.slots, doc.id, |s.docs|);
    AddedNames(s, doc, terms);
    AddedHolds(s, doc, terms);
    AddedContents(s, doc, terms);
  }

  lemma RankAppendLive(live: seq<bool>)
    ensures Rank(live + [true], |live| + 1) == Rank(live, |live|) + 1
  {
    RankAppend(live, true, |live|);
  }

  lemma MapPlus(m: map<string, nat>, id: string, n: nat)
    requires id !in m
    ensures |m[id := n]| == |m| + 1
  {
    MapMinus(m[id := n], id);
    assert m[id := n] - {id} == m;
  }

  lemma EntryMore(t: string, e: TermEntry, s: State, doc: Document)
    requires |s.docs| == |s.lengths| == |s.live| && EntryOk(t, e, s.docs, s.lengths, s.live) && Tf(doc, t) == 0
    ensures EntryOk(t, e, s.docs + [doc], s.lengths + [Length(doc)], s.live + [true])
  {
    hide Tf, Dominated, Frontier;
    forall k | 0 <= k < |e.postings| ensures PostingOk(t, e.postings[k], e.impacts, s.docs + [doc], s.lengths + [Length(doc)], s.live + [true]) {
      assert PostingOk(t, e.postings[k], e.impacts, s.docs, s.lengths, s.live);
    }
  }

  lemma EntryWith(t: string, e: TermEntry, s: State, doc: Document)
    requires |s.docs| == |s.lengths| == |s.live| && Tf(doc, t) > 0 && EntryAdded(t, s.terms, e, |s.docs|, doc)
    requires if t in s.terms then EntryOk(t, s.terms[t], s.docs, s.lengths, s.live)
             else forall d :: 0 <= d < |s.docs| && s.live[d] ==> Tf(s.docs[d], t) == 0
    ensures EntryOk(t, e, s.docs + [doc], s.lengths + [Length(doc)], s.live + [true])
  {
    hide Tf, Dominated, Frontier;
    var postings := if t in s.terms then s.terms[t].postings else [];
    var docs, lengths, live := s.docs + [doc], s.lengths + [Length(doc)], s.live + [true];
    assert e.postings == postings + [Posting(|s.docs|, Tf(doc, t))];
    forall k | 0 <= k < |e.postings| ensures PostingOk(t, e.postings[k], e.impacts, docs, lengths, live) {
      if k < |postings| {
        assert PostingOk(t, postings[k], s.terms[t].impacts, s.docs, s.lengths, s.live);
      }
    }
    forall d | 0 <= d < |docs| && live[d] && Tf(docs[d], t) > 0 ensures HasPosting(e.postings, d) {
      if d < |s.docs| {
        var k :| 0 <= k < |postings| && postings[k].doc == d;
        assert e.postings[k].doc == d;
      } else {
        assert e.postings[|postings|].doc == d;
      }
    }
  }

  lemma AddOk(s: State, doc: Document, terms: map<string, TermEntry>)
    requires StateOk(s) && doc.id !in s.slots && TermsAdded(s.terms, terms, |s.docs|, doc)
    ensures StateOk(Added(s, doc, terms)) && Contents(Added(s, doc, terms)) == Contents(s)[doc.id := doc]
  {
    hide EntryOk, EntryAdded, Tf, SlotsOk, Holders, TotalLength, Length;
    AddedSlots(s, doc, terms);
    SlotSizes(s);
    var r, m := Added(s, doc, terms), Contents(s);
    NotStored(s, doc.id);
    TotalAdd(m, doc);
    forall t | t in terms ensures EntryOk(t, terms[t], r.docs, r.lengths, r.live) && terms[t].df == |Holders(Contents(r), t)| > 0 {
      HoldersAdd(m, doc, t);
      if Tf(doc, t) > 0 {
        EntryWith(t, terms[t], s, doc);
        AddedDf(t, s.terms, terms[t], |s.docs|, doc);
        if t !in s.terms {
          NobodyHolds(s, t);
        }
      } else {
        EntryMore(t, terms[t], s, doc);
      }
    }
    forall t, d | 0 <= d < |r.docs| && r.live[d] && Tf(r.docs[d], t) > 0 ensures t in terms {
      if d < |s.docs| {
        assert r.docs[d] == s.docs[d] && r.live[d] == s.live[d];
      }
    }
  }

  lemma NotStored(s: State, id: string)
    requires SlotsOk(s) && id !in s.slots
    ensures id !in Contents(s)
  {
  }

  lemma AddedDf(t: string, before: map<string, TermEntry>, e: TermEntry, slot: nat, doc: Document)
    requires EntryAdded(t, before, e, slot, doc)
    ensures e.df == 1 + if t in before then before[t].df else 0
  {
  }

  lemma NobodyHolds(s: State, t: string)
    requires StateOk(s) && t !in s.terms
    ensures |Holders(Contents(s), t)| == 0
  {
    hide EntryOk, Tf, TotalLength;
    forall id | id in s.slots ensures Tf(Contents(s)[id], t) == 0 {
      assert s.live[s.slots[id]];
    }
    assert Holders(Contents(s), t) == {};
  }

  /******* Compaction *******/

  // The live postings, under their new slots.
  function Remapped(p: seq<Posting>, live: seq<bool>): seq<Posting>
    requires forall k :: 0 <= k < |p| ==> p[k].doc < |live|
  {
    if p == [] then []
    else
      var last := p[|p| - 1];
      Remapped(p[..|p| - 1], live) + if live[last.doc] then [Posting(Rank(live, last.doc), last.tf)] else []
  }

  // Where each posting of the new list comes from.
  lemma {:induction false} RemappedFrom(p: seq<Posting>, live: seq<bool>, k: nat) returns (j: nat)
    requires (forall i :: 0 <= i < |p| ==> p[i].doc < |live|) && k < |Remapped(p, live)|
    ensures j < |p| && live[p[j].doc] && Remapped(p, live)[k] == Posting(Rank(live, p[j].doc), p[j].tf)
  {
    hide Rank;
    var init := p[..|p| - 1];
    if k < |Remapped(init, live)| {
      j := RemappedFrom(init, live, k);
    } else {
      j := |p| - 1;
    }
  }

  lemma {:induction false} RemappedHas(p: seq<Posting>, live: seq<bool>, j: nat)
    requires (forall i :: 0 <= i < |p| ==> p[i].doc < |live|) && j < |p| && live[p[j].doc]
    ensures HasPosting(Remapped(p, live), Rank(live, p[j].doc))
  {
    hide Rank;
    var init := p[..|p| - 1];
    var r := Remapped(p, live);
    if j < |p| - 1 {
      RemappedHas(init, live, j);
      var k :| 0 <= k < |Remapped(init, live)| && Remapped(init, live)[k].doc == Rank(live, p[j].doc);
      assert r[k].doc == Rank(live, p[j].doc);
    } else {
      assert r[|r| - 1].doc == Rank(live, p[j].doc);
    }
  }

  lemma {:induction false} RemappedSorted(p: seq<Posting>, live: seq<bool>)
    requires Sorted(p) && forall i :: 0 <= i < |p| ==> p[i].doc < |live|
    ensures Sorted(Remapped(p, live))
  {
    hide Rank;
    if p != [] {
      var init, last := p[..|p| - 1], p[|p| - 1];
      RemappedSorted(init, live);
      var r := Remapped(init, live);
      forall k | 0 <= k < |r| && live[last.doc] ensures r[k].doc < Rank(live, last.doc) {
        var j := RemappedFrom(init, live, k);
        RankGrows(live, init[j].doc, last.doc);
      }
    }
  }

  ghost predicate DocsCompacted(s: State, r: State)
    requires |s.docs| == |s.lengths| == |s.live|
  {
    && |r.docs| == |r.lengths| == |r.live| == Rank(s.live, |s.live|)
    && (forall k :: 0 <= k < |r.live| ==> r.live[k])
    && (forall d :: 0 <= d < |s.docs| && s.live[d] ==>
          Rank(s.live, d) < |r.docs| && r.docs[Rank(s.live, d)] == s.docs[d] && r.lengths[Rank(s.live, d)] == s.lengths[d])
    && r.slots.Keys == s.slots.Keys
    && (forall id :: id in s.slots && s.slots[id] < |s.docs| ==> r.slots[id] == Rank(s.live, s.slots[id]))
    && r.tokens == s.tokens && r.dead == 0
  }

  ghost predicate EntryCompacted(e: TermEntry, f: TermEntry, lengths: seq<nat>, live: seq<bool>)
    requires |lengths| == |live|
  {
    && (forall k :: 0 <= k < |e.postings| ==> e.postings[k].doc < |live|)
    && f.df == e.df && f.postings == Remapped(e.postings, live)
    && Frontier(f.impacts) && |f.impacts| <= MaxImpacts
    && forall k :: 0 <= k < |e.postings| && live[e.postings[k].doc] ==> Dominated(f.impacts, e.postings[k].tf, lengths[e.postings[k].doc])
  }

  ghost predicate TermsCompacted(s: State, r: State)
    requires |s.lengths| == |s.live|
  {
    && r.terms.Keys == s.terms.Keys
    && forall t :: t in s.terms ==> EntryCompacted(s.terms[t], r.terms[t], s.lengths, s.live)
  }

  lemma CompactSlots(s: State, r: State)
    requires SlotsOk(s) && DocsCompacted(s, r)
    ensures SlotsOk(r) && Contents(r) == Contents(s)
  {
    hide Rank, Length;
    forall id | id in r.slots ensures r.slots[id] < |r.docs| && r.live[r.slots[id]] && r.docs[r.slots[id]] == s.docs[s.slots[id]] {
      assert s.live[s.slots[id]];
    }
    forall k | 0 <= k < |r.docs| && r.live[k]
      ensures r.docs[k].id in r.slots && r.slots[r.docs[k].id] == k && r.lengths[k] == Length(r.docs[k])
    {
      var d := RankOnto(s.live, |s.live|, k);
      assert r.docs[k] == s.docs[d];
    }
    AllLive(r.live, |r.live|);
    assert |r.slots.Keys| == |r.slots| && |s.slots.Keys| == |s.slots|;
  }

  lemma {:induction false} AllLive(live: seq<bool>, n: nat)
    requires n <= |live| && forall k :: 0 <= k < |live| ==> live[k]
    ensures Rank(live, n) == n
  {
    if n > 0 {
      AllLive(live, n - 1);
    }
  }

  lemma CompactEntry(t: string, s: State, r: State)
    requires SlotsOk(s) && DocsCompacted(s, r) && t in s.terms && t in r.terms
    requires EntryOk(t, s.terms[t], s.docs, s.lengths, s.live) && EntryCompacted(s.terms[t], r.terms[t], s.lengths, s.live)
    ensures EntryOk(t, r.terms[t], r.docs, r.lengths, r.live)
  {
    hide Rank, Tf, Length, Dominated, Frontier, Sorted, Remapped;
    var e, f := s.terms[t], r.terms[t];
    RemappedSorted(e.postings, s.live);
    forall k | 0 <= k < |f.postings| ensures PostingOk(t, f.postings[k], f.impacts, r.docs, r.lengths, r.live) {
      var j := RemappedFrom(e.postings, s.live, k);
      assert PostingOk(t, e.postings[j], e.impacts, s.docs, s.lengths, s.live);
    }
    forall d | 0 <= d < |r.docs| && r.live[d] && Tf(r.docs[d], t) > 0 ensures HasPosting(f.postings, d) {
      var o := RankOnto(s.live, |s.live|, d);
      assert HasPosting(e.postings, o);
      var j :| 0 <= j < |e.postings| && e.postings[j].doc == o;
      RemappedHas(e.postings, s.live, j);
    }
  }

  // Renumbering the slots changes nothing the index stands for.
  lemma CompactOk(s: State, r: State)
    requires StateOk(s) && DocsCompacted(s, r) && TermsCompacted(s, r)
    ensures StateOk(r) && Contents(r) == Contents(s)
  {
    hide Rank, Tf, EntryOk, EntryCompacted, TotalLength, Holders;
    CompactSlots(s, r);
    forall t | t in r.terms ensures EntryOk(t, r.terms[t], r.docs, r.lengths, r.live) && r.terms[t].df == s.terms[t].df {
      CompactEntry(t, s, r);
      CompactDf(s.terms[t], r.terms[t], s.lengths, s.live);
    }
    forall t, d | 0 <= d < |r.docs| && r.live[d] && Tf(r.docs[d], t) > 0 ensures t in r.terms {
      var o := RankOnto(s.live, |s.live|, d);
      assert r.docs[d] == s.docs[o];
    }
  }

  lemma CompactDf(e: TermEntry, f: TermEntry, lengths: seq<nat>, live: seq<bool>)
    requires |lengths| == |live| && EntryCompacted(e, f, lengths, live)
    ensures f.df == e.df
  {
  }
}
