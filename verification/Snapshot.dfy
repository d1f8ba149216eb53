// Index snapshots: documents in order of id, and each posting list as gaps
// between document numbers.
module SearchSnapshot {
  import opened Results
  import opened Varint
  import opened Scoring
  import opened Ranking
  import opened MaxScore
  import opened Documents
  import opened IndexState
  import opened SearchIndex

  const MaxUint32 := 0xFFFF_FFFF

  datatype Snapshot = Snapshot(docs: seq<Document>, lengths: seq<int>, postings: map<string, seq<Byte>>)

  datatype SnapshotError = LengthTable | TooMany | DuplicateDocument | InvalidLength | CorruptPosting | CorruptFrequency | InvalidGap | InvalidOrdinal

  /******* Posting lists *******/

  function Gap(previous: int, doc: nat): nat {
    if doc > previous then doc - previous else 0
  }

  function EncodedPostings(p: seq<Posting>, previous: int): seq<Byte> {
    if p == [] then []
    else PutUvarint(Gap(previous, p[0].doc)) + (PutUvarint(p[0].tf) + EncodedPostings(p[1..], p[0].doc))
  }

  ghost predicate Encodable(p: seq<Posting>, previous: int, n: nat)
    decreases |p|
  {
    p == [] || (previous < p[0].doc < n && p[0].tf <= MaxUint32 && Encodable(p[1..], p[0].doc, n))
  }

  lemma {:induction false} SortedEncodable(p: seq<Posting>, previous: int, n: nat)
    requires Sorted(p) && forall k :: 0 <= k < |p| ==> previous < p[k].doc < n && p[k].tf <= MaxUint32
    ensures Encodable(p, previous, n)
    decreases |p|
  {
    if p != [] {
      SortedEncodable(p[1..], p[0].doc, n);
    }
  }

  function DecodedPostings(b: seq<Byte>, previous: int, n: nat): Result<seq<Posting>, SnapshotError>
    requires previous >= -1
    decreases |b|
  {
    if b == [] then Ok([])
    else
      var (gap, read) := ReadUvarint(b);
      if read <= 0 || read > |b| then Err(CorruptPosting)
      else
        var (tf, more) := ReadUvarint(b[read..]);
        if more <= 0 || more > |b| - read || tf > MaxUint32 then Err(CorruptFrequency)
        else if gap == 0 || gap > n then Err(InvalidGap)
        else if previous + gap >= n then Err(InvalidOrdinal)
        else
          var rest := DecodedPostings(b[read..][more..], previous + gap, n);
          if rest.Err? then rest else Ok([Posting(previous + gap, tf)] + rest.value)
  }

  lemma {:induction false} PostingsRoundTrip(p: seq<Posting>, previous: int, n: nat)
    requires Encodable(p, previous, n) && previous >= -1 && n <= MaxUint32
    ensures DecodedPostings(EncodedPostings(p, previous), previous, n) == Ok(p)
    decreases |p|
  {
    hide PutUvarint, ReadUvarint;
    if p != [] {
      var gap, tf := Gap(previous, p[0].doc), p[0].tf;
      var rest := EncodedPostings(p[1..], p[0].doc);
      UnsignedRoundTrip(gap, PutUvarint(tf) + rest);
      UnsignedRoundTrip(tf, rest);
      PostingsRoundTrip(p[1..], p[0].doc, n);
      PutSome(gap);
      PutSome(tf);
      assert previous + gap == p[0].doc;
      assert [p[0]] + p[1..] == p;
    }
  }

  lemma PutSome(n: nat)
    ensures |PutUvarint(n)| > 0
  {
  }

  /******* What a snapshot says *******/

  // The list of a term over numbered documents.
  ghost predicate ListOfTerm(p: seq<Posting>, docs: seq<Document>, t: string) {
    && Sorted(p)
    && (forall k :: 0 <= k < |p| ==> p[k].doc < |docs| && p[k].tf == Tf(docs[p[k].doc], t) > 0)
    && (forall d :: 0 <= d < |docs| && Tf(docs[d], t) > 0 ==> HasPosting(p, d))
  }

  ghost predicate Fits32(docs: seq<Document>) {
    |docs| < NoDoc && forall d :: 0 <= d < |docs| ==> Length(docs[d]) <= MaxUint32
  }

  ghost predicate DocsOf(docs: seq<Document>, m: Docs) {
    && (forall j, k :: 0 <= j < k < |docs| ==> docs[j].id != docs[k].id)
    && (forall k :: 0 <= k < |docs| ==> docs[k].id in m && m[docs[k].id] == docs[k])
    && (forall id :: id in m ==> exists k :: 0 <= k < |docs| && docs[k].id == id)
  }

  // s describes the documents of m.
  ghost predicate Describes(s: Snapshot, m: Docs) {
    && DocsOf(s.docs, m)
    && |s.lengths| == |s.docs| && (forall k :: 0 <= k < |s.docs| ==> s.lengths[k] == Length(s.docs[k]))
    && (forall t :: t in s.postings ==> exists p :: ListOfTerm(p, s.docs, t) && Encodable(p, -1, |s.docs|) && s.postings[t] == EncodedPostings(p, -1))
    && (forall t, d :: 0 <= d < |s.docs| && Tf(s.docs[d], t) > 0 ==> t in s.postings)
  }

  lemma {:induction false} CountAtMost(tokens: seq<string>, t: string)
    ensures Count(tokens, t) <= |tokens|
  {
    if tokens != [] {
      CountAtMost(tokens[..|tokens| - 1], t);
    }
  }

  lemma ListEncodable(p: seq<Posting>, docs: seq<Document>, t: string)
    requires ListOfTerm(p, docs, t) && Fits32(docs)
    ensures Encodable(p, -1, |docs|)
  {
    forall k | 0 <= k < |p| ensures p[k].tf <= MaxUint32 {
      CountAtMost(docs[p[k].doc].tokens, t);
    }
    SortedEncodable(p, -1, |docs|);
  }

  /******* Writing *******/

  ghost predicate IdsAscend(ids: seq<string>) {
    forall j, k :: 0 <= j < k < |ids| ==> IdLess(ids[j], ids[k])
  }

  method SortedIds(ids: set<string>) returns (sorted: seq<string>)
    ensures IdsAscend(sorted) && (forall id :: id in sorted <==> id in ids) && |sorted| == |ids|
  {
    hide IdLess;
    sorted := [];
    var todo := ids;
    while todo != {}
      invariant todo <= ids && IdsAscend(sorted) && |sorted| + |todo| == |ids|
      invariant forall id :: id in sorted <==> id in ids && id !in todo
      decreases |todo|
    {
      var id :| id in todo;
      todo := todo - {id};
      sorted := InsertId(sorted, id);
    }
  }

  method InsertId(ids: seq<string>, id: string) returns (longer: seq<string>)
    requires IdsAscend(ids) && id !in ids
    ensures IdsAscend(longer) && |longer| == |ids| + 1 && forall x :: x in longer <==> x in ids || x == id
  {
    hide IdLess;
    var place: nat := |ids|;
    while place > 0 && IdLess(id, ids[place - 1])
      invariant place <= |ids| && forall k :: place <= k < |ids| ==> IdLess(id, ids[k])
    {
      place := place - 1;
    }
    forall k | 0 <= k < place ensures IdLess(ids[k], id) {
      IdOrder(id, ids[place - 1]);
      if k < place - 1 {
        IdTransitive(ids[k], ids[place - 1], id);
      }
    }
    assert ids == ids[..place] + ids[place..];
    longer := ids[..place] + [id] + ids[place..];
  }

  // The new number of every live slot: its place in order of id.
  ghost predicate Numbering(s: State, docs: seq<Document>, ordinals: seq<nat>) {
    && SlotsOk(s) && |ordinals| == |s.docs|
    && (forall d :: 0 <= d < |s.docs| && s.live[d] ==> ordinals[d] < |docs| && docs[ordinals[d]] == s.docs[d])
    && (forall k :: 0 <= k < |docs| ==> docs[k].id in s.slots && s.docs[s.slots[docs[k].id]] == docs[k] && ordinals[s.slots[docs[k].id]] == k)
  }

  method NumberDocs(index: Index, ids: seq<string>) returns (docs: seq<Document>, lengths: seq<int>, ordinals: seq<nat>)
    requires index.Valid() && IdsAscend(ids) && (forall id :: id in ids <==> id in index.slots) && |ids| == |index.slots|
    ensures Numbering(index.View(), docs, ordinals) && DocsOf(docs, index.Stored()) && |docs| == |ids|
    ensures |lengths| == |docs| && forall k :: 0 <= k < |docs| ==> lengths[k] == Length(docs[k])
  {
    hide IdLess, Length, Rank, TermsOk, TotalLength;
    ghost var s := index.View();
    StateSizes(s);
    docs, lengths := [], [];
    ordinals := seq(|index.docs|, _ => 0);
    Apart(ids);
    for k := 0 to |ids|
      invariant |docs| == |lengths| == k && |ordinals| == |index.docs|
      invariant forall j :: 0 <= j < k ==> docs[j].id == ids[j] && docs[j] == s.docs[s.slots[ids[j]]] && lengths[j] == Length(docs[j]) && ordinals[s.slots[ids[j]]] == j
    {
      var id := ids[k];
      SlotInRange(s, id);
      var slot := index.slots[id];
      SlotLength(s, slot);
      forall j | 0 <= j < k ensures s.slots[ids[j]] != slot {
        SlotInRange(s, ids[j]);
      }
      ordinals := ordinals[slot := k];
      docs := docs + [index.docs[slot]];
      lengths := lengths + [index.lengths[slot]];
    }
    Numbered(s, ids, docs, ordinals);
  }

  lemma Apart(ids: seq<string>)
    requires IdsAscend(ids)
    ensures forall j, k :: 0 <= j < k < |ids| ==> ids[j] != ids[k]
  {
    forall j, k | 0 <= j < k < |ids| ensures ids[j] != ids[k] {
      IdOrder(ids[j], ids[k]);
    }
  }

  lemma Numbered(s: State, ids: seq<string>, docs: seq<Document>, ordinals: seq<nat>)
    requires StateOk(s) && |docs| == |ids| && |ordinals| == |s.docs| && (forall id :: id in ids <==> id in s.slots)
    requires forall j, k :: 0 <= j < k < |ids| ==> ids[j] != ids[k]
    requires forall j :: 0 <= j < |ids| ==> s.slots[ids[j]] < |s.docs| && docs[j].id == ids[j] && docs[j] == s.docs[s.slots[ids[j]]] && ordinals[s.slots[ids[j]]] == j
    ensures Numbering(s, docs, ordinals) && DocsOf(docs, Contents(s))
  {
    hide Length, Rank, TermsOk, TotalLength;
    forall d | 0 <= d < |s.docs| && s.live[d] ensures ordinals[d] < |docs| && docs[ordinals[d]] == s.docs[d] {
      LiveSlot(s, d);
      var j :| 0 <= j < |ids| && ids[j] == s.docs[d].id;
      assert ordinals[s.slots[ids[j]]] == j;
    }
    forall id | id in Contents(s) ensures exists k :: 0 <= k < |docs| && docs[k].id == id {
      var j :| 0 <= j < |ids| && ids[j] == id;
      assert docs[j].id == id;
    }
  }

  // list holds the live ones of the first k postings, under their new numbers.
  ghost predicate Collected(s: State, docs: seq<Document>, ordinals: seq<nat>, postings: seq<Posting>, k: nat, list: seq<Posting>) {
    && Sorted(list) && k <= |postings| && |s.live| == |ordinals| && (forall i :: 0 <= i < k ==> postings[i].doc < |s.live|)
    && (forall q :: q in list ==> exists i :: 0 <= i < k && FromPosting(s, ordinals, postings[i], q))
    && (forall i :: 0 <= i < k && s.live[postings[i].doc] ==> HasPosting(list, ordinals[postings[i].doc]))
  }

  lemma CollectedSkips(s: State, docs: seq<Document>, ordinals: seq<nat>, postings: seq<Posting>, k: nat, list: seq<Posting>)
    requires Collected(s, docs, ordinals, postings, k, list) && k < |postings| && postings[k].doc < |s.live| && !s.live[postings[k].doc]
    ensures Collected(s, docs, ordinals, postings, k + 1, list)
  {
    hide HasPosting;
    forall q | q in list ensures exists i :: 0 <= i < k + 1 && FromPosting(s, ordinals, postings[i], q) {
      var i :| 0 <= i < k && FromPosting(s, ordinals, postings[i], q);
      assert FromPosting(s, ordinals, postings[i], q);
    }
  }

  lemma CollectedAdds(s: State, docs: seq<Document>, ordinals: seq<nat>, postings: seq<Posting>, k: nat, list: seq<Posting>, longer: seq<Posting>)
    requires Collected(s, docs, ordinals, postings, k, list) && k < |postings| && postings[k].doc < |s.live| && s.live[postings[k].doc]
    requires Sorted(longer) && forall q :: q in longer <==> q in list || q == Posting(ordinals[postings[k].doc], postings[k].tf)
    ensures Collected(s, docs, ordinals, postings, k + 1, longer)
  {
    hide HasPosting;
    var next := Posting(ordinals[postings[k].doc], postings[k].tf);
    assert FromPosting(s, ordinals, postings[k], next);
    forall q | q in longer ensures exists i :: 0 <= i < k + 1 && FromPosting(s, ordinals, postings[i], q) {
      if q in list {
        var i :| 0 <= i < k && FromPosting(s, ordinals, postings[i], q);
        assert FromPosting(s, ordinals, postings[i], q);
      }
    }
    forall i | 0 <= i < k + 1 && s.live[postings[i].doc] ensures HasPosting(longer, ordinals[postings[i].doc]) {
      KeptPosting(list, longer, next, ordinals[postings[i].doc]);
    }
  }

  lemma CollectedAll(s: State, docs: seq<Document>, ordinals: seq<nat>, term: string, list: seq<Posting>)
    requires StateOk(s) && term in s.terms && Numbering(s, docs, ordinals)
    requires Collected(s, docs, ordinals, s.terms[term].postings, |s.terms[term].postings|, list)
    ensures ListOfTerm(list, docs, term)
  {
    hide Tf, Length, Rank, TotalLength, Holders;
    var e := s.terms[term];
    EntryFacts(s, term);
    forall k | 0 <= k < |list| ensures list[k].doc < |docs| && list[k].tf == Tf(docs[list[k].doc], term) > 0 {
      assert list[k] in list;
      var i :| 0 <= i < |e.postings| && FromPosting(s, ordinals, e.postings[i], list[k]);
      assert PostingOk(term, e.postings[i], e.impacts, s.docs, s.lengths, s.live);
    }
    forall d | 0 <= d < |docs| && Tf(docs[d], term) > 0 ensures HasPosting(list, d) {
      var slot := s.slots[docs[d].id];
      SlotInRange(s, docs[d].id);
      assert HasPosting(e.postings, slot);
      var i :| 0 <= i < |e.postings| && e.postings[i].doc == slot;
      assert HasPosting(list, ordinals[e.postings[i].doc]);
    }
  }

  // The live postings of a term under the new numbers, in their order.
  method LivePostings(index: Index, term: string, ordinals: seq<nat>, ghost docs: seq<Document>) returns (list: seq<Posting>)
    requires index.Valid() && term in index.terms && Numbering(index.View(), docs, ordinals)
    ensures ListOfTerm(list, docs, term)
  {
    hide Tf, Length, Rank, StateOk, Numbering, Collected, EntryOk;
    ghost var s := index.View();
    StateSizes(s);
    NumberingSize(s, docs, ordinals);
    EntryInRange(s, term);
    var postings := index.terms[term].postings;
    list := [];
    CollectedNone(s, docs, ordinals, postings);
    for k := 0 to |postings|
      invariant Collected(s, docs, ordinals, postings, k, list)
    {
      var p := postings[k];
      if index.live[p.doc] {
        NewNumber(s, docs, ordinals, term, list, k);
        ghost var before := list;
        list := InsertPosting(list, Posting(ordinals[p.doc], p.tf));
        CollectedAdds(s, docs, ordinals, postings, k, before, list);
      } else {
        CollectedSkips(s, docs, ordinals, postings, k, list);
      }
    }
    CollectedAll(s, docs, ordinals, term, list);
  }

  lemma NumberingSize(s: State, docs: seq<Document>, ordinals: seq<nat>)
    requires Numbering(s, docs, ordinals)
    ensures |ordinals| == |s.docs| == |s.live|
  {
  }

  lemma CollectedNone(s: State, docs: seq<Document>, ordinals: seq<nat>, postings: seq<Posting>)
    requires |s.live| == |ordinals|
    ensures Collected(s, docs, ordinals, postings, 0, [])
  {
  }

  ghost predicate FromPosting(s: State, ordinals: seq<nat>, p: Posting, q: Posting) {
    |s.live| == |ordinals| && p.doc < |s.live| && s.live[p.doc] && q == Posting(ordinals[p.doc], p.tf)
  }

  lemma EntryFacts(s: State, t: string)
    requires StateOk(s) && t in s.terms
    ensures |s.docs| == |s.lengths| == |s.live| && EntryOk(t, s.terms[t], s.docs, s.lengths, s.live)
  {
    hide EntryOk;
  }

  // Different slots have different numbers.
  lemma NewNumber(s: State, docs: seq<Document>, ordinals: seq<nat>, term: string, list: seq<Posting>, k: nat)
    requires StateOk(s) && term in s.terms && Numbering(s, docs, ordinals)
    requires k < |s.terms[term].postings| && Collected(s, docs, ordinals, s.terms[term].postings, k, list)
    requires s.terms[term].postings[k].doc < |s.live| && s.live[s.terms[term].postings[k].doc]
    ensures Sorted(list) && forall j :: 0 <= j < |list| ==> list[j].doc != ordinals[s.terms[term].postings[k].doc]
  {
    hide Tf, Rank, Length, TotalLength, Holders;
    EntryFacts(s, term);
    var postings := s.terms[term].postings;
    forall j | 0 <= j < |list| ensures list[j].doc != ordinals[postings[k].doc] {
      assert list[j] in list;
      var i :| 0 <= i < k && FromPosting(s, ordinals, postings[i], list[j]);
      SameNumberSameSlot(s, docs, ordinals, postings[i].doc, postings[k].doc);
    }
  }

  lemma SameNumberSameSlot(s: State, docs: seq<Document>, ordinals: seq<nat>, d: nat, e: nat)
    requires Numbering(s, docs, ordinals) && d < |s.docs| && e < |s.docs| && s.live[d] && s.live[e] && d != e
    ensures ordinals[d] != ordinals[e]
  {
    LiveSlot(s, d);
    LiveSlot(s, e);
  }

  method InsertPosting(list: seq<Posting>, p: Posting) returns (longer: seq<Posting>)
    requires Sorted(list) && forall j :: 0 <= j < |list| ==> list[j].doc != p.doc
    ensures Sorted(longer) && |longer| == |list| + 1 && forall q :: q in longer <==> q in list || q == p
  {
    var place: nat := |list|;
    while place > 0 && list[place - 1].doc > p.doc
      invariant place <= |list| && forall k :: place <= k < |list| ==> list[k].doc > p.doc
    {
      place := place - 1;
    }
    longer := list[..place] + [p] + list[place..];
    MembersOf(list, place, p);
  }

  lemma MembersOf(list: seq<Posting>, place: nat, p: Posting)
    requires place <= |list|
    ensures forall q :: q in list[..place] + [p] + list[place..] <==> q in list || q == p
  {
    assert list == list[..place] + list[place..];
  }

  lemma KeptPosting(before: seq<Posting>, after: seq<Posting>, next: Posting, d: nat)
    requires forall q :: q in after <==> q in before || q == next
    requires HasPosting(before, d) || next.doc == d
    ensures HasPosting(after, d)
  {
    if HasPosting(before, d) {
      var k :| 0 <= k < |before| && before[k].doc == d;
      assert before[k] in after;
    } else {
      assert next in after;
    }
  }

  method EncodePostings(p: seq<Posting>, ghost n: nat) returns (encoded: seq<Byte>)
    requires Encodable(p, -1, n)
    ensures encoded == EncodedPostings(p, -1)
  {
    hide PutUvarint;
    encoded := [];
    var previous: int := -1;
    for k := 0 to |p|
      invariant previous == (if k == 0 then -1 else p[k - 1].doc) && Encodable(p[k..], previous, n)
      invariant encoded + EncodedPostings(p[k..], previous) == EncodedPostings(p, -1)
    {
      assert p[k..][0] == p[k] && p[k..][1..] == p[k + 1..];
      ghost var rest := EncodedPostings(p[k + 1..], p[k].doc);
      Regroup(encoded, PutUvarint(Gap(previous, p[k].doc)), PutUvarint(p[k].tf), rest);
      var gap := p[k].doc - previous;
      encoded := encoded + PutUvarint(gap);
      encoded := encoded + PutUvarint(p[k].tf);
      previous := p[k].doc;
    }
    assert p[|p|..] == [] && encoded + [] == encoded;
  }

  lemma Regroup(a: seq<Byte>, b: seq<Byte>, c: seq<Byte>, d: seq<Byte>)
    ensures a + (b + (c + d)) == a + b + c + d
  {
  }

  // Documents in order of id, and every term's live postings under their numbers.
  method WriteSnapshot(index: Index) returns (snapshot: Snapshot)
    requires index.Valid() && |index.slots| < NoDoc
    requires forall id :: id in index.Stored() ==> Length(index.Stored()[id]) <= MaxUint32
    ensures Describes(snapshot, index.Stored()) && Fits32(snapshot.docs)
  {
    hide Tf, Length, StateOk, Contents, ListOfTerm, Encodable, EncodedPostings, Numbering, IdsAscend, DocsOf, Fits32;
    ghost var m := index.Stored();
    var ids := SortedIds(index.slots.Keys);
    var docs, lengths, ordinals := NumberDocs(index, ids);
    DocsFit(docs, m);
    var encoded: map<string, seq<Byte>> := map[];
    var todo := index.terms.Keys;
    while todo != {}
      invariant todo <= index.terms.Keys && encoded.Keys == index.terms.Keys - todo
      invariant forall t :: t in encoded ==> exists p :: ListOfTerm(p, docs, t) && Encodable(p, -1, |docs|) && encoded[t] == EncodedPostings(p, -1)
      decreases |todo|
    {
      var term :| term in todo;
      todo := todo - {term};
      var list := LivePostings(index, term, ordinals, docs);
      ListEncodable(list, docs, term);
      var bytes := EncodePostings(list, |docs|);
      encoded := encoded[term := bytes];
    }
    snapshot := Snapshot(docs, lengths, encoded);
    forall t, d | 0 <= d < |docs| && Tf(docs[d], t) > 0 ensures t in encoded {
      Indexed(index.View(), docs, ordinals, d, t);
    }
  }

  lemma DocsFit(docs: seq<Document>, m: Docs)
    requires DocsOf(docs, m) && |docs| < NoDoc && forall id :: id in m ==> Length(m[id]) <= MaxUint32
    ensures Fits32(docs)
  {
  }

  lemma Indexed(s: State, docs: seq<Document>, ordinals: seq<nat>, d: nat, t: string)
    requires StateOk(s) && Numbering(s, docs, ordinals) && d < |docs| && Tf(docs[d], t) > 0
    ensures t in s.terms
  {
    hide Tf, Length, Rank, TotalLength, EntryOk;
    SlotInRange(s, docs[d].id);
  }

  /******* Reading *******/

  method DecodePostings(bytes: seq<Byte>, n: nat) returns (r: Result<seq<Posting>, SnapshotError>)
    ensures r == DecodedPostings(bytes, -1, n)
  {
    hide ReadUvarint;
    var encoded, previous: int, list := bytes, -1, [];
    assert DecodedPostings(bytes, -1, n).Ok? ==> [] + DecodedPostings(bytes, -1, n).value == DecodedPostings(bytes, -1, n).value;
    while |encoded| > 0
      invariant previous >= -1
      invariant var rest := DecodedPostings(encoded, previous, n);
        DecodedPostings(bytes, -1, n) == if rest.Err? then rest else Ok(list + rest.value)
      decreases |encoded|
    {
      WithinBytes(encoded);
      var (gap, read) := ReadUvarint(encoded);
      if read <= 0 {
        return Err(CorruptPosting);
      }
      WithinBytes(encoded[read..]);
      var (frequency, more) := ReadUvarint(encoded[read..]);
      if more <= 0 || frequency > MaxUint32 {
        return Err(CorruptFrequency);
      }
      if gap == 0 || gap > n {
        return Err(InvalidGap);
      }
      var ordinal := previous + gap;
      if ordinal >= n {
        return Err(InvalidOrdinal);
      }
      encoded := encoded[read..][more..];
      ghost var rest := DecodedPostings(encoded, ordinal, n);
      if rest.Ok? {
        assert list + ([Posting(ordinal, frequency)] + rest.value) == list + [Posting(ordinal, frequency)] + rest.value;
      }
      list := list + [Posting(ordinal, frequency)];
      previous := ordinal;
    }
    assert list + [] == list;
    r := Ok(list);
  }

  lemma WithinBytes(b: seq<Byte>)
    ensures ReadUvarint(b).1 <= |b|
  {
    UvarintReads(b, 0);
  }

  // A list, with the frontier of its postings.
  method EntryFor(list: seq<Posting>, lengths: seq<nat>) returns (e: TermEntry)
    requires forall k :: 0 <= k < |list| ==> list[k].doc < |lengths|
    ensures e.postings == list && e.df == |list| && Frontier(e.impacts) && |e.impacts| <= MaxImpacts
    ensures forall k :: 0 <= k < |list| ==> Dominated(e.impacts, list[k].tf, lengths[list[k].doc])
  {
    hide Frontier, Dominated;
    var impacts: seq<Impact> := [];
    EmptyFrontier();
    for k := 0 to |list|
      invariant Frontier(impacts) && |impacts| <= MaxImpacts
      invariant forall j :: 0 <= j < k ==> Dominated(impacts, list[j].tf, lengths[list[j].doc])
    {
      impacts := AddImpact(impacts, list[k].tf, lengths[list[k].doc]);
    }
    e := TermEntry(list, |list|, impacts);
  }

  ghost predicate ReadTerms(terms: map<string, TermEntry>, docs: seq<Document>, lengths: seq<nat>) {
    && (forall t :: t in terms ==> ReadEntry(t, terms[t], docs, lengths))
    && (forall t, d :: 0 <= d < |docs| && Tf(docs[d], t) > 0 ==> t in terms)
  }

  ghost predicate ReadEntry(t: string, e: TermEntry, docs: seq<Document>, lengths: seq<nat>) {
    && ListOfTerm(e.postings, docs, t) && e.df == |e.postings| > 0 && Frontier(e.impacts) && |e.impacts| <= MaxImpacts
    && |lengths| == |docs| && forall k :: 0 <= k < |e.postings| ==> Dominated(e.impacts, e.postings[k].tf, lengths[e.postings[k].doc])
  }

  // What reading the documents yields.
  ghost predicate DocsRead(docs: seq<Document>, lengths: seq<int>, n: nat, slots: map<string, nat>, read: seq<nat>, tokens: nat) {
    && n <= |docs| && n <= |lengths| && |read| == n && tokens == Total(read)
    && (forall k :: 0 <= k < n ==> read[k] == lengths[k] && docs[k].id in slots && slots[docs[k].id] == k)
    && (forall id :: id in slots ==> slots[id] < n && docs[slots[id]].id == id)
  }

  ghost predicate Readable(snapshot: Snapshot) {
    && |snapshot.docs| == |snapshot.lengths| < NoDoc
    && (forall k :: 0 <= k < |snapshot.lengths| ==> 0 <= snapshot.lengths[k] <= MaxUint32)
    && (forall j, k :: 0 <= j < k < |snapshot.docs| ==> snapshot.docs[j].id != snapshot.docs[k].id)
  }

  method ReadDocs(snapshot: Snapshot) returns (r: Result<(map<string, nat>, seq<nat>, nat), SnapshotError>)
    ensures r.Ok? <==> Readable(snapshot)
    ensures r.Ok? ==> DocsRead(snapshot.docs, snapshot.lengths, |snapshot.docs|, r.value.0, r.value.1, r.value.2)
  {
    hide Total;
    if |snapshot.docs| != |snapshot.lengths| {
      return Err(LengthTable);
    }
    if |snapshot.docs| >= NoDoc {
      return Err(TooMany);
    }
    var slots: map<string, nat> := map[];
    var lengths: seq<nat>, tokens: nat := [], 0;
    var docs := snapshot.docs;
    TotalNone();
    for ordinal := 0 to |docs|
      invariant DocsRead(docs, snapshot.lengths, ordinal, slots, lengths, tokens)
      invariant forall k :: 0 <= k < ordinal ==> 0 <= snapshot.lengths[k] <= MaxUint32
    {
      var doc := docs[ordinal];
      if doc.id in slots {
        assert docs[slots[doc.id]].id == doc.id;
        return Err(DuplicateDocument);
      }
      var length := snapshot.lengths[ordinal];
      if length < 0 || length > MaxUint32 {
        return Err(InvalidLength);
      }
      TotalAppend(lengths, length);
      slots := slots[doc.id := ordinal];
      lengths := lengths + [length];
      tokens := tokens + length;
    }
    ReadsDistinct(snapshot, slots, lengths, tokens);
    r := Ok((slots, lengths, tokens));
  }

  lemma ReadsDistinct(s: Snapshot, slots: map<string, nat>, read: seq<nat>, tokens: nat)
    requires DocsRead(s.docs, s.lengths, |s.docs|, slots, read, tokens)
    ensures forall j, k :: 0 <= j < k < |s.docs| ==> s.docs[j].id != s.docs[k].id
  {
    forall j, k | 0 <= j < k < |s.docs| ensures s.docs[j].id != s.docs[k].id {
      assert slots[s.docs[j].id] == j && slots[s.docs[k].id] == k;
    }
  }

  lemma TotalNone()
    ensures Total([]) == 0
  {
  }

  lemma TotalAppend(lengths: seq<nat>, n: nat)
    ensures Total(lengths + [n]) == Total(lengths) + n
  {
    assert (lengths + [n])[..|lengths|] == lengths;
  }

  function Total(lengths: seq<nat>): nat {
    if lengths == [] then 0 else Total(lengths[..|lengths| - 1]) + lengths[|lengths| - 1]
  }

  // The documents as a map.
  ghost function MapOf(docs: seq<Document>): Docs {
    if docs == [] then map[] else MapOf(docs[..|docs| - 1])[docs[|docs| - 1].id := docs[|docs| - 1]]
  }

  ghost predicate IdsDiffer(docs: seq<Document>) {
    forall j, k :: 0 <= j < k < |docs| ==> docs[j].id != docs[k].id
  }

  lemma {:induction false} MapOfMembers(docs: seq<Document>)
    requires IdsDiffer(docs)
    ensures forall k :: 0 <= k < |docs| ==> docs[k].id in MapOf(docs) && MapOf(docs)[docs[k].id] == docs[k]
    ensures forall id :: id in MapOf(docs) ==> exists k :: 0 <= k < |docs| && docs[k].id == id
  {
    if docs != [] {
      var n := |docs| - 1;
      var init := docs[..n];
      MapOfMembers(init);
      forall id | id in MapOf(docs) ensures exists k :: 0 <= k < |docs| && docs[k].id == id {
        if id in MapOf(init) {
          var k :| 0 <= k < n && init[k].id == id;
          assert docs[k].id == id;
        } else {
          assert docs[n].id == id;
        }
      }
      forall k | 0 <= k < n ensures docs[k].id in MapOf(docs) && MapOf(docs)[docs[k].id] == docs[k] {
        assert init[k] == docs[k];
      }
    }
  }

  lemma {:induction false} MapOfTotals(docs: seq<Document>, lengths: seq<nat>)
    requires IdsDiffer(docs) && |lengths| == |docs| && forall k :: 0 <= k < |docs| ==> lengths[k] == Length(docs[k])
    ensures |MapOf(docs)| == |docs| && TotalLength(MapOf(docs)) == Total(lengths)
  {
    hide TotalLength, Length;
    if docs == [] {
      TotalOfNone();
    } else {
      var n := |docs| - 1;
      var init, last := docs[..n], docs[n];
      MapOfTotals(init, lengths[..n]);
      NotInMap(init, last, docs);
      TotalAdd(MapOf(init), last);
    }
  }

  lemma NotInMap(init: seq<Document>, last: Document, docs: seq<Document>)
    requires docs == init + [last] && IdsDiffer(docs)
    ensures last.id !in MapOf(init)
  {
    assert forall k :: 0 <= k < |init| ==> docs[k] == init[k];
    assert docs[|init|] == last;
    MapOfMembers(init);
  }

  lemma TotalOfNone()
    ensures TotalLength(map[]) == 0
  {
  }

  lemma DocsOfIsMap(docs: seq<Document>, lengths: seq<nat>, m: Docs)
    requires DocsOf(docs, m) && |lengths| == |docs| && forall k :: 0 <= k < |docs| ==> lengths[k] == Length(docs[k])
    ensures m == MapOf(docs) && TotalLength(m) == Total(lengths) && |m| == |docs|
  {
    hide TotalLength, Length, Total, MapOf;
    MapOfMembers(docs);
    MapOfTotals(docs, lengths);
    forall id | id in MapOf(docs) ensures id in m && m[id] == MapOf(docs)[id] {
      var k :| 0 <= k < |docs| && docs[k].id == id;
    }
    forall id | id in m ensures id in MapOf(docs) {
      var k :| 0 <= k < |docs| && docs[k].id == id;
    }
  }

  ghost function PostingIds(p: seq<Posting>, docs: seq<Document>): set<string>
    requires forall k :: 0 <= k < |p| ==> p[k].doc < |docs|
  {
    set k | 0 <= k < |p| :: docs[p[k].doc].id
  }

  lemma {:induction false} PostingIdsSize(p: seq<Posting>, docs: seq<Document>)
    requires Sorted(p) && IdsDiffer(docs) && forall k :: 0 <= k < |p| ==> p[k].doc < |docs|
    ensures |PostingIds(p, docs)| == |p|
  {
    if p != [] {
      var n := |p| - 1;
      PostingIdsSize(p[..n], docs);
      assert PostingIds(p, docs) == PostingIds(p[..n], docs) + {docs[p[n].doc].id};
      assert docs[p[n].doc].id !in PostingIds(p[..n], docs);
    }
  }

  // As many postings as documents that hold the term.
  lemma HoldersListed(p: seq<Posting>, docs: seq<Document>, m: Docs, t: string)
    requires ListOfTerm(p, docs, t) && DocsOf(docs, m)
    ensures |p| == |Holders(m, t)|
  {
    hide Tf;
    PostingIdsSize(p, docs);
    var ids := PostingIds(p, docs);
    forall id | id in Holders(m, t) ensures id in ids {
      var d :| 0 <= d < |docs| && docs[d].id == id;
      assert HasPosting(p, d);
      var k :| 0 <= k < |p| && p[k].doc == d;
      assert docs[p[k].doc].id in ids;
    }
    assert ids == Holders(m, t);
  }

  lemma ReadSlots(docs: seq<Document>, lengths: seq<int>, slots: map<string, nat>, read: seq<nat>, tokens: nat, terms: map<string, TermEntry>, live: seq<bool>, m: Docs)
    requires DocsRead(docs, lengths, |docs|, slots, read, tokens) && DocsOf(docs, m)
    requires |lengths| == |docs| && forall k :: 0 <= k < |docs| ==> lengths[k] == Length(docs[k])
    requires |live| == |docs| && forall k :: 0 <= k < |live| ==> live[k]
    ensures var s := State(slots, docs, read, live, terms, tokens, 0); SlotsOk(s) && Contents(s) == m && tokens == TotalLength(m)
  {
    hide TotalLength, Length, Total, Rank, DocsOf;
    AllLive(live, |live|);
    DocsOfIsMap(docs, read, m);
    SlotsAreIds(docs, lengths, slots, read, tokens, m);
    assert slots.Keys == m.Keys;
    assert |slots.Keys| == |slots| && |m.Keys| == |m|;
  }

  lemma SlotsAreIds(docs: seq<Document>, lengths: seq<int>, slots: map<string, nat>, read: seq<nat>, tokens: nat, m: Docs)
    requires DocsRead(docs, lengths, |docs|, slots, read, tokens) && DocsOf(docs, m)
    ensures forall id :: id in slots <==> id in m
    ensures forall id :: id in slots ==> slots[id] < |docs| && docs[slots[id]] == m[id]
  {
    hide Total;
    forall id ensures id in slots <==> id in m {
      if id in m {
        var k :| 0 <= k < |docs| && docs[k].id == id;
      }
    }
  }

  lemma ReadOk(docs: seq<Document>, lengths: seq<int>, slots: map<string, nat>, read: seq<nat>, tokens: nat, terms: map<string, TermEntry>, live: seq<bool>, m: Docs)
    requires DocsRead(docs, lengths, |docs|, slots, read, tokens) && DocsOf(docs, m)
    requires |lengths| == |docs| && forall k :: 0 <= k < |docs| ==> lengths[k] == Length(docs[k])
    requires |live| == |docs| && (forall k :: 0 <= k < |live| ==> live[k]) && ReadTerms(terms, docs, read)
    ensures var s := State(slots, docs, read, live, terms, tokens, 0); StateOk(s) && Contents(s) == m
  {
    hide TotalLength, Length, Tf, SlotsOk, DocsOf, Frontier, Holders;
    ReadSlots(docs, lengths, slots, read, tokens, terms, live, m);
    forall t | t in terms ensures EntryOk(t, terms[t], docs, read, live) && terms[t].df == |Holders(m, t)| > 0 {
      assert ReadEntry(t, terms[t], docs, read);
      HoldersListed(terms[t].postings, docs, m, t);
      EntryRead(t, terms[t], docs, read, live);
    }
  }

  lemma EntryRead(t: string, e: TermEntry, docs: seq<Document>, lengths: seq<nat>, live: seq<bool>)
    requires ReadEntry(t, e, docs, lengths) && |live| == |docs|
    ensures EntryOk(t, e, docs, lengths, live)
  {
    hide Tf, Frontier, Dominated;
  }

  // Rebuilds the entry of every term, unless some list does not decode.
  method ReadEntries(snapshot: Snapshot, lengths: seq<nat>, ghost m: Docs) returns (r: Result<map<string, TermEntry>, SnapshotError>)
    requires |lengths| == |snapshot.docs| < NoDoc
    ensures Describes(snapshot, m) ==> r.Ok? && ReadTerms(r.value, snapshot.docs, lengths)
  {
    hide Tf, Length, ListOfTerm, Encodable, EncodedPostings, DecodedPostings, ReadEntry, DocsOf;
    var docs := snapshot.docs;
    var terms: map<string, TermEntry> := map[];
    var todo := snapshot.postings.Keys;
    while todo != {}
      invariant todo <= snapshot.postings.Keys
      invariant Describes(snapshot, m) ==> forall t :: t in terms ==> ReadEntry(t, terms[t], docs, lengths)
      invariant Describes(snapshot, m) ==> forall t, d :: 0 <= d < |docs| && t !in todo && Tf(docs[d], t) > 0 ==> t in terms
      decreases |todo|
    {
      var term :| term in todo;
      todo := todo - {term};
      var list := DecodePostings(snapshot.postings[term], |docs|);
      if Describes(snapshot, m) {
        DecodesTerm(snapshot, m, term, list, lengths);
      }
      if list.Err? {
        return Err(list.error);
      }
      InBounds(snapshot.postings[term], -1, |docs|);
      var entry := EntryFor(list.value, lengths);
      if Describes(snapshot, m) {
        EntryIsRead(term, entry, docs, lengths);
        HeldMeansListed(list.value, docs, term);
      }
      if entry.df > 0 {
        terms := terms[term := entry];
      }
    }
    r := Ok(terms);
  }

  lemma DecodesTerm(snapshot: Snapshot, m: Docs, t: string, list: Result<seq<Posting>, SnapshotError>, lengths: seq<nat>)
    requires Describes(snapshot, m) && t in snapshot.postings && list == DecodedPostings(snapshot.postings[t], -1, |snapshot.docs|)
    requires |snapshot.docs| < NoDoc
    ensures list.Ok? && ListOfTerm(list.value, snapshot.docs, t)
  {
    hide Tf, ListOfTerm, EncodedPostings, DecodedPostings, Encodable;
    var p :| ListOfTerm(p, snapshot.docs, t) && Encodable(p, -1, |snapshot.docs|) && snapshot.postings[t] == EncodedPostings(p, -1);
    PostingsRoundTrip(p, -1, |snapshot.docs|);
  }

  lemma DecodedParts(b: seq<Byte>, previous: int, n: nat)
    requires previous >= -1 && DecodedPostings(b, previous, n).Ok?
    ensures b == [] ==> DecodedPostings(b, previous, n).value == []
    ensures b != [] ==>
      var gap, read := ReadUvarint(b).0, ReadUvarint(b).1;
      0 < read <= |b| && 0 < ReadUvarint(b[read..]).1 <= |b| - read && previous + gap < n
      && DecodedPostings(b[read..][ReadUvarint(b[read..]).1..], previous + gap, n).Ok?
      && DecodedPostings(b, previous, n).value
         == [Posting(previous + gap, ReadUvarint(b[read..]).0)] + DecodedPostings(b[read..][ReadUvarint(b[read..]).1..], previous + gap, n).value
  {
    hide ReadUvarint;
  }

  lemma {:induction false} InBounds(b: seq<Byte>, previous: int, n: nat)
    requires previous >= -1 && DecodedPostings(b, previous, n).Ok?
    ensures forall k :: 0 <= k < |DecodedPostings(b, previous, n).value| ==> DecodedPostings(b, previous, n).value[k].doc < n
    decreases |b|
  {
    hide ReadUvarint, DecodedPostings;
    DecodedParts(b, previous, n);
    if b != [] {
      var (gap, read) := ReadUvarint(b);
      InBounds(b[read..][ReadUvarint(b[read..]).1..], previous + gap, n);
    }
  }

  lemma EntryIsRead(t: string, e: TermEntry, docs: seq<Document>, lengths: seq<nat>)
    requires ListOfTerm(e.postings, docs, t) && e.df == |e.postings| && Frontier(e.impacts) && |e.impacts| <= MaxImpacts && |lengths| == |docs|
    requires forall k :: 0 <= k < |e.postings| ==> e.postings[k].doc < |lengths| && Dominated(e.impacts, e.postings[k].tf, lengths[e.postings[k].doc])
    ensures e.df > 0 ==> ReadEntry(t, e, docs, lengths)
  {
    hide Tf, Frontier, Dominated;
  }

  lemma HeldMeansListed(list: seq<Posting>, docs: seq<Document>, t: string)
    requires ListOfTerm(list, docs, t)
    ensures forall d :: 0 <= d < |docs| && Tf(docs[d], t) > 0 ==> |list| > 0
  {
    hide Tf;
    forall d | 0 <= d < |docs| && Tf(docs[d], t) > 0 ensures |list| > 0 {
      assert HasPosting(list, d);
    }
  }

  // Rebuilds the index a snapshot describes.
  method ReadSnapshot(snapshot: Snapshot, ghost m: Docs) returns (r: Result<Index, SnapshotError>)
    ensures Describes(snapshot, m) && Fits32(snapshot.docs) ==> r.Ok? && fresh(r.value) && r.value.Valid() && r.value.Stored() == m
  {
    hide Tf, Length, StateOk, Contents, ListOfTerm, Encodable, EncodedPostings, DocsRead, ReadTerms, Total;
    if Describes(snapshot, m) && Fits32(snapshot.docs) {
      IsReadable(snapshot, m);
    }
    var read := ReadDocs(snapshot);
    if read.Err? {
      return Err(read.error);
    }
    var (slots, lengths, tokens) := read.value;
    DocsReadSizes(snapshot.docs, snapshot.lengths, slots, lengths, tokens);
    var terms := ReadEntries(snapshot, lengths, m);
    if terms.Err? {
      return Err(terms.error);
    }
    var index := new Index();
    index.slots, index.docs, index.lengths, index.terms := slots, snapshot.docs, lengths, terms.value;
    index.live := seq(|snapshot.docs|, _ => true);
    index.tokens, index.dead := tokens, 0;
    if Describes(snapshot, m) && Fits32(snapshot.docs) {
      ReadOk(snapshot.docs, snapshot.lengths, slots, lengths, tokens, terms.value, index.live, m);
      assert index.View() == State(slots, snapshot.docs, lengths, index.live, terms.value, tokens, 0);
    }
    r := Ok(index);
  }

  lemma IsReadable(snapshot: Snapshot, m: Docs)
    requires Describes(snapshot, m) && Fits32(snapshot.docs)
    ensures Readable(snapshot)
  {
    hide ListOfTerm, Encodable, EncodedPostings, Tf;
  }

  lemma DocsReadSizes(docs: seq<Document>, lengths: seq<int>, slots: map<string, nat>, read: seq<nat>, tokens: nat)
    requires DocsRead(docs, lengths, |docs|, slots, read, tokens)
    ensures |read| == |docs|
  {
  }
}
