// The inverted index as it runs: updates in place, compaction in place, searches.
module SearchIndex {
  import opened Scoring
  import opened Ranking
  import opened MaxScore
  import opened Documents
  import opened IndexState

  const CompactMinDead := 64
  const CompactDeadRatio := 4
  const MaxPrunedTerms := 16

  // How often each term occurs, and how many tokens there are.
  method Frequencies(doc: Document) returns (freq: map<string, nat>, length: nat)
    ensures length == Length(doc)
    ensures forall t :: t in freq <==> Tf(doc, t) > 0
    ensures forall t :: t in freq ==> freq[t] == Tf(doc, t)
  {
    freq := map[];
    var tokens := doc.tokens;
    for k := 0 to |tokens|
      invariant forall t :: t in freq <==> |t| > 1 && Count(tokens[..k], t) > 0
      invariant forall t :: t in freq ==> freq[t] == Count(tokens[..k], t)
    {
      assert tokens[..k + 1][..k] == tokens[..k];
      var term := tokens[k];
      if |term| > 1 {
        freq := freq[term := if term in freq then freq[term] + 1 else 1];
      }
    }
    assert tokens[..|tokens|] == tokens;
    length := |tokens|;
  }

  class Index {
    var slots: map<string, nat>
    var docs: seq<Document>
    var lengths: seq<nat>
    var live: seq<bool>
    var terms: map<string, TermEntry>
    var tokens: nat
    var dead: nat

    function View(): State
      reads this
    {
      State(slots, docs, lengths, live, terms, tokens, dead)
    }

    ghost predicate Valid()
      reads this
    {
      StateOk(View())
    }

    // The documents the index stands for.
    ghost function Stored(): Docs
      requires Valid()
      reads this
    {
      Contents(View())
    }

    constructor ()
      ensures Valid() && Stored() == map[]
    {
      slots, docs, lengths, live, terms, tokens, dead := map[], [], [], [], map[], 0, 0;
      new;
      EmptyOk();
    }

    // Stores a document, replacing the one with the same id.
    method Upsert(doc: Document)
      requires Valid() && |docs| < NoDoc
      modifies this
      ensures Valid() && Stored() == old(Stored())[doc.id := doc]
      ensures |docs| == |slots| + dead && (dead < CompactMinDead || dead * CompactDeadRatio < |slots|)
    {
      hide StateOk, Contents, Tf, Length, SlotsOk, TermsOk, TermsAdded, TotalLength, Retired, Frontier, Dominated, Count;
      var freq, length := Frequencies(doc);
      ghost var before := Stored();
      if doc.id in slots {
        SlotInRange(View(), doc.id);
        Retire(slots[doc.id]);
      } else {
        NotThere(View(), doc.id);
      }
      Gone(View(), doc.id);
      Append(doc, freq, length);
      PutAgain(before, doc);
      if dead >= CompactMinDead && dead * CompactDeadRatio >= |slots| {
        Compact();
      }
      StateSizes(View());
    }

    // Gives a document the next slot.
    method Append(doc: Document, freq: map<string, nat>, length: nat)
      requires Valid() && doc.id !in slots && |docs| < NoDoc && length == Length(doc)
      requires forall t :: t in freq <==> Tf(doc, t) > 0
      requires forall t :: t in freq ==> freq[t] == Tf(doc, t)
      modifies this
      ensures Valid() && Stored() == old(Stored())[doc.id := doc] && |docs| <= NoDoc
    {
      hide StateOk, Contents, Tf, Length, TermsAdded, Frontier, Dominated;
      ghost var s := View();
      var slot := |docs|;
      var more := AddTerms(freq, length, slot, doc);
      AddOk(s, doc, more);
      docs := docs + [doc];
      lengths := lengths + [length];
      live := live + [true];
      slots := slots[doc.id := slot];
      tokens := tokens + length;
      terms := more;
      assert View() == Added(s, doc, more);
    }

    // Marks a slot as dead. Its postings stay behind, except those of terms that
    // nothing live contains: such terms go altogether.
    method Retire(slot: nat)
      requires Valid() && slot < |docs| && slot < |live| && live[slot]
      modifies this
      ensures Valid() && Stored() == old(Stored()) - {old(docs[slot].id)} && |docs| == |old(docs)|
    {
      hide StateOk, Contents, Tf, Length;
      ghost var s := View();
      RetiredTokens(s, slot);
      var gone := docs[slot];
      var freq, _ := Frequencies(gone);
      var left := RetireTerms(freq, gone);
      StateSizes(s);
      RetireOk(s, slot, left);
      terms := left;
      tokens := tokens - lengths[slot];
      live := live[slot := false];
      docs := docs[slot := NoDocument];
      slots := slots - {gone.id};
      dead := dead + 1;
      assert View() == Retired(s, slot, left);
    }

    method RetireTerms(freq: map<string, nat>, ghost gone: Document) returns (left: map<string, TermEntry>)
      requires forall t :: t in freq <==> Tf(gone, t) > 0
      ensures TermsRetired(terms, left, gone)
    {
      hide Tf;
      left := terms;
      var todo := freq.Keys;
      while todo != {}
        invariant todo <= freq.Keys
        invariant forall t :: t in left <==> t in terms && (t in freq && t !in todo ==> terms[t].df > 1)
        invariant forall t :: t in left ==> left[t] == if t in freq && t !in todo then terms[t].(df := terms[t].df - 1) else terms[t]
        decreases |todo|
      {
        var term :| term in todo;
        todo := todo - {term};
        if term in left {
          var entry := left[term];
          if entry.df <= 1 {
            left := left - {term};
          } else {
            left := left[term := entry.(df := entry.df - 1)];
          }
        }
      }
    }

    method AddTerms(freq: map<string, nat>, length: nat, slot: nat, ghost doc: Document) returns (more: map<string, TermEntry>)
      requires forall t :: t in freq <==> Tf(doc, t) > 0
      requires forall t :: t in freq ==> freq[t] == Tf(doc, t)
      requires length == Length(doc) && Valid()
      ensures TermsAdded(terms, more, slot, doc)
    {
      hide Tf, StateOk, Length, EntryAdded;
      more := terms;
      var todo := freq.Keys;
      while todo != {}
        invariant todo <= freq.Keys
        invariant forall t :: t in more <==> t in terms || (t in freq && t !in todo)
        invariant forall t :: t in more && !(t in freq && t !in todo) ==> t in terms && more[t] == terms[t]
        invariant forall t :: t in more && t in freq && t !in todo ==> EntryAdded(t, terms, more[t], slot, doc)
        decreases |todo|
      {
        var term :| term in todo;
        todo := todo - {term};
        var entry := if term in more then more[term] else TermEntry([], 0, []);
        FrontierOf(View(), term);
        var impacts := AddImpact(entry.impacts, freq[term], length);
        more := more[term := TermEntry(entry.postings + [Posting(slot, freq[term])], entry.df + 1, impacts)];
        NowAdded(term, terms, entry, impacts, slot, doc);
      }
    }

    lemma NowAdded(t: string, before: map<string, TermEntry>, entry: TermEntry, impacts: seq<Impact>, slot: nat, doc: Document)
      requires entry == if t in before then before[t] else TermEntry([], 0, [])
      requires Frontier(impacts) && |impacts| <= MaxImpacts && Dominated(impacts, Tf(doc, t), Length(doc))
      requires forall tf, l :: Dominated(entry.impacts, tf, l) ==> Dominated(impacts, tf, l)
      ensures EntryAdded(t, before, TermEntry(entry.postings + [Posting(slot, Tf(doc, t))], entry.df + 1, impacts), slot, doc)
    {
    }

    /******* Compaction *******/

    // Closes the gaps that dead slots left, in the slots and in every list.
    method Compact()
      requires Valid() && |docs| <= NoDoc
      modifies this
      ensures Valid() && Stored() == old(Stored()) && dead == 0 && |docs| == |slots|
    {
      hide StateOk, Contents, EntryCompacted, Rank;
      ghost var s := View();
      StateSizes(s);
      var remap, next := NewSlots();
      var compacted := CompactTerms(remap);
      terms := compacted;
      MoveDocs(s, remap, next);
      dead := 0;
      assert TermsCompacted(s, View());
      CompactOk(s, View());
      StateSizes(View());
    }

    // Where each slot goes.
    method NewSlots() returns (remap: seq<nat>, next: nat)
      requires |live| <= NoDoc
      ensures |remap| == |live| && next == Rank(live, |live|)
      ensures forall d :: 0 <= d < |live| ==> remap[d] == if live[d] then Rank(live, d) else NoDoc
    {
      remap, next := [], 0;
      for d := 0 to |live|
        invariant |remap| == d && next == Rank(live, d)
        invariant forall k :: 0 <= k < d ==> remap[k] == if live[k] then Rank(live, k) else NoDoc
      {
        if live[d] {
          remap := remap + [next];
          next := next + 1;
        } else {
          remap := remap + [NoDoc];
        }
      }
    }

    method CompactTerms(remap: seq<nat>) returns (compacted: map<string, TermEntry>)
      requires Valid() && |docs| <= NoDoc && |live| == |lengths| == |remap| == |docs|
      requires forall d :: 0 <= d < |live| ==> remap[d] == if live[d] then Rank(live, d) else NoDoc
      ensures compacted.Keys == terms.Keys
      ensures forall t :: t in terms ==> EntryCompacted(terms[t], compacted[t], lengths, live)
    {
      hide StateOk, EntryCompacted, Rank;
      compacted := terms;
      var todo := terms.Keys;
      while todo != {}
        invariant todo <= terms.Keys && compacted.Keys == terms.Keys
        invariant forall t :: t in terms && t !in todo ==> EntryCompacted(terms[t], compacted[t], lengths, live)
        invariant forall t :: t in todo ==> compacted[t] == terms[t]
        decreases |todo|
      {
        var term :| term in todo;
        todo := todo - {term};
        EntryInRange(View(), term);
        var entry := CompactPostings(compacted[term], remap);
        compacted := compacted[term := entry];
      }
    }

    // Filters and renumbers one posting list in place: what is kept is written
    // over entries that were already read.
    method CompactPostings(entry: TermEntry, remap: seq<nat>) returns (kept: TermEntry)
      requires |live| == |lengths| == |remap| <= NoDoc
      requires forall d :: 0 <= d < |live| ==> remap[d] == if live[d] then Rank(live, d) else NoDoc
      requires forall k :: 0 <= k < |entry.postings| ==> entry.postings[k].doc < |live|
      ensures EntryCompacted(entry, kept, lengths, live)
    {
      hide Rank, Remapped, Frontier, Dominated;
      var p, impacts, written: nat := entry.postings, [], 0;
      EmptyFrontier();
      RemappedNext(entry.postings, live, 0);
      for read := 0 to |entry.postings|
        invariant |p| == |entry.postings| && written <= read && p[read..] == entry.postings[read..]
        invariant p[..written] == Remapped(entry.postings[..read], live)
        invariant Frontier(impacts) && |impacts| <= MaxImpacts
        invariant forall k :: 0 <= k < read && live[entry.postings[k].doc] ==> Dominated(impacts, entry.postings[k].tf, lengths[entry.postings[k].doc])
      {
        assert p[read] == p[read..][0] == entry.postings[read];
        RemappedNext(entry.postings, live, read);
        RankBelow(live, p[read].doc);
        var from := p[read];
        var to := remap[from.doc];
        if to != NoDoc {
          ghost var before := p;
          p := p[written := Posting(to, from.tf)];
          assert p[..written + 1] == before[..written] + [Posting(to, from.tf)];
          assert p[read + 1..] == before[read..][1..] == entry.postings[read + 1..];
          written := written + 1;
          impacts := AddImpact(impacts, from.tf, lengths[from.doc]);
        } else {
          assert p[read + 1..] == p[read..][1..] == entry.postings[read + 1..];
        }
      }
      assert entry.postings[..|entry.postings|] == entry.postings;
      kept := TermEntry(p[..written], entry.df, impacts);
    }

    // Moves documents down to their new slots. A slot moves to one no higher, so
    // nothing unread is overwritten.
    method MoveDocs(ghost s: State, remap: seq<nat>, next: nat)
      requires SlotsOk(s) && s.docs == docs && s.lengths == lengths && s.live == live && s.slots == slots && s.tokens == tokens
      requires |remap| == |s.live| <= NoDoc && next == Rank(s.live, |s.live|)
      requires forall d :: 0 <= d < |s.live| ==> remap[d] == if s.live[d] then Rank(s.live, d) else NoDoc
      modifies this`docs, this`lengths, this`live, this`slots
      ensures DocsCompacted(s, View().(dead := 0))
    {
      hide Rank, Length, SlotsOk, Moving;
      MovingStarts(s);
      for slot := 0 to |remap|
        invariant Moving(s, docs, lengths, live, slots, slot) && |docs| == |lengths| == |live| == |remap|
      {
        var to := remap[slot];
        RankBelow(s.live, slot);
        if to != NoDoc {
          MovingMoves(s, docs, lengths, live, slots, slot);
          docs := docs[to := docs[slot]];
          lengths := lengths[to := lengths[slot]];
          live := live[to := true];
          slots := slots[docs[to].id := to];
        } else {
          MovingSkips(s, docs, lengths, live, slots, slot);
        }
      }
      RankBelow(s.live, |s.live|);
      MovingEnds(s, docs, lengths, live, slots);
      docs, lengths, live := docs[..next], lengths[..next], live[..next];
    }
  }

  lemma PutAgain(m: Docs, doc: Document)
    ensures (m - {doc.id})[doc.id := doc] == m[doc.id := doc]
  {
  }

  // Documents before slot have moved; the rest are where they were.
  ghost predicate DocsMoving(s: State, docs: seq<Document>, lengths: seq<nat>, live: seq<bool>, slot: nat)
    requires |s.docs| == |s.lengths| == |s.live|
  {
    && slot <= |s.docs| == |docs| == |lengths| == |live|
    && (forall d :: slot <= d < |docs| ==> docs[d] == s.docs[d] && lengths[d] == s.lengths[d])
    && (forall d :: 0 <= d < slot && s.live[d] ==>
          Rank(s.live, d) <= d && docs[Rank(s.live, d)] == s.docs[d] && lengths[Rank(s.live, d)] == s.lengths[d] && live[Rank(s.live, d)])
  }

  ghost predicate SlotsMoving(s: State, slots: map<string, nat>, slot: nat)
    requires SlotsOk(s)
  {
    && slots.Keys == s.slots.Keys
    && (forall id :: id in s.slots ==> slots[id] == if s.slots[id] < slot then Rank(s.live, s.slots[id]) else s.slots[id])
  }

  ghost predicate Moving(s: State, docs: seq<Document>, lengths: seq<nat>, live: seq<bool>, slots: map<string, nat>, slot: nat) {
    SlotsOk(s) && DocsMoving(s, docs, lengths, live, slot) && SlotsMoving(s, slots, slot)
  }

  lemma MovingStarts(s: State)
    requires SlotsOk(s)
    ensures Moving(s, s.docs, s.lengths, s.live, s.slots, 0) && |s.docs| == |s.lengths| == |s.live|
  {
  }

  lemma MovingSkips(s: State, docs: seq<Document>, lengths: seq<nat>, live: seq<bool>, slots: map<string, nat>, slot: nat)
    requires Moving(s, docs, lengths, live, slots, slot) && slot < |s.docs| && !s.live[slot]
    ensures Moving(s, docs, lengths, live, slots, slot + 1)
  {
    hide Rank, Length;
  }

  // A slot moves to one no higher, so nothing unread is overwritten.
  lemma DocMoves(s: State, docs: seq<Document>, lengths: seq<nat>, live: seq<bool>, slot: nat)
    requires |s.docs| == |s.lengths| == |s.live| && DocsMoving(s, docs, lengths, live, slot) && slot < |s.docs| && s.live[slot]
    ensures Rank(s.live, slot) <= slot
    ensures var to := Rank(s.live, slot);
      DocsMoving(s, docs[to := docs[slot]], lengths[to := lengths[slot]], live[to := true], slot + 1)
  {
    hide Rank;
    RankBelow(s.live, slot);
    RanksApart(s.live, slot);
  }

  lemma SlotMoves(s: State, slots: map<string, nat>, slot: nat)
    requires SlotsOk(s) && SlotsMoving(s, slots, slot) && slot < |s.docs| && s.live[slot]
    ensures SlotsMoving(s, slots[s.docs[slot].id := Rank(s.live, slot)], slot + 1)
  {
    hide Rank, Length, SlotsOk;
    LiveSlot(s, slot);
    forall id | id in s.slots && id != s.docs[slot].id ensures s.slots[id] != slot {
      SlotOwner(s, id);
    }
  }

  lemma LiveSlot(s: State, d: nat)
    requires SlotsOk(s) && d < |s.docs| && s.live[d]
    ensures s.docs[d].id in s.slots && s.slots[s.docs[d].id] == d
  {
  }

  lemma SlotOwner(s: State, id: string)
    requires SlotsOk(s) && id in s.slots
    ensures s.slots[id] < |s.docs| && s.docs[s.slots[id]].id == id
  {
  }

  lemma MovingMoves(s: State, docs: seq<Document>, lengths: seq<nat>, live: seq<bool>, slots: map<string, nat>, slot: nat)
    requires Moving(s, docs, lengths, live, slots, slot) && slot < |s.docs| && s.live[slot]
    ensures Rank(s.live, slot) <= slot && docs[slot] == s.docs[slot]
    ensures var to := Rank(s.live, slot);
      Moving(s, docs[to := docs[slot]], lengths[to := lengths[slot]], live[to := true], slots[docs[slot].id := to], slot + 1)
  {
    hide Rank, Length, SlotsMoving;
    DocMoves(s, docs, lengths, live, slot);
    SlotMoves(s, slots, slot);
  }

  lemma MovingEnds(s: State, docs: seq<Document>, lengths: seq<nat>, live: seq<bool>, slots: map<string, nat>)
    requires Moving(s, docs, lengths, live, slots, |s.docs|)
    ensures Rank(s.live, |s.live|) <= |docs| && |docs| == |lengths| == |live|
    ensures var next := Rank(s.live, |s.live|);
      DocsCompacted(s, s.(docs := docs[..next], lengths := lengths[..next], live := live[..next], slots := slots, dead := 0))
  {
    hide Rank, Length;
    var next := Rank(s.live, |s.live|);
    RankBelow(s.live, |s.live|);
    forall k | 0 <= k < next ensures live[k] {
      var d := RankOnto(s.live, |s.live|, k);
    }
    forall d | 0 <= d < |s.docs| && s.live[d] ensures Rank(s.live, d) < next {
      RankGrows(s.live, d, |s.live|);
    }
  }

  /******* What the class needs to know of the state *******/

  lemma StateSizes(s: State)
    requires StateOk(s)
    ensures SlotsOk(s) && |s.docs| == |s.lengths| == |s.live|
    ensures s.dead == |s.docs| - |s.slots|
  {
  }

  lemma SlotInRange(s: State, id: string)
    requires StateOk(s) && id in s.slots
    ensures s.slots[id] < |s.docs| == |s.live| && s.live[s.slots[id]] && s.docs[s.slots[id]].id == id
  {
  }

  lemma NotThere(s: State, id: string)
    requires StateOk(s) && id !in s.slots
    ensures Contents(s) - {id} == Contents(s)
  {
  }

  lemma Gone(s: State, id: string)
    requires StateOk(s) && id !in Contents(s)
    ensures id !in s.slots
  {
  }

  lemma FrontierOf(s: State, t: string)
    requires StateOk(s)
    ensures t in s.terms ==> Frontier(s.terms[t].impacts) && |s.terms[t].impacts| <= MaxImpacts
    ensures Frontier([])
  {
    if t in s.terms {
      assert EntryOk(t, s.terms[t], s.docs, s.lengths, s.live);
    }
  }

  lemma EmptyFrontier()
    ensures Frontier([])
  {
  }

  lemma EntryInRange(s: State, t: string)
    requires StateOk(s) && t in s.terms
    ensures forall k :: 0 <= k < |s.terms[t].postings| ==> s.terms[t].postings[k].doc < |s.live|
  {
    assert EntryOk(t, s.terms[t], s.docs, s.lengths, s.live);
    forall k | 0 <= k < |s.terms[t].postings| ensures s.terms[t].postings[k].doc < |s.live| {
      assert PostingOk(t, s.terms[t].postings[k], s.terms[t].impacts, s.docs, s.lengths, s.live);
    }
  }

  lemma RemappedNext(p: seq<Posting>, live: seq<bool>, k: nat)
    requires k <= |p| && forall i :: 0 <= i < |p| ==> p[i].doc < |live|
    ensures Remapped(p[..0], live) == []
    ensures k < |p| ==>
      Remapped(p[..k + 1], live) == Remapped(p[..k], live) + if live[p[k].doc] then [Posting(Rank(live, p[k].doc), p[k].tf)] else []
  {
    if k < |p| {
      assert p[..k + 1][..k] == p[..k];
    }
  }

  lemma RankBelow(live: seq<bool>, d: nat)
    requires d <= |live|
    ensures Rank(live, d) <= d
  {
    RankGrows(live, 0, d);
  }

  // Live slots before this one have moved elsewhere.
  lemma RanksApart(live: seq<bool>, slot: nat)
    requires slot < |live|
    ensures forall d :: 0 <= d < slot && live[d] ==> Rank(live, d) < Rank(live, slot)
  {
    forall d | 0 <= d < slot && live[d] ensures Rank(live, d) < Rank(live, slot) {
      RankGrows(live, d, slot);
    }
  }
}
