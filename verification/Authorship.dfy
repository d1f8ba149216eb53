// Who wrote what: in every reachable document each unit carries the author of the
// record that put it there.
module Authorship {
  import opened Results
  import opened Ops
  import opened Anchors
  import opened History
  import opened Document
  import opened LiveSystem
  import opened Convergence
  import ServerSteps
  import Runs
  import I = Intent

  // Unit k stays and becomes unit p.
  ghost predicate Becomes(o: Op, k: nat, p: nat) {
    !I.Removes(o, k) && p == I.Before(o, k) + |I.Inserts(o, k)|
  }

  // The writer of unit p: whoever wrote the unit that became it, or the editor.
  ghost function Writer(o: Op, writers: seq<Author>, author: Author, p: nat): Author {
    if exists k: nat :: k < |writers| && Becomes(o, k, p) then
      var k: nat :| k < |writers| && Becomes(o, k, p);
      writers[k]
    else author
  }

  ghost function WritersAfter(o: Op, writers: seq<Author>, author: Author): seq<Author> {
    seq(TargetLen(o), p requires 0 <= p => Writer(o, writers, author, p))
  }

  // The writers of all units, told from the records alone.
  ghost function Writers(records: seq<Record>): seq<Author> {
    if records == [] then []
    else
      var before, r := Writers(records[..|records| - 1]), records[|records| - 1];
      if r.OpRecord? then WritersAfter(r.op, before, r.author) else before
  }

  // The document's authorship says the same.
  ghost predicate Says(attr: seq<AuthorId>, authors: seq<Author>, writers: seq<Author>) {
    && |attr| == |writers|
    && forall p :: 0 <= p < |attr| ==> attr[p] < |authors| && authors[attr[p]] == writers[p]
  }

  lemma KnownAuthor(authors: seq<Author>, a: Author)
    ensures var k, more := AuthorIndex(authors, a), WithAuthor(authors, a);
      && authors <= more && k < |more| && more[k] == a
  {
  }

  lemma EditSays(o: Op, doc: Text, attr: seq<AuthorId>, authors: seq<Author>, writers: seq<Author>, author: Author)
    requires ValidOn(o, doc) && |attr| == |doc| && Says(attr, authors, writers)
    ensures Says(RunAuthors(o, attr, AuthorIndex(authors, author)), WithAuthor(authors, author), WritersAfter(o, writers, author))
  {
    hide Run, RunAuthors, Normal, I.Before, I.Removes, I.Inserts, AuthorIndex, WithAuthor;
    KnownAuthor(authors, author);
    var k, more := AuthorIndex(authors, author), WithAuthor(authors, author);
    var out, after := RunAuthors(o, attr, k), WritersAfter(o, writers, author);
    assert Positive(o) by { NormalIsPositive(o); }
    I.AuthorsFollowText(o, doc, attr, k);
    RunLength(o, doc);
    forall p: nat | p < |out| ensures out[p] < |more| && more[out[p]] == after[p] {
      UnitSays(o, doc, attr, authors, writers, author, p);
    }
  }

  lemma NormalIsPositive(o: Op)
    requires Normal(o)
    ensures Positive(o)
  {
  }

  lemma UnitSays(o: Op, doc: Text, attr: seq<AuthorId>, authors: seq<Author>, writers: seq<Author>, author: Author, p: nat)
    requires Positive(o) && BaseLen(o) == |doc| == |attr| && Says(attr, authors, writers)
    requires p < |RunAuthors(o, attr, AuthorIndex(authors, author))| == TargetLen(o)
    ensures var who, more := RunAuthors(o, attr, AuthorIndex(authors, author))[p], WithAuthor(authors, author);
      who < |more| && more[who] == Writer(o, writers, author, p)
  {
    hide Run, RunAuthors, I.Before, I.Removes, I.Inserts, AuthorIndex, WithAuthor, BaseLen, TargetLen;
    KnownAuthor(authors, author);
    var idx := AuthorIndex(authors, author);
    RunLength(o, doc);
    if exists k: nat :: k < |writers| && Becomes(o, k, p) {
      forall k: nat | k < |writers| && Becomes(o, k, p)
        ensures RunAuthors(o, attr, idx)[p] == attr[k]
      {
        I.KeptAt(o, doc, attr, idx, k);
      }
    } else {
      I.EveryUnit(o, p);
      assert forall k: nat :: k < |writers| ==> !Becomes(o, k, p);
      var g := PutIntoGap(o, p);
      I.InsertedAt(o, doc, attr, idx, g, p - I.Before(o, g));
    }
  }

  lemma PutIntoGap(o: Op, p: nat) returns (g: nat)
    requires I.ComesFrom(o, p) && forall k: nat :: k < BaseLen(o) ==> !Becomes(o, k, p)
    ensures g <= BaseLen(o) && I.Before(o, g) <= p < I.Before(o, g) + |I.Inserts(o, g)|
  {
    hide I.Before, I.Inserts, I.Removes;
    forall k: nat | k < BaseLen(o) ensures I.Removes(o, k) || p != I.Before(o, k) + |I.Inserts(o, k)| {
      assert !Becomes(o, k, p);
    }
    g :| g <= BaseLen(o) && I.Before(o, g) <= p < I.Before(o, g) + |I.Inserts(o, g)|;
  }

  lemma {:induction false} LogSays(records: seq<Record>)
    requires GoodLog(records)
    ensures Replay(records).Ok?
    ensures var d := Replay(records).value; Says(d.attr, d.authors, Writers(records))
    decreases |records|
  {
    hide RunAuthors, Run, WritersAfter, DocOk, AuthorIndex, WithAuthor, MovedAll, WithAccepted, ReplayOn;
    assert records[..|records|] == records;
    assert GoodReplay(records[..|records|]);
    if records == [] {
      NoRecords();
    } else {
      var n := |records| - 1;
      var init, r := records[..n], records[n];
      assert records == init + [r];
      forall m | 0 <= m <= n ensures GoodReplay(init[..m]) {
        assert init[..m] == records[..m] && GoodReplay(records[..m]);
      }
      LogSays(init);
      ReplayAppend(init, r);
      if r.OpRecord? {
        var d, d' := Replay(init).value, Replay(records).value;
        assert GoodReplay(init[..n]) && init[..n] == init;
        LastValid(d, r);
        EditSays(r.op, d.text, d.attr, d.authors, Writers(init), r.author);
      }
    }
  }

  lemma NoRecords()
    ensures Replay([]) == Ok(EmptyDoc)
  {
  }

  // A record that a proper document came from fitted the document before.
  lemma LastValid(d: Doc, r: Record)
    requires DocOk(d) && r.OpRecord? && ApplyRecord(d, r).Ok? && DocOk(ApplyRecord(d, r).value)
    ensures ValidOn(r.op, d.text) && |d.attr| == |d.text|
  {
    hide Run, Normal, RunAuthors, SuggestionsOk, OrderOk, TableOk, KeysDistinct, MovedAll, WithAccepted, Play, Chain;
    var h, h' := d.history, ApplyRecord(d, r).value.history;
    assert h'[..|h|] == h && h[..|h|] == h && h'[|h|].op == r.op;
    TextStep(h', |h|);
  }

  // In every reachable state, over any run of edits, accepts and restarts.
  lemma EachUnitItsWriter(s: System, events: seq<Event>)
    requires Initial(s) && CanRun(s, events)
    ensures var t := After(s, events); Says(t.doc.attr, t.doc.authors, Writers(t.log + t.batch))
  {
    hide SystemOk, CanRun, Initial, GoodLog, Says, Replay;
    var t := After(s, events);
    Runs.ReachableOk(s, events);
    ServerSteps.SystemParts(t);
    LogSays(t.log + t.batch);
  }
}
