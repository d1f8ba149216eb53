// The document as the server holds it: fields changed in place, one record at a
// time.
module DocStateCode {
  import opened Results
  import opened Ops
  import opened Merge
  import opened Anchors
  import opened History
  import opened Document
  import opened OperationCode

  // A stretch of the text with a single author.
  datatype Span = Span(start: nat, length: nat, author: AuthorId)

  // The authors a list of spans gives to the units it covers.
  function SpanAuthors(runs: seq<Span>): seq<AuthorId> {
    if runs == [] then []
    else SpanAuthors(runs[..|runs| - 1]) + seq(runs[|runs| - 1].length, _ => runs[|runs| - 1].author)
  }

  // Spans are as long as they can be and lie end to end.
  predicate SpansTight(runs: seq<Span>) {
    && (forall k :: 0 <= k < |runs| ==> runs[k].length > 0)
    && (forall k :: 0 <= k < |runs| - 1 ==> runs[k].author != runs[k + 1].author)
    && (forall k :: 0 <= k < |runs| - 1 ==> runs[k + 1].start == runs[k].start + runs[k].length)
    && (runs != [] ==> runs[0].start == 0)
  }

  lemma NoSpans()
    ensures SpanAuthors([]) == []
  {
  }

  lemma SpanExtend(runs: seq<Span>)
    requires runs != []
    ensures var last := |runs| - 1;
      SpanAuthors(runs[last := runs[last].(length := runs[last].length + 1)]) == SpanAuthors(runs) + [runs[last].author]
  {
    var last := |runs| - 1;
    var more := runs[last := runs[last].(length := runs[last].length + 1)];
    assert more[..last] == runs[..last];
    assert seq(runs[last].length + 1, _ => runs[last].author) == seq(runs[last].length, _ => runs[last].author) + [runs[last].author];
  }

  lemma SpanAppend(runs: seq<Span>, s: Span)
    requires s.length == 1
    ensures SpanAuthors(runs + [s]) == SpanAuthors(runs) + [s.author]
  {
    assert (runs + [s])[..|runs|] == runs;
    assert seq(1, _ => s.author) == [s.author];
  }

  // The lookup table finds every author where the list first has them.
  ghost predicate LookupOk(lookup: map<Author, nat>, authors: seq<Author>) {
    && (forall a :: a in lookup <==> a in authors)
    && (forall a :: a in lookup ==> lookup[a] == AuthorIndex(authors, a))
  }

  // Lengths fit together from each commit to the next and to the text.
  ghost predicate Shape(d: Doc) {
    && |d.attr| == |d.text|
    && (forall k :: 0 <= k < |d.history| ==> Normal(d.history[k].op))
    && (forall k :: 0 <= k < |d.history| - 1 ==> TargetLen(d.history[k].op) == BaseLen(d.history[k + 1].op))
    && (d.history != [] ==> TargetLen(d.history[|d.history| - 1].op) == |d.text|)
    && (d.history == [] ==> d.text == [])
    && OrderOk(d.order, d.suggestions)
  }

  lemma ShapeParts(d: Doc)
    requires Shape(d)
    ensures |d.attr| == |d.text| && OrderOk(d.order, d.suggestions)
  {
  }

  lemma ShapeKept(d: Doc, r: Record)
    requires Shape(d) && r.OpRecord? && Normal(r.op) && ApplyOpRecord(d, r).Ok?
    ensures Shape(ApplyOpRecord(d, r).value)
  {
    hide Normal, BaseLen, TargetLen, Ops.Run, RunAuthors, OrderOk, MovedAll, WithAccepted, AuthorIndex, WithAuthor;
    var author := AuthorIndex(d.authors, r.author);
    RunLength(r.op, d.text);
    AppliedLengths(r.op, d.text, d.attr, author);
    OrderKept(d.order, d.suggestions, r.op, r.accepts, r.person);
  }

  class DocState {
    var title: string
    var text: Text
    var attr: seq<AuthorId>
    var authors: seq<Author>
    var lookup: map<Author, nat>
    var rev: nat
    var history: seq<Commit>
    var opIDs: map<OpKey, nat>
    var suggestions: map<nat, Suggestion>
    var order: seq<nat>

    function View(): Doc
      reads this
    {
      Doc(title, text, attr, authors, history, opIDs, suggestions, order)
    }

    ghost predicate Valid()
      reads this
    {
      rev == |history| && LookupOk(lookup, authors) && Shape(View())
    }

    constructor ()
      ensures Valid() && View() == EmptyDoc
    {
      title, text, attr, authors, lookup := "", [], [], [], map[];
      rev, history, opIDs, suggestions, order := 0, [], map[], map[], [];
    }

    method AuthorIndexOf(author: Author) returns (index: nat)
      requires Valid()
      modifies this`authors, this`lookup
      ensures Valid() && index == AuthorIndex(old(authors), author)
      ensures authors == WithAuthor(old(authors), author)
    {
      if author in lookup {
        MemberIndex(authors, author);
        return lookup[author];
      }
      NewAuthorIndex(authors, author);
      authors := authors + [author];
      lookup := lookup[author := |authors| - 1];
      return |authors| - 1;
    }

    // Takes in a record, or refuses it and changes nothing.
    method Apply(r: Record) returns (error: Option<RecordError>)
      requires Valid() && (r.OpRecord? ==> Normal(r.op))
      modifies this
      ensures Valid()
      ensures ApplyRecord(old(View()), r) == if error.Some? then Err(error.value) else Ok(View())
      ensures error.Some? ==> View() == old(View())
    {
      hide ApplyOpRecord, LookupOk, Normal, BaseLen, TargetLen;
      match r
      case Meta(t) =>
        title := t;
        error := None;
      case OpRecord(_, _, _, _, _, _) =>
        error := ApplyOp(r);
      case SugRecord(s) =>
        if s.id in suggestions {
          return Some(DuplicateSuggestion);
        }
        if s.end < s.start || s.end > |text| {
          return Some(AnchoredOutside);
        }
        suggestions := suggestions[s.id := s];
        order := order + [s.id];
        error := None;
      case ResRecord(sid, action, resolver) =>
        if sid !in suggestions {
          return Some(UnknownSuggestion);
        }
        if !action.Rejected? && !action.Dismissed? {
          return Some(UnknownAction);
        }
        suggestions := suggestions[sid := suggestions[sid].(status := action, resolvedBy := Some(resolver))];
        error := None;
    }

    method ApplyOp(r: Record) returns (error: Option<RecordError>)
      requires Valid() && r.OpRecord? && Normal(r.op)
      modifies this
      ensures Valid()
      ensures ApplyOpRecord(old(View()), r) == if error.Some? then Err(error.value) else Ok(View())
      ensures error.Some? ==> View() == old(View())
    {
      hide RunAuthors, Normal, Ops.Run, AuthorIndex, WithAuthor, MapRange, BaseLen, TargetLen, MovedAll, OrderOk, WithAccepted, Operation.Valid, Shape, LookupOk;
      if r.rev != rev + 1 {
        return Some(WrongRevision);
      }
      if r.accepts.Some? && r.accepts.value !in suggestions {
        return Some(UnknownSuggestion);
      }
      var op := new Operation.Of(r.op);
      op.Facts();
      var next := op.Apply(text);
      if next.Err? {
        return Some(WrongLength);
      }
      TakeOp(r, op, next.value);
      error := None;
    }

    // The changes of an operation that nothing is against.
    method TakeOp(r: Record, op: Operation, next: Text)
      requires Valid() && op.Valid() && r.OpRecord? && op.comps == r.op && Normal(r.op) && ApplyOpRecord(View(), r).Ok?
      requires next == Ops.Run(r.op, text) && op.baseLen == |text|
      modifies this
      ensures Valid() && ApplyOpRecord(old(View()), r) == Ok(View())
    {
      hide RunAuthors, Normal, Ops.Run, AuthorIndex, WithAuthor, MapRange, BaseLen, TargetLen, MovedAll, OrderOk, WithAccepted, Operation.Valid, Shape, LookupOk;
      ShapeParts(View());
      ShapeKept(View(), r);
      var author := AuthorIndexOf(r.author);
      var authorship := op.Authors(attr, author);
      var moved := SettleSuggestions(op, r, order, suggestions);
      attr, text, rev, suggestions := authorship, next, r.rev, moved;
      history := history + [Commit(r.op, author, r.key)];
      if r.key.Some? {
        opIDs := opIDs[r.key.value := r.rev];
      }
    }

    method LengthAtRev(at: nat) returns (length: nat)
      requires Valid() && at <= rev
      ensures length == LengthAt(View(), at)
    {
      if at < rev {
        var op := new Operation.Of(history[at].op);
        op.Facts();
        return op.baseLen;
      }
      length := |text|;
    }

    // Carries an operation made at an older revision to the current document.
    method CatchUp(o: Operation, base: int) returns (r: Result<Op, CatchUpError>)
      requires Valid() && o.Valid()
      ensures r == CaughtUp(View(), o.comps, base)
      ensures r.Ok? ==> Normal(r.value)
    {
      hide Normal, BaseLen, TargetLen, Merge.Left, Merge.Right;
      o.Facts();
      if base < 0 || base > rev {
        return Err(RevisionOutOfRange);
      }
      var length := LengthAtRev(base);
      if o.baseLen != length {
        return Err(LengthMismatch);
      }
      var op, work := o, 0;
      ghost var later := history[base..];
      for k := base to rev
        invariant op.Valid() && (op == o || fresh(op)) && Valid()
        invariant k < rev ==> BaseLen(op.comps) == BaseLen(history[k].op)
        invariant work <= MaxTransformWork
        invariant work + CatchUpWork(op.comps, history[k..]) == CatchUpWork(o.comps, later)
        invariant History.CatchUp(op.comps, history[k..]) == History.CatchUp(o.comps, later)
      {
        assert history[k..][0] == history[k] && history[k..][1..] == history[k + 1..];
        var earlier := new Operation.Of(history[k].op);
        earlier.Facts();
        op.Facts();
        // The work already done counts, not that of one step.
        work := work + |op.comps| + |earlier.comps|;
        if work > MaxTransformWork {
          return Err(TooStale);
        }
        var both := Transform(op, earlier);
        if both.Err? {
          assert false;
        }
        RebasedLength(op.comps, earlier.comps);
        op := both.value.0;
      }
      assert history[rev..] == [];
      op.Facts();
      r := Ok(op.comps);
    }

    // Carries a range read at an older revision to the current one.
    method MapRangeFrom(base: int, from: int, to: int) returns (r: Result<Range, RangeError>)
      requires Valid()
      ensures r == RangeFrom(View(), base, from, to)
    {
      hide Normal, BaseLen, MapRange;
      if base < 0 || base > rev {
        return Err(RangeRevision);
      }
      var length := LengthAtRev(base);
      if from < 0 || to < from || to > length {
        return Err(RangeOutside);
      }
      var start: nat, end: nat, touched := from, to, false;
      for k := base to rev
        invariant start <= end
        invariant RangeThrough(history[base..], from, to)
               == (var rest := RangeThrough(history[k..], start, end); rest.(touched := touched || rest.touched))
      {
        assert history[k..][0] == history[k] && history[k..][1..] == history[k + 1..];
        var later := new Operation.Of(history[k].op);
        later.Facts();
        NormalPositive(later.comps);
        var hit := later.MapSpan(start, end);
        RangeOrdered(later.comps, start, end);
        start, end := hit.start, hit.end;
        touched := touched || hit.touched;
      }
      assert history[rev..] == [];
      r := Ok(Range(start, end, touched));
    }

    // The authorship of the text as runs.
    method Spans() returns (runs: seq<Span>)
      ensures SpansTight(runs) && SpanAuthors(runs) == attr
    {
      hide SpanAuthors;
      NoSpans();
      runs := [];
      for k := 0 to |attr|
        invariant SpansTight(runs) && SpanAuthors(runs) == attr[..k]
        invariant k > 0 ==> runs != [] && runs[|runs| - 1].start + runs[|runs| - 1].length == k
        invariant k == 0 ==> runs == []
      {
        assert attr[..k + 1] == attr[..k] + [attr[k]];
        var last := |runs| - 1;
        if last >= 0 && runs[last].author == attr[k] {
          SpanExtend(runs);
          runs := runs[last := runs[last].(length := runs[last].length + 1)];
        } else {
          SpanAppend(runs, Span(k, 1, attr[k]));
          runs := runs + [Span(k, 1, attr[k])];
        }
      }
      assert attr[..|attr|] == attr;
    }
  }

  // The document that a log leads to.
  method ReplayLog(records: seq<Record>) returns (r: Result<DocState, RecordError>)
    requires forall k :: 0 <= k < |records| && records[k].OpRecord? ==> Normal(records[k].op)
    ensures r.Ok? ==> fresh(r.value) && r.value.Valid()
    ensures Replay(records) == if r.Ok? then Ok(r.value.View()) else Err(r.error)
  {
    hide ApplyRecord, Normal;
    var state := new DocState();
    for k := 0 to |records|
      invariant fresh(state) && state.Valid()
      invariant Replay(records) == ReplayOn(state.View(), records[k..])
    {
      assert records[k..][0] == records[k] && records[k..][1..] == records[k + 1..];
      var error := state.Apply(records[k]);
      if error.Some? {
        return Err(error.value);
      }
    }
    assert records[|records|..] == [];
    r := Ok(state);
  }

  // The suggestions after an operation: the one it accepts is settled and the
  // anchors of open ones move.
  method SettleSuggestions(op: Operation, r: Record, order: seq<nat>, sugs: map<nat, Suggestion>) returns (moved: map<nat, Suggestion>)
    requires op.Valid() && OrderOk(order, sugs) && r.OpRecord? && r.op == op.comps
    requires r.accepts.Some? ==> r.accepts.value in sugs
    ensures moved == MovedAll(WithAccepted(sugs, r.accepts, r.person), op.comps)
    ensures OrderOk(order, moved)
  {
    hide Normal, MapRange;
    var settled := sugs;
    if r.accepts.Some? {
      settled := settled[r.accepts.value := settled[r.accepts.value].(status := Accepted, resolvedBy := r.person)];
    }
    OrderKept(order, sugs, r.op, r.accepts, r.person);
    moved := MoveAnchors(op, order, settled);
  }

  // Moves the anchors of open suggestions, in order.
  method MoveAnchors(op: Operation, order: seq<nat>, sugs: map<nat, Suggestion>) returns (moved: map<nat, Suggestion>)
    requires op.Valid() && OrderOk(order, sugs)
    ensures moved == MovedAll(sugs, op.comps)
  {
    hide MapRange, Normal;
    moved := sugs;
    op.Facts();
    NormalPositive(op.comps);
    for k := 0 to |order|
      invariant moved.Keys == sugs.Keys
      invariant forall j :: 0 <= j < k ==> moved[order[j]] == Moved(sugs[order[j]], op.comps)
      invariant forall j :: k <= j < |order| ==> moved[order[j]] == sugs[order[j]]
    {
      var s := moved[order[k]];
      if Open(s) {
        var r := op.MapSpan(s.start, s.end);
        moved := moved[order[k] := s.(start := r.start, end := r.end, status := if r.touched && s.status.Pending? then Stale else s.status)];
      }
    }
    forall id | id in sugs ensures moved[id] == Moved(sugs[id], op.comps) {
      assert id in order;
    }
  }

  lemma RebasedLength(a: Op, b: Op)
    requires Normal(a) && Normal(b) && BaseLen(a) == BaseLen(b)
    ensures BaseLen(Merge.Left(a, b)) == TargetLen(b)
  {
    TransformLengths(a, b);
    CanonSound(TransformSteps(a, b).0);
  }

  lemma NormalPositive(o: Op)
    requires Normal(o)
    ensures Positive(o)
  {
  }

  lemma RangeOrdered(o: Op, start: nat, end: nat)
    requires Positive(o) && start <= end
    ensures MapRange(o, start, end).start <= MapRange(o, start, end).end
  {
    MapPosMonotone(o, start, end, false, true);
  }

  lemma {:induction false} MemberIndex(authors: seq<Author>, a: Author)
    requires a in authors
    ensures AuthorIndex(authors, a) < |authors|
  {
  }

  lemma {:induction false} NewAuthorIndex(authors: seq<Author>, a: Author)
    requires a !in authors
    ensures AuthorIndex(authors, a) == |authors| && AuthorIndex(authors + [a], a) == |authors|
    ensures forall b :: b in authors ==> AuthorIndex(authors + [a], b) == AuthorIndex(authors, b)
  {
    if authors != [] {
      assert (authors + [a])[1..] == authors[1..] + [a];
      NewAuthorIndex(authors[1..], a);
    }
  }

  lemma AppliedLengths(o: Op, doc: Text, attr: seq<AuthorId>, author: AuthorId)
    requires |doc| == |attr| == BaseLen(o)
    ensures |Ops.Run(o, doc)| == |RunAuthors(o, attr, author)| == TargetLen(o)
  {
    RunLength(o, doc);
    var bound := MaxPlus(attr, author);
    AuthorsLength(o, attr, author, bound);
  }

  function MaxPlus(attr: seq<AuthorId>, author: AuthorId): (m: nat)
    ensures author < m && forall k :: 0 <= k < |attr| ==> attr[k] < m
  {
    if attr == [] then author + 1
    else
      var m := MaxPlus(attr[1..], author);
      assert forall k :: 0 <= k < |attr| ==> attr[k] == if k == 0 then attr[0] else attr[1..][k - 1];
      if attr[0] < m then m else attr[0] + 1
  }
}
