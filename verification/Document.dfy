// A document as a value: its text, who wrote what, its revisions and what became
// of each suggestion. One function applies a record, for changes as they happen
// and for a log that is read back.
module Document {
  import opened Results
  import opened Ops
  import opened Characters
  import opened Anchors
  import opened History

  datatype Kind = Human | Agent | System

  datatype Author = Author(id: string, name: string, kind: Kind, model: string)

  datatype Status = Pending | Stale | Accepted | Rejected | Dismissed

  datatype Placement = PlaceReplace | PlaceAfter

  // A change an agent offers for the range from start to end.
  datatype Suggestion = Suggestion(
    id: nat, agent: Author, start: nat, end: nat, placement: Placement,
    original: Text, text: Text, status: Status, resolvedBy: Option<Author>)

  datatype Record =
    | Meta(title: string)
    | OpRecord(rev: nat, op: Op, author: Author, key: Option<OpKey>, accepts: Option<nat>, person: Option<Author>)
    | SugRecord(suggestion: Suggestion)
    | ResRecord(sid: nat, action: Status, resolver: Author)

  datatype RecordError = WrongRevision | UnknownSuggestion | WrongLength | DuplicateSuggestion | AnchoredOutside | UnknownAction

  datatype Doc = Doc(
    title: string, text: Text, attr: seq<AuthorId>, authors: seq<Author>,
    history: seq<Commit>, opIDs: map<OpKey, nat>,
    suggestions: map<nat, Suggestion>, order: seq<nat>)

  const EmptyDoc := Doc("", [], [], [], [], map[], map[], [])

  /******* Authors *******/

  // The index of an author already known, or the one it would be given.
  function AuthorIndex(authors: seq<Author>, a: Author): (k: nat)
    ensures k <= |authors| && (k < |authors| ==> authors[k] == a)
    ensures k == |authors| ==> a !in authors
  {
    if authors == [] then 0
    else if authors[0] == a then 0
    else 1 + AuthorIndex(authors[1..], a)
  }

  function WithAuthor(authors: seq<Author>, a: Author): seq<Author> {
    if AuthorIndex(authors, a) < |authors| then authors else authors + [a]
  }

  /******* Applying records *******/

  predicate Open(s: Suggestion) {
    s.status.Pending? || s.status.Stale?
  }

  // An open suggestion after an operation. It moves with its range and goes stale
  // when the range is touched.
  function Moved(s: Suggestion, o: Op): Suggestion {
    if !Open(s) then s
    else
      var r := MapRange(o, s.start, s.end);
      s.(start := r.start, end := r.end, status := if r.touched then Stale else s.status)
  }

  function MovedAll(sugs: map<nat, Suggestion>, o: Op): map<nat, Suggestion> {
    map id | id in sugs :: Moved(sugs[id], o)
  }

  function WithAccepted(sugs: map<nat, Suggestion>, accepts: Option<nat>, person: Option<Author>): map<nat, Suggestion>
    requires accepts.Some? ==> accepts.value in sugs
  {
    if accepts.Some? then sugs[accepts.value := sugs[accepts.value].(status := Accepted, resolvedBy := person)]
    else sugs
  }

  function ApplyOpRecord(d: Doc, r: Record): Result<Doc, RecordError>
    requires r.OpRecord?
  {
    if r.rev != |d.history| + 1 then Err(WrongRevision)
    else if r.accepts.Some? && r.accepts.value !in d.suggestions then Err(UnknownSuggestion)
    else if BaseLen(r.op) != |d.text| then Err(WrongLength)
    else
      var author := AuthorIndex(d.authors, r.author);
      Ok(d.(
        text := Run(r.op, d.text),
        attr := RunAuthors(r.op, d.attr, author),
        authors := WithAuthor(d.authors, r.author),
        history := d.history + [Commit(r.op, author, r.key)],
        opIDs := if r.key.Some? then d.opIDs[r.key.value := r.rev] else d.opIDs,
        suggestions := MovedAll(WithAccepted(d.suggestions, r.accepts, r.person), r.op)))
  }

  function ApplyRecord(d: Doc, r: Record): Result<Doc, RecordError> {
    match r
    case Meta(title) => Ok(d.(title := title))
    case OpRecord(_, _, _, _, _, _) => ApplyOpRecord(d, r)
    case SugRecord(s) =>
      if s.id in d.suggestions then Err(DuplicateSuggestion)
      else if s.end < s.start || s.end > |d.text| then Err(AnchoredOutside)
      else Ok(d.(suggestions := d.suggestions[s.id := s], order := d.order + [s.id]))
    case ResRecord(sid, action, resolver) =>
      if sid !in d.suggestions then Err(UnknownSuggestion)
      else if !action.Rejected? && !action.Dismissed? then Err(UnknownAction)
      else Ok(d.(suggestions := d.suggestions[sid := d.suggestions[sid].(status := action, resolvedBy := Some(resolver))]))
  }

  function ReplayOn(d: Doc, records: seq<Record>): Result<Doc, RecordError>
    decreases |records|
  {
    if records == [] then Ok(d)
    else
      var next := ApplyRecord(d, records[0]);
      if next.Err? then next else ReplayOn(next.value, records[1..])
  }

  function Replay(records: seq<Record>): Result<Doc, RecordError> {
    ReplayOn(EmptyDoc, records)
  }

  lemma {:induction false} ReplayOnConcat(d: Doc, x: seq<Record>, y: seq<Record>)
    ensures ReplayOn(d, x + y) == (var m := ReplayOn(d, x); if m.Err? then m else ReplayOn(m.value, y))
    decreases |x|
  {
    hide ApplyRecord;
    if x == [] {
      assert x + y == y;
    } else {
      assert (x + y)[1..] == x[1..] + y;
      var next := ApplyRecord(d, x[0]);
      if next.Ok? {
        ReplayOnConcat(next.value, x[1..], y);
      }
    }
  }

  lemma ReplayOne(d: Doc, r: Record)
    ensures ReplayOn(d, [r]) == ApplyRecord(d, r)
  {
    assert [r][1..] == [];
  }

  // Applying a record live and replaying the log with it appended agree.
  lemma ReplayAppend(records: seq<Record>, r: Record)
    ensures Replay(records + [r]) == (var d := Replay(records); if d.Err? then d else ApplyRecord(d.value, r))
  {
    hide ApplyRecord, ReplayOn;
    ReplayOnConcat(EmptyDoc, records, [r]);
    if Replay(records).Ok? {
      ReplayOne(Replay(records).value, r);
    }
  }

  // Part of a log that replays, replays; and its history is a prefix.
  lemma {:induction false} ReplayPrefix(d: Doc, records: seq<Record>, n: nat)
    requires n <= |records| && ReplayOn(d, records).Ok?
    ensures ReplayOn(d, records[..n]).Ok?
    ensures d.history <= ReplayOn(d, records[..n]).value.history <= ReplayOn(d, records).value.history
    decreases |records|
  {
    if n == 0 {
      if records != [] {
        ReplayPrefix(ApplyRecord(d, records[0]).value, records[1..], 0);
      }
    } else {
      assert records[..n][1..] == records[1..][..n - 1];
      ReplayPrefix(ApplyRecord(d, records[0]).value, records[1..], n - 1);
    }
  }

  /******* What every session keeps *******/

  // The anchor lies on whole characters, and a pending one still holds the text
  // the agent read.
  ghost predicate AnchorOk(s: Suggestion, text: Text) {
    && s.start <= s.end <= |text|
    && WellFormed(text[..s.start]) && WellFormed(text[..s.end])
    && (s.status.Pending? ==> text[s.start..s.end] == s.original)
  }

  ghost predicate SuggestionsOk(sugs: map<nat, Suggestion>, text: Text) {
    forall id :: id in sugs ==> sugs[id].id == id && Clean(sugs[id].text) && (Open(sugs[id]) ==> AnchorOk(sugs[id], text))
  }

  ghost predicate OrderOk(order: seq<nat>, sugs: map<nat, Suggestion>) {
    && (forall j, k :: 0 <= j < k < |order| ==> order[j] != order[k])
    && (forall id :: id in sugs <==> id in order)
  }

  // The dedup table says exactly which keys were committed, and when.
  ghost predicate TableOk(opIDs: map<OpKey, nat>, h: seq<Commit>) {
    forall key :: (key in opIDs <==> RevisionOf(h, key) > 0) && (key in opIDs ==> opIDs[key] == RevisionOf(h, key))
  }

  ghost predicate DocOk(d: Doc) {
    && Chain([], d.history) && d.text == Play([], d.history)
    && |d.attr| == |d.text| && (forall k :: 0 <= k < |d.attr| ==> d.attr[k] < |d.authors|)
    && KeysDistinct(d.history) && TableOk(d.opIDs, d.history)
    && OrderOk(d.order, d.suggestions) && SuggestionsOk(d.suggestions, d.text)
  }

  // What a session checks, or arranges, before it commits a record.
  ghost predicate Committable(d: Doc, r: Record) {
    match r
    case Meta(_) => true
    case OpRecord(_, op, _, key, _, _) => ValidOn(op, d.text) && (key.Some? ==> key.value !in d.opIDs)
    case SugRecord(s) => Clean(s.text) && (Open(s) ==> AnchorOk(s, d.text))
    case ResRecord(_, _, _) => true
  }

  lemma MovedOk(s: Suggestion, o: Op, doc: Text)
    requires ValidOn(o, doc) && (Open(s) ==> AnchorOk(s, doc))
    ensures Open(Moved(s, o)) ==> AnchorOk(Moved(s, o), Run(o, doc))
    ensures Moved(s, o).text == s.text && Moved(s, o).id == s.id
  {
    hide Run, BaseLen, Safe, WellFormed, MapRange;
    if Open(s) {
      MapRangeSound(o, doc, s.start, s.end);
      MapRangeKeepsBoundary(o, doc, s.start, s.end);
    }
  }

  lemma SuggestionsMoved(sugs: map<nat, Suggestion>, o: Op, doc: Text, accepts: Option<nat>, person: Option<Author>)
    requires ValidOn(o, doc) && SuggestionsOk(sugs, doc)
    requires accepts.Some? ==> accepts.value in sugs
    ensures SuggestionsOk(MovedAll(WithAccepted(sugs, accepts, person), o), Run(o, doc))
  {
    hide Run, BaseLen, Safe, Normal, WellFormed, AnchorOk, Moved;
    var all := WithAccepted(sugs, accepts, person);
    forall id | id in all
      ensures Moved(all[id], o).id == id && Clean(Moved(all[id], o).text) && (Open(Moved(all[id], o)) ==> AnchorOk(Moved(all[id], o), Run(o, doc)))
    {
      MovedOk(all[id], o, doc);
    }
  }

  lemma RevisionAppend(h: seq<Commit>, c: Commit, key: OpKey)
    ensures RevisionOf(h + [c], key) == if c.key == Some(key) then |h| + 1 else RevisionOf(h, key)
  {
    assert (h + [c])[..|h|] == h;
  }

  lemma TableAppend(opIDs: map<OpKey, nat>, h: seq<Commit>, c: Commit)
    requires TableOk(opIDs, h) && KeysDistinct(h)
    requires c.key.Some? ==> c.key.value !in opIDs
    ensures TableOk(if c.key.Some? then opIDs[c.key.value := |h| + 1] else opIDs, h + [c])
    ensures KeysDistinct(h + [c])
  {
    var table := if c.key.Some? then opIDs[c.key.value := |h| + 1] else opIDs;
    forall key: OpKey ensures (key in table <==> RevisionOf(h + [c], key) > 0) && (key in table ==> table[key] == RevisionOf(h + [c], key)) {
      RevisionAppend(h, c, key);
    }
    if c.key.Some? {
      assert RevisionOf(h, c.key.value) == 0;
    }
  }

  lemma {:induction false} AuthorsLength(o: Op, attr: seq<AuthorId>, author: AuthorId, bound: nat)
    requires |attr| == BaseLen(o) && author < bound && forall k :: 0 <= k < |attr| ==> attr[k] < bound
    ensures |RunAuthors(o, attr, author)| == TargetLen(o)
    ensures forall k :: 0 <= k < TargetLen(o) ==> RunAuthors(o, attr, author)[k] < bound
  {
    if o != [] {
      AuthorsLength(o[1..], attr[BaseOf(o[0])..], author, bound);
    }
  }

  lemma OpRecordOk(d: Doc, r: Record)
    requires DocOk(d) && r.OpRecord? && Committable(d, r) && ApplyOpRecord(d, r).Ok?
    ensures DocOk(ApplyOpRecord(d, r).value)
  {
    hide Run, BaseLen, TargetLen, Safe, Normal, WellFormed, AnchorOk, RunAuthors, RevisionOf, Play, Chain, AuthorIndex;
    hide KeysDistinct, TableOk, SuggestionsOk, MovedAll;
    var e := ApplyOpRecord(d, r).value;
    var author := AuthorIndex(d.authors, r.author);
    var c := Commit(r.op, author, r.key);
    PlayConcat([], d.history, [c]);
    PlayOne(d.text, c);
    RunLength(r.op, d.text);
    AuthorsLength(r.op, d.attr, author, |e.authors|);
    TableAppend(d.opIDs, d.history, c);
    SuggestionsMoved(d.suggestions, r.op, d.text, r.accepts, r.person);
    OrderKept(d.order, d.suggestions, r.op, r.accepts, r.person);
  }

  lemma OrderKept(order: seq<nat>, sugs: map<nat, Suggestion>, o: Op, accepts: Option<nat>, person: Option<Author>)
    requires OrderOk(order, sugs) && (accepts.Some? ==> accepts.value in sugs)
    ensures OrderOk(order, MovedAll(WithAccepted(sugs, accepts, person), o))
  {
  }

  // Every committed record keeps the document as it should be.
  lemma ApplyKeepsDocOk(d: Doc, r: Record)
    requires DocOk(d) && Committable(d, r) && ApplyRecord(d, r).Ok?
    ensures DocOk(ApplyRecord(d, r).value)
  {
    hide Run, WellFormed, Chain, Play, KeysDistinct, TableOk;
    match r
    case OpRecord(_, _, _, _, _, _) => OpRecordOk(d, r);
    case _ =>
  }

  // The document is well-formed text in every state a session reaches.
  lemma DocTextWellFormed(d: Doc)
    requires DocOk(d)
    ensures WellFormed(d.text)
  {
    ChainWellFormed([], d.history);
  }

  /******* Server queries *******/

  datatype CatchUpError = RevisionOutOfRange | LengthMismatch | TooStale

  const MaxTransformWork := 5_000_000

  // How long the document was at a revision: what the next operation works on.
  function LengthAt(d: Doc, rev: nat): nat
    requires rev <= |d.history|
  {
    if rev < |d.history| then BaseLen(d.history[rev].op) else |d.text|
  }

  lemma LengthAtSound(d: Doc, rev: nat)
    requires DocOk(d) && rev <= |d.history|
    ensures LengthAt(d, rev) == |TextAt(d.history, rev)|
  {
    hide Run, BaseLen, Safe, Normal, WellFormed, Play, Chain;
    if rev < |d.history| {
      TextStep(d.history, rev);
    } else {
      assert d.history[..rev] == d.history;
    }
  }

  function CaughtUp(d: Doc, o: Op, rev: int): Result<Op, CatchUpError> {
    if rev < 0 || rev > |d.history| then Err(RevisionOutOfRange)
    else if BaseLen(o) != LengthAt(d, rev) then Err(LengthMismatch)
    else if CatchUpWork(o, d.history[rev..]) > MaxTransformWork then Err(TooStale)
    else Ok(CatchUp(o, d.history[rev..]))
  }

  datatype RangeError = RangeRevision | RangeOutside

  // A range carried through later operations.
  function RangeThrough(later: seq<Commit>, start: nat, end: nat): Range
    decreases |later|
  {
    if later == [] then Range(start, end, false)
    else
      var r := MapRange(later[0].op, start, end);
      var rest := RangeThrough(later[1..], r.start, r.end);
      rest.(touched := r.touched || rest.touched)
  }

  function RangeFrom(d: Doc, rev: int, start: int, end: int): Result<Range, RangeError> {
    if rev < 0 || rev > |d.history| then Err(RangeRevision)
    else if start < 0 || end < start || end > LengthAt(d, rev) then Err(RangeOutside)
    else Ok(RangeThrough(d.history[rev..], start, end))
  }

  // However many operations were committed in between, a range none of them
  // edited holds exactly what it held, on whole characters.
  lemma {:induction false} RangeThroughSound(doc: Text, later: seq<Commit>, start: nat, end: nat)
    requires Chain(doc, later) && start <= end <= |doc|
    requires WellFormed(doc[..start]) && WellFormed(doc[..end])
    ensures var r := RangeThrough(later, start, end);
      && r.start <= r.end <= |Play(doc, later)|
      && WellFormed(Play(doc, later)[..r.start]) && WellFormed(Play(doc, later)[..r.end])
      && (!r.touched ==> Play(doc, later)[r.start..r.end] == doc[start..end])
    decreases |later|
  {
    hide Run, BaseLen, Safe, WellFormed, MapRange;
    if later != [] {
      var o := later[0].op;
      MapRangeSound(o, doc, start, end);
      MapRangeKeepsBoundary(o, doc, start, end);
      var r := MapRange(o, start, end);
      RangeThroughSound(Run(o, doc), later[1..], r.start, r.end);
    }
  }

  lemma RangeFromSound(d: Doc, rev: nat, start: nat, end: nat)
    requires DocOk(d) && rev <= |d.history| && start <= end <= |TextAt(d.history, rev)|
    requires WellFormed(TextAt(d.history, rev)[..start]) && WellFormed(TextAt(d.history, rev)[..end])
    ensures RangeFrom(d, rev, start, end).Ok?
    ensures var r := RangeFrom(d, rev, start, end).value;
      && r.start <= r.end <= |d.text|
      && WellFormed(d.text[..r.start]) && WellFormed(d.text[..r.end])
      && (!r.touched ==> d.text[r.start..r.end] == TextAt(d.history, rev)[start..end])
  {
    hide Run, BaseLen, Safe, Normal, WellFormed, Play, Chain, RangeThrough;
    LengthAtSound(d, rev);
    TextBetween(d.history, rev, |d.history|);
    assert d.history[rev..|d.history|] == d.history[rev..];
    assert d.history[..|d.history|] == d.history;
    RangeThroughSound(TextAt(d.history, rev), d.history[rev..], start, end);
  }

  // What accepting a suggestion commits.
  function AcceptOp(s: Suggestion, length: nat): Op
    requires s.start <= s.end <= length
  {
    ReplaceOp(length, if s.placement.PlaceAfter? then s.end else s.start, s.end, s.text)
  }

  // An accept replaces exactly the text the agent read, or inserts directly
  // after it, and never splits a character although nothing checks it again.
  lemma AcceptSound(d: Doc, id: nat)
    requires DocOk(d) && id in d.suggestions && d.suggestions[id].status.Pending?
    ensures var s := d.suggestions[id];
      && s.start <= s.end <= |d.text|
      && ValidOn(AcceptOp(s, |d.text|), d.text)
      && d.text == d.text[..s.start] + s.original + d.text[s.end..]
      && Run(AcceptOp(s, |d.text|), d.text)
         == d.text[..s.start] + (if s.placement.PlaceAfter? then s.original else []) + s.text + d.text[s.end..]
  {
    hide Run, BaseLen, TargetLen, Safe, Normal, WellFormed, Play, Chain, ReplaceOp, KeysDistinct, TableOk;
    var s := d.suggestions[id];
    assert Open(s) && AnchorOk(s, d.text);
    var start := if s.placement.PlaceAfter? then s.end else s.start;
    DocTextWellFormed(d);
    ReplaceOpSound(d.text, start, s.end, s.text);
    ReplaceOpSafe(d.text, start, s.end, s.text);
    assert d.text[..s.end] == d.text[..s.start] + s.original;
    assert d.text == d.text[..s.end] + d.text[s.end..];
  }
}
