// What becomes of suggestions over a run: each is settled at most once, and its
// status and place say exactly what the log says.
module Suggestions {
  import opened Results
  import opened Ops
  import opened Anchors
  import opened History
  import opened Document
  import opened LiveSystem
  import opened Convergence
  import ServerSteps
  import Runs
  import Authorship
  import I = Intent
  import C = Client

  predicate Posts(r: Record, id: nat) { r.SugRecord? && r.suggestion.id == id }

  predicate Accepts(r: Record, id: nat) { r.OpRecord? && r.accepts == Some(id) }

  predicate Resolves(r: Record, id: nat) { r.ResRecord? && r.sid == id }

  predicate Settles(r: Record, id: nat) { Accepts(r, id) || Resolves(r, id) }

  // The log says what became of suggestion id.
  ghost predicate FateOk(records: seq<Record>, sugs: map<nat, Suggestion>, id: nat) {
    && (id in sugs <==> Posted(records, id))
    && (id !in sugs ==> Unsettled(records, id))
    && SettledAtMostOnce(records, id)
    && (id in sugs ==>
          && (sugs[id].status.Accepted? <==> WasAccepted(records, id))
          && (sugs[id].status.Rejected? <==> WasRejected(records, id))
          && (sugs[id].status.Dismissed? <==> WasDismissed(records, id))
          && (Open(sugs[id]) <==> Unsettled(records, id)))
  }

  // What the server settles was open, accepted only while its text was untouched;
  // what it posts is new.
  ghost predicate Proper(d: Doc, r: Record) {
    match r
    case Meta(_) => true
    case OpRecord(_, _, _, _, accepts, _) => accepts.Some? ==> accepts.value in d.suggestions && d.suggestions[accepts.value].status.Pending?
    case SugRecord(s) => s.id !in d.suggestions && Open(s)
    case ResRecord(sid, action, _) =>
      && sid in d.suggestions && Open(d.suggestions[sid])
      && action == if d.suggestions[sid].status.Stale? then Dismissed else Rejected
  }

  ghost predicate ProperLog(records: seq<Record>) {
    forall n :: 0 <= n < |records| ==> Replay(records[..n]).Ok? && Proper(Replay(records[..n]).value, records[n])
  }

  /******* One record *******/

  lemma StatusAfter(d: Doc, r: Record, id: nat)
    requires Proper(d, r) && ApplyRecord(d, r).Ok?
    ensures var sugs := ApplyRecord(d, r).value.suggestions;
      && (id in sugs <==> id in d.suggestions || Posts(r, id))
      && (Settles(r, id) ==> id in d.suggestions && Open(d.suggestions[id]))
      && (id in sugs ==>
            && (Accepts(r, id) ==> sugs[id].status.Accepted?)
            && (Resolves(r, id) ==> sugs[id].status == r.action && (r.action.Rejected? || r.action.Dismissed?))
            && (Posts(r, id) ==> Open(sugs[id]) && id !in d.suggestions)
            && (!Settles(r, id) && !Posts(r, id) ==>
                  Open(sugs[id]) == Open(d.suggestions[id]) && (!Open(d.suggestions[id]) ==> sugs[id] == d.suggestions[id])))
  {
    hide Run, RunAuthors, AuthorIndex, WithAuthor, BaseLen, MapRange;
  }

  ghost predicate Posted(records: seq<Record>, id: nat) { exists n :: 0 <= n < |records| && Posts(records[n], id) }

  ghost predicate WasAccepted(records: seq<Record>, id: nat) { exists n :: 0 <= n < |records| && Accepts(records[n], id) }

  ghost predicate WasRejected(records: seq<Record>, id: nat) {
    exists n :: 0 <= n < |records| && Resolves(records[n], id) && records[n].action.Rejected?
  }

  ghost predicate WasDismissed(records: seq<Record>, id: nat) {
    exists n :: 0 <= n < |records| && Resolves(records[n], id) && records[n].action.Dismissed?
  }

  ghost predicate Unsettled(records: seq<Record>, id: nat) { forall n :: 0 <= n < |records| ==> !Settles(records[n], id) }

  ghost predicate SettledAtMostOnce(records: seq<Record>, id: nat) {
    forall j, k :: 0 <= j < k < |records| ==> !(Settles(records[j], id) && Settles(records[k], id))
  }

  lemma LogGrows(records: seq<Record>, r: Record, id: nat)
    ensures Posted(records + [r], id) <==> Posted(records, id) || Posts(r, id)
    ensures WasAccepted(records + [r], id) <==> WasAccepted(records, id) || Accepts(r, id)
    ensures WasRejected(records + [r], id) <==> WasRejected(records, id) || (Resolves(r, id) && r.action.Rejected?)
    ensures WasDismissed(records + [r], id) <==> WasDismissed(records, id) || (Resolves(r, id) && r.action.Dismissed?)
    ensures Unsettled(records + [r], id) <==> Unsettled(records, id) && !Settles(r, id)
  {
    hide Posts, Accepts, Resolves, Settles;
    var all := records + [r];
    assert all[|records|] == r && forall n :: 0 <= n < |records| ==> all[n] == records[n];
  }

  lemma StillOnce(records: seq<Record>, r: Record, id: nat)
    requires SettledAtMostOnce(records, id) && (Settles(r, id) ==> Unsettled(records, id))
    ensures SettledAtMostOnce(records + [r], id)
  {
    hide Settles;
  }

  lemma FateStep(records: seq<Record>, d: Doc, r: Record, id: nat)
    requires FateOk(records, d.suggestions, id) && Proper(d, r) && ApplyRecord(d, r).Ok?
    ensures FateOk(records + [r], ApplyRecord(d, r).value.suggestions, id)
  {
    StatusAfter(d, r, id);
    LogGrows(records, r, id);
    hide Proper, ApplyRecord, Posted, WasAccepted, WasRejected, WasDismissed, Unsettled, SettledAtMostOnce, Posts;
    if Settles(r, id) {
      assert Unsettled(records, id);
    }
    StillOnce(records, r, id);
  }

  lemma {:induction false} FatesKnown(records: seq<Record>, id: nat)
    requires ProperLog(records) && Replay(records).Ok?
    ensures FateOk(records, Replay(records).value.suggestions, id)
    decreases |records|
  {
    hide Proper, ApplyRecord, Settles, Open;
    if records == [] {
      assert Replay([]) == Ok(EmptyDoc);
    } else {
      var n := |records| - 1;
      var init, r := records[..n], records[n];
      assert records == init + [r];
      ReplayAppend(init, r);
      assert forall k :: 0 <= k < n ==> init[..k] == records[..k] && init[k] == records[k];
      FatesKnown(init, id);
      FateStep(init, Replay(init).value, r, id);
    }
  }

  /******* What the server writes *******/

  // One step writes nothing, one proper record, or loses the end of the batch.
  ghost predicate Writes(s: System, t: System) {
    || t.log + t.batch == s.log + s.batch
    || (exists r :: Proper(s.doc, r) && t.log + t.batch == s.log + s.batch + [r])
    || t.log + t.batch <= s.log + s.batch
  }

  lemma WritesOne(s: System, t: System, r: Record)
    requires Proper(s.doc, r) && t.log == s.log && t.batch == s.batch + [r]
    ensures Writes(s, t)
  {
    assert t.log + t.batch == s.log + s.batch + [r];
  }

  lemma SubmitWrites(s: System, x: nat, rev: nat, id: nat, op: Op)
    requires x < |s.conns|
    ensures Writes(s, HandleSubmit(s, x, rev, id, op))
  {
    hide CaughtUp, ApplyRecord, Writes;
    var t := HandleSubmit(s, x, rev, id, op);
    if t.log == s.log && t.batch == s.batch {
      SameWrites(s, t);
    } else {
      var caught := CaughtUp(s.doc, op, rev);
      WritesOne(s, t, OpRecord(|s.doc.history| + 1, caught.value, s.conns[x].user, Some(OpKey(s.conns[x].client, id)), None, None));
    }
  }

  lemma SameWrites(s: System, t: System)
    requires t.log == s.log && t.batch == s.batch
    ensures Writes(s, t)
  {
  }

  lemma ResolveWrites(s: System, x: nat, sid: nat, action: C.ResolveAction)
    requires x < |s.conns| && DocOk(s.doc)
    ensures Writes(s, HandleResolve(s, x, sid, action))
  {
    hide ApplyRecord, Writes, DocOk;
    var t := HandleResolve(s, x, sid, action);
    if t.log == s.log && t.batch == s.batch {
      SameWrites(s, t);
    } else {
      var sug := s.doc.suggestions[sid];
      assert sug.id == sid by { IdsAreKeys(s.doc, sid); }
      if action.Accept? {
        WritesOne(s, t, OpRecord(|s.doc.history| + 1, AcceptOp(sug, |s.doc.text|), sug.agent, None, Some(sug.id), Some(s.conns[x].user)));
      } else {
        WritesOne(s, t, ResRecord(sug.id, if sug.status.Stale? then Dismissed else Rejected, s.conns[x].user));
      }
    }
  }

  lemma IdsAreKeys(d: Doc, id: nat)
    requires DocOk(d) && id in d.suggestions
    ensures d.suggestions[id].id == id
  {
    hide Chain, Play, KeysDistinct, TableOk;
  }

  lemma ProposeWrites(s: System, read: AgentRead, draft: Suggestion, attempt: nat)
    requires DocOk(s.doc) && Numbered(s.doc.order) && s.nextSug == |s.doc.order|
    ensures Writes(s, HandlePropose(s, read, draft, attempt))
  {
    hide ApplyRecord, Writes, DocOk, RangeFrom;
    var t := HandlePropose(s, read, draft, attempt);
    if t.log == s.log && t.batch == s.batch {
      SameWrites(s, t);
    } else {
      var r := RangeFrom(s.doc, read.rev, read.start, read.end).value;
      Runs.FreshId(s.doc);
      WritesOne(s, t, SugRecord(draft.(
        id := s.nextSug + 1, start := r.start, end := r.end, original := read.text,
        status := if r.touched then Stale else Pending, resolvedBy := None)));
    }
  }

  lemma StepWrites(s: System, e: Event)
    requires SystemOk(s) && Enabled(s, e)
    ensures Writes(s, Step(s, e))
  {
    hide Replay, SystemOk, DocOk, HandleSubmit, HandleResolve, HandlePropose, HandleBeginRead, ApplyRecord, C.Receive, C.ApplyLocal, Writes;
    ServerSteps.SystemParts(s);
    DurableIsPrefix(s);
    var t := Step(s, e);
    match e
    case ServerReads(x) => ReadWrites(s, x);
    case Propose(read, draft, attempt) =>
      NextFree(s);
      ProposeWrites(s, s.readings[read], draft, attempt);
    case Flush => FlushWrites(s);
    case Fail(kept) => FailWrites(s, kept);
    case BeginRead(rev, start, end) => ReadingWrites(s, rev, start, end);
    case _ => SameWrites(s, t);
  }

  lemma NextFree(s: System)
    requires ServerOk(s)
    ensures s.nextSug == |s.doc.order|
  {
  }

  lemma ReadingWrites(s: System, rev: int, start: int, end: int)
    ensures Writes(s, HandleBeginRead(s, rev, start, end))
  {
    hide RangeFrom;
  }

  lemma FlushWrites(s: System)
    ensures Writes(s, FlushAll(s))
  {
    assert FlushAll(s).log + FlushAll(s).batch == s.log + s.batch;
  }

  lemma FailWrites(s: System, kept: nat)
    requires kept <= |s.batch|
    ensures Writes(s, FailAndReopen(s, kept))
  {
    hide Replay;
    var t := FailAndReopen(s, kept);
    if t != s {
      assert t.log + t.batch == s.log + s.batch[..kept];
      assert s.log + s.batch == s.log + s.batch[..kept] + s.batch[kept..];
    }
  }

  lemma ReadWrites(s: System, x: nat)
    requires Enabled(s, ServerReads(x)) && DocOk(s.doc)
    ensures Writes(s, Step(s, ServerReads(x)))
  {
    hide HandleSubmit, HandleResolve, DocOk, Writes, MissedOps;
    var k := s.conns[x];
    var m := k.toServer[0];
    var s1 := s.(conns := s.conns[x := k.(toServer := k.toServer[1..])]);
    var t := Step(s, ServerReads(x));
    if k.joined && !k.dropped && m.Submit? {
      SubmitWrites(s1, x, m.rev, m.id, m.op);
    } else if k.joined && !k.dropped && m.Resolve? {
      ResolveWrites(s1, x, m.sid, m.action);
    } else {
      SameWrites(s, t);
    }
    assert Writes(s1, t) ==> Writes(s, t) by { SameStart(s, s1, t); }
  }

  lemma SameStart(s: System, s1: System, t: System)
    requires s1.doc == s.doc && s1.log == s.log && s1.batch == s.batch
    ensures Writes(s1, t) ==> Writes(s, t)
  {
  }

  /******* Whole runs *******/

  lemma ProperLonger(records: seq<Record>, r: Record)
    requires ProperLog(records) && Replay(records).Ok? && Proper(Replay(records).value, r)
    ensures ProperLog(records + [r])
  {
    hide Proper;
    forall n | 0 <= n < |records + [r]| ensures Replay((records + [r])[..n]).Ok? && Proper(Replay((records + [r])[..n]).value, (records + [r])[n]) {
      if n < |records| {
        assert (records + [r])[..n] == records[..n];
      } else {
        assert (records + [r])[..n] == records;
      }
    }
  }

  lemma ProperShorter(records: seq<Record>, shorter: seq<Record>)
    requires ProperLog(records) && shorter <= records
    ensures ProperLog(shorter)
  {
    hide Proper;
    forall n | 0 <= n < |shorter| ensures Replay(shorter[..n]).Ok? && Proper(Replay(shorter[..n]).value, shorter[n]) {
      assert shorter[..n] == records[..n] && shorter[n] == records[n];
    }
  }

  lemma StepProper(s: System, e: Event)
    requires SystemOk(s) && Enabled(s, e) && ProperLog(s.log + s.batch)
    ensures ProperLog(Step(s, e).log + Step(s, e).batch)
  {
    hide SystemOk, Step, ProperLog, Proper, Replay;
    StepWrites(s, e);
    ServerSteps.SystemParts(s);
    var old', new' := s.log + s.batch, Step(s, e).log + Step(s, e).batch;
    if new' <= old' {
      ProperShorter(old', new');
    } else {
      var r :| Proper(s.doc, r) && new' == old' + [r];
      ProperLonger(old', r);
    }
  }

  lemma {:induction false} RunProper(s: System, events: seq<Event>)
    requires SystemOk(s) && CanRun(s, events) && ProperLog(s.log + s.batch)
    ensures ProperLog(After(s, events).log + After(s, events).batch)
    decreases |events|
  {
    hide SystemOk, Step, ProperLog, Enabled;
    if events != [] {
      StepProper(s, events[0]);
      Runs.StepKeeps(s, events[0]);
      RunProper(Step(s, events[0]), events[1..]);
    }
  }

  lemma FirstProper(s: System)
    requires Initial(s)
    ensures ProperLog(s.log + s.batch)
  {
    hide ApplyRecord;
    var title: string, seed: Text, author: Author :| Characters.Clean(seed) && s.log == FirstLog(title, seed, author);
    Runs.FirstRecordsOk(title, seed, author);
    assert s.log + s.batch == s.log;
    forall n | 0 <= n < |s.log| ensures Replay(s.log[..n]).Ok? && Proper(Replay(s.log[..n]).value, s.log[n]) {
      assert GoodReplay(s.log[..n]);
    }
  }

  // In every reachable state the log says what became of each suggestion: it is
  // there exactly if it was posted, no two records settle it, it is Accepted exactly
  // if an operation accepted it, Rejected or Dismissed exactly if a record says so,
  // and open otherwise.
  lemma SettledOnce(s: System, events: seq<Event>, id: nat)
    requires Initial(s) && CanRun(s, events)
    ensures var t := After(s, events); FateOk(t.log + t.batch, t.doc.suggestions, id)
  {
    hide SystemOk, ProperLog, FateOk, Initial, CanRun, Replay;
    var t := After(s, events);
    Runs.ReachableOk(s, events);
    Runs.InitialOk(s);
    FirstProper(s);
    RunProper(s, events);
    ServerSteps.SystemParts(t);
    FatesKnown(t.log + t.batch, id);
  }

  // Which edits change what a suggestion is about: one that removes a unit of its
  // range or puts text strictly inside, and for a range that is empty by now, one
  // that removes the units on both its sides.
  ghost predicate Spoils(o: Op, start: nat, end: nat) {
    if start < end then I.EditsInside(o, start, end)
    else 0 < start && I.Removes(o, start - 1) && I.Removes(o, start)
  }

  lemma EditMoves(d: Doc, r: Record, id: nat)
    requires DocOk(d) && r.OpRecord? && ApplyRecord(d, r).Ok? && DocOk(ApplyRecord(d, r).value)
    requires id in d.suggestions && Open(d.suggestions[id]) && !Accepts(r, id)
    ensures var e := ApplyRecord(d, r).value; var g := d.suggestions[id];
      && id in e.suggestions && var m := e.suggestions[id];
         && m.status == (if g.status.Stale? || Spoils(r.op, g.start, g.end) then Stale else Pending)
         && g.start <= g.end <= |d.text| && m.start <= m.end <= |e.text|
         && e.text[m.start..m.end] == if Spoils(r.op, g.start, g.end) then I.Edited(r.op, d.text, g.start, g.end) else d.text[g.start..g.end]
  {
    hide Run, RunAuthors, AuthorIndex, WithAuthor, MapRange, I.EditsInside, I.Removes, I.Edited, DocOk;
    var g := d.suggestions[id];
    Authorship.LastValid(d, r);
    AnchorIn(d, id);
    I.TouchedMeans(r.op, g.start, g.end);
    Authorship.NormalIsPositive(r.op);
    I.MapRangeHolds(r.op, d.text, g.start, g.end);
  }

  lemma AnchorIn(d: Doc, id: nat)
    requires DocOk(d) && id in d.suggestions && Open(d.suggestions[id])
    ensures d.suggestions[id].start <= d.suggestions[id].end <= |d.text|
  {
    hide Chain, TableOk, KeysDistinct, Characters.WellFormed;
  }

  // Along every log a reachable state has: an edit makes a pending suggestion stale
  // exactly if it spoils its text, and the suggestion's range always encloses what
  // the edit left there.
  lemma StaleExactly(s: System, events: seq<Event>, n: nat, id: nat)
    requires Initial(s) && CanRun(s, events)
    requires var all := After(s, events).log + After(s, events).batch; n < |all| && all[n].OpRecord? && !Accepts(all[n], id)
    ensures var all := After(s, events).log + After(s, events).batch;
      && Replay(all[..n]).Ok? && Replay(all[..n + 1]).Ok?
      && var d, e, o := Replay(all[..n]).value, Replay(all[..n + 1]).value, all[n].op;
         (id in e.suggestions <==> id in d.suggestions)
         && (id in d.suggestions && Open(d.suggestions[id]) ==>
              var g, m := d.suggestions[id], e.suggestions[id];
              && m.status == (if g.status.Stale? || Spoils(o, g.start, g.end) then Stale else Pending)
              && g.start <= g.end <= |d.text| && m.start <= m.end <= |e.text|
              && e.text[m.start..m.end] == if Spoils(o, g.start, g.end) then I.Edited(o, d.text, g.start, g.end) else d.text[g.start..g.end])
  {
    hide SystemOk, Initial, CanRun, Replay, ApplyRecord, DocOk, Spoils, Open, I.Edited;
    var t := After(s, events);
    Runs.ReachableOk(s, events);
    ServerSteps.SystemParts(t);
    var all := t.log + t.batch;
    assert GoodReplay(all[..n]) && GoodReplay(all[..n + 1]);
    assert all[..n + 1] == all[..n] + [all[n]];
    ReplayAppend(all[..n], all[n]);
    var d := Replay(all[..n]).value;
    SameIds(d, all[n], id);
    if id in d.suggestions && Open(d.suggestions[id]) {
      EditMoves(d, all[n], id);
    }
  }

  lemma SameIds(d: Doc, r: Record, id: nat)
    requires r.OpRecord? && ApplyRecord(d, r).Ok?
    ensures id in ApplyRecord(d, r).value.suggestions <==> id in d.suggestions
  {
    hide Run, RunAuthors, AuthorIndex, WithAuthor, MapRange;
  }

  // Commit k of later spoils the range as the commits before it have moved it.
  ghost predicate SpoiledBy(later: seq<Commit>, start: nat, end: nat, k: nat)
    requires k < |later|
  {
    Spoils(later[k].op, RangeThrough(later[..k], start, end).start, RangeThrough(later[..k], start, end).end)
  }

  // A range carried over commits counts as touched exactly if one of them spoils it.
  lemma {:induction false} TouchedExactly(doc: Text, later: seq<Commit>, start: nat, end: nat)
    requires Chain(doc, later) && start <= end <= |doc|
    ensures RangeThrough(later, start, end).touched <==> exists k :: 0 <= k < |later| && SpoiledBy(later, start, end, k)
    decreases |later|
  {
    hide Run, MapRange, Spoils;
    if later != [] {
      var o, rest := later[0].op, later[1..];
      var r := MapRange(o, start, end);
      FirstTouch(doc, o, start, end);
      TouchedExactly(Run(o, doc), rest, r.start, r.end);
      assert later[..0] == [];
      assert SpoiledBy(later, start, end, 0) <==> r.touched;
      forall k | 0 <= k < |rest| ensures SpoiledBy(rest, r.start, r.end, k) <==> SpoiledBy(later, start, end, k + 1) {
        assert later[..k + 1][1..] == rest[..k];
      }
      if RangeThrough(later, start, end).touched && !r.touched {
        var k :| 0 <= k < |rest| && SpoiledBy(rest, r.start, r.end, k);
        assert SpoiledBy(later, start, end, k + 1);
      }
      if k :| 0 <= k < |later| && SpoiledBy(later, start, end, k) {
        assert k > 0 ==> SpoiledBy(rest, r.start, r.end, k - 1);
      }
    }
  }

  lemma FirstTouch(doc: Text, o: Op, start: nat, end: nat)
    requires ValidOn(o, doc) && start <= end <= |doc|
    ensures MapRange(o, start, end).touched <==> Spoils(o, start, end)
    ensures MapRange(o, start, end).start <= MapRange(o, start, end).end <= |Run(o, doc)|
  {
    hide Run, MapRange, I.EditsInside, I.Removes;
    I.TouchedMeans(o, start, end);
    Authorship.NormalIsPositive(o);
    I.MapRangeHolds(o, doc, start, end);
  }

  /******* What people and agents achieve *******/

  // The server reads that somebody accepts a suggestion.
  ghost predicate ReadsResolve(s: System, x: nat, sid: nat, action: C.ResolveAction) {
    x < |s.conns| && Live(s.conns[x]) && s.conns[x].toServer != [] && s.conns[x].toServer[0] == C.Resolve(sid, action)
  }

  // In every reachable state, accepting a pending suggestion works, unless the
  // document would get too long: its text goes where the agent's text is, or right
  // behind it, and it is Accepted. Anything else changes nothing.
  lemma AcceptWorks(s: System, events: seq<Event>, x: nat, sid: nat)
    requires Initial(s) && CanRun(s, events) && ReadsResolve(After(s, events), x, sid, C.Accept)
    ensures var t := After(s, events); var d := t.doc; var e := Step(t, ServerReads(x)).doc;
      if sid in d.suggestions && d.suggestions[sid].status.Pending?
         && |d.text| + |d.suggestions[sid].text| - (if d.suggestions[sid].placement.PlaceAfter? then 0 else |d.suggestions[sid].original|) <= MaxDocUnits
      then
        var g := d.suggestions[sid];
        && g.start <= g.end <= |d.text|
        && e.text == d.text[..g.start] + (if g.placement.PlaceAfter? then g.original else []) + g.text + d.text[g.end..]
        && sid in e.suggestions && e.suggestions[sid].status.Accepted? && e.suggestions[sid].resolvedBy == Some(t.conns[x].user)
        && |e.history| == |d.history| + 1
      else e == d
  {
    hide SystemOk, CanRun, Initial, DocOk, Committable, ApplyRecord, AcceptOp, Announced, Replay;
    var t := After(s, events);
    Runs.ReachableOk(s, events);
    ServerSteps.SystemParts(t);
    DurableIsPrefix(t);
    var k := t.conns[x];
    var s1 := t.(conns := t.conns[x := k.(toServer := k.toServer[1..])]);
    assert Step(t, ServerReads(x)) == HandleResolve(s1, x, sid, C.Accept);
    if sid in t.doc.suggestions && t.doc.suggestions[sid].status.Pending? {
      AcceptEffect(s1, x, sid);
    }
  }

  lemma AcceptEffect(s: System, x: nat, sid: nat)
    requires x < |s.conns| && DocOk(s.doc) && sid in s.doc.suggestions && s.doc.suggestions[sid].status.Pending?
    ensures var d := s.doc; var g := d.suggestions[sid]; var e := HandleAccept(s, x, g).doc;
      && g.start <= g.end <= |d.text|
      && if |d.text| + |g.text| - (if g.placement.PlaceAfter? then 0 else |g.original|) <= MaxDocUnits then
           && e.text == d.text[..g.start] + (if g.placement.PlaceAfter? then g.original else []) + g.text + d.text[g.end..]
           && sid in e.suggestions && e.suggestions[sid].status.Accepted? && e.suggestions[sid].resolvedBy == Some(s.conns[x].user)
           && |e.history| == |d.history| + 1
         else e == d
  {
    hide DocOk, Run, BaseLen, TargetLen, RunAuthors, AuthorIndex, WithAuthor, MapRange, AcceptOp, Characters.WellFormed;
    var d, g := s.doc, s.doc.suggestions[sid];
    AcceptSound(d, sid);
    IdsAreKeys(d, sid);
    AcceptLength(g, d.text);
    FitsDoc(AcceptOp(g, |d.text|), d.text);
    assert |g.original| == g.end - g.start;
  }

  lemma FitsDoc(o: Op, text: Text)
    requires ValidOn(o, text)
    ensures BaseLen(o) == |text|
  {
  }

  lemma AcceptLength(g: Suggestion, text: Text)
    requires g.start <= g.end <= |text|
    ensures TargetLen(AcceptOp(g, |text|)) == |text| + |g.text| - if g.placement.PlaceAfter? then 0 else g.end - g.start
  {
    var start := if g.placement.PlaceAfter? then g.end else g.start;
    ReplaceOpSound(text, start, g.end, g.text);
  }

  // Rejecting an open suggestion settles it and leaves the text alone.
  lemma RejectWorks(s: System, events: seq<Event>, x: nat, sid: nat)
    requires Initial(s) && CanRun(s, events) && ReadsResolve(After(s, events), x, sid, C.Reject)
    ensures var t := After(s, events); var d := t.doc; var e := Step(t, ServerReads(x)).doc;
      && e.text == d.text && e.history == d.history
      && if sid in d.suggestions && Open(d.suggestions[sid])
         then sid in e.suggestions && e.suggestions[sid].resolvedBy == Some(t.conns[x].user)
              && e.suggestions[sid].status == if d.suggestions[sid].status.Stale? then Dismissed else Rejected
         else e == d
  {
    hide SystemOk, CanRun, Initial, DocOk, Replay;
    var t := After(s, events);
    Runs.ReachableOk(s, events);
    ServerSteps.SystemParts(t);
    DurableIsPrefix(t);
    var k := t.conns[x];
    var s1 := t.(conns := t.conns[x := k.(toServer := k.toServer[1..])]);
    assert Step(t, ServerReads(x)) == HandleResolve(s1, x, sid, C.Reject);
    if sid in t.doc.suggestions {
      IdsAreKeys(t.doc, sid);
    }
  }

  // An agent's result is posted under a new number, pending if nobody touched what
  // it read and stale otherwise, or the agent is asked to read again.
  lemma ProposeWorks(s: System, events: seq<Event>, read: nat, draft: Suggestion, attempt: nat)
    requires Initial(s) && CanRun(s, events) && Enabled(After(s, events), Propose(read, draft, attempt))
    ensures var t := After(s, events); var d := t.doc; var e := Step(t, Propose(read, draft, attempt)).doc;
      && read < |t.readings| && RangeFrom(d, t.readings[read].rev, t.readings[read].start, t.readings[read].end).Ok?
      && var r := RangeFrom(d, t.readings[read].rev, t.readings[read].start, t.readings[read].end).value; var id := |d.order| + 1;
         if r.touched && attempt < MaxAgentAttempts then e == d
         else id !in d.suggestions && e.order == d.order + [id] && e.text == d.text
              && e.suggestions == d.suggestions[id := draft.(id := id, start := r.start, end := r.end,
                   original := t.readings[read].text, status := if r.touched then Stale else Pending, resolvedBy := None)]
  {
    hide SystemOk, CanRun, Initial, DocOk, Replay, RangeFrom, Characters.WellFormed;
    var t := After(s, events);
    Runs.ReachableOk(s, events);
    ServerSteps.SystemParts(t);
    DurableIsPrefix(t);
    NextFree(t);
    Runs.FreshId(t.doc);
    ReadingIs(t, read);
    Runs.ProposedAnchor(t, t.readings[read]);
  }

  lemma ReadingIs(s: System, read: nat)
    requires ServerOk(s) && read < |s.readings|
    ensures ReadingOk(s.readings[read], s.doc.history)
  {
  }

  // An agent that asks for whole characters of any revision there was is shown where
  // they are now, and what they are.
  lemma BeginReadWorks(s: System, events: seq<Event>, rev: nat, start: nat, end: nat)
    requires Initial(s) && CanRun(s, events)
    requires var h := After(s, events).doc.history;
      && rev <= |h| && start <= end <= |TextAt(h, rev)|
      && Characters.WellFormed(TextAt(h, rev)[..start]) && Characters.WellFormed(TextAt(h, rev)[..end])
    ensures var t := After(s, events); var u := Step(t, BeginRead(rev, start, end));
      && RangeFrom(t.doc, rev, start, end).Ok?
      && var r := RangeFrom(t.doc, rev, start, end).value;
         && r.start <= r.end <= |t.doc.text| && u.doc == t.doc
         && u.readings == t.readings + [AgentRead(|t.doc.history|, r.start, r.end, t.doc.text[r.start..r.end])]
  {
    hide SystemOk, CanRun, Initial, DocOk, Replay, RangeFrom, Characters.WellFormed, Characters.InsidePair;
    var t := After(s, events);
    Runs.ReachableOk(s, events);
    ServerSteps.SystemParts(t);
    DurableIsPrefix(t);
    RangeFromSound(t.doc, rev, start, end);
    var r := RangeFrom(t.doc, rev, start, end).value;
    DocTextWellFormed(t.doc);
    Characters.BoundarySplits(t.doc.text, r.start);
    Characters.BoundarySplits(t.doc.text, r.end);
  }
}
