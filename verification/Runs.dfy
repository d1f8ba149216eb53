// Every run of a live document, and what follows for its users.
module Runs {
  import opened Results
  import opened Ops
  import opened Characters
  import opened Anchors
  import opened History
  import opened Document
  import opened Wire
  import opened LiveSystem
  import opened Convergence
  import ClientSteps
  import ServerSteps
  import C = Client

  /******* Batches *******/

  lemma ReleaseKeeps(c: C.State, i: nat, k: Conn, h: seq<Commit>, durable: seq<Commit>)
    requires ConnOk(k) && ConnTrue(k, durable, h)
    ensures ConnOk(Release(k)) && ConnTrue(Release(k), h, h)
    ensures CurrentOk(c, i, k, h) ==> CurrentOk(c, i, Release(k), h)
  {
    hide MsgTrue, RevisionOf;
    assert Stream(Release(k)) == Stream(k);
    assert Release(k).out == Stream(k);
  }

  lemma SameFlying(conns: seq<Conn>, conns': seq<Conn>, i: nat)
    requires |conns| == |conns'|
    requires forall x :: 0 <= x < |conns| ==>
      conns'[x].client == conns[x].client && conns'[x].toServer == conns[x].toServer && (conns[x].gone ==> conns'[x].gone)
    ensures FlyingOf(conns', i) <= FlyingOf(conns, i)
  {
  }

  lemma FlushStep(s: System)
    requires SystemOk(s)
    ensures SystemOk(FlushAll(s))
  {
    hide C.Core, CurrentOk, Replay, ConnOk, ConnTrue, FlyingOf, GoodLog, ReadingOk, Release;
    var t := FlushAll(s);
    ServerSteps.SystemParts(s);
    assert t.log + t.batch == s.log + s.batch;
    assert ServerOk(t);
    DurableIsPrefix(s);
    assert Durable(t) == s.doc.history by {
      assert t.log == s.log + s.batch;
    }
    forall x | 0 <= x < |t.conns| ensures t.conns[x].client == s.conns[x].client && t.conns[x].toServer == s.conns[x].toServer && t.conns[x].gone == s.conns[x].gone {
      ReleaseFields(s.conns[x]);
    }
    forall x | 0 <= x < |t.conns|
      ensures t.conns[x].client < |t.clients| && ConnOk(t.conns[x]) && ConnTrue(t.conns[x], Durable(t), t.doc.history)
    {
      GetConn(s, x);
      ReleaseKeeps(s.clients[s.conns[x].client], s.conns[x].client, s.conns[x], s.doc.history, Durable(s));
    }
    forall j | 0 <= j < |t.clients| ensures ClientOk(t.clients[j], j, t.conns, Durable(t), t.doc.history) {
      GetClient(s, j);
      var c := s.clients[j];
      SameFlying(s.conns, t.conns, j);
      C.FewerFlying(c, j, s.doc.history, FlyingOf(s.conns, j), FlyingOf(t.conns, j));
      if c.conn.Some? {
        GetConn(s, c.conn.value);
        ReleaseKeeps(c, j, s.conns[c.conn.value], s.doc.history, Durable(s));
      }
    }
  }

  lemma ReleaseFields(k: Conn)
    ensures Release(k).client == k.client && Release(k).toServer == k.toServer && Release(k).gone == k.gone
  {
  }

  /******* Failures *******/

  lemma CutOffKeeps(c: C.State, i: nat, k: Conn, h: seq<Commit>, h': seq<Commit>, durable: seq<Commit>)
    requires ConnOk(k) && ConnTrue(k, durable, h) && durable <= h'
    ensures ConnOk(CutOff(k)) && ConnTrue(CutOff(k), h', h')
    ensures CurrentOk(c, i, k, h) ==> CurrentOk(c, i, CutOff(k), h')
  {
    hide MsgTrue, RevisionOf;
    AllTrueOfLonger(k.out, k.client, durable, h');
    var k' := CutOff(k);
    assert Stream(k') == k.out;
    assert Stream(k)[..|k.out|] == k.out;
    assert forall j :: 0 <= j < |k.out| ==> Stream(k)[j] == k.out[j];
  }

  // The reopened log is a first part of what was being written, so it replays,
  // and to a history that goes at least as far as anyone was told.
  lemma ReopenedLog(s: System, kept: nat)
    requires ServerOk(s) && kept <= |s.batch|
    ensures var log := s.log + s.batch[..kept];
      && GoodLog(log) && Replay(log).Ok?
      && Durable(s) <= Replay(log).value.history <= s.doc.history
  {
    hide ApplyRecord, DocOk;
    var records, log := s.log + s.batch, s.log + s.batch[..kept];
    var n := |s.log| + kept;
    assert log == records[..n];
    assert GoodReplay(records[..n]);
    ReplayPrefix(EmptyDoc, records, n);
    assert log[..|s.log|] == s.log;
    ReplayPrefix(EmptyDoc, log, |s.log|);
    forall m | 0 <= m <= |log| ensures GoodReplay(log[..m]) {
      assert log[..m] == records[..m];
    }
  }

  lemma NothingFlies(conns: seq<Conn>, i: nat)
    requires forall x :: 0 <= x < |conns| ==> conns[x].gone
    ensures FlyingOf(conns, i) == {}
  {
  }

  lemma FailStep(s: System, kept: nat)
    requires SystemOk(s) && kept <= |s.batch|
    ensures SystemOk(FailAndReopen(s, kept))
  {
    hide C.Core, CurrentOk, Replay, ConnOk, ConnTrue, FlyingOf, GoodLog, CutOff, DocOk;
    var t := FailAndReopen(s, kept);
    ServerSteps.SystemParts(s);
    DurableIsPrefix(s);
    ReopenedLog(s, kept);
    assert t.log + t.batch == t.log;
    assert ServerOk(t);
    DurableIsPrefix(t);
    var h, h' := s.doc.history, t.doc.history;
    assert Durable(t) == h';
    ClientSteps.DocHistory(s.doc);
    forall x | 0 <= x < |t.conns| ensures t.conns[x].client == s.conns[x].client && t.conns[x].gone {
      CutOffFields(s.conns[x]);
    }
    forall x | 0 <= x < |t.conns|
      ensures t.conns[x].client < |t.clients| && ConnOk(t.conns[x]) && ConnTrue(t.conns[x], Durable(t), h')
    {
      GetConn(s, x);
      CutOffKeeps(s.clients[s.conns[x].client], s.conns[x].client, s.conns[x], h, h', Durable(s));
    }
    forall j | 0 <= j < |t.clients| ensures ClientOk(t.clients[j], j, t.conns, Durable(t), h') {
      GetClient(s, j);
      var c := s.clients[j];
      NothingFlies(t.conns, j);
      C.ShrinkCore(c, j, h, FlyingOf(s.conns, j), h');
      if c.conn.Some? {
        GetConn(s, c.conn.value);
        CutOffKeeps(c, j, s.conns[c.conn.value], h, h', Durable(s));
      }
    }
  }

  lemma CutOffFields(k: Conn)
    ensures CutOff(k).client == k.client && CutOff(k).gone
  {
  }

  lemma LeaveStep(s: System, x: nat)
    requires SystemOk(s) && x < |s.conns|
    ensures SystemOk(s.(conns := s.conns[x := s.conns[x].(gone := true)]))
  {
    hide Replay, ServerOk, MsgTrue, RevisionOf, C.Core, FlyingOf;
    var k := s.conns[x];
    GetConn(s, x);
    GetClient(s, k.client);
    var k' := k.(gone := true);
    assert Stream(k') == Stream(k);
    ServerSteps.ConnStep(s, x, k');
  }

  /******* Agents *******/

  lemma BeginReadStep(s: System, rev: int, start: int, end: int)
    requires SystemOk(s)
    ensures SystemOk(HandleBeginRead(s, rev, start, end))
  {
    hide Replay, ConnOk, ConnTrue, ClientOk, GoodLog, RangeFrom, WellFormed, DocOk, InsidePair;
    var t := HandleBeginRead(s, rev, start, end);
    if t != s {
      var r := RangeFrom(s.doc, rev, start, end).value;
      ServerSteps.SystemParts(s);
      DurableIsPrefix(s);
      ClientSteps.DocHistory(s.doc);
      DocTextWellFormed(s.doc);
      BoundarySplits(s.doc.text, r.start);
      BoundarySplits(s.doc.text, r.end);
      assert ServerOk(t);
    }
  }

  // What an agent offers is posted pending only if nothing edited what it read,
  // and then its anchor holds exactly that text.
  lemma ProposedAnchor(s: System, read: AgentRead)
    requires SystemOk(s) && ReadingOk(read, s.doc.history)
    ensures RangeFrom(s.doc, read.rev, read.start, read.end).Ok?
    ensures var r := RangeFrom(s.doc, read.rev, read.start, read.end).value;
      && r.start <= r.end <= |s.doc.text|
      && WellFormed(s.doc.text[..r.start]) && WellFormed(s.doc.text[..r.end])
      && (!r.touched ==> s.doc.text[r.start..r.end] == read.text)
  {
    hide Replay, GoodLog, RangeFrom, WellFormed, DocOk, ClientsOk, ConnsOk;
    DurableIsPrefix(s);
    RangeFromSound(s.doc, read.rev, read.start, read.end);
  }

  lemma ProposeStep(s: System, read: nat, draft: Suggestion, attempt: nat)
    requires SystemOk(s) && Enabled(s, Propose(read, draft, attempt))
    ensures SystemOk(HandlePropose(s, s.readings[read], draft, attempt))
  {
    hide Replay, ConnsOk, ClientsOk, GoodLog, RangeFrom, WellFormed, ReadingOk, Chain, Ops.Run, KeysDistinct, TableOk;
    var reading := s.readings[read];
    assert ReadingOk(reading, s.doc.history);
    ProposedAnchor(s, reading);
    DurableIsPrefix(s);
    var r := RangeFrom(s.doc, reading.rev, reading.start, reading.end).value;
    if !r.touched || attempt >= MaxAgentAttempts {
      var posted := draft.(
        id := s.nextSug + 1, start := r.start, end := r.end, original := reading.text,
        status := if r.touched then Stale else Pending, resolvedBy := None);
      FreshId(s.doc);
      assert posted.id !in s.doc.suggestions;
      ServerSteps.QuietRecordStep(s, SugRecord(posted), s.nextSug + 1);
    }
  }

  // Suggestions are numbered in order, so the next number is free.
  lemma FreshId(d: Doc)
    requires DocOk(d) && Numbered(d.order)
    ensures |d.order| + 1 !in d.suggestions
  {
    hide Chain, Play, KeysDistinct, TableOk, SuggestionsOk;
  }

  /******* All steps *******/

  lemma StepKeeps(s: System, e: Event)
    requires SystemOk(s) && Enabled(s, e)
    ensures SystemOk(Step(s, e))
  {
    hide SystemOk, FlushAll, FailAndReopen, HandleBeginRead, HandlePropose, DeliverToClient, DeliverToServer, ConnectClient, DropClient;
    match e
    case LocalEdit(i, op) => ClientSteps.LocalEditStep(s, i, op);
    case Connect(i, user) => ClientSteps.ConnectStep(s, i, user);
    case Drop(i, tooLarge) => ClientSteps.DropStep(s, i, tooLarge);
    case AskResolve(i, sid, action) => ClientSteps.AskResolveStep(s, i, sid, action);
    case ClientReceives(i) => ClientSteps.ReceiveStep(s, i);
    case ServerReads(x) => ServerSteps.ServerReadsStep(s, x);
    case Leave(x) => LeaveStep(s, x);
    case Flush => FlushStep(s);
    case Fail(kept) => FailStep(s, kept);
    case BeginRead(rev, start, end) => BeginReadStep(s, rev, start, end);
    case Propose(read, draft, attempt) => ProposeStep(s, read, draft, attempt);
  }

  lemma FirstRecordsOk(title: string, seed: Text, author: Author)
    requires Clean(seed)
    ensures GoodLog(FirstLog(title, seed, author))
    ensures Replay(FirstLog(title, seed, author)).Ok? && Replay(FirstLog(title, seed, author)).value.order == []
  {
    hide Ops.Run;
    var log := FirstLog(title, seed, author);
    var d0, d1 := EmptyDoc, EmptyDoc.(title := title);
    EmptyDocOk(title);
    assert log[..0] == [] && Replay([]) == Ok(d0);
    assert log[..1] == [Meta(title)];
    ReplayOne(d0, Meta(title));
    assert GoodReplay(log[..0]) && GoodReplay(log[..1]);
    if seed == [] {
      assert log == log[..1];
    } else {
      var r := OpRecord(1, [Insert(seed)], author, None, None, None);
      assert log == [Meta(title)] + [r] && log[..2] == log;
      ReplayAppend([Meta(title)], r);
      SeedValid(seed);
      ApplyKeepsDocOk(d1, r);
      assert GoodReplay(log[..2]);
    }
  }

  lemma SeedValid(seed: Text)
    requires Clean(seed) && seed != []
    ensures ValidOn([Insert(seed)], [])
  {
    LenSingle(Insert(seed));
    SafeSingle(Insert(seed), []);
  }

  lemma EmptyDocOk(title: string)
    ensures DocOk(EmptyDoc) && DocOk(EmptyDoc.(title := title))
  {
  }

  lemma NoKeysNoRevision(h: seq<Commit>, key: OpKey)
    requires forall k :: 0 <= k < |h| ==> h[k].key == None
    ensures RevisionOf(h, key) == 0
  {
  }

  lemma FreshClientOk(i: nat, h: seq<Commit>, durable: seq<Commit>)
    requires forall k :: 0 <= k < |h| ==> h[k].key == None
    ensures ClientOk(C.Fresh, i, [], durable, h)
  {
    forall id: nat ensures RevisionOf(h, OpKey(i, id)) == 0 {
      NoKeysNoRevision(h, OpKey(i, id));
    }
  }

  lemma InitialOk(s: System)
    requires Initial(s)
    ensures SystemOk(s)
  {
    hide DocOk, ClientOk, Ops.Run;
    var title: string, seed: Text, author: Author :| Clean(seed) && s.log == FirstLog(title, seed, author);
    FirstRecordsOk(title, seed, author);
    assert s.log + s.batch == s.log;
    assert ServerOk(s) by { hide Replay; }
    FirstHistory(title, seed, author);
    forall i | 0 <= i < |s.clients| ensures ClientOk(s.clients[i], i, s.conns, Durable(s), s.doc.history) {
      FreshClientOk(i, s.doc.history, Durable(s));
    }
  }

  lemma FirstHistory(title: string, seed: Text, author: Author)
    requires Clean(seed)
    ensures Replay(FirstLog(title, seed, author)).Ok?
    ensures var h := Replay(FirstLog(title, seed, author)).value.history; forall k :: 0 <= k < |h| ==> h[k].key == None
  {
    hide Ops.Run, RunAuthors;
    FirstRecordsOk(title, seed, author);
    var log := FirstLog(title, seed, author);
    ReplayOne(EmptyDoc, Meta(title));
    if seed != [] {
      var r := OpRecord(1, [Insert(seed)], author, None, None, None);
      assert log == [Meta(title)] + [r];
      ReplayAppend([Meta(title)], r);
    }
  }

  // Every state of every run is as it should be.
  lemma {:induction false} RunKeeps(s: System, events: seq<Event>)
    requires SystemOk(s) && CanRun(s, events)
    ensures SystemOk(After(s, events))
    decreases |events|
  {
    hide SystemOk, Step;
    if events != [] {
      StepKeeps(s, events[0]);
      RunKeeps(Step(s, events[0]), events[1..]);
    }
  }

  lemma ReachableOk(s: System, events: seq<Event>)
    requires Initial(s) && CanRun(s, events)
    ensures SystemOk(After(s, events))
  {
    hide SystemOk;
    InitialOk(s);
    RunKeeps(s, events);
  }

  /******* What users may rely on *******/

  // In every reachable state, a loaded client's text is the server's text at
  // the client's revision with outstanding and then buffer applied, the client
  // has never lost sync, and it has seen nothing that is not durable.
  lemma ClientsInStep(s: System, events: seq<Event>, i: nat)
    requires Initial(s) && CanRun(s, events) && i < |After(s, events).clients|
    ensures var t := After(s, events); var c := t.clients[i];
      && !c.desynced
      && (c.rev.Some? ==>
            && c.rev.value <= |Durable(t)| <= |t.doc.history|
            && c.text == C.RunPending(c.buffer, C.RunPending(C.OutstandingOp(c), TextAt(t.doc.history, c.rev.value)))
            && (c.outstanding.None? && c.rev.value == |t.doc.history| ==> c.text == t.doc.text))
  {
    hide Play, Ops.Run;
    var t := After(s, events);
    ReachableOk(s, events);
    GetClient(t, i);
    DurableIsPrefix(t);
    ClientSteps.DocHistory(t.doc);
  }

  // When a client's live connection has nothing left to deliver in either
  // direction, the client has the server's text and nothing is pending.
  lemma SettledClientsAgree(s: System, events: seq<Event>, i: nat)
    requires Initial(s) && CanRun(s, events) && i < |After(s, events).clients|
    requires var t := After(s, events); var c := t.clients[i];
      && c.ready && !c.resetNext && c.conn.Some? && c.conn.value < |t.conns|
      && Live(t.conns[c.conn.value]) && t.conns[c.conn.value].toServer == []
      && t.conns[c.conn.value].out == [] && t.conns[c.conn.value].pend == []
    ensures var t := After(s, events); var c := t.clients[i];
      && c.rev == Some(|t.doc.history|) && c.outstanding.None? && c.buffer.None? && c.text == t.doc.text
  {
    hide Play, Ops.Run, SystemOk;
    var t := After(s, events);
    ReachableOk(s, events);
    GetClient(t, i);
    var c := t.clients[i];
    ClientsInStep(s, events, i);
    assert C.CommittedOk(c, i, t.doc.history);
    assert OutstandingSent([], c, i, t.doc.history);
  }

  // No operation is committed twice, over any run of resends and restarts.
  lemma ExactlyOnce(s: System, events: seq<Event>, j: nat, k: nat)
    requires Initial(s) && CanRun(s, events)
    requires j < k < |After(s, events).doc.history| && After(s, events).doc.history[j].key.Some?
    ensures After(s, events).doc.history[j].key != After(s, events).doc.history[k].key
  {
    ReachableOk(s, events);
    DurableIsPrefix(After(s, events));
  }

  // When the server ignores a resend, the client has already processed its
  // commit, or the announcement is on its way on the client's connection.
  lemma IgnoredResendIsKnown(s: System, events: seq<Event>, i: nat)
    requires Initial(s) && CanRun(s, events) && i < |After(s, events).clients|
    requires var t := After(s, events); var c := t.clients[i];
      && c.ready && !c.resetNext && c.conn.Some? && c.conn.value < |t.conns|
      && var k := t.conns[c.conn.value];
         Live(k) && k.toServer != [] && k.toServer[0].Submit? && OpKey(i, k.toServer[0].id) in t.doc.opIDs
    ensures var t := After(s, events); var c := t.clients[i]; var k := t.conns[c.conn.value];
      var rev := t.doc.opIDs[OpKey(i, k.toServer[0].id)];
      && 0 < rev && c.rev.Some?
      && (rev <= c.rev.value
          || (exists j :: 0 <= j < |Stream(k)| && MsgRev(Stream(k)[j]) == rev
                && MsgTrue(Stream(k)[j], i, t.doc.history) && (Stream(k)[j].Ack? || Stream(k)[j].Broadcast?)))
  {
    hide SystemOk, MsgTrue, Play;
    var t := After(s, events);
    ReachableOk(s, events);
    GetClient(t, i);
    var c := t.clients[i];
    var k := t.conns[c.conn.value];
    GetConn(t, c.conn.value);
    ServerSteps.SystemParts(t);
    DurableIsPrefix(t);
    var rev := t.doc.opIDs[OpKey(i, k.toServer[0].id)];
    assert rev == RevisionOf(t.doc.history, OpKey(i, k.toServer[0].id)) by { TableAgrees(t.doc, OpKey(i, k.toServer[0].id)); }
    if rev > c.rev.value {
      assert 0 <= rev - c.rev.value - 1 < |Stream(k)|;
      assert MsgRev(Stream(k)[rev - c.rev.value - 1]) == rev;
    }
  }

  lemma TableAgrees(d: Doc, key: OpKey)
    requires DocOk(d) && key in d.opIDs
    ensures d.opIDs[key] == RevisionOf(d.history, key) > 0
  {
  }

  // Whenever an acknowledgement or echo is next in line, what it announces is
  // exactly the outstanding operation this client has rebased.
  lemma AcknowledgementAgrees(s: System, events: seq<Event>, i: nat)
    requires Initial(s) && CanRun(s, events) && i < |After(s, events).clients|
    requires var t := After(s, events); var c := t.clients[i];
      && c.ready && !c.resetNext && c.conn.Some? && c.conn.value < |t.conns| && c.outstanding.Some?
      && var k := t.conns[c.conn.value];
         && k.out != []
         && (k.out[0].Ack? || (k.out[0].Broadcast? && k.out[0].w.id == Some(c.outstanding.value.id)))
    ensures var t := After(s, events); var c := t.clients[i]; var m := t.conns[c.conn.value].out[0];
      && c.rev.Some? && c.rev.value < |t.doc.history|
      && MsgRev(m) == c.rev.value + 1
      && t.doc.history[c.rev.value].key == Some(C.KeyOf(i, c))
      && t.doc.history[c.rev.value].op == c.outstanding.value.op
  {
    hide SystemOk, Play, C.Core, Chain, KeysDistinct, DocOk, MsgTrue;
    var t := After(s, events);
    ReachableOk(s, events);
    GetClient(t, i);
    var c := t.clients[i];
    var x := c.conn.value;
    GetConn(t, x);
    ServerSteps.SystemParts(t);
    DurableIsPrefix(t);
    ClientSteps.DocHistory(t.doc);
    ClientSteps.FirstAnnounced(c, i, t.conns[x], t.doc.history);
    C.AcknowledgedIsCommitted(c, i, t.doc.history, FlyingOf(t.conns, i));
  }

  // Nothing is told to anyone before it is durable: every released message is
  // true of the history on disk, and what is on disk replays.
  lemma DurableBeforeVisible(s: System, events: seq<Event>, x: nat, k: nat)
    requires Initial(s) && CanRun(s, events)
    requires x < |After(s, events).conns| && k < |After(s, events).conns[x].out|
    ensures var t := After(s, events);
      && Replay(t.log).Ok?
      && MsgTrue(t.conns[x].out[k], t.conns[x].client, Replay(t.log).value.history)
  {
    hide SystemOk, MsgTrue;
    var t := After(s, events);
    ReachableOk(s, events);
    GetConn(t, x);
    ServerSteps.SystemParts(t);
    DurableIsPrefix(t);
  }

  // Replaying the log a session wrote, batch included, rebuilds its state.
  lemma ReplayEqualsLive(s: System, events: seq<Event>)
    requires Initial(s) && CanRun(s, events)
    ensures var t := After(s, events); Replay(t.log + t.batch) == Ok(t.doc)
    ensures var t := After(s, events); t.batch == [] ==> Replay(t.log) == Ok(t.doc)
  {
    hide SystemOk;
    var t := After(s, events);
    ReachableOk(s, events);
    ServerSteps.SystemParts(t);
    assert t.batch == [] ==> t.log + t.batch == t.log;
  }

  // The document holds whole characters, and a pending suggestion's range holds
  // exactly the text its agent read, in every reachable state.
  lemma PendingNeverDrifts(s: System, events: seq<Event>, id: nat)
    requires Initial(s) && CanRun(s, events)
    ensures WellFormed(After(s, events).doc.text)
    ensures var d := After(s, events).doc;
      id in d.suggestions && d.suggestions[id].status.Pending? ==>
        var g := d.suggestions[id];
        && g.start <= g.end <= |d.text| && d.text[g.start..g.end] == g.original
        && WellFormed(d.text[..g.start]) && WellFormed(d.text[..g.end])
  {
    hide WellFormed, Chain, Play, KeysDistinct, TableOk;
    var t := After(s, events);
    ReachableOk(s, events);
    ServerSteps.SystemParts(t);
    DurableIsPrefix(t);
    DocTextWellFormed(t.doc);
    if id in t.doc.suggestions && t.doc.suggestions[id].status.Pending? {
      assert Open(t.doc.suggestions[id]) && AnchorOk(t.doc.suggestions[id], t.doc.text);
    }
  }

  // Whatever happened in between, the server takes every new edit a client sends,
  // carried to the present, and refuses one only for its size.
  lemma OnlySizeRefuses(s: System, events: seq<Event>, x: nat)
    requires Initial(s) && CanRun(s, events) && x < |After(s, events).conns|
    requires var t := After(s, events); var k := t.conns[x];
      Live(k) && k.toServer != [] && k.toServer[0].Submit? && OpKey(k.client, k.toServer[0].id) !in t.doc.opIDs
    ensures var t := After(s, events); var k := t.conns[x]; var m := k.toServer[0]; var h := t.doc.history;
      && m.rev <= |h|
      && var op := CatchUp(m.op, h[m.rev..]); var d := Step(t, ServerReads(x)).doc;
         if Fits(m.op) && CatchUpWork(m.op, h[m.rev..]) <= MaxTransformWork && TargetLen(op) <= MaxDocUnits
         then d.text == Run(op, t.doc.text) && |d.history| == |h| + 1 && d.history[..|h|] == h
              && d.history[|h|].op == op && d.history[|h|].key == Some(OpKey(k.client, m.id))
         else d == t.doc
  {
    hide SystemOk, CatchUp, CatchUpWork, CaughtUp, CheckText, Fits, Ops.Run, TargetLen, Initial, CanRun, After;
    var t := After(s, events);
    ReachableOk(s, events);
    ServerSteps.SubmitCarries(t, x);
    var k, h := t.conns[x], t.doc.history;
    var m := k.toServer[0];
    var op, key := CatchUp(m.op, h[m.rev..]), OpKey(k.client, m.id);
    if Fits(m.op) && CatchUpWork(m.op, h[m.rev..]) <= MaxTransformWork && TargetLen(op) <= MaxDocUnits {
      var r := OpRecord(|h| + 1, op, k.user, Some(key), None, None);
      ServerSteps.SubmitCommits(t, x, op, r);
      ServerSteps.AnnouncedIs(t, x, op, Some(key), r);
      var commit := ServerSteps.AppendsCommit(t.doc, r);
    }
  }
}
