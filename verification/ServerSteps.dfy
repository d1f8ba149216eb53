// Steps the server takes, and its failures, keep the system as it should be.
module ServerSteps {
  import opened Results
  import opened Ops
  import opened Characters
  import opened Anchors
  import opened Wire
  import opened History
  import opened Document
  import opened LiveSystem
  import opened Convergence
  import ClientSteps
  import C = Client

  /******* Steps that concern one connection *******/

  lemma ConnFlying(conns: seq<Conn>, x: nat, k: Conn, i: nat)
    requires x < |conns| && k.client == conns[x].client
    requires forall m :: m in k.toServer ==> m in conns[x].toServer
    requires conns[x].gone ==> k.gone
    ensures FlyingOf(conns[x := k], i) <= FlyingOf(conns, i)
  {
  }

  // Connection x becomes k; nothing else changes.
  lemma ConnStep(s: System, x: nat, k: Conn)
    requires SystemOk(s) && x < |s.conns| && k.client == s.conns[x].client
    requires forall m :: m in k.toServer ==> m in s.conns[x].toServer
    requires s.conns[x].gone ==> k.gone
    requires ConnOk(k) && ConnTrue(k, Durable(s), s.doc.history)
    requires k.client < |s.clients| && s.clients[k.client].conn == Some(x) ==>
      CurrentOk(s.clients[k.client], k.client, k, s.doc.history)
    ensures SystemOk(s.(conns := s.conns[x := k]))
  {
    hide C.Core, CurrentOk, Replay, ConnOk, ConnTrue, ServerOk, FlyingOf;
    var t := s.(conns := s.conns[x := k]);
    assert ServerOk(s);
    SameServer(s, t);
    forall j | 0 <= j < |t.clients| ensures ClientOk(t.clients[j], j, t.conns, Durable(t), t.doc.history) {
      GetClient(s, j);
      var c := s.clients[j];
      ConnFlying(s.conns, x, k, j);
      C.FewerFlying(c, j, s.doc.history, FlyingOf(s.conns, j), FlyingOf(t.conns, j));
      if c.conn.Some? {
        CurrentClient(c, j, s.conns[c.conn.value], s.doc.history);
      }
    }
  }

  // The connection with its oldest message read.
  function Popped(k: Conn): Conn
    requires k.toServer != []
  {
    k.(toServer := k.toServer[1..])
  }

  lemma PoppedOk(k: Conn, durable: seq<Commit>, h: seq<Commit>)
    requires ConnOk(k) && ConnTrue(k, durable, h) && k.joined && k.toServer != []
    ensures ConnOk(Popped(k)) && ConnTrue(Popped(k), durable, h) && !k.toServer[0].Hello?
    ensures forall m :: m in Popped(k).toServer ==> m in k.toServer
  {
    hide MsgTrue;
  }

  // Reading a message that is not the client's only copy of its outstanding
  // operation, or reading on a connection that is no longer served.
  lemma PoppedCurrent(c: C.State, i: nat, k: Conn, h: seq<Commit>)
    requires CurrentOk(c, i, k, h) && k.joined && k.toServer != []
    requires Live(k) && k.toServer[0].Submit? ==> RevisionOf(h, OpKey(i, k.toServer[0].id)) > 0
    ensures CurrentOk(c, i, Popped(k), h)
  {
    hide RevisionOf, StreamFrom;
    var k' := Popped(k);
    assert Stream(k') == Stream(k);
    if c.ready && !c.resetNext && Live(k) && c.outstanding.Some? && RevisionOf(h, C.KeyOf(i, c)) == 0 {
      var j :| 0 <= j < |k.toServer| && k.toServer[j].Submit? && k.toServer[j].id == c.outstanding.value.id;
      assert j > 0 && k'.toServer[j - 1] == k.toServer[j];
    }
  }

  lemma PopStep(s: System, x: nat)
    requires SystemOk(s) && x < |s.conns| && s.conns[x].toServer != [] && s.conns[x].joined
    requires var k := s.conns[x];
      Live(k) && k.toServer[0].Submit? ==> RevisionOf(s.doc.history, OpKey(k.client, k.toServer[0].id)) > 0
    ensures SystemOk(s.(conns := s.conns[x := Popped(s.conns[x])]))
  {
    hide C.Core, CurrentOk, Replay, ConnOk, ConnTrue, ServerOk, FlyingOf, RevisionOf;
    var k := s.conns[x];
    GetConn(s, x);
    PoppedOk(k, Durable(s), s.doc.history);
    GetClient(s, k.client);
    if s.clients[k.client].conn == Some(x) {
      PoppedCurrent(s.clients[k.client], k.client, k, s.doc.history);
    }
    ConnStep(s, x, Popped(k));
  }

  /******* Refusals *******/

  function RefusedConn(k: Conn): Conn
    requires k.toServer != []
  {
    Tell(Popped(k).(dropped := true), C.Refused)
  }

  lemma RefusedOk(c: C.State, i: nat, k: Conn, durable: seq<Commit>, h: seq<Commit>)
    requires ConnOk(k) && ConnTrue(k, durable, h) && Live(k) && k.toServer != []
    ensures ConnOk(RefusedConn(k)) && ConnTrue(RefusedConn(k), durable, h)
    ensures forall m :: m in RefusedConn(k).toServer ==> m in k.toServer
    ensures CurrentOk(c, i, k, h) ==> CurrentOk(c, i, RefusedConn(k), h)
  {
    hide RevisionOf, CurrentOk;
    assert Stream(RefusedConn(k)) == Stream(k) + [C.Refused];
    if CurrentOk(c, i, k, h) {
      RefusedCurrent(c, i, k, h);
    }
  }

  lemma RefusedCurrent(c: C.State, i: nat, k: Conn, h: seq<Commit>)
    requires Live(k) && k.toServer != [] && CurrentOk(c, i, k, h)
    ensures CurrentOk(c, i, RefusedConn(k), h)
  {
    hide RevisionOf;
    var k' := RefusedConn(k);
    assert Stream(k') == Stream(k) + [C.Refused];
    if !c.ready {
      assert Stream(k')[1..] == Stream(k)[1..] + [C.Refused];
    }
  }

  lemma RejectStep(s: System, x: nat)
    requires SystemOk(s) && x < |s.conns| && s.conns[x].toServer != [] && Live(s.conns[x])
    ensures SystemOk(s.(conns := s.conns[x := RefusedConn(s.conns[x])]))
  {
    hide C.Core, CurrentOk, Replay, ConnOk, ConnTrue, ServerOk, FlyingOf, RefusedConn;
    var k := s.conns[x];
    GetConn(s, x);
    GetClient(s, k.client);
    RefusedOk(s.clients[k.client], k.client, k, Durable(s), s.doc.history);
    assert RefusedConn(k).client == k.client && RefusedConn(k).gone == k.gone by { RefusedFields(k); }
    ConnStep(s, x, RefusedConn(k));
  }

  lemma RefusedFields(k: Conn)
    requires k.toServer != []
    ensures RefusedConn(k).client == k.client && RefusedConn(k).gone == k.gone
  {
  }

  /******* Hello *******/

  function HelloReply(d: Doc, client: nat, known: Option<nat>): C.ServerMsg {
    if known.Some? && known.value <= |d.history| then C.Init(|d.history|, None, MissedOps(d.history, known.value, client))
    else C.Init(|d.history|, Some(d.text), [])
  }

  lemma HelloReplyTrue(d: Doc, client: nat, known: Option<nat>)
    requires DocOk(d)
    ensures MsgTrue(HelloReply(d, client, known), client, d.history)
  {
    hide Play, Chain;
    ClientSteps.DocHistory(d);
  }

  function WelcomedConn(k: Conn, m: C.ServerMsg): Conn
    requires k.toServer != []
  {
    Tell(Popped(k).(joined := true), m)
  }

  lemma WelcomedOk(c: C.State, i: nat, k: Conn, d: Doc, durable: seq<Commit>)
    requires ConnOk(k) && !k.joined && DocOk(d)
    requires var known := k.toServer[0].known; c.rev.Some? ==> c.rev.value <= |d.history|
    ensures var w := WelcomedConn(k, HelloReply(d, k.client, k.toServer[0].known));
      && ConnOk(w) && ConnTrue(w, durable, d.history)
      && (forall m :: m in w.toServer ==> m in k.toServer)
      && w.client == k.client && w.gone == k.gone
      && (CurrentOk(c, i, k, d.history) ==> CurrentOk(c, i, w, d.history))
  {
    hide MsgTrue, DocOk;
    var m := HelloReply(d, k.client, k.toServer[0].known);
    HelloReplyTrue(d, k.client, k.toServer[0].known);
    var w := WelcomedConn(k, m);
    assert Stream(w) == [m];
  }

  lemma HelloStep(s: System, x: nat)
    requires SystemOk(s) && x < |s.conns| && !s.conns[x].joined && s.conns[x].toServer != []
    requires s.conns[x].toServer[0].Hello?
    ensures SystemOk(s.(conns := s.conns[x := WelcomedConn(s.conns[x], HelloReply(s.doc, s.conns[x].client, s.conns[x].toServer[0].known))]))
  {
    hide CurrentOk, Replay, ConnOk, ConnTrue, ServerOk, FlyingOf, WelcomedConn, HelloReply, C.KeysKnown, C.CommittedOk, C.FlyingOk, DocOk;
    var k := s.conns[x];
    assert ServerOk(s);
    DurableIsPrefix(s);
    GetConn(s, x);
    GetClient(s, k.client);
    WelcomedOk(s.clients[k.client], k.client, k, s.doc, Durable(s));
    ConnStep(s, x, WelcomedConn(k, HelloReply(s.doc, k.client, k.toServer[0].known)));
  }

  /******* Committing *******/

  lemma ReadingOfLonger(r: AgentRead, h: seq<Commit>, longer: seq<Commit>)
    requires ReadingOk(r, h) && h <= longer
    ensures ReadingOk(r, longer)
  {
    hide Play, WellFormed;
    TextOfPrefix(h, longer, r.rev);
  }

  // The log with one more record still replays, all of it and every first part.
  lemma LogGrows(s: System, r: Record)
    requires ServerOk(s) && Committable(s.doc, r) && ApplyRecord(s.doc, r).Ok?
    requires Numbered(ApplyRecord(s.doc, r).value.order)
    ensures GoodLog(s.log + (s.batch + [r]))
    ensures Replay(s.log + (s.batch + [r])) == Ok(ApplyRecord(s.doc, r).value)
  {
    hide ApplyRecord, DocOk, Committable, ReplayOn, Numbered;
    var old', new' := s.log + s.batch, s.log + (s.batch + [r]);
    assert new' == old' + [r];
    ReplayAppend(old', r);
    DurableIsPrefix(s);
    ApplyKeepsDocOk(s.doc, r);
    forall n | 0 <= n <= |new'| ensures GoodReplay(new'[..n]) {
      if n <= |old'| {
        assert new'[..n] == old'[..n];
      } else {
        assert new'[..n] == new';
      }
    }
  }

  lemma RecordServerOk(s: System, t: System, r: Record)
    requires ServerOk(s) && Committable(s.doc, r) && ApplyRecord(s.doc, r).Ok?
    requires t.doc == ApplyRecord(s.doc, r).value && t.log == s.log && t.batch == s.batch + [r]
    requires t.readings == s.readings && t.nextSug == |t.doc.order| && Numbered(t.doc.order)
    requires s.doc.history <= t.doc.history
    ensures ServerOk(t) && Durable(t) == Durable(s)
  {
    hide ApplyRecord, Replay, GoodLog, ReadingOk, Committable, Numbered;
    LogGrows(s, r);
    forall k | 0 <= k < |t.readings| ensures ReadingOk(t.readings[k], t.doc.history) {
      ReadingOfLonger(s.readings[k], s.doc.history, t.doc.history);
    }
  }

  // A record that leaves the history alone concerns no connection.
  lemma QuietRecordStep(s: System, r: Record, nextSug: nat)
    requires SystemOk(s) && Committable(s.doc, r) && ApplyRecord(s.doc, r).Ok?
    requires ApplyRecord(s.doc, r).value.history == s.doc.history
    requires Numbered(ApplyRecord(s.doc, r).value.order) && nextSug == |ApplyRecord(s.doc, r).value.order|
    ensures SystemOk(s.(doc := ApplyRecord(s.doc, r).value, batch := s.batch + [r], nextSug := nextSug))
  {
    hide ApplyRecord, Replay, ServerOk, ConnOk, ConnTrue, ClientOk, Committable, Numbered;
    var t := s.(doc := ApplyRecord(s.doc, r).value, batch := s.batch + [r], nextSug := nextSug);
    RecordServerOk(s, t, r);
  }

  /******* Announcing a commit *******/

  // What the server just did, given the message it read.
  ghost predicate Commits(s: System, x: nat, op: Op, key: Option<OpKey>) {
    && x < |s.conns| && Live(s.conns[x]) && s.conns[x].toServer != []
    && var k := s.conns[x];
       var m := k.toServer[0];
       && (key.Some? ==>
             && m.Submit? && key.value == OpKey(k.client, m.id)
             && RevisionOf(s.doc.history, key.value) == 0
             && m.rev <= |s.doc.history| && op == CatchUp(m.op, s.doc.history[m.rev..]))
       && (key.None? ==> !m.Submit?)
  }

  function OriginOf(x: nat, key: Option<OpKey>): Option<nat> {
    if key.Some? then Some(x) else None
  }

  function AnnouncedConn(s: System, x: nat, y: nat, op: Op, key: Option<OpKey>): Conn
    requires x < |s.conns| && y < |s.conns| && s.conns[x].toServer != []
  {
    Announcement(if y == x then Popped(s.conns[x]) else s.conns[y], y, OriginOf(x, key), |s.doc.history| + 1, op, key)
  }

  lemma AnnouncedFields(s: System, x: nat, y: nat, op: Op, key: Option<OpKey>)
    requires Commits(s, x, op, key) && y < |s.conns|
    ensures var a, k := AnnouncedConn(s, x, y, op, key), s.conns[y];
      && a.client == k.client && a.out == k.out && a.gone == k.gone && a.joined == k.joined && a.dropped == k.dropped
      && a.toServer == (if y == x then k.toServer[1..] else k.toServer)
      && (!Live(k) ==> a.pend == k.pend)
      && (Live(k) ==> |a.pend| == |k.pend| + 1 && a.pend[..|k.pend|] == k.pend && Stream(a) == Stream(k) + [a.pend[|k.pend|]])
      && (Live(k) ==>
            var m := a.pend[|k.pend|];
            && MsgRev(m) == |s.doc.history| + 1
            && (if y == x && key.Some? then m == C.Ack(|s.doc.history| + 1, key.value.id)
                else m.Broadcast? && C.WireMatches(m.w, |s.doc.history| + 1, Commit(op, 0, key), k.client)))
  {
    hide RevisionOf, CatchUp;
  }

  lemma AnnouncedConnOk(s: System, x: nat, y: nat, op: Op, key: Option<OpKey>, h': seq<Commit>, durable: seq<Commit>)
    requires Commits(s, x, op, key) && y < |s.conns|
    requires ConnOk(s.conns[y]) && ConnTrue(s.conns[y], durable, s.doc.history)
    requires |h'| == |s.doc.history| + 1 && s.doc.history <= h' && h'[|h'| - 1].op == op && h'[|h'| - 1].key == key
    ensures ConnOk(AnnouncedConn(s, x, y, op, key)) && ConnTrue(AnnouncedConn(s, x, y, op, key), durable, h')
  {
    hide RevisionOf, CatchUp, MsgTrue;
    AnnouncedFields(s, x, y, op, key);
    var a, k := AnnouncedConn(s, x, y, op, key), s.conns[y];
    AllTrueOfLonger(Stream(k), k.client, s.doc.history, h');
    if Live(k) {
      NewMsgTrue(a.pend[|k.pend|], k.client, h');
      assert AllTrue(Stream(a), k.client, h');
    } else {
      assert Stream(a) == Stream(k);
    }
  }

  lemma NewMsgTrue(m: C.ServerMsg, client: nat, h: seq<Commit>)
    requires |h| > 0
    requires
      || (m.Broadcast? && C.WireMatches(m.w, |h|, h[|h| - 1], client))
      || (m.Ack? && m.rev == |h| && h[|h| - 1].key == Some(OpKey(client, m.id)))
    ensures MsgTrue(m, client, h)
  {
  }

  // The commit reaches a client that is still waiting for its init.
  lemma AnnouncedWaiting(s: System, x: nat, y: nat, op: Op, key: Option<OpKey>, c: C.State, h': seq<Commit>)
    requires Commits(s, x, op, key) && y < |s.conns| && WaitingOk(c, s.conns[y], s.doc.history)
    requires |h'| == |s.doc.history| + 1
    ensures WaitingOk(c, AnnouncedConn(s, x, y, op, key), h')
  {
    hide RevisionOf, CatchUp, C.WireMatches;
    AnnouncedFields(s, x, y, op, key);
    var a, k := AnnouncedConn(s, x, y, op, key), s.conns[y];
    if k.joined {
      assert NoSubmit(a.toServer);
      if Live(k) {
        assert Stream(a)[1..] == Stream(k)[1..] + [a.pend[|k.pend|]];
      } else {
        assert Stream(a) == Stream(k);
      }
    }
  }

  // The commit reaches a client in step.
  lemma AnnouncedReady(s: System, x: nat, y: nat, op: Op, key: Option<OpKey>, c: C.State, i: nat, h': seq<Commit>)
    requires Commits(s, x, op, key) && y < |s.conns| && s.conns[y].client == i && ReadyOk(c, i, s.conns[y], s.doc.history)
    requires |h'| == |s.doc.history| + 1 && s.doc.history <= h' && h'[|h'| - 1].key == key
    ensures ReadyOk(c, i, AnnouncedConn(s, x, y, op, key), h')
  {
    hide CatchUp, C.WireMatches, RevisionOf;
    AnnouncedFields(s, x, y, op, key);
    var a, k, h := AnnouncedConn(s, x, y, op, key), s.conns[y], s.doc.history;
    assert h' == h + [h'[|h|]];
    forall id: nat ensures RevisionOf(h', OpKey(i, id)) == if key == Some(OpKey(i, id)) then |h| + 1 else RevisionOf(h, OpKey(i, id)) {
      C.RevisionGrow(h, h'[|h|], OpKey(i, id));
    }
    if !Live(k) {
      assert Stream(a) == Stream(k);
    } else if !c.resetNext {
      if y == x && key.Some? {
        assert k.toServer[0].Submit? && k.toServer[0].id == key.value.id;
      }
      AnnouncedSubmits(s, x, y, op, key, c, i, h');
    }
  }

  lemma AnnouncedSubmits(s: System, x: nat, y: nat, op: Op, key: Option<OpKey>, c: C.State, i: nat, h': seq<Commit>)
    requires Commits(s, x, op, key) && y < |s.conns| && s.conns[y].client == i
    requires forall id: nat :: RevisionOf(h', OpKey(i, id)) == if key == Some(OpKey(i, id)) then |s.doc.history| + 1 else RevisionOf(s.doc.history, OpKey(i, id))
    requires SubmitsKnown(s.conns[y].toServer, c, i, s.doc.history) && OutstandingSent(s.conns[y].toServer, c, i, s.doc.history)
    ensures var queue := if y == x then s.conns[y].toServer[1..] else s.conns[y].toServer;
      SubmitsKnown(queue, c, i, h') && OutstandingSent(queue, c, i, h')
  {
    hide CatchUp, RevisionOf;
    var before, h := s.conns[y].toServer, s.doc.history;
    var queue := if y == x then before[1..] else before;
    if c.outstanding.Some? && RevisionOf(h', C.KeyOf(i, c)) == 0 {
      var j :| 0 <= j < |before| && before[j].Submit? && before[j].id == c.outstanding.value.id;
      if y == x {
        assert j > 0 && queue[j - 1] == before[j];
      } else {
        assert queue[j] == before[j];
      }
    }
  }

  lemma AnnouncedFlying(s: System, x: nat, op: Op, key: Option<OpKey>, conns': seq<Conn>, i: nat)
    requires Commits(s, x, op, key) && |conns'| == |s.conns|
    requires forall y :: 0 <= y < |conns'| ==> conns'[y] == AnnouncedConn(s, x, y, op, key)
    ensures FlyingOf(conns', i) <= FlyingOf(s.conns, i)
  {
    hide CatchUp, RevisionOf, AnnouncedConn;
    forall y | 0 <= y < |conns'|
      ensures conns'[y].client == s.conns[y].client && conns'[y].gone == s.conns[y].gone
      ensures forall m :: m in conns'[y].toServer ==> m in s.conns[y].toServer
    {
      AnnouncedFields(s, x, y, op, key);
    }
  }

  // Client j after a commit.
  lemma AnnouncedClient(s: System, x: nat, op: Op, key: Option<OpKey>, t: System, commit: Commit, j: nat)
    requires SystemOk(s) && Commits(s, x, op, key) && j < |s.clients|
    requires commit.op == op && commit.key == key
    requires t.clients == s.clients && t.doc.history == s.doc.history + [commit] && Durable(t) == Durable(s)
    requires |t.conns| == |s.conns| && forall y :: 0 <= y < |t.conns| ==> t.conns[y] == AnnouncedConn(s, x, y, op, key)
    ensures ClientOk(t.clients[j], j, t.conns, Durable(t), t.doc.history)
  {
    hide C.Core, Replay, ConnOk, ConnTrue, ServerOk, FlyingOf, AnnouncedConn, ReadyOk, WaitingOk, RevisionOf, CatchUp, DocOk;
    var c, h, h' := s.clients[j], s.doc.history, t.doc.history;
    GetClient(s, j);
    assert ServerOk(s);
    DurableIsPrefix(s);
    ClientSteps.DocHistory(s.doc);
    if key.Some? && key.value.client == j {
      var m := s.conns[x].toServer[0];
      InFlying(s.conns, x, m);
      C.CopyCommits(c, j, h, FlyingOf(s.conns, j), m);
    }
    C.GrowCore(c, j, h, FlyingOf(s.conns, j), commit);
    AnnouncedFlying(s, x, op, key, t.conns, j);
    C.FewerFlying(c, j, h', FlyingOf(s.conns, j), FlyingOf(t.conns, j));
    if c.conn.Some? {
      var y := c.conn.value;
      AnnouncedFields(s, x, y, op, key);
      if c.ready {
        AnnouncedReady(s, x, y, op, key, c, j, h');
      } else {
        AnnouncedWaiting(s, x, y, op, key, c, h');
      }
    }
  }

  lemma InFlying(conns: seq<Conn>, x: nat, m: C.ClientMsg)
    requires x < |conns| && !conns[x].gone && m in conns[x].toServer
    ensures m in FlyingOf(conns, conns[x].client)
  {
  }

  // One commit, announced to everyone.
  lemma CommitStep(s: System, x: nat, op: Op, key: Option<OpKey>, r: Record, t: System)
    requires SystemOk(s) && Commits(s, x, op, key)
    requires r.OpRecord? && r.op == op && r.key == key && Committable(s.doc, r) && ApplyRecord(s.doc, r).Ok?
    requires t.doc == ApplyRecord(s.doc, r).value && t.log == s.log && t.batch == s.batch + [r]
    requires t.readings == s.readings && t.nextSug == s.nextSug && t.clients == s.clients
    requires |t.conns| == |s.conns| && forall y :: 0 <= y < |t.conns| ==> t.conns[y] == AnnouncedConn(s, x, y, op, key)
    ensures SystemOk(t)
  {
    hide Replay, ConnOk, ConnTrue, ServerOk, AnnouncedConn, ClientOk, DocOk, Committable, ApplyRecord, Commits;
    assert ServerOk(s);
    DurableIsPrefix(s);
    var commit := AppendsCommit(s.doc, r);
    assert s.nextSug == |s.doc.order| by { ServerParts(s); }
    RecordServerOk(s, t, r);
    forall j | 0 <= j < |t.clients| ensures ClientOk(t.clients[j], j, t.conns, Durable(t), t.doc.history) {
      AnnouncedClient(s, x, op, key, t, commit, j);
    }
    forall y | 0 <= y < |t.conns|
      ensures t.conns[y].client < |t.clients| && ConnOk(t.conns[y]) && ConnTrue(t.conns[y], Durable(t), t.doc.history)
    {
      GetConn(s, y);
      AnnouncedFields(s, x, y, op, key);
      AnnouncedConnOk(s, x, y, op, key, t.doc.history, Durable(s));
    }
  }

  lemma ServerParts(s: System)
    requires ServerOk(s)
    ensures s.nextSug == |s.doc.order|
  {
  }

  lemma AppendsCommit(d: Doc, r: Record) returns (commit: Commit)
    requires r.OpRecord? && ApplyRecord(d, r).Ok?
    ensures commit.op == r.op && commit.key == r.key
    ensures ApplyRecord(d, r).value.history == d.history + [commit]
    ensures ApplyRecord(d, r).value.order == d.order
  {
    commit := Commit(r.op, AuthorIndex(d.authors, r.author), r.key);
  }

  /******* Reading a message *******/

  lemma SubmitStep(s: System, x: nat)
    requires SystemOk(s) && x < |s.conns| && Live(s.conns[x]) && s.conns[x].toServer != [] && s.conns[x].toServer[0].Submit?
    ensures SystemOk(DeliverToServer(s, x))
  {
    hide Replay, ConnOk, ConnTrue, ServerOk, ClientOk, DocOk, Committable, ApplyRecord, CaughtUp, CheckText, AnnouncedConn, RevisionOf, SystemOk;
    var k := s.conns[x];
    var m := k.toServer[0];
    var s1 := s.(conns := s.conns[x := Popped(k)]);
    var t := DeliverToServer(s, x);
    assert t == HandleSubmit(s1, x, m.rev, m.id, m.op);
    var key := OpKey(k.client, m.id);
    SystemParts(s);
    DurableIsPrefix(s);
    TableSays(s.doc, key);
    var caught := CaughtUp(s.doc, m.op, m.rev);
    if !Fits(m.op) {
      RejectStep(s, x);
      RejectIs(s, x);
    } else if key in s.doc.opIDs {
      PopStep(s, x);
    } else if caught.Err? || TargetLen(caught.value) > MaxDocUnits || !CheckText(caught.value, s.doc.text).TextOk? {
      RejectStep(s, x);
      RejectIs(s, x);
    } else {
      var r := OpRecord(|s.doc.history| + 1, caught.value, k.user, Some(key), None, None);
      SubmitCommits(s, x, caught.value, r);
      AnnouncedIs(s, x, caught.value, Some(key), r);
      CommitStep(s, x, caught.value, Some(key), r, t);
    }
  }

  lemma SystemParts(s: System)
    requires SystemOk(s)
    ensures ServerOk(s)
  {
  }

  lemma TableSays(d: Doc, key: OpKey)
    requires DocOk(d)
    ensures key in d.opIDs <==> RevisionOf(d.history, key) > 0
  {
  }

  lemma RejectIs(s: System, x: nat)
    requires x < |s.conns| && s.conns[x].toServer != []
    ensures Reject(s.(conns := s.conns[x := Popped(s.conns[x])]), x) == s.(conns := s.conns[x := RefusedConn(s.conns[x])])
  {
  }

  // A client's operation that passes the length check commits: it is what the
  // document needs, and its key is new.
  lemma SubmitCommits(s: System, x: nat, op: Op, r: Record)
    requires SystemOk(s) && x < |s.conns| && Live(s.conns[x]) && s.conns[x].toServer != [] && s.conns[x].toServer[0].Submit?
    requires var m := s.conns[x].toServer[0];
      && OpKey(s.conns[x].client, m.id) !in s.doc.opIDs
      && CaughtUp(s.doc, m.op, m.rev) == Ok(op)
      && r == OpRecord(|s.doc.history| + 1, op, s.conns[x].user, Some(OpKey(s.conns[x].client, m.id)), None, None)
    ensures Commits(s, x, op, r.key) && Committable(s.doc, r) && ApplyRecord(s.doc, r).Ok?
  {
    hide Replay, ConnOk, ConnTrue, CurrentOk, DocOk, C.Core, FlyingOf, ServerOk, RevisionOf, CatchUp, Ops.Run, Safe, Normal, RunAuthors, CatchUpWork;
    var k, h := s.conns[x], s.doc.history;
    var m := k.toServer[0];
    GetConn(s, x);
    GetClient(s, k.client);
    assert ServerOk(s);
    DurableIsPrefix(s);
    ClientSteps.DocHistory(s.doc);
    TableSays(s.doc, OpKey(k.client, m.id));
    InFlying(s.conns, x, m);
    C.CopyCommits(s.clients[k.client], k.client, h, FlyingOf(s.conns, k.client), m);
  }

  // A new operation in flight names a revision the server has and fits its
  // document there, so only the cost of carrying it here can be against it.
  lemma SubmitCarries(s: System, x: nat)
    requires SystemOk(s) && x < |s.conns| && Live(s.conns[x]) && s.conns[x].toServer != [] && s.conns[x].toServer[0].Submit?
    requires OpKey(s.conns[x].client, s.conns[x].toServer[0].id) !in s.doc.opIDs
    ensures var m := s.conns[x].toServer[0]; var h := s.doc.history;
      && m.rev <= |h|
      && CaughtUp(s.doc, m.op, m.rev)
         == (if CatchUpWork(m.op, h[m.rev..]) > MaxTransformWork then Err(TooStale) else Ok(CatchUp(m.op, h[m.rev..])))
      && CheckText(CatchUp(m.op, h[m.rev..]), s.doc.text).TextOk?
  {
    hide Replay, ConnOk, ConnTrue, CurrentOk, C.Core, FlyingOf, ServerOk, RevisionOf, CatchUp, Ops.Run, Safe, Normal, RunAuthors, CatchUpWork, CheckText;
    var k, h := s.conns[x], s.doc.history;
    var m := k.toServer[0];
    GetConn(s, x);
    GetClient(s, k.client);
    assert ServerOk(s);
    DurableIsPrefix(s);
    ClientSteps.DocHistory(s.doc);
    TableSays(s.doc, OpKey(k.client, m.id));
    InFlying(s.conns, x, m);
    C.CopyCommits(s.clients[k.client], k.client, h, FlyingOf(s.conns, k.client), m);
    C.CopyFits(s.clients[k.client], k.client, h, FlyingOf(s.conns, k.client), m);
    LengthAtSound(s.doc, m.rev);
    DocTextWellFormed(s.doc);
    var op := CatchUp(m.op, h[m.rev..]);
    SafeInserts(op, s.doc.text);
    CheckTextIffSafe(op, s.doc.text);
  }

  // The connections after announcing are the announced ones.
  lemma AnnouncedIs(s: System, x: nat, op: Op, key: Option<OpKey>, r: Record)
    requires x < |s.conns| && s.conns[x].toServer != [] && r.OpRecord? && ApplyRecord(s.doc, r).Ok?
    ensures var s1 := s.(conns := s.conns[x := Popped(s.conns[x])]);
      var done := CommitRecord(s1, r);
      && done.Some?
      && var t := Announced(done.value, OriginOf(x, key), op, key);
         && t.doc == ApplyRecord(s.doc, r).value && t.log == s.log && t.batch == s.batch + [r]
         && t.readings == s.readings && t.nextSug == s.nextSug && t.clients == s.clients
         && |t.conns| == |s.conns|
         && forall y :: 0 <= y < |t.conns| ==> t.conns[y] == AnnouncedConn(s, x, y, op, key)
  {
    hide ApplyRecord;
    var commit := AppendsCommit(s.doc, r);
  }

  lemma ResolveStep(s: System, x: nat)
    requires SystemOk(s) && x < |s.conns| && Live(s.conns[x]) && s.conns[x].toServer != [] && s.conns[x].toServer[0].Resolve?
    ensures SystemOk(DeliverToServer(s, x))
  {
    hide Replay, ConnOk, ConnTrue, ServerOk, ClientOk, DocOk, Committable, ApplyRecord, AnnouncedConn, SystemOk, AcceptOp;
    var k := s.conns[x];
    var m := k.toServer[0];
    var s1 := s.(conns := s.conns[x := Popped(k)]);
    var t := DeliverToServer(s, x);
    assert t == HandleResolve(s1, x, m.sid, m.action);
    PopStep(s, x);
    if m.sid in s.doc.suggestions {
      var sug := s.doc.suggestions[m.sid];
      if m.action.Accept? {
        AcceptStep(s, x, m.sid);
      } else {
        RejectSuggestionStep(s1, x, m.sid);
      }
    }
  }

  lemma AcceptStep(s: System, x: nat, sid: nat)
    requires SystemOk(s) && x < |s.conns| && Live(s.conns[x]) && s.conns[x].toServer != [] && s.conns[x].toServer[0].Resolve?
    requires sid in s.doc.suggestions
    requires SystemOk(s.(conns := s.conns[x := Popped(s.conns[x])]))
    ensures SystemOk(HandleAccept(s.(conns := s.conns[x := Popped(s.conns[x])]), x, s.doc.suggestions[sid]))
  {
    hide Replay, ConnOk, ConnTrue, ServerOk, ClientOk, DocOk, Committable, ApplyRecord, AnnouncedConn, SystemOk, AcceptOp;
    var sug := s.doc.suggestions[sid];
    var s1 := s.(conns := s.conns[x := Popped(s.conns[x])]);
    SystemParts(s);
    DurableIsPrefix(s);
    if sug.status.Pending? && sug.start <= sug.end <= |s.doc.text| {
      var op := AcceptOp(sug, |s.doc.text|);
      var r := OpRecord(|s.doc.history| + 1, op, sug.agent, None, Some(sug.id), Some(s1.conns[x].user));
      AcceptCommits(s.doc, sid, r);
      if TargetLen(op) <= MaxDocUnits && ApplyRecord(s.doc, r).Ok? {
        AnnouncedIs(s, x, op, None, r);
        CommitStep(s, x, op, None, r, HandleAccept(s1, x, sug));
      }
    }
  }

  lemma AcceptCommits(d: Doc, sid: nat, r: Record)
    requires DocOk(d) && sid in d.suggestions && d.suggestions[sid].status.Pending?
    requires var sug := d.suggestions[sid];
      && sug.start <= sug.end <= |d.text|
      && r.OpRecord? && r.op == AcceptOp(sug, |d.text|) && r.key == None
    ensures Committable(d, r)
  {
    AcceptSound(d, sid);
  }

  lemma RejectSuggestionStep(s: System, x: nat, sid: nat)
    requires SystemOk(s) && x < |s.conns| && sid in s.doc.suggestions
    ensures SystemOk(HandleReject(s, x, s.doc.suggestions[sid]))
  {
    hide Replay, ConnOk, ConnTrue, ClientOk, DocOk;
    var sug := s.doc.suggestions[sid];
    if Open(sug) {
      var action := if sug.status.Stale? then Dismissed else Rejected;
      var r := ResRecord(sug.id, action, s.conns[x].user);
      if ApplyRecord(s.doc, r).Ok? {
        DurableIsPrefix(s);
        QuietRecordStep(s, r, s.nextSug);
      }
    }
  }

  lemma ServerReadsStep(s: System, x: nat)
    requires SystemOk(s) && Enabled(s, ServerReads(x))
    ensures SystemOk(DeliverToServer(s, x))
  {
    hide Replay, ConnTrue, ServerOk, ClientOk, DocOk, SystemOk, HandleSubmit, HandleResolve;
    var k := s.conns[x];
    GetConn(s, x);
    if k.dropped {
      PopStep(s, x);
    } else if !k.joined {
      HelloStep(s, x);
      HelloIs(s, x);
    } else if k.toServer[0].Submit? {
      SubmitStep(s, x);
    } else {
      ResolveStep(s, x);
    }
  }

  lemma HelloIs(s: System, x: nat)
    requires x < |s.conns| && s.conns[x].toServer != [] && !s.conns[x].joined && !s.conns[x].dropped && s.conns[x].toServer[0].Hello?
    ensures DeliverToServer(s, x)
      == s.(conns := s.conns[x := WelcomedConn(s.conns[x], HelloReply(s.doc, s.conns[x].client, s.conns[x].toServer[0].known))])
  {
  }
}
