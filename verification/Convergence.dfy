// What every reachable state of a live document satisfies.
module Convergence {
  import opened Results
  import opened Characters
  import opened History
  import opened Document
  import opened LiveSystem
  import C = Client

  /******* Messages tell the truth *******/

  function MsgRev(m: C.ServerMsg): nat {
    match m
    case Init(rev, _, _) => rev
    case Broadcast(w) => w.rev
    case Ack(rev, _) => rev
    case Refused => 0
  }

  // What a message to client i says is so in history h.
  ghost predicate MsgTrue(m: C.ServerMsg, i: nat, h: seq<Commit>) {
    match m
    case Broadcast(w) => 0 < w.rev <= |h| && C.WireMatches(w, w.rev, h[w.rev - 1], i)
    case Ack(rev, id) => 0 < rev <= |h| && h[rev - 1].key == Some(OpKey(i, id))
    case Init(rev, text, ops) =>
      && rev <= |h|
      && (text.Some? ==> text.value == TextAt(h, rev))
      && (text.None? ==> |ops| <= rev && C.OpsMatch(ops, rev - |ops|, h, i))
    case Refused => true
  }

  lemma TrueOfLonger(m: C.ServerMsg, i: nat, h: seq<Commit>, longer: seq<Commit>)
    requires MsgTrue(m, i, h) && h <= longer
    ensures MsgTrue(m, i, longer)
  {
    hide Play;
    match m
    case Init(rev, text, ops) =>
      TextOfPrefix(h, longer, rev);
      if text.None? {
        forall k | 0 <= k < |ops| ensures C.WireMatches(ops[k], rev - |ops| + k + 1, longer[rev - |ops| + k], i) {
          assert C.WireMatches(ops[k], rev - |ops| + k + 1, h[rev - |ops| + k], i);
        }
      }
    case Broadcast(w) => assert longer[w.rev - 1] == h[w.rev - 1];
    case Ack(rev, _) => assert longer[rev - 1] == h[rev - 1];
    case Refused =>
  }

  ghost predicate AllTrue(msgs: seq<C.ServerMsg>, i: nat, h: seq<Commit>) {
    forall k :: 0 <= k < |msgs| ==> MsgTrue(msgs[k], i, h)
  }

  lemma AllTrueOfLonger(msgs: seq<C.ServerMsg>, i: nat, h: seq<Commit>, longer: seq<Commit>)
    requires AllTrue(msgs, i, h) && h <= longer
    ensures AllTrue(msgs, i, longer)
  {
    hide MsgTrue;
    forall k | 0 <= k < |msgs| ensures MsgTrue(msgs[k], i, longer) {
      TrueOfLonger(msgs[k], i, h, longer);
    }
  }

  /******* Streams *******/

  // Announcements of revisions from + 1, from + 2, ..., perhaps ended by a refusal.
  predicate StreamFrom(s: seq<C.ServerMsg>, from: nat) {
    forall k :: 0 <= k < |s| ==>
      || (s[k].Refused? && k == |s| - 1)
      || ((s[k].Broadcast? || s[k].Ack?) && MsgRev(s[k]) == from + k + 1)
  }

  // The stream reaches the server's newest revision, n.
  predicate Complete(s: seq<C.ServerMsg>, from: nat, n: nat) {
    && from + |s| == n
    && forall k :: 0 <= k < |s| ==> !s[k].Refused?
  }

  predicate NoInit(s: seq<C.ServerMsg>) { forall k :: 0 <= k < |s| ==> !s[k].Init? }

  predicate NoAck(s: seq<C.ServerMsg>) { forall k :: 0 <= k < |s| ==> !s[k].Ack? }

  predicate NoHello(s: seq<C.ClientMsg>) { forall k :: 0 <= k < |s| ==> !s[k].Hello? }

  predicate NoSubmit(s: seq<C.ClientMsg>) { forall k :: 0 <= k < |s| ==> !s[k].Submit? }

  // Acknowledgements are for the operation this client is waiting on.
  predicate AcksMine(s: seq<C.ServerMsg>, c: C.State) {
    forall k :: 0 <= k < |s| && s[k].Ack? ==> c.outstanding.Some? && s[k].id == c.outstanding.value.id
  }

  // Operations still to be read are the outstanding one or were committed.
  ghost predicate SubmitsKnown(s: seq<C.ClientMsg>, c: C.State, i: nat, h: seq<Commit>) {
    forall k :: 0 <= k < |s| && s[k].Submit? ==>
      || (c.outstanding.Some? && s[k].id == c.outstanding.value.id)
      || RevisionOf(h, OpKey(i, s[k].id)) > 0
  }

  // The outstanding operation is on its way, or was committed.
  ghost predicate OutstandingSent(s: seq<C.ClientMsg>, c: C.State, i: nat, h: seq<Commit>) {
    c.outstanding.Some? ==>
      || (exists k :: 0 <= k < |s| && s[k].Submit? && s[k].id == c.outstanding.value.id)
      || RevisionOf(h, C.KeyOf(i, c)) > 0
  }

  /******* Connections *******/

  ghost predicate ConnOk(k: Conn) {
    && (!k.joined ==>
          && !k.dropped && k.out == [] && k.pend == []
          && k.toServer != [] && k.toServer[0].Hello? && NoHello(k.toServer[1..]) && NoSubmit(k.toServer))
    && (k.joined ==> NoHello(k.toServer))
  }

  // Released messages are true of the durable history, all of them of the
  // server's.
  ghost predicate ConnTrue(k: Conn, durable: seq<Commit>, h: seq<Commit>) {
    AllTrue(k.out, k.client, durable) && AllTrue(k.out + k.pend, k.client, h)
  }

  function Stream(k: Conn): seq<C.ServerMsg> {
    k.out + k.pend
  }

  ghost predicate WaitingOk(c: C.State, k: Conn, h: seq<Commit>) {
    if !k.joined then k.toServer != [] ==> k.toServer[0] == C.Hello(if c.resetNext then None else c.rev)
    else
      var s := Stream(k);
      && NoSubmit(k.toServer)
      && (s == [] ==> !Live(k))
      && (s != [] ==>
            && s[0].Init? && NoAck(s)
            && (s[0].text.None? <==> !c.resetNext && c.rev.Some?)
            && (s[0].text.None? ==> s[0].rev == c.rev.value + |s[0].ops|)
            && StreamFrom(s[1..], s[0].rev)
            && (Live(k) ==> Complete(s[1..], s[0].rev, |h|)))
  }

  ghost predicate ReadyOk(c: C.State, i: nat, k: Conn, h: seq<Commit>) {
    && k.joined && c.rev.Some? && NoInit(Stream(k))
    && (!c.resetNext ==>
          && StreamFrom(Stream(k), c.rev.value)
          && AcksMine(Stream(k), c)
          && (Live(k) ==>
                && Complete(Stream(k), c.rev.value, |h|)
                && SubmitsKnown(k.toServer, c, i, h)
                && OutstandingSent(k.toServer, c, i, h)))
  }

  // The connection a client uses.
  ghost predicate CurrentOk(c: C.State, i: nat, k: Conn, h: seq<Commit>) {
    && k.client == i
    && (if c.ready then ReadyOk(c, i, k, h) else WaitingOk(c, k, h))
  }

  // Everything client i sent that the server may still read.
  ghost function FlyingOf(conns: seq<Conn>, i: nat): set<C.ClientMsg> {
    set x, m | 0 <= x < |conns| && conns[x].client == i && !conns[x].gone && m in conns[x].toServer :: m
  }

  ghost predicate ClientOk(c: C.State, i: nat, conns: seq<Conn>, durable: seq<Commit>, h: seq<Commit>) {
    && C.Core(c, i, h, FlyingOf(conns, i))
    && !c.desynced
    && (c.rev.Some? ==> c.rev.value <= |durable|)
    && (c.conn.None? ==> !c.ready)
    && (c.conn.Some? ==> c.conn.value < |conns| && CurrentOk(c, i, conns[c.conn.value], h))
  }

  /******* Logs and reads *******/

  // Suggestions are numbered from 1.
  predicate Numbered(order: seq<nat>) {
    forall k :: 0 <= k < |order| ==> order[k] == k + 1
  }

  ghost predicate GoodReplay(records: seq<Record>) {
    Replay(records).Ok? && DocOk(Replay(records).value) && Numbered(Replay(records).value.order)
  }

  // Every first part of the log replays to a proper document.
  ghost predicate GoodLog(records: seq<Record>) {
    forall n :: 0 <= n <= |records| ==> GoodReplay(records[..n])
  }

  ghost predicate ReadingOk(r: AgentRead, h: seq<Commit>) {
    && r.rev <= |h|
    && r.start <= r.end <= |TextAt(h, r.rev)|
    && WellFormed(TextAt(h, r.rev)[..r.start]) && WellFormed(TextAt(h, r.rev)[..r.end])
    && r.text == TextAt(h, r.rev)[r.start..r.end]
  }

  // What is on disk, as a history.
  ghost function Durable(s: System): seq<Commit> {
    if Replay(s.log).Ok? then Replay(s.log).value.history else []
  }

  ghost predicate ServerOk(s: System) {
    && GoodLog(s.log + s.batch)
    && Replay(s.log + s.batch) == Ok(s.doc)
    && s.nextSug == |s.doc.order|
    && (forall r :: 0 <= r < |s.readings| ==> ReadingOk(s.readings[r], s.doc.history))
  }

  ghost predicate ConnsOk(s: System) {
    forall x :: 0 <= x < |s.conns| ==>
      && s.conns[x].client < |s.clients|
      && ConnOk(s.conns[x])
      && ConnTrue(s.conns[x], Durable(s), s.doc.history)
  }

  ghost predicate ClientsOk(s: System) {
    forall i :: 0 <= i < |s.clients| ==> ClientOk(s.clients[i], i, s.conns, Durable(s), s.doc.history)
  }

  ghost predicate SystemOk(s: System) {
    ServerOk(s) && ConnsOk(s) && ClientsOk(s)
  }

  lemma DurableIsPrefix(s: System)
    requires ServerOk(s)
    ensures Replay(s.log).Ok? && Durable(s) <= s.doc.history
    ensures DocOk(s.doc) && Numbered(s.doc.order)
  {
    hide ApplyRecord, DocOk;
    var records := s.log + s.batch;
    assert records[..|s.log|] == s.log && records[..|records|] == records;
    ReplayPrefix(EmptyDoc, records, |s.log|);
    assert GoodReplay(records[..|s.log|]) && GoodReplay(records[..|records|]);
  }

  /******* Steps that concern one client *******/

  // s and t differ only in client i and in connections of client i.
  ghost predicate OnlyClient(s: System, t: System, i: nat) {
    && i < |s.clients| == |t.clients| && |s.conns| <= |t.conns|
    && t.doc == s.doc && t.log == s.log && t.batch == s.batch && t.nextSug == s.nextSug && t.readings == s.readings
    && (forall j :: 0 <= j < |s.clients| && j != i ==> t.clients[j] == s.clients[j])
    && (forall x :: 0 <= x < |s.conns| ==> t.conns[x].client == s.conns[x].client)
    && (forall x :: 0 <= x < |s.conns| && s.conns[x].client != i ==> t.conns[x] == s.conns[x])
    && (forall x :: |s.conns| <= x < |t.conns| ==> t.conns[x].client == i)
  }

  lemma OthersKeep(s: System, t: System, i: nat, j: nat)
    requires OnlyClient(s, t, i) && j < |s.clients| && j != i
    requires ClientOk(s.clients[j], j, s.conns, Durable(s), s.doc.history)
    ensures ClientOk(t.clients[j], j, t.conns, Durable(t), t.doc.history)
  {
    hide CurrentOk, C.Core, C.InStep, Replay;
    var c := s.clients[j];
    assert FlyingOf(t.conns, j) <= FlyingOf(s.conns, j);
    C.FewerFlying(c, j, s.doc.history, FlyingOf(s.conns, j), FlyingOf(t.conns, j));
    if c.conn.Some? {
      assert s.conns[c.conn.value].client == j by {
        CurrentClient(c, j, s.conns[c.conn.value], s.doc.history);
      }
    }
  }

  lemma CurrentClient(c: C.State, i: nat, k: Conn, h: seq<Commit>)
    requires CurrentOk(c, i, k, h)
    ensures k.client == i
  {
  }

  // Enough to check after a step of one client.
  lemma OneClientStep(s: System, t: System, i: nat)
    requires SystemOk(s) && OnlyClient(s, t, i)
    requires forall x :: 0 <= x < |t.conns| && t.conns[x].client == i ==>
      ConnOk(t.conns[x]) && ConnTrue(t.conns[x], Durable(t), t.doc.history)
    requires ClientOk(t.clients[i], i, t.conns, Durable(t), t.doc.history)
    ensures SystemOk(t)
  {
    hide ClientOk, ConnOk, ConnTrue, ServerOk;
    assert ServerOk(t) by { SameServer(s, t); }
    forall j | 0 <= j < |t.clients| ensures ClientOk(t.clients[j], j, t.conns, Durable(t), t.doc.history) {
      if j != i {
        OthersKeep(s, t, i, j);
      }
    }
  }

  lemma SameServer(s: System, t: System)
    requires ServerOk(s)
    requires t.doc == s.doc && t.log == s.log && t.batch == s.batch && t.nextSug == s.nextSug && t.readings == s.readings
    ensures ServerOk(t) && Durable(t) == Durable(s)
  {
  }

  lemma GetClient(s: System, i: nat)
    requires SystemOk(s) && i < |s.clients|
    ensures ClientOk(s.clients[i], i, s.conns, Durable(s), s.doc.history)
  {
  }

  lemma GetConn(s: System, x: nat)
    requires SystemOk(s) && x < |s.conns|
    ensures s.conns[x].client < |s.clients| && ConnOk(s.conns[x]) && ConnTrue(s.conns[x], Durable(s), s.doc.history)
  {
  }

  // A connection after its client took `taken` messages off it and posted some.
  function Used(k: Conn, taken: nat, sent: seq<C.ClientMsg>): Conn
    requires taken <= |k.out|
  {
    k.(out := k.out[taken..], toServer := k.toServer + sent)
  }

  lemma PostFlying(conns: seq<Conn>, x: nat, i: nat, taken: nat, sent: seq<C.ClientMsg>)
    requires x < |conns| && taken <= |conns[x].out|
    ensures FlyingOf(conns[x := Used(conns[x], taken, sent)], i) <= FlyingOf(conns, i) + C.Sent(sent)
  {
    var conns' := conns[x := Used(conns[x], taken, sent)];
    forall m | m in FlyingOf(conns', i) ensures m in FlyingOf(conns, i) + C.Sent(sent) {
      var y :| 0 <= y < |conns'| && conns'[y].client == i && !conns'[y].gone && m in conns'[y].toServer;
      if y == x {
        assert m in conns[x].toServer || m in sent;
      }
    }
  }

  lemma UsedOk(k: Conn, taken: nat, sent: seq<C.ClientMsg>, durable: seq<Commit>, h: seq<Commit>)
    requires ConnOk(k) && ConnTrue(k, durable, h) && taken <= |k.out|
    requires NoHello(sent) && (!k.joined ==> NoSubmit(sent))
    ensures ConnOk(Used(k, taken, sent)) && ConnTrue(Used(k, taken, sent), durable, h)
  {
    hide MsgTrue;
    var k' := Used(k, taken, sent);
    assert Stream(k') == Stream(k)[taken..];
    if !k.joined {
      assert k'.toServer[1..] == k.toServer[1..] + sent;
    }
  }

  // Client i moves on, having taken messages off its connection and posted some.
  lemma PostStep(s: System, i: nat, x: nat, taken: nat, o: C.Outcome)
    requires SystemOk(s) && i < |s.clients| && x < |s.conns| && s.conns[x].client == i && taken <= |s.conns[x].out|
    requires o.state.conn == Some(x) && !o.state.desynced
    requires o.state.rev.Some? ==> o.state.rev.value <= |Durable(s)|
    requires C.Core(o.state, i, s.doc.history, FlyingOf(s.conns, i) + C.Sent(o.sent))
    requires CurrentOk(o.state, i, Used(s.conns[x], taken, o.sent), s.doc.history)
    requires NoHello(o.sent) && (!s.conns[x].joined ==> NoSubmit(o.sent))
    ensures SystemOk(s.(clients := s.clients[i := o.state], conns := s.conns[x := Used(s.conns[x], taken, o.sent)]))
  {
    hide C.Core, CurrentOk, Replay, ConnOk, ConnTrue, ServerOk, NoHello, NoSubmit, Used;
    var k' := Used(s.conns[x], taken, o.sent);
    var t := s.(clients := s.clients[i := o.state], conns := s.conns[x := k']);
    GetConn(s, x);
    CurrentClient(o.state, i, k', s.doc.history);
    assert OnlyClient(s, t, i);
    assert ServerOk(s);
    SameServer(s, t);
    PostFlying(s.conns, x, i, taken, o.sent);
    C.FewerFlying(o.state, i, s.doc.history, FlyingOf(s.conns, i) + C.Sent(o.sent), FlyingOf(t.conns, i));
    UsedOk(s.conns[x], taken, o.sent, Durable(s), s.doc.history);
    forall y | 0 <= y < |t.conns| && t.conns[y].client == i
      ensures ConnOk(t.conns[y]) && ConnTrue(t.conns[y], Durable(t), t.doc.history)
    {
      if y != x {
        GetConn(s, y);
      }
    }
    OneClientStep(s, t, i);
  }
}
