// Agreement is always within reach: from every reachable state, delivering what is
// there and connecting again brings all clients to one text.
module Settling {
  import opened Results
  import opened Ops
  import opened History
  import opened Document
  import opened LiveSystem
  import opened Convergence
  import ClientSteps
  import ServerSteps
  import Runs
  import Pending
  import C = Client

  // Nothing pending, and exactly what the server has.
  ghost predicate Settled(s: System, i: nat) {
    && i < |s.clients|
    && var c := s.clients[i];
       && c.rev == Some(|s.doc.history|) && c.outstanding.None? && c.buffer.None? && c.text == s.doc.text && !c.resetNext
  }

  predicate Delivery(e: Event) {
    e.Connect? || e.ServerReads? || e.Flush? || e.ClientReceives?
  }

  predicate OnlyDelivery(events: seq<Event>) {
    forall k :: 0 <= k < |events| ==> Delivery(events[k])
  }

  /******* Progress of a client *******/

  function Pendings(c: C.State): nat {
    (if c.outstanding.Some? then 1 else 0) + if c.buffer.Some? then 1 else 0
  }

  function Waits(c: C.State): nat {
    Pendings(c) + if c.ready then 0 else 1
  }

  lemma AckShrinks(c: C.State, rev: nat)
    requires !C.Acknowledged(c, rev).state.desynced && c.outstanding.Some?
    ensures Pendings(C.Acknowledged(c, rev).state) < Pendings(c) && C.Acknowledged(c, rev).state.ready == c.ready
  {
  }

  lemma OpShrinks(c: C.State, w: C.WireOp)
    requires !C.ServerOp(c, w).state.desynced
    ensures var o := C.ServerOp(c, w);
      && o.state.ready == c.ready
      && (Pendings(o.state) < Pendings(c) || (Pendings(o.state) == Pendings(c) && o.sent == []))
  {
    hide Run, BaseLen, Merge.Left, Merge.Right;
  }

  lemma {:induction false} OpsShrink(c: C.State, ops: seq<C.WireOp>)
    requires !C.ServerOps(c, ops).state.desynced && !c.desynced
    ensures Pendings(C.ServerOps(c, ops).state) <= Pendings(c)
    decreases |ops|
  {
    hide C.ServerOp;
    if ops != [] {
      var first := C.ServerOp(c, ops[0]);
      DesyncStays(first.state, ops[1..]);
      OpShrinks(c, ops[0]);
      if !first.state.resetNext {
        OpsShrink(first.state, ops[1..]);
      }
    }
  }

  lemma {:induction false} DesyncStays(c: C.State, ops: seq<C.WireOp>)
    ensures c.desynced ==> C.ServerOps(c, ops).state.desynced
    decreases |ops|
  {
    if ops != [] {
      OpDesyncStays(c, ops[0]);
      hide C.ServerOp;
      DesyncStays(C.ServerOp(c, ops[0]).state, ops[1..]);
    }
  }

  lemma OpDesyncStays(c: C.State, w: C.WireOp)
    ensures c.desynced ==> C.ServerOp(c, w).state.desynced
  {
    hide Run, BaseLen, Merge.Left, Merge.Right;
  }

  // Every message takes a client further, or makes it send nothing.
  lemma ReceiveShrinks(c: C.State, m: C.ServerMsg)
    requires !c.desynced && !C.Receive(c, m).state.desynced && (c.ready <==> !m.Init?)
    requires m.Init? && m.text.None? ==> !c.resetNext
    ensures var o := C.Receive(c, m);
      Waits(o.state) < Waits(c) || (Waits(o.state) == Waits(c) && o.sent == [])
  {
    hide C.ServerOp, C.ServerOps, C.Acknowledged;
    match m
    case Init(rev, text, ops) =>
      if text.None? {
        InitParts(c, rev, ops);
        Pending.OpsDesync(c, ops);
        OpsShrink(c, ops);
      }
    case Broadcast(w) =>
      if !c.resetNext {
        OpShrinks(c, w);
      }
    case Ack(rev, id) =>
      if !c.resetNext && c.outstanding.Some? && id == c.outstanding.value.id {
        AckShrinks(c, rev);
      }
    case Refused =>
  }

  lemma InitParts(c: C.State, rev: nat, ops: seq<C.WireOp>)
    requires !c.desynced && !C.Receive(c, C.Init(rev, None, ops)).state.desynced
    ensures var o, caught := C.Receive(c, C.Init(rev, None, ops)), C.ServerOps(c, ops);
      && !caught.state.desynced && Pendings(o.state) == Pendings(caught.state)
      && (o.state.ready || (ops != [] && caught.state.resetNext))
  {
    hide C.ServerOps;
  }

  /******* One event *******/

  predicate Simple(m: C.ClientMsg) {
    m.Hello? || m.Submit?
  }

  predicate Refusing(k: Conn) {
    exists j :: 0 <= j < |Stream(k)| && Stream(k)[j].Refused?
  }

  // Client i talks to the server on a connection of its own that carries nothing
  // but its greeting and its operations.
  ghost predicate Talking(s: System, i: nat) {
    && i < |s.clients| && s.clients[i].conn.Some? && s.clients[i].conn.value < |s.conns|
    && var c, k := s.clients[i], s.conns[s.clients[i].conn.value];
       && k.client == i && !k.gone
       && (forall j :: 0 <= j < |k.toServer| ==> Simple(k.toServer[j]))
       && (k.joined && !c.ready ==> Stream(k) != [])
       && (c.ready && c.resetNext ==> k.dropped)
       && (k.dropped ==> (c.ready && c.resetNext) || Refusing(k))
  }

  // It has nothing for the server, and will have nothing.
  ghost predicate Calm(s: System, i: nat)
    requires Talking(s, i)
  {
    var c, k := s.clients[i], s.conns[s.clients[i].conn.value];
    && NoSubmit(k.toServer) && !k.dropped
    && ((c.resetNext && !c.ready) || (c.outstanding.None? && c.buffer.None?))
  }

  // s and t differ in client i and in what connections carry.
  ghost predicate OthersSame(s: System, t: System, i: nat) {
    && |t.clients| == |s.clients| && s.doc.history <= t.doc.history
    && forall j :: 0 <= j < |s.clients| && j != i ==> t.clients[j] == s.clients[j]
  }

  ghost predicate Idle(s: System, i: nat)
    requires Talking(s, i)
  {
    var k := s.conns[s.clients[i].conn.value];
    k.toServer == [] && k.out == [] && k.pend == []
  }

  lemma ServerReadsClients(s: System, x: nat)
    requires Enabled(s, ServerReads(x))
    ensures Step(s, ServerReads(x)).clients == s.clients
  {
    Pending.ReadsKeepLog(s, x);
  }

  // The server reads one message of the connection.
  lemma ReadEvent(s: System, i: nat)
    requires SystemOk(s) && Talking(s, i) && s.conns[s.clients[i].conn.value].toServer != []
    ensures var x := s.clients[i].conn.value; var t := Step(s, ServerReads(x));
      && Enabled(s, ServerReads(x)) && t.clients == s.clients && |t.conns| == |s.conns|
      && t.conns[x].toServer == s.conns[x].toServer[1..]
      && Talking(t, i) && s.doc.history <= t.doc.history
      && (Calm(s, i) ==> Calm(t, i) && t.doc == s.doc)
  {
    var x := s.clients[i].conn.value;
    var k := s.conns[x];
    ServerReadsClients(s, x);
    GetConn(s, x);
    if k.dropped {
      ReadDropped(s, i);
    } else if k.toServer[0].Hello? {
      ReadHello(s, i);
    } else {
      ReadSubmit(s, i);
    }
  }

  lemma ReadDropped(s: System, i: nat)
    requires Talking(s, i)
    requires var k := s.conns[s.clients[i].conn.value]; k.dropped && k.toServer != []
    ensures var x := s.clients[i].conn.value; var t := Step(s, ServerReads(x));
      && t.clients == s.clients && |t.conns| == |s.conns|
      && t.conns[x].toServer == s.conns[x].toServer[1..] && Talking(t, i) && t.doc == s.doc
  {
    var x := s.clients[i].conn.value;
    var t := Step(s, ServerReads(x));
    assert Stream(t.conns[x]) == Stream(s.conns[x]);
  }

  lemma ReadHello(s: System, i: nat)
    requires Talking(s, i)
    requires var k := s.conns[s.clients[i].conn.value]; ConnOk(k) && !k.dropped && k.toServer != [] && k.toServer[0].Hello?
    ensures var x := s.clients[i].conn.value; var t := Step(s, ServerReads(x));
      && t.clients == s.clients && |t.conns| == |s.conns|
      && t.conns[x].toServer == s.conns[x].toServer[1..] && Talking(t, i) && t.doc == s.doc
      && (Calm(s, i) ==> Calm(t, i))
  {
    hide MissedOps;
    var x := s.clients[i].conn.value;
    var t := Step(s, ServerReads(x));
    assert !s.conns[x].joined;
  }

  // What reading an operation leaves of the connection it came on.
  ghost predicate Answered(k: Conn, a: Conn) {
    && a.client == k.client && a.toServer == k.toServer && a.gone == k.gone && a.joined == k.joined
    && Stream(k) <= Stream(a) && (a.dropped ==> k.dropped || Refusing(a))
  }

  lemma SubmitEnds(s: System, x: nat, rev: nat, id: nat, op: Op)
    requires x < |s.conns| && !s.conns[x].dropped
    ensures var t := HandleSubmit(s, x, rev, id, op);
      t.clients == s.clients && |t.conns| == |s.conns| && Answered(s.conns[x], t.conns[x]) && s.doc.history <= t.doc.history
  {
    hide CaughtUp, ApplyRecord;
    var k := s.conns[x];
    RefusalEnds(s, x);
    var key := OpKey(k.client, id);
    var t := HandleSubmit(s, x, rev, id, op);
    if t != s && t != Reject(s, x) {
      var caught := CaughtUp(s.doc, op, rev);
      var r := OpRecord(|s.doc.history| + 1, caught.value, k.user, Some(key), None, None);
      var commit := ServerSteps.AppendsCommit(s.doc, r);
      AnnouncedEnds(s.(doc := ApplyRecord(s.doc, r).value, batch := s.batch + [r]), x, caught.value, key);
    }
  }

  lemma RefusalEnds(s: System, x: nat)
    requires x < |s.conns|
    ensures var t := Reject(s, x); t.clients == s.clients && |t.conns| == |s.conns| && Answered(s.conns[x], t.conns[x]) && t.doc == s.doc
  {
    var t := Reject(s, x);
    assert Stream(t.conns[x]) == Stream(s.conns[x]) + [C.Refused];
    assert Stream(t.conns[x])[|Stream(s.conns[x])|].Refused?;
  }

  lemma AnnouncedEnds(s: System, x: nat, op: Op, key: OpKey)
    requires x < |s.conns|
    ensures var t := Announced(s, Some(x), op, Some(key));
      t.clients == s.clients && |t.conns| == |s.conns| && Answered(s.conns[x], t.conns[x]) && t.doc == s.doc
  {
    var t := Announced(s, Some(x), op, Some(key));
    assert Stream(t.conns[x]) == Stream(s.conns[x]) + [C.Ack(|s.doc.history|, key.id)];
  }

  // Reading an operation: it is refused, known or committed.
  lemma ReadSubmit(s: System, i: nat)
    requires SystemOk(s) && Talking(s, i)
    requires var k := s.conns[s.clients[i].conn.value]; ConnOk(k) && !k.dropped && k.toServer != [] && k.toServer[0].Submit?
    ensures var x := s.clients[i].conn.value; var t := Step(s, ServerReads(x));
      && t.clients == s.clients && |t.conns| == |s.conns|
      && t.conns[x].toServer == s.conns[x].toServer[1..] && Talking(t, i) && s.doc.history <= t.doc.history
      && !Calm(s, i)
  {
    hide SystemOk, ApplyRecord, CaughtUp, HandleSubmit;
    var x := s.clients[i].conn.value;
    var k := s.conns[x];
    var m := k.toServer[0];
    assert k.joined;
    var s1 := s.(conns := s.conns[x := ServerSteps.Popped(k)]);
    var t := Step(s, ServerReads(x));
    assert t == HandleSubmit(s1, x, m.rev, m.id, m.op);
    SubmitEnds(s1, x, m.rev, m.id, m.op);
    assert Stream(s1.conns[x]) == Stream(k);
    assert k.joined && !s.clients[i].ready ==> Stream(k) != [];
  }

  lemma FlushEvent(s: System, i: nat)
    requires Talking(s, i)
    ensures var x := s.clients[i].conn.value; var t := Step(s, Flush);
      && t.clients == s.clients && |t.conns| == |s.conns| && t.doc == s.doc
      && t.conns[x] == Release(s.conns[x]) && Talking(t, i)
      && (Calm(s, i) ==> Calm(t, i))
  {
    var x := s.clients[i].conn.value;
    var t := Step(s, Flush);
    assert Stream(t.conns[x]) == Stream(s.conns[x]);
  }

  // The client reads one message of the connection.
  lemma TakeEvent(s: System, i: nat)
    requires SystemOk(s) && Talking(s, i) && s.conns[s.clients[i].conn.value].out != []
    ensures var x := s.clients[i].conn.value; var t := Step(s, ClientReceives(i)); var k := s.conns[x];
      && Enabled(s, ClientReceives(i)) && OthersSame(s, t, i) && t.doc == s.doc && Talking(t, i)
      && t.clients[i].conn == s.clients[i].conn && |t.conns| == |s.conns|
      && t.conns[x].out == k.out[1..] && t.conns[x].pend == k.pend
      && (Waits(t.clients[i]) < Waits(s.clients[i]) || (Waits(t.clients[i]) == Waits(s.clients[i]) && t.conns[x].toServer == k.toServer))
      && (Calm(s, i) ==> Calm(t, i))
  {
    hide SystemOk, C.Receive, CurrentOk, ConnOk;
    var x := s.clients[i].conn.value;
    var c, k := s.clients[i], s.conns[x];
    var m := k.out[0];
    var o := C.Receive(c, m);
    TakeFacts(s, i);
    ClientSteps.PostedAs(s, i, x, o);
    ReceiveShrinks(c, m);
    var t := Step(s, ClientReceives(i));
    assert t.clients[i] == o.state && t.conns[x] == Used(k, 1, o.sent);
    assert k.toServer + [] == k.toServer;
    if k.dropped && !m.Refused? && Refusing(k) {
      StreamTaken(k, t.conns[x]);
    }
  }

  // What holds when the client reads a message.
  lemma TakeFacts(s: System, i: nat)
    requires SystemOk(s) && Talking(s, i) && s.conns[s.clients[i].conn.value].out != []
    ensures var x := s.clients[i].conn.value; var c, k := s.clients[i], s.conns[x]; var m := k.out[0]; var o := C.Receive(c, m);
      && o.state.conn == Some(x) && !c.desynced && !o.state.desynced && (c.ready <==> !m.Init?)
      && (m.Init? ==> (m.text.None? <==> !c.resetNext && c.rev.Some?)) && (c.rev.None? ==> c.outstanding.None? && c.buffer.None?)
      && (c.outstanding.None? ==> c.buffer.None?)
      && (o.state.resetNext ==> c.resetNext || m.Refused?) && o.state.ready
      && (forall j :: 0 <= j < |o.sent| ==> o.sent[j].Submit?)
      && (m.Refused? ==> k.dropped && o.state.resetNext) && k.joined && (m.Init? ==> !o.state.resetNext)
      && (c.ready && c.resetNext ==> o.state.resetNext)
      && (NothingPending(c) || (m.Init? && m.text.Some?) ==> o.sent == [] && NothingPending(o.state))
  {
    hide C.Core, Replay, ServerOk, FlyingOf, MsgTrue, Chain, KeysDistinct, C.Receive, ReadyOk;
    var x := s.clients[i].conn.value;
    var c, k, h := s.clients[i], s.conns[x], s.doc.history;
    GetClient(s, i);
    GetConn(s, x);
    ServerSteps.SystemParts(s);
    DurableIsPrefix(s);
    ClientSteps.DocHistory(s.doc);
    C.CoreParts(c, i, h, FlyingOf(s.conns, i));
    ClientSteps.ReceiveKeeps(c, i, k, h, FlyingOf(s.conns, i));
    var m := k.out[0];
    assert Stream(k)[0] == m;
    if c.ready {
      ClientSteps.ReadyKinds(c, i, k, h);
      if m.Refused? {
        RefusedWhenDropped(c, i, k, h);
      }
    }
    if !m.Refused? && !c.resetNext {
      Pending.ReceiveDesync(c, m);
    }
    SendsCopies(c, m);
    StaysReady(c, m);
  }

  lemma RefusedWhenDropped(c: C.State, i: nat, k: Conn, h: seq<Commit>)
    requires ReadyOk(c, i, k, h) && k.out != [] && k.out[0].Refused? && !k.gone && (c.resetNext ==> k.dropped)
    ensures k.dropped
  {
    assert Stream(k)[0] == k.out[0];
  }

  lemma {:induction false} SendsCopies(c: C.State, m: C.ServerMsg)
    ensures forall j :: 0 <= j < |C.Receive(c, m).sent| ==> C.Receive(c, m).sent[j].Submit?
  {
    hide Run, BaseLen, Merge.Left, Merge.Right, C.ServerOps;
    if m.Init? {
      OpsSendCopies(c, m.ops);
    }
  }

  lemma {:induction false} OpsSendCopies(c: C.State, ops: seq<C.WireOp>)
    ensures forall j :: 0 <= j < |C.ServerOps(c, ops).sent| ==> C.ServerOps(c, ops).sent[j].Submit?
    decreases |ops|
  {
    if ops != [] {
      OpSendsCopies(c, ops[0]);
      hide C.ServerOp;
      OpsSendCopies(C.ServerOp(c, ops[0]).state, ops[1..]);
    }
  }

  lemma OpSendsCopies(c: C.State, w: C.WireOp)
    ensures forall j :: 0 <= j < |C.ServerOp(c, w).sent| ==> C.ServerOp(c, w).sent[j].Submit?
  {
    hide Run, BaseLen, Merge.Left, Merge.Right;
  }

  lemma {:induction false} OpsKeepReady(c: C.State, ops: seq<C.WireOp>)
    requires !C.ServerOps(c, ops).state.desynced && !c.desynced
    ensures C.ServerOps(c, ops).state.ready == c.ready
    decreases |ops|
  {
    hide C.ServerOp;
    if ops != [] {
      var first := C.ServerOp(c, ops[0]);
      DesyncStays(first.state, ops[1..]);
      OpShrinks(c, ops[0]);
      if !first.state.resetNext {
        OpsKeepReady(first.state, ops[1..]);
      }
    }
  }

  predicate NothingPending(c: C.State) {
    c.outstanding.None? && c.buffer.None?
  }

  lemma OpIdle(c: C.State, w: C.WireOp)
    requires NothingPending(c)
    ensures NothingPending(C.ServerOp(c, w).state) && C.ServerOp(c, w).sent == []
  {
    hide Run, BaseLen;
  }

  lemma {:induction false} OpsIdle(c: C.State, ops: seq<C.WireOp>)
    requires NothingPending(c)
    ensures NothingPending(C.ServerOps(c, ops).state) && C.ServerOps(c, ops).sent == []
    decreases |ops|
  {
    hide C.ServerOp, NothingPending;
    if ops != [] {
      OpIdle(c, ops[0]);
      OpsIdle(C.ServerOp(c, ops[0]).state, ops[1..]);
    }
  }

  // After a message the client is ready, and with nothing pending it stays so.
  lemma StaysReady(c: C.State, m: C.ServerMsg)
    requires !c.desynced && !C.Receive(c, m).state.desynced && (c.ready <==> !m.Init?)
    requires m.Init? && m.text.None? ==> !c.resetNext
    ensures C.Receive(c, m).state.ready && (m.Init? ==> !C.Receive(c, m).state.resetNext)
    ensures m.Refused? || (c.ready && c.resetNext) ==> C.Receive(c, m).state.resetNext
    ensures NothingPending(c) || (m.Init? && m.text.Some?) ==> C.Receive(c, m).sent == [] && NothingPending(C.Receive(c, m).state)
  {
    hide C.ServerOp, C.ServerOps;
    match m
    case Init(rev, text, ops) =>
      if text.None? {
        InitParts(c, rev, ops);
        Pending.OpsDesync(c, ops);
        OpsKeepReady(c, ops);
        if NothingPending(c) {
          OpsIdle(c, ops);
        }
      }
    case Broadcast(w) =>
      if !c.resetNext {
        OpShrinks(c, w);
        if NothingPending(c) {
          OpIdle(c, w);
        }
      }
    case _ =>
  }

  // The connection after its client read a message.
  lemma StreamTaken(k: Conn, a: Conn)
    requires k.out != [] && a.out == k.out[1..] && a.pend == k.pend && Refusing(k) && !k.out[0].Refused?
    ensures Refusing(a)
  {
    assert Stream(a) == Stream(k)[1..];
    var j :| 0 <= j < |Stream(k)| && Stream(k)[j].Refused?;
    assert Stream(k)[0] == k.out[0] && Stream(a)[j - 1] == Stream(k)[j];
  }

  /******* Runs *******/

  lemma {:induction false} RunsConcat(s: System, x: seq<Event>, y: seq<Event>)
    requires CanRun(s, x) && CanRun(After(s, x), y)
    ensures CanRun(s, x + y) && After(s, x + y) == After(After(s, x), y)
    decreases |x|
  {
    hide Enabled, Step;
    if x == [] {
      assert x + y == y;
    } else {
      assert (x + y)[1..] == x[1..] + y;
      RunsConcat(Step(s, x[0]), x[1..], y);
    }
  }

  // With nothing left on its connection, the client has all there is or was
  // refused something.
  lemma IdleSettles(s: System, i: nat)
    requires SystemOk(s) && Talking(s, i) && Idle(s, i)
    ensures Settled(s, i) || s.clients[i].resetNext
    ensures Calm(s, i) ==> Settled(s, i)
  {
    hide C.FlyingOk, C.KeysKnown, Replay, Play, Run, ServerOk;
    var c, k, h := s.clients[i], s.conns[s.clients[i].conn.value], s.doc.history;
    GetClient(s, i);
    GetConn(s, s.clients[i].conn.value);
    ServerSteps.SystemParts(s);
    DurableIsPrefix(s);
    ClientSteps.DocHistory(s.doc);
    if !c.resetNext {
      assert OutstandingSent([], c, i, h);
      assert C.CommittedOk(c, i, h);
    }
  }

  // Delivers everything until the client's connection is quiet.
  lemma {:induction false} Deliver(s: System, i: nat) returns (more: seq<Event>)
    requires SystemOk(s) && Talking(s, i)
    ensures OnlyDelivery(more) && CanRun(s, more)
    ensures var t := After(s, more); SystemOk(t) && OthersSame(s, t, i) && Talking(t, i) && Idle(t, i)
    ensures Calm(s, i) ==> Calm(After(s, more), i) && After(s, more).doc == s.doc
    decreases Waits(s.clients[i]), |s.conns[s.clients[i].conn.value].toServer|,
              |s.conns[s.clients[i].conn.value].pend|, |s.conns[s.clients[i].conn.value].out|
  {
    hide SystemOk, Calm, Talking, Step, Enabled;
    if Idle(s, i) {
      more := [];
    } else {
      var e := NextEvent(s, i);
      var t := Step(s, e);
      Runs.StepKeeps(s, e);
      var rest := Deliver(t, i);
      more := [e] + rest;
      assert more[1..] == rest;
    }
  }

  // One delivery that brings the client further.
  lemma NextEvent(s: System, i: nat) returns (e: Event)
    requires SystemOk(s) && Talking(s, i) && !Idle(s, i)
    ensures Delivery(e) && Enabled(s, e)
    ensures var t := Step(s, e); var x := s.clients[i].conn.value; var k := s.conns[x];
      && OthersSame(s, t, i) && Talking(t, i) && t.clients[i].conn == s.clients[i].conn
      && (Calm(s, i) ==> Calm(t, i) && t.doc == s.doc)
      && var a := t.conns[x];
         || Waits(t.clients[i]) < Waits(s.clients[i])
         || (Waits(t.clients[i]) == Waits(s.clients[i])
             && (|a.toServer| < |k.toServer|
                 || (|a.toServer| == |k.toServer|
                     && (|a.pend| < |k.pend| || (|a.pend| == |k.pend| && |a.out| < |k.out|)))))
  {
    hide SystemOk, Calm, Step;
    var x := s.clients[i].conn.value;
    var k := s.conns[x];
    if k.toServer != [] {
      e := ServerReads(x);
      ReadEvent(s, i);
    } else if k.pend != [] {
      e := Flush;
      FlushEvent(s, i);
    } else {
      e := ClientReceives(i);
      TakeEvent(s, i);
    }
  }

  lemma ConnectTalks(s: System, i: nat, user: Author)
    requires i < |s.clients|
    ensures var t := Step(s, Connect(i, user));
      && OthersSame(s, t, i) && t.doc == s.doc && Talking(t, i)
      && (s.clients[i].resetNext || NothingPending(s.clients[i]) ==> Calm(t, i))
  {
  }

  // One connection, from greeting to silence.
  lemma ConnectAndDeliver(s: System, i: nat, user: Author) returns (more: seq<Event>)
    requires SystemOk(s) && i < |s.clients|
    ensures OnlyDelivery(more) && CanRun(s, more)
    ensures var t := After(s, more); SystemOk(t) && OthersSame(s, t, i) && (Settled(t, i) || t.clients[i].resetNext)
    ensures s.clients[i].resetNext || NothingPending(s.clients[i]) ==> Settled(After(s, more), i) && After(s, more).doc == s.doc
  {
    hide SystemOk, Talking, Calm, Idle, Step, Settled;
    ConnectTalks(s, i, user);
    Runs.StepKeeps(s, Connect(i, user));
    var t := Step(s, Connect(i, user));
    var rest := Deliver(t, i);
    IdleSettles(After(t, rest), i);
    more := [Connect(i, user)] + rest;
    assert more[1..] == rest;
  }

  // A client settles, if need be with a second connection after a refusal.
  lemma Settle(s: System, i: nat, user: Author) returns (more: seq<Event>)
    requires SystemOk(s) && i < |s.clients|
    ensures OnlyDelivery(more) && CanRun(s, more)
    ensures var t := After(s, more); SystemOk(t) && OthersSame(s, t, i) && Settled(t, i)
    ensures NothingPending(s.clients[i]) ==> After(s, more).doc == s.doc
  {
    hide SystemOk, Settled, CanRun;
    var first := ConnectAndDeliver(s, i, user);
    var t := After(s, first);
    if Settled(t, i) {
      more := first;
    } else {
      var second := ConnectAndDeliver(t, i, user);
      RunsConcat(s, first, second);
      more := first + second;
    }
  }

  ghost predicate AllIdle(s: System, n: nat)
    requires n <= |s.clients|
  {
    forall j :: 0 <= j < n ==> NothingPending(s.clients[j])
  }

  // The first n clients settle in turn. If nobody had anything pending, nobody
  // unsettles the ones before.
  lemma {:induction false} SettleFirst(s: System, n: nat, user: Author) returns (more: seq<Event>)
    requires SystemOk(s) && n <= |s.clients|
    ensures OnlyDelivery(more) && CanRun(s, more)
    ensures var t := After(s, more);
      && SystemOk(t) && |t.clients| == |s.clients| && s.doc.history <= t.doc.history && AllIdle(t, n)
      && (forall j :: n <= j < |s.clients| ==> t.clients[j] == s.clients[j])
    ensures AllIdle(s, |s.clients|) ==> After(s, more).doc == s.doc && forall j :: 0 <= j < n ==> Settled(After(s, more), j)
  {
    hide SystemOk, CanRun;
    if n == 0 {
      more := [];
      assert CanRun(s, []) && After(s, []) == s by { NoEvents(s); }
    } else {
      var first := SettleFirst(s, n - 1, user);
      var t := After(s, first);
      var last := Settle(t, n - 1, user);
      RunsConcat(s, first, last);
      more := first + last;
      if AllIdle(s, |s.clients|) {
        var u := After(s, more);
        assert t.clients[n - 1] == s.clients[n - 1] && u.doc == t.doc == s.doc;
        forall j | 0 <= j < n ensures Settled(u, j) {
          if j < n - 1 {
            StillSettled(t, u, j);
          }
        }
      }
    }
  }

  lemma StillSettled(s: System, t: System, i: nat)
    requires Settled(s, i) && i < |t.clients| && t.clients[i] == s.clients[i] && t.doc == s.doc
    ensures Settled(t, i)
  {
  }

  lemma NoEvents(s: System)
    ensures CanRun(s, []) && After(s, []) == s
  {
  }

  // From every reachable state there is a run of deliveries, with no edit in it,
  // after which every client has the server's text and nothing pending, and the
  // history holds all that it held.
  lemma AgreementInReach(s: System, events: seq<Event>, user: Author) returns (more: seq<Event>)
    requires Initial(s) && CanRun(s, events)
    ensures OnlyDelivery(more) && CanRun(After(s, events), more)
    ensures var t := After(s, events); var u := After(t, more);
      && |u.clients| == |t.clients| && t.doc.history <= u.doc.history
      && forall i :: 0 <= i < |u.clients| ==> Settled(u, i)
  {
    hide SystemOk, Settled, CanRun, Initial;
    var t := After(s, events);
    Runs.ReachableOk(s, events);
    var first := SettleFirst(t, |t.clients|, user);
    var v := After(t, first);
    var second := SettleFirst(v, |v.clients|, user);
    RunsConcat(t, first, second);
    more := first + second;
  }
}
