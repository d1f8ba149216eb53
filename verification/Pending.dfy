// Nothing a user types is lost: until the server refuses a client, each of its
// edits is pending or on disk.
module Pending {
  import opened Results
  import opened Ops
  import opened History
  import opened Document
  import opened LiveSystem
  import opened Convergence
  import ClientSteps
  import ServerSteps
  import Runs
  import C = Client

  // The edit that has or will have id n: on its way, waiting behind the one that
  // is, or committed.
  ghost predicate Accounted(c: C.State, i: nat, n: nat, h: seq<Commit>) {
    || (c.outstanding.Some? && c.outstanding.value.id == n)
    || (c.outstanding.Some? && c.buffer.Some? && c.outstanding.value.id + 1 == n)
    || RevisionOf(h, OpKey(i, n)) > 0
  }

  /******* One message *******/

  lemma AckAccounted(c: C.State, i: nat, n: nat, h: seq<Commit>, durable: seq<Commit>, flying: set<C.ClientMsg>)
    requires C.Core(c, i, h, flying) && Chain([], h) && KeysDistinct(h) && durable <= h
    requires c.rev.Some? && c.rev.value < |durable| && c.outstanding.Some?
    requires h[c.rev.value].key == Some(C.KeyOf(i, c)) && Accounted(c, i, n, durable)
    ensures Accounted(C.Acknowledged(c, c.rev.value + 1).state, i, n, durable)
  {
    hide Chain, KeysDistinct, RevisionOf, C.KeysKnown, C.CommittedOk, C.FlyingOk, Run, Normal, BaseLen, Play;
    Committed(h, durable, c.rev.value, C.KeyOf(i, c));
    assert c.outstanding.value.id == c.counter by { C.CoreParts(c, i, h, flying); }
  }

  lemma Committed(h: seq<Commit>, durable: seq<Commit>, k: nat, key: OpKey)
    requires durable <= h && k < |durable| && h[k].key == Some(key)
    ensures RevisionOf(durable, key) > 0
  {
    assert durable[k] == h[k];
  }

  lemma RemoteAccounted(c: C.State, i: nat, n: nat, h: seq<Commit>, durable: seq<Commit>, flying: set<C.ClientMsg>, w: C.WireOp)
    requires C.Core(c, i, h, flying) && Chain([], h)
    requires c.rev.Some? && c.rev.value < |h| && C.WireMatches(w, c.rev.value + 1, h[c.rev.value], i)
    requires c.outstanding.Some? ==> w.id != Some(c.outstanding.value.id)
    requires Accounted(c, i, n, durable)
    ensures Accounted(C.ServerOp(c, w).state, i, n, durable)
  {
    hide Chain, RevisionOf, C.KeysKnown, C.CommittedOk, C.FlyingOk, Run, Normal, BaseLen, Play, Merge.Left, Merge.Right;
    C.RemoteOpCore(c, i, h, flying, w);
    BufferKept(c, w);
  }

  lemma BufferKept(c: C.State, w: C.WireOp)
    requires c.outstanding.Some? ==> w.id != Some(c.outstanding.value.id)
    ensures C.ServerOp(c, w).state.buffer.Some? == c.buffer.Some?
  {
    hide Run, BaseLen, Merge.Left, Merge.Right;
  }

  lemma OpAccounted(c: C.State, i: nat, n: nat, h: seq<Commit>, durable: seq<Commit>, flying: set<C.ClientMsg>, w: C.WireOp)
    requires C.Core(c, i, h, flying) && Chain([], h) && KeysDistinct(h) && durable <= h
    requires c.rev.Some? && c.rev.value < |durable| && C.WireMatches(w, c.rev.value + 1, h[c.rev.value], i)
    requires Accounted(c, i, n, durable)
    ensures Accounted(C.ServerOp(c, w).state, i, n, durable)
  {
    hide C.Core, Chain, KeysDistinct, Accounted, Run, BaseLen, Merge.Left, Merge.Right;
    if c.outstanding.Some? && w.id == Some(c.outstanding.value.id) {
      AckAccounted(c, i, n, h, durable, flying);
    } else {
      RemoteAccounted(c, i, n, h, durable, flying, w);
    }
  }

  lemma {:induction false} OpsAccounted(c: C.State, i: nat, n: nat, h: seq<Commit>, durable: seq<Commit>, flying: set<C.ClientMsg>, ops: seq<C.WireOp>)
    requires C.Core(c, i, h, flying) && Chain([], h) && KeysDistinct(h) && durable <= h && !c.resetNext
    requires c.rev.Some? && C.OpsMatch(ops, c.rev.value, h, i) && c.rev.value + |ops| <= |durable|
    requires Accounted(c, i, n, durable)
    ensures Accounted(C.ServerOps(c, ops).state, i, n, durable)
    decreases |ops|
  {
    hide C.Core, Chain, KeysDistinct, Accounted, C.ServerOp;
    if ops != [] {
      C.ServerOpCore(c, i, h, flying, ops[0]);
      OpAccounted(c, i, n, h, durable, flying, ops[0]);
      var first := C.ServerOp(c, ops[0]);
      assert C.OpsMatch(ops[1..], first.state.rev.value, h, i) by {
        forall k | 0 <= k < |ops[1..]| ensures C.WireMatches(ops[1..][k], c.rev.value + 1 + k + 1, h[c.rev.value + 1 + k], i) {
          assert ops[1..][k] == ops[k + 1];
        }
      }
      OpsAccounted(first.state, i, n, h, durable, flying + C.Sent(first.sent), ops[1..]);
    }
  }

  // A client that is not out of sync and has been here before is never answered
  // with a whole text.
  lemma NoTextForMe(c: C.State, i: nat, k: Conn, h: seq<Commit>)
    requires CurrentOk(c, i, k, h) && ConnOk(k) && k.out != [] && !c.ready && !c.resetNext && c.rev.Some?
    ensures k.joined && k.out[0].Init? && k.out[0].text.None? && k.out[0].rev == c.rev.value + |k.out[0].ops|
  {
    assert Stream(k)[0] == k.out[0];
  }

  lemma MessageAccounted(c: C.State, i: nat, n: nat, k: Conn, h: seq<Commit>, durable: seq<Commit>, flying: set<C.ClientMsg>)
    requires CurrentOk(c, i, k, h) && ConnOk(k) && k.out != [] && c.conn.Some? && !c.resetNext
    requires AllTrue(Stream(k), i, h) && MsgTrue(k.out[0], i, durable) && durable <= h && C.Core(c, i, h, flying)
    requires Chain([], h) && KeysDistinct(h) && (c.rev.None? ==> c.outstanding.None?)
    requires Accounted(c, i, n, durable)
    ensures Accounted(C.Receive(c, k.out[0]).state, i, n, durable)
  {
    hide C.Core, Chain, KeysDistinct, RevisionOf, ReadyOk, WaitingOk, C.ServerOp, C.ServerOps, C.Acknowledged, TextAt;
    var m := k.out[0];
    if !c.ready {
      if c.rev.Some? {
        NoTextForMe(c, i, k, h);
        assert C.OpsMatch(m.ops, c.rev.value, h, i) by { MissedMatch(m, i, h, durable); }
        OpsAccounted(c, i, n, h, durable, flying, m.ops);
        InitKeeps(c, m);
      }
    } else {
      ReadyMessage(c, i, n, k, h, durable, flying);
    }
  }

  lemma MissedMatch(m: C.ServerMsg, i: nat, h: seq<Commit>, durable: seq<Commit>)
    requires m.Init? && m.text.None? && MsgTrue(m, i, durable) && durable <= h
    ensures m.rev <= |durable| && |m.ops| <= m.rev && C.OpsMatch(m.ops, m.rev - |m.ops|, h, i)
  {
    hide TextAt;
    forall k | 0 <= k < |m.ops| ensures C.WireMatches(m.ops[k], m.rev - |m.ops| + k + 1, h[m.rev - |m.ops| + k], i) {
      assert C.WireMatches(m.ops[k], m.rev - |m.ops| + k + 1, durable[m.rev - |m.ops| + k], i);
    }
  }

  lemma InitKeeps(c: C.State, m: C.ServerMsg)
    requires m.Init? && m.text.None?
    ensures var d, caught := C.Receive(c, m).state, C.ServerOps(c, m.ops).state; d.outstanding == caught.outstanding && d.buffer == caught.buffer
  {
    hide C.ServerOps;
  }

  lemma ReadyMessage(c: C.State, i: nat, n: nat, k: Conn, h: seq<Commit>, durable: seq<Commit>, flying: set<C.ClientMsg>)
    requires ReadyOk(c, i, k, h) && c.ready && k.out != [] && !c.resetNext
    requires AllTrue(Stream(k), i, h) && MsgTrue(k.out[0], i, durable) && durable <= h && C.Core(c, i, h, flying)
    requires Chain([], h) && KeysDistinct(h) && Accounted(c, i, n, durable)
    ensures Accounted(C.Receive(c, k.out[0]).state, i, n, durable)
  {
    hide C.Core, Chain, KeysDistinct, RevisionOf, C.ServerOp, C.Acknowledged, TextAt, ReadyOk, Accounted;
    var m := k.out[0];
    ClientSteps.ReadyKinds(c, i, k, h);
    if m.Refused? {
      RefusedKeeps(c, i, n, durable);
    } else {
      ClientSteps.FirstAnnounced(c, i, k, h);
      if m.Ack? {
        AckAccounted(c, i, n, h, durable, flying);
      } else {
        OpAccounted(c, i, n, h, durable, flying, m.w);
      }
    }
  }

  lemma RefusedKeeps(c: C.State, i: nat, n: nat, durable: seq<Commit>)
    requires Accounted(c, i, n, durable)
    ensures Accounted(C.Receive(c, C.Refused).state, i, n, durable)
  {
  }

  /******* One step *******/

  lemma EditKeeps(c: C.State, i: nat, n: nat, op: Op, durable: seq<Commit>)
    requires c.rev.Some? && Accounted(c, i, n, durable)
    ensures Accounted(C.ApplyLocal(c, op).state, i, n, durable)
  {
    hide RevisionOf, Run, Merge.Composed;
  }

  lemma KeptByGrowth(c: C.State, i: nat, n: nat, h: seq<Commit>, longer: seq<Commit>)
    requires Accounted(c, i, n, h) && h <= longer
    ensures Accounted(c, i, n, longer)
  {
    var key := OpKey(i, n);
    if RevisionOf(h, key) > 0 {
      assert longer[RevisionOf(h, key) - 1].key == Some(key);
    }
  }

  lemma DurableGrows(s: System, e: Event)
    requires SystemOk(s) && Enabled(s, e)
    ensures Durable(s) <= Durable(Step(s, e))
  {
    hide Replay, ConnsOk, ClientsOk, GoodLog, ReadingOk, ApplyRecord, CaughtUp, RangeFrom, C.Receive, C.ApplyLocal;
    DurableIsPrefix(s);
    match e
    case Flush =>
    case Fail(kept) => Runs.ReopenedLog(s, kept);
    case ServerReads(x) => ReadsKeepLog(s, x);
    case _ =>
  }

  lemma ReadsKeepLog(s: System, x: nat)
    requires Enabled(s, ServerReads(x))
    ensures Step(s, ServerReads(x)).log == s.log && Step(s, ServerReads(x)).clients == s.clients
  {
    hide ApplyRecord, CaughtUp;
  }

  lemma ReceiveAccounted(s: System, i: nat, n: nat)
    requires SystemOk(s) && Enabled(s, ClientReceives(i)) && !s.clients[i].resetNext
    requires Accounted(s.clients[i], i, n, Durable(s))
    ensures Accounted(DeliverToClient(s, i).clients[i], i, n, Durable(s))
  {
    hide C.Core, Replay, ServerOk, FlyingOf, MsgTrue, Chain, KeysDistinct, ConnOk, CurrentOk, C.Receive, Accounted, C.InStep;
    GetClient(s, i);
    var c, h, x := s.clients[i], s.doc.history, s.clients[i].conn.value;
    var k := s.conns[x];
    GetConn(s, x);
    CurrentClient(c, i, k, h);
    ServerSteps.SystemParts(s);
    DurableIsPrefix(s);
    ClientSteps.DocHistory(s.doc);
    assert Stream(k)[0] == k.out[0];
    assert MsgTrue(k.out[0], i, Durable(s));
    C.CoreParts(c, i, h, FlyingOf(s.conns, i));
    NeverLoaded(c, h);
    MessageAccounted(c, i, n, k, h, Durable(s), FlyingOf(s.conns, i));
  }

  lemma NeverLoaded(c: C.State, h: seq<Commit>)
    requires C.InStep(c, h)
    ensures c.rev.None? ==> c.outstanding.None?
  {
  }

  // No event takes an edit away from a client that is not out of sync.
  lemma StepAccounted(s: System, e: Event, i: nat, n: nat)
    requires SystemOk(s) && Enabled(s, e) && i < |s.clients| && !s.clients[i].resetNext
    requires Accounted(s.clients[i], i, n, Durable(s))
    ensures i < |Step(s, e).clients| && Accounted(Step(s, e).clients[i], i, n, Durable(Step(s, e)))
  {
    hide Replay, SystemOk, ApplyRecord, CaughtUp, RangeFrom, C.Receive, C.ApplyLocal, RevisionOf, Durable, HandleBeginRead, HandlePropose, DeliverToServer;
    var t := Step(s, e);
    DurableGrows(s, e);
    match e
    case LocalEdit(j, op) =>
      if j == i {
        EditKeeps(s.clients[i], i, n, op, Durable(s));
      }
      KeptByGrowth(t.clients[i], i, n, Durable(s), Durable(t));
    case ClientReceives(j) =>
      if j == i {
        ReceiveAccounted(s, i, n);
      }
      KeptByGrowth(t.clients[i], i, n, Durable(s), Durable(t));
    case ServerReads(x) =>
      ReadsKeepLog(s, x);
      KeptByGrowth(t.clients[i], i, n, Durable(s), Durable(t));
    case BeginRead(_, _, _) =>
      AgentsKeepClients(s, e);
      KeptByGrowth(t.clients[i], i, n, Durable(s), Durable(t));
    case Propose(_, _, _) =>
      AgentsKeepClients(s, e);
      KeptByGrowth(t.clients[i], i, n, Durable(s), Durable(t));
    case _ =>
      KeptByGrowth(t.clients[i], i, n, Durable(s), Durable(t));
  }

  lemma AgentsKeepClients(s: System, e: Event)
    requires Enabled(s, e) && (e.BeginRead? || e.Propose?)
    ensures Step(s, e).clients == s.clients
  {
    hide RangeFrom, ApplyRecord;
  }

  /******* Whole runs *******/

  // Client i is never out of sync on the way.
  ghost predicate InSync(s: System, events: seq<Event>, i: nat)
    requires i < |s.clients|
    decreases |events|
  {
    && !s.clients[i].resetNext
    && (events != [] ==>
          Enabled(s, events[0]) && i < |Step(s, events[0]).clients| && InSync(Step(s, events[0]), events[1..], i))
  }

  lemma {:induction false} RunAccounted(s: System, events: seq<Event>, i: nat, n: nat)
    requires SystemOk(s) && CanRun(s, events) && i < |s.clients| && InSync(s, events, i)
    requires Accounted(s.clients[i], i, n, Durable(s))
    ensures i < |After(s, events).clients| && Accounted(After(s, events).clients[i], i, n, Durable(After(s, events)))
    decreases |events|
  {
    hide SystemOk, Step, Accounted, Durable, Enabled;
    if events != [] {
      StepAccounted(s, events[0], i, n);
      Runs.StepKeeps(s, events[0]);
      RunAccounted(Step(s, events[0]), events[1..], i, n);
    }
  }

  // The id an edit has once it is sent.
  function EditId(c: C.State): nat {
    if c.outstanding.None? then c.counter + 1 else c.outstanding.value.id + 1
  }

  // Whatever the user types, and whatever happens after that short of putting the
  // client out of sync, the edit is still pending or it is on disk.
  lemma NothingTypedIsLost(s: System, events: seq<Event>, i: nat, op: Op, more: seq<Event>)
    requires Initial(s) && CanRun(s, events) && Enabled(After(s, events), LocalEdit(i, op)) && !IsNoop(op)
    requires var t := After(s, events); var u := Step(t, LocalEdit(i, op));
      i < |u.clients| && CanRun(u, more) && InSync(u, more, i)
    ensures var t := After(s, events); var v := After(Step(t, LocalEdit(i, op)), more);
      i < |v.clients| && Accounted(v.clients[i], i, EditId(t.clients[i]), Durable(v))
  {
    hide SystemOk, CanRun, InSync, Durable, Initial, C.OutstandingMsgs;
    var t := After(s, events);
    Runs.ReachableOk(s, events);
    Runs.StepKeeps(t, LocalEdit(i, op));
    var u := Step(t, LocalEdit(i, op));
    assert Accounted(u.clients[i], i, EditId(t.clients[i]), Durable(u));
    RunAccounted(u, more, i, EditId(t.clients[i]));
  }

  lemma {:induction false} OpsDesync(c: C.State, ops: seq<C.WireOp>)
    requires !c.resetNext
    ensures C.ServerOps(c, ops).state.resetNext ==> C.ServerOps(c, ops).state.desynced
    decreases |ops|
  {
    if ops != [] {
      OpDesync(c, ops[0]);
      hide C.ServerOp;
      var first := C.ServerOp(c, ops[0]);
      if !first.state.resetNext {
        OpsDesync(first.state, ops[1..]);
      }
    }
  }

  lemma OpDesync(c: C.State, w: C.WireOp)
    requires !c.resetNext
    ensures C.ServerOp(c, w).state.resetNext ==> C.ServerOp(c, w).state.desynced
  {
    hide Run, BaseLen, Merge.Left, Merge.Right;
  }

  lemma ReceiveDesync(c: C.State, m: C.ServerMsg)
    requires !c.resetNext && !m.Refused?
    ensures C.Receive(c, m).state.resetNext ==> C.Receive(c, m).state.desynced
  {
    hide C.ServerOp, C.ServerOps;
    match m
    case Init(rev, text, ops) => OpsDesync(c, ops);
    case Broadcast(w) => OpDesync(c, w);
    case Ack(rev, id) =>
    case Refused =>
  }

  lemma ReceiveInSync(s: System, i: nat)
    requires SystemOk(s) && Enabled(s, ClientReceives(i)) && !s.clients[i].resetNext
    ensures i < |DeliverToClient(s, i).clients|
    ensures DeliverToClient(s, i).clients[i].resetNext <==> s.conns[s.clients[i].conn.value].out[0].Refused?
  {
    hide C.Receive, SystemOk, ClientOk;
    ClientSteps.ReceiveStep(s, i);
    GetClient(DeliverToClient(s, i), i);
    var m := s.conns[s.clients[i].conn.value].out[0];
    assert !DeliverToClient(s, i).clients[i].desynced by { NotDesynced(DeliverToClient(s, i), i); }
    if m.Refused? {
      assert C.Receive(s.clients[i], m).state.resetNext by { RefusedSays(s.clients[i]); }
    } else {
      ReceiveDesync(s.clients[i], m);
    }
  }

  lemma NotDesynced(s: System, i: nat)
    requires i < |s.clients| && ClientOk(s.clients[i], i, s.conns, Durable(s), s.doc.history)
    ensures !s.clients[i].desynced
  {
  }

  lemma RefusedSays(c: C.State)
    ensures C.Receive(c, C.Refused).state.resetNext
  {
  }

  // A client gets out of sync in two ways only: a connection is given up because of
  // a message that was too large, or the server refused something.
  lemma OutOfSyncOnlyIf(s: System, events: seq<Event>, e: Event, i: nat)
    requires Initial(s) && CanRun(s, events) && Enabled(After(s, events), e) && i < |After(s, events).clients|
    requires !After(s, events).clients[i].resetNext
    ensures i < |Step(After(s, events), e).clients|
    ensures var t := After(s, events);
      Step(t, e).clients[i].resetNext <==>
        || e == Drop(i, true)
        || (e == ClientReceives(i) && t.conns[t.clients[i].conn.value].out[0].Refused?)
  {
    hide SystemOk, CanRun, Initial, HandleBeginRead, HandlePropose, DeliverToServer, C.Receive, Replay;
    var t := After(s, events);
    Runs.ReachableOk(s, events);
    match e
    case LocalEdit(j, op) => EditStaysInSync(t.clients[j], op);
    case ClientReceives(j) =>
      if j == i {
        ReceiveInSync(t, i);
      }
    case ServerReads(x) => ReadsKeepLog(t, x);
    case BeginRead(_, _, _) => AgentsKeepClients(t, e);
    case Propose(_, _, _) => AgentsKeepClients(t, e);
    case _ =>
  }

  lemma EditStaysInSync(c: C.State, op: Op)
    requires c.rev.Some?
    ensures C.ApplyLocal(c, op).state.resetNext == c.resetNext
  {
  }
}
