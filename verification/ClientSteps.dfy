// Steps a client takes keep the system as it should be.
module ClientSteps {
  import opened Results
  import opened Ops
  import opened Characters
  import opened History
  import opened Document
  import opened LiveSystem
  import opened Convergence
  import C = Client

  /******* Steps without a connection *******/

  lemma OfflineStep(s: System, i: nat, c: C.State)
    requires SystemOk(s) && i < |s.clients|
    requires c.conn.None? && !c.ready && !c.desynced
    requires c.rev.Some? ==> c.rev.value <= |Durable(s)|
    requires C.Core(c, i, s.doc.history, FlyingOf(s.conns, i))
    ensures SystemOk(s.(clients := s.clients[i := c]))
  {
    hide C.Core, Replay, ConnOk, ConnTrue, ServerOk, CurrentOk;
    var t := s.(clients := s.clients[i := c]);
    assert ServerOk(s);
    SameServer(s, t);
    forall y | 0 <= y < |t.conns| && t.conns[y].client == i
      ensures ConnOk(t.conns[y]) && ConnTrue(t.conns[y], Durable(t), t.doc.history)
    {
      GetConn(s, y);
    }
    OneClientStep(s, t, i);
  }

  // Flags about the connection do not matter to what binds text and history.
  lemma CoreIgnoresLink(c: C.State, d: C.State, i: nat, h: seq<Commit>, flying: set<C.ClientMsg>)
    requires C.Core(c, i, h, flying)
    requires d == c.(conn := d.conn, ready := d.ready, resetNext := d.resetNext, desynced := d.desynced)
    ensures C.Core(d, i, h, flying)
  {
    hide Ops.Run, Safe, Normal, BaseLen, Play, CatchUp, RevisionOf;
    assert C.InStep(d, h);
    forall m | m in flying ensures C.FlyingOk(d, i, h, m) {
      assert C.FlyingOk(c, i, h, m);
    }
  }

  lemma DropStep(s: System, i: nat, tooLarge: bool)
    requires SystemOk(s) && i < |s.clients|
    ensures SystemOk(DropClient(s, i, tooLarge))
  {
    hide C.Core, Replay, CurrentOk, FlyingOf;
    GetClient(s, i);
    var c := s.clients[i];
    var d := c.(conn := None, ready := false, resetNext := c.resetNext || tooLarge);
    CoreIgnoresLink(c, d, i, s.doc.history, FlyingOf(s.conns, i));
    OfflineStep(s, i, d);
  }

  lemma ConnectStep(s: System, i: nat, user: Author)
    requires SystemOk(s) && i < |s.clients|
    ensures SystemOk(ConnectClient(s, i, user))
  {
    hide C.Core, Replay, ConnTrue, ServerOk, ReadyOk;
    GetClient(s, i);
    var c := s.clients[i];
    var t := ConnectClient(s, i, user);
    var d, k := t.clients[i], t.conns[|s.conns|];
    assert ServerOk(s);
    SameServer(s, t);
    NewConnFlying(s.conns, k, i);
    CoreIgnoresLink(c, d, i, s.doc.history, FlyingOf(s.conns, i));
    HelloFlies(d, i, s.doc.history, FlyingOf(s.conns, i), k.toServer[0], FlyingOf(t.conns, i));
    assert CurrentOk(d, i, k, s.doc.history);
    forall y | 0 <= y < |t.conns| && t.conns[y].client == i
      ensures ConnOk(t.conns[y]) && ConnTrue(t.conns[y], Durable(t), t.doc.history)
    {
      if y < |s.conns| {
        GetConn(s, y);
      } else {
        EmptyConnTrue(k, Durable(s), s.doc.history);
      }
    }
    OneClientStep(s, t, i);
  }

  lemma EmptyConnTrue(k: Conn, durable: seq<Commit>, h: seq<Commit>)
    requires k.out == [] && k.pend == []
    ensures ConnTrue(k, durable, h)
  {
  }

  lemma NewConnFlying(conns: seq<Conn>, k: Conn, i: nat)
    requires |k.toServer| == 1
    ensures FlyingOf(conns + [k], i) <= FlyingOf(conns, i) + {k.toServer[0]}
  {
  }

  lemma HelloFlies(c: C.State, i: nat, h: seq<Commit>, flying: set<C.ClientMsg>, hello: C.ClientMsg, more: set<C.ClientMsg>)
    requires C.Core(c, i, h, flying) && hello.Hello? && more <= flying + {hello}
    ensures C.Core(c, i, h, more)
  {
    hide C.InStep, C.KeysKnown, C.CommittedOk;
  }

  /******* Editing and asking *******/

  lemma EditKeepsReady(c: C.State, i: nat, k: Conn, h: seq<Commit>, op: Op, flying: set<C.ClientMsg>)
    requires ReadyOk(c, i, k, h) && c.ready && c.conn.Some? && C.InStep(c, h)
    requires C.KeysKnown(c, i, h)
    ensures ReadyOk(C.ApplyLocal(c, op).state, i, Used(k, 0, C.ApplyLocal(c, op).sent), h)
  {
    hide Ops.Run, BaseLen, Play, RevisionOf, StreamFrom;
    var o := C.ApplyLocal(c, op);
    var k' := Used(k, 0, o.sent);
    assert Stream(k') == Stream(k);
    if |o.sent| > 0 {
      assert k'.toServer[|k.toServer|] == o.sent[0];
    }
    if !c.resetNext && Live(k) {
      assert OutstandingSent(k'.toServer, o.state, i, h) by {
        if c.outstanding.Some? && RevisionOf(h, C.KeyOf(i, c)) == 0 {
          var j :| 0 <= j < |k.toServer| && k.toServer[j].Submit? && k.toServer[j].id == c.outstanding.value.id;
          assert k'.toServer[j] == k.toServer[j];
        }
      }
    }
  }

  lemma LocalEditStep(s: System, i: nat, op: Op)
    requires SystemOk(s) && Enabled(s, LocalEdit(i, op))
    ensures SystemOk(Step(s, LocalEdit(i, op)))
  {
    hide C.Core, Replay, ConnOk, ConnTrue, ServerOk, FlyingOf, ReadyOk, ValidOn, Ops.Run;
    GetClient(s, i);
    var c, h := s.clients[i], s.doc.history;
    C.ApplyLocalCore(c, i, h, FlyingOf(s.conns, i), op);
    var o := C.ApplyLocal(c, op);
    assert NoHello(o.sent);
    if c.conn.None? {
      assert o.sent == [];
      assert FlyingOf(s.conns, i) + C.Sent([]) == FlyingOf(s.conns, i);
      OfflineStep(s, i, o.state);
    } else {
      var x := c.conn.value;
      var k := s.conns[x];
      assert k.out[0..] == k.out;
      if c.ready {
        C.CoreParts(c, i, h, FlyingOf(s.conns, i));
        EditKeepsReady(c, i, k, h, op, FlyingOf(s.conns, i));
        ReadyJoined(c, i, k, h);
      } else {
        assert o.sent == [];
        assert k.toServer + [] == k.toServer;
        EditKeepsWaiting(c, o.state, k, h);
      }
      PostStep(s, i, x, 0, o);
      assert Step(s, LocalEdit(i, op)) == s.(clients := s.clients[i := o.state], conns := s.conns[x := Used(k, 0, o.sent)]);
    }
  }

  lemma ReadyJoined(c: C.State, i: nat, k: Conn, h: seq<Commit>)
    requires ReadyOk(c, i, k, h)
    ensures k.joined
  {
  }

  lemma EditKeepsWaiting(c: C.State, d: C.State, k: Conn, h: seq<Commit>)
    requires WaitingOk(c, k, h) && d.rev == c.rev && d.resetNext == c.resetNext
    ensures WaitingOk(d, k, h)
  {
  }

  lemma ResolveKeepsCurrent(c: C.State, i: nat, k: Conn, h: seq<Commit>, m: C.ClientMsg)
    requires CurrentOk(c, i, k, h) && ConnOk(k) && m.Resolve?
    ensures CurrentOk(c, i, Used(k, 0, [m]), h)
  {
    hide RevisionOf, StreamFrom;
    var k' := Used(k, 0, [m]);
    assert Stream(k') == Stream(k);
    if c.ready && !c.resetNext && Live(k) && c.outstanding.Some? && RevisionOf(h, C.KeyOf(i, c)) == 0 {
      var j :| 0 <= j < |k.toServer| && k.toServer[j].Submit? && k.toServer[j].id == c.outstanding.value.id;
      assert k'.toServer[j] == k.toServer[j];
    }
  }

  lemma AskResolveStep(s: System, i: nat, sid: nat, action: C.ResolveAction)
    requires SystemOk(s) && i < |s.clients|
    ensures SystemOk(Step(s, AskResolve(i, sid, action)))
  {
    hide C.Core, Replay, ConnOk, ConnTrue, ServerOk, FlyingOf, ReadyOk, WaitingOk;
    GetClient(s, i);
    var c, h := s.clients[i], s.doc.history;
    if c.conn.None? {
      assert s.clients[i := c] == s.clients;
    } else {
      var x, m := c.conn.value, C.Resolve(sid, action);
      GetConn(s, x);
      ResolveKeepsCurrent(c, i, s.conns[x], h, m);
      HarmlessFlies(c, i, h, FlyingOf(s.conns, i), m);
      assert s.conns[x].out[0..] == s.conns[x].out;
      PostStep(s, i, x, 0, C.Outcome(c, [m]));
    }
  }

  lemma HarmlessFlies(c: C.State, i: nat, h: seq<Commit>, flying: set<C.ClientMsg>, m: C.ClientMsg)
    requires C.Core(c, i, h, flying) && !m.Submit?
    ensures C.Core(c, i, h, flying + C.Sent([m]))
  {
    hide C.InStep, C.KeysKnown, C.CommittedOk;
  }

  /******* Receiving *******/

  // The full text arrives: pending edits, if any, are given up.
  lemma ResetCore(c: C.State, i: nat, h: seq<Commit>, flying: set<C.ClientMsg>, rev: nat, text: Text)
    requires C.Core(c, i, h, flying) && rev <= |h| && text == TextAt(h, rev)
    ensures var o := C.ReceiveInit(c, rev, Some(text), []);
      && C.Core(o.state, i, h, flying + C.Sent(o.sent)) && o.sent == []
      && o.state == c.(text := text, rev := Some(rev), outstanding := None, buffer := None, resetNext := false, ready := true)
  {
    hide Ops.Run, Safe, Normal, BaseLen, Play, RevisionOf;
    var o := C.ReceiveInit(c, rev, Some(text), []);
    C.CoreParts(c, i, h, flying);
    C.NothingPending(c, i, h, flying, o.state);
    assert flying + C.Sent([]) == flying;
  }

  lemma ReceiveText(c: C.State, i: nat, k: Conn, h: seq<Commit>, flying: set<C.ClientMsg>)
    requires CurrentOk(c, i, k, h) && !c.ready && k.joined && k.out != [] && ConnOk(k)
    requires MsgTrue(k.out[0], i, h) && k.out[0].text.Some? && C.Core(c, i, h, flying)
    requires c.conn.Some?
    ensures var o := C.Receive(c, k.out[0]);
      && C.Core(o.state, i, h, flying + C.Sent(o.sent)) && o.sent == []
      && ReadyOk(o.state, i, Used(k, 1, o.sent), h)
      && o.state.ready && o.state.conn == c.conn && o.state.desynced == c.desynced && o.state.rev == Some(k.out[0].rev)
  {
    hide C.Core, Ops.Run, BaseLen, Play, RevisionOf;
    var m := k.out[0];
    assert Stream(k)[0] == m;
    ResetCore(c, i, h, flying, m.rev, m.text.value);
    var o := C.Receive(c, m);
    assert o == C.ReceiveInit(c, m.rev, Some(m.text.value), []);
    var k' := Used(k, 1, o.sent);
    assert Stream(k') == Stream(k)[1..];
    assert k'.toServer == k.toServer;
  }

  // The missed operations arrive: the client rebases its pending edits.
  lemma ReceiveMissed(c: C.State, i: nat, k: Conn, h: seq<Commit>, flying: set<C.ClientMsg>)
    requires CurrentOk(c, i, k, h) && !c.ready && k.joined && k.out != [] && ConnOk(k)
    requires MsgTrue(k.out[0], i, h) && k.out[0].Init? && k.out[0].text.None? && C.Core(c, i, h, flying)
    requires Chain([], h) && KeysDistinct(h) && c.conn.Some?
    ensures var o := C.Receive(c, k.out[0]);
      && C.Core(o.state, i, h, flying + C.Sent(o.sent)) && NoHello(o.sent)
      && ReadyOk(o.state, i, Used(k, 1, o.sent), h)
      && o.state.ready && o.state.conn == c.conn && o.state.desynced == c.desynced && o.state.rev == Some(k.out[0].rev)
  {
    hide C.Core, C.ServerOps, Ops.Run, BaseLen, Play, RevisionOf, Chain, KeysDistinct, C.InStep;
    var m := k.out[0];
    assert Stream(k)[0] == m;
    C.ServerOpsCore(c, i, h, flying, m.ops);
    var caught := C.ServerOps(c, m.ops);
    var d := caught.state;
    var o := C.Receive(c, m);
    var copies := C.OutstandingMsgs(d);
    assert o == C.Outcome(d.(ready := true), caught.sent + copies);
    CoreIgnoresLink(d, o.state, i, h, flying + C.Sent(caught.sent));
    CopyFlies(o.state, i, h, flying + C.Sent(caught.sent));
    assert C.OutstandingMsgs(o.state) == copies;
    assert flying + C.Sent(caught.sent) + C.Sent(copies) == flying + C.Sent(o.sent);
    var k' := Used(k, 1, o.sent);
    assert Stream(k') == Stream(k)[1..];
    MissedSubmits(k.toServer, caught.sent, copies, o.state, i, h);
  }

  lemma CopyFlies(c: C.State, i: nat, h: seq<Commit>, flying: set<C.ClientMsg>)
    requires C.Core(c, i, h, flying)
    ensures C.Core(c, i, h, flying + C.Sent(C.OutstandingMsgs(c)))
  {
    hide Ops.Run, Safe, Normal, BaseLen, Play, RevisionOf;
    if c.outstanding.Some? && c.rev.Some? {
      C.CopyOfOutstanding(c, i, h);
    }
  }

  lemma MissedSubmits(queue: seq<C.ClientMsg>, sent: seq<C.ClientMsg>, copies: seq<C.ClientMsg>, c: C.State, i: nat, h: seq<Commit>)
    requires NoSubmit(queue) && copies == C.OutstandingMsgs(c) && c.conn.Some? && c.rev.Some?
    requires forall k :: 0 <= k < |sent| ==>
      && sent[k].Submit?
      && ((c.outstanding.Some? && sent[k].id == c.outstanding.value.id) || 0 < RevisionOf(h, OpKey(i, sent[k].id)))
    ensures SubmitsKnown(queue + (sent + copies), c, i, h) && OutstandingSent(queue + (sent + copies), c, i, h)
    ensures NoHello(sent + copies)
  {
    hide RevisionOf;
    var all := queue + (sent + copies);
    forall k | 0 <= k < |all| && all[k].Submit?
      ensures (c.outstanding.Some? && all[k].id == c.outstanding.value.id) || RevisionOf(h, OpKey(i, all[k].id)) > 0
    {
      if |queue| <= k < |queue| + |sent| {
        assert all[k] == sent[k - |queue|];
      } else if |queue| + |sent| <= k {
        assert all[k] == copies[k - |queue| - |sent|];
      }
    }
    if c.outstanding.Some? {
      assert all[|queue| + |sent|] == copies[0];
    }
  }

  /******* One announcement *******/

  // After the announcement of its own commit the client waits on something else.
  lemma ReadyAfterAck(c: C.State, d: C.State, i: nat, k: Conn, h: seq<Commit>, sent: seq<C.ClientMsg>)
    requires ReadyOk(c, i, k, h) && !c.resetNext && k.out != [] && !k.out[0].Refused?
    requires c.outstanding.Some? && c.rev.value < |h| && h[c.rev.value].key == Some(C.KeyOf(i, c))
    requires KeysDistinct(h) && AllTrue(Stream(k), i, h)
    requires d.rev == Some(c.rev.value + 1) && !d.resetNext && sent == C.OutstandingMsgs(d) && d.conn.Some?
    ensures ReadyOk(d, i, Used(k, 1, sent), h)
  {
    hide RevisionOf, C.WireMatches;
    var s, k' := Stream(k), Used(k, 1, sent);
    assert Stream(k') == s[1..];
    C.FoundAtMost(h, c.rev.value, C.KeyOf(i, c));
    assert NoAck(s[1..]) by {
      var r := c.rev.value;
      assert forall k :: 0 <= k < |h| && k != r ==> h[k].key != h[r].key;
      forall j | 0 < j < |s| ensures !s[j].Ack? {
        assert MsgTrue(s[j], i, h);
      }
    }
    if Live(k) {
      forall j | 0 <= j < |k'.toServer| && k'.toServer[j].Submit?
        ensures (d.outstanding.Some? && k'.toServer[j].id == d.outstanding.value.id) || RevisionOf(h, OpKey(i, k'.toServer[j].id)) > 0
      {
        if j < |k.toServer| {
          assert k'.toServer[j] == k.toServer[j];
        } else {
          assert k'.toServer[j] == sent[j - |k.toServer|];
        }
      }
      if d.outstanding.Some? {
        assert k'.toServer[|k.toServer|] == sent[0];
      }
    }
  }

  // Someone else's commit leaves the client waiting on the same operation.
  lemma ReadyAfterRemote(c: C.State, d: C.State, i: nat, k: Conn, h: seq<Commit>)
    requires ReadyOk(c, i, k, h) && !c.resetNext && k.out != [] && !k.out[0].Refused?
    requires d.rev == Some(c.rev.value + 1) && !d.resetNext
    requires d.outstanding.Some? == c.outstanding.Some?
    requires c.outstanding.Some? ==> d.outstanding.value.id == c.outstanding.value.id
    ensures ReadyOk(d, i, Used(k, 1, []), h)
  {
    hide RevisionOf;
    var k' := Used(k, 1, []);
    assert Stream(k') == Stream(k)[1..];
    assert k'.toServer == k.toServer;
  }

  lemma ReceiveAnnouncement(c: C.State, i: nat, k: Conn, h: seq<Commit>, flying: set<C.ClientMsg>)
    requires ReadyOk(c, i, k, h) && c.ready && !c.resetNext && k.out != [] && c.conn.Some?
    requires AllTrue(Stream(k), i, h) && C.Core(c, i, h, flying)
    requires k.out[0].Broadcast? || k.out[0].Ack?
    requires Chain([], h) && KeysDistinct(h)
    ensures var o := C.Receive(c, k.out[0]);
      && C.Core(o.state, i, h, flying + C.Sent(o.sent)) && NoHello(o.sent)
      && ReadyOk(o.state, i, Used(k, 1, o.sent), h)
      && o.state.ready && o.state.conn == c.conn && o.state.desynced == c.desynced
      && o.state.rev == Some(MsgRev(k.out[0]))
  {
    hide C.Core, Ops.Run, BaseLen, Play, RevisionOf, Chain, KeysDistinct, C.InStep, ReadyOk;
    FirstAnnounced(c, i, k, h);
    var m, r := k.out[0], c.rev.value;
    var o := C.Receive(c, m);
    if m.Ack? || (c.outstanding.Some? && m.w.id == Some(c.outstanding.value.id)) {
      C.AcknowledgedCore(c, i, h, flying);
      assert o == C.Acknowledged(c, r + 1);
      ReadyAfterAck(c, o.state, i, k, h, o.sent);
    } else {
      C.RemoteOpCore(c, i, h, flying, m.w);
      assert flying + C.Sent([]) == flying;
      ReadyAfterRemote(c, o.state, i, k, h);
    }
  }

  // The next announcement is for the next revision, and if it carries the
  // client's id, that revision is the client's own operation.
  lemma FirstAnnounced(c: C.State, i: nat, k: Conn, h: seq<Commit>)
    requires ReadyOk(c, i, k, h) && !c.resetNext && k.out != [] && AllTrue(Stream(k), i, h)
    requires k.out[0].Broadcast? || k.out[0].Ack?
    ensures c.rev.Some? && MsgRev(k.out[0]) == c.rev.value + 1 <= |h|
    ensures var m := k.out[0];
      && (m.Ack? ==> c.outstanding.Some? && m.id == c.outstanding.value.id && h[c.rev.value].key == Some(C.KeyOf(i, c)))
      && (m.Broadcast? ==> C.WireMatches(m.w, c.rev.value + 1, h[c.rev.value], i))
      && (m.Broadcast? && c.outstanding.Some? && m.w.id == Some(c.outstanding.value.id) ==> h[c.rev.value].key == Some(C.KeyOf(i, c)))
  {
    assert Stream(k)[0] == k.out[0];
    assert MsgTrue(Stream(k)[0], i, h);
  }

  // A refused client ignores everything until the full text arrives.
  lemma ReceiveIgnored(c: C.State, i: nat, k: Conn, h: seq<Commit>, flying: set<C.ClientMsg>)
    requires ReadyOk(c, i, k, h) && c.ready && k.out != [] && (c.resetNext || k.out[0].Refused?)
    requires C.Core(c, i, h, flying)
    ensures var o := C.Receive(c, k.out[0]);
      && o == C.Outcome(c.(resetNext := true), []) && C.Core(o.state, i, h, flying + C.Sent(o.sent))
      && ReadyOk(o.state, i, Used(k, 1, []), h)
  {
    hide C.Core;
    assert Stream(k)[0] == k.out[0];
    var o := C.Receive(c, k.out[0]);
    CoreIgnoresLink(c, o.state, i, h, flying);
    assert flying + C.Sent([]) == flying;
    assert Stream(Used(k, 1, [])) == Stream(k)[1..];
  }

  lemma ReceiveStep(s: System, i: nat)
    requires SystemOk(s) && Enabled(s, ClientReceives(i))
    ensures SystemOk(DeliverToClient(s, i))
  {
    hide C.Core, Replay, ServerOk, FlyingOf, ReadyOk, MsgTrue, Chain, KeysDistinct, ConnOk, C.Receive, Used;
    GetClient(s, i);
    var c, h, x := s.clients[i], s.doc.history, s.clients[i].conn.value;
    var k, flying := s.conns[x], FlyingOf(s.conns, i);
    GetConn(s, x);
    assert ServerOk(s);
    DurableIsPrefix(s);
    DocHistory(s.doc);
    var m := k.out[0];
    assert MsgTrue(m, i, Durable(s)) && Stream(k)[0] == m && MsgTrue(Stream(k)[0], i, h);
    var o := C.Receive(c, m);
    ReceiveKeeps(c, i, k, h, flying);
    RevWithin(m, i, Durable(s));
    PostStep(s, i, x, 1, o);
    assert DeliverToClient(s, i) == s.(clients := s.clients[i := o.state], conns := s.conns[x := Used(k, 1, o.sent)]) by {
      PostedAs(s, i, x, o);
    }
  }

  lemma PostedAs(s: System, i: nat, x: nat, o: C.Outcome)
    requires Enabled(s, ClientReceives(i)) && s.clients[i].conn == Some(x)
    requires o == C.Receive(s.clients[i], s.conns[x].out[0]) && o.state.conn == Some(x)
    ensures DeliverToClient(s, i) == s.(clients := s.clients[i := o.state], conns := s.conns[x := Used(s.conns[x], 1, o.sent)])
  {
    hide C.Receive;
    var k := s.conns[x];
    var t := s.conns[x := k.(out := k.out[1..])];
    assert t[x := t[x].(toServer := t[x].toServer + o.sent)] == s.conns[x := Used(k, 1, o.sent)];
  }

  lemma DocHistory(d: Doc)
    requires DocOk(d)
    ensures Chain([], d.history) && KeysDistinct(d.history) && d.text == TextAt(d.history, |d.history|)
  {
    hide Chain, Play, KeysDistinct;
    assert d.history[..|d.history|] == d.history;
  }

  lemma RevWithin(m: C.ServerMsg, i: nat, durable: seq<Commit>)
    requires MsgTrue(m, i, durable)
    ensures MsgRev(m) <= |durable|
  {
    hide TextAt, C.WireMatches;
  }

  // Whatever message comes first, the client handles it in step.
  lemma ReceiveKeeps(c: C.State, i: nat, k: Conn, h: seq<Commit>, flying: set<C.ClientMsg>)
    requires CurrentOk(c, i, k, h) && ConnOk(k) && k.out != [] && c.conn.Some?
    requires AllTrue(Stream(k), i, h) && C.Core(c, i, h, flying)
    requires Chain([], h) && KeysDistinct(h)
    ensures var o := C.Receive(c, k.out[0]);
      && C.Core(o.state, i, h, flying + C.Sent(o.sent)) && NoHello(o.sent) && k.joined
      && CurrentOk(o.state, i, Used(k, 1, o.sent), h)
      && o.state.conn == c.conn && o.state.desynced == c.desynced
      && (o.state.rev == c.rev || o.state.rev == Some(MsgRev(k.out[0])))
  {
    hide C.Core, ReadyOk, Chain, KeysDistinct, C.Receive, MsgTrue;
    assert Stream(k)[0] == k.out[0] && MsgTrue(Stream(k)[0], i, h);
    if !c.ready {
      if k.out[0].text.Some? {
        ReceiveText(c, i, k, h, flying);
      } else {
        ReceiveMissed(c, i, k, h, flying);
      }
    } else {
      ReadyJoined(c, i, k, h);
      ReadyKinds(c, i, k, h);
      if c.resetNext || k.out[0].Refused? {
        ReceiveIgnored(c, i, k, h, flying);
      } else {
        ReceiveAnnouncement(c, i, k, h, flying);
      }
    }
  }

  lemma ReadyKinds(c: C.State, i: nat, k: Conn, h: seq<Commit>)
    requires ReadyOk(c, i, k, h) && k.out != []
    ensures !k.out[0].Init?
  {
    assert Stream(k)[0] == k.out[0];
  }
}
