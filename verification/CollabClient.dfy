// The sync client as the browser runs it: an object whose methods update its
// fields and post messages on its socket. Each method is proved to do what the
// state machine in Client says.
module CollabClientCode {
  import opened Results
  import opened Ops
  import opened Merge
  import opened Client

  class CollabClient {
    var text: Text
    var rev: Option<nat>
    var outstanding: Option<PendingOp>
    var buffer: Option<Op>
    var counter: nat
    var socket: Option<nat>
    var ready: bool
    var resetNext: bool
    var desynced: bool
    var outbox: seq<ClientMsg> // everything posted so far

    function View(): State
      reads this
    {
      State(text, rev, outstanding, buffer, counter, socket, ready, resetNext, desynced)
    }

    constructor ()
      ensures View() == Fresh && outbox == []
    {
      text, rev, outstanding, buffer, counter := [], None, None, None, 0;
      socket, ready, resetNext, desynced, outbox := None, false, false, false, [];
    }

    // Lands in the state of an outcome, its messages posted.
    twostate predicate Did(o: Outcome)
      reads this
    {
      View() == o.state && outbox == old(outbox) + o.sent
    }

    method Send(m: ClientMsg)
      modifies this`outbox
      ensures outbox == old(outbox) + if socket.Some? then [m] else []
    {
      if socket.Some? {
        outbox := outbox + [m];
      }
    }

    method NextId() returns (id: nat)
      modifies this`counter
      ensures counter == old(counter) + 1 && id == counter
    {
      counter := counter + 1;
      id := counter;
    }

    method SendOutstanding()
      requires outstanding.Some? && rev.Some?
      modifies this`outbox
      ensures outbox == old(outbox) + OutstandingMsgs(View())
    {
      Send(Submit(rev.value, outstanding.value.id, outstanding.value.op));
    }

    // Reconnects on a new socket, saying which revision is held.
    method Connect(s: nat)
      modifies this
      ensures View() == old(View()).(conn := Some(s), ready := false)
      ensures outbox == old(outbox) + [Hello(if old(resetNext) then None else old(rev))]
    {
      socket := Some(s);
      ready := false;
      var known := None;
      if rev.Some? && !resetNext {
        known := rev;
      }
      Send(Hello(known));
    }

    method Abandon()
      modifies this
      ensures View() == old(View()).(conn := None, ready := false) && outbox == old(outbox)
    {
      socket := None;
      ready := false;
    }

    method LoseSync()
      modifies this
      ensures Did(Desync(old(View())))
    {
      resetNext := true;
      desynced := true;
      Abandon();
    }

    method ApplyLocalEdit(op: Op)
      requires rev.Some?
      modifies this
      ensures Did(ApplyLocal(old(View()), op))
    {
      if IsNoop(op) {
        return;
      }
      text := Run(op, text);
      if outstanding.None? {
        var id := NextId();
        outstanding := Some(PendingOp(id, op));
        if ready {
          SendOutstanding();
        }
      } else {
        buffer := Some(if buffer.Some? then Composed(buffer.value, op) else op);
      }
    }

    method Acknowledge(revision: nat)
      modifies this
      ensures Did(Acknowledged(old(View()), revision))
    {
      if rev.None? || revision != rev.value + 1 {
        LoseSync();
        return;
      }
      rev := Some(revision);
      outstanding := None;
      if buffer.Some? {
        var id := NextId();
        outstanding := Some(PendingOp(id, buffer.value));
        buffer := None;
        SendOutstanding();
      }
    }

    method FoldServerOp(w: WireOp)
      modifies this
      ensures Did(ServerOp(old(View()), w))
    {
      if outstanding.Some? && w.id == Some(outstanding.value.id) {
        // The commit of what is outstanding, told by the operation itself: the
        // acknowledgement went to a connection that is gone.
        Acknowledge(w.rev);
        return;
      }
      if rev.None? || w.rev != rev.value + 1 {
        LoseSync();
        return;
      }
      var op, pending, later := w.op, outstanding, buffer;
      if pending.Some? {
        if BaseLen(pending.value.op) != BaseLen(op) {
          LoseSync();
          return;
        }
        pending, op := Some(PendingOp(pending.value.id, Left(pending.value.op, op))), Right(pending.value.op, op);
      }
      if later.Some? {
        if BaseLen(later.value) != BaseLen(op) {
          LoseSync();
          return;
        }
        later, op := Some(Left(later.value, op)), Right(later.value, op);
      }
      if BaseLen(op) != |text| {
        LoseSync();
        return;
      }
      outstanding, buffer, text, rev := pending, later, Run(op, text), Some(w.rev);
    }

    method Handle(m: ServerMsg)
      modifies this
      ensures Did(Receive(old(View()), m))
    {
      // Out of sync, nothing but a whole text means anything.
      if resetNext && !m.Init? && !m.Refused? {
        return;
      }
      match m
      case Init(r, t, ops) => HandleInit(r, t, ops);
      case Broadcast(w) => FoldServerOp(w);
      case Ack(r, id) =>
        if outstanding.Some? && id == outstanding.value.id {
          Acknowledge(r);
        }
      case Refused => resetNext := true;
    }

    // Folds in the missed operations, until sync is lost.
    method FoldMissed(ops: seq<WireOp>)
      modifies this
      ensures Did(ServerOps(old(View()), ops))
    {
      hide ServerOp;
      ghost var before := View();
      for k := 0 to |ops|
        invariant old(outbox) <= outbox
        invariant ServerOps(before, ops)
               == (var rest := ServerOps(View(), ops[k..]); Outcome(rest.state, outbox[|old(outbox)|..] + rest.sent))
      {
        assert ops[k..][0] == ops[k] && ops[k..][1..] == ops[k + 1..];
        ghost var sent, c := outbox[|old(outbox)|..], View();
        FoldServerOp(ops[k]);
        ghost var first := ServerOp(c, ops[k]);
        assert outbox[|old(outbox)|..] == sent + first.sent;
        if resetNext {
          // The missed operations did not fit; the rest is void.
          assert outbox == old(outbox) + outbox[|old(outbox)|..];
          return;
        }
        ghost var rest := ServerOps(View(), ops[k + 1..]);
        assert sent + (first.sent + rest.sent) == (sent + first.sent) + rest.sent;
      }
      assert ops[|ops|..] == [];
      assert outbox == old(outbox) + outbox[|old(outbox)|..];
    }

    method HandleInit(r: nat, t: Option<Text>, ops: seq<WireOp>)
      modifies this
      ensures Did(ReceiveInit(old(View()), r, t, ops))
    {
      hide ServerOps;
      ghost var missed := ServerOps(View(), ops);
      NoMissed(View());
      if t.Some? {
        text, rev, outstanding, buffer, resetNext := t.value, Some(r), None, None, false;
      } else {
        FoldMissed(ops);
        if ops != [] && resetNext {
          return;
        }
        if rev != Some(r) {
          LoseSync();
          return;
        }
      }
      ready := true;
      if outstanding.Some? && rev.Some? {
        SendOutstanding();
      }
      assert t.None? ==> outbox == old(outbox) + (missed.sent + OutstandingMsgs(missed.state));
    }
  }

  lemma NoMissed(c: State)
    ensures ServerOps(c, []) == Outcome(c, [])
  {
  }
}
