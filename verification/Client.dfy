// The browser's side of a live document. What the user typed is in two layers on
// top of the server's text: one operation the server is asked to commit, and one
// that holds everything typed since. Both follow what others commit.
module Client {
  import opened Results
  import opened Ops
  import opened Merge
  import opened Characters
  import opened History

  /******* Messages *******/

  // What a client is told about a commit; the id is there for its author alone.
  datatype WireOp = WireOp(rev: nat, op: Op, id: Option<nat>)

  datatype ResolveAction = Accept | Reject

  datatype ClientMsg =
    | Hello(known: Option<nat>)
    | Submit(rev: nat, id: nat, op: Op)
    | Resolve(sid: nat, action: ResolveAction)

  datatype ServerMsg =
    | Init(rev: nat, text: Option<Text>, ops: seq<WireOp>)
    | Broadcast(w: WireOp)
    | Ack(rev: nat, id: nat)
    | Refused

  /******* State *******/

  datatype PendingOp = PendingOp(id: nat, op: Op)

  datatype State = State(
    text: Text,
    rev: Option<nat>,               // the revision text is built on
    outstanding: Option<PendingOp>, // in flight, or waiting for a connection
    buffer: Option<Op>,             // edits made since outstanding
    counter: nat,                   // ids handed out so far
    conn: Option<nat>,              // the socket in use
    ready: bool,                    // init received on it
    resetNext: bool,                // out of sync until a whole text comes
    desynced: bool)                 // local state was ever found out of line

  const Fresh := State([], None, None, None, 0, None, false, false, false)

  datatype Outcome = Outcome(state: State, sent: seq<ClientMsg>)

  function OutstandingMsgs(c: State): seq<ClientMsg> {
    if c.conn.Some? && c.outstanding.Some? && c.rev.Some? then
      [Submit(c.rev.value, c.outstanding.value.id, c.outstanding.value.op)]
    else []
  }

  function Desync(c: State): Outcome {
    Outcome(c.(resetNext := true, desynced := true, conn := None, ready := false), [])
  }

  function ApplyLocal(c: State, op: Op): Outcome
    requires c.rev.Some?
  {
    if IsNoop(op) then Outcome(c, [])
    else
      var d := c.(text := Run(op, c.text));
      if c.outstanding.None? then
        var e := d.(outstanding := Some(PendingOp(c.counter + 1, op)), counter := c.counter + 1);
        Outcome(e, if c.ready then OutstandingMsgs(e) else [])
      else
        Outcome(d.(buffer := Some(if c.buffer.Some? then Composed(c.buffer.value, op) else op)), [])
  }

  // The server committed outstanding.
  function Acknowledged(c: State, rev: nat): Outcome {
    if c.rev.None? || rev != c.rev.value + 1 then Desync(c)
    else
      var d := c.(rev := Some(rev), outstanding := None);
      if c.buffer.None? then Outcome(d, [])
      else
        var e := d.(outstanding := Some(PendingOp(c.counter + 1, c.buffer.value)), counter := c.counter + 1, buffer := None);
        Outcome(e, OutstandingMsgs(e))
  }

  // One pending operation rebased over an incoming one, and the other way
  // round; with nothing pending the incoming one passes unchanged.
  function Over(pending: Option<Op>, op: Op): (Option<Op>, Op) {
    if pending.None? then (None, op)
    else (Some(Left(pending.value, op)), Right(pending.value, op))
  }

  // Whether rebasing and applying would throw for want of matching lengths.
  predicate Applies(pending: Option<Op>, op: Op) {
    pending.Some? ==> BaseLen(pending.value) == BaseLen(op)
  }

  function OutstandingOp(c: State): Option<Op> {
    if c.outstanding.Some? then Some(c.outstanding.value.op) else None
  }

  function ServerOp(c: State, w: WireOp): Outcome {
    if c.outstanding.Some? && w.id == Some(c.outstanding.value.id) then Acknowledged(c, w.rev)
    else if c.rev.None? || w.rev != c.rev.value + 1 then Desync(c)
    else
      var (out', op1) := Over(OutstandingOp(c), w.op);
      var (buffer', op2) := Over(c.buffer, op1);
      if !Applies(OutstandingOp(c), w.op) || !Applies(c.buffer, op1) || BaseLen(op2) != |c.text| then Desync(c)
      else
        Outcome(c.(
          outstanding := if out'.Some? then Some(PendingOp(c.outstanding.value.id, out'.value)) else None,
          buffer := buffer',
          text := Run(op2, c.text),
          rev := Some(w.rev)), [])
  }

  // The missed operations of an init, stopping once sync is lost.
  function ServerOps(c: State, ops: seq<WireOp>): Outcome
    decreases |ops|
  {
    if ops == [] then Outcome(c, [])
    else
      var first := ServerOp(c, ops[0]);
      if first.state.resetNext then first
      else
        var rest := ServerOps(first.state, ops[1..]);
        Outcome(rest.state, first.sent + rest.sent)
  }

  function MarkReady(c: State): Outcome {
    Outcome(c.(ready := true), OutstandingMsgs(c))
  }

  function ReceiveInit(c: State, rev: nat, text: Option<Text>, ops: seq<WireOp>): Outcome {
    if text.Some? then
      MarkReady(c.(text := text.value, rev := Some(rev), outstanding := None, buffer := None, resetNext := false))
    else
      var caught := ServerOps(c, ops);
      if ops != [] && caught.state.resetNext then caught
      else if caught.state.rev != Some(rev) then Outcome(Desync(caught.state).state, caught.sent)
      else
        var done := MarkReady(caught.state);
        Outcome(done.state, caught.sent + done.sent)
  }

  function Receive(c: State, m: ServerMsg): Outcome {
    match m
    case Init(rev, text, ops) => ReceiveInit(c, rev, text, ops)
    case Broadcast(w) => if c.resetNext then Outcome(c, []) else ServerOp(c, w)
    case Ack(rev, id) =>
      if c.resetNext then Outcome(c, [])
      else if c.outstanding.Some? && id == c.outstanding.value.id then Acknowledged(c, rev)
      else Outcome(c, [])
    case Refused => Outcome(c.(resetNext := true), [])
  }

  /******* What holds between a client and the server's history *******/

  function RunPending(pending: Option<Op>, doc: Text): Text {
    if pending.Some? then Run(pending.value, doc) else doc
  }

  ghost predicate PendingOn(pending: Option<Op>, doc: Text) {
    pending.Some? ==> ValidOn(pending.value, doc)
  }

  // The local text is the server's at this client's revision with outstanding
  // and then buffer applied.
  ghost predicate InStep(c: State, h: seq<Commit>) {
    && (c.outstanding.None? ==> c.buffer.None?)
    && (c.outstanding.Some? ==> c.outstanding.value.id == c.counter)
    && (c.rev.None? ==> c.outstanding.None?)
    && (c.rev.Some? ==>
          && c.rev.value <= |h|
          && PendingOn(OutstandingOp(c), TextAt(h, c.rev.value))
          && PendingOn(c.buffer, RunPending(OutstandingOp(c), TextAt(h, c.rev.value)))
          && c.text == RunPending(c.buffer, RunPending(OutstandingOp(c), TextAt(h, c.rev.value))))
  }

  function KeyOf(i: nat, c: State): OpKey
    requires c.outstanding.Some?
  {
    OpKey(i, c.outstanding.value.id)
  }

  // A copy of an operation on its way to the server. Until its operation is
  // committed, a copy of outstanding carried to this client's revision is
  // outstanding itself.
  ghost predicate FlyingOk(c: State, i: nat, h: seq<Commit>, m: ClientMsg) {
    m.Submit? ==>
      && m.id <= c.counter
      && m.rev <= |h|
      && ValidOn(m.op, TextAt(h, m.rev))
      && (c.outstanding.Some? && c.rev.Some? && m.id == c.outstanding.value.id && RevisionOf(h, KeyOf(i, c)) == 0 ==>
            m.rev <= c.rev.value <= |h| && CatchUp(m.op, h[m.rev..c.rev.value]) == c.outstanding.value.op)
  }

  // Once outstanding is committed, what the server committed is outstanding
  // carried up to there, and this client has not seen it yet.
  ghost predicate CommittedOk(c: State, i: nat, h: seq<Commit>) {
    c.outstanding.Some? && c.rev.Some? && RevisionOf(h, KeyOf(i, c)) > 0 ==>
      var k := RevisionOf(h, KeyOf(i, c));
      c.rev.value < k && h[k - 1].op == CatchUp(c.outstanding.value.op, h[c.rev.value..k - 1])
  }

  ghost predicate KeysKnown(c: State, i: nat, h: seq<Commit>) {
    forall id: nat :: RevisionOf(h, OpKey(i, id)) > 0 ==> id <= c.counter
  }

  ghost predicate Core(c: State, i: nat, h: seq<Commit>, flying: set<ClientMsg>) {
    && InStep(c, h)
    && KeysKnown(c, i, h)
    && CommittedOk(c, i, h)
    && forall m :: m in flying ==> FlyingOk(c, i, h, m)
  }

  // The message that tells client i about the commit at rev.
  predicate WireMatches(w: WireOp, rev: nat, commit: Commit, i: nat) {
    && w.rev == rev
    && w.op == commit.op
    && w.id == if commit.key.Some? && commit.key.value.client == i then Some(commit.key.value.id) else None
  }

  function Sent(msgs: seq<ClientMsg>): set<ClientMsg> {
    set m | m in msgs
  }

  /******* Local edits *******/

  lemma ComposedValid(a: Op, b: Op, doc: Text)
    requires ValidOn(a, doc) && ValidOn(b, Run(a, doc))
    ensures ValidOn(Composed(a, b), doc) && Run(Composed(a, b), doc) == Run(b, Run(a, doc))
  {
    hide Run, Safe, BaseLen, TargetLen, Composed;
    RunLength(a, doc);
    ComposeLaw(a, b, doc);
    ComposeSafe(a, b, doc);
  }

  lemma {:induction false} NoopRuns(op: Op, doc: Text)
    requires IsNoop(op) && BaseLen(op) == |doc|
    ensures Run(op, doc) == doc
  {
    if op == [] {
      assert doc == [];
    } else {
      assert op == [op[0]];
      LenSingle(op[0]);
      RunSingle(op[0], doc);
    }
  }

  lemma CopyOfOutstanding(c: State, i: nat, h: seq<Commit>)
    requires InStep(c, h) && c.outstanding.Some? && c.rev.Some?
    ensures forall m :: m in OutstandingMsgs(c) ==> FlyingOk(c, i, h, m)
  {
    hide Run, Safe, Normal, BaseLen, Play;
    assert h[c.rev.value..c.rev.value] == [];
  }

  lemma ApplyLocalCore(c: State, i: nat, h: seq<Commit>, flying: set<ClientMsg>, op: Op)
    requires Core(c, i, h, flying) && c.rev.Some? && ValidOn(op, c.text)
    ensures var o := ApplyLocal(c, op);
      && Core(o.state, i, h, flying + Sent(o.sent))
      && o.state.rev == c.rev && o.state.text == Run(op, c.text)
  {
    hide Run, Safe, Normal, BaseLen, Play, Composed, CatchUp, RevisionOf;
    var o := ApplyLocal(c, op);
    if IsNoop(op) {
      NoopRuns(op, c.text);
      assert flying + Sent([]) == flying;
    } else if c.outstanding.None? {
      NewOutstanding(c, i, h, flying, o.state);
      CopyOfOutstanding(o.state, i, h);
    } else {
      if c.buffer.Some? {
        ComposedValid(c.buffer.value, op, RunPending(OutstandingOp(c), TextAt(h, c.rev.value)));
      }
      forall m | m in flying ensures FlyingOk(o.state, i, h, m) {
        assert FlyingOk(c, i, h, m);
      }
      assert KeysKnown(o.state, i, h);
    }
  }

  // A new operation has a new id: nothing in flight or in the history has it.
  lemma NewOutstanding(c: State, i: nat, h: seq<Commit>, flying: set<ClientMsg>, d: State)
    requires KeysKnown(c, i, h) && (forall m :: m in flying ==> FlyingOk(c, i, h, m))
    requires d.counter == c.counter + 1 && d.outstanding.Some? && d.outstanding.value.id == d.counter
    ensures KeysKnown(d, i, h) && CommittedOk(d, i, h)
    ensures RevisionOf(h, KeyOf(i, d)) == 0
    ensures forall m :: m in flying ==> FlyingOk(d, i, h, m)
  {
    hide Run, Safe, Normal, BaseLen, Play, CatchUp;
    forall id: nat | RevisionOf(h, OpKey(i, id)) > 0 ensures id <= c.counter {
    }
    forall m | m in flying ensures FlyingOk(d, i, h, m) {
      assert FlyingOk(c, i, h, m);
    }
  }

  /******* One committed operation arrives *******/

  lemma OverValid(pending: Option<Op>, op: Op, doc: Text)
    requires PendingOn(pending, doc) && ValidOn(op, doc)
    ensures Applies(pending, op)
    ensures var over := Over(pending, op);
      && over.0.Some? == pending.Some?
      && PendingOn(over.0, Run(op, doc)) && ValidOn(over.1, RunPending(pending, doc))
      && Run(over.1, RunPending(pending, doc)) == RunPending(over.0, Run(op, doc))
  {
    hide Run, Safe, Normal, BaseLen, Merge.Left, Merge.Right;
    if pending.Some? {
      LeftValid(pending.value, op, doc);
    }
  }

  lemma RemoteOpCore(c: State, i: nat, h: seq<Commit>, flying: set<ClientMsg>, w: WireOp)
    requires Core(c, i, h, flying) && Chain([], h)
    requires c.rev.Some? && c.rev.value < |h| && WireMatches(w, c.rev.value + 1, h[c.rev.value], i)
    requires c.outstanding.Some? ==> w.id != Some(c.outstanding.value.id)
    ensures var o := ServerOp(c, w);
      && Core(o.state, i, h, flying) && o.sent == []
      && o.state == c.(text := o.state.text, rev := Some(w.rev), outstanding := o.state.outstanding, buffer := o.state.buffer)
      && o.state.outstanding.Some? == c.outstanding.Some?
      && (c.outstanding.Some? ==> o.state.outstanding.value.id == c.outstanding.value.id)
  {
    hide Run, Safe, Normal, BaseLen, Play, CatchUp, RevisionOf, Merge.Left, Merge.Right, Core;
    var r := c.rev.value;
    var base := TextAt(h, r);
    TextStep(h, r);
    assert InStep(c, h) by { CoreParts(c, i, h, flying); }
    OverValid(OutstandingOp(c), w.op, base);
    var (out', op1) := Over(OutstandingOp(c), w.op);
    OverValid(c.buffer, op1, RunPending(OutstandingOp(c), base));
    var o := ServerOp(c, w);
    assert InStep(o.state, h);
    RemotePending(c, i, h, flying, o.state);
  }

  lemma CoreParts(c: State, i: nat, h: seq<Commit>, flying: set<ClientMsg>)
    requires Core(c, i, h, flying)
    ensures InStep(c, h) && KeysKnown(c, i, h) && CommittedOk(c, i, h)
    ensures forall m :: m in flying ==> FlyingOk(c, i, h, m)
  {
  }

  // Outstanding moves one revision on; so do the relations that mention it.
  lemma RemotePending(c: State, i: nat, h: seq<Commit>, flying: set<ClientMsg>, d: State)
    requires Core(c, i, h, flying) && InStep(d, h)
    requires c.rev.Some? && c.rev.value < |h| && d.rev == Some(c.rev.value + 1) && d.counter == c.counter
    requires d.outstanding.Some? == c.outstanding.Some?
    requires c.outstanding.Some? ==>
      && h[c.rev.value].key != Some(KeyOf(i, c))
      && d.outstanding.value == PendingOp(c.outstanding.value.id, Left(c.outstanding.value.op, h[c.rev.value].op))
    ensures Core(d, i, h, flying)
  {
    hide Run, Safe, Normal, BaseLen, Play, CatchUp, Merge.Left, RevisionOf, InStep;
    var r := c.rev.value;
    assert KeysKnown(d, i, h);
    if c.outstanding.Some? {
      var key, o := KeyOf(i, c), c.outstanding.value.op;
      assert h[r..r + 1] == [h[r]];
      CatchUpOne(o, h[r]);
      var k := RevisionOf(h, key);
      if k > 0 {
        assert h[k - 1].key == Some(key);
        CatchUpVia(o, h, r, r + 1, k - 1);
      }
      forall m | m in flying ensures FlyingOk(d, i, h, m) {
        assert FlyingOk(c, i, h, m);
        if m.Submit? && m.id == key.id && k == 0 {
          CatchUpVia(m.op, h, m.rev, r, r + 1);
        }
      }
    } else {
      forall m | m in flying ensures FlyingOk(d, i, h, m) {
        assert FlyingOk(c, i, h, m);
      }
    }
  }

  // The client's rebased outstanding operation is, component for component, the
  // operation the server committed.
  lemma AcknowledgedIsCommitted(c: State, i: nat, h: seq<Commit>, flying: set<ClientMsg>)
    requires Core(c, i, h, flying) && KeysDistinct(h)
    requires c.rev.Some? && c.rev.value < |h| && c.outstanding.Some?
    requires h[c.rev.value].key == Some(KeyOf(i, c))
    ensures c.outstanding.value.op == h[c.rev.value].op
  {
    hide Run, Safe, Normal, BaseLen, Play, InStep, FlyingOk, KeysKnown;
    var k := RevisionOf(h, KeyOf(i, c));
    assert k == c.rev.value + 1;
    assert h[c.rev.value..k - 1] == [];
  }

  lemma AcknowledgedCore(c: State, i: nat, h: seq<Commit>, flying: set<ClientMsg>)
    requires Core(c, i, h, flying) && Chain([], h) && KeysDistinct(h)
    requires c.rev.Some? && c.rev.value < |h| && c.outstanding.Some?
    requires h[c.rev.value].key == Some(KeyOf(i, c))
    ensures var o := Acknowledged(c, c.rev.value + 1);
      && Core(o.state, i, h, flying + Sent(o.sent))
      && o.state == c.(rev := Some(c.rev.value + 1), outstanding := o.state.outstanding, buffer := None, counter := o.state.counter)
      && (o.state.outstanding.Some? ==> o.state.outstanding.value.id == c.counter + 1)
      && o.sent == OutstandingMsgs(o.state)
  {
    hide Run, Safe, Normal, BaseLen, Play, CatchUp, RevisionOf;
    AcknowledgedIsCommitted(c, i, h, flying);
    TextStep(h, c.rev.value);
    var o := Acknowledged(c, c.rev.value + 1);
    if c.buffer.Some? {
      NewOutstanding(c, i, h, flying, o.state);
      assert InStep(o.state, h);
      CopyOfOutstanding(o.state, i, h);
    } else {
      NothingPending(c, i, h, flying, o.state);
      assert flying + Sent([]) == flying;
    }
  }

  // With nothing outstanding the relations to copies and commits are empty.
  lemma NothingPending(c: State, i: nat, h: seq<Commit>, flying: set<ClientMsg>, d: State)
    requires KeysKnown(c, i, h) && (forall m :: m in flying ==> FlyingOk(c, i, h, m))
    requires d.counter == c.counter && d.outstanding.None?
    ensures KeysKnown(d, i, h) && CommittedOk(d, i, h)
    ensures forall m :: m in flying ==> FlyingOk(d, i, h, m)
  {
    hide Run, Safe, Normal, BaseLen, Play, CatchUp, RevisionOf;
    forall m | m in flying ensures FlyingOk(d, i, h, m) {
      assert FlyingOk(c, i, h, m);
    }
  }

  // Whatever the server says next about the history, the client stays in step.
  lemma ServerOpCore(c: State, i: nat, h: seq<Commit>, flying: set<ClientMsg>, w: WireOp)
    requires Core(c, i, h, flying) && Chain([], h) && KeysDistinct(h)
    requires c.rev.Some? && c.rev.value < |h| && WireMatches(w, c.rev.value + 1, h[c.rev.value], i)
    ensures var o := ServerOp(c, w);
      && Core(o.state, i, h, flying + Sent(o.sent))
      && o.state.rev == Some(w.rev)
      && SameLink(c, o.state)
      && CopiesOf(o.state, o.sent)
  {
    hide Core, Chain, KeysDistinct, Run, BaseLen, Merge.Left, Merge.Right;
    if c.outstanding.Some? && w.id == Some(c.outstanding.value.id) {
      AcknowledgedCore(c, i, h, flying);
    } else {
      RemoteOpCore(c, i, h, flying, w);
      assert flying + Sent([]) == flying;
    }
  }

  // Nothing about the connection changed.
  predicate SameLink(c: State, d: State) {
    c.conn == d.conn && c.ready == d.ready && c.resetNext == d.resetNext && c.desynced == d.desynced && c.counter <= d.counter
  }

  // Everything sent is a copy of what is outstanding now.
  predicate CopiesOf(c: State, sent: seq<ClientMsg>) {
    forall k :: 0 <= k < |sent| ==> sent[k].Submit? && c.outstanding.Some? && sent[k].id == c.outstanding.value.id
  }

  // The missed operations of an init are the commits from, from + 1, ...
  ghost predicate OpsMatch(ops: seq<WireOp>, from: nat, h: seq<Commit>, i: nat) {
    && from + |ops| <= |h|
    && forall k :: 0 <= k < |ops| ==> WireMatches(ops[k], from + k + 1, h[from + k], i)
  }

  lemma {:induction false} ServerOpsCore(c: State, i: nat, h: seq<Commit>, flying: set<ClientMsg>, ops: seq<WireOp>)
    requires Core(c, i, h, flying) && Chain([], h) && KeysDistinct(h)
    requires c.rev.Some? && OpsMatch(ops, c.rev.value, h, i) && !c.resetNext
    ensures var o := ServerOps(c, ops);
      && Core(o.state, i, h, flying + Sent(o.sent))
      && o.state.rev == Some(c.rev.value + |ops|)
      && SameLink(c, o.state)
      && (forall k :: 0 <= k < |o.sent| ==> o.sent[k].Submit?)
      && (forall k :: 0 <= k < |o.sent| ==>
            (o.state.outstanding.Some? && o.sent[k].id == o.state.outstanding.value.id)
            || 0 < RevisionOf(h, OpKey(i, o.sent[k].id)) <= o.state.rev.value)
    decreases |ops|
  {
    hide Core, Chain, Run, BaseLen, ServerOp, RevisionOf;
    if ops == [] {
      assert flying + Sent([]) == flying;
    } else {
      ServerOpCore(c, i, h, flying, ops[0]);
      var first := ServerOp(c, ops[0]);
      assert OpsMatch(ops[1..], first.state.rev.value, h, i) by {
        forall k | 0 <= k < |ops[1..]| ensures WireMatches(ops[1..][k], c.rev.value + 1 + k + 1, h[c.rev.value + 1 + k], i) {
          assert ops[1..][k] == ops[k + 1];
        }
      }
      ServerOpsCore(first.state, i, h, flying + Sent(first.sent), ops[1..]);
      var rest := ServerOps(first.state, ops[1..]);
      var o := ServerOps(c, ops);
      assert (flying + Sent(first.sent)) + Sent(rest.sent) == flying + Sent(o.sent);
      OutstandingRetires(first.state, i, h, flying + Sent(first.sent), ops[1..]);
    }
  }

  // An outstanding operation stays outstanding until its own commit is among
  // the operations received.
  lemma {:induction false} OutstandingRetires(c: State, i: nat, h: seq<Commit>, flying: set<ClientMsg>, ops: seq<WireOp>)
    requires Core(c, i, h, flying) && Chain([], h) && KeysDistinct(h)
    requires c.rev.Some? && OpsMatch(ops, c.rev.value, h, i) && !c.resetNext
    ensures c.outstanding.Some? ==>
      var d := ServerOps(c, ops).state;
      || (d.outstanding.Some? && d.outstanding.value.id == c.outstanding.value.id)
      || 0 < RevisionOf(h, KeyOf(i, c)) <= c.rev.value + |ops|
    decreases |ops|
  {
    hide Core, Chain, Run, BaseLen, KeysDistinct;
    if ops != [] && c.outstanding.Some? {
      ServerOpCore(c, i, h, flying, ops[0]);
      var first := ServerOp(c, ops[0]);
      if ops[0].id == Some(c.outstanding.value.id) {
        assert h[c.rev.value].key == Some(KeyOf(i, c));
        FoundAtMost(h, c.rev.value, KeyOf(i, c));
      } else {
        RemoteOpCore(c, i, h, flying, ops[0]);
        assert OpsMatch(ops[1..], first.state.rev.value, h, i) by {
          forall k | 0 <= k < |ops[1..]| ensures WireMatches(ops[1..][k], c.rev.value + 1 + k + 1, h[c.rev.value + 1 + k], i) {
            assert ops[1..][k] == ops[k + 1];
          }
        }
        OutstandingRetires(first.state, i, h, flying + Sent(first.sent), ops[1..]);
      }
    }
  }

  lemma FoundAtMost(h: seq<Commit>, k: nat, key: OpKey)
    requires KeysDistinct(h) && k < |h| && h[k].key == Some(key)
    ensures RevisionOf(h, key) == k + 1
  {
    var rev := RevisionOf(h, key);
    assert h[rev - 1].key == h[k].key;
  }

  /******* The history changes under a client *******/

  // The server committed something.
  lemma GrowCore(c: State, i: nat, h: seq<Commit>, flying: set<ClientMsg>, commit: Commit)
    requires Core(c, i, h, flying)
    requires commit.key.Some? && commit.key.value.client == i ==>
      && RevisionOf(h, commit.key.value) == 0
      && commit.key.value.id <= c.counter
      && (c.outstanding.Some? && c.rev.Some? && commit.key.value.id == c.outstanding.value.id ==>
            commit.op == CatchUp(c.outstanding.value.op, h[c.rev.value..]))
    ensures Core(c, i, h + [commit], flying)
  {
    hide Run, Safe, Normal, BaseLen, Play, CatchUp, RevisionOf;
    var h' := h + [commit];
    forall rev: nat | rev <= |h| ensures TextAt(h', rev) == TextAt(h, rev) {
      TextOfPrefix(h, h', rev);
    }
    forall id: nat ensures RevisionOf(h', OpKey(i, id)) == if commit.key == Some(OpKey(i, id)) then |h| + 1 else RevisionOf(h, OpKey(i, id)) {
      assert h'[..|h|] == h;
      RevisionGrow(h, commit, OpKey(i, id));
    }
    assert KeysKnown(c, i, h');
    forall m | m in flying ensures FlyingOk(c, i, h', m) {
      assert FlyingOk(c, i, h, m);
      if m.Submit? && c.rev.Some? && m.rev <= c.rev.value <= |h| {
        assert h'[m.rev..c.rev.value] == h[m.rev..c.rev.value];
      }
    }
    if c.outstanding.Some? && c.rev.Some? {
      GrowCommitted(c, i, h, commit);
    }
  }

  lemma GrowCommitted(c: State, i: nat, h: seq<Commit>, commit: Commit)
    requires CommittedOk(c, i, h) && c.outstanding.Some? && c.rev.Some? && c.rev.value <= |h|
    requires commit.key == Some(KeyOf(i, c)) ==> commit.op == CatchUp(c.outstanding.value.op, h[c.rev.value..])
    ensures CommittedOk(c, i, h + [commit])
  {
    hide CatchUp;
    var h', r := h + [commit], c.rev.value;
    RevisionGrow(h, commit, KeyOf(i, c));
    var k := RevisionOf(h, KeyOf(i, c));
    assert h'[r..|h|] == h[r..];
    if 0 < k && r < k {
      assert h'[r..k - 1] == h[r..k - 1];
    }
  }

  lemma RevisionGrow(h: seq<Commit>, c: Commit, key: OpKey)
    ensures RevisionOf(h + [c], key) == if c.key == Some(key) then |h| + 1 else RevisionOf(h, key)
  {
    assert (h + [c])[..|h|] == h;
  }

  lemma {:induction false} RevisionOfPrefix(h: seq<Commit>, longer: seq<Commit>, key: OpKey)
    requires h <= longer
    ensures KeysDistinct(longer) ==> RevisionOf(h, key) == if RevisionOf(longer, key) <= |h| then RevisionOf(longer, key) else 0
  {
    var a, b := RevisionOf(h, key), RevisionOf(longer, key);
    assert 0 < b <= |h| ==> h[b - 1] == longer[b - 1];
    if KeysDistinct(longer) && a > 0 {
      assert longer[a - 1] == h[a - 1];
      FoundAtMost(longer, a - 1, key);
    }
  }

  // The server lost commits nobody had seen, and every message to it.
  lemma ShrinkCore(c: State, i: nat, h: seq<Commit>, flying: set<ClientMsg>, shorter: seq<Commit>)
    requires Core(c, i, h, flying) && KeysDistinct(h)
    requires shorter <= h && (c.rev.Some? ==> c.rev.value <= |shorter|)
    ensures Core(c, i, shorter, {})
  {
    hide Run, Safe, Normal, BaseLen, Play, CatchUp, RevisionOf, KeysDistinct;
    if c.rev.Some? {
      TextOfPrefix(shorter, h, c.rev.value);
    }
    forall id: nat ensures RevisionOf(shorter, OpKey(i, id)) == if RevisionOf(h, OpKey(i, id)) <= |shorter| then RevisionOf(h, OpKey(i, id)) else 0 {
      RevisionOfPrefix(shorter, h, OpKey(i, id));
    }
    assert KeysKnown(c, i, shorter);
    if c.outstanding.Some? && c.rev.Some? && 0 < RevisionOf(shorter, KeyOf(i, c)) {
      var k := RevisionOf(shorter, KeyOf(i, c));
      assert h[c.rev.value..k - 1] == shorter[c.rev.value..k - 1];
    }
  }

  // Fewer messages in flight.
  lemma FewerFlying(c: State, i: nat, h: seq<Commit>, flying: set<ClientMsg>, fewer: set<ClientMsg>)
    requires Core(c, i, h, flying) && fewer <= flying
    ensures Core(c, i, h, fewer)
  {
  }

  lemma CopyFits(c: State, i: nat, h: seq<Commit>, flying: set<ClientMsg>, m: ClientMsg)
    requires Core(c, i, h, flying) && m in flying && m.Submit?
    ensures m.rev <= |h| && BaseLen(m.op) == |TextAt(h, m.rev)|
  {
    hide Run, Safe, Normal, BaseLen, Play, CatchUp, RevisionOf, InStep, CommittedOk, KeysKnown;
    assert FlyingOk(c, i, h, m);
  }

  // What the server makes of a copy of an operation nobody committed yet is
  // what the owner's outstanding becomes there.
  lemma CopyCommits(c: State, i: nat, h: seq<Commit>, flying: set<ClientMsg>, m: ClientMsg)
    requires Core(c, i, h, flying) && m in flying && m.Submit? && Chain([], h)
    requires RevisionOf(h, OpKey(i, m.id)) == 0
    ensures m.id <= c.counter && m.rev <= |h|
    ensures ValidOn(CatchUp(m.op, h[m.rev..]), TextAt(h, |h|))
    ensures c.outstanding.Some? && c.rev.Some? && m.id == c.outstanding.value.id ==>
      CatchUp(m.op, h[m.rev..]) == CatchUp(c.outstanding.value.op, h[c.rev.value..])
  {
    hide Run, Safe, Normal, BaseLen, Play, CatchUp, RevisionOf, InStep, CommittedOk, KeysKnown, Chain;
    assert FlyingOk(c, i, h, m);
    TextBetween(h, m.rev, |h|);
    assert h[m.rev..|h|] == h[m.rev..];
    CatchUpValid(m.op, TextAt(h, m.rev), h[m.rev..]);
    if c.outstanding.Some? && c.rev.Some? && m.id == c.outstanding.value.id {
      CatchUpVia(m.op, h, m.rev, c.rev.value, |h|);
      assert h[c.rev.value..|h|] == h[c.rev.value..];
    }
  }
}
