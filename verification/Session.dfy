// The server's side of one live document: an actor that handles one message at a
// time, and tells nobody anything before the batch it belongs to is on disk.
module SessionCode {
  import opened Results
  import opened Ops
  import opened Characters
  import opened Anchors
  import opened History
  import opened Document
  import opened Wire
  import opened OperationCode
  import opened DocStateCode
  import opened LiveSystem
  import C = Client

  lemma {:induction false} RangeThroughInBounds(later: seq<Commit>, start: nat, end: nat, length: nat)
    requires start <= end && (forall k :: 0 <= k < |later| ==> Normal(later[k].op))
    requires forall k :: 0 <= k < |later| - 1 ==> TargetLen(later[k].op) == BaseLen(later[k + 1].op)
    requires if later == [] then end <= length else end <= BaseLen(later[0].op) && TargetLen(later[|later| - 1].op) == length
    ensures var r := RangeThrough(later, start, end); r.start <= r.end <= length
    decreases |later|
  {
    hide MapPos, Touched, Normal;
    if later != [] {
      var o := later[0].op;
      NormalPositive(o);
      RangeOrdered(o, start, end);
      MapPosInBounds(o, start, true);
      MapPosInBounds(o, end, true);
      MapPosInBounds(o, end, false);
      var r := MapRange(o, start, end);
      RangeThroughInBounds(later[1..], r.start, r.end, length);
    }
  }

  // The operation that replaces a range, built as the browser would build it.
  method BuildReplace(length: nat, start: nat, end: nat, text: Text) returns (op: Operation)
    requires start <= end <= length
    ensures fresh(op) && op.Valid() && op.comps == ReplaceOp(length, start, end, text)
  {
    hide Normal, BaseLen, TargetLen, PushRetain, PushInsert, PushDelete, Operation.Valid;
    op := new Operation();
    PushNothing(op.comps);
    op.Retain(start);
    op.Insert(text);
    PushNothing(op.comps);
    op.Delete(end - start);
    PushNothing(op.comps);
    op.Retain(length - end);
  }

  lemma PushNothing(o: Op)
    ensures PushRetain(o, 0) == o && PushDelete(o, 0) == o
  {
  }

  // Connection j once the author of a commit was told.
  function AuthorTold(before: seq<Conn>, j: nat, origin: nat, rev: nat, op: Op, id: nat): Conn
    requires j < |before| && origin < |before|
  {
    if j == origin then Tell(before[j], C.Ack(rev, id))
    else if Live(before[j]) && before[j].client == before[origin].client then Tell(before[j], C.Broadcast(C.WireOp(rev, op, Some(id))))
    else before[j]
  }

  // Where the text an agent read is now, for it to read again.
  datatype Retry = Retry(rev: nat, start: nat, end: nat)

  class Session {
    const state: DocState
    var conns: seq<Conn>
    var log: seq<Record>
    var payloads: seq<Record>
    var nextSug: nat
    var readings: seq<AgentRead>
    var dead: bool

    // The server's part of the whole system.
    function View(): System
      reads this, state
    {
      System.System([], conns, state.View(), log, payloads, nextSug, readings)
    }

    ghost predicate Valid()
      reads this, state
    {
      state.Valid()
    }

    // Opens a document whose log replays. Numbering of suggestions continues
    // after those in the log.
    constructor (state: DocState, log: seq<Record>)
      requires state.Valid()
      ensures Valid() && this.state == state && !dead
      ensures View() == System.System([], [], state.View(), log, [], |state.View().order|, [])
    {
      this.state, this.log := state, log;
      conns, payloads, readings, dead := [], [], [], false;
      nextSug := |state.order|;
    }

    /******* What the batch will do *******/

    // Takes a record into the state and into the batch's log writes, or into neither.
    method Commit(r: Record) returns (ok: bool)
      requires Valid() && (r.OpRecord? ==> Normal(r.op))
      modifies this`payloads, state
      ensures Valid()
      ensures CommitRecord(old(View()), r) == if ok then Some(View()) else None
      ensures !ok ==> View() == old(View())
    {
      hide ApplyRecord, Normal;
      var error := state.Apply(r);
      if error.Some? {
        return false;
      }
      payloads := payloads + [r];
      ok := true;
    }

    method Send(x: nat, m: C.ServerMsg)
      requires x < |conns|
      modifies this`conns
      ensures conns == old(conns)[x := Tell(old(conns)[x], m)]
    {
      conns := conns[x := conns[x].(pend := conns[x].pend + [m])];
    }

    method Refuse(x: nat)
      requires x < |conns|
      modifies this`conns
      ensures View() == Reject(old(View()), x)
    {
      conns := conns[x := conns[x].(dropped := true)];
      Send(x, C.Refused);
    }

    /******* Messages *******/

    method HandleMessage(x: nat, m: C.ClientMsg)
      requires Valid() && x < |conns| && DocOk(state.View()) && (m.Submit? ==> Normal(m.op))
      modifies this, state
      ensures Valid() && View() == Handle(old(View()), x, m)
    {
      hide DocOk, Normal, CaughtUp, CheckText, ApplyRecord, RevisionOf, HandleSubmit, HandleAccept, HandleReject, LiveSystem.HandleHello;
      if conns[x].dropped {
        return;
      }
      if m.Hello? {
        HandleHello(x, m.known);
        return;
      }
      if !conns[x].joined {
        Refuse(x);
        return;
      }
      match m
      case Submit(rev, id, op) => HandleOp(x, rev, id, op);
      case Resolve(sid, action) => HandleResolve(x, sid, action);
    }

    method HandleHello(x: nat, known: Option<nat>)
      requires Valid() && x < |conns|
      modifies this`conns
      ensures View() == LiveSystem.HandleHello(old(View()), x, known)
    {
      if conns[x].joined {
        Refuse(x);
        return;
      }
      var init := C.Init(state.rev, Some(state.text), []);
      if known.Some? && known.value <= state.rev {
        // The client holds an older revision. It gets only what it missed.
        var missed := Missed(known.value, conns[x].client);
        init := C.Init(state.rev, None, missed);
      }
      conns := conns[x := conns[x].(joined := true)];
      Send(x, init);
    }

    method Missed(from: nat, client: nat) returns (missed: seq<C.WireOp>)
      requires Valid() && from <= state.rev
      ensures missed == MissedOps(state.history, from, client)
    {
      missed := [];
      for index := from to state.rev
        invariant |missed| == index - from
        invariant forall k :: 0 <= k < |missed| ==> missed[k] == MissedOps(state.history, from, client)[k]
      {
        var entry := state.history[index];
        // The id goes to the author alone.
        var id := None;
        if entry.key.Some? && entry.key.value.client == client {
          id := Some(entry.key.value.id);
        }
        missed := missed + [C.WireOp(index + 1, entry.op, id)];
      }
    }

    method HandleOp(x: nat, rev: nat, id: nat, op: Op)
      requires Valid() && x < |conns| && Normal(op)
      modifies this, state
      ensures Valid() && View() == HandleSubmit(old(View()), x, rev, id, op)
    {
      hide Normal, CaughtUp, CheckText, ApplyRecord, Announcement;
      var key := OpKey(conns[x].client, id);
      if !Fits(op) {
        Refuse(x);
        return;
      }
      if key in state.opIDs {
        // Sent again after it was committed: nothing to do.
        return;
      }
      var sent := new Operation.Of(op);
      var caught := state.CatchUp(sent, rev);
      if caught.Err? {
        Refuse(x);
        return;
      }
      var rebased := new Operation.Of(caught.value);
      rebased.Facts();
      if rebased.targetLen > MaxDocUnits {
        Refuse(x);
        return;
      }
      var check := rebased.Check(state.text);
      if !check.TextOk? {
        Refuse(x);
        return;
      }
      var ok := Commit(OpRecord(state.rev + 1, caught.value, conns[x].user, Some(key), None, None));
      if !ok {
        Refuse(x);
        return;
      }
      AfterOp(Some(x), caught.value, id);
    }

    // Tells everyone about the newest commit. origin is the connection it came
    // from, if it came from one.
    method AfterOp(origin: Option<nat>, op: Op, id: nat)
      requires Valid() && (origin.Some? ==> origin.value < |conns|)
      modifies this`conns
      ensures View() == Announced(old(View()), origin, op, if origin.Some? then Some(OpKey(old(conns)[origin.value].client, id)) else None)
    {
      hide Announcement, Normal, AuthorTold;
      ghost var key := if origin.Some? then Some(OpKey(conns[origin.value].client, id)) else None;
      ghost var before := conns;
      if origin.Some? {
        TellAuthor(origin.value, op, id);
      }
      TellOthers(origin, op, key, before);
    }

    // Acknowledges the commit, and sends it to the other connections of its author.
    method TellAuthor(origin: nat, op: Op, id: nat)
      requires origin < |conns|
      modifies this`conns
      ensures |conns| == |old(conns)|
      ensures forall j :: 0 <= j < |conns| ==> conns[j] == AuthorTold(old(conns), j, origin, state.rev, op, id)
    {
      ghost var before := conns;
      Send(origin, C.Ack(state.rev, id));
      // The author's other connections, if it reconnected meanwhile, learn by the
      // id that this commit is the one they wait for.
      for x := 0 to |conns|
        invariant |conns| == |before|
        invariant forall j :: x <= j < |conns| && j != origin ==> conns[j] == before[j]
        invariant forall j :: 0 <= j < x && j != origin ==> conns[j] == AuthorTold(before, j, origin, state.rev, op, id)
        invariant conns[origin] == AuthorTold(before, origin, origin, state.rev, op, id)
      {
        if x != origin && Live(conns[x]) && conns[x].client == conns[origin].client {
          Send(x, C.Broadcast(C.WireOp(state.rev, op, Some(id))));
        }
      }
    }

    // Sends the commit to everyone who has not heard of it.
    method TellOthers(origin: Option<nat>, op: Op, ghost key: Option<OpKey>, ghost before: seq<Conn>)
      requires |before| == |conns| && (origin.Some? ==> origin.value < |conns|)
      requires key.Some? <==> origin.Some?
      requires origin.Some? ==> key.value.client == before[origin.value].client
      requires forall j :: 0 <= j < |conns| ==>
        conns[j] == if origin.Some? then AuthorTold(before, j, origin.value, state.rev, op, key.value.id) else before[j]
      modifies this`conns
      ensures |conns| == |before|
      ensures forall j :: 0 <= j < |conns| ==> conns[j] == Announcement(before[j], j, origin, state.rev, op, key)
    {
      ghost var told := conns;
      for x := 0 to |conns|
        invariant |conns| == |before|
        invariant forall j :: x <= j < |conns| ==> conns[j] == told[j]
        invariant forall j :: 0 <= j < x ==> conns[j] == Announcement(before[j], j, origin, state.rev, op, key)
        invariant origin.Some? ==> conns[origin.value].client == before[origin.value].client
      {
        if origin != Some(x) && Live(conns[x]) && (origin.None? || conns[x].client != conns[origin.value].client) {
          Send(x, C.Broadcast(C.WireOp(state.rev, op, None)));
        }
      }
    }

    method HandleResolve(x: nat, sid: nat, action: C.ResolveAction)
      requires Valid() && x < |conns| && DocOk(state.View())
      modifies this, state
      ensures Valid() && View() == LiveSystem.HandleResolve(old(View()), x, sid, action)
    {
      hide DocOk, Normal, ApplyRecord, Announcement, ReplaceOp, HandleAccept, HandleReject;
      if sid !in state.suggestions {
        return;
      }
      if action.Accept? {
        AcceptSuggestion(x, sid);
      } else {
        RejectSuggestion(x, sid);
      }
    }

    method AcceptSuggestion(x: nat, sid: nat)
      requires Valid() && x < |conns| && DocOk(state.View()) && sid in state.suggestions
      modifies this, state
      ensures Valid() && View() == HandleAccept(old(View()), x, old(state.suggestions)[sid])
    {
      hide DocOk, Normal, ApplyRecord, Announcement, ReplaceOp, Announced, Run, BaseLen, Safe, WellFormed, Clean, Fits;
      var sug := state.suggestions[sid];
      if !sug.status.Pending? {
        return;
      }
      AcceptFits(state.View(), sid);
      var start := sug.start;
      if sug.placement.PlaceAfter? {
        start := sug.end;
      }
      var op := BuildReplace(|state.text|, start, sug.end, sug.text);
      op.Facts();
      if op.targetLen > MaxDocUnits {
        return;
      }
      var ok := Commit(OpRecord(state.rev + 1, op.comps, sug.agent, None, Some(sug.id), Some(conns[x].user)));
      if ok {
        AfterOp(None, op.comps, 0);
      }
    }

    method RejectSuggestion(x: nat, sid: nat)
      requires Valid() && x < |conns| && DocOk(state.View()) && sid in state.suggestions
      modifies this, state
      ensures Valid() && View() == HandleReject(old(View()), x, old(state.suggestions)[sid])
    {
      hide DocOk, Normal, ApplyRecord;
      var sug := state.suggestions[sid];
      if !Open(sug) {
        return;
      }
      AcceptNamed(state.View(), sid);
      var status := if sug.status.Stale? then Dismissed else Rejected;
      var _ := Commit(ResRecord(sug.id, status, conns[x].user));
    }

    lemma AcceptFits(d: Doc, sid: nat)
      requires DocOk(d) && sid in d.suggestions && d.suggestions[sid].status.Pending?
      ensures var s := d.suggestions[sid];
        s.id == sid && s.start <= s.end <= |d.text| && Normal(AcceptOp(s, |d.text|))
    {
      hide DocOk, Normal, Run, Safe, BaseLen, WellFormed, ReplaceOp;
      AcceptSound(d, sid);
      AcceptNamed(d, sid);
    }

    lemma AcceptNamed(d: Doc, sid: nat)
      requires DocOk(d) && sid in d.suggestions
      ensures d.suggestions[sid].id == sid
    {
    }

    /******* Agents *******/

    method BeginRead(rev: int, start: int, end: int)
      requires Valid()
      modifies this`readings
      ensures View() == HandleBeginRead(old(View()), rev, start, end)
    {
      hide Normal, RangeThrough;
      var r := state.MapRangeFrom(rev, start, end);
      if r.Err? {
        return;
      }
      ReadInBounds(rev, start, end);
      if InsidePair(state.text, r.value.start) || InsidePair(state.text, r.value.end) {
        return;
      }
      readings := readings + [AgentRead(state.rev, r.value.start, r.value.end, state.text[r.value.start..r.value.end])];
    }

    lemma ReadInBounds(rev: int, start: int, end: int)
      requires Valid() && RangeFrom(state.View(), rev, start, end).Ok?
      ensures var r := RangeFrom(state.View(), rev, start, end).value; r.start <= r.end <= |state.text|
    {
      hide Normal, RangeThrough, BaseLen, TargetLen;
      RangeThroughInBounds(state.history[rev..], start, end, |state.text|);
    }

    // Turns what an agent wrote into a suggestion, or tells it to read once more
    // when somebody changed what it had read and it has not tried too often.
    method Propose(read: AgentRead, draft: Suggestion, attempt: nat) returns (retry: Option<Retry>)
      requires Valid()
      modifies this, state
      ensures Valid() && View() == HandlePropose(old(View()), read, draft, attempt)
      ensures var r := RangeFrom(old(View()).doc, read.rev, read.start, read.end);
        retry == if r.Ok? && r.value.touched && attempt < MaxAgentAttempts
                 then Some(Retry(|old(View()).doc.history|, r.value.start, r.value.end)) else None
      ensures retry.Some? ==> View() == old(View())
    {
      hide Normal, RangeThrough, ApplyRecord;
      var r := state.MapRangeFrom(read.rev, read.start, read.end);
      if r.Err? {
        return None;
      }
      if r.value.touched && attempt < MaxAgentAttempts {
        return Some(Retry(state.rev, r.value.start, r.value.end));
      }
      nextSug := nextSug + 1;
      var posted := draft.(
        id := nextSug, start := r.value.start, end := r.value.end, original := read.text,
        status := if r.value.touched then Stale else Pending, resolvedBy := None);
      var _ := Commit(SugRecord(posted));
      retry := None;
    }

    /******* The batch *******/

    // Ends a batch: its records go to the log, and only then does anyone hear
    // of them. When the append fails memory is ahead of the log and the session
    // is over; the next one replays.
    method Finish(appended: bool)
      modifies this
      ensures dead == (old(dead) || (!appended && old(payloads) != []))
      ensures !appended && old(payloads) != [] ==>
        View() == old(View()).(conns := seq(|old(conns)|, x requires 0 <= x < |old(conns)| => CutOff(old(conns)[x])))
      ensures appended || old(payloads) == [] ==> View() == FlushAll(old(View()))
    {
      ghost var before := conns;
      if payloads != [] && !appended {
        dead := true;
        for x := 0 to |conns|
          modifies this`conns
          invariant |conns| == |before|
          invariant forall j :: 0 <= j < |conns| ==> conns[j] == if j < x then CutOff(before[j]) else before[j]
        {
          conns := conns[x := conns[x].(pend := [], gone := true)];
        }
        return;
      }
      log, payloads := log + payloads, [];
      for x := 0 to |conns|
        modifies this`conns
        invariant |conns| == |before|
        invariant forall j :: 0 <= j < |conns| ==> conns[j] == if j < x then Release(before[j]) else before[j]
      {
        conns := conns[x := conns[x].(out := conns[x].out + conns[x].pend, pend := [])];
      }
    }
  }

  // Opens the session the log describes.
  method OpenSession(log: seq<Record>) returns (r: Result<Session, RecordError>)
    requires forall k :: 0 <= k < |log| && log[k].OpRecord? ==> Normal(log[k].op)
    ensures r.Ok? <==> Replay(log).Ok?
    ensures r.Ok? ==>
      && fresh(r.value) && fresh(r.value.state) && r.value.Valid()
      && r.value.View() == System.System([], [], Replay(log).value, log, [], |Replay(log).value.order|, [])
  {
    hide Normal, ReplayOn, ApplyRecord;
    var state := ReplayLog(log);
    if state.Err? {
      return Err(state.error);
    }
    var s := new Session(state.value, log);
    r := Ok(s);
  }

  // Nothing the server does looks at or changes a client's own state.
  lemma ServerLeavesClients(s: System, x: nat, m: C.ClientMsg, clients: seq<C.State>)
    requires x < |s.conns|
    ensures Handle(s.(clients := clients), x, m) == Handle(s, x, m).(clients := clients)
  {
    hide ApplyRecord, CaughtUp, CheckText;
    var t := s.(clients := clients);
    match m
    case Hello(known) =>
    case Submit(rev, id, op) =>
    case Resolve(sid, action) =>
  }
}
