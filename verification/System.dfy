// The whole of a live document: one server, any number of clients, connections
// that carry messages in order and may be given up at any time, a log, and
// failures of the server. Each event is one atomic step.
module LiveSystem {
  import opened Results
  import opened Ops
  import opened Characters
  import opened History
  import opened Document
  import opened Wire
  import Client

  // One connection. out was released to it; pend waits for the batch to be
  // durable. A gone connection's remaining messages never reach the server.
  datatype Conn = Conn(
    client: nat, user: Author,
    toServer: seq<Client.ClientMsg>, out: seq<Client.ServerMsg>, pend: seq<Client.ServerMsg>,
    joined: bool, dropped: bool, gone: bool)

  // What an agent read: the range at a revision, and its text.
  datatype AgentRead = AgentRead(rev: nat, start: nat, end: nat, text: Text)

  datatype System = System(
    clients: seq<Client.State>, conns: seq<Conn>,
    doc: Doc, log: seq<Record>, batch: seq<Record>,
    nextSug: nat, readings: seq<AgentRead>)

  datatype Event =
    | LocalEdit(i: nat, op: Op)
    | Connect(i: nat, user: Author)
    | Drop(i: nat, tooLarge: bool)
    | AskResolve(i: nat, sid: nat, action: Client.ResolveAction)
    | ClientReceives(i: nat)
    | ServerReads(x: nat)
    | Leave(x: nat)
    | Flush
    | Fail(kept: nat)
    | BeginRead(rev: int, start: int, end: int)
    | Propose(read: nat, draft: Suggestion, attempt: nat)

  const MaxDocUnits := 1_000_000
  const MaxAgentAttempts := 2

  /******* The server *******/

  predicate Live(k: Conn) {
    k.joined && !k.dropped && !k.gone
  }

  function Tell(k: Conn, m: Client.ServerMsg): Conn {
    k.(pend := k.pend + [m])
  }

  // A record applied, and part of the batch to be logged.
  function CommitRecord(s: System, r: Record): Option<System> {
    var next := ApplyRecord(s.doc, r);
    if next.Err? then None else Some(s.(doc := next.value, batch := s.batch + [r]))
  }

  // The message that announces the newest commit to one connection. The
  // connection it came from gets an acknowledgement; others of the same client
  // get the id, which they recognise as their own; everyone else does not.
  function Announcement(k: Conn, x: nat, origin: Option<nat>, rev: nat, op: Op, key: Option<OpKey>): Conn {
    if origin == Some(x) && key.Some? then Tell(k, Client.Ack(rev, key.value.id))
    else if Live(k) then
      Tell(k, Client.Broadcast(Client.WireOp(rev, op, if key.Some? && key.value.client == k.client then Some(key.value.id) else None)))
    else k
  }

  function Announced(s: System, origin: Option<nat>, op: Op, key: Option<OpKey>): System {
    var rev := |s.doc.history|;
    s.(conns := seq(|s.conns|, x requires 0 <= x < |s.conns| => Announcement(s.conns[x], x, origin, rev, op, key)))
  }

  // Refuses a message and drops its connection.
  function Reject(s: System, x: nat): System
    requires x < |s.conns|
  {
    s.(conns := s.conns[x := Tell(s.conns[x].(dropped := true), Client.Refused)])
  }

  function MissedOps(h: seq<Commit>, from: nat, client: nat): seq<Client.WireOp>
    requires from <= |h|
  {
    seq(|h| - from, k requires 0 <= k < |h| - from =>
      Client.WireOp(from + k + 1, h[from + k].op,
        if h[from + k].key.Some? && h[from + k].key.value.client == client then Some(h[from + k].key.value.id) else None))
  }

  function HandleHello(s: System, x: nat, known: Option<nat>): System
    requires x < |s.conns|
  {
    var h := s.doc.history;
    if s.conns[x].joined then Reject(s, x)
    else
      var init :=
        if known.Some? && known.value <= |h| then Client.Init(|h|, None, MissedOps(h, known.value, s.conns[x].client))
        else Client.Init(|h|, Some(s.doc.text), []);
      s.(conns := s.conns[x := Tell(s.conns[x].(joined := true), init)])
  }

  function HandleSubmit(s: System, x: nat, rev: nat, id: nat, op: Op): System
    requires x < |s.conns|
  {
    var key := OpKey(s.conns[x].client, id);
    if !Fits(op) then Reject(s, x)
    else if key in s.doc.opIDs then s
    else
      var caught := CaughtUp(s.doc, op, rev);
      if caught.Err? then Reject(s, x)
      else if TargetLen(caught.value) > MaxDocUnits then Reject(s, x)
      else if !CheckText(caught.value, s.doc.text).TextOk? then Reject(s, x)
      else
        var done := CommitRecord(s, OpRecord(|s.doc.history| + 1, caught.value, s.conns[x].user, Some(key), None, None));
        if done.None? then Reject(s, x) else Announced(done.value, Some(x), caught.value, Some(key))
  }

  function HandleAccept(s: System, x: nat, sug: Suggestion): System
    requires x < |s.conns|
  {
    if !sug.status.Pending? || !(sug.start <= sug.end <= |s.doc.text|) then s
    else
      var op := AcceptOp(sug, |s.doc.text|);
      if TargetLen(op) > MaxDocUnits then s
      else
        var done := CommitRecord(s, OpRecord(|s.doc.history| + 1, op, sug.agent, None, Some(sug.id), Some(s.conns[x].user)));
        if done.None? then s else Announced(done.value, None, op, None)
  }

  function HandleReject(s: System, x: nat, sug: Suggestion): System
    requires x < |s.conns|
  {
    if !Open(sug) then s
    else
      var action := if sug.status.Stale? then Dismissed else Rejected;
      var done := CommitRecord(s, ResRecord(sug.id, action, s.conns[x].user));
      if done.None? then s else done.value
  }

  function HandleResolve(s: System, x: nat, sid: nat, action: Client.ResolveAction): System
    requires x < |s.conns|
  {
    if sid !in s.doc.suggestions then s
    else if action.Accept? then HandleAccept(s, x, s.doc.suggestions[sid])
    else HandleReject(s, x, s.doc.suggestions[sid])
  }

  function Handle(s: System, x: nat, m: Client.ClientMsg): System
    requires x < |s.conns|
  {
    if s.conns[x].dropped then s
    else
      match m
      case Hello(known) => HandleHello(s, x, known)
      case Submit(rev, id, op) => if !s.conns[x].joined then Reject(s, x) else HandleSubmit(s, x, rev, id, op)
      case Resolve(sid, action) => if !s.conns[x].joined then Reject(s, x) else HandleResolve(s, x, sid, action)
  }

  // The batch is on disk: everything it wanted to tell anyone goes out.
  function Release(k: Conn): Conn {
    k.(out := k.out + k.pend, pend := [])
  }

  function CutOff(k: Conn): Conn {
    k.(pend := [], gone := true)
  }

  function FlushAll(s: System): System {
    s.(log := s.log + s.batch, batch := [],
       conns := seq(|s.conns|, x requires 0 <= x < |s.conns| => Release(s.conns[x])))
  }

  // The append failed or the process died. Some first part of the batch may be
  // on disk; whoever opens the log next takes it as the truth.
  function FailAndReopen(s: System, kept: nat): System
    requires kept <= |s.batch|
  {
    var log := s.log + s.batch[..kept];
    var doc := Replay(log);
    if doc.Err? then s
    else s.(log := log, batch := [], doc := doc.value, nextSug := |doc.value.order|, readings := [],
            conns := seq(|s.conns|, x requires 0 <= x < |s.conns| => CutOff(s.conns[x])))
  }

  /******* Agents *******/

  function HandleBeginRead(s: System, rev: int, start: int, end: int): System {
    var r := RangeFrom(s.doc, rev, start, end);
    if r.Err? then s
    else if InsidePair(s.doc.text, r.value.start) || InsidePair(s.doc.text, r.value.end) then s
    else if r.value.end < r.value.start || r.value.end > |s.doc.text| then s
    else s.(readings := s.readings + [AgentRead(|s.doc.history|, r.value.start, r.value.end, s.doc.text[r.value.start..r.value.end])])
  }

  function HandlePropose(s: System, read: AgentRead, draft: Suggestion, attempt: nat): System {
    var r := RangeFrom(s.doc, read.rev, read.start, read.end);
    if r.Err? then s
    else if r.value.touched && attempt < MaxAgentAttempts then s
    else
      var posted := draft.(
        id := s.nextSug + 1, start := r.value.start, end := r.value.end, original := read.text,
        status := if r.value.touched then Stale else Pending, resolvedBy := None);
      var done := CommitRecord(s.(nextSug := s.nextSug + 1), SugRecord(posted));
      if done.None? then s.(nextSug := s.nextSug + 1) else done.value
  }

  /******* Clients *******/

  // Puts what a client sends on the connection it uses.
  function Post(s: System, i: nat, o: Client.Outcome): System
    requires i < |s.clients|
  {
    var t := s.(clients := s.clients[i := o.state]);
    if o.state.conn.Some? && o.state.conn.value < |s.conns| then
      var x := o.state.conn.value;
      t.(conns := s.conns[x := s.conns[x].(toServer := s.conns[x].toServer + o.sent)])
    else t
  }

  function ConnectClient(s: System, i: nat, user: Author): System
    requires i < |s.clients|
  {
    var c := s.clients[i];
    var hello := Client.Hello(if c.resetNext then None else c.rev);
    s.(conns := s.conns + [Conn(i, user, [hello], [], [], false, false, false)],
       clients := s.clients[i := c.(conn := Some(|s.conns|), ready := false)])
  }

  function DropClient(s: System, i: nat, tooLarge: bool): System
    requires i < |s.clients|
  {
    var c := s.clients[i];
    s.(clients := s.clients[i := c.(conn := None, ready := false, resetNext := c.resetNext || tooLarge)])
  }

  function DeliverToClient(s: System, i: nat): System
    requires i < |s.clients| && s.clients[i].conn.Some? && s.clients[i].conn.value < |s.conns|
    requires s.conns[s.clients[i].conn.value].out != []
  {
    var x := s.clients[i].conn.value;
    var k := s.conns[x];
    Post(s.(conns := s.conns[x := k.(out := k.out[1..])]), i, Client.Receive(s.clients[i], k.out[0]))
  }

  function DeliverToServer(s: System, x: nat): System
    requires x < |s.conns| && s.conns[x].toServer != []
  {
    var k := s.conns[x];
    Handle(s.(conns := s.conns[x := k.(toServer := k.toServer[1..])]), x, k.toServer[0])
  }

  /******* Steps and runs *******/

  // When an event can happen. Edits are what a browser can produce: they fit
  // the local text and work in whole characters.
  ghost predicate Enabled(s: System, e: Event) {
    match e
    case LocalEdit(i, op) => i < |s.clients| && s.clients[i].rev.Some? && ValidOn(op, s.clients[i].text)
    case Connect(i, _) => i < |s.clients|
    case Drop(i, _) => i < |s.clients|
    case AskResolve(i, _, _) => i < |s.clients|
    case ClientReceives(i) =>
      i < |s.clients| && s.clients[i].conn.Some? && s.clients[i].conn.value < |s.conns| && s.conns[s.clients[i].conn.value].out != []
    case ServerReads(x) => x < |s.conns| && !s.conns[x].gone && s.conns[x].toServer != []
    case Leave(x) => x < |s.conns|
    case Flush => true
    case Fail(kept) => kept <= |s.batch|
    case BeginRead(_, _, _) => true
    case Propose(read, draft, _) => read < |s.readings| && Clean(draft.text)
  }

  function Step(s: System, e: Event): System
    requires Enabled(s, e)
  {
    match e
    case LocalEdit(i, op) => Post(s, i, Client.ApplyLocal(s.clients[i], op))
    case Connect(i, user) => ConnectClient(s, i, user)
    case Drop(i, tooLarge) => DropClient(s, i, tooLarge)
    case AskResolve(i, sid, action) =>
      Post(s, i, Client.Outcome(s.clients[i], if s.clients[i].conn.Some? then [Client.Resolve(sid, action)] else []))
    case ClientReceives(i) => DeliverToClient(s, i)
    case ServerReads(x) => DeliverToServer(s, x)
    case Leave(x) => s.(conns := s.conns[x := s.conns[x].(gone := true)])
    case Flush => FlushAll(s)
    case Fail(kept) => FailAndReopen(s, kept)
    case BeginRead(rev, start, end) => HandleBeginRead(s, rev, start, end)
    case Propose(read, draft, attempt) => HandlePropose(s, s.readings[read], draft, attempt)
  }

  // A new document with its first text, and clients that have not connected.
  ghost predicate Initial(s: System) {
    && s.conns == [] && s.batch == [] && s.readings == [] && s.nextSug == 0
    && (forall i :: 0 <= i < |s.clients| ==> s.clients[i] == Client.Fresh)
    && (exists title: string, seed: Text, author: Author :: Clean(seed) && s.log == FirstLog(title, seed, author))
    && Replay(s.log) == Ok(s.doc)
  }

  function FirstLog(title: string, seed: Text, author: Author): seq<Record> {
    [Meta(title)] + if seed == [] then [] else [OpRecord(1, [Insert(seed)], author, None, None, None)]
  }

  ghost predicate CanRun(s: System, events: seq<Event>)
    decreases |events|
  {
    events == [] || (Enabled(s, events[0]) && CanRun(Step(s, events[0]), events[1..]))
  }

  function After(s: System, events: seq<Event>): System
    requires CanRun(s, events)
    decreases |events|
  {
    if events == [] then s else After(Step(s, events[0]), events[1..])
  }
}
