// One consensus node: what each request, reply and timer does to it.
module RaftNode {
  import opened Results
  import opened RaftLog

  datatype Role = Follower | Candidate | Leader

  datatype VoteRequest = VoteRequest(term: nat, candidate: nat, lastIndex: nat, lastTerm: nat)

  datatype VoteResponse = VoteResponse(term: nat, granted: bool)

  datatype AppendRequest = AppendRequest(term: nat, leader: nat, prevIndex: nat, prevTerm: nat, entries: Log, commit: nat)

  datatype AppendResponse = AppendResponse(term: nat, success: bool, conflict: nat)

  // term, votedFor and log are on disk before anything that depends on them is
  // sent. machine holds the commands applied since the node started, so its
  // length is the index of the last entry applied.
  datatype Node = Node(
    role: Role, term: nat, votedFor: Option<nat>, leader: Option<nat>,
    log: Log, commitIndex: nat, machine: seq<Command>)

  const FreshNode := Node(Follower, 0, None, None, [Sentinel], 0, [])

  function BecomeFollower(n: Node, term: nat, leader: Option<nat>): Node {
    var m := if term > n.term then n.(term := term, votedFor := None) else n;
    m.(role := Follower, leader := leader)
  }

  function ApplyCommitted(n: Node): Node
    requires n.commitIndex < |n.log|
  {
    if |n.machine| < n.commitIndex then
      n.(machine := n.machine + Commands(n.log[|n.machine| + 1..n.commitIndex + 1]))
    else n
  }

  /******* Elections *******/

  function StartElection(n: Node, id: nat): Node {
    n.(role := Candidate, term := n.term + 1, votedFor := Some(id), leader := None)
  }

  function Ballot(n: Node, id: nat): VoteRequest
    requires n.log != []
  {
    VoteRequest(n.term, id, Last(n.log).index, Last(n.log).term)
  }

  predicate UpToDate(r: VoteRequest, log: Log)
    requires log != []
  {
    r.lastTerm > Last(log).term || (r.lastTerm == Last(log).term && r.lastIndex >= Last(log).index)
  }

  function AnswerVote(n: Node, r: VoteRequest): (Node, VoteResponse)
    requires n.log != []
  {
    if r.term < n.term then (n, VoteResponse(n.term, false))
    else
      var m := if r.term > n.term then BecomeFollower(n, r.term, None) else n;
      if UpToDate(r, m.log) && (m.votedFor.None? || m.votedFor == Some(r.candidate)) then
        (m.(votedFor := Some(r.candidate)), VoteResponse(m.term, true))
      else (m, VoteResponse(m.term, false))
  }

  /******* Replication *******/

  function AnswerAppend(n: Node, r: AppendRequest): (Node, AppendResponse)
    requires n.log != []
  {
    if r.term < n.term then (n, AppendResponse(n.term, false, |n.log|))
    else
      var m := if r.term > n.term || !n.role.Follower? then BecomeFollower(n, r.term, Some(r.leader)) else n;
      var f := m.(leader := Some(r.leader));
      if r.prevIndex >= |f.log| then (f, AppendResponse(f.term, false, |f.log|))
      else if f.log[r.prevIndex].term != r.prevTerm then
        (f, AppendResponse(f.term, false, FirstOfTerm(f.log, r.prevIndex, f.log[r.prevIndex].term)))
      else
        var g := f.(log := Splice(f.log, r.prevIndex + 1, r.entries));
        (Committed(g, r.commit), AppendResponse(f.term, true, 0))
  }

  // A follower's commit index after a leader told it its own.
  function Committed(n: Node, commit: nat): Node {
    if commit > n.commitIndex && n.log != [] then
      ApplyCommitted(n.(commitIndex := if commit <= |n.log| - 1 then commit else |n.log| - 1))
    else n
  }

  function AppendCommand(n: Node, command: Command): Node {
    n.(log := n.log + [Entry(|n.log|, n.term, command)])
  }

  // What a leader sends from position next on. A heartbeat is the case where
  // next is past the last entry.
  function Shipment(n: Node, id: nat, next: nat): AppendRequest
    requires 0 < next <= |n.log|
  {
    AppendRequest(n.term, id, next - 1, n.log[next - 1].term, n.log[next..], n.commitIndex)
  }

  // A refusal by a node of the request's own term names a lower position to try,
  // and never the sentinel, so the leader's search for agreement ends. What it skips
  // is not there, or all of the term that did not match.
  lemma ConflictLowers(n: Node, r: AppendRequest)
    requires Shape(n.log) && r.term >= n.term && !AnswerAppend(n, r).1.success
    requires r.prevIndex == 0 ==> r.prevTerm == 0
    ensures 0 < AnswerAppend(n, r).1.conflict <= r.prevIndex
    ensures AnswerAppend(n, r).0.log == n.log
    ensures var first := AnswerAppend(n, r).1.conflict;
      if r.prevIndex >= |n.log| then first == |n.log|
      else n.log[first - 1].term < n.log[r.prevIndex].term
           && forall k :: first <= k <= r.prevIndex ==> n.log[k].term == n.log[r.prevIndex].term
  {
    if r.prevIndex < |n.log| {
      ShapedTerm(n.log, r.prevIndex);
      if r.prevIndex > 0 {
        FirstOfTermFinds(n.log, r.prevIndex, n.log[r.prevIndex].term);
      }
    }
  }

  // A node that starts again: term, vote and log from disk, and the commands up to
  // a commit index it had reached applied afresh.
  function Restarted(n: Node, commit: nat): Node
    requires commit < |n.log|
  {
    Node(Follower, n.term, n.votedFor, None, n.log, commit, Commands(n.log[1..commit + 1]))
  }
}
