// A cluster of consensus nodes as a state machine. Messages may be delivered in
// any order, any number of times, or never; nodes may stop and start again.
module Cluster {
  import opened Results
  import opened RaftLog
  import opened RaftNode

  datatype Bid = Bid(term: nat, candidate: nat)

  datatype Vote = Vote(voter: nat, term: nat, candidate: nat)

  // node told the leader of term that its log holds the leader's entry at index.
  datatype Ack = Ack(node: nat, term: nat, index: nat)

  datatype Election = Election(leader: nat, log: Log, voters: set<nat>)

  // A proposal that a quorum acknowledged and that was answered to its client.
  datatype Choice = Choice(term: nat, index: nat, quorum: set<nat>)

  // nodes is the real state. requests, votes, appends and acks are the messages
  // ever sent. The rest records what happened, so that it can be talked about
  // afterwards: nothing a node does depends on it.
  datatype State = State(
    nodes: seq<Node>,
    requests: set<VoteRequest>, votes: set<Vote>, appends: set<AppendRequest>, acks: set<Ack>,
    bids: map<Bid, Log>, elections: map<nat, Election>, leaderLogs: map<nat, Log>,
    choices: set<Choice>, applied: set<(nat, Command)>)

  datatype Event =
    | Timeout(i: nat)
    | DeliverVote(i: nat, request: VoteRequest)
    | Win(i: nat, voters: set<nat>)
    | Propose(i: nat, command: Command)
    | Ship(i: nat, next: nat)
    | DeliverAppend(i: nat, append: AppendRequest)
    | Conclude(i: nat, index: nat, quorum: set<nat>)
    | ObserveTerm(i: nat, term: nat)
    | Restart(i: nat, commit: nat)

  function Majority(n: nat): nat {
    n / 2 + 1
  }

  predicate IsQuorum(q: set<nat>, n: nat) {
    (forall v :: v in q ==> v < n) && |q| >= Majority(n)
  }

  // What a node applied since it was n.
  function NewlyApplied(n: Node, m: Node): set<(nat, Command)> {
    set k | |n.machine| <= k < |m.machine| :: (k + 1, m.machine[k])
  }

  ghost predicate Enabled(s: State, e: Event) {
    var n := |s.nodes|;
    && (forall k :: 0 <= k < n ==> s.nodes[k].log != [])
    && match e
       case Timeout(i) => i < n && !s.nodes[i].role.Leader?
       case DeliverVote(i, r) => i < n && r in s.requests
       case Win(i, voters) =>
         && i < n && s.nodes[i].role.Candidate?
         && i in voters && IsQuorum(voters, n)
         && forall v :: v in voters ==> Vote(v, s.nodes[i].term, i) in s.votes
       case Propose(i, _) => i < n && s.nodes[i].role.Leader?
       case Ship(i, next) => i < n && s.nodes[i].role.Leader? && 0 < next <= |s.nodes[i].log|
       case DeliverAppend(i, r) => i < n && r in s.appends
       case Conclude(i, index, quorum) =>
         && i < n && s.nodes[i].role.Leader?
         && index < |s.nodes[i].log| && s.nodes[i].log[index].term == s.nodes[i].term
         && i in quorum && IsQuorum(quorum, n)
         && forall v :: v in quorum ==> Ack(v, s.nodes[i].term, index) in s.acks
       case ObserveTerm(i, term) => i < n && term > s.nodes[i].term
       case Restart(i, commit) => i < n && commit <= |s.nodes[i].machine| && commit < |s.nodes[i].log|
  }

  function Step(s: State, e: Event): State
    requires Enabled(s, e)
  {
    match e
    case Timeout(i) =>
      var m := StartElection(s.nodes[i], i);
      s.(nodes := s.nodes[i := m], requests := s.requests + {Ballot(m, i)},
         votes := s.votes + {Vote(i, m.term, i)}, bids := s.bids[Bid(m.term, i) := m.log])
    case DeliverVote(i, r) =>
      var (m, reply) := AnswerVote(s.nodes[i], r);
      s.(nodes := s.nodes[i := m],
         votes := if reply.granted then s.votes + {Vote(i, m.term, r.candidate)} else s.votes)
    case Win(i, voters) =>
      var m := s.nodes[i];
      s.(nodes := s.nodes[i := m.(role := Leader, leader := Some(i))],
         elections := s.elections[m.term := Election(i, m.log, voters)],
         leaderLogs := s.leaderLogs[m.term := m.log])
    case Propose(i, command) =>
      var m := AppendCommand(s.nodes[i], command);
      s.(nodes := s.nodes[i := m], leaderLogs := s.leaderLogs[m.term := m.log],
         acks := s.acks + {Ack(i, m.term, |s.nodes[i].log|)})
    case Ship(i, next) => s.(appends := s.appends + {Shipment(s.nodes[i], i, next)})
    case DeliverAppend(i, r) =>
      var (m, reply) := AnswerAppend(s.nodes[i], r);
      s.(nodes := s.nodes[i := m], applied := s.applied + NewlyApplied(s.nodes[i], m),
         acks := if reply.success then s.acks + Covered(i, r) else s.acks)
    case Conclude(i, index, quorum) =>
      var n := s.nodes[i];
      var m := ApplyCommitted(n.(commitIndex := index));
      s.(nodes := s.nodes[i := m], applied := s.applied + NewlyApplied(n, m),
         choices := s.choices + {Choice(n.term, index, quorum)})
    case ObserveTerm(i, term) => s.(nodes := s.nodes[i := BecomeFollower(s.nodes[i], term, None)])
    case Restart(i, commit) =>
      var m := Restarted(s.nodes[i], commit);
      s.(nodes := s.nodes[i := m], applied := s.applied + NewlyApplied(m.(machine := []), m))
  }

  // Every entry a successful reply to r vouches for.
  function Covered(i: nat, r: AppendRequest): set<Ack> {
    set k | 0 <= k <= r.prevIndex + |r.entries| :: Ack(i, r.term, k)
  }

  ghost predicate Initial(s: State) {
    && (forall k :: 0 <= k < |s.nodes| ==> s.nodes[k] == FreshNode)
    && s.requests == {} && s.votes == {} && s.appends == {} && s.acks == {}
    && s.bids == map[] && s.elections == map[] && s.leaderLogs == map[]
    && s.choices == {} && s.applied == {}
  }

  ghost predicate CanRun(s: State, events: seq<Event>)
    decreases |events|
  {
    events == [] || (Enabled(s, events[0]) && CanRun(Step(s, events[0]), events[1..]))
  }

  function After(s: State, events: seq<Event>): State
    requires CanRun(s, events)
    decreases |events|
  {
    if events == [] then s else After(Step(s, events[0]), events[1..])
  }
}
