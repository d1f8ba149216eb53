// What holds in every state of a cluster, and the central argument: a chosen entry
// is in the log of every later leader.
module RaftInvariant {
  import opened Results
  import opened RaftLog
  import opened RaftNode
  import opened Cluster

  /******* Logs and the leaders that wrote them *******/

  // Each entry was written by the leader of its term, after the same entries.
  ghost predicate Backed(log: Log, leaderLogs: map<nat, Log>) {
    forall k :: 0 < k < |log| ==>
      var t := log[k].term;
      t in leaderLogs && k < |leaderLogs[t]| && leaderLogs[t][..k + 1] == log[..k + 1]
  }

  ghost predicate LeaderOk(t: nat, e: Election, leaderLogs: map<nat, Log>, votes: set<Vote>, n: nat)
    requires t in leaderLogs
  {
    && t > 0 && e.leader < n && e.leader in e.voters && IsQuorum(e.voters, n)
    && (forall v :: v in e.voters ==> Vote(v, t, e.leader) in votes)
    && Shape(e.log) && Last(e.log).term < t
    && e.log <= leaderLogs[t] && Shape(leaderLogs[t]) && Backed(leaderLogs[t], leaderLogs)
    && (forall k :: |e.log| <= k < |leaderLogs[t]| ==> leaderLogs[t][k].term == t)
  }

  ghost predicate LeadersOk(elections: map<nat, Election>, leaderLogs: map<nat, Log>, votes: set<Vote>, n: nat) {
    && elections.Keys == leaderLogs.Keys
    && forall t :: t in elections ==> LeaderOk(t, elections[t], leaderLogs, votes, n)
  }

  /******* Chosen entries *******/

  // The leader's log up to the entry.
  function Upto(leaderLogs: map<nat, Log>, t: nat, index: nat): Log
    requires t in leaderLogs && index < |leaderLogs[t]|
  {
    leaderLogs[t][..index + 1]
  }

  ghost predicate ChoiceOk(c: Choice, acks: set<Ack>, leaderLogs: map<nat, Log>, n: nat) {
    && c.term in leaderLogs && c.index < |leaderLogs[c.term]| && leaderLogs[c.term][c.index].term == c.term
    && IsQuorum(c.quorum, n)
    && forall v :: v in c.quorum ==> Ack(v, c.term, c.index) in acks
  }

  ghost predicate ChoicesOk(choices: set<Choice>, acks: set<Ack>, leaderLogs: map<nat, Log>, n: nat) {
    forall c :: c in choices ==> ChoiceOk(c, acks, leaderLogs, n)
  }

  // log up to index k is part of what some choice of a term up to top settled.
  ghost predicate SettledBy(c: Choice, log: Log, k: nat, top: nat, leaderLogs: map<nat, Log>) {
    && c.term <= top && k <= c.index && k < |log|
    && c.term in leaderLogs && c.index < |leaderLogs[c.term]|
    && leaderLogs[c.term][..k + 1] == log[..k + 1]
  }

  ghost predicate Settled(log: Log, k: nat, top: nat, leaderLogs: map<nat, Log>, choices: set<Choice>) {
    k == 0 || exists c :: c in choices && SettledBy(c, log, k, top, leaderLogs)
  }

  ghost predicate AppliedOk(applied: set<(nat, Command)>, choices: set<Choice>, leaderLogs: map<nat, Log>) {
    forall p :: p in applied ==> exists c :: c in choices && AppliedBy(p, c, leaderLogs)
  }

  ghost predicate AppliedBy(p: (nat, Command), c: Choice, leaderLogs: map<nat, Log>) {
    && c.term in leaderLogs && p.0 <= c.index < |leaderLogs[c.term]|
    && leaderLogs[c.term][p.0].command == p.1
  }

  /******* Nodes and messages *******/

  ghost predicate NodeOk(i: nat, m: Node, elections: map<nat, Election>, leaderLogs: map<nat, Log>,
                         bids: map<Bid, Log>, votes: set<Vote>, choices: set<Choice>) {
    && Shape(m.log) && Last(m.log).term <= m.term && Backed(m.log, leaderLogs)
    && m.commitIndex <= |m.machine| < |m.log| && m.machine == Commands(m.log[1..|m.machine| + 1])
    && Settled(m.log, |m.machine|, m.term, leaderLogs, choices)
    && (m.votedFor.Some? ==> Vote(i, m.term, m.votedFor.value) in votes)
    && (m.role.Leader? ==> m.term in elections && m.term in leaderLogs && elections[m.term].leader == i && leaderLogs[m.term] == m.log)
    && (m.role.Candidate? ==>
          && m.votedFor == Some(i) && Bid(m.term, i) in bids && bids[Bid(m.term, i)] == m.log && Last(m.log).term < m.term
          && (m.term in elections ==> elections[m.term].leader != i))
  }

  ghost predicate NodesOk(nodes: seq<Node>, elections: map<nat, Election>, leaderLogs: map<nat, Log>,
                          bids: map<Bid, Log>, votes: set<Vote>, choices: set<Choice>) {
    forall i :: 0 <= i < |nodes| ==> NodeOk(i, nodes[i], elections, leaderLogs, bids, votes, choices)
  }

  ghost predicate BidOk(b: Bid, log: Log, leaderLogs: map<nat, Log>, votes: set<Vote>) {
    Shape(log) && Last(log).term < b.term && Backed(log, leaderLogs) && Vote(b.candidate, b.term, b.candidate) in votes
  }

  ghost predicate BidsOk(bids: map<Bid, Log>, leaderLogs: map<nat, Log>, votes: set<Vote>) {
    forall b :: b in bids ==> BidOk(b, bids[b], leaderLogs, votes)
  }

  ghost predicate RequestsOk(requests: set<VoteRequest>, bids: map<Bid, Log>) {
    forall r :: r in requests ==>
      && Bid(r.term, r.candidate) in bids
      && var log := bids[Bid(r.term, r.candidate)];
         log != [] && r.lastIndex == |log| - 1 && r.lastTerm == Last(log).term
  }

  ghost predicate VoteOk(v: Vote, nodes: seq<Node>, bids: map<Bid, Log>) {
    && v.voter < |nodes| && nodes[v.voter].term >= v.term
    && (nodes[v.voter].term == v.term ==> nodes[v.voter].votedFor == Some(v.candidate))
    && Bid(v.term, v.candidate) in bids
  }

  ghost predicate VotesOk(votes: set<Vote>, nodes: seq<Node>, bids: map<Bid, Log>) {
    && (forall v :: v in votes ==> VoteOk(v, nodes, bids))
    && forall v, w :: v in votes && w in votes && v.voter == w.voter && v.term == w.term ==> v.candidate == w.candidate
  }

  // What a leader sends lies in its log, and its commit index within what it sends
  // and in what is settled.
  ghost predicate AppendOk(r: AppendRequest, leaderLogs: map<nat, Log>, choices: set<Choice>) {
    && r.term in leaderLogs
    && var whole := leaderLogs[r.term];
       var end := r.prevIndex + 1 + |r.entries|;
       && end <= |whole| && r.entries == whole[r.prevIndex + 1..end] && r.prevTerm == whole[r.prevIndex].term
       && r.commit < end && Settled(whole, r.commit, r.term, leaderLogs, choices)
  }

  ghost predicate AppendsOk(appends: set<AppendRequest>, leaderLogs: map<nat, Log>, choices: set<Choice>) {
    forall r :: r in appends ==> AppendOk(r, leaderLogs, choices)
  }

  /******* Promises *******/

  // A leader of a term strictly between was elected without log.
  ghost predicate Superseded(log: Log, elections: map<nat, Election>, t: nat, top: nat) {
    exists u :: t < u < top && u in elections && !(log <= elections[u].log)
  }

  // A node keeps what it acknowledged until a leader without it comes along.
  ghost predicate AckOk(a: Ack, nodes: seq<Node>, elections: map<nat, Election>, leaderLogs: map<nat, Log>) {
    && a.node < |nodes| && a.term in leaderLogs && a.index < |leaderLogs[a.term]|
    && nodes[a.node].term >= a.term
    && (Upto(leaderLogs, a.term, a.index) <= nodes[a.node].log
        || Superseded(Upto(leaderLogs, a.term, a.index), elections, a.term, nodes[a.node].term + 1))
  }

  ghost predicate AcksOk(acks: set<Ack>, nodes: seq<Node>, elections: map<nat, Election>, leaderLogs: map<nat, Log>) {
    forall a :: a in acks ==> AckOk(a, nodes, elections, leaderLogs)
  }

  // a is for an entry of the acknowledged leader's own term.
  ghost predicate OwnTerm(a: Ack, leaderLogs: map<nat, Log>) {
    a.term in leaderLogs && a.index < |leaderLogs[a.term]| && leaderLogs[a.term][a.index].term == a.term
  }

  // Whoever gets a vote in a later term has what the voter acknowledged, unless a
  // leader without it came between, or the vote was of no use.
  ghost predicate PromiseOk(v: Vote, a: Ack, bids: map<Bid, Log>, elections: map<nat, Election>, leaderLogs: map<nat, Log>) {
    OwnTerm(a, leaderLogs) && v.voter == a.node && a.term < v.term && Bid(v.term, v.candidate) in bids ==>
      || Upto(leaderLogs, a.term, a.index) <= bids[Bid(v.term, v.candidate)]
      || Superseded(Upto(leaderLogs, a.term, a.index), elections, a.term, v.term)
      || v.term in elections
  }

  ghost predicate PromisesOk(votes: set<Vote>, acks: set<Ack>, bids: map<Bid, Log>, elections: map<nat, Election>, leaderLogs: map<nat, Log>) {
    forall v, a :: v in votes && a in acks ==> PromiseOk(v, a, bids, elections, leaderLogs)
  }

  ghost predicate ElectedOk(t: nat, e: Election, a: Ack, elections: map<nat, Election>, leaderLogs: map<nat, Log>) {
    OwnTerm(a, leaderLogs) && a.node in e.voters && a.term < t ==>
      || Upto(leaderLogs, a.term, a.index) <= e.log
      || Superseded(Upto(leaderLogs, a.term, a.index), elections, a.term, t)
  }

  ghost predicate ElectionsOk(acks: set<Ack>, elections: map<nat, Election>, leaderLogs: map<nat, Log>) {
    forall t, a :: t in elections && a in acks ==> ElectedOk(t, elections[t], a, elections, leaderLogs)
  }

  ghost predicate StateOk(s: State) {
    && LeadersOk(s.elections, s.leaderLogs, s.votes, |s.nodes|)
    && NodesOk(s.nodes, s.elections, s.leaderLogs, s.bids, s.votes, s.choices)
    && BidsOk(s.bids, s.leaderLogs, s.votes) && RequestsOk(s.requests, s.bids)
    && VotesOk(s.votes, s.nodes, s.bids)
    && AppendsOk(s.appends, s.leaderLogs, s.choices)
    && AcksOk(s.acks, s.nodes, s.elections, s.leaderLogs)
    && PromisesOk(s.votes, s.acks, s.bids, s.elections, s.leaderLogs)
    && ElectionsOk(s.acks, s.elections, s.leaderLogs)
    && ChoicesOk(s.choices, s.acks, s.leaderLogs, |s.nodes|)
    && AppliedOk(s.applied, s.choices, s.leaderLogs)
  }

  /******* Quorums *******/

  function Upward(n: nat): (r: set<nat>)
    ensures |r| == n && forall v: nat :: v in r <==> v < n
  {
    if n == 0 then {} else Upward(n - 1) + {n - 1}
  }

  lemma SubsetSize(x: set<nat>, y: set<nat>)
    requires x <= y
    ensures |x| <= |y|
  {
    assert y == x + (y - x);
  }

  lemma QuorumsMeet(p: set<nat>, q: set<nat>, n: nat) returns (v: nat)
    requires IsQuorum(p, n) && IsQuorum(q, n)
    ensures v in p && v in q
  {
    SubsetSize(p + q, Upward(n));
    assert |p + q| == |p| + |q| - |p * q|;
    v :| v in p * q;
  }

  /******* Completeness *******/

  // A chosen entry, with all before it, is in the log every later leader was
  // elected with.
  lemma {:induction false} ChosenInElected(s: State, c: Choice, t: nat)
    requires StateOk(s) && c in s.choices && t in s.elections && c.term < t
    ensures c.term in s.leaderLogs && c.index < |s.leaderLogs[c.term]|
    ensures Upto(s.leaderLogs, c.term, c.index) <= s.elections[t].log
    decreases t
  {
    hide NodesOk, BidsOk, RequestsOk, VotesOk, AppendsOk, AcksOk, PromisesOk, AppliedOk, Backed, Shape;
    assert ChoiceOk(c, s.acks, s.leaderLogs, |s.nodes|);
    var chosen := Upto(s.leaderLogs, c.term, c.index);
    var e := s.elections[t];
    assert LeaderOk(t, e, s.leaderLogs, s.votes, |s.nodes|);
    var v := QuorumsMeet(e.voters, c.quorum, |s.nodes|);
    var a := Ack(v, c.term, c.index);
    assert ElectedOk(t, e, a, s.elections, s.leaderLogs);
    if Superseded(chosen, s.elections, c.term, t) {
      var u :| c.term < u < t && u in s.elections && !(chosen <= s.elections[u].log);
      ChosenInElected(s, c, u);
    }
  }

  lemma ChosenInLeader(s: State, c: Choice, t: nat)
    requires StateOk(s) && c in s.choices && t in s.leaderLogs && c.term <= t
    ensures c.term in s.leaderLogs && c.index < |s.leaderLogs[c.term]|
    ensures Upto(s.leaderLogs, c.term, c.index) <= s.leaderLogs[t]
  {
    hide NodesOk, BidsOk, RequestsOk, VotesOk, AppendsOk, AcksOk, PromisesOk, ElectionsOk, AppliedOk, Backed, Shape;
    assert ChoiceOk(c, s.acks, s.leaderLogs, |s.nodes|);
    if c.term < t {
      ChosenInElected(s, c, t);
      assert LeaderOk(t, s.elections[t], s.leaderLogs, s.votes, |s.nodes|);
      PrefixOfPrefix(Upto(s.leaderLogs, c.term, c.index), s.elections[t].log, s.leaderLogs[t]);
    }
  }

  // Two logs written by leaders agree as soon as they agree on one term.
  lemma BackedMatch(x: Log, y: Log, leaderLogs: map<nat, Log>)
    requires Shape(x) && Shape(y) && Backed(x, leaderLogs) && Backed(y, leaderLogs)
    ensures Matching(x, y)
  {
    forall k | 0 <= k < |x| && k < |y| && x[k].term == y[k].term ensures x[..k + 1] == y[..k + 1] {
      if k > 0 {
        var t := x[k].term;
        assert leaderLogs[t][..k + 1] == x[..k + 1];
        assert leaderLogs[t][..k + 1] == y[..k + 1];
      }
    }
  }
}
