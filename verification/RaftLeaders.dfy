// Winning an election, proposing and sending keep what RaftInvariant says.
module RaftLeaders {
  import opened RaftLog
  import opened RaftNode
  import opened Cluster
  import opened RaftInvariant
  import opened RaftSteps

  /******* When leaders' logs and elections grow *******/

  ghost predicate MoreElections(x: map<nat, Election>, y: map<nat, Election>) {
    forall t :: t in x ==> t in y && y[t] == x[t]
  }

  lemma UptoGrows(x: map<nat, Log>, y: map<nat, Log>, t: nat, index: nat)
    requires Grows(x, y) && t in x && index < |x[t]|
    ensures t in y && index < |y[t]| && Upto(y, t, index) == Upto(x, t, index)
    ensures y[t][index] == x[t][index]
  {
    PrefixTake(x[t], y[t], index + 1);
  }

  lemma BidsGrow(s: State, y: map<nat, Log>)
    requires BidsOk(s.bids, s.leaderLogs, s.votes) && Grows(s.leaderLogs, y)
    ensures BidsOk(s.bids, y, s.votes)
  {
    hide Shape, Backed;
    forall b | b in s.bids ensures BidOk(b, s.bids[b], y, s.votes) {
      BackedGrows(s.bids[b], s.leaderLogs, y);
    }
  }

  lemma AppendsGrow(s: State, y: map<nat, Log>)
    requires AppendsOk(s.appends, s.leaderLogs, s.choices) && Grows(s.leaderLogs, y)
    ensures AppendsOk(s.appends, y, s.choices)
  {
    hide Settled;
    forall r | r in s.appends ensures AppendOk(r, y, s.choices) {
      assert AppendOk(r, s.leaderLogs, s.choices);
      var end := r.prevIndex + 1 + |r.entries|;
      var whole := s.leaderLogs[r.term];
      assert r.entries == whole[r.prevIndex + 1..end] == y[r.term][r.prevIndex + 1..end];
      SettledGrows(whole, r.commit, r.term, r.term, s.leaderLogs, y, s.choices, s.choices);
      PrefixTake(whole, y[r.term], r.commit + 1);
      SettledPart(whole, r.commit, y[r.term], r.commit, r.term, y, s.choices);
    }
  }

  lemma SupersededMore(log: Log, x: map<nat, Election>, y: map<nat, Election>, t: nat, top: nat)
    requires Superseded(log, x, t, top) && MoreElections(x, y)
    ensures Superseded(log, y, t, top)
  {
  }

  lemma AcksGrow(s: State, x: map<nat, Election>, y: map<nat, Log>)
    requires AcksOk(s.acks, s.nodes, s.elections, s.leaderLogs) && Grows(s.leaderLogs, y) && MoreElections(s.elections, x)
    ensures AcksOk(s.acks, s.nodes, x, y)
  {
    hide Superseded, Upto;
    forall a | a in s.acks ensures AckOk(a, s.nodes, x, y) {
      assert AckOk(a, s.nodes, s.elections, s.leaderLogs);
      UptoGrows(s.leaderLogs, y, a.term, a.index);
      var p := Upto(y, a.term, a.index);
      if Superseded(p, s.elections, a.term, s.nodes[a.node].term + 1) {
        SupersededMore(p, s.elections, x, a.term, s.nodes[a.node].term + 1);
      }
    }
  }

  lemma PromisesGrow(s: State, x: map<nat, Election>, y: map<nat, Log>)
    requires PromisesOk(s.votes, s.acks, s.bids, s.elections, s.leaderLogs) && AcksOk(s.acks, s.nodes, s.elections, s.leaderLogs)
    requires Grows(s.leaderLogs, y) && MoreElections(s.elections, x)
    ensures PromisesOk(s.votes, s.acks, s.bids, x, y)
  {
    hide Superseded, Upto;
    forall v, a | v in s.votes && a in s.acks ensures PromiseOk(v, a, s.bids, x, y) {
      assert PromiseOk(v, a, s.bids, s.elections, s.leaderLogs) && AckOk(a, s.nodes, s.elections, s.leaderLogs);
      UptoGrows(s.leaderLogs, y, a.term, a.index);
      var p := Upto(y, a.term, a.index);
      if Superseded(p, s.elections, a.term, v.term) {
        SupersededMore(p, s.elections, x, a.term, v.term);
      }
    }
  }

  lemma ElectedGrows(s: State, t: nat, e: Election, a: Ack, x: map<nat, Election>, y: map<nat, Log>)
    requires ElectedOk(t, e, a, s.elections, s.leaderLogs) && AckOk(a, s.nodes, s.elections, s.leaderLogs)
    requires Grows(s.leaderLogs, y) && MoreElections(s.elections, x)
    ensures ElectedOk(t, e, a, x, y)
  {
    hide Superseded, Upto;
    UptoGrows(s.leaderLogs, y, a.term, a.index);
    var p := Upto(y, a.term, a.index);
    if Superseded(p, s.elections, a.term, t) {
      SupersededMore(p, s.elections, x, a.term, t);
    }
  }

  lemma ChoicesGrow(s: State, acks: set<Ack>, y: map<nat, Log>)
    requires ChoicesOk(s.choices, s.acks, s.leaderLogs, |s.nodes|) && Grows(s.leaderLogs, y) && s.acks <= acks
    ensures ChoicesOk(s.choices, acks, y, |s.nodes|)
  {
  }

  lemma AppliedGrow(s: State, y: map<nat, Log>)
    requires AppliedOk(s.applied, s.choices, s.leaderLogs) && Grows(s.leaderLogs, y)
    ensures AppliedOk(s.applied, s.choices, y)
  {
    forall p | p in s.applied ensures exists c :: c in s.choices && AppliedBy(p, c, y) {
      var c :| c in s.choices && AppliedBy(p, c, s.leaderLogs);
      assert AppliedBy(p, c, y);
    }
  }

  // Another node is as it should be when a leader's log grows that is not its own.
  lemma NodeGrows(j: nat, m: Node, s: State, x: map<nat, Election>, y: map<nat, Log>)
    requires NodeOk(j, m, s.elections, s.leaderLogs, s.bids, s.votes, s.choices)
    requires Grows(s.leaderLogs, y) && MoreElections(s.elections, x)
    requires m.role.Leader? ==> m.term in y && m.term in s.leaderLogs && y[m.term] == s.leaderLogs[m.term]
    requires m.role.Candidate? && m.term in x ==> x[m.term].leader != j
    ensures NodeOk(j, m, x, y, s.bids, s.votes, s.choices)
  {
    hide Shape, Backed, Settled;
    BackedGrows(m.log, s.leaderLogs, y);
    SettledGrows(m.log, |m.machine|, m.term, m.term, s.leaderLogs, y, s.choices, s.choices);
  }

  lemma LeaderGrows(t: nat, e: Election, s: State, y: map<nat, Log>)
    requires t in s.leaderLogs && LeaderOk(t, e, s.leaderLogs, s.votes, |s.nodes|) && Grows(s.leaderLogs, y)
    requires y[t] == s.leaderLogs[t]
    ensures LeaderOk(t, e, y, s.votes, |s.nodes|)
  {
    hide Shape, Backed;
    BackedGrows(y[t], s.leaderLogs, y);
  }

  /******* Winning *******/

  lemma OneCandidate(s: State, v: nat, t: nat, c: nat, d: nat)
    requires VotesOk(s.votes, s.nodes, s.bids) && Vote(v, t, c) in s.votes && Vote(v, t, d) in s.votes
    ensures c == d
  {
  }

  // Nobody has won the term yet: two quorums share a voter.
  lemma FirstWin(s: State, i: nat, voters: set<nat>)
    requires StateOk(s) && Enabled(s, Win(i, voters))
    ensures s.nodes[i].term !in s.elections && s.nodes[i].term !in s.leaderLogs
  {
    hide NodesOk, BidsOk, RequestsOk, VotesOk, AppendsOk, AcksOk, PromisesOk, ElectionsOk, ChoicesOk, AppliedOk, Shape, Backed, Settled;
    GetNode(s, i);
    var t := s.nodes[i].term;
    if t in s.elections {
      var e := s.elections[t];
      assert LeaderOk(t, e, s.leaderLogs, s.votes, |s.nodes|);
      var v := QuorumsMeet(e.voters, voters, |s.nodes|);
      OneCandidate(s, v, t, e.leader, i);
    }
  }

  lemma WinGrows(s: State, i: nat, voters: set<nat>)
    requires StateOk(s) && Enabled(s, Win(i, voters))
    ensures var t := s.nodes[i].term;
      && Grows(s.leaderLogs, s.leaderLogs[t := s.nodes[i].log])
      && MoreElections(s.elections, s.elections[t := Election(i, s.nodes[i].log, voters)])
  {
    hide StateOk;
    FirstWin(s, i, voters);
  }

  lemma WinLeaders(s: State, i: nat, voters: set<nat>)
    requires StateOk(s) && Enabled(s, Win(i, voters))
    ensures var s' := Step(s, Win(i, voters)); LeadersOk(s'.elections, s'.leaderLogs, s.votes, |s.nodes|)
  {
    hide NodesOk, BidsOk, RequestsOk, VotesOk, AppendsOk, AcksOk, PromisesOk, ElectionsOk, ChoicesOk, AppliedOk, Shape, Backed, Settled;
    FirstWin(s, i, voters);
    WinGrows(s, i, voters);
    GetNode(s, i);
    var n := s.nodes[i];
    var s' := Step(s, Win(i, voters));
    forall t | t in s'.elections ensures LeaderOk(t, s'.elections[t], s'.leaderLogs, s.votes, |s.nodes|) {
      if t == n.term {
        BackedGrows(n.log, s.leaderLogs, s'.leaderLogs);
      } else {
        LeaderGrows(t, s.elections[t], s, s'.leaderLogs);
      }
    }
  }

  lemma WinNodes(s: State, i: nat, voters: set<nat>)
    requires StateOk(s) && Enabled(s, Win(i, voters))
    ensures var s' := Step(s, Win(i, voters)); NodesOk(s'.nodes, s'.elections, s'.leaderLogs, s.bids, s.votes, s.choices)
  {
    hide BidsOk, RequestsOk, VotesOk, AppendsOk, AcksOk, PromisesOk, ElectionsOk, ChoicesOk, AppliedOk, Shape, Backed, Settled;
    FirstWin(s, i, voters);
    WinGrows(s, i, voters);
    var s' := Step(s, Win(i, voters));
    forall j | 0 <= j < |s.nodes| ensures NodeOk(j, s'.nodes[j], s'.elections, s'.leaderLogs, s.bids, s.votes, s.choices) {
      GetNode(s, j);
      var m := s.nodes[j];
      if j == i {
        BackedGrows(m.log, s.leaderLogs, s'.leaderLogs);
        SettledGrows(m.log, |m.machine|, m.term, m.term, s.leaderLogs, s'.leaderLogs, s.choices, s.choices);
      } else {
        NodeGrows(j, m, s, s'.elections, s'.leaderLogs);
      }
    }
  }

  lemma WinElections(s: State, i: nat, voters: set<nat>)
    requires StateOk(s) && Enabled(s, Win(i, voters))
    ensures var s' := Step(s, Win(i, voters)); ElectionsOk(s.acks, s'.elections, s'.leaderLogs)
  {
    hide NodesOk, BidsOk, RequestsOk, VotesOk, AppendsOk, ChoicesOk, AppliedOk, Shape, Backed, Settled, ElectedOk;
    FirstWin(s, i, voters);
    WinGrows(s, i, voters);
    GetNode(s, i);
    var n := s.nodes[i];
    var s' := Step(s, Win(i, voters));
    forall t, a | t in s'.elections && a in s.acks ensures ElectedOk(t, s'.elections[t], a, s'.elections, s'.leaderLogs) {
      var e := s'.elections[t];
      assert AckOk(a, s.nodes, s.elections, s.leaderLogs);
      if t == n.term {
        WinnerHas(s, n, a, e, i);
      }
      ElectedGrows(s, t, e, a, s'.elections, s'.leaderLogs);
    }
  }

  lemma WinnerHas(s: State, n: Node, a: Ack, e: Election, i: nat)
    requires PromisesOk(s.votes, s.acks, s.bids, s.elections, s.leaderLogs) && a in s.acks
    requires n.term !in s.elections && e.log == n.log && Bid(n.term, i) in s.bids && s.bids[Bid(n.term, i)] == n.log
    requires forall v :: v in e.voters ==> Vote(v, n.term, i) in s.votes
    ensures ElectedOk(n.term, e, a, s.elections, s.leaderLogs)
  {
    hide Superseded, Upto;
    if a.node in e.voters {
      assert PromiseOk(Vote(a.node, n.term, i), a, s.bids, s.elections, s.leaderLogs);
    }
  }

  lemma WinStep(s: State, i: nat, voters: set<nat>)
    requires StateOk(s) && Enabled(s, Win(i, voters))
    ensures StateOk(Step(s, Win(i, voters)))
  {
    WinLeaders(s, i, voters);
    WinNodes(s, i, voters);
    WinElections(s, i, voters);
    hide LeadersOk, NodesOk, BidsOk, RequestsOk, VotesOk, AppendsOk, AcksOk, PromisesOk, ElectionsOk, ChoicesOk, AppliedOk;
    WinGrows(s, i, voters);
    var s' := Step(s, Win(i, voters));
    BidsGrow(s, s'.leaderLogs);
    AppendsGrow(s, s'.leaderLogs);
    AcksGrow(s, s'.elections, s'.leaderLogs);
    PromisesGrow(s, s'.elections, s'.leaderLogs);
    ChoicesGrow(s, s.acks, s'.leaderLogs);
    AppliedGrow(s, s'.leaderLogs);
    var t := s.(elections := s'.elections, leaderLogs := s'.leaderLogs);
    VotesKept(s, i, s'.nodes[i]);
    AcksKept(t, i, s'.nodes[i]);
  }

  /******* Sending *******/

  // The commit index in every message lies within what the message brings, so a
  // follower that takes the smaller of it and its last index commits only what it
  // has from this leader.
  lemma ShipStep(s: State, i: nat, next: nat)
    requires StateOk(s) && Enabled(s, Ship(i, next))
    ensures StateOk(Step(s, Ship(i, next)))
  {
    hide LeadersOk, NodesOk, BidsOk, RequestsOk, VotesOk, AcksOk, PromisesOk, ElectionsOk, ChoicesOk, AppliedOk, Shape, Backed, Settled;
    GetNode(s, i);
    var n := s.nodes[i];
    SettledPart(n.log, |n.machine|, n.log, n.commitIndex, n.term, s.leaderLogs, s.choices);
    assert AppendOk(Shipment(n, i, next), s.leaderLogs, s.choices);
  }
}
