// Elections keep what RaftInvariant says.
module RaftVotes {
  import opened Results
  import opened RaftLog
  import opened RaftNode
  import opened Cluster
  import opened RaftInvariant
  import opened RaftSteps

  // A node that voted in a term has reached it.
  lemma NotAhead(s: State, i: nat, t: nat, c: nat)
    requires VotesOk(s.votes, s.nodes, s.bids) && i < |s.nodes| && t > s.nodes[i].term
    ensures Vote(i, t, c) !in s.votes
  {
    assert forall v :: v in s.votes && v.voter == i ==> v.term <= s.nodes[i].term;
  }

  /******* Standing for election *******/

  lemma TimeoutFresh(s: State, i: nat)
    requires StateOk(s) && i < |s.nodes|
    ensures var t := s.nodes[i].term + 1;
      && Bid(t, i) !in s.bids
      && (t in s.elections ==> s.elections[t].leader != i)
      && forall c :: Vote(i, t, c) !in s.votes
  {
    hide NodesOk, RequestsOk, VotesOk, AppendsOk, AcksOk, PromisesOk, ElectionsOk, ChoicesOk, AppliedOk, Shape, Backed;
    var t := s.nodes[i].term + 1;
    forall c ensures Vote(i, t, c) !in s.votes {
      NotAhead(s, i, t, c);
    }
    assert forall b :: b in s.bids ==> Vote(b.candidate, b.term, b.candidate) in s.votes;
    if t in s.elections {
      assert LeaderOk(t, s.elections[t], s.leaderLogs, s.votes, |s.nodes|);
    }
  }

  lemma TimeoutStep(s: State, i: nat)
    requires StateOk(s) && Enabled(s, Timeout(i))
    ensures StateOk(Step(s, Timeout(i)))
  {
    hide LeadersOk, NodesOk, BidsOk, RequestsOk, VotesOk, AppendsOk, AcksOk, PromisesOk, ElectionsOk, ChoicesOk, AppliedOk, Settled, Shape, Backed;
    var n := s.nodes[i];
    var m := StartElection(n, i);
    var b, v := Bid(m.term, i), Vote(i, m.term, i);
    var bids, votes := s.bids[b := m.log], s.votes + {v};
    GetNode(s, i);
    TimeoutFresh(s, i);
    assert Grows(s.leaderLogs, s.leaderLogs);
    SettledGrows(m.log, |m.machine|, n.term, m.term, s.leaderLogs, s.leaderLogs, s.choices, s.choices);
    NodesChange(s, i, m, bids, votes, s.choices);
    LeadersVotes(s, votes);
    AcksKept(s, i, m);
    TimeoutVotes(s, i, m);
    TimeoutBids(s, i, m);
    TimeoutPromises(s, i, m);
  }

  lemma TimeoutVotes(s: State, i: nat, m: Node)
    requires VotesOk(s.votes, s.nodes, s.bids) && i < |s.nodes| && m == StartElection(s.nodes[i], i)
    requires forall c :: Vote(i, m.term, c) !in s.votes
    ensures VotesOk(s.votes + {Vote(i, m.term, i)}, s.nodes[i := m], s.bids[Bid(m.term, i) := m.log])
  {
    var votes := s.votes + {Vote(i, m.term, i)};
    forall v, w | v in votes && w in votes && v.voter == w.voter && v.term == w.term ensures v.candidate == w.candidate {
      assert v == Vote(v.voter, v.term, v.candidate) && w == Vote(v.voter, v.term, w.candidate);
    }
  }

  lemma TimeoutBids(s: State, i: nat, m: Node)
    requires BidsOk(s.bids, s.leaderLogs, s.votes) && RequestsOk(s.requests, s.bids)
    requires Shape(m.log) && Backed(m.log, s.leaderLogs) && Last(m.log).term < m.term && Bid(m.term, i) !in s.bids
    ensures BidsOk(s.bids[Bid(m.term, i) := m.log], s.leaderLogs, s.votes + {Vote(i, m.term, i)})
    ensures RequestsOk(s.requests + {Ballot(m, i)}, s.bids[Bid(m.term, i) := m.log])
  {
    hide Backed;
    var last := Last(m.log);
    assert last.index == |m.log| - 1;
  }

  lemma TimeoutPromises(s: State, i: nat, m: Node)
    requires PromisesOk(s.votes, s.acks, s.bids, s.elections, s.leaderLogs) && AcksOk(s.acks, s.nodes, s.elections, s.leaderLogs)
    requires VotesOk(s.votes, s.nodes, s.bids)
    requires i < |s.nodes| && m == StartElection(s.nodes[i], i) && Bid(m.term, i) !in s.bids
    ensures PromisesOk(s.votes + {Vote(i, m.term, i)}, s.acks, s.bids[Bid(m.term, i) := m.log], s.elections, s.leaderLogs)
  {
    hide Superseded;
    var votes, bids := s.votes + {Vote(i, m.term, i)}, s.bids[Bid(m.term, i) := m.log];
    forall v, a | v in votes && a in s.acks ensures PromiseOk(v, a, bids, s.elections, s.leaderLogs) {
      if v in s.votes {
        assert PromiseOk(v, a, s.bids, s.elections, s.leaderLogs) && VoteOk(v, s.nodes, s.bids);
      } else {
        assert AckOk(a, s.nodes, s.elections, s.leaderLogs);
      }
    }
  }

  /******* Voting *******/

  // A log's last entry places the whole log in the log of the leader of its term.
  lemma LastPlaces(log: Log, leaderLogs: map<nat, Log>)
    requires Shape(log) && Backed(log, leaderLogs) && Last(log).term > 0
    ensures var t := Last(log).term; t in leaderLogs && |log| <= |leaderLogs[t]| && leaderLogs[t][..|log|] == log
  {
    ShapedTerm(log, |log| - 1);
    assert log[..|log| - 1 + 1] == log;
  }

  // A candidate whose log is at least as up to date as the voter's has what the
  // voter acknowledged, unless a leader without it came between.
  lemma UpToDateHas(s: State, t: nat, index: nat, log: Log, bid: Log, top: nat)
    requires StateOk(s) && t in s.leaderLogs && index < |s.leaderLogs[t]| && s.leaderLogs[t][index].term == t
    requires Shape(log) && Backed(log, s.leaderLogs) && Upto(s.leaderLogs, t, index) <= log
    requires Shape(bid) && Backed(bid, s.leaderLogs) && Last(bid).term < top
    requires Last(bid).term > Last(log).term || (Last(bid).term == Last(log).term && |bid| >= |log|)
    ensures Upto(s.leaderLogs, t, index) <= bid || Superseded(Upto(s.leaderLogs, t, index), s.elections, t, top)
  {
    hide NodesOk, BidsOk, RequestsOk, VotesOk, AppendsOk, AcksOk, PromisesOk, ElectionsOk, ChoicesOk, AppliedOk, Backed, Matching;
    var p := Upto(s.leaderLogs, t, index);
    assert LeaderOk(t, s.elections[t], s.leaderLogs, s.votes, |s.nodes|);
    assert p[index].term == t && log[index].term == t;
    assert t <= Last(log).term;
    LastPlaces(bid, s.leaderLogs);
    var u := Last(bid).term;
    if u == Last(log).term {
      LastPlaces(log, s.leaderLogs);
      PrefixesOfOne(log, bid, s.leaderLogs[u]);
      PrefixOfPrefix(p, log, bid);
    } else if p <= s.elections[u].log {
      ElectedInside(s, u, bid);
      PrefixOfPrefix(p, s.elections[u].log, bid);
    }
  }

  // A log that ends with an entry of u holds all that u's leader was elected with.
  lemma ElectedInside(s: State, u: nat, bid: Log)
    requires StateOk(s) && u in s.elections && u in s.leaderLogs && Shape(bid) && Last(bid).term == u
    requires |bid| <= |s.leaderLogs[u]| && s.leaderLogs[u][..|bid|] == bid
    ensures s.elections[u].log <= bid
  {
    hide NodesOk, BidsOk, RequestsOk, VotesOk, AppendsOk, AcksOk, PromisesOk, ElectionsOk, ChoicesOk, AppliedOk, Backed;
    var e := s.elections[u];
    assert LeaderOk(u, e, s.leaderLogs, s.votes, |s.nodes|);
    assert forall k :: 0 <= k < |e.log| ==> s.leaderLogs[u][k].term <= Last(e.log).term < u;
    assert s.leaderLogs[u][|bid| - 1].term == u;
    PrefixesOfOne(e.log, bid, s.leaderLogs[u]);
  }

  lemma GrantPromise(s: State, i: nat, r: VoteRequest, a: Ack)
    requires StateOk(s) && i < |s.nodes| && r in s.requests && s.nodes[i].log != []
    requires r.term == s.nodes[i].term && UpToDate(r, s.nodes[i].log) && a in s.acks
    ensures PromiseOk(Vote(i, r.term, r.candidate), a, s.bids, s.elections, s.leaderLogs)
  {
    hide NodesOk, LeadersOk, VotesOk, AppendsOk, PromisesOk, ElectionsOk, ChoicesOk, AppliedOk, Backed, Settled;
    GetNode(s, i);
    var n := s.nodes[i];
    var b := Bid(r.term, r.candidate);
    assert BidOk(b, s.bids[b], s.leaderLogs, s.votes);
    assert AckOk(a, s.nodes, s.elections, s.leaderLogs);
    if OwnTerm(a, s.leaderLogs) && a.node == i && a.term < r.term {
      var p := Upto(s.leaderLogs, a.term, a.index);
      if p <= n.log {
        LastIndexed(n.log);
        UpToDateHas(s, a.term, a.index, n.log, s.bids[b], r.term);
      } else {
        var u :| a.term < u < r.term + 1 && u in s.elections && !(p <= s.elections[u].log);
      }
    }
  }

  lemma LastIndexed(log: Log)
    requires Shape(log)
    ensures Last(log).index == |log| - 1
  {
  }

  // A node of the request's term that may vote for the candidate does.
  lemma GrantStep(s: State, i: nat, r: VoteRequest)
    requires StateOk(s) && i < |s.nodes| && r in s.requests && s.nodes[i].log != []
    requires r.term == s.nodes[i].term && UpToDate(r, s.nodes[i].log)
    requires s.nodes[i].votedFor.None? || s.nodes[i].votedFor == Some(r.candidate)
    ensures StateOk(s.(nodes := s.nodes[i := s.nodes[i].(votedFor := Some(r.candidate))], votes := s.votes + {Vote(i, r.term, r.candidate)}))
  {
    hide LeadersOk, NodesOk, BidsOk, VotesOk, AppendsOk, AcksOk, PromisesOk, ElectionsOk, ChoicesOk, AppliedOk, Settled, Shape, Backed, PromiseOk, UpToDate;
    var m := s.nodes[i].(votedFor := Some(r.candidate));
    var v := Vote(i, r.term, r.candidate);
    GetNode(s, i);
    NodesChange(s, i, m, s.bids, s.votes + {v}, s.choices);
    LeadersVotes(s, s.votes + {v});
    AcksKept(s, i, m);
    GrantVotes(s, i, m, v);
    forall a | a in s.acks ensures PromiseOk(v, a, s.bids, s.elections, s.leaderLogs) {
      GrantPromise(s, i, r, a);
    }
    MorePromises(s, v);
    BidsVotes(s, s.votes + {v});
  }

  lemma BidsVotes(s: State, votes: set<Vote>)
    requires BidsOk(s.bids, s.leaderLogs, s.votes) && s.votes <= votes
    ensures BidsOk(s.bids, s.leaderLogs, votes)
  {
    hide Shape, Backed;
  }

  lemma MorePromises(s: State, v: Vote)
    requires PromisesOk(s.votes, s.acks, s.bids, s.elections, s.leaderLogs)
    requires forall a :: a in s.acks ==> PromiseOk(v, a, s.bids, s.elections, s.leaderLogs)
    ensures PromisesOk(s.votes + {v}, s.acks, s.bids, s.elections, s.leaderLogs)
  {
    hide PromiseOk;
  }

  lemma GrantVotes(s: State, i: nat, m: Node, v: Vote)
    requires VotesOk(s.votes, s.nodes, s.bids) && i < |s.nodes| && v.voter == i && v.term == s.nodes[i].term
    requires m == s.nodes[i].(votedFor := Some(v.candidate)) && Bid(v.term, v.candidate) in s.bids
    requires s.nodes[i].votedFor.None? || s.nodes[i].votedFor == Some(v.candidate)
    ensures VotesOk(s.votes + {v}, s.nodes[i := m], s.bids)
  {
    forall w | w in s.votes && w.voter == i && w.term == v.term ensures w.candidate == v.candidate {
      assert VoteOk(w, s.nodes, s.bids);
    }
  }

  lemma DeliverVoteStep(s: State, i: nat, r: VoteRequest)
    requires StateOk(s) && Enabled(s, DeliverVote(i, r))
    ensures StateOk(Step(s, DeliverVote(i, r)))
  {
    hide StateOk, UpToDate;
    var n := s.nodes[i];
    if r.term < n.term {
      assert s.nodes[i := n] == s.nodes;
    } else {
      var s0 := s;
      if r.term > n.term {
        ObserveTermStep(s, i, r.term);
        s0 := Step(s, ObserveTerm(i, r.term));
      } else {
        assert s.nodes[i := n] == s.nodes;
      }
      var m := s0.nodes[i];
      if UpToDate(r, m.log) && (m.votedFor.None? || m.votedFor == Some(r.candidate)) {
        GrantStep(s0, i, r);
        assert s0.nodes[i := m.(votedFor := Some(r.candidate))] == s.nodes[i := m.(votedFor := Some(r.candidate))];
      }
    }
  }
}
