// Proposals, replication and runs of a whole cluster.
module RaftReplication {
  import opened Results
  import opened RaftLog
  import opened RaftNode
  import opened Cluster
  import opened RaftInvariant
  import opened RaftSteps
  import opened RaftLeaders

  /******* Proposing *******/

  function Proposed(s: State, i: nat, command: Command): Node
    requires i < |s.nodes|
  {
    AppendCommand(s.nodes[i], command)
  }

  lemma ProposeGrows(s: State, i: nat, command: Command)
    requires StateOk(s) && Enabled(s, Propose(i, command))
    ensures var m := Proposed(s, i, command);
      && s.nodes[i].term in s.leaderLogs && s.leaderLogs[s.nodes[i].term] == s.nodes[i].log
      && Grows(s.leaderLogs, s.leaderLogs[m.term := m.log])
      && Shape(m.log) && Backed(m.log, s.leaderLogs[m.term := m.log])
  {
    hide LeadersOk, NodesOk, BidsOk, RequestsOk, VotesOk, AppendsOk, AcksOk, PromisesOk, ElectionsOk, ChoicesOk, AppliedOk, Settled;
    GetNode(s, i);
    LeaderTerm(s, s.nodes[i].term);
    var n, m := s.nodes[i], Proposed(s, i, command);
    var y := s.leaderLogs[m.term := m.log];
    ShapeExtend(n.log, m.log[|n.log|]);
    BackedGrows(n.log, s.leaderLogs, y);
    forall k | 0 < k < |m.log|
      ensures var t := m.log[k].term; t in y && k < |y[t]| && y[t][..k + 1] == m.log[..k + 1]
    {
      if k < |n.log| {
        assert m.log[..k + 1] == n.log[..k + 1];
      }
    }
  }

  lemma LeaderTerm(s: State, t: nat)
    requires StateOk(s) && t in s.elections
    ensures t in s.leaderLogs && LeaderOk(t, s.elections[t], s.leaderLogs, s.votes, |s.nodes|) && t > 0
  {
    hide NodesOk, BidsOk, RequestsOk, VotesOk, AppendsOk, AcksOk, PromisesOk, ElectionsOk, ChoicesOk, AppliedOk, Shape, Backed;
  }

  lemma ProposeLeaders(s: State, i: nat, command: Command)
    requires StateOk(s) && Enabled(s, Propose(i, command))
    ensures var m := Proposed(s, i, command); LeadersOk(s.elections, s.leaderLogs[m.term := m.log], s.votes, |s.nodes|)
  {
    hide NodesOk, BidsOk, RequestsOk, VotesOk, AppendsOk, AcksOk, PromisesOk, ElectionsOk, ChoicesOk, AppliedOk, Settled, Shape, Backed;
    GetNode(s, i);
    ProposeGrows(s, i, command);
    var m := Proposed(s, i, command);
    var y := s.leaderLogs[m.term := m.log];
    forall t | t in s.elections ensures LeaderOk(t, s.elections[t], y, s.votes, |s.nodes|) {
      LeaderTerm(s, t);
      if t != m.term {
        LeaderGrows(t, s.elections[t], s, y);
      }
    }
  }

  lemma ProposeNodes(s: State, i: nat, command: Command)
    requires StateOk(s) && Enabled(s, Propose(i, command))
    ensures var s' := Step(s, Propose(i, command)); NodesOk(s'.nodes, s.elections, s'.leaderLogs, s.bids, s.votes, s.choices)
  {
    hide LeadersOk, BidsOk, RequestsOk, VotesOk, AppendsOk, AcksOk, PromisesOk, ElectionsOk, ChoicesOk, AppliedOk, Settled, Shape, Backed;
    ProposeGrows(s, i, command);
    GetNode(s, i);
    var s' := Step(s, Propose(i, command));
    forall j | 0 <= j < |s.nodes| ensures NodeOk(j, s'.nodes[j], s.elections, s'.leaderLogs, s.bids, s.votes, s.choices) {
      GetNode(s, j);
      if j == i {
        var n, m := s.nodes[i], s'.nodes[i];
        SettledGrows(n.log, |n.machine|, n.term, n.term, s.leaderLogs, s'.leaderLogs, s.choices, s.choices);
        PrefixTake(n.log, m.log, |n.machine| + 1);
        SettledPart(n.log, |n.machine|, m.log, |n.machine|, n.term, s'.leaderLogs, s.choices);
        assert m.log[1..|n.machine| + 1] == n.log[1..|n.machine| + 1];
      } else {
        NodeGrows(j, s.nodes[j], s, s.elections, s'.leaderLogs);
      }
    }
  }

  // A node's own acknowledgement says nothing about terms it has yet to reach.
  lemma NewAcksPromise(s: State, fresh': set<Ack>, i: nat)
    requires VotesOk(s.votes, s.nodes, s.bids) && LeadersOk(s.elections, s.leaderLogs, s.votes, |s.nodes|) && i < |s.nodes|
    requires forall a :: a in fresh' ==> a.node == i && a.term == s.nodes[i].term
    requires PromisesOk(s.votes, s.acks, s.bids, s.elections, s.leaderLogs) && ElectionsOk(s.acks, s.elections, s.leaderLogs)
    ensures PromisesOk(s.votes, s.acks + fresh', s.bids, s.elections, s.leaderLogs)
    ensures ElectionsOk(s.acks + fresh', s.elections, s.leaderLogs)
  {
    hide Superseded, Upto, Shape, Backed, OwnTerm;
    forall v, a | v in s.votes && a in fresh' ensures PromiseOk(v, a, s.bids, s.elections, s.leaderLogs) {
      assert VoteOk(v, s.nodes, s.bids);
    }
    forall t, a | t in s.elections && a in fresh' ensures ElectedOk(t, s.elections[t], a, s.elections, s.leaderLogs) {
      assert LeaderOk(t, s.elections[t], s.leaderLogs, s.votes, |s.nodes|);
      if a.node in s.elections[t].voters {
        assert VoteOk(Vote(i, t, s.elections[t].leader), s.nodes, s.bids);
      }
    }
  }

  // The invariants about acknowledgements, when leaders' logs grow.
  lemma ProposeHistory(s: State, i: nat, command: Command)
    requires StateOk(s) && Enabled(s, Propose(i, command))
    ensures var s' := Step(s, Propose(i, command));
      && AcksOk(s'.acks, s'.nodes, s'.elections, s'.leaderLogs)
      && PromisesOk(s'.votes, s'.acks, s'.bids, s'.elections, s'.leaderLogs)
      && ElectionsOk(s'.acks, s'.elections, s'.leaderLogs)
  {
    hide LeadersOk, NodesOk, BidsOk, RequestsOk, VotesOk, AppendsOk, PromisesOk, ElectionsOk, ChoicesOk, AppliedOk, Settled, Shape, Backed, AckOk, Grows;
    ProposeGrows(s, i, command);
    ProposeLeaders(s, i, command);
    var s' := Step(s, Propose(i, command));
    var t := s.(leaderLogs := s'.leaderLogs);
    AcksGrow(s, s.elections, s'.leaderLogs);
    PromisesGrow(s, s.elections, s'.leaderLogs);
    ElectionsGrow(s, s'.leaderLogs);
    AcksKept(t, i, s'.nodes[i]);
    NewAcksPromise(t, {Ack(i, s.nodes[i].term, |s.nodes[i].log|)}, i);
    LeaderAck(s, i, command);
  }

  lemma LeaderAck(s: State, i: nat, command: Command)
    requires StateOk(s) && Enabled(s, Propose(i, command))
    ensures var s' := Step(s, Propose(i, command)); AckOk(Ack(i, s.nodes[i].term, |s.nodes[i].log|), s'.nodes, s'.elections, s'.leaderLogs)
  {
    hide StateOk;
    var m := Proposed(s, i, command);
    assert m.log[..|s.nodes[i].log| + 1] == m.log;
  }

  lemma ElectionsGrow(s: State, y: map<nat, Log>)
    requires ElectionsOk(s.acks, s.elections, s.leaderLogs) && AcksOk(s.acks, s.nodes, s.elections, s.leaderLogs) && Grows(s.leaderLogs, y)
    ensures ElectionsOk(s.acks, s.elections, y)
  {
    hide ElectedOk, AckOk, Grows;
    forall t, a | t in s.elections && a in s.acks ensures ElectedOk(t, s.elections[t], a, s.elections, y) {
      ElectedGrows(s, t, s.elections[t], a, s.elections, y);
    }
  }

  lemma ProposeStep(s: State, i: nat, command: Command)
    requires StateOk(s) && Enabled(s, Propose(i, command))
    ensures StateOk(Step(s, Propose(i, command)))
  {
    hide LeadersOk, NodesOk, BidsOk, RequestsOk, VotesOk, AppendsOk, AcksOk, PromisesOk, ElectionsOk, ChoicesOk, AppliedOk, Shape, Backed, Grows;
    ProposeLeaders(s, i, command);
    ProposeNodes(s, i, command);
    ProposeHistory(s, i, command);
    ProposeGrows(s, i, command);
    var s' := Step(s, Propose(i, command));
    BidsGrow(s, s'.leaderLogs);
    AppendsGrow(s, s'.leaderLogs);
    ChoicesGrow(s, s'.acks, s'.leaderLogs);
    AppliedGrow(s, s'.leaderLogs);
    VotesKept(s, i, s'.nodes[i]);
  }

  /******* Following *******/

  // What a request says the leader's log starts with.
  function SentLog(s: State, r: AppendRequest): Log
    requires r.term in s.leaderLogs && r.prevIndex + 1 + |r.entries| <= |s.leaderLogs[r.term]|
  {
    s.leaderLogs[r.term][..r.prevIndex + 1 + |r.entries|]
  }

  // A node of the request's term that holds its previous entry.
  ghost predicate Fitting(s: State, i: nat, r: AppendRequest) {
    && i < |s.nodes| && r in s.appends && s.nodes[i].log != []
    && s.nodes[i].role.Follower? && s.nodes[i].term == r.term
    && r.prevIndex < |s.nodes[i].log| && s.nodes[i].log[r.prevIndex].term == r.prevTerm
  }

  lemma GetAppend(s: State, r: AppendRequest)
    requires StateOk(s) && r in s.appends
    ensures AppendOk(r, s.leaderLogs, s.choices) && Shape(SentLog(s, r)) && Backed(SentLog(s, r), s.leaderLogs)
    ensures Last(SentLog(s, r)).term <= r.term && r.term in s.elections
  {
    hide LeadersOk, NodesOk, BidsOk, RequestsOk, VotesOk, AcksOk, PromisesOk, ElectionsOk, ChoicesOk, AppliedOk, Settled, Shape, Backed;
    var t := r.term;
    assert AppendOk(r, s.leaderLogs, s.choices);
    SameKeys(s, t);
    LeaderTerm(s, t);
    ShapePrefix(s.leaderLogs[t], r.prevIndex + 1 + |r.entries|);
    BackedPrefix(s.leaderLogs[t], r.prevIndex + 1 + |r.entries|, s.leaderLogs);
    LeaderLast(s, t, |SentLog(s, r)| - 1);
  }

  lemma SameKeys(s: State, t: nat)
    requires LeadersOk(s.elections, s.leaderLogs, s.votes, |s.nodes|)
    ensures t in s.elections <==> t in s.leaderLogs
  {
    hide LeaderOk;
  }

  lemma BackedPrefix(log: Log, n: nat, leaderLogs: map<nat, Log>)
    requires Backed(log, leaderLogs) && n <= |log|
    ensures Backed(log[..n], leaderLogs)
  {
    forall k | 0 < k < n
      ensures var t := log[..n][k].term; t in leaderLogs && k < |leaderLogs[t]| && leaderLogs[t][..k + 1] == log[..n][..k + 1]
    {
      assert log[..n][..k + 1] == log[..k + 1];
    }
  }

  lemma LeaderLast(s: State, t: nat, k: nat)
    requires t in s.leaderLogs && t in s.elections && LeaderOk(t, s.elections[t], s.leaderLogs, s.votes, |s.nodes|) && k < |s.leaderLogs[t]|
    ensures s.leaderLogs[t][k].term <= t
  {
    var e := s.elections[t];
    if k < |e.log| {
      assert s.leaderLogs[t][k] == e.log[k] && e.log[k].term <= Last(e.log).term;
    }
  }

  // The follower ends with its own log or exactly what was sent, and has all that
  // was sent either way.
  lemma TakesOrKeeps(s: State, i: nat, r: AppendRequest)
    requires StateOk(s) && Fitting(s, i, r)
    ensures AppendOk(r, s.leaderLogs, s.choices)
    ensures var log := s.nodes[i].log; var sent := SentLog(s, r);
      && Splice(log, r.prevIndex + 1, r.entries) == (if sent <= log then log else sent)
      && sent <= Splice(log, r.prevIndex + 1, r.entries)
  {
    hide LeadersOk, NodesOk, BidsOk, RequestsOk, VotesOk, AppendsOk, AcksOk, PromisesOk, ElectionsOk, ChoicesOk, AppliedOk, Settled, Shape, Backed, Splice;
    GetNode(s, i);
    GetAppend(s, r);
    var log, sent := s.nodes[i].log, SentLog(s, r);
    BackedMatch(log, sent, s.leaderLogs);
    assert sent[r.prevIndex].term == r.prevTerm;
    assert log[..r.prevIndex + 1] == sent[..r.prevIndex + 1];
    assert sent[r.prevIndex + 1..] == r.entries;
    SpliceKeepsOrTakes(log, sent, r.prevIndex + 1);
  }

  // A log that was overwritten loses nothing that the new leader's log starts with.
  lemma OverwriteKeeps(p: Log, log: Log, sent: Log, whole: Log)
    requires p <= log && p <= whole && sent <= whole && !(sent <= log)
    ensures p <= sent
  {
    if |sent| < |p| {
      PrefixesOfOne(sent, p, whole);
      PrefixOfPrefix(sent, p, log);
      assert false;
    }
    PrefixesOfOne(p, sent, whole);
  }

  // What a node applied survives an overwrite: it is settled, so the new leader
  // has it.
  lemma AppliedSurvives(s: State, i: nat, r: AppendRequest)
    requires StateOk(s) && Fitting(s, i, r)
    ensures var n := s.nodes[i]; var log := Splice(n.log, r.prevIndex + 1, r.entries);
      && |n.machine| < |n.log| && |n.machine| < |log| && log[..|n.machine| + 1] == n.log[..|n.machine| + 1]
  {
    hide LeadersOk, NodesOk, BidsOk, RequestsOk, VotesOk, AppendsOk, AcksOk, PromisesOk, ElectionsOk, ChoicesOk, AppliedOk, Shape, Backed, Splice;
    GetNode(s, i);
    GetAppend(s, r);
    TakesOrKeeps(s, i, r);
    var n := s.nodes[i];
    var k, sent, whole := |n.machine|, SentLog(s, r), s.leaderLogs[r.term];
    var p := n.log[..k + 1];
    if !(sent <= n.log) {
      if k == 0 {
        SentinelFirst(n.log, sent);
      } else {
        var c :| c in s.choices && SettledBy(c, n.log, k, n.term, s.leaderLogs);
        ChosenInLeader(s, c, r.term);
        PrefixTake(Upto(s.leaderLogs, c.term, c.index), whole, k + 1);
        assert p == s.leaderLogs[c.term][..k + 1] == Upto(s.leaderLogs, c.term, c.index)[..k + 1];
        OverwriteKeeps(p, n.log, sent, whole);
        PrefixTake(p, sent, k + 1);
      }
    }
  }

  lemma SentinelFirst(x: Log, y: Log)
    requires Shape(x) && Shape(y)
    ensures x[..1] == y[..1]
  {
  }

  function Taken(s: State, i: nat, r: AppendRequest): Node
    requires i < |s.nodes| && r.prevIndex < |s.nodes[i].log|
  {
    s.nodes[i].(log := Splice(s.nodes[i].log, r.prevIndex + 1, r.entries))
  }

  lemma TakeNode(s: State, i: nat, r: AppendRequest)
    requires StateOk(s) && Fitting(s, i, r)
    ensures NodeOk(i, Taken(s, i, r), s.elections, s.leaderLogs, s.bids, s.votes, s.choices)
  {
    hide LeadersOk, NodesOk, BidsOk, RequestsOk, VotesOk, AppendsOk, AcksOk, PromisesOk, ElectionsOk, ChoicesOk, AppliedOk, Settled, Shape, Backed, Splice;
    GetNode(s, i);
    GetAppend(s, r);
    TakesOrKeeps(s, i, r);
    AppliedSurvives(s, i, r);
    var n, m := s.nodes[i], Taken(s, i, r);
    var k := |n.machine|;
    assert m.log[1..k + 1] == m.log[..k + 1][1..] == n.log[..k + 1][1..] == n.log[1..k + 1];
    SettledPart(n.log, k, m.log, k, n.term, s.leaderLogs, s.choices);
  }

  // What the node acknowledged before it still has, or the leader it now follows
  // was elected without it.
  lemma TakeAck(s: State, i: nat, r: AppendRequest, a: Ack)
    requires StateOk(s) && Fitting(s, i, r) && a in s.acks
    ensures AckOk(a, s.nodes[i := Taken(s, i, r)], s.elections, s.leaderLogs)
  {
    hide LeadersOk, NodesOk, BidsOk, RequestsOk, VotesOk, AppendsOk, PromisesOk, ElectionsOk, ChoicesOk, AppliedOk, Settled, Shape, Backed, Splice;
    assert AckOk(a, s.nodes, s.elections, s.leaderLogs);
    GetAppend(s, r);
    TakesOrKeeps(s, i, r);
    LeaderTerm(s, r.term);
    var log, sent, whole := s.nodes[i].log, SentLog(s, r), s.leaderLogs[r.term];
    var p, e := Upto(s.leaderLogs, a.term, a.index), s.elections[r.term];
    if a.node == i && p <= log && !(sent <= log) && (a.term == r.term || p <= e.log) {
      if a.term < r.term {
        PrefixOfPrefix(p, e.log, whole);
      }
      OverwriteKeeps(p, log, sent, whole);
    }
  }

  lemma CoveredAck(s: State, i: nat, r: AppendRequest, a: Ack)
    requires StateOk(s) && Fitting(s, i, r) && a in Covered(i, r)
    ensures a.node == i && a.term == s.nodes[i].term && AckOk(a, s.nodes[i := Taken(s, i, r)], s.elections, s.leaderLogs)
  {
    hide LeadersOk, NodesOk, BidsOk, RequestsOk, VotesOk, AppendsOk, AcksOk, PromisesOk, ElectionsOk, ChoicesOk, AppliedOk, Settled, Shape, Backed, Splice, Superseded;
    GetAppend(s, r);
    TakesOrKeeps(s, i, r);
    var sent, whole := SentLog(s, r), s.leaderLogs[r.term];
    var p := Upto(s.leaderLogs, r.term, a.index);
    PrefixesOfOne(p, sent, whole);
    PrefixOfPrefix(p, sent, Taken(s, i, r).log);
  }

  lemma TakeStep(s: State, i: nat, r: AppendRequest)
    requires StateOk(s) && Fitting(s, i, r)
    ensures StateOk(s.(nodes := s.nodes[i := Taken(s, i, r)], acks := s.acks + Covered(i, r)))
  {
    hide LeadersOk, NodesOk, BidsOk, RequestsOk, VotesOk, AppendsOk, PromisesOk, ElectionsOk, ChoicesOk, AppliedOk, Settled, Shape, Backed, Splice, AckOk, NodeOk, Covered, Taken, Fitting;
    assert i < |s.nodes| by { Fits(s, i, r); }
    Fits(s, i, r);
    var m := Taken(s, i, r);
    var nodes, acks := s.nodes[i := m], s.acks + Covered(i, r);
    TakeNode(s, i, r);
    NodesChange(s, i, m, s.bids, s.votes, s.choices);
    VotesKept(s, i, m);
    forall a | a in acks ensures AckOk(a, nodes, s.elections, s.leaderLogs) {
      if a in s.acks {
        TakeAck(s, i, r, a);
      } else {
        CoveredAck(s, i, r, a);
      }
    }
    forall a | a in Covered(i, r) ensures a.node == i && a.term == s.nodes[i].term {
      CoveredAck(s, i, r, a);
    }
    NewAcksPromise(s, Covered(i, r), i);
    assert Grows(s.leaderLogs, s.leaderLogs);
    ChoicesGrow(s, acks, s.leaderLogs);
  }

  lemma Fits(s: State, i: nat, r: AppendRequest)
    requires Fitting(s, i, r)
    ensures i < |s.nodes| && r.prevIndex < |s.nodes[i].log|
    ensures Taken(s, i, r) == s.nodes[i].(log := Taken(s, i, r).log)
  {
    hide Splice;
  }

  // The leader's commit index, learned by a follower that has all that was sent.
  lemma LearnCommit(s: State, i: nat, r: AppendRequest)
    requires StateOk(s) && i < |s.nodes| && r in s.appends && s.nodes[i].log != [] && s.nodes[i].term == r.term
    requires AppendOk(r, s.leaderLogs, s.choices) && SentLog(s, r) <= s.nodes[i].log && s.nodes[i].role.Follower?
    ensures var m := Committed(s.nodes[i], r.commit);
      StateOk(s.(nodes := s.nodes[i := m], applied := s.applied + NewlyApplied(s.nodes[i], m)))
    ensures r.commit < |s.nodes[i].log| && |Committed(s.nodes[i], r.commit).machine| >= |s.nodes[i].machine|
  {
    hide LeadersOk, NodesOk, BidsOk, RequestsOk, VotesOk, AppendsOk, AcksOk, PromisesOk, ElectionsOk, ChoicesOk, AppliedOk, Settled, Shape, Backed, ApplyCommitted;
    GetNode(s, i);
    var n := s.nodes[i];
    var sent, whole := SentLog(s, r), s.leaderLogs[r.term];
    assert |sent| <= |n.log|;
    if r.commit > n.commitIndex {
      var m := Committed(n, r.commit);
      ApplyInStep(n.(commitIndex := r.commit));
      PrefixTake(sent, n.log, r.commit + 1);
      PrefixTake(sent, whole, r.commit + 1);
      SettledPart(whole, r.commit, n.log, r.commit, r.term, s.leaderLogs, s.choices);
      AppliedByNode(s, n, m, n.term, s.choices);
      QuietStep(s, i, m, s.choices, s.applied + NewlyApplied(n, m));
    } else {
      assert NewlyApplied(n, n) == {};
      assert s.nodes[i := n] == s.nodes && s.applied + {} == s.applied;
    }
  }

  /******* A follower handles a request *******/

  // The node once it follows the request's leader.
  function Turned(n: Node, r: AppendRequest): Node {
    var m := if r.term > n.term || !n.role.Follower? then BecomeFollower(n, r.term, Some(r.leader)) else n;
    m.(leader := Some(r.leader))
  }

  lemma TurnStep(s: State, i: nat, r: AppendRequest)
    requires StateOk(s) && i < |s.nodes| && r.term >= s.nodes[i].term
    ensures StateOk(s.(nodes := s.nodes[i := Turned(s.nodes[i], r)]))
  {
    hide LeadersOk, NodesOk, BidsOk, RequestsOk, VotesOk, AppendsOk, AcksOk, PromisesOk, ElectionsOk, ChoicesOk, AppliedOk, Settled, Shape, Backed;
    GetNode(s, i);
    var n, m := s.nodes[i], Turned(s.nodes[i], r);
    assert Grows(s.leaderLogs, s.leaderLogs);
    SettledGrows(m.log, |m.machine|, n.term, m.term, s.leaderLogs, s.leaderLogs, s.choices, s.choices);
    QuietStep(s, i, m, s.choices, s.applied);
  }

  lemma AnswerParts(n: Node, r: AppendRequest)
    requires n.log != [] && r.term >= n.term
    ensures var f := Turned(n, r);
      && f.log == n.log && f.term == r.term && f.role.Follower? && f.machine == n.machine
      && AnswerAppend(n, r).1.success == (r.prevIndex < |f.log| && f.log[r.prevIndex].term == r.prevTerm)
      && AnswerAppend(n, r).0 ==
         if AnswerAppend(n, r).1.success then Committed(f.(log := Splice(f.log, r.prevIndex + 1, r.entries)), r.commit) else f
  {
    hide Splice, Committed, FirstOfTerm;
  }

  lemma DeliverAppendStep(s: State, i: nat, r: AppendRequest)
    requires StateOk(s) && Enabled(s, DeliverAppend(i, r))
    ensures StateOk(Step(s, DeliverAppend(i, r)))
  {
    hide StateOk, Splice, Committed, Covered, Turned, SentLog, AppendOk, FirstOfTerm;
    var n := s.nodes[i];
    var (m, reply) := AnswerAppend(n, r);
    if r.term < n.term {
      assert NewlyApplied(n, n) == {};
      assert s.nodes[i := n] == s.nodes && s.applied + {} == s.applied;
    } else {
      AnswerParts(n, r);
      TurnStep(s, i, r);
      var f := Turned(n, r);
      var s0 := s.(nodes := s.nodes[i := f]);
      if reply.success {
        TakeStep(s0, i, r);
        TakesOrKeeps(s0, i, r);
        var g := Taken(s0, i, r);
        var s1 := s0.(nodes := s0.nodes[i := g], acks := s0.acks + Covered(i, r));
        SameSent(s0, s1, r);
        LearnCommit(s1, i, r);
        assert s1.nodes[i := m] == s.nodes[i := m];
        assert NewlyApplied(g, m) == NewlyApplied(n, m);
      } else {
        assert NewlyApplied(n, m) == {};
        assert s.applied + {} == s.applied;
      }
    }
  }

  lemma SameSent(s: State, t: State, r: AppendRequest)
    requires AppendOk(r, s.leaderLogs, s.choices) && t.leaderLogs == s.leaderLogs && t.choices == s.choices
    ensures AppendOk(r, t.leaderLogs, t.choices) && SentLog(t, r) == SentLog(s, r)
  {
  }
}
