// Every step of a cluster keeps what RaftInvariant says.
module RaftSteps {
  import opened Results
  import opened RaftLog
  import opened RaftNode
  import opened Cluster
  import opened RaftInvariant

  /******* What growth keeps *******/

  ghost predicate Grows(x: map<nat, Log>, y: map<nat, Log>) {
    forall t :: t in x ==> t in y && x[t] <= y[t]
  }

  ghost predicate Extends(x: map<Bid, Log>, y: map<Bid, Log>) {
    forall b :: b in x ==> b in y && y[b] == x[b]
  }

  lemma PrefixTake(x: Log, y: Log, n: nat)
    requires x <= y && n <= |x|
    ensures x[..n] == y[..n]
  {
  }

  lemma BackedGrows(log: Log, x: map<nat, Log>, y: map<nat, Log>)
    requires Backed(log, x) && Grows(x, y)
    ensures Backed(log, y)
  {
    forall k | 0 < k < |log|
      ensures var t := log[k].term; t in y && k < |y[t]| && y[t][..k + 1] == log[..k + 1]
    {
      PrefixTake(x[log[k].term], y[log[k].term], k + 1);
    }
  }

  lemma SettledGrows(log: Log, k: nat, top: nat, top': nat, x: map<nat, Log>, y: map<nat, Log>, old': set<Choice>, choices: set<Choice>)
    requires Settled(log, k, top, x, old') && Grows(x, y) && top <= top' && old' <= choices
    ensures Settled(log, k, top', y, choices)
  {
    if k > 0 {
      var c :| c in old' && SettledBy(c, log, k, top, x);
      PrefixTake(x[c.term], y[c.term], k + 1);
      assert SettledBy(c, log, k, top', y);
    }
  }

  // A shorter part of the log, or of one that starts the same, is settled too.
  lemma SettledPart(log: Log, k: nat, other: Log, j: nat, top: nat, leaderLogs: map<nat, Log>, choices: set<Choice>)
    requires Settled(log, k, top, leaderLogs, choices) && j <= k < |log| && j < |other| && other[..j + 1] == log[..j + 1]
    ensures Settled(other, j, top, leaderLogs, choices)
  {
    if j > 0 {
      var c :| c in choices && SettledBy(c, log, k, top, leaderLogs);
      CutTake(leaderLogs[c.term], log, k + 1, j + 1);
      assert SettledBy(c, other, j, top, leaderLogs);
    }
  }

  lemma CutTake(x: Log, y: Log, n: nat, m: nat)
    requires m <= n <= |x| && n <= |y| && x[..n] == y[..n]
    ensures x[..m] == y[..m]
  {
    assert x[..m] == x[..n][..m];
    assert y[..m] == y[..n][..m];
  }

  lemma NodeOkGrows(i: nat, m: Node, elections: map<nat, Election>, leaderLogs: map<nat, Log>,
                    bids: map<Bid, Log>, bids': map<Bid, Log>, votes: set<Vote>, votes': set<Vote>, choices: set<Choice>, choices': set<Choice>)
    requires NodeOk(i, m, elections, leaderLogs, bids, votes, choices)
    requires Extends(bids, bids') && votes <= votes' && choices <= choices'
    ensures NodeOk(i, m, elections, leaderLogs, bids', votes', choices')
  {
    hide Shape, Backed, Settled;
    assert Grows(leaderLogs, leaderLogs);
    SettledGrows(m.log, |m.machine|, m.term, m.term, leaderLogs, leaderLogs, choices, choices');
  }

  lemma NodesChange(s: State, i: nat, m: Node, bids: map<Bid, Log>, votes: set<Vote>, choices: set<Choice>)
    requires NodesOk(s.nodes, s.elections, s.leaderLogs, s.bids, s.votes, s.choices) && i < |s.nodes|
    requires Extends(s.bids, bids) && s.votes <= votes && s.choices <= choices
    requires NodeOk(i, m, s.elections, s.leaderLogs, bids, votes, choices)
    ensures NodesOk(s.nodes[i := m], s.elections, s.leaderLogs, bids, votes, choices)
  {
    hide NodeOk;
    var nodes := s.nodes[i := m];
    forall j | 0 <= j < |nodes| ensures NodeOk(j, nodes[j], s.elections, s.leaderLogs, bids, votes, choices) {
      if j != i {
        NodeOkGrows(j, s.nodes[j], s.elections, s.leaderLogs, s.bids, bids, s.votes, votes, s.choices, choices);
      }
    }
  }

  lemma GetNode(s: State, i: nat)
    requires StateOk(s) && i < |s.nodes|
    ensures NodeOk(i, s.nodes[i], s.elections, s.leaderLogs, s.bids, s.votes, s.choices)
  {
    hide NodeOk;
  }

  lemma LeadersVotes(s: State, votes: set<Vote>)
    requires LeadersOk(s.elections, s.leaderLogs, s.votes, |s.nodes|) && s.votes <= votes
    ensures LeadersOk(s.elections, s.leaderLogs, votes, |s.nodes|)
  {
    hide Shape, Backed;
  }

  // The node's votes are as it remembers them.
  lemma VotesKept(s: State, i: nat, m: Node)
    requires VotesOk(s.votes, s.nodes, s.bids) && i < |s.nodes|
    requires m.term >= s.nodes[i].term && (m.term == s.nodes[i].term ==> m.votedFor == s.nodes[i].votedFor)
    ensures VotesOk(s.votes, s.nodes[i := m], s.bids)
  {
  }

  lemma AcksKept(s: State, i: nat, m: Node)
    requires AcksOk(s.acks, s.nodes, s.elections, s.leaderLogs) && i < |s.nodes|
    requires m.term >= s.nodes[i].term && s.nodes[i].log <= m.log
    ensures AcksOk(s.acks, s.nodes[i := m], s.elections, s.leaderLogs)
  {
    var nodes := s.nodes[i := m];
    forall a | a in s.acks ensures AckOk(a, nodes, s.elections, s.leaderLogs) {
      assert AckOk(a, s.nodes, s.elections, s.leaderLogs);
    }
  }

  lemma AppliedKept(applied: set<(nat, Command)>, choices: set<Choice>, choices': set<Choice>, leaderLogs: map<nat, Log>)
    requires AppliedOk(applied, choices, leaderLogs) && choices <= choices'
    ensures AppliedOk(applied, choices', leaderLogs)
  {
    hide AppliedBy;
  }

  // What a node applies is settled.
  lemma AppliedByNode(s: State, n: Node, m: Node, top: nat, choices: set<Choice>)
    requires AppliedOk(s.applied, s.choices, s.leaderLogs) && s.choices <= choices
    requires |m.machine| < |m.log| && m.machine == Commands(m.log[1..|m.machine| + 1])
    requires Settled(m.log, |m.machine|, top, s.leaderLogs, choices)
    ensures AppliedOk(s.applied + NewlyApplied(n, m), choices, s.leaderLogs)
  {
    AppliedKept(s.applied, s.choices, choices, s.leaderLogs);
    forall p | p in NewlyApplied(n, m) ensures exists c :: c in choices && AppliedBy(p, c, s.leaderLogs) {
      var c :| c in choices && SettledBy(c, m.log, |m.machine|, top, s.leaderLogs);
      assert s.leaderLogs[c.term][..|m.machine| + 1][p.0] == m.log[..|m.machine| + 1][p.0];
      assert AppliedBy(p, c, s.leaderLogs);
    }
  }

  /******* Steps that leave the log alone *******/

  lemma QuietStep(s: State, i: nat, m: Node, choices: set<Choice>, applied: set<(nat, Command)>)
    requires StateOk(s) && i < |s.nodes| && m.log == s.nodes[i].log && m.term >= s.nodes[i].term
    requires m.term == s.nodes[i].term ==> m.votedFor == s.nodes[i].votedFor
    requires s.choices <= choices && ChoicesOk(choices, s.acks, s.leaderLogs, |s.nodes|)
    requires AppliedOk(applied, choices, s.leaderLogs)
    requires NodeOk(i, m, s.elections, s.leaderLogs, s.bids, s.votes, choices)
    ensures StateOk(s.(nodes := s.nodes[i := m], choices := choices, applied := applied))
  {
    hide NodeOk, LeadersOk, NodesOk, BidsOk, RequestsOk, VotesOk, AppendsOk, AcksOk, PromisesOk, ElectionsOk, ChoicesOk, AppliedOk;
    NodesChange(s, i, m, s.bids, s.votes, choices);
    VotesKept(s, i, m);
    AcksKept(s, i, m);
    AppendsMore(s, choices);
  }

  lemma AppendsMore(s: State, choices: set<Choice>)
    requires AppendsOk(s.appends, s.leaderLogs, s.choices) && s.choices <= choices
    ensures AppendsOk(s.appends, s.leaderLogs, choices)
  {
    hide Settled;
    forall r | r in s.appends ensures AppendOk(r, s.leaderLogs, choices) {
      assert Grows(s.leaderLogs, s.leaderLogs);
      SettledGrows(s.leaderLogs[r.term], r.commit, r.term, r.term, s.leaderLogs, s.leaderLogs, s.choices, choices);
    }
  }

  lemma ObserveTermStep(s: State, i: nat, term: nat)
    requires StateOk(s) && Enabled(s, ObserveTerm(i, term))
    ensures StateOk(Step(s, ObserveTerm(i, term)))
  {
    hide LeadersOk, NodesOk, BidsOk, RequestsOk, VotesOk, AppendsOk, AcksOk, PromisesOk, ElectionsOk, ChoicesOk, AppliedOk, Settled, Shape, Backed;
    GetNode(s, i);
    var m := BecomeFollower(s.nodes[i], term, None);
    assert Grows(s.leaderLogs, s.leaderLogs);
    SettledGrows(m.log, |m.machine|, s.nodes[i].term, term, s.leaderLogs, s.leaderLogs, s.choices, s.choices);
    QuietStep(s, i, m, s.choices, s.applied);
  }

  lemma CommandsPrefix(log: Log, k: nat)
    requires k < |log|
    ensures |Commands(log[1..k + 1])| == k
  {
  }

  lemma RestartStep(s: State, i: nat, commit: nat)
    requires StateOk(s) && Enabled(s, Restart(i, commit))
    ensures StateOk(Step(s, Restart(i, commit)))
  {
    hide LeadersOk, NodesOk, BidsOk, RequestsOk, VotesOk, AppendsOk, AcksOk, PromisesOk, ElectionsOk, ChoicesOk, AppliedOk, Settled, Shape, Backed;
    GetNode(s, i);
    var n, m := s.nodes[i], Restarted(s.nodes[i], commit);
    CommandsPrefix(n.log, commit);
    SettledPart(n.log, |n.machine|, n.log, commit, n.term, s.leaderLogs, s.choices);
    AppliedByNode(s, m.(machine := []), m, n.term, s.choices);
    QuietStep(s, i, m, s.choices, s.applied + NewlyApplied(m.(machine := []), m));
  }

  // Applying committed entries keeps the machine in step with the log.
  lemma ApplyInStep(n: Node)
    requires n.commitIndex < |n.log| && |n.machine| < |n.log| && n.machine == Commands(n.log[1..|n.machine| + 1])
    ensures var m := ApplyCommitted(n);
      && |m.machine| == (if |n.machine| < n.commitIndex then n.commitIndex else |n.machine|)
      && m.machine == Commands(m.log[1..|m.machine| + 1])
      && m == n.(machine := m.machine)
  {
    if |n.machine| < n.commitIndex {
      assert n.log[1..n.commitIndex + 1] == n.log[1..|n.machine| + 1] + n.log[|n.machine| + 1..n.commitIndex + 1];
    }
  }

  lemma ConcludeStep(s: State, i: nat, index: nat, quorum: set<nat>)
    requires StateOk(s) && Enabled(s, Conclude(i, index, quorum))
    ensures StateOk(Step(s, Conclude(i, index, quorum)))
  {
    hide LeadersOk, NodesOk, BidsOk, RequestsOk, VotesOk, AppendsOk, AcksOk, PromisesOk, ElectionsOk, AppliedOk, Settled, Shape, Backed, ApplyCommitted;
    GetNode(s, i);
    var n := s.nodes[i];
    var c := Choice(n.term, index, quorum);
    var choices := s.choices + {c};
    ApplyInStep(n.(commitIndex := index));
    var m := ApplyCommitted(n.(commitIndex := index));
    assert ChoiceOk(c, s.acks, s.leaderLogs, |s.nodes|);
    ConcludeSettled(s, n, c, |m.machine|);
    AppliedByNode(s, n, m, n.term, choices);
    QuietStep(s, i, m, choices, s.applied + NewlyApplied(n, m));
  }

  lemma ConcludeSettled(s: State, n: Node, c: Choice, k: nat)
    requires n.term in s.leaderLogs && s.leaderLogs[n.term] == n.log && c.term == n.term && c.index < |n.log|
    requires Settled(n.log, |n.machine|, n.term, s.leaderLogs, s.choices)
    requires k == if |n.machine| < c.index then c.index else |n.machine|
    ensures Settled(n.log, k, n.term, s.leaderLogs, s.choices + {c})
  {
    if |n.machine| < c.index {
      assert SettledBy(c, n.log, k, n.term, s.leaderLogs);
    } else {
      assert Grows(s.leaderLogs, s.leaderLogs);
      SettledGrows(n.log, k, n.term, n.term, s.leaderLogs, s.leaderLogs, s.choices, s.choices + {c});
    }
  }
}
