// A cluster can always go on: any node that is up to date with a quorum can win its
// votes, and what a leader proposes can be applied by all of its quorum.
module RaftProgress {
  import opened RaftLog
  import opened RaftNode
  import opened Cluster
  import opened RaftInvariant
  import RaftSafety

  lemma {:induction false} RunsConcat(s: State, x: seq<Event>, y: seq<Event>)
    requires CanRun(s, x) && CanRun(After(s, x), y)
    ensures CanRun(s, x + y) && After(s, x + y) == After(After(s, x), y)
    decreases |x|
  {
    hide Enabled, Step;
    if x == [] {
      assert x + y == y;
    } else {
      assert (x + y)[1..] == x[1..] + y;
      RunsConcat(Step(s, x[0]), x[1..], y);
    }
  }

  lemma OneEvent(s: State, e: Event)
    requires StateOk(s) && Enabled(s, e)
    ensures CanRun(s, [e]) && After(s, [e]) == Step(s, e) && StateOk(Step(s, e))
  {
    hide StateOk, Enabled, Step;
    assert [e][1..] == [];
    RaftSafety.StepKeeps(s, e);
    assert CanRun(Step(s, e), []) && After(Step(s, e), []) == Step(s, e);
  }

  lemma NodeFacts(s: State, i: nat)
    requires StateOk(s) && i < |s.nodes|
    ensures var m := s.nodes[i];
      && Shape(m.log) && m.commitIndex <= |m.machine| < |m.log| && m.machine == Commands(m.log[1..|m.machine| + 1])
      && (m.role.Leader? ==> m.term > 0)
    ensures forall k :: 0 <= k < |s.nodes| ==> s.nodes[k].log != []
  {
    hide Backed, Settled, LeaderOk, BidsOk, RequestsOk, VotesOk, AppendsOk, AcksOk, PromisesOk, ElectionsOk, ChoicesOk, AppliedOk;
    assert NodeOk(i, s.nodes[i], s.elections, s.leaderLogs, s.bids, s.votes, s.choices);
    forall k | 0 <= k < |s.nodes| ensures s.nodes[k].log != [] {
      assert NodeOk(k, s.nodes[k], s.elections, s.leaderLogs, s.bids, s.votes, s.choices);
    }
    if s.nodes[i].role.Leader? {
      TermsPositive(s, s.nodes[i].term);
    }
  }

  lemma TermsPositive(s: State, t: nat)
    requires LeadersOk(s.elections, s.leaderLogs, s.votes, |s.nodes|) && t in s.elections
    ensures t > 0
  {
    hide Backed;
    assert LeaderOk(t, s.elections[t], s.leaderLogs, s.votes, |s.nodes|);
  }

  /******* Elections *******/

  // Whether x is at least as up to date as y.
  predicate AtLeast(x: Log, y: Log)
    requires x != [] && y != []
  {
    Last(x).term > Last(y).term || (Last(x).term == Last(y).term && |x| >= |y|)
  }

  // Only nodes in some set changed, and no log.
  ghost predicate OnlyThese(s: State, t: State, these: set<nat>) {
    && |t.nodes| == |s.nodes| && s.votes <= t.votes && s.requests <= t.requests
    && (forall j :: 0 <= j < |s.nodes| ==> t.nodes[j].log == s.nodes[j].log)
    && (forall j :: 0 <= j < |s.nodes| && j !in these ==> t.nodes[j] == s.nodes[j])
  }

  // Node i asks for votes in its term.
  ghost predicate Standing(s: State, i: nat) {
    && i < |s.nodes| && s.nodes[i].log != [] && s.nodes[i].role.Candidate?
    && Ballot(s.nodes[i], i) in s.requests && Vote(i, s.nodes[i].term, i) in s.votes
  }

  // A node that stands again and again gets past any term.
  lemma {:induction false} StandPast(s: State, i: nat, term: nat) returns (more: seq<Event>)
    requires StateOk(s) && i < |s.nodes| && !s.nodes[i].role.Leader?
    ensures CanRun(s, more)
    ensures var t := After(s, more); StateOk(t) && OnlyThese(s, t, {i}) && Standing(t, i) && t.nodes[i].term > term
    decreases if s.nodes[i].term <= term then term + 1 - s.nodes[i].term else 0
  {
    hide StateOk, CanRun, Shape;
    NodeFacts(s, i);
    var e := Timeout(i);
    OneEvent(s, e);
    var t := Step(s, e);
    more := [e];
    if t.nodes[i].term <= term {
      var rest := StandPast(t, i, term);
      RunsConcat(s, more, rest);
      more := more + rest;
    }
  }

  // A voter that is behind in terms and not ahead in its log grants its vote.
  lemma Granted(s: State, i: nat, j: nat)
    requires StateOk(s) && Standing(s, i) && j < |s.nodes| && j != i
    requires s.nodes[j].term < s.nodes[i].term && AtLeast(s.nodes[i].log, s.nodes[j].log)
    ensures Enabled(s, DeliverVote(j, Ballot(s.nodes[i], i)))
    ensures var t := Step(s, DeliverVote(j, Ballot(s.nodes[i], i)));
      && OnlyThese(s, t, {j}) && Standing(t, i) && t.nodes[i] == s.nodes[i]
      && Vote(j, s.nodes[i].term, i) in t.votes && t.nodes[j].term == s.nodes[i].term
  {
    hide StateOk, Shape;
    NodeFacts(s, i);
    NodeFacts(s, j);
    LastIndex(s.nodes[i].log);
    LastIndex(s.nodes[j].log);
  }

  lemma LastIndex(log: Log)
    requires Shape(log)
    ensures log != [] && Last(log).index == |log| - 1
  {
  }

  lemma {:induction false} CollectVotes(s: State, i: nat, todo: set<nat>) returns (more: seq<Event>)
    requires StateOk(s) && Standing(s, i) && i !in todo
    requires forall j :: j in todo ==> j < |s.nodes| && s.nodes[j].log != [] && s.nodes[j].term < s.nodes[i].term && AtLeast(s.nodes[i].log, s.nodes[j].log)
    ensures CanRun(s, more)
    ensures var t := After(s, more);
      && StateOk(t) && OnlyThese(s, t, todo) && Standing(t, i) && t.nodes[i] == s.nodes[i]
      && forall j :: j in todo ==> Vote(j, s.nodes[i].term, i) in t.votes && t.nodes[j].term == s.nodes[i].term
    decreases |todo|
  {
    hide StateOk, CanRun, Step, Enabled;
    if todo == {} {
      more := [];
      NoEvents(s);
    } else {
      var j :| j in todo;
      Granted(s, i, j);
      var e := DeliverVote(j, Ballot(s.nodes[i], i));
      OneEvent(s, e);
      var rest := CollectVotes(Step(s, e), i, todo - {j});
      RunsConcat(s, [e], rest);
      more := [e] + rest;
    }
  }

  lemma NoEvents(s: State)
    ensures CanRun(s, []) && After(s, []) == s
  {
  }

  ghost function MaxTerm(s: State, n: nat): (m: nat)
    requires n <= |s.nodes|
    ensures forall j :: 0 <= j < n ==> s.nodes[j].term <= m
  {
    if n == 0 then 0
    else
      var m := MaxTerm(s, n - 1);
      if s.nodes[n - 1].term > m then s.nodes[n - 1].term else m
  }

  // A leader that stops and starts again is a follower with its log.
  lemma StepDown(s: State, i: nat) returns (more: seq<Event>)
    requires StateOk(s) && i < |s.nodes|
    ensures CanRun(s, more)
    ensures var t := After(s, more); StateOk(t) && OnlyThese(s, t, {i}) && !t.nodes[i].role.Leader?
  {
    hide StateOk, CanRun, Shape;
    NodeFacts(s, i);
    if s.nodes[i].role.Leader? {
      var e := Restart(i, s.nodes[i].commitIndex);
      OneEvent(s, e);
      more := [e];
    } else {
      more := [];
      NoEvents(s);
    }
  }

  // Node i leads, and no node of its quorum is ahead of its term.
  ghost predicate Leads(s: State, i: nat, quorum: set<nat>) {
    && i < |s.nodes| && s.nodes[i].role.Leader? && i in quorum && IsQuorum(quorum, |s.nodes|)
    && forall j :: j in quorum ==> s.nodes[j].term <= s.nodes[i].term
  }

  // From every good state, a node whose log is at least as up to date as every log
  // of a quorum can become leader, with its log as it is.
  lemma CanLead(s: State, i: nat, quorum: set<nat>) returns (more: seq<Event>)
    requires StateOk(s) && i < |s.nodes| && i in quorum && IsQuorum(quorum, |s.nodes|)
    requires forall j :: j in quorum ==> s.nodes[j].log != [] && s.nodes[i].log != [] && AtLeast(s.nodes[i].log, s.nodes[j].log)
    ensures CanRun(s, more)
    ensures var t := After(s, more); StateOk(t) && Leads(t, i, quorum) && forall j :: 0 <= j < |s.nodes| ==> |t.nodes| == |s.nodes| && t.nodes[j].log == s.nodes[j].log
  {
    hide StateOk, CanRun, IsQuorum, Step, Enabled;
    var down := StepDown(s, i);
    var s1 := After(s, down);
    var stand := StandPast(s1, i, MaxTerm(s1, |s1.nodes|));
    var s2 := After(s1, stand);
    assert forall j :: j in quorum ==> j < |s.nodes| by { InQuorum(quorum, |s.nodes|); }
    var votes := CollectVotes(s2, i, quorum - {i});
    var s3 := After(s2, votes);
    Elected(s3, i, quorum);
    var e := Win(i, quorum);
    OneEvent(s3, e);
    RunsConcat(s2, votes, [e]);
    RunsConcat(s1, stand, votes + [e]);
    RunsConcat(s, down, stand + (votes + [e]));
    more := down + (stand + (votes + [e]));
  }

  lemma InQuorum(q: set<nat>, n: nat)
    requires IsQuorum(q, n)
    ensures forall v :: v in q ==> v < n
  {
  }

  lemma Elected(s: State, i: nat, quorum: set<nat>)
    requires StateOk(s) && Standing(s, i) && i in quorum && IsQuorum(quorum, |s.nodes|)
    requires forall j :: j in quorum - {i} ==> j < |s.nodes| && Vote(j, s.nodes[i].term, i) in s.votes && s.nodes[j].term == s.nodes[i].term
    ensures Enabled(s, Win(i, quorum))
    ensures var t := Step(s, Win(i, quorum)); Leads(t, i, quorum) && |t.nodes| == |s.nodes| && forall j :: 0 <= j < |s.nodes| ==> t.nodes[j].log == s.nodes[j].log
  {
    hide StateOk, Shape;
    NodeFacts(s, i);
  }

  /******* Replication *******/

  lemma LogsMatch(s: State, i: nat, j: nat)
    requires StateOk(s) && i < |s.nodes| && j < |s.nodes|
    ensures Matching(s.nodes[i].log, s.nodes[j].log)
  {
    hide Settled, LeaderOk, BidsOk, RequestsOk, VotesOk, AppendsOk, AcksOk, PromisesOk, ElectionsOk, ChoicesOk, AppliedOk, Backed, Shape;
    assert NodeOk(i, s.nodes[i], s.elections, s.leaderLogs, s.bids, s.votes, s.choices);
    assert NodeOk(j, s.nodes[j], s.elections, s.leaderLogs, s.bids, s.votes, s.choices);
    BackedMatch(s.nodes[i].log, s.nodes[j].log, s.leaderLogs);
  }

  // Node j has what leader i has, and has applied what i has committed.
  ghost predicate Holds(s: State, j: nat, i: nat) {
    && j < |s.nodes| && i < |s.nodes|
    && s.nodes[i].log <= s.nodes[j].log && s.nodes[j].term <= s.nodes[i].term && s.nodes[i].commitIndex <= |s.nodes[j].machine|
  }

  ghost predicate Acked(s: State, j: nat, i: nat)
    requires i < |s.nodes|
  {
    forall k :: 0 <= k < |s.nodes[i].log| ==> Ack(j, s.nodes[i].term, k) in s.acks
  }

  // What a leader sends from the start, or from the end to who has it all, is taken.
  lemma Accepted(n: Node, m: Node, i: nat, next: nat)
    requires Shape(n.log) && Shape(m.log) && Matching(m.log, n.log) && m.term <= n.term && m.commitIndex <= |m.machine|
    requires 0 < next <= |n.log| && n.commitIndex < |n.log| && (next == 1 || n.log <= m.log)
    ensures var (a, reply) := AnswerAppend(m, Shipment(n, i, next));
      reply.success && n.log <= a.log && a.term == n.term && n.commitIndex <= |a.machine|
  {
    var r := Shipment(n, i, next);
    assert m.log[..next] == n.log[..next];
    assert r.entries == n.log[next..];
    SpliceKeepsOrTakes(m.log, n.log, next);
    hide Splice, Matching, Shape;
    assert m.log[next - 1] == n.log[next - 1];
  }

  lemma Delivered(s: State, i: nat, j: nat, next: nat)
    requires StateOk(s) && i < |s.nodes| && s.nodes[i].role.Leader? && j < |s.nodes| && j != i && s.nodes[j].term <= s.nodes[i].term
    requires 0 < next <= |s.nodes[i].log| && (next == 1 || s.nodes[i].log <= s.nodes[j].log)
    requires Shipment(s.nodes[i], i, next) in s.appends
    ensures var e := DeliverAppend(j, Shipment(s.nodes[i], i, next));
      && Enabled(s, e)
      && var t := Step(s, e);
         && |t.nodes| == |s.nodes| && t.nodes[i] == s.nodes[i] && s.acks <= t.acks && s.appends <= t.appends
         && (forall k :: 0 <= k < |s.nodes| && k != j ==> t.nodes[k] == s.nodes[k])
         && Holds(t, j, i) && Acked(t, j, i)
  {
    hide StateOk, Shape, AnswerAppend, Matching;
    NodeFacts(s, i);
    NodeFacts(s, j);
    LogsMatch(s, j, i);
    Accepted(s.nodes[i], s.nodes[j], i, next);
    var r := Shipment(s.nodes[i], i, next);
    var t := Step(s, DeliverAppend(j, r));
    assert r.prevIndex + |r.entries| == |s.nodes[i].log| - 1;
    forall k | 0 <= k < |s.nodes[i].log| ensures Ack(j, s.nodes[i].term, k) in t.acks {
      assert Ack(j, r.term, k) in Covered(j, r);
    }
  }

  lemma {:induction false} DeliverAll(s: State, i: nat, next: nat, todo: set<nat>) returns (more: seq<Event>)
    requires StateOk(s) && i < |s.nodes| && s.nodes[i].role.Leader? && i !in todo
    requires forall j :: j in todo ==> j < |s.nodes| && s.nodes[j].term <= s.nodes[i].term && (next == 1 || s.nodes[i].log <= s.nodes[j].log)
    requires 0 < next <= |s.nodes[i].log| && Shipment(s.nodes[i], i, next) in s.appends
    ensures CanRun(s, more)
    ensures var t := After(s, more);
      && StateOk(t) && |t.nodes| == |s.nodes| && t.nodes[i] == s.nodes[i] && s.acks <= t.acks
      && (forall k :: 0 <= k < |s.nodes| && k !in todo ==> t.nodes[k] == s.nodes[k])
      && forall j :: j in todo ==> Holds(t, j, i) && Acked(t, j, i)
    decreases |todo|
  {
    hide StateOk, CanRun, Step, Enabled, Shipment;
    if todo == {} {
      more := [];
      NoEvents(s);
    } else {
      var j :| j in todo;
      Delivered(s, i, j, next);
      var e := DeliverAppend(j, Shipment(s.nodes[i], i, next));
      OneEvent(s, e);
      var rest := DeliverAll(Step(s, e), i, next, todo - {j});
      RunsConcat(s, [e], rest);
      more := [e] + rest;
    }
  }

  /******* A command from proposal to every machine *******/

  lemma Proposed(s: State, i: nat, quorum: set<nat>, c: Command)
    requires StateOk(s) && Leads(s, i, quorum)
    ensures Enabled(s, Propose(i, c))
    ensures var t := Step(s, Propose(i, c)); var n, m := s.nodes[i], t.nodes[i];
      && |t.nodes| == |s.nodes| && Leads(t, i, quorum) && m.log == n.log + [Entry(|n.log|, n.term, c)] && m.term == n.term && Ack(i, n.term, |n.log|) in t.acks
  {
    hide StateOk, Shape, IsQuorum;
    NodeFacts(s, i);
    InQuorum(quorum, |s.nodes|);
  }

  lemma Shipped(s: State, i: nat, quorum: set<nat>, next: nat)
    requires StateOk(s) && Leads(s, i, quorum) && 0 < next <= |s.nodes[i].log|
    ensures Enabled(s, Ship(i, next))
    ensures var t := Step(s, Ship(i, next));
      t.nodes == s.nodes && s.acks <= t.acks && Shipment(s.nodes[i], i, next) in t.appends && Leads(t, i, quorum)
  {
    hide StateOk, Shape, IsQuorum;
    NodeFacts(s, i);
  }

  lemma Concluded(s: State, i: nat, quorum: set<nat>, index: nat)
    requires StateOk(s) && Leads(s, i, quorum) && index < |s.nodes[i].log| && s.nodes[i].log[index].term == s.nodes[i].term
    requires Ack(i, s.nodes[i].term, index) in s.acks && forall j :: j in quorum && j != i ==> Acked(s, j, i)
    ensures Enabled(s, Conclude(i, index, quorum))
    ensures var t := Step(s, Conclude(i, index, quorum));
      && |t.nodes| == |s.nodes| && t.nodes[i].log == s.nodes[i].log && t.nodes[i].term == s.nodes[i].term
      && t.nodes[i].commitIndex == index && index <= |t.nodes[i].machine| && Leads(t, i, quorum)
      && forall k :: 0 <= k < |s.nodes| && k != i ==> t.nodes[k] == s.nodes[k]
  {
    hide StateOk, Shape, IsQuorum;
    NodeFacts(s, i);
    InQuorum(quorum, |s.nodes|);
  }

  // Node j applied command c as number index.
  predicate AppliedAs(s: State, j: nat, index: nat, c: Command) {
    j < |s.nodes| && 0 < index <= |s.nodes[j].machine| && s.nodes[j].machine[index - 1] == c
  }

  lemma HasApplied(s: State, i: nat, j: nat, index: nat)
    requires StateOk(s) && i < |s.nodes| && j < |s.nodes| && 0 < index < |s.nodes[i].log|
    requires s.nodes[i].log <= s.nodes[j].log && index <= |s.nodes[j].machine|
    ensures AppliedAs(s, j, index, s.nodes[i].log[index].command)
  {
    hide StateOk, Shape;
    NodeFacts(s, j);
    assert s.nodes[j].log[1..|s.nodes[j].machine| + 1][index - 1] == s.nodes[j].log[index];
  }

  // t is s after leader i proposed c and its quorum took it.
  ghost predicate Replicated(s: State, t: State, i: nat, quorum: set<nat>, c: Command) {
    && i < |s.nodes| == |t.nodes| && Leads(t, i, quorum) && t.nodes[i].term == s.nodes[i].term
    && t.nodes[i].log == s.nodes[i].log + [Entry(|s.nodes[i].log|, s.nodes[i].term, c)]
    && Ack(i, s.nodes[i].term, |s.nodes[i].log|) in t.acks
    && forall j :: j in quorum && j != i ==> Holds(t, j, i) && Acked(t, j, i)
  }

  lemma Replicate(s: State, i: nat, quorum: set<nat>, c: Command) returns (more: seq<Event>)
    requires StateOk(s) && Leads(s, i, quorum)
    ensures CanRun(s, more)
    ensures StateOk(After(s, more)) && Replicated(s, After(s, more), i, quorum, c)
  {
    hide StateOk, CanRun, Step, Enabled, Shipment, Holds, Acked, IsQuorum;
    Proposed(s, i, quorum, c);
    OneEvent(s, Propose(i, c));
    var s1 := Step(s, Propose(i, c));
    Shipped(s1, i, quorum, 1);
    OneEvent(s1, Ship(i, 1));
    var s2 := Step(s1, Ship(i, 1));
    InQuorum(quorum, |s2.nodes|);
    var rest := DeliverAll(s2, i, 1, quorum - {i});
    StillLeads(s2, After(s2, rest), i, quorum);
    RunsConcat(s1, [Ship(i, 1)], rest);
    RunsConcat(s, [Propose(i, c)], [Ship(i, 1)] + rest);
    more := [Propose(i, c)] + ([Ship(i, 1)] + rest);
  }

  lemma StillLeads(s: State, t: State, i: nat, quorum: set<nat>)
    requires Leads(s, i, quorum) && |t.nodes| == |s.nodes| && t.nodes[i] == s.nodes[i]
    requires forall j :: j in quorum && j != i ==> Holds(t, j, i)
    ensures Leads(t, i, quorum)
  {
    hide IsQuorum;
  }

  // A leader can get any command applied by its whole quorum.
  lemma CanApply(s: State, i: nat, quorum: set<nat>, c: Command) returns (more: seq<Event>)
    requires StateOk(s) && Leads(s, i, quorum)
    ensures CanRun(s, more)
    ensures var t := After(s, more);
      && StateOk(t) && |t.nodes| == |s.nodes| && t.nodes[i].role.Leader?
      && t.nodes[i].log == s.nodes[i].log + [Entry(|s.nodes[i].log|, s.nodes[i].term, c)]
      && forall j :: j in quorum ==> AppliedAs(t, j, |s.nodes[i].log|, c)
  {
    hide StateOk, CanRun, Step, Enabled, Shipment, Acked, IsQuorum, Shape;
    var index := |s.nodes[i].log|;
    NodeFacts(s, i);
    InQuorum(quorum, |s.nodes|);
    var first := Replicate(s, i, quorum, c);
    var s1 := After(s, first);
    Concluded(s1, i, quorum, index);
    var conclude := Conclude(i, index, quorum);
    OneEvent(s1, conclude);
    var s2 := Step(s1, conclude);
    Shipped(s2, i, quorum, index + 1);
    OneEvent(s2, Ship(i, index + 1));
    var s3 := Step(s2, Ship(i, index + 1));
    var rest := DeliverAll(s3, i, index + 1, quorum - {i});
    var t := After(s3, rest);
    RunsConcat(s2, [Ship(i, index + 1)], rest);
    RunsConcat(s1, [conclude], [Ship(i, index + 1)] + rest);
    RunsConcat(s, first, [conclude] + ([Ship(i, index + 1)] + rest));
    more := first + ([conclude] + ([Ship(i, index + 1)] + rest));
    forall j | j in quorum ensures AppliedAs(t, j, index, c) {
      HasApplied(t, i, j, index);
    }
  }

  // From every reachable state, a node whose log is at least as up to date as every
  // log of a quorum can be elected with its log as it is, and then have any command
  // applied by every node of that quorum.
  lemma ClusterGoesOn(s: State, events: seq<Event>, i: nat, quorum: set<nat>, c: Command) returns (elect: seq<Event>, apply: seq<Event>)
    requires Initial(s) && CanRun(s, events)
    requires var t := After(s, events);
      && i in quorum && IsQuorum(quorum, |t.nodes|)
      && forall j :: j in quorum ==> t.nodes[j].log != [] && t.nodes[i].log != [] && AtLeast(t.nodes[i].log, t.nodes[j].log)
    ensures CanRun(After(s, events), elect) && CanRun(After(After(s, events), elect), apply)
    ensures var t := After(s, events); var u := After(t, elect); var v := After(u, apply);
      && i < |t.nodes| == |u.nodes| == |v.nodes| && u.nodes[i].role.Leader? && u.nodes[i].log == t.nodes[i].log
      && forall j :: j in quorum ==> AppliedAs(v, j, |t.nodes[i].log|, c)
  {
    hide StateOk, Initial, CanRun;
    RaftSafety.ReachableOk(s, events);
    var t := After(s, events);
    elect := CanLead(t, i, quorum);
    apply := CanApply(After(t, elect), i, quorum, c);
  }
}
