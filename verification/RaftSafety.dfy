// Whole runs of a cluster: one leader a term, agreeing logs, and nothing that was
// acknowledged or applied ever lost or contradicted.
module RaftSafety {
  import opened Results
  import opened RaftLog
  import opened RaftNode
  import opened Cluster
  import opened RaftInvariant
  import opened RaftSteps
  import opened RaftVotes
  import opened RaftLeaders
  import opened RaftReplication

  lemma InitialOk(s: State)
    requires Initial(s)
    ensures StateOk(s)
  {
    assert FreshNode.log[1..1] == [];
  }

  lemma StepKeeps(s: State, e: Event)
    requires StateOk(s) && Enabled(s, e)
    ensures StateOk(Step(s, e))
  {
    hide StateOk, Enabled, Step;
    match e
    case Timeout(i) => TimeoutStep(s, i);
    case DeliverVote(i, r) => DeliverVoteStep(s, i, r);
    case Win(i, voters) => WinStep(s, i, voters);
    case Propose(i, command) => ProposeStep(s, i, command);
    case Ship(i, next) => ShipStep(s, i, next);
    case DeliverAppend(i, r) => DeliverAppendStep(s, i, r);
    case Conclude(i, index, quorum) => ConcludeStep(s, i, index, quorum);
    case ObserveTerm(i, term) => ObserveTermStep(s, i, term);
    case Restart(i, commit) => RestartStep(s, i, commit);
  }

  lemma {:induction false} RunKeeps(s: State, events: seq<Event>)
    requires StateOk(s) && CanRun(s, events)
    ensures StateOk(After(s, events))
    decreases |events|
  {
    hide StateOk, Enabled, Step;
    if events != [] {
      StepKeeps(s, events[0]);
      RunKeeps(Step(s, events[0]), events[1..]);
    }
  }

  lemma ReachableOk(s: State, events: seq<Event>)
    requires Initial(s) && CanRun(s, events)
    ensures StateOk(After(s, events))
  {
    hide StateOk, Enabled, Step, Initial;
    InitialOk(s);
    RunKeeps(s, events);
  }

  /******* History only grows *******/

  ghost predicate Later(s: State, t: State) {
    && |t.nodes| == |s.nodes| && s.choices <= t.choices && s.applied <= t.applied
    && Grows(s.leaderLogs, t.leaderLogs)
    && forall k :: k in s.elections ==> k in t.elections && t.elections[k] == s.elections[k]
  }

  lemma StepLater(s: State, e: Event)
    requires StateOk(s) && Enabled(s, e)
    ensures Later(s, Step(s, e))
  {
    hide StateOk;
    match e
    case Win(i, voters) => WinGrows(s, i, voters);
    case Propose(i, command) => ProposeGrows(s, i, command);
    case _ =>
  }

  lemma LaterTwice(s: State, t: State, u: State)
    requires Later(s, t) && Later(t, u)
    ensures Later(s, u)
  {
    forall k | k in s.leaderLogs ensures k in u.leaderLogs && s.leaderLogs[k] <= u.leaderLogs[k] {
      PrefixOfPrefix(s.leaderLogs[k], t.leaderLogs[k], u.leaderLogs[k]);
    }
  }

  lemma {:induction false} RunLater(s: State, events: seq<Event>)
    requires StateOk(s) && CanRun(s, events)
    ensures StateOk(After(s, events)) && Later(s, After(s, events))
    decreases |events|
  {
    hide StateOk, Enabled, Step;
    if events != [] {
      StepLater(s, events[0]);
      StepKeeps(s, events[0]);
      RunLater(Step(s, events[0]), events[1..]);
      LaterTwice(s, Step(s, events[0]), After(s, events));
    }
  }

  /******* Elections and logs *******/

  // At most one leader a term, whenever in the run the two are seen.
  lemma ElectionSafety(s: State, events: seq<Event>, more: seq<Event>, i: nat, j: nat)
    requires Initial(s) && CanRun(s, events) && CanRun(After(s, events), more)
    requires i < |After(s, events).nodes| && j < |After(After(s, events), more).nodes|
    requires var m := After(s, events).nodes[i]; var n := After(After(s, events), more).nodes[j];
      m.role.Leader? && n.role.Leader? && m.term == n.term
    ensures i == j
  {
    hide StateOk, Enabled, Step, Initial, Settled, Backed, Shape, CanRun;
    ReachableOk(s, events);
    RunLater(After(s, events), more);
    GetNode(After(s, events), i);
    GetNode(After(After(s, events), more), j);
  }

  // Two logs that hold an entry of the same index and term are the same up to it.
  lemma LogMatching(s: State, events: seq<Event>, i: nat, j: nat)
    requires Initial(s) && CanRun(s, events) && i < |After(s, events).nodes| && j < |After(s, events).nodes|
    ensures Matching(After(s, events).nodes[i].log, After(s, events).nodes[j].log)
  {
    hide StateOk, Enabled, Step, Initial, Settled, Backed, Shape, CanRun, Matching;
    var t := After(s, events);
    ReachableOk(s, events);
    GetNode(t, i);
    GetNode(t, j);
    BackedMatch(t.nodes[i].log, t.nodes[j].log, t.leaderLogs);
  }

  // No request carries a commit index past the entries it vouches for, so taking
  // the smaller of it and the last index never commits an entry that this leader
  // did not send.
  lemma CommitWithinSent(s: State, events: seq<Event>, r: AppendRequest)
    requires Initial(s) && CanRun(s, events) && r in After(s, events).appends
    ensures r.commit <= r.prevIndex + |r.entries|
  {
    hide Enabled, Step, Initial, Settled, Backed, Shape, CanRun;
    ReachableOk(s, events);
    assert AppendOk(r, After(s, events).leaderLogs, After(s, events).choices);
  }

  /******* What was acknowledged *******/

  lemma ConcludedChoice(s: State, i: nat, index: nat, quorum: set<nat>)
    requires StateOk(s) && Enabled(s, Conclude(i, index, quorum))
    ensures var n := s.nodes[i]; var t := Step(s, Conclude(i, index, quorum));
      && Choice(n.term, index, quorum) in t.choices
      && n.term in t.leaderLogs && t.leaderLogs[n.term] == n.log
  {
    hide StateOk, NodesOk, Settled, Backed, Shape;
    GetNode(s, i);
  }

  // Once a proposal is answered, its entry and all before it stay in the log of
  // whoever leads in that term or a later one.
  lemma LeaderCompleteness(s: State, events: seq<Event>, i: nat, index: nat, quorum: set<nat>, more: seq<Event>, j: nat)
    requires Initial(s) && CanRun(s, events) && Enabled(After(s, events), Conclude(i, index, quorum))
    requires CanRun(Step(After(s, events), Conclude(i, index, quorum)), more)
    requires var t := After(Step(After(s, events), Conclude(i, index, quorum)), more);
      j < |t.nodes| && t.nodes[j].role.Leader? && t.nodes[j].term >= After(s, events).nodes[i].term
    ensures var t := After(Step(After(s, events), Conclude(i, index, quorum)), more);
      index < |t.nodes[j].log| && t.nodes[j].log[..index + 1] == After(s, events).nodes[i].log[..index + 1]
  {
    hide StateOk, Step, Initial, Settled, Backed, Shape, CanRun;
    var a := After(s, events);
    var e := Conclude(i, index, quorum);
    var b := Step(a, e);
    var t := After(b, more);
    ReachableOk(s, events);
    StepKeeps(a, e);
    ConcludedChoice(a, i, index, quorum);
    RunLater(b, more);
    GetNode(t, j);
    var c := Choice(a.nodes[i].term, index, quorum);
    ChosenInLeader(t, c, t.nodes[j].term);
    UptoGrows(b.leaderLogs, t.leaderLogs, c.term, index);
    PrefixTake(Upto(t.leaderLogs, c.term, index), t.nodes[j].log, index + 1);
  }

  // Two choices agree where both reach.
  lemma ChoicesAgree(s: State, c: Choice, d: Choice, k: nat)
    requires StateOk(s) && c in s.choices && d in s.choices
    requires c.term in s.leaderLogs && d.term in s.leaderLogs
    requires k <= c.index < |s.leaderLogs[c.term]| && k <= d.index < |s.leaderLogs[d.term]|
    ensures s.leaderLogs[c.term][..k + 1] == s.leaderLogs[d.term][..k + 1]
  {
    hide StateOk;
    var t := if c.term <= d.term then d.term else c.term;
    ChosenInLeader(s, c, t);
    ChosenInLeader(s, d, t);
    var x, y := Upto(s.leaderLogs, c.term, c.index), Upto(s.leaderLogs, d.term, d.index);
    PrefixTake(x, s.leaderLogs[t], k + 1);
    PrefixTake(y, s.leaderLogs[t], k + 1);
    PrefixTake(x, s.leaderLogs[c.term], k + 1);
    PrefixTake(y, s.leaderLogs[d.term], k + 1);
  }

  // No two nodes ever apply different commands at one index, whatever crashes and
  // restarts lie between.
  lemma StateMachineSafety(s: State, events: seq<Event>, k: nat, a: Command, b: Command)
    requires Initial(s) && CanRun(s, events)
    requires (k, a) in After(s, events).applied && (k, b) in After(s, events).applied
    ensures a == b
  {
    hide Enabled, Step, Initial, Settled, Backed, Shape, CanRun, LeadersOk, NodesOk, ChoicesOk;
    var t := After(s, events);
    ReachableOk(s, events);
    var c :| c in t.choices && AppliedBy((k, a), c, t.leaderLogs);
    var d :| d in t.choices && AppliedBy((k, b), d, t.leaderLogs);
    ChoicesAgree(t, c, d, k);
    assert t.leaderLogs[c.term][..k + 1][k] == t.leaderLogs[d.term][..k + 1][k];
  }

  // The command of an answered proposal is what every node applies at its index.
  lemma AnsweredIsApplied(s: State, events: seq<Event>, i: nat, index: nat, quorum: set<nat>, more: seq<Event>, a: Command)
    requires Initial(s) && CanRun(s, events) && Enabled(After(s, events), Conclude(i, index, quorum))
    requires CanRun(Step(After(s, events), Conclude(i, index, quorum)), more)
    requires (index, a) in After(Step(After(s, events), Conclude(i, index, quorum)), more).applied
    ensures a == After(s, events).nodes[i].log[index].command
  {
    hide Step, Initial, Settled, Backed, Shape, CanRun, LeadersOk, NodesOk, ChoicesOk;
    var u := After(s, events);
    var e := Conclude(i, index, quorum);
    var v := Step(u, e);
    var t := After(v, more);
    ReachableOk(s, events);
    StepKeeps(u, e);
    ConcludedChoice(u, i, index, quorum);
    RunLater(v, more);
    var c := Choice(u.nodes[i].term, index, quorum);
    UptoGrows(v.leaderLogs, t.leaderLogs, c.term, index);
    var d :| d in t.choices && AppliedBy((index, a), d, t.leaderLogs);
    ChoicesAgree(t, c, d, index);
    assert t.leaderLogs[c.term][..index + 1][index] == t.leaderLogs[d.term][..index + 1][index];
  }

  // Two machines differ at most in how far they are.
  lemma MachinesAgree(s: State, events: seq<Event>, i: nat, j: nat)
    requires Initial(s) && CanRun(s, events) && i < |After(s, events).nodes| && j < |After(s, events).nodes|
    requires |After(s, events).nodes[i].machine| <= |After(s, events).nodes[j].machine|
    ensures After(s, events).nodes[i].machine <= After(s, events).nodes[j].machine
  {
    hide StateOk, Enabled, Step, Initial, Backed, Shape, CanRun;
    var t := After(s, events);
    ReachableOk(s, events);
    GetNode(t, i);
    GetNode(t, j);
    var m, n := t.nodes[i], t.nodes[j];
    var k := |m.machine|;
    if k > 0 {
      var c :| c in t.choices && SettledBy(c, m.log, k, m.term, t.leaderLogs);
      var d :| d in t.choices && SettledBy(d, n.log, |n.machine|, n.term, t.leaderLogs);
      ChoicesAgree(t, c, d, k);
      CutTake(t.leaderLogs[d.term], n.log, |n.machine| + 1, k + 1);
      assert m.log[..k + 1] == n.log[..k + 1];
      forall x | 0 <= x < k ensures m.machine[x] == n.machine[x] {
        assert m.log[..k + 1][x + 1] == n.log[..k + 1][x + 1];
      }
    }
  }

  // A node that starts again never finds its commit index past its log.
  lemma RestartIsAccepted(s: State, events: seq<Event>, i: nat)
    requires Initial(s) && CanRun(s, events) && i < |After(s, events).nodes|
    ensures var n := After(s, events).nodes[i]; n.commitIndex <= |n.machine| < |n.log|
  {
    hide StateOk, Enabled, Step, Initial, Settled, Backed, Shape, CanRun;
    ReachableOk(s, events);
    GetNode(After(s, events), i);
  }

  /******* The commit index may fall *******/

  // A commit index falls exactly when proposals are answered out of order, or a
  // node restarts from an older one.
  lemma CommitIndexFalls(s: State, events: seq<Event>, e: Event, k: nat)
    requires Initial(s) && CanRun(s, events) && Enabled(After(s, events), e) && k < |After(s, events).nodes|
    ensures var n := After(s, events).nodes[k]; var m := Step(After(s, events), e).nodes[k];
      m.commitIndex < n.commitIndex <==>
        || (e.Conclude? && e.i == k && e.index < n.commitIndex)
        || (e.Restart? && e.i == k && e.commit < n.commitIndex)
  {
    hide StateOk, Initial, Settled, Backed, Shape, CanRun, Splice;
    var t := After(s, events);
    ReachableOk(s, events);
    GetNode(t, k);
    match e
    case DeliverAppend(i, r) => if i == k { CommitKept(t, i, r); }
    case _ =>
  }

  lemma CommitKept(s: State, i: nat, r: AppendRequest)
    requires StateOk(s) && Enabled(s, DeliverAppend(i, r))
    ensures AnswerAppend(s.nodes[i], r).0.commitIndex >= s.nodes[i].commitIndex
  {
    hide StateOk, Splice, SentLog, AppendOk, Settled, Shape, Backed, FirstOfTerm, Turned;
    var n := s.nodes[i];
    if r.term >= n.term {
      AnswerParts(n, r);
      if AnswerAppend(n, r).1.success {
        TurnStep(s, i, r);
        var t := s.(nodes := s.nodes[i := Turned(n, r)]);
        TakesOrKeeps(t, i, r);
        SentLength(t, r);
        TurnedCommit(n, r);
      } else {
        TurnedCommit(n, r);
      }
    }
  }

  lemma TurnedCommit(n: Node, r: AppendRequest)
    ensures Turned(n, r).commitIndex == n.commitIndex
  {
  }

  lemma SentLength(s: State, r: AppendRequest)
    requires AppendOk(r, s.leaderLogs, s.choices)
    ensures r.commit < |SentLog(s, r)|
  {
  }

  lemma RunFirst(s: State, e: Event, rest: seq<Event>)
    requires Enabled(s, e) && CanRun(Step(s, e), rest)
    ensures CanRun(s, [e] + rest) && After(s, [e] + rest) == After(Step(s, e), rest)
  {
    hide Enabled, Step;
    assert ([e] + rest)[1..] == rest;
  }

  lemma LoneWinner(s: State)
    requires Initial(s) && |s.nodes| == 1
    ensures Enabled(s, Timeout(0)) && Enabled(Step(s, Timeout(0)), Win(0, {0}))
    ensures var t := Step(Step(s, Timeout(0)), Win(0, {0}));
      |t.nodes| == 1 && t.nodes[0] == Node(Leader, 1, Some(0), Some(0), [Sentinel], 0, [])
  {
  }

  lemma LoneLeader(s: State, a: Command, b: Command)
    requires |s.nodes| == 1 && s.nodes[0] == Node(Leader, 1, Some(0), Some(0), [Sentinel], 0, [])
    ensures Enabled(s, Propose(0, a)) && Enabled(Step(s, Propose(0, a)), Propose(0, b))
    ensures var t := Step(Step(s, Propose(0, a)), Propose(0, b));
      && |t.nodes| == 1 && t.nodes[0].role.Leader? && t.nodes[0].term == 1 && t.nodes[0].machine == []
      && t.nodes[0].log == [Sentinel, Entry(1, 1, a), Entry(2, 1, b)]
      && Ack(0, 1, 1) in t.acks && Ack(0, 1, 2) in t.acks
  {
  }

  // One node, two proposals, answered in the wrong order.
  lemma CommitIndexCanFall(s: State, a: Command, b: Command) returns (events: seq<Event>, e: Event)
    requires Initial(s) && |s.nodes| == 1
    ensures CanRun(s, events) && Enabled(After(s, events), e)
    ensures !e.Restart? && Step(After(s, events), e).nodes[0].commitIndex < After(s, events).nodes[0].commitIndex
  {
    hide Step, Initial, CanRun, After, Enabled;
    LoneWinner(s);
    var s1 := Step(s, Timeout(0));
    var s2 := Step(s1, Win(0, {0}));
    LoneLeader(s2, a, b);
    var s3 := Step(s2, Propose(0, a));
    var s4 := Step(s3, Propose(0, b));
    e := Conclude(0, 1, {0});
    events := [Conclude(0, 2, {0})];
    LoneConclude(s4);
    RunFirst(s3, Propose(0, b), events);
    events := [Propose(0, b)] + events;
    RunFirst(s2, Propose(0, a), events);
    events := [Propose(0, a)] + events;
    RunFirst(s1, Win(0, {0}), events);
    events := [Win(0, {0})] + events;
    RunFirst(s, Timeout(0), events);
    events := [Timeout(0)] + events;
  }

  lemma LoneConclude(s: State)
    requires |s.nodes| == 1 && s.nodes[0].role.Leader? && s.nodes[0].term == 1 && s.nodes[0].machine == []
    requires |s.nodes[0].log| == 3 && s.nodes[0].log[1].term == 1 && s.nodes[0].log[2].term == 1
    requires Ack(0, 1, 1) in s.acks && Ack(0, 1, 2) in s.acks
    ensures var events := [Conclude(0, 2, {0})]; var e := Conclude(0, 1, {0});
      && CanRun(s, events) && Enabled(After(s, events), e)
      && Step(After(s, events), e).nodes[0].commitIndex < After(s, events).nodes[0].commitIndex
  {
    var t := Step(s, Conclude(0, 2, {0}));
    assert [Conclude(0, 2, {0})][1..] == [];
    assert CanRun(t, []) && After(t, []) == t;
    assert After(s, [Conclude(0, 2, {0})]) == t;
    assert t.nodes[0].commitIndex == 2;
  }
}
