// A consensus node as it runs: an object whose handlers update its fields. Each is
// proved to do what RaftNode says.
module KvNodeCode {
  import opened Results
  import opened RaftLog
  import opened RaftNode

  datatype Value = Value(data: string, expiresAt: int)

  // The store after one command, and after a list of them.
  function Executed(data: map<string, Value>, c: Command): map<string, Value> {
    match c.operation
    case Put => data[c.key := Value(c.value, c.expiresAt)]
    case Delete => data - {c.key}
  }

  function Store(commands: seq<Command>): map<string, Value> {
    if commands == [] then map[]
    else Executed(Store(commands[..|commands| - 1]), commands[|commands| - 1])
  }

  lemma StoreAppend(commands: seq<Command>, c: Command)
    ensures Store(commands + [c]) == Executed(Store(commands), c)
  {
    assert (commands + [c])[..|commands|] == commands;
  }

  lemma ExecutedIs(data: map<string, Value>, c: Command)
    ensures Executed(data, c) == if c.operation.Put? then data[c.key := Value(c.value, c.expiresAt)] else data - {c.key}
  {
  }

  lemma CommandsNext(log: Log, p: nat, k: nat)
    requires p < k < |log|
    ensures Commands(log[p + 1..k + 1]) == Commands(log[p + 1..k]) + [log[k].command]
  {
    assert log[p + 1..k + 1] == log[p + 1..k] + [log[k]];
  }

  class KvNode {
    const id: nat
    var role: Role
    var term: nat
    var votedFor: Option<nat>
    var leaderId: Option<nat>
    var log: Log
    var commitIndex: nat
    var lastApplied: nat
    var data: map<string, Value>
    ghost var machine: seq<Command>

    ghost function View(): Node
      reads this
    {
      Node(role, term, votedFor, leaderId, log, commitIndex, machine)
    }

    ghost predicate Valid()
      reads this
    {
      log != [] && lastApplied == |machine| && data == Store(machine)
    }

    // A node with its stored term, vote and log, before it applies anything.
    constructor (id: nat, term: nat, votedFor: Option<nat>, log: Log)
      requires log != []
      ensures Valid() && this.id == id && View() == Node(Follower, term, votedFor, None, log, 0, [])
    {
      this.id, role, this.term, this.votedFor, leaderId, this.log := id, Follower, term, votedFor, None, log;
      commitIndex, lastApplied, data, machine := 0, 0, map[], [];
    }

    method BecomeFollowerLocked(newTerm: nat, leader: Option<nat>)
      requires Valid()
      modifies this`term, this`votedFor, this`role, this`leaderId
      ensures Valid() && View() == BecomeFollower(old(View()), newTerm, leader)
    {
      if newTerm > term {
        term, votedFor := newTerm, None;
      }
      role, leaderId := Follower, leader;
    }

    method ApplyCommittedLocked()
      requires Valid() && commitIndex < |log|
      modifies this`lastApplied, this`data, this`machine
      ensures Valid() && View() == ApplyCommitted(old(View()))
    {
      hide Executed, Store;
      ghost var before, p := machine, |machine|;
      while lastApplied < commitIndex
        invariant Valid()
        invariant p >= commitIndex ==> machine == before
        invariant p < commitIndex ==> p <= lastApplied <= commitIndex && machine == before + Commands(log[p + 1..lastApplied + 1])
      {
        lastApplied := lastApplied + 1;
        var c := log[lastApplied].command;
        StoreAppend(machine, c);
        ExecutedIs(data, c);
        data := if c.operation.Put? then data[c.key := Value(c.value, c.expiresAt)] else data - {c.key};
        CommandsNext(log, p, lastApplied);
        machine := machine + [c];
      }
    }

    /******* Elections *******/

    // Stands for election. A leader does not.
    method StartElectionLocked() returns (request: Option<VoteRequest>)
      requires Valid()
      modifies this`role, this`term, this`votedFor, this`leaderId
      ensures Valid()
      ensures old(role).Leader? ==> request.None? && View() == old(View())
      ensures !old(role).Leader? ==> View() == StartElection(old(View()), id) && request == Some(Ballot(View(), id))
    {
      if role.Leader? {
        return None;
      }
      role, term, votedFor, leaderId := Candidate, term + 1, Some(id), None;
      var last := log[|log| - 1];
      request := Some(VoteRequest(term, id, last.index, last.term));
    }

    // Counts replies in the order they come, until a majority voted for this node
    // or a higher term shows.
    method CountVotes(request: VoteRequest, replies: seq<VoteResponse>, peers: nat)
      requires Valid()
      modifies this`role, this`term, this`votedFor, this`leaderId
      ensures Valid()
      ensures Wins(replies, old(term), peers) ==>
        View() == if old(role).Candidate? && old(term) == request.term then old(View()).(role := Leader, leader := Some(id)) else old(View())
      ensures !Wins(replies, old(term), peers) && (forall k :: 0 <= k < |replies| ==> replies[k].term <= old(term)) ==> View() == old(View())
      ensures !Wins(replies, old(term), peers) && (exists k :: 0 <= k < |replies| && replies[k].term > old(term)) ==>
        exists k :: 0 <= k < |replies| && FirstAbove(replies, old(term), k) && View() == BecomeFollower(old(View()), replies[k].term, None)
    {
      var granted, needed, k := 1, (peers + 1) / 2 + 1, 0;
      assert replies[..0] == [];
      while granted < needed
        invariant k <= |replies| && granted == 1 + Granted(replies[..k]) && View() == old(View()) && Valid()
        invariant forall j :: 0 <= j < k ==> replies[j].term <= old(term)
        invariant forall j :: 0 <= j < k ==> Granted(replies[..j]) + 1 < needed
        decreases |replies| - k
      {
        if k == |replies| {
          return;
        }
        GrantedNext(replies, k);
        if replies[k].term > term {
          assert FirstAbove(replies, old(term), k);
          BecomeFollowerLocked(replies[k].term, None);
          return;
        }
        if replies[k].granted {
          granted := granted + 1;
        }
        k := k + 1;
      }
      assert Wins(replies, old(term), peers);
      if role.Candidate? && term == request.term {
        role, leaderId := Leader, Some(id);
      }
    }

    method HandleRequestVote(r: VoteRequest) returns (response: VoteResponse)
      requires Valid()
      modifies this`role, this`term, this`votedFor, this`leaderId
      ensures Valid() && (View(), response) == AnswerVote(old(View()), r)
    {
      if r.term < term {
        return VoteResponse(term, false);
      }
      if r.term > term {
        BecomeFollowerLocked(r.term, None);
      }
      var last := log[|log| - 1];
      var upToDate := r.lastTerm > last.term || (r.lastTerm == last.term && r.lastIndex >= last.index);
      if upToDate && (votedFor.None? || votedFor == Some(r.candidate)) {
        votedFor := Some(r.candidate);
        return VoteResponse(term, true);
      }
      response := VoteResponse(term, false);
    }

    /******* Replication *******/

    method HandleAppendEntries(r: AppendRequest) returns (response: AppendResponse)
      requires Valid()
      modifies this
      ensures Valid() && (View(), response) == AnswerAppend(old(View()), r)
    {
      hide Splice, FirstOfTerm, ApplyCommitted, Store;
      if r.term < term {
        return AppendResponse(term, false, |log|);
      }
      if r.term > term || !role.Follower? {
        BecomeFollowerLocked(r.term, Some(r.leader));
      }
      leaderId := Some(r.leader);
      if r.prevIndex >= |log| {
        return AppendResponse(term, false, |log|);
      }
      if log[r.prevIndex].term != r.prevTerm {
        var conflict := FirstWithTerm(r.prevIndex);
        return AppendResponse(term, false, conflict);
      }
      TakeEntries(r.prevIndex, r.entries);
      if r.commit > commitIndex {
        commitIndex := if r.commit <= |log| - 1 then r.commit else |log| - 1;
        ApplyCommittedLocked();
      }
      response := AppendResponse(term, true, 0);
    }

    // Where the run of entries with the term of the one at position starts.
    method FirstWithTerm(position: nat) returns (index: nat)
      requires position < |log|
      ensures index == FirstOfTerm(log, position, log[position].term)
    {
      var conflictTerm := log[position].term;
      index := position;
      while index > 0 && log[index - 1].term == conflictTerm
        invariant index <= position && FirstOfTerm(log, index, conflictTerm) == FirstOfTerm(log, position, conflictTerm)
      {
        index := index - 1;
      }
    }

    method TakeEntries(previous: nat, entries: Log)
      requires Valid() && previous < |log|
      modifies this`log
      ensures Valid() && log == Splice(old(log), previous + 1, entries)
    {
      for offset := 0 to |entries|
        invariant Valid() && previous + 1 + offset <= |log|
        invariant Splice(log, previous + 1 + offset, entries[offset..]) == Splice(old(log), previous + 1, entries)
      {
        assert entries[offset..][0] == entries[offset] && entries[offset..][1..] == entries[offset + 1..];
        var index := previous + 1 + offset;
        ghost var before := log;
        if index < |log| && log[index].term != entries[offset].term {
          log := log[..index];
        }
        if index == |log| {
          log := log + [entries[offset]];
          assert log == before[..index] + [entries[offset]];
        }
      }
      assert entries[|entries|..] == [];
    }

    // Takes a command into the leader's own log. Nothing is promised yet.
    method ProposeLocked(command: Command) returns (index: Option<nat>)
      requires Valid()
      modifies this`log
      ensures Valid()
      ensures old(role).Leader? ==> View() == AppendCommand(old(View()), command) && index == Some(|old(log)|)
      ensures !old(role).Leader? ==> View() == old(View()) && index.None?
    {
      if !role.Leader? {
        return None;
      }
      var entry := Entry(|log|, term, command);
      log := log + [entry];
      index := Some(entry.index);
    }

    // A quorum holds the entry: commit it, if this node still leads that term.
    method ConcludeLocked(index: nat, proposedIn: nat) returns (ok: bool)
      requires Valid() && (role.Leader? && term == proposedIn ==> index < |log|)
      modifies this`commitIndex, this`lastApplied, this`data, this`machine
      ensures Valid() && ok == (role.Leader? && term == proposedIn)
      ensures View() == if ok then ApplyCommitted(old(View()).(commitIndex := index)) else old(View())
    {
      if !role.Leader? || term != proposedIn {
        return false;
      }
      commitIndex := index;
      ApplyCommittedLocked();
      ok := true;
    }

    // Searches for the point where a peer's log agrees with this leader's and
    // sends everything after it. The search only goes down, so it ends; it fails
    // exactly when the peer knows a later term, and otherwise the peer holds the
    // whole of the leader's log.
    method ReplicateToPeer(peer: KvNode) returns (ok: bool)
      requires Valid() && peer.Valid() && peer != this
      requires role.Leader? && Shape(log) && |log| > 1 && Shape(peer.log) && Matching(peer.log, log)
      modifies this, peer
      ensures Valid() && peer.Valid() && log == old(log)
      ensures ok <==> old(peer.term) <= old(term)
      ensures peer.log == if !ok || log <= old(peer.log) then old(peer.log) else log
      ensures ok ==> View() == old(View()) && peer.term == term && log <= peer.log
      ensures !ok ==> View() == BecomeFollower(old(View()), old(peer.term), None) && peer.View() == old(peer.View())
    {
      hide AnswerAppend, Shape, Matching, Splice;
      var next := |log| - 1;
      while true
        invariant 0 < next < |log| && Valid() && peer.Valid()
        invariant View() == old(View()) && peer.log == old(peer.log)
        invariant peer.View() == old(peer.View()) || (peer.term == term && old(peer.term) <= term)
        decreases next
      {
        var previous := next - 1;
        var request := AppendRequest(term, id, previous, log[previous].term, log[next..], commitIndex);
        PeerAnswers(peer.View(), log, next, request);
        var response := peer.HandleAppendEntries(request);
        if response.term > term {
          BecomeFollowerLocked(response.term, None);
          return false;
        }
        if response.success {
          return true;
        }
        if response.conflict == 0 {
          return false;
        }
        next := response.conflict;
      }
    }

    // How a peer answers the leader's search.
    lemma PeerAnswers(theirs: Node, mine: Log, next: nat, r: AppendRequest)
      requires 0 < next < |mine| && Shape(mine) && Shape(theirs.log) && Matching(theirs.log, mine)
      requires r.prevIndex == next - 1 && r.prevTerm == mine[next - 1].term && r.entries == mine[next..]
      ensures var n, response := AnswerAppend(theirs, r).0, AnswerAppend(theirs, r).1;
        && (theirs.term > r.term ==> n == theirs && response.term == theirs.term && !response.success)
        && (theirs.term <= r.term ==> n.term == r.term && response.term == r.term)
        && (theirs.term <= r.term && response.success ==> n.log == if mine <= theirs.log then theirs.log else mine)
        && (theirs.term <= r.term && !response.success ==> n.log == theirs.log && 0 < response.conflict < next)
    {
      hide Splice, FirstOfTerm;
      ShapedTerm(mine, next - 1);
      if theirs.term <= r.term {
        if AnswerAppend(theirs, r).1.success {
          Taken(theirs.log, mine, next);
        } else {
          ConflictLowers(theirs, r);
        }
      }
    }

    lemma Taken(theirs: Log, mine: Log, next: nat)
      requires 0 < next <= |mine| && Matching(theirs, mine) && next <= |theirs| && theirs[next - 1].term == mine[next - 1].term
      ensures Splice(theirs, next, mine[next..]) == if mine <= theirs then theirs else mine
    {
      assert theirs[..next] == mine[..next];
      SpliceKeepsOrTakes(theirs, mine, next);
    }
  }

  // A majority voted for the candidate before any reply showed a term above.
  ghost predicate Wins(replies: seq<VoteResponse>, term: nat, peers: nat) {
    exists k :: 0 <= k <= |replies| && Granted(replies[..k]) + 1 >= (peers + 1) / 2 + 1
      && forall j :: 0 <= j < k ==> replies[j].term <= term
  }

  predicate FirstAbove(replies: seq<VoteResponse>, term: nat, k: nat)
    requires k < |replies|
  {
    replies[k].term > term && forall j :: 0 <= j < k ==> replies[j].term <= term
  }

  function Granted(replies: seq<VoteResponse>): nat {
    if replies == [] then 0
    else Granted(replies[..|replies| - 1]) + if replies[|replies| - 1].granted then 1 else 0
  }

  lemma GrantedNext(replies: seq<VoteResponse>, k: nat)
    requires k < |replies|
    ensures Granted(replies[..k + 1]) == Granted(replies[..k]) + if replies[k].granted then 1 else 0
  {
    assert replies[..k + 1][..k] == replies[..k];
  }

  datatype OpenFailure = CommitExceedsLog

  // Opens a node from its disk and applies what had been committed. A commit index
  // that the log does not reach is refused.
  method NewNode(id: nat, stored: Node) returns (r: Result<KvNode, OpenFailure>)
    requires stored.log != []
    ensures r.Ok? <==> stored.commitIndex < |stored.log|
    ensures r.Ok? ==> fresh(r.value) && r.value.Valid() && r.value.id == id && r.value.View() == Restarted(stored, stored.commitIndex)
  {
    hide Store, Executed;
    if stored.commitIndex >= |stored.log| {
      return Err(CommitExceedsLog);
    }
    var node := new KvNode(id, stored.term, stored.votedFor, stored.log);
    node.commitIndex := stored.commitIndex;
    node.ApplyCommittedLocked();
    assert stored.log[1..1] == [];
    r := Ok(node);
  }
}
