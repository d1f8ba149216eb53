// Replicated logs: entries, the checks a follower makes and the way it takes in
// what a leader sends.
module RaftLog {

  datatype Operation = Put | Delete

  datatype Command = Command(operation: Operation, key: string, value: string, expiresAt: int)

  datatype Entry = Entry(index: nat, term: nat, command: Command)

  // The entry at index 0 of every log. It holds no command of a client.
  const Sentinel := Entry(0, 0, Command(Put, "", "", 0))

  type Log = seq<Entry>

  function Last(log: Log): Entry
    requires log != []
  {
    log[|log| - 1]
  }

  function Commands(entries: Log): seq<Command> {
    seq(|entries|, k requires 0 <= k < |entries| => entries[k].command)
  }

  /******* What a follower does to its log *******/

  // Takes in entries from position at on: a stored entry of another term and all
  // after it give way.
  function Splice(log: Log, at: nat, entries: Log): Log
    requires at <= |log|
    decreases |entries|
  {
    if entries == [] then log
    else if at == |log| || log[at].term != entries[0].term then Splice(log[..at] + [entries[0]], at + 1, entries[1..])
    else Splice(log, at + 1, entries[1..])
  }

  // The first index of the run of entries of one term that ends before index.
  function FirstOfTerm(log: Log, index: nat, term: nat): (first: nat)
    requires index <= |log|
    ensures first <= index
  {
    if index > 0 && log[index - 1].term == term then FirstOfTerm(log, index - 1, term) else index
  }

  /******* Well-formed logs *******/

  ghost predicate Shape(log: Log) {
    && log != [] && log[0] == Sentinel
    && (forall k :: 0 <= k < |log| ==> log[k].index == k && (k > 0 ==> log[k].term > 0))
    && (forall j, k :: 0 <= j <= k < |log| ==> log[j].term <= log[k].term)
  }

  // Entries with the same index and term end the same log.
  ghost predicate Matching(x: Log, y: Log) {
    forall k :: 0 <= k < |x| && k < |y| && x[k].term == y[k].term ==> x[..k + 1] == y[..k + 1]
  }

  lemma ShapePrefix(log: Log, n: nat)
    requires Shape(log) && 0 < n <= |log|
    ensures Shape(log[..n])
  {
  }

  lemma ShapeExtend(log: Log, e: Entry)
    requires Shape(log) && e.index == |log| && e.term > 0 && Last(log).term <= e.term
    ensures Shape(log + [e])
  {
  }

  // Where prefixes of one log differ, one is longer.
  lemma PrefixesOfOne(x: Log, y: Log, whole: Log)
    requires x <= whole && y <= whole
    ensures |x| <= |y| ==> x <= y
    ensures |y| <= |x| ==> y <= x
  {
  }

  lemma PrefixOfPrefix(x: Log, y: Log, z: Log)
    requires x <= y && y <= z
    ensures x <= z
  {
  }

  // A follower that agrees with sent up to position at ends with its own log when
  // that already holds all of it, and with exactly what was sent when not.
  lemma {:induction false} SpliceKeepsOrTakes(log: Log, sent: Log, at: nat)
    requires at <= |log| && at <= |sent| && log[..at] == sent[..at]
    requires Matching(log, sent)
    ensures Splice(log, at, sent[at..]) == if sent <= log then log else sent
    decreases |sent| - at
  {
    if at == |sent| {
      assert sent == sent[..at] && sent <= log;
    } else {
      assert sent[at..][0] == sent[at] && sent[at..][1..] == sent[at + 1..];
      if at == |log| || log[at].term != sent[at].term {
        var next := log[..at] + [sent[at]];
        assert next == sent[..at + 1];
        assert at < |log| ==> log[at] != sent[at];
        SpliceKeepsOrTakes(next, sent, at + 1);
        assert next[..at + 1] == next;
      } else {
        assert log[..at + 1] == sent[..at + 1];
        SpliceKeepsOrTakes(log, sent, at + 1);
      }
    }
  }

  // The index a follower answers with when it refuses: where the run of its
  // entries of the conflicting term starts. In a well-formed log that is never
  // the sentinel.
  lemma {:induction false} FirstOfTermFinds(log: Log, index: nat, term: nat)
    requires Shape(log) && index < |log| && log[index].term == term && term > 0
    ensures var first := FirstOfTerm(log, index, term);
      && 0 < first <= index && log[first].term == term && log[first - 1].term < term
  {
    if log[index - 1].term == term {
      FirstOfTermFinds(log, index - 1, term);
    }
  }

  lemma ShapedTerm(log: Log, index: nat)
    requires Shape(log) && index < |log|
    ensures index > 0 <==> log[index].term > 0
  {
  }
}
