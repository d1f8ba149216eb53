// Whatever fails and whenever the process stops, opening the queue again brings
// back the last acknowledged change.
module QueueRecovery {
  import opened Results
  import opened TornLog
  import opened Jobs
  import opened QueueStore

  function Encoded(f: Format, records: seq<Record>): seq<Bytes> {
    seq(|records|, k requires 0 <= k < |records| => f.encode(records[k]))
  }

  ghost predicate Numbered(records: seq<Record>) {
    forall k :: 0 <= k < |records| ==> records[k].id != ""
  }

  // What opening the files would bring back.
  function Recovered(d: Disk, records: seq<Record>): Store {
    if Base(d).number == 0 then Base(d).store else Replayed(Base(d), records)
  }

  ghost predicate MemoryOk(s: Queue, m: Memory) {
    && Base(s.disk).number <= m.number
    && (forall k :: 0 <= k < |s.records| ==> s.records[k].number <= m.number)
    && (Base(s.disk).number == 0 ==> m.due && s.disk.journal == [] && s.records == [] && s.rest == [])
    && (!m.due ==>
          && Base(s.disk).number > 0 && s.rest == [] && m.journalSize == |s.disk.journal| && m.journalRecords == |s.records|
          && Recovered(s.disk, s.records) == m.store)
  }

  ghost predicate QueueOk(f: Format, s: Queue) {
    && Numbered(s.records) && Newline !in s.rest
    && (Base(s.disk).number > 0 ==> s.disk.journal == Lines(f.crc, Encoded(f, s.records)) + s.rest)
    && (Recovered(s.disk, s.records) == s.acked || Recovered(s.disk, s.records) in s.attempted)
    && (s.memory.Some? ==> MemoryOk(s, s.memory.value))
  }

  /******* Opening *******/

  lemma EncodedLast(f: Format, records: seq<Record>)
    requires records != []
    ensures Encoded(f, records)[..|records| - 1] == Encoded(f, records[..|records| - 1])
  {
  }

  lemma {:induction false} DecodesAll(f: Format, records: seq<Record>)
    requires FormatOk(f) && Numbered(records)
    ensures DecodedAll(f, Encoded(f, records)) == Some(records)
    decreases |records|
  {
    if records != [] {
      EncodedLast(f, records);
      DecodesAll(f, records[..|records| - 1]);
      assert records[..|records| - 1] + [records[|records| - 1]] == records;
    }
  }

  // The journal reads as its whole lines, and so does what opening leaves of it.
  lemma OpensAs(f: Format, s: Queue)
    requires FormatOk(f) && QueueOk(f, s)
    ensures Opened(f, s.disk).Ok?
    ensures Opened(f, s.disk).value.0.store == Recovered(s.disk, s.records)
    ensures Base(s.disk).number > 0 ==>
      var m, d := Opened(f, s.disk).value.0, Opened(f, s.disk).value.1;
      && d == s.disk.(journal := Lines(f.crc, Encoded(f, s.records))) && !m.due
      && m.journalSize == |d.journal| && m.journalRecords == |s.records| && m.number == Latest(Base(s.disk).number, s.records)
  {
    hide Replayed, Latest, Lines, ReadFrom, DecodedAll, Encoded;
    if Base(s.disk).number > 0 {
      var lines := Lines(f.crc, Encoded(f, s.records));
      EncodedLoggable(f, s.records);
      ReadLines(f.crc, Encoded(f, s.records), s.rest, 0);
      DecodesAll(f, s.records);
      assert (lines + s.rest)[..|lines|] == lines;
    }
  }

  lemma EncodedLoggable(f: Format, records: seq<Record>)
    requires FormatOk(f)
    ensures forall k :: 0 <= k < |Encoded(f, records)| ==> Loggable(Encoded(f, records)[k])
  {
  }

  lemma OpenStep(f: Format, compactMin: nat, s: Queue)
    requires FormatOk(f) && QueueOk(f, s) && Enabled(s, Open)
    ensures QueueOk(f, Step(f, compactMin, s, Open))
  {
    hide Replayed, Latest, Lines, Encoded, Opened;
    OpensAs(f, s);
    OpenedBlank(f, s.disk);
    var lines := Lines(f.crc, Encoded(f, s.records));
    assert lines + [] == lines;
  }

  lemma OpenedBlank(f: Format, d: Disk)
    ensures Base(d).number == 0 ==> Opened(f, d) == Ok((Memory(Base(d).store, 0, 0, 0, true), d.(journal := [])))
  {
    hide Replayed, Latest;
  }

  /******* Changes *******/

  lemma ReplayedNext(saved: Saved, records: seq<Record>, r: Record)
    ensures Replayed(saved, records + [r]) == if r.number > saved.number then Applied(Replayed(saved, records), r) else Replayed(saved, records)
  {
    assert (records + [r])[..|records|] == records;
  }

  // A snapshot makes every record before it void.
  lemma {:induction false} ReplayedOld(saved: Saved, records: seq<Record>)
    requires forall k :: 0 <= k < |records| ==> records[k].number <= saved.number
    ensures Replayed(saved, records) == saved.store
  {
    if records != [] {
      ReplayedOld(saved, records[..|records| - 1]);
    }
  }

  lemma LinesNext(f: Format, records: seq<Record>, r: Record)
    ensures Lines(f.crc, Encoded(f, records + [r])) == Lines(f.crc, Encoded(f, records)) + Line(f.crc, f.encode(r))
  {
    hide Line;
    LinesConcat(f.crc, Encoded(f, records), [f.encode(r)]);
    assert Encoded(f, records + [r]) == Encoded(f, records) + [f.encode(r)];
    LinesParts(f.crc, [f.encode(r)]);
    LinesParts(f.crc, []);
    assert [f.encode(r)][1..] == [];
    assert Line(f.crc, f.encode(r)) + [] == Line(f.crc, f.encode(r));
  }

  // What a change leaves in the files: what they held, or the change as well.
  ghost predicate Written(f: Format, s: Queue, d: Disk, records: seq<Record>, rest: Bytes, changed: Store) {
    && Numbered(records) && Newline !in rest
    && (Base(d).number > 0 ==> d.journal == Lines(f.crc, Encoded(f, records)) + rest)
    && (Recovered(d, records) == Recovered(s.disk, s.records) || Recovered(d, records) == changed)
  }

  lemma AppendWrites(f: Format, s: Queue, m: Memory, r: Record, plan: Plan)
    requires FormatOk(f) && QueueOk(f, s) && s.memory == Some(m) && !m.due && r.number == m.number + 1 && r.id != ""
    ensures var changed := m.(store := Applied(m.store, r), number := r.number);
      var step := AppendStep(f, changed, s.disk, r, plan);
      var after, d, ok := step.0, step.1, step.2;
      var line := Line(f.crc, f.encode(r));
      var whole := plan.synced || (!plan.truncated && plan.written >= |line|);
      var records := if whole then s.records + [r] else s.records;
      var rest := if whole || plan.truncated then [] else Part(line, plan.written);
      && Written(f, s, d, records, rest, changed.store) && d.snapshot == s.disk.snapshot
      && (whole ==> Recovered(d, records) == changed.store)
      && ok == plan.synced && after.store == changed.store && after.number == r.number
      && (ok ==> after == changed.(journalSize := |d.journal|, journalRecords := |records|)) && (!ok ==> after == changed.(due := true))
  {
    hide Line, Lines, Replayed, Encoded, Applied, Part;
    var line := Line(f.crc, f.encode(r));
    var old' := Lines(f.crc, Encoded(f, s.records));
    LinesNext(f, s.records, r);
    ReplayedNext(Base(s.disk), s.records, r);
    PartOfLine(f, r, plan.written);
    assert old' + [] == old';
    assert (old' + line) + [] == old' + line;
    var journal := old' + Part(line, plan.written);
    assert journal[..|old'|] == old';
  }

  lemma PartOfLine(f: Format, r: Record, written: nat)
    requires FormatOk(f)
    ensures var line := Line(f.crc, f.encode(r));
      && (written >= |line| ==> Part(line, written) == line)
      && (written < |line| ==> Newline !in Part(line, written))
      && |Part(line, written)| <= |line|
  {
    hide Line;
    var line := Line(f.crc, f.encode(r));
    LineChecks(f.crc, f.encode(r));
    if written < |line| {
      assert forall b :: b in Part(line, written) ==> b in line[..|line| - 1];
    } else {
      assert line[..|line|] == line;
    }
  }

  lemma SnapshotWrites(f: Format, s: Queue, changed: Memory, plan: Plan)
    requires QueueOk(f, s) && s.memory.Some? && changed.number == s.memory.value.number + 1
    ensures var step := SnapshotStep(changed, s.disk, plan);
      var after, d, ok := step.0, step.1, step.2;
      var clear := plan.renamed && !plan.emptied.NotEmptied?;
      var records := if clear then [] else s.records;
      var rest := if clear then [] else s.rest;
      && Written(f, s, d, records, rest, changed.store)
      && ok == plan.renamed && (ok ==> Recovered(d, records) == changed.store && Base(d).number == changed.number)
      && (!ok ==> d == s.disk)
  {
    hide Lines, Encoded;
    if plan.renamed {
      var saved := Saved(changed.store, changed.number);
      ReplayedOld(saved, s.records);
      ReplayedOld(saved, []);
      NoLines(f);
    }
  }

  lemma NoLines(f: Format)
    ensures Lines(f.crc, Encoded(f, [])) + [] == []
  {
  }

  // Any change, however its writes go: the files keep what they held or hold the
  // change, and an acknowledged change is what they hold.
  lemma ChangeWrites(f: Format, compactMin: nat, s: Queue, id: string, job: Job, key: string, plan: Plan)
    requires FormatOk(f) && QueueOk(f, s) && s.memory.Some? && id != ""
    ensures var m := s.memory.value;
      var step := Commit(f, m, s.disk, id, job, key, compactMin, plan);
      var after, d, ok := step.0, step.1, step.2;
      var lines := Journaled(f, m, s.records, s.rest, id, job, key, compactMin, plan);
      var records, rest := lines.0, lines.1;
      && Written(f, s, d, records, rest, after.store)
      && after.number == m.number + 1
      && (ok ==> Recovered(d, records) == after.store)
      && (forall k :: 0 <= k < |records| ==> records[k].number <= after.number)
      && Base(d).number <= after.number
      && (Base(d).number == 0 ==> after.due && d.journal == [] && records == [] && rest == [])
      && (!after.due ==>
            && Base(d).number > 0 && rest == [] && after.journalSize == |d.journal| && after.journalRecords == |records|
            && Recovered(d, records) == after.store)
      && (!ok ==> after.due)
      && after.store == Applied(m.store, Record(m.number + 1, id, job, key))
  {
    hide Line, Lines, Replayed, Encoded, Applied, Part, Recovered, Written;
    var m := s.memory.value;
    var r := Record(m.number + 1, id, job, key);
    var changed := m.(store := Applied(m.store, r), number := m.number + 1);
    if m.due || m.journalRecords >= (if compactMin > |changed.store.jobs| then compactMin else |changed.store.jobs|) {
      SnapshotWrites(f, s, changed, plan);
      WrittenEmpty(f, s, changed, plan);
    } else {
      AppendWrites(f, s, m, r, plan);
    }
  }

  lemma WrittenEmpty(f: Format, s: Queue, changed: Memory, plan: Plan)
    requires QueueOk(f, s) && s.memory.Some? && changed.number == s.memory.value.number + 1
    ensures var step := SnapshotStep(changed, s.disk, plan);
      var after, d, ok := step.0, step.1, step.2;
      && (ok ==> Base(d).number > 0) && after.store == changed.store && after.number == changed.number
      && (!after.due ==> d.journal == [] && after.journalSize == 0 && after.journalRecords == 0 && plan.renamed && plan.emptied.Done?)
      && (ok && !after.due ==> d.journal == [])
  {
    hide Lines, Encoded, Replayed;
  }

  lemma ChangeStep(f: Format, compactMin: nat, s: Queue, e: Event)
    requires FormatOk(f) && QueueOk(f, s) && Enabled(s, e) && (e.Change? || e.CrashDuring?)
    ensures QueueOk(f, Step(f, compactMin, s, e))
  {
    hide Line, Lines, Replayed, Encoded, Applied, Recovered, Commit, Journaled;
    ChangeWrites(f, compactMin, s, e.id, e.job, e.key, e.plan);
  }

  lemma StepKeeps(f: Format, compactMin: nat, s: Queue, e: Event)
    requires FormatOk(f) && QueueOk(f, s) && Enabled(s, e)
    ensures QueueOk(f, Step(f, compactMin, s, e))
  {
    hide Lines, Replayed, Encoded;
    match e
    case Change(_, _, _, _, _) => ChangeStep(f, compactMin, s, e);
    case CrashDuring(_, _, _, _) => ChangeStep(f, compactMin, s, e);
    case Crash =>
    case Open => OpenStep(f, compactMin, s);
  }

  lemma {:induction false} RunKeeps(f: Format, compactMin: nat, s: Queue, events: seq<Event>)
    requires FormatOk(f) && QueueOk(f, s) && CanRun(f, compactMin, s, events)
    ensures QueueOk(f, After(f, compactMin, s, events))
    decreases |events|
  {
    hide FormatOk, QueueOk, Enabled, Step;
    if events != [] {
      StepKeeps(f, compactMin, s, events[0]);
      RunKeeps(f, compactMin, Step(f, compactMin, s, events[0]), events[1..]);
    }
  }

  // After any run of changes, failures and crashes, opening the queue succeeds and
  // brings back the store as of the last acknowledged change, or as a later
  // attempted one would have left it.
  lemma CrashRecovery(f: Format, compactMin: nat, s: Queue, events: seq<Event>)
    requires FormatOk(f) && Initial(s) && CanRun(f, compactMin, s, events)
    ensures var t := After(f, compactMin, s, events);
      && Opened(f, t.disk).Ok?
      && (Opened(f, t.disk).value.0.store == t.acked || Opened(f, t.disk).value.0.store in t.attempted)
  {
    hide FormatOk, Step, Enabled, Opened, Lines, Encoded, CanRun;
    assert QueueOk(f, s);
    RunKeeps(f, compactMin, s, events);
    OpensAs(f, After(f, compactMin, s, events));
  }

  // Right after an acknowledged change nothing else can come back.
  lemma AcknowledgedIsDurable(f: Format, compactMin: nat, s: Queue, events: seq<Event>, e: Event)
    requires FormatOk(f) && Initial(s) && CanRun(f, compactMin, s, events)
    requires e.Change? && Enabled(After(f, compactMin, s, events), e)
    requires Commit(f, After(f, compactMin, s, events).memory.value, After(f, compactMin, s, events).disk, e.id, e.job, e.key, compactMin, e.plan).2
    ensures var t := After(f, compactMin, s, events);
      var u := Step(f, compactMin, t, e);
      && Opened(f, u.disk).Ok? && Opened(f, u.disk).value.0.store == u.memory.value.store
      && u.memory.value.store == Applied(t.memory.value.store, Record(t.memory.value.number + 1, e.id, e.job, e.key))
  {
    hide FormatOk, Opened, Lines, Encoded, CanRun, Replayed, Applied, Commit, Journaled;
    assert QueueOk(f, s);
    RunKeeps(f, compactMin, s, events);
    var t := After(f, compactMin, s, events);
    ChangeWrites(f, compactMin, t, e.id, e.job, e.key, e.plan);
    ChangeStep(f, compactMin, t, e);
    OpensAs(f, Step(f, compactMin, t, e));
  }

  // Taking back a Create that could not be written restores the store exactly when
  // its job id was new; otherwise the older job of that id is lost.
  lemma UndoneExactly(s: Store, r: Record)
    requires r.key != "" && r.key !in s.keys
    ensures Store(Applied(s, r).jobs - {r.id}, Applied(s, r).keys - {r.key}) == s <==> r.id !in s.jobs
  {
    var undone := Store(Applied(s, r).jobs - {r.id}, Applied(s, r).keys - {r.key});
    assert undone.keys == s.keys;
    if r.id !in s.jobs {
      assert undone.jobs == s.jobs;
    }
  }

  // A failed Create leaves the store as it was, whatever its writes left behind.
  lemma FailedCreateUndone(f: Format, compactMin: nat, s: Queue, e: Event)
    requires Enabled(s, e) && e.Change? && e.create
    requires !Commit(f, s.memory.value, s.disk, e.id, e.job, e.key, compactMin, e.plan).2
    ensures Step(f, compactMin, s, e).memory.value.store == s.memory.value.store
  {
    hide Commit, Journaled;
    var m := s.memory.value;
    CommitStore(f, m, s.disk, e.id, e.job, e.key, compactMin, e.plan);
    UndoneExactly(m.store, Record(m.number + 1, e.id, e.job, e.key));
  }

  /******* Idempotency keys *******/

  lemma {:induction false} ReplayedKeys(saved: Saved, records: seq<Record>)
    requires KeysOk(saved.store)
    ensures KeysOk(Replayed(saved, records))
  {
    if records != [] {
      ReplayedKeys(saved, records[..|records| - 1]);
    }
  }

  ghost predicate KeysKept(s: Queue) {
    KeysOk(Base(s.disk).store) && (s.memory.Some? ==> KeysOk(s.memory.value.store))
  }

  lemma OpenKeys(f: Format, d: Disk)
    requires KeysOk(Base(d).store) && Opened(f, d).Ok?
    ensures KeysOk(Opened(f, d).value.0.store) && Base(Opened(f, d).value.1) == Base(d)
  {
    hide Replayed, Read, DecodedAll;
    var read := Read(f.crc, d.journal);
    if Base(d).number > 0 {
      ReplayedKeys(Base(d), DecodedAll(f, read.value.records).value);
    }
  }

  lemma CommitKeys(f: Format, m: Memory, d: Disk, id: string, job: Job, key: string, compactMin: nat, plan: Plan)
    requires KeysOk(m.store) && KeysOk(Base(d).store)
    ensures var step := Commit(f, m, d, id, job, key, compactMin, plan);
      && KeysOk(step.0.store) && KeysOk(Base(step.1).store)
      && step.0.store == Applied(m.store, Record(m.number + 1, id, job, key))
  {
    hide Line;
  }

  lemma KeysStep(f: Format, compactMin: nat, s: Queue, e: Event)
    requires KeysKept(s) && Enabled(s, e)
    ensures KeysKept(Step(f, compactMin, s, e))
  {
    hide Commit, Journaled, Opened, Lines, Encoded;
    match e
    case Change(id, job, key, create, plan) =>
      CommitKeys(f, s.memory.value, s.disk, id, job, key, compactMin, plan);
      if create && !Commit(f, s.memory.value, s.disk, id, job, key, compactMin, plan).2 {
        FailedCreateUndone(f, compactMin, s, e);
      }
    case CrashDuring(id, job, key, plan) => CommitKeys(f, s.memory.value, s.disk, id, job, key, compactMin, plan);
    case Crash =>
    case Open =>
      if Opened(f, s.disk).Ok? {
        OpenKeys(f, s.disk);
      }
  }

  // In every reachable state each idempotency key names a job the queue holds, so
  // Create can always hand back the job of a key it has seen.
  lemma {:induction false} KeysNameJobs(f: Format, compactMin: nat, s: Queue, events: seq<Event>)
    requires KeysKept(s) && CanRun(f, compactMin, s, events)
    ensures KeysKept(After(f, compactMin, s, events))
    decreases |events|
  {
    hide KeysKept, Enabled, Step;
    if events != [] {
      KeysStep(f, compactMin, s, events[0]);
      KeysNameJobs(f, compactMin, Step(f, compactMin, s, events[0]), events[1..]);
    }
  }
}
