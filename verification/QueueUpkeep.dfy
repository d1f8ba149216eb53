// The queue's files over a run: the journal stays short, and writes that work are
// acknowledged.
module QueueUpkeep {
  import opened Results
  import opened TornLog
  import opened Jobs
  import opened QueueStore
  import opened QueueRecovery

  // No more records than the minimum, or than there are jobs and one more.
  ghost predicate Short(compactMin: nat, records: seq<Record>, s: Store) {
    |records| <= compactMin || |records| <= |s.jobs| + 1
  }

  ghost predicate JournalShort(compactMin: nat, s: Queue) {
    && Short(compactMin, s.records, Recovered(s.disk, s.records))
    && (s.memory.Some? ==> Short(compactMin, s.records, s.memory.value.store))
  }

  lemma MoreJobs(compactMin: nat, records: seq<Record>, s: Store, t: Store)
    requires Short(compactMin, records, s) && s.jobs.Keys <= t.jobs.Keys
    ensures Short(compactMin, records, t)
  {
    FewerKeys(s.jobs.Keys, t.jobs.Keys);
  }

  lemma FewerKeys(x: set<string>, y: set<string>)
    requires x <= y
    ensures |x| <= |y|
  {
    assert y == x + (y - x);
  }

  lemma OneJobMore(s: Store, r: Record)
    ensures |Applied(s, r).jobs| <= |s.jobs| + 1 && s.jobs.Keys <= Applied(s, r).jobs.Keys
  {
    assert Applied(s, r).jobs.Keys == s.jobs.Keys + {r.id};
    if r.id in s.jobs {
      assert s.jobs.Keys + {r.id} == s.jobs.Keys;
    }
  }

  // A change appends only while the journal is short.
  lemma ChangeShort(f: Format, compactMin: nat, s: Queue, id: string, job: Job, key: string, plan: Plan)
    requires FormatOk(f) && QueueOk(f, s) && s.memory.Some? && id != "" && JournalShort(compactMin, s)
    ensures var m := s.memory.value;
      var step, lines := Commit(f, m, s.disk, id, job, key, compactMin, plan), Journaled(f, m, s.records, s.rest, id, job, key, compactMin, plan);
      && Short(compactMin, lines.0, Recovered(step.1, lines.0)) && Short(compactMin, lines.0, m.store)
      && step.0.store == Applied(m.store, Record(m.number + 1, id, job, key))
  {
    hide Line, Lines, Replayed, Encoded, Applied, Part, Recovered, Short, QueueOk;
    var m := s.memory.value;
    var r := Record(m.number + 1, id, job, key);
    var changed := m.(store := Applied(m.store, r), number := m.number + 1);
    OneJobMore(m.store, r);
    if m.due || m.journalRecords >= (if compactMin > |changed.store.jobs| then compactMin else |changed.store.jobs|) {
      SnapshotWrites(f, s, changed, plan);
      if plan.renamed && plan.emptied.NotEmptied? {
        MoreJobs(compactMin, s.records, m.store, changed.store);
      } else if plan.renamed {
        NothingShort(compactMin, m.store);
        NothingShort(compactMin, changed.store);
      }
    } else {
      AppendWrites(f, s, m, r, plan);
      Counted(f, s);
      AppendShort(f, compactMin, s, r, plan);
      MoreJobs(compactMin, s.records, m.store, changed.store);
    }
  }

  lemma NothingShort(compactMin: nat, s: Store)
    ensures Short(compactMin, [], s)
  {
  }

  lemma Counted(f: Format, s: Queue)
    requires QueueOk(f, s) && s.memory.Some? && !s.memory.value.due
    ensures s.memory.value.journalRecords == |s.records|
  {
    hide Lines, Encoded, Recovered;
  }

  lemma AppendShort(f: Format, compactMin: nat, s: Queue, r: Record, plan: Plan)
    requires s.memory.Some? && JournalShort(compactMin, s)
    requires var m := s.memory.value; var jobs := Applied(m.store, r).jobs;
      m.journalRecords == |s.records| < (if compactMin > |jobs| then compactMin else |jobs|) && |jobs| <= |m.store.jobs| + 1
    ensures Short(compactMin, s.records + [r], Applied(s.memory.value.store, r))
    ensures Short(compactMin, s.records + [r], s.memory.value.store)
  {
    hide Recovered, Applied;
  }

  lemma UndoneKeeps(s: Store, r: Record)
    requires r.id !in s.jobs
    ensures s.jobs.Keys <= Applied(s, r).jobs.Keys - {r.id}
  {
  }

  lemma StepShort(f: Format, compactMin: nat, s: Queue, e: Event)
    requires FormatOk(f) && QueueOk(f, s) && Enabled(s, e) && JournalShort(compactMin, s)
    ensures JournalShort(compactMin, Step(f, compactMin, s, e))
  {
    hide Commit, Journaled, Applied, Recovered, Short, Lines, Encoded, Opened, QueueOk;
    match e
    case Change(id, job, key, create, plan) =>
      var m := s.memory.value;
      ChangeShort(f, compactMin, s, id, job, key, plan);
      var r := Record(m.number + 1, id, job, key);
      OneJobMore(m.store, r);
      var t := Step(f, compactMin, s, e);
      if create {
        UndoneKeeps(m.store, r);
      }
      MoreJobs(compactMin, t.records, m.store, t.memory.value.store);
    case CrashDuring(id, job, key, plan) =>
      ChangeShort(f, compactMin, s, id, job, key, plan);
    case Crash =>
    case Open => OpenShort(f, compactMin, s);
  }

  lemma OpenShort(f: Format, compactMin: nat, s: Queue)
    requires FormatOk(f) && QueueOk(f, s) && Enabled(s, Open) && JournalShort(compactMin, s)
    ensures JournalShort(compactMin, Step(f, compactMin, s, Open))
  {
    hide Lines, Encoded, Opened, Replayed;
    OpensAs(f, s);
    OpenedBlank(f, s.disk);
  }

  lemma {:induction false} RunShort(f: Format, compactMin: nat, s: Queue, events: seq<Event>)
    requires FormatOk(f) && QueueOk(f, s) && CanRun(f, compactMin, s, events) && JournalShort(compactMin, s)
    ensures JournalShort(compactMin, After(f, compactMin, s, events)) && QueueOk(f, After(f, compactMin, s, events))
    decreases |events|
  {
    hide FormatOk, QueueOk, Enabled, Step, JournalShort;
    if events != [] {
      StepShort(f, compactMin, s, events[0]);
      StepKeeps(f, compactMin, s, events[0]);
      RunShort(f, compactMin, Step(f, compactMin, s, events[0]), events[1..]);
    }
  }

  // Over any run, with whatever failures, the records that opening has to read never
  // outgrow the jobs it brings back.
  lemma JournalStaysShort(f: Format, compactMin: nat, s: Queue, events: seq<Event>)
    requires FormatOk(f) && Initial(s) && CanRun(f, compactMin, s, events)
    ensures var t := After(f, compactMin, s, events);
      && Opened(f, t.disk).Ok? && Short(compactMin, t.records, Opened(f, t.disk).value.0.store)
      && (Base(t.disk).number > 0 ==> t.disk.journal == Lines(f.crc, Encoded(f, t.records)) + t.rest && Newline !in t.rest)
  {
    hide FormatOk, Enabled, Step, Opened, Short, Lines, Encoded, Replayed, CanRun;
    NothingShort(compactMin, Recovered(s.disk, s.records));
    RunShort(f, compactMin, s, events);
    OpensAs(f, After(f, compactMin, s, events));
  }

  // In every reachable state, whatever failed before, a change whose writes work is
  // acknowledged, and the files and memory are in step again.
  lemma GoodWritesSucceed(f: Format, compactMin: nat, s: Queue, events: seq<Event>, e: Event)
    requires FormatOk(f) && Initial(s) && CanRun(f, compactMin, s, events)
    requires e.Change? && Enabled(After(f, compactMin, s, events), e)
    requires e.plan.synced && e.plan.renamed && e.plan.emptied.Done?
    ensures var t := After(f, compactMin, s, events); var u := Step(f, compactMin, t, e);
      && u.memory.Some? && !u.memory.value.due && u.attempted == {}
      && u.memory.value.store == u.acked == Applied(t.memory.value.store, Record(t.memory.value.number + 1, e.id, e.job, e.key))
      && Opened(f, u.disk).Ok? && Opened(f, u.disk).value.0.store == u.acked
  {
    hide FormatOk, Opened, Lines, Encoded, CanRun, Replayed, Applied, Commit, Journaled;
    assert QueueOk(f, s);
    RunKeeps(f, compactMin, s, events);
    var t := After(f, compactMin, s, events);
    GoodCommit(f, compactMin, t.memory.value, t.disk, e);
    AcknowledgedIsDurable(f, compactMin, s, events, e);
  }

  lemma GoodCommit(f: Format, compactMin: nat, m: Memory, d: Disk, e: Event)
    requires e.Change? && e.plan.synced && e.plan.renamed && e.plan.emptied.Done?
    ensures var step := Commit(f, m, d, e.id, e.job, e.key, compactMin, e.plan); step.2 && !step.0.due
  {
    hide Line, Applied;
  }
}
