// How the media queue survives crashes: a snapshot, and a journal of the changes
// since.
module QueueStore {
  import opened Results
  import opened TornLog
  import opened Jobs

  datatype Store = Store(jobs: map<string, Job>, keys: map<string, string>)

  // A line of the journal: what one job became. Creating a job also claims its key.
  datatype Record = Record(number: nat, id: string, job: Job, key: string)

  datatype Saved = Saved(store: Store, number: nat)

  // What is in the two files.
  datatype Disk = Disk(snapshot: Option<Saved>, journal: Bytes)

  // How records are written down. Only the round trip matters.
  datatype Format = Format(crc: Bytes -> nat, encode: Record -> Bytes, decode: Bytes -> Option<Record>)

  ghost predicate FormatOk(f: Format) {
    IsCrc(f.crc) && forall r :: Loggable(f.encode(r)) && f.decode(f.encode(r)) == Some(r)
  }

  // number is that of the last change; due means the next one must write a
  // snapshot.
  datatype Memory = Memory(store: Store, number: nat, journalSize: nat, journalRecords: nat, due: bool)

  const NoStore := Store(map[], map[])

  function Applied(s: Store, r: Record): Store {
    Store(s.jobs[r.id := r.job], if r.key != "" then s.keys[r.key := r.id] else s.keys)
  }

  // Every idempotency key names a job.
  ghost predicate KeysOk(s: Store) {
    forall key :: key in s.keys ==> key != "" && s.keys[key] in s.jobs
  }

  // The records newer than a snapshot, applied to it.
  function Replayed(saved: Saved, records: seq<Record>): Store {
    if records == [] then saved.store
    else
      var before, r := Replayed(saved, records[..|records| - 1]), records[|records| - 1];
      if r.number > saved.number then Applied(before, r) else before
  }

  function Latest(number: nat, records: seq<Record>): (n: nat)
    ensures n >= number && forall k :: 0 <= k < |records| ==> records[k].number <= n
  {
    if records == [] then number
    else
      var n, r := Latest(number, records[..|records| - 1]), records[|records| - 1];
      assert forall k :: 0 <= k < |records| - 1 ==> records[k] == records[..|records| - 1][k];
      if r.number > n then r.number else n
  }

  function Base(d: Disk): Saved {
    if d.snapshot.Some? then d.snapshot.value else Saved(NoStore, 0)
  }

  /******* Opening *******/

  datatype OpenError = CorruptJournal(at: nat) | Undecodable

  function DecodedAll(f: Format, payloads: seq<Bytes>): Option<seq<Record>> {
    if payloads == [] then Some([])
    else
      var before, r := DecodedAll(f, payloads[..|payloads| - 1]), f.decode(payloads[|payloads| - 1]);
      if before.None? || r.None? || r.value.id == "" then None else Some(before.value + [r.value])
  }

  // What opening makes of the files. A journal without a snapshot of this release
  // is stale and is discarded.
  function Opened(f: Format, d: Disk): Result<(Memory, Disk), OpenError> {
    var base := Base(d);
    if base.number == 0 then Ok((Memory(base.store, 0, 0, 0, true), d.(journal := [])))
    else
      var read := Read(f.crc, d.journal);
      if read.Err? then Err(CorruptJournal(read.error.at))
      else
        var records := DecodedAll(f, read.value.records);
        if records.None? then Err(Undecodable)
        else
          var size := if read.value.offset <= |d.journal| then read.value.offset else |d.journal|;
          Ok((Memory(Replayed(base, records.value), Latest(base.number, records.value), size, |records.value|, false),
              d.(journal := d.journal[..size])))
  }

  /******* Changes *******/

  datatype Emptied = NotEmptied | Unsynced | Done

  // How the writes of one change go: how much of the line is written, whether it
  // becomes durable, whether a failed one is taken back; whether the snapshot is
  // renamed into place, and whether the journal is emptied after it.
  datatype Plan = Plan(written: nat, synced: bool, truncated: bool, renamed: bool, emptied: Emptied)

  function Part(line: Bytes, written: nat): Bytes {
    line[..if written < |line| then written else |line|]
  }

  function AppendStep(f: Format, m: Memory, d: Disk, r: Record, plan: Plan): (Memory, Disk, bool) {
    var line := Line(f.crc, f.encode(r));
    if plan.synced then
      (m.(journalSize := m.journalSize + |line|, journalRecords := m.journalRecords + 1), d.(journal := d.journal + line), true)
    else
      var journal := d.journal + Part(line, plan.written);
      (m.(due := true), d.(journal := if plan.truncated && m.journalSize <= |journal| then journal[..m.journalSize] else journal), false)
  }

  function SnapshotStep(m: Memory, d: Disk, plan: Plan): (Memory, Disk, bool) {
    var n := m.(due := true);
    if !plan.renamed then (n, d, false)
    else
      var written := d.(snapshot := Some(Saved(m.store, m.number)));
      match plan.emptied
      case NotEmptied => (n, written, true)
      case Unsynced => (n, written.(journal := []), true)
      case Done => (n.(journalSize := 0, journalRecords := 0, due := false), written.(journal := []), true)
  }

  function Commit(f: Format, m: Memory, d: Disk, id: string, job: Job, key: string, compactMin: nat, plan: Plan): (Memory, Disk, bool) {
    var r := Record(m.number + 1, id, job, key);
    var changed := m.(store := Applied(m.store, r), number := m.number + 1);
    if m.due || m.journalRecords >= (if compactMin > |changed.store.jobs| then compactMin else |changed.store.jobs|) then
      SnapshotStep(changed, d, plan)
    else AppendStep(f, changed, d, r, plan)
  }

  // A change is in memory however its writes go.
  lemma CommitStore(f: Format, m: Memory, d: Disk, id: string, job: Job, key: string, compactMin: nat, plan: Plan)
    ensures Commit(f, m, d, id, job, key, compactMin, plan).0.store == Applied(m.store, Record(m.number + 1, id, job, key))
  {
    hide Line;
  }

  /******* Runs *******/

  // memory is gone while the process is down. acked is the store as of the last
  // change that was acknowledged, or as it was last opened; attempted are the
  // stores that changes since then would have given. records and rest say what
  // the journal holds: whole lines, and part of one.
  datatype Queue = Queue(
    memory: Option<Memory>, disk: Disk,
    records: seq<Record>, rest: Bytes, acked: Store, attempted: set<Store>)

  datatype Event =
    | Change(id: string, job: Job, key: string, create: bool, plan: Plan)
    | CrashDuring(id: string, job: Job, key: string, plan: Plan)
    | Crash
    | Open

  ghost predicate Enabled(s: Queue, e: Event) {
    match e
    case Change(id, _, key, create, _) =>
      && s.memory.Some? && id != ""
      && (create ==> key != "" && id !in s.memory.value.store.jobs && key !in s.memory.value.store.keys)
    case CrashDuring(id, _, _, _) => s.memory.Some? && id != ""
    case Crash => s.memory.Some?
    case Open => s.memory.None?
  }

  // The lines of the journal after a change.
  function Journaled(f: Format, m: Memory, records: seq<Record>, rest: Bytes, id: string, job: Job, key: string, compactMin: nat, plan: Plan): (seq<Record>, Bytes) {
    var r := Record(m.number + 1, id, job, key);
    var jobs := Applied(m.store, r).jobs;
    if m.due || m.journalRecords >= (if compactMin > |jobs| then compactMin else |jobs|) then
      if plan.renamed && !plan.emptied.NotEmptied? then ([], []) else (records, rest)
    else
      var line := Line(f.crc, f.encode(r));
      if plan.synced || (!plan.truncated && plan.written >= |line|) then (records + [r], [])
      else if plan.truncated then (records, rest)
      else (records, Part(line, plan.written))
  }

  function Step(f: Format, compactMin: nat, s: Queue, e: Event): Queue
    requires Enabled(s, e)
  {
    match e
    case Change(id, job, key, create, plan) =>
      var m := s.memory.value;
      var (after, disk, ok) := Commit(f, m, s.disk, id, job, key, compactMin, plan);
      var (records, rest) := Journaled(f, m, s.records, s.rest, id, job, key, compactMin, plan);
      var kept := if !ok && create then after.(store := Store(after.store.jobs - {id}, after.store.keys - {key})) else after;
      Queue(Some(kept), disk, records, rest,
            if ok then after.store else s.acked, if ok then {} else s.attempted + {after.store})
    case CrashDuring(id, job, key, plan) =>
      var (after, disk, ok) := Commit(f, s.memory.value, s.disk, id, job, key, compactMin, plan);
      var (records, rest) := Journaled(f, s.memory.value, s.records, s.rest, id, job, key, compactMin, plan);
      Queue(None, disk, records, rest, s.acked, s.attempted + {after.store})
    case Crash => s.(memory := None)
    case Open =>
      var r := Opened(f, s.disk);
      if r.Err? then s
      else
        Queue(Some(r.value.0), r.value.1, if Base(s.disk).number == 0 then [] else s.records, [], r.value.0.store, {})
  }

  // No files yet, or a snapshot without a sequence number.
  ghost predicate Initial(s: Queue) {
    s.memory.None? && Base(s.disk).number == 0 && s.records == [] && s.rest == [] && s.acked == Base(s.disk).store && s.attempted == {}
  }

  ghost predicate CanRun(f: Format, compactMin: nat, s: Queue, events: seq<Event>)
    decreases |events|
  {
    events == [] || (Enabled(s, events[0]) && CanRun(f, compactMin, Step(f, compactMin, s, events[0]), events[1..]))
  }

  function After(f: Format, compactMin: nat, s: Queue, events: seq<Event>): Queue
    requires CanRun(f, compactMin, s, events)
    decreases |events|
  {
    if events == [] then s else After(f, compactMin, Step(f, compactMin, s, events[0]), events[1..])
  }
}
