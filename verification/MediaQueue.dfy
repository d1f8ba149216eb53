// The media queue as it runs: jobs and their index in memory, and the files that
// outlive it.
module MediaQueueCode {
  import opened Results
  import opened TornLog
  import opened Jobs
  import opened QueueStore
  import opened LeaseIndexCode

  datatype QueueError = NoJob | LeaseOwner | JobNotFound | NotDead | Incomplete | NotWritten

  /******* What operations make of a job *******/

  function AsCreated(job: Job, now: int): Job {
    job.(maxAttempts := if job.maxAttempts <= 0 then 5 else job.maxAttempts, state := Queued, createdAt := now, updatedAt := now)
  }

  function AsLeased(job: Job, owner: string, now: int, duration: int): Job {
    job.(state := Leased, attempts := job.attempts + 1, leaseOwner := owner, leaseUntil := now + duration, updatedAt := now)
  }

  function AsRenewed(job: Job, now: int, duration: int): Job {
    job.(leaseUntil := now + duration, updatedAt := now)
  }

  function AsCompleted(job: Job, now: int): Job {
    job.(state := Completed, leaseOwner := "", lastError := "", leaseUntil := 0, updatedAt := now)
  }

  function Doubled(n: nat): nat {
    if n == 0 then 1 else 2 * Doubled(n - 1)
  }

  // Dead after the last attempt; otherwise queued again after a delay that
  // doubles with every attempt, up to a thousandfold.
  function AsFailed(job: Job, message: string, now: int, delay: int): Job {
    var free := job.(leaseOwner := "", leaseUntil := 0, updatedAt := now, lastError := message);
    if job.attempts >= job.maxAttempts then free.(state := Dead)
    else
      var shift := if job.attempts - 1 < 10 then job.attempts - 1 else 10;
      free.(state := Queued, nextAttempt := now + delay * Doubled(if shift < 0 then 0 else shift))
  }

  function AsReplayed(job: Job, now: int): Job {
    job.(state := Queued, attempts := 0, lastError := "", nextAttempt := 0, updatedAt := now)
  }

  // A worker may report on a job only while its own lease runs.
  predicate Owned(job: Job, owner: string, now: int) {
    job.state.Leased? && job.leaseOwner == owner && job.leaseUntil > now
  }

  /******* Requests *******/

  datatype Request =
    | Enqueue(job: Job, now: int)
    | AskLease(owner: string, now: int, duration: int)
    | Renew(id: string, owner: string, now: int, duration: int)
    | Finish(id: string, owner: string, now: int)
    | GiveUp(id: string, owner: string, message: string, now: int, delay: int)
    | Revive(id: string, now: int)

  // The change a worker makes to a job it owns, and nobody else.
  function Reported(jobs: map<string, Job>, id: string, owner: string, now: int, changed: Job -> Job): map<string, Job> {
    if id in jobs && Owned(jobs[id], owner, now) then jobs[id := changed(jobs[id])] else jobs
  }

  // What one request makes of the jobs, whether or not it could be written down.
  ghost predicate Handled(jobs: map<string, Job>, q: Request, after: map<string, Job>) {
    match q
    case Enqueue(job, now) => after == jobs || after == jobs[job.id := AsCreated(job, now)] || after == jobs - {job.id}
    case AskLease(owner, now, duration) =>
      || (Scan(Leasable(jobs), now, None) && after == jobs)
      || (exists id :: id in jobs && Scan(Leasable(jobs), now, Some(id)) && after == jobs[id := AsLeased(jobs[id], owner, now, duration)])
    case Renew(id, owner, now, duration) =>
      after == Reported(jobs, id, owner, now, job => AsRenewed(job, now, duration))
    case Finish(id, owner, now) => after == Reported(jobs, id, owner, now, job => AsCompleted(job, now))
    case GiveUp(id, owner, message, now, delay) =>
      after == Reported(jobs, id, owner, now, job => AsFailed(job, message, now, delay))
    case Revive(id, now) => after == if id in jobs && jobs[id].state.Dead? then jobs[id := AsReplayed(jobs[id], now)] else jobs
  }

  /******* The queue *******/

  class MediaQueue {
    const format: Format
    const compactMin: nat
    const index: LeaseIndex
    var jobs: map<string, Job>
    var keys: map<string, string>
    var number: nat
    var journalSize: nat
    var journalRecords: nat
    var due: bool
    var disk: Disk

    function View(): Memory
      reads this
    {
      Memory(Store(jobs, keys), number, journalSize, journalRecords, due)
    }

    // The index files the jobs that can be leased, and no others.
    ghost predicate Valid()
      reads this, index, index.waiting, index.ready
    {
      index.Valid() && index.Filed() == Leasable(jobs)
    }

    constructor (format: Format, compactMin: nat, m: Memory, disk: Disk)
      ensures index.Valid() && index.Filed() == map[] && fresh(index) && fresh(index.waiting) && fresh(index.ready)
      ensures this.format == format && this.compactMin == compactMin && View() == m && this.disk == disk
    {
      this.format, this.compactMin, this.disk := format, compactMin, disk;
      index := new LeaseIndex();
      jobs, keys, number, journalSize, journalRecords, due := m.store.jobs, m.store.keys, m.number, m.journalSize, m.journalRecords, m.due;
    }

    /******* Changes *******/

    // Changes a job, then writes the change down. Memory has the change either way;
    // if writing failed, the next commit writes a whole snapshot.
    method CommitLocked(id: string, job: Job, key: string, plan: Plan) returns (ok: bool)
      requires Valid() && (key != "" ==> key in keys && keys[key] == id)
      modifies this, index, index.waiting, index.ready
      ensures Valid()
      ensures (View(), disk, ok) == Commit(format, old(View()), old(disk), id, job, key, compactMin, plan)
      ensures jobs == old(jobs)[id := job]
    {
      hide LeaseIndex.Valid, LeaseIndex.Filed, Leasable, AppendStep, SnapshotStep;
      ApplyLocked(id, job);
      number := number + 1;
      assert key != "" ==> keys[key := id] == keys;
      if due || journalRecords >= (if compactMin > |jobs| then compactMin else |jobs|) {
        ok := SnapshotLocked(plan);
      } else {
        ok := AppendLocked(Record(number, id, job, key), plan);
      }
    }

    // Changes a job in memory and files it anew.
    method ApplyLocked(id: string, job: Job)
      requires Valid()
      modifies this`jobs, index, index.waiting, index.ready
      ensures Valid() && jobs == old(jobs)[id := job]
    {
      hide LeasableAt, Items, Split, Heap, Placed, ById;
      FiledAfter(id, job);
      jobs := jobs[id := job];
      index.Update(id, job);
    }

    lemma FiledAfter(id: string, job: Job)
      ensures Leasable(jobs[id := job])
        == if LeasableAt(job).None? then Leasable(jobs) - {id}
           else Leasable(jobs)[id := Item(id, job.createdAt, LeasableAt(job).value)]
    {
    }

    method AppendLocked(r: Record, plan: Plan) returns (ok: bool)
      modifies this`disk, this`journalSize, this`journalRecords, this`due
      ensures (View(), disk, ok) == AppendStep(format, old(View()), old(disk), r, plan)
    {
      hide Line;
      var line := Line(format.crc, format.encode(r));
      var written := if plan.synced || plan.written >= |line| then |line| else plan.written;
      disk := disk.(journal := disk.journal + line[..written]);
      assert line[..|line|] == line;
      if !plan.synced {
        // The line may be in the file all the same. Cut it off if that works; the
        // next commit is a snapshot anyway.
        if plan.truncated && journalSize <= |disk.journal| {
          disk := disk.(journal := disk.journal[..journalSize]);
        }
        due := true;
        return false;
      }
      journalSize := journalSize + |line|;
      journalRecords := journalRecords + 1;
      ok := true;
    }

    method SnapshotLocked(plan: Plan) returns (ok: bool)
      modifies this`disk, this`journalSize, this`journalRecords, this`due
      ensures (View(), disk, ok) == SnapshotStep(old(View()), old(disk), plan)
    {
      // Stays so unless every step below succeeds.
      due := true;
      if !plan.renamed {
        return false;
      }
      disk := disk.(snapshot := Some(Saved(Store(jobs, keys), number)));
      if !plan.emptied.NotEmptied? {
        disk := disk.(journal := []);
        if plan.emptied.Done? {
          journalSize, journalRecords, due := 0, 0, false;
        }
      }
      ok := true;
    }

    /******* Operations *******/

    // Queues a job once for its idempotency key. A job that could not be written
    // down is forgotten again.
    method Create(job: Job, now: int, plan: Plan) returns (r: Result<(Job, bool), QueueError>)
      requires Valid() && KeysOk(View().store)
      modifies this, index, index.waiting, index.ready
      ensures Valid()
      ensures job.key in old(keys) ==> r == Ok((old(jobs)[old(keys)[job.key]], false)) && View() == old(View()) && disk == old(disk)
      ensures job.key !in old(keys) && (job.id == "" || job.key == "" || job.input == "" || job.output == "") ==>
        r == Err(Incomplete) && View() == old(View()) && disk == old(disk)
      ensures job.key !in old(keys) && job.id != "" && job.key != "" && job.input != "" && job.output != "" ==>
        var (m, d, ok) := Commit(format, old(View()), old(disk), job.id, AsCreated(job, now), job.key, compactMin, plan);
        && disk == d && r == (if ok then Ok((AsCreated(job, now), true)) else Err(NotWritten))
        && View() == if ok then m else m.(store := Store(m.store.jobs - {job.id}, m.store.keys - {job.key}))
      ensures Handled(old(jobs), Enqueue(job, now), jobs)
    {
      hide LeasableAt, Items, Split, Heap, Placed, ById, Commit, Leasable;
      if job.key in keys {
        return Ok((jobs[keys[job.key]], false));
      }
      if job.id == "" || job.key == "" || job.input == "" || job.output == "" {
        return Err(Incomplete);
      }
      ghost var before := View();
      var created := AsCreated(job, now);
      keys := keys[job.key := job.id];
      SameCommit(format, before, disk, created, job.id, job.key, compactMin, plan);
      var ok := CommitLocked(job.id, created, job.key, plan);
      if !ok {
        FiledWithout(job.id);
        CommitStore(format, before, old(disk), job.id, created, job.key, compactMin, plan);
        jobs := jobs - {job.id};
        keys := keys - {job.key};
        index.Remove(job.id);
        return Err(NotWritten);
      }
      r := Ok((created, true));
    }

    lemma FiledWithout(id: string)
      ensures Leasable(jobs - {id}) == Leasable(jobs) - {id}
    {
    }

    // Leases what a scan finds to a worker.
    method Lease(owner: string, now: int, duration: int, plan: Plan) returns (r: Result<Job, QueueError>, ghost found: Option<string>)
      requires Valid()
      modifies this, index, index.waiting, index.ready
      ensures Valid() && Scan(Leasable(old(jobs)), now, found)
      ensures found.None? ==> r == Err(NoJob) && View() == old(View()) && disk == old(disk)
      ensures found.Some? ==> found.value in old(jobs)
      ensures found.Some? ==>
        var job := AsLeased(old(jobs)[found.value], owner, now, duration);
        var (m, d, ok) := Commit(format, old(View()), old(disk), found.value, job, "", compactMin, plan);
        View() == m && disk == d && r == if ok then Ok(job) else Err(NotWritten)
      ensures Handled(old(jobs), AskLease(owner, now, duration), jobs)
    {
      hide LeasableAt, Items, Split, Heap, Placed, ById, Commit, Before, Leasable;
      var id := index.Next(now);
      found := id;
      if id.None? {
        return Err(NoJob), found;
      }
      FoundIsJob(id.value, now);
      var job := AsLeased(jobs[id.value], owner, now, duration);
      var ok := CommitLocked(id.value, job, "", plan);
      r := if ok then Ok(job) else Err(NotWritten);
    }

    lemma FoundIsJob(id: string, now: int)
      requires Scan(Leasable(jobs), now, Some(id))
      ensures id in jobs
    {
    }

    // Changes a job its owner reports on.
    method Report(id: string, owner: string, now: int, changed: Job, plan: Plan) returns (r: Result<Job, QueueError>)
      requires Valid() && id in jobs && Owned(jobs[id], owner, now)
      modifies this, index, index.waiting, index.ready
      ensures Valid()
      ensures var (m, d, ok) := Commit(format, old(View()), old(disk), id, changed, "", compactMin, plan);
        View() == m && disk == d && r == if ok then Ok(changed) else Err(NotWritten)
      ensures jobs == old(jobs)[id := changed]
    {
      hide LeasableAt, Items, Split, Heap, Placed, ById, Commit;
      var ok := CommitLocked(id, changed, "", plan);
      r := if ok then Ok(changed) else Err(NotWritten);
    }

    method OwnedLocked(id: string, owner: string, now: int) returns (error: Option<QueueError>)
      ensures error == if id !in jobs then Some(JobNotFound) else if !Owned(jobs[id], owner, now) then Some(LeaseOwner) else None
    {
      if id !in jobs {
        return Some(JobNotFound);
      }
      if !jobs[id].state.Leased? || jobs[id].leaseOwner != owner || !(jobs[id].leaseUntil > now) {
        return Some(LeaseOwner);
      }
      error := None;
    }

    method Heartbeat(id: string, owner: string, now: int, duration: int, plan: Plan) returns (r: Result<Job, QueueError>)
      requires Valid()
      modifies this, index, index.waiting, index.ready
      ensures Valid()
      ensures id !in old(jobs) ==> r == Err(JobNotFound) && View() == old(View()) && disk == old(disk)
      ensures id in old(jobs) && !Owned(old(jobs)[id], owner, now) ==> r == Err(LeaseOwner) && View() == old(View()) && disk == old(disk)
      ensures id in old(jobs) && Owned(old(jobs)[id], owner, now) ==>
        var job := AsRenewed(old(jobs)[id], now, duration);
        var (m, d, ok) := Commit(format, old(View()), old(disk), id, job, "", compactMin, plan);
        View() == m && disk == d && r == if ok then Ok(job) else Err(NotWritten)
      ensures Handled(old(jobs), Renew(id, owner, now, duration), jobs)
    {
      hide LeasableAt, Items, Split, Heap, Placed, ById, Commit;
      var error := OwnedLocked(id, owner, now);
      if error.Some? {
        return Err(error.value);
      }
      r := Report(id, owner, now, AsRenewed(jobs[id], now, duration), plan);
    }

    method Complete(id: string, owner: string, now: int, plan: Plan) returns (r: Result<Job, QueueError>)
      requires Valid()
      modifies this, index, index.waiting, index.ready
      ensures Valid()
      ensures id !in old(jobs) ==> r == Err(JobNotFound) && View() == old(View()) && disk == old(disk)
      ensures id in old(jobs) && !Owned(old(jobs)[id], owner, now) ==> r == Err(LeaseOwner) && View() == old(View()) && disk == old(disk)
      ensures id in old(jobs) && Owned(old(jobs)[id], owner, now) ==>
        var (m, d, ok) := Commit(format, old(View()), old(disk), id, AsCompleted(old(jobs)[id], now), "", compactMin, plan);
        View() == m && disk == d && r == if ok then Ok(AsCompleted(old(jobs)[id], now)) else Err(NotWritten)
      ensures Handled(old(jobs), Finish(id, owner, now), jobs)
    {
      hide LeasableAt, Items, Split, Heap, Placed, ById, Commit;
      var error := OwnedLocked(id, owner, now);
      if error.Some? {
        return Err(error.value);
      }
      r := Report(id, owner, now, AsCompleted(jobs[id], now), plan);
    }

    method Fail(id: string, owner: string, message: string, now: int, delay: int, plan: Plan) returns (r: Result<Job, QueueError>)
      requires Valid()
      modifies this, index, index.waiting, index.ready
      ensures Valid()
      ensures id !in old(jobs) ==> r == Err(JobNotFound) && View() == old(View()) && disk == old(disk)
      ensures id in old(jobs) && !Owned(old(jobs)[id], owner, now) ==> r == Err(LeaseOwner) && View() == old(View()) && disk == old(disk)
      ensures id in old(jobs) && Owned(old(jobs)[id], owner, now) ==>
        var (m, d, ok) := Commit(format, old(View()), old(disk), id, AsFailed(old(jobs)[id], message, now, delay), "", compactMin, plan);
        View() == m && disk == d && r == if ok then Ok(AsFailed(old(jobs)[id], message, now, delay)) else Err(NotWritten)
      ensures Handled(old(jobs), GiveUp(id, owner, message, now, delay), jobs)
    {
      hide LeasableAt, Items, Split, Heap, Placed, ById, Commit, AsFailed;
      var error := OwnedLocked(id, owner, now);
      if error.Some? {
        return Err(error.value);
      }
      r := Report(id, owner, now, AsFailed(jobs[id], message, now, delay), plan);
    }

    method ReplayDead(id: string, now: int, plan: Plan) returns (r: Result<Job, QueueError>)
      requires Valid()
      modifies this, index, index.waiting, index.ready
      ensures Valid()
      ensures id !in old(jobs) ==> r == Err(JobNotFound) && View() == old(View()) && disk == old(disk)
      ensures id in old(jobs) && !old(jobs)[id].state.Dead? ==> r == Err(NotDead) && View() == old(View()) && disk == old(disk)
      ensures id in old(jobs) && old(jobs)[id].state.Dead? ==>
        var (m, d, ok) := Commit(format, old(View()), old(disk), id, AsReplayed(old(jobs)[id], now), "", compactMin, plan);
        View() == m && disk == d && r == if ok then Ok(AsReplayed(old(jobs)[id], now)) else Err(NotWritten)
      ensures Handled(old(jobs), Revive(id, now), jobs)
    {
      hide LeasableAt, Items, Split, Heap, Placed, ById, Commit;
      if id !in jobs {
        return Err(JobNotFound);
      }
      if !jobs[id].state.Dead? {
        return Err(NotDead);
      }
      var job := AsReplayed(jobs[id], now);
      var ok := CommitLocked(id, job, "", plan);
      r := if ok then Ok(job) else Err(NotWritten);
    }

    // Files every job, once the files are read.
    method FileAll()
      requires index.Valid() && index.Filed() == map[]
      modifies index, index.waiting, index.ready
      ensures Valid()
    {
      hide LeasableAt, Items, Split, Heap, Placed, ById;
      var todo := jobs.Keys;
      while todo != {}
        invariant todo <= jobs.Keys && index.Valid()
        invariant index.Filed() == Leasable(jobs - todo)
        decreases |todo|
      {
        var id :| id in todo;
        FiledNext(jobs, todo, id);
        todo := todo - {id};
        index.Update(id, jobs[id]);
      }
      assert jobs - {} == jobs;
    }
  }

  lemma FiledNext(jobs: map<string, Job>, todo: set<string>, id: string)
    requires id in todo && id in jobs
    ensures Leasable(jobs - (todo - {id}))
      == if LeasableAt(jobs[id]).None? then Leasable(jobs - todo) - {id}
         else Leasable(jobs - todo)[id := Item(id, jobs[id].createdAt, LeasableAt(jobs[id]).value)]
  {
  }

  // Setting the key first changes nothing about the commit.
  lemma SameCommit(f: Format, m: Memory, d: Disk, job: Job, id: string, key: string, compactMin: nat, plan: Plan)
    requires key != ""
    ensures Commit(f, m.(store := Store(m.store.jobs, m.store.keys[key := id])), d, id, job, key, compactMin, plan)
         == Commit(f, m, d, id, job, key, compactMin, plan)
  {
    hide SnapshotStep, AppendStep;
    assert m.store.keys[key := id][key := id] == m.store.keys[key := id];
  }

  /******* Opening *******/

  lemma DecodedNext(f: Format, payloads: seq<Bytes>, k: nat)
    requires k < |payloads|
    ensures DecodedAll(f, payloads[..0]) == Some([])
    ensures var before, r := DecodedAll(f, payloads[..k]), f.decode(payloads[k]);
      DecodedAll(f, payloads[..k + 1]) == if before.None? || r.None? || r.value.id == "" then None else Some(before.value + [r.value])
  {
    assert payloads[..k + 1][..k] == payloads[..k];
  }

  lemma {:induction false} DecodedPrefix(f: Format, payloads: seq<Bytes>, k: nat)
    requires k <= |payloads| && DecodedAll(f, payloads[..k]).None?
    ensures DecodedAll(f, payloads).None?
    decreases |payloads| - k
  {
    hide DecodedAll;
    if k == |payloads| {
      assert payloads[..k] == payloads;
    } else {
      DecodedNext(f, payloads, k);
      DecodedPrefix(f, payloads, k + 1);
    }
  }

  lemma ReplayedOne(saved: Saved, records: seq<Record>, r: Record)
    ensures Replayed(saved, records + [r]) == if r.number > saved.number then Applied(Replayed(saved, records), r) else Replayed(saved, records)
    ensures Latest(saved.number, records + [r]) == if r.number > Latest(saved.number, records) then r.number else Latest(saved.number, records)
    ensures Replayed(saved, []) == saved.store && Latest(saved.number, []) == saved.number
  {
    assert (records + [r])[..|records|] == records;
  }

  // The store after the journal: older lines than the snapshot's count for nothing.
  method ReplayJournal(f: Format, saved: Saved, payloads: seq<Bytes>) returns (r: Option<(Store, nat)>, ghost records: seq<Record>)
    ensures DecodedAll(f, payloads) == if r.Some? then Some(records) else None
    ensures r.Some? ==> r.value == (Replayed(saved, records), Latest(saved.number, records)) && |records| == |payloads|
  {
    hide DecodedAll, Replayed, Latest;
    var jobs, keys, number := saved.store.jobs, saved.store.keys, saved.number;
    records := [];
    NothingDecoded(f, payloads, saved);
    for k := 0 to |payloads|
      invariant DecodedAll(f, payloads[..k]) == Some(records) && |records| == k
      invariant Store(jobs, keys) == Replayed(saved, records) && number == Latest(saved.number, records)
    {
      DecodedNext(f, payloads, k);
      var decoded := f.decode(payloads[k]);
      if decoded.None? || decoded.value.id == "" {
        DecodedPrefix(f, payloads, k + 1);
        return None, records;
      }
      var record := decoded.value;
      ReplayedOne(saved, records, record);
      NotBelow(saved, records);
      if record.number > saved.number {
        jobs := jobs[record.id := record.job];
        if record.key != "" {
          keys := keys[record.key := record.id];
        }
        number := if record.number > number then record.number else number;
      }
      records := records + [record];
    }
    assert payloads[..|payloads|] == payloads;
    r := Some((Store(jobs, keys), number));
  }

  lemma NotBelow(saved: Saved, records: seq<Record>)
    ensures Latest(saved.number, records) >= saved.number
  {
  }

  lemma NothingDecoded(f: Format, payloads: seq<Bytes>, saved: Saved)
    ensures DecodedAll(f, payloads[..0]) == Some([]) && Replayed(saved, []) == saved.store && Latest(saved.number, []) == saved.number
  {
  }

  // A queue from its two files.
  method OpenQueue(f: Format, compactMin: nat, disk: Disk) returns (r: Result<MediaQueue, OpenError>)
    ensures r.Err? ==> Opened(f, disk) == Err(r.error)
    ensures r.Ok? ==>
      && fresh(r.value) && r.value.Valid() && r.value.format == f && r.value.compactMin == compactMin
      && Opened(f, disk) == Ok((r.value.View(), r.value.disk))
  {
    hide DecodedAll, Replayed, Latest, ReadFrom;
    var base := Saved(NoStore, 0);
    if disk.snapshot.Some? {
      base := disk.snapshot.value;
    }
    var memory := Memory(base.store, 0, 0, 0, true);
    var journal: Bytes := [];
    if base.number != 0 {
      var read := ReadRecords(f.crc, disk.journal);
      if read.Err? {
        return Err(CorruptJournal(read.error.at));
      }
      var replayed, _ := ReplayJournal(f, base, read.value.records);
      if replayed.None? {
        return Err(Undecodable);
      }
      OffsetWithin(f.crc, disk.journal, 0);
      journal := disk.journal[..read.value.offset];
      memory := Memory(replayed.value.0, replayed.value.1, read.value.offset, |read.value.records|, false);
    }
    var queue := new MediaQueue(f, compactMin, memory, disk.(journal := journal));
    queue.FileAll();
    r := Ok(queue);
  }
}
