// What runs of requests keep: a lease stays its owner's until it ends, crashes or
// not, and a job is leased more often than its maximum in exactly one way.
module Leases {
  import opened Results
  import opened Jobs
  import opened QueueStore
  import opened QueueRecovery
  import opened MediaQueueCode

  /******* Whose a lease is *******/

  // A request of somebody other than the owner of job id, for a new job or at a
  // reading of the clock before time end.
  predicate Foreign(q: Request, id: string, owner: string, end: int) {
    match q
    case Enqueue(job, _) => job.id != id
    case AskLease(_, now, _) => now < end
    case Renew(_, other, _, _) => other != owner
    case Finish(_, other, _) => other != owner
    case GiveUp(_, other, _, _, _) => other != owner
    case Revive(_, _) => true
  }

  lemma ForeignLeavesJob(jobs: map<string, Job>, q: Request, after: map<string, Job>, id: string, owner: string)
    requires id in jobs && jobs[id].state.Leased? && jobs[id].leaseOwner == owner
    requires Handled(jobs, q, after) && Foreign(q, id, owner, jobs[id].leaseUntil)
    ensures id in after && after[id] == jobs[id]
  {
    hide Before;
  }

  // Until its lease ends, a leased job changes only by its owner: no run of
  // requests of other workers, at whatever earlier clock readings, touches it.
  lemma {:induction false} LeaseIsExclusive(trace: seq<map<string, Job>>, requests: seq<Request>, id: string, owner: string)
    requires |trace| == |requests| + 1
    requires forall k :: 0 <= k < |requests| ==> Handled(trace[k], requests[k], trace[k + 1])
    requires id in trace[0] && trace[0][id].state.Leased? && trace[0][id].leaseOwner == owner
    requires forall k :: 0 <= k < |requests| ==> Foreign(requests[k], id, owner, trace[0][id].leaseUntil)
    ensures id in trace[|requests|] && trace[|requests|][id] == trace[0][id]
    decreases |requests|
  {
    hide Handled, Foreign;
    var n := |requests|;
    if n > 0 {
      LeaseIsExclusive(trace[..n], requests[..n - 1], id, owner);
      assert Handled(trace[n - 1], requests[n - 1], trace[n - 1 + 1]);
      ForeignLeavesJob(trace[n - 1], requests[n - 1], trace[n], id, owner);
    }
  }

  /******* Leases and crashes *******/

  predicate Holds(s: Store, id: string, job: Job) {
    id in s.jobs && s.jobs[id] == job
  }

  // In memory, and in every store that opening the files can bring back.
  ghost predicate HeldEverywhere(s: Queue, id: string, job: Job) {
    && (s.memory.Some? ==> Holds(s.memory.value.store, id, job))
    && Holds(s.acked, id, job) && forall t :: t in s.attempted ==> Holds(t, id, job)
  }

  // A change that a request of somebody else makes, before time end.
  ghost predicate ForeignEvent(s: Queue, e: Event, id: string, owner: string, end: int) {
    (e.Change? || e.CrashDuring?) && s.memory.Some? ==>
      exists q: Request :: Foreign(q, id, owner, end) && Handled(s.memory.value.store.jobs, q, s.memory.value.store.jobs[e.id := e.job])
  }

  ghost predicate OthersOnly(f: Format, compactMin: nat, s: Queue, events: seq<Event>, id: string, owner: string, end: int)
    decreases |events|
  {
    events == [] ||
      (Enabled(s, events[0]) && ForeignEvent(s, events[0], id, owner, end)
       && OthersOnly(f, compactMin, Step(f, compactMin, s, events[0]), events[1..], id, owner, end))
  }

  lemma ForeignChange(m: Memory, s: Queue, e: Event, id: string, job: Job)
    requires s.memory == Some(m) && (e.Change? || e.CrashDuring?) && Holds(m.store, id, job) && job.state.Leased?
    requires ForeignEvent(s, e, id, job.leaseOwner, job.leaseUntil)
    ensures Holds(Applied(m.store, Record(m.number + 1, e.id, e.job, e.key)), id, job)
  {
    hide Handled, Foreign;
    var q: Request :| Foreign(q, id, job.leaseOwner, job.leaseUntil) && Handled(m.store.jobs, q, m.store.jobs[e.id := e.job]);
    ForeignLeavesJob(m.store.jobs, q, m.store.jobs[e.id := e.job], id, job.leaseOwner);
  }

  lemma ChangeHolds(f: Format, compactMin: nat, s: Queue, e: Event, id: string, job: Job)
    requires Enabled(s, e) && (e.Change? || e.CrashDuring?) && HeldEverywhere(s, id, job) && job.state.Leased?
    requires ForeignEvent(s, e, id, job.leaseOwner, job.leaseUntil)
    ensures HeldEverywhere(Step(f, compactMin, s, e), id, job)
  {
    hide Commit, Journaled, ForeignEvent, Applied;
    var m := s.memory.value;
    ForeignChange(m, s, e, id, job);
    CommitStore(f, m, s.disk, e.id, e.job, e.key, compactMin, e.plan);
    if e.Change? && e.create && !Commit(f, m, s.disk, e.id, e.job, e.key, compactMin, e.plan).2 {
      FailedCreateUndone(f, compactMin, s, e);
    }
  }

  lemma StepHolds(f: Format, compactMin: nat, s: Queue, e: Event, id: string, job: Job)
    requires FormatOk(f) && QueueOk(f, s) && Enabled(s, e) && HeldEverywhere(s, id, job) && job.state.Leased?
    requires ForeignEvent(s, e, id, job.leaseOwner, job.leaseUntil)
    ensures HeldEverywhere(Step(f, compactMin, s, e), id, job)
  {
    hide FormatOk, Opened, ForeignEvent, Commit, Journaled, MemoryOk, Numbered, Encoded;
    match e
    case Change(_, _, _, _, _) => ChangeHolds(f, compactMin, s, e, id, job);
    case CrashDuring(_, _, _, _) => ChangeHolds(f, compactMin, s, e, id, job);
    case Crash =>
    case Open => OpensAs(f, s);
  }

  lemma {:induction false} RunHolds(f: Format, compactMin: nat, s: Queue, events: seq<Event>, id: string, job: Job)
    requires FormatOk(f) && QueueOk(f, s) && HeldEverywhere(s, id, job) && job.state.Leased?
    requires CanRun(f, compactMin, s, events) && OthersOnly(f, compactMin, s, events, id, job.leaseOwner, job.leaseUntil)
    ensures HeldEverywhere(After(f, compactMin, s, events), id, job)
    decreases |events|
  {
    hide FormatOk, QueueOk, Enabled, Step, HeldEverywhere, ForeignEvent;
    if events != [] {
      StepHolds(f, compactMin, s, events[0], id, job);
      StepKeeps(f, compactMin, s, events[0]);
      RunHolds(f, compactMin, Step(f, compactMin, s, events[0]), events[1..], id, job);
    }
  }

  // An acknowledged lease outlives crashes: whatever other workers ask for before
  // it ends, and however often writes fail and the process stops and opens the
  // queue again, the job stays leased to its owner.
  lemma LeaseOutlivesCrashes(f: Format, compactMin: nat, s: Queue, events: seq<Event>, e: Event, more: seq<Event>)
    requires FormatOk(f) && Initial(s) && CanRun(f, compactMin, s, events)
    requires e.Change? && e.job.state.Leased? && Enabled(After(f, compactMin, s, events), e)
    requires Commit(f, After(f, compactMin, s, events).memory.value, After(f, compactMin, s, events).disk, e.id, e.job, e.key, compactMin, e.plan).2
    requires var t := Step(f, compactMin, After(f, compactMin, s, events), e);
      CanRun(f, compactMin, t, more) && OthersOnly(f, compactMin, t, more, e.id, e.job.leaseOwner, e.job.leaseUntil)
    ensures var u := After(f, compactMin, Step(f, compactMin, After(f, compactMin, s, events), e), more);
      && (u.memory.Some? ==> Holds(u.memory.value.store, e.id, e.job))
      && Opened(f, u.disk).Ok? && Holds(Opened(f, u.disk).value.0.store, e.id, e.job)
  {
    hide FormatOk, Opened, Commit, Journaled, CanRun, OthersOnly, Encoded;
    assert QueueOk(f, s);
    RunKeeps(f, compactMin, s, events);
    var before := After(f, compactMin, s, events);
    var t := Step(f, compactMin, before, e);
    StepKeeps(f, compactMin, before, e);
    CommitStore(f, before.memory.value, before.disk, e.id, e.job, e.key, compactMin, e.plan);
    RunHolds(f, compactMin, t, more, e.id, e.job);
    RunKeeps(f, compactMin, t, more);
    OpensAs(f, After(f, compactMin, t, more));
  }

  /******* How often a job is leased *******/

  // No job waits in the queue with its attempts used up.
  ghost predicate Sound(jobs: map<string, Job>) {
    forall id :: id in jobs ==> jobs[id].maxAttempts > 0 && (jobs[id].state.Queued? ==> jobs[id].attempts < jobs[id].maxAttempts)
  }

  // New jobs come without attempts.
  predicate NewJobs(q: Request) {
    q.Enqueue? ==> q.job.attempts == 0
  }

  predicate Over(jobs: map<string, Job>, id: string) {
    id in jobs && jobs[id].attempts > jobs[id].maxAttempts
  }

  // A lease that ended without a word from its worker is given out again, and it
  // was the job's last.
  ghost predicate LeasedOnceMore(jobs: map<string, Job>, q: Request, id: string) {
    && q.AskLease? && id in jobs && Scan(Leasable(jobs), q.now, Some(id))
    && jobs[id].state.Leased? && jobs[id].leaseUntil <= q.now && jobs[id].attempts == jobs[id].maxAttempts
  }

  lemma SoundKept(jobs: map<string, Job>, q: Request, after: map<string, Job>)
    requires Sound(jobs) && NewJobs(q) && Handled(jobs, q, after)
    ensures Sound(after)
  {
    hide Before, Doubled;
  }

  // One request takes a job over its maximum exactly when it leases the job once
  // more.
  lemma OverStep(jobs: map<string, Job>, q: Request, after: map<string, Job>, id: string)
    requires Sound(jobs) && NewJobs(q) && Handled(jobs, q, after) && !Over(jobs, id)
    ensures Over(after, id) <==> LeasedOnceMore(jobs, q, id)
  {
    hide Before, Doubled;
    if q.AskLease? {
      LeaseOver(jobs, q, after, id);
    }
  }

  lemma LeaseOver(jobs: map<string, Job>, q: Request, after: map<string, Job>, id: string)
    requires Sound(jobs) && q.AskLease? && Handled(jobs, q, after) && !Over(jobs, id)
    ensures Over(after, id) <==> LeasedOnceMore(jobs, q, id)
  {
    hide Before;
    if leased: string :| leased in jobs && Scan(Leasable(jobs), q.now, Some(leased)) && after == jobs[leased := AsLeased(jobs[leased], q.owner, q.now, q.duration)] {
      if Scan(Leasable(jobs), q.now, Some(id)) {
        ScanUnique(Leasable(jobs), q.now, Some(id), Some(leased));
      }
      assert Leasable(jobs)[leased].due <= q.now;
    } else if Scan(Leasable(jobs), q.now, Some(id)) {
      ScanUnique(Leasable(jobs), q.now, Some(id), None);
      assert false;
    }
  }

  // Over a whole run from an empty queue: a job exceeds its maximum if and only if
  // it was leased once more after its last attempt.
  lemma {:induction false} AttemptsExceedExactly(trace: seq<map<string, Job>>, requests: seq<Request>, id: string)
    requires |trace| == |requests| + 1 && trace[0] == map[]
    requires forall k :: 0 <= k < |requests| ==> Handled(trace[k], requests[k], trace[k + 1]) && NewJobs(requests[k])
    ensures (exists k :: 0 <= k < |trace| && Over(trace[k], id))
      <==> exists k :: 0 <= k < |requests| && LeasedOnceMore(trace[k], requests[k], id)
    ensures Sound(trace[|requests|])
    decreases |requests|
  {
    hide Handled, LeasedOnceMore, Sound;
    var n := |requests|;
    if n == 0 {
      NothingSound(trace[0]);
    } else {
      var init, asked := trace[..n], requests[..n - 1];
      AttemptsExceedExactly(init, asked, id);
      assert Handled(trace[n - 1], requests[n - 1], trace[n - 1 + 1]);
      SoundKept(trace[n - 1], requests[n - 1], trace[n]);
      assert forall k :: 0 <= k < n ==> init[k] == trace[k];
      assert forall k :: 0 <= k < n - 1 ==> asked[k] == requests[k];
      if !Over(trace[n - 1], id) {
        OverStep(trace[n - 1], requests[n - 1], trace[n], id);
      } else {
        OverEarlier(init, asked, trace, requests, id);
      }
      if exists k :: 0 <= k < |asked| && LeasedOnceMore(init[k], asked[k], id) {
        var k :| 0 <= k < |asked| && LeasedOnceMore(init[k], asked[k], id);
        assert LeasedOnceMore(trace[k], requests[k], id);
      }
    }
  }

  lemma NothingSound(jobs: map<string, Job>)
    requires jobs == map[]
    ensures Sound(jobs)
  {
  }

  lemma OverEarlier(init: seq<map<string, Job>>, asked: seq<Request>, trace: seq<map<string, Job>>, requests: seq<Request>, id: string)
    requires init <= trace && asked <= requests && |trace| == |requests| + 1 && |init| == |asked| + 1 && Over(init[|init| - 1], id)
    requires (exists k :: 0 <= k < |init| && Over(init[k], id)) <==> exists k :: 0 <= k < |asked| && LeasedOnceMore(init[k], asked[k], id)
    ensures exists k :: 0 <= k < |requests| && LeasedOnceMore(trace[k], requests[k], id)
    ensures exists k :: 0 <= k < |trace| && Over(trace[k], id)
  {
    hide LeasedOnceMore, Over;
    var k :| 0 <= k < |asked| && LeasedOnceMore(init[k], asked[k], id);
    assert LeasedOnceMore(trace[k], requests[k], id);
    assert Over(trace[|init| - 1], id);
  }

  const OneTry: Job := Job("job", "", 0, "key", "in", "out", Queued, 0, 1, "", 0, 0, "", 0, 0)

  // A job with one attempt, leased, forgotten by its worker, and leased again.
  lemma AttemptsCanExceed() returns (trace: seq<map<string, Job>>, requests: seq<Request>)
    ensures |trace| == |requests| + 1 && trace[0] == map[]
    ensures forall k :: 0 <= k < |requests| ==> Handled(trace[k], requests[k], trace[k + 1]) && NewJobs(requests[k])
    ensures Over(trace[|requests|], "job")
  {
    hide Before;
    var queued := AsCreated(OneTry, 0);
    var leased := AsLeased(queued, "first", 0, 10);
    var again := AsLeased(leased, "second", 10, 10);
    trace := [map[], map["job" := queued], map["job" := leased], map["job" := again]];
    requests := [Enqueue(OneTry, 0), AskLease("first", 0, 10), AskLease("second", 10, 10)];
    assert trace[1] == trace[0]["job" := queued];
    assert Scan(Leasable(trace[1]), 0, Some("job")) && trace[2] == trace[1]["job" := AsLeased(trace[1]["job"], "first", 0, 10)];
    assert Scan(Leasable(trace[2]), 10, Some("job")) && trace[3] == trace[2]["job" := AsLeased(trace[2]["job"], "second", 10, 10)];
  }
}
