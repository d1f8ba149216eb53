// What becomes of jobs over a run of requests: each is tried until it is finished
// or its attempts are used up.
module JobFates {
  import opened Results
  import opened Jobs
  import opened MediaQueueCode

  // New jobs have new ids and no attempts behind them.
  ghost predicate NewJob(jobs: map<string, Job>, q: Request) {
    q.Enqueue? ==> q.job.id !in jobs && q.job.attempts == 0
  }

  /******* What can happen to a job *******/

  ghost predicate Leases(jobs: map<string, Job>, q: Request, id: string) {
    q.AskLease? && id in jobs && Scan(Leasable(jobs), q.now, Some(id))
  }

  // The worker that holds the lease of job id makes request q.
  predicate ByOwner(jobs: map<string, Job>, q: Request, id: string) {
    && (q.Renew? || q.Finish? || q.GiveUp?) && q.id == id
    && id in jobs && Owned(jobs[id], q.owner, q.now)
  }

  predicate Finishes(jobs: map<string, Job>, q: Request, id: string) { q.Finish? && ByOwner(jobs, q, id) }

  predicate Fails(jobs: map<string, Job>, q: Request, id: string) { q.GiveUp? && ByOwner(jobs, q, id) }

  predicate LastAttempt(job: Job) { job.attempts >= job.maxAttempts }

  predicate Revives(jobs: map<string, Job>, q: Request, id: string) {
    q.Revive? && q.id == id && id in jobs && jobs[id].state.Dead?
  }

  // Nobody's lease on the job runs, now or ever.
  ghost predicate Free(job: Job) {
    forall owner: string, now: int :: !Owned(job, owner, now)
  }

  // How much longer the wait gets: twice as long after each failure, up to the
  // eleventh.
  function Backoff(attempts: nat): nat
    requires attempts > 0
  {
    if attempts == 1 then 1 else if attempts <= 11 then 2 * Backoff(attempts - 1) else Backoff(attempts - 1)
  }

  lemma {:induction false} BackoffIs(attempts: nat)
    requires attempts > 0
    ensures Backoff(attempts) == Doubled(if attempts - 1 < 10 then attempts - 1 else 10)
  {
    if attempts > 1 {
      BackoffIs(attempts - 1);
    }
  }

  ghost predicate StatesOk(jobs: map<string, Job>) {
    forall id :: id in jobs ==>
      && jobs[id].attempts >= 0 && (jobs[id].state.Leased? ==> jobs[id].attempts > 0)
      && (jobs[id].state.Dead? ==> LastAttempt(jobs[id]))
  }

  /******* One request *******/

  lemma Kept(jobs: map<string, Job>, q: Request, after: map<string, Job>, id: string)
    requires Handled(jobs, q, after) && NewJob(jobs, q)
    ensures id in jobs ==> id in after
    ensures id in after && id !in jobs ==> after[id].state.Queued? && after[id].attempts == 0
  {
    hide Before, Doubled;
  }

  // Only a lease, its owner and a replay change what state a job is in.
  lemma Untouched(jobs: map<string, Job>, q: Request, after: map<string, Job>, id: string)
    requires Handled(jobs, q, after) && NewJob(jobs, q) && id in jobs
    requires !Leases(jobs, q, id) && !ByOwner(jobs, q, id) && !Revives(jobs, q, id)
    ensures id in after && after[id] == jobs[id]
  {
    hide Before, Doubled;
  }

  lemma Leased(jobs: map<string, Job>, q: Request, after: map<string, Job>, id: string)
    requires Handled(jobs, q, after) && Leases(jobs, q, id)
    ensures id in after && after[id].state.Leased? && after[id].attempts == jobs[id].attempts + 1 && after[id].maxAttempts == jobs[id].maxAttempts
    ensures after[id].leaseOwner == q.owner && after[id].leaseUntil == q.now + q.duration
    ensures jobs[id].state.Queued? || (jobs[id].state.Leased? && jobs[id].leaseUntil <= q.now)
  {
    hide Before;
    if leased: string :| leased in jobs && Scan(Leasable(jobs), q.now, Some(leased)) && after == jobs[leased := AsLeased(jobs[leased], q.owner, q.now, q.duration)] {
      ScanUnique(Leasable(jobs), q.now, Some(id), Some(leased));
    } else {
      ScanUnique(Leasable(jobs), q.now, Some(id), None);
    }
  }

  lemma Told(jobs: map<string, Job>, q: Request, after: map<string, Job>, id: string)
    requires Handled(jobs, q, after) && ByOwner(jobs, q, id)
    ensures id in after && after[id].attempts == jobs[id].attempts && after[id].maxAttempts == jobs[id].maxAttempts
    ensures q.Renew? ==> after[id].state.Leased? && after[id].leaseOwner == q.owner && after[id].leaseUntil == q.now + q.duration
    ensures q.Finish? ==> after[id].state.Completed?
    ensures q.GiveUp? ==> if LastAttempt(jobs[id]) then after[id].state.Dead? else after[id].state.Queued?
  {
    hide Doubled;
  }

  lemma Replayed(jobs: map<string, Job>, q: Request, after: map<string, Job>, id: string)
    requires Handled(jobs, q, after) && Revives(jobs, q, id)
    ensures id in after && after[id].state.Queued? && after[id].attempts == 0 && LeasableAt(after[id]) == Some(0)
  {
  }

  // A failure before the last attempt frees the job and makes it due again, after a
  // wait that doubles from failure to failure.
  lemma RetriedAfterFailure(jobs: map<string, Job>, q: Request, after: map<string, Job>, id: string)
    requires StatesOk(jobs) && Handled(jobs, q, after) && Fails(jobs, q, id) && !LastAttempt(jobs[id])
    ensures id in after && jobs[id].attempts > 0 && LeasableAt(after[id]) == Some(q.now + q.delay * Backoff(jobs[id].attempts))
    ensures Free(after[id])
    ensures forall now: int :: now >= q.now + q.delay * Backoff(jobs[id].attempts) ==> !Scan(Leasable(after), now, None)
  {
    hide Backoff, Doubled;
    BackoffIs(jobs[id].attempts);
    var due := q.now + q.delay * Backoff(jobs[id].attempts);
    assert LeasableAt(after[id]) == Some(due);
    forall now: int | now >= due ensures !Scan(Leasable(after), now, None) {
      assert id in Leasable(after) && Leasable(after)[id].due == due;
    }
  }

  // A job becomes Dead exactly when its owner gives up its last attempt, becomes
  // Completed exactly when its owner finishes it, and a Completed job stays so.
  lemma StateChanges(jobs: map<string, Job>, q: Request, after: map<string, Job>, id: string)
    requires Handled(jobs, q, after) && NewJob(jobs, q) && id in jobs
    ensures id in after
    ensures !jobs[id].state.Dead? ==> (after[id].state.Dead? <==> Fails(jobs, q, id) && LastAttempt(jobs[id]))
    ensures !jobs[id].state.Completed? ==> (after[id].state.Completed? <==> Finishes(jobs, q, id))
    ensures jobs[id].state.Completed? ==> after[id] == jobs[id]
    ensures jobs[id].state.Dead? ==> (after[id].state.Dead? <==> !Revives(jobs, q, id))
  {
    hide Handled, Before, Scan;
    if Leases(jobs, q, id) {
      Leased(jobs, q, after, id);
    } else if ByOwner(jobs, q, id) {
      Told(jobs, q, after, id);
    } else if Revives(jobs, q, id) {
      Replayed(jobs, q, after, id);
    } else {
      Untouched(jobs, q, after, id);
    }
  }

  lemma StatesKept(jobs: map<string, Job>, q: Request, after: map<string, Job>)
    requires StatesOk(jobs) && Handled(jobs, q, after) && NewJob(jobs, q)
    ensures StatesOk(after)
  {
    hide Handled, Before, Scan;
    forall id | id in after
      ensures after[id].attempts >= 0 && (after[id].state.Leased? ==> after[id].attempts > 0) && (after[id].state.Dead? ==> LastAttempt(after[id]))
    {
      Kept(jobs, q, after, id);
      if id !in jobs {
      } else if Leases(jobs, q, id) {
        Leased(jobs, q, after, id);
      } else if ByOwner(jobs, q, id) {
        Told(jobs, q, after, id);
      } else if Revives(jobs, q, id) {
        Replayed(jobs, q, after, id);
      } else {
        Untouched(jobs, q, after, id);
      }
    }
  }

  /******* Whole runs *******/

  // A run of requests from an empty queue.
  ghost predicate IsRun(trace: seq<map<string, Job>>, requests: seq<Request>) {
    && |trace| == |requests| + 1 && trace[0] == map[]
    && forall k :: 0 <= k < |requests| ==> Handled(trace[k], requests[k], trace[k + 1]) && NewJob(trace[k], requests[k])
  }

  lemma RunShorter(trace: seq<map<string, Job>>, requests: seq<Request>, n: nat)
    requires IsRun(trace, requests) && n <= |requests|
    ensures IsRun(trace[..n + 1], requests[..n])
  {
    hide Handled, NewJob;
  }

  // Dead only with its attempts used up.
  lemma {:induction false} DeadWhenUsedUp(trace: seq<map<string, Job>>, requests: seq<Request>)
    requires IsRun(trace, requests)
    ensures StatesOk(trace[|requests|])
    decreases |requests|
  {
    hide Handled, NewJob, StatesOk;
    var n := |requests|;
    if n == 0 {
      NoJobs();
    } else {
      RunShorter(trace, requests, n - 1);
      DeadWhenUsedUp(trace[..n], requests[..n - 1]);
      assert Handled(trace[n - 1], requests[n - 1], trace[n - 1 + 1]);
      StatesKept(trace[n - 1], requests[n - 1], trace[n]);
    }
  }

  lemma NoJobs()
    ensures StatesOk(map[])
  {
  }

  // In every run: at each request, a failure of the last attempt and nothing else
  // makes a job Dead, and an earlier failure makes it due again.
  lemma FailuresRetry(trace: seq<map<string, Job>>, requests: seq<Request>, k: nat, id: string)
    requires IsRun(trace, requests) && k < |requests| && id in trace[k]
    ensures id in trace[k + 1]
    ensures trace[k][id].state.Dead? ==> LastAttempt(trace[k][id])
    ensures !trace[k][id].state.Dead? ==>
      (trace[k + 1][id].state.Dead? <==> Fails(trace[k], requests[k], id) && LastAttempt(trace[k][id]))
    ensures Fails(trace[k], requests[k], id) && !LastAttempt(trace[k][id]) ==>
      && trace[k][id].attempts > 0
      && LeasableAt(trace[k + 1][id]) == Some(requests[k].now + requests[k].delay * Backoff(trace[k][id].attempts))
      && Free(trace[k + 1][id])
  {
    hide Handled, NewJob, Backoff, LeasableAt, Owned, Before, Scan;
    RunShorter(trace, requests, k);
    DeadWhenUsedUp(trace[..k + 1], requests[..k]);
    StateChanges(trace[k], requests[k], trace[k + 1], id);
    if Fails(trace[k], requests[k], id) && !LastAttempt(trace[k][id]) {
      RetriedAfterFailure(trace[k], requests[k], trace[k + 1], id);
    }
  }

  // In every run: a job is Completed exactly if at some time its owner finished it.
  lemma {:induction false} CompletedExactly(trace: seq<map<string, Job>>, requests: seq<Request>, id: string)
    requires IsRun(trace, requests) && id in trace[|requests|]
    ensures trace[|requests|][id].state.Completed? <==> exists k :: 0 <= k < |requests| && Finishes(trace[k], requests[k], id)
    decreases |requests|
  {
    hide Handled, NewJob, Finishes;
    var n := |requests|;
    assert n > 0;
    RunShorter(trace, requests, n - 1);
    var init, asked := trace[..n], requests[..n - 1];
    assert Handled(trace[n - 1], requests[n - 1], trace[n - 1 + 1]);
    assert forall k :: 0 <= k < n - 1 ==> init[k] == trace[k] && asked[k] == requests[k];
    Kept(trace[n - 1], requests[n - 1], trace[n], id);
    if id in trace[n - 1] {
      CompletedExactly(init, asked, id);
      StateChanges(trace[n - 1], requests[n - 1], trace[n], id);
    } else {
      AbsentBefore(trace, requests, n - 1, id);
    }
  }

  // A job that is not there yet was never there.
  lemma {:induction false} AbsentBefore(trace: seq<map<string, Job>>, requests: seq<Request>, n: nat, id: string)
    requires IsRun(trace, requests) && n < |trace| && id !in trace[n]
    ensures forall k :: 0 <= k <= n ==> id !in trace[k]
    ensures forall k :: 0 <= k <= n && k < |requests| ==> !Finishes(trace[k], requests[k], id)
    decreases n
  {
    hide Handled, NewJob;
    if n > 0 {
      assert Handled(trace[n - 1], requests[n - 1], trace[n - 1 + 1]);
      Kept(trace[n - 1], requests[n - 1], trace[n], id);
      AbsentBefore(trace, requests, n - 1, id);
    }
  }

  // How often the job was leased since it was created, or since it was replayed.
  ghost function TimesLeased(trace: seq<map<string, Job>>, requests: seq<Request>, id: string, n: nat): nat
    requires n <= |requests| && |trace| == |requests| + 1
  {
    if n == 0 then 0
    else if Revives(trace[n - 1], requests[n - 1], id) then 0
    else TimesLeased(trace, requests, id, n - 1) + if Leases(trace[n - 1], requests[n - 1], id) then 1 else 0
  }

  // In every run a job's attempts are the times it was leased.
  lemma {:induction false} AttemptsAreLeases(trace: seq<map<string, Job>>, requests: seq<Request>, id: string, n: nat)
    requires IsRun(trace, requests) && n <= |requests|
    ensures if id in trace[n] then trace[n][id].attempts == TimesLeased(trace, requests, id, n) else TimesLeased(trace, requests, id, n) == 0
    decreases n
  {
    hide Handled, NewJob, Leases, ByOwner, Revives;
    if n > 0 {
      var jobs, q, after := trace[n - 1], requests[n - 1], trace[n];
      assert Handled(trace[n - 1], requests[n - 1], trace[n - 1 + 1]);
      AttemptsAreLeases(trace, requests, id, n - 1);
      Kept(jobs, q, after, id);
      Present(jobs, q, id);
      if id !in jobs {
      } else if Leases(jobs, q, id) {
        Leased(jobs, q, after, id);
      } else if ByOwner(jobs, q, id) {
        Told(jobs, q, after, id);
      } else if Revives(jobs, q, id) {
        Replayed(jobs, q, after, id);
      } else {
        Untouched(jobs, q, after, id);
      }
    }
  }

  lemma Present(jobs: map<string, Job>, q: Request, id: string)
    ensures Leases(jobs, q, id) || ByOwner(jobs, q, id) || Revives(jobs, q, id) ==> id in jobs
    ensures Revives(jobs, q, id) ==> !Leases(jobs, q, id) && !ByOwner(jobs, q, id)
  {
  }

  /******* Order *******/

  // How many attempts a job gets: what it asks for, or five.
  function Granted(job: Job): int { if job.maxAttempts <= 0 then 5 else job.maxAttempts }

  lemma CreationKept(jobs: map<string, Job>, q: Request, after: map<string, Job>, id: string)
    requires Handled(jobs, q, after) && NewJob(jobs, q) && id in after
    ensures id in jobs ==> after[id].createdAt == jobs[id].createdAt && after[id].maxAttempts == jobs[id].maxAttempts
    ensures id !in jobs ==> q.Enqueue? && q.job.id == id && after[id].createdAt == q.now && after[id].maxAttempts == Granted(q.job)
  {
    hide Before, Doubled;
  }

  // A job's time of creation is when it was queued, and the attempts it may have are
  // what it was given then.
  lemma {:induction false} CreatedWhenQueued(trace: seq<map<string, Job>>, requests: seq<Request>, id: string) returns (k: nat)
    requires IsRun(trace, requests) && id in trace[|requests|]
    ensures k < |requests| && requests[k].Enqueue? && requests[k].job.id == id
    ensures trace[|requests|][id].createdAt == requests[k].now && trace[|requests|][id].maxAttempts == Granted(requests[k].job)
    decreases |requests|
  {
    hide Handled, NewJob;
    var n := |requests|;
    assert n > 0;
    RunShorter(trace, requests, n - 1);
    assert Handled(trace[n - 1], requests[n - 1], trace[n - 1 + 1]);
    CreationKept(trace[n - 1], requests[n - 1], trace[n], id);
    if id in trace[n - 1] {
      k := CreatedWhenQueued(trace[..n], requests[..n - 1], id);
    } else {
      k := n - 1;
    }
  }

  // In every run, of the jobs that are due the one queued first is leased first.
  lemma OldestFirst(trace: seq<map<string, Job>>, requests: seq<Request>, n: nat, id: string, other: string) returns (j: nat, k: nat)
    requires IsRun(trace, requests) && n < |requests| && Leases(trace[n], requests[n], id)
    requires other in trace[n] && other != id && LeasableAt(trace[n][other]).Some? && LeasableAt(trace[n][other]).value <= requests[n].now
    ensures j < n && requests[j].Enqueue? && requests[j].job.id == id
    ensures k < n && requests[k].Enqueue? && requests[k].job.id == other
    ensures requests[j].now <= requests[k].now
  {
    hide Handled, NewJob;
    RunShorter(trace, requests, n);
    j := CreatedWhenQueued(trace[..n + 1], requests[..n], id);
    k := CreatedWhenQueued(trace[..n + 1], requests[..n], other);
    assert Leasable(trace[n])[other].createdAt == trace[n][other].createdAt;
    assert Before(LeaseOrder, Leasable(trace[n])[id], Leasable(trace[n])[other]);
  }
}
