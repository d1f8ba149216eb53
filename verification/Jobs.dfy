// Jobs of the media queue, and when one may be leased.
module Jobs {
  import opened Results
  import opened Ranking

  datatype JobState = Queued | Leased | Completed | Dead

  // Times are instants; 0 is the zero time.
  datatype Job = Job(
    id: string, name: string, size: int, key: string, input: string, output: string,
    state: JobState, attempts: int, maxAttempts: int,
    leaseOwner: string, leaseUntil: int, nextAttempt: int, lastError: string,
    createdAt: int, updatedAt: int)

  // What the lease index keeps of a job: when it was created and when it becomes
  // leasable.
  datatype Item = Item(id: string, createdAt: int, due: int)

  datatype Order = DueBefore | LeaseOrder

  predicate Before(order: Order, a: Item, b: Item) {
    match order
    case DueBefore => a.due < b.due || (a.due == b.due && IdLess(a.id, b.id))
    case LeaseOrder => a.createdAt < b.createdAt || (a.createdAt == b.createdAt && IdLess(a.id, b.id))
  }

  lemma BeforeOrder(order: Order, a: Item, b: Item)
    ensures Before(order, a, b) ==> !Before(order, b, a)
    ensures a.id != b.id ==> Before(order, a, b) || Before(order, b, a)
  {
    IdOrder(a.id, b.id);
  }

  lemma BeforeTransitive(order: Order, a: Item, b: Item, c: Item)
    requires Before(order, a, b) && Before(order, b, c)
    ensures Before(order, a, c)
  {
    if IdLess(a.id, b.id) && IdLess(b.id, c.id) {
      IdTransitive(a.id, b.id, c.id);
    }
  }

  // Not coming before carries over.
  lemma NotBeforeTransitive(order: Order, a: Item, b: Item, c: Item)
    requires !Before(order, b, a) && !Before(order, c, b)
    ensures !Before(order, c, a)
  {
    if Before(order, c, a) {
      IdOrder(a.id, b.id);
      IdOrder(b.id, c.id);
      if Before(order, a, b) {
        BeforeTransitive(order, c, a, b);
      }
    }
  }

  // The time from which a job may be given out; a finished or dead one never is.
  function LeasableAt(job: Job): Option<int> {
    match job.state
    case Queued => Some(job.nextAttempt)
    case Leased => Some(job.leaseUntil)
    case _ => None
  }

  // What a full scan would pick: the first in lease order of those that are due.
  ghost predicate Scan(items: map<string, Item>, now: int, found: Option<string>) {
    match found
    case None => forall id :: id in items ==> items[id].due > now
    case Some(id) =>
      && id in items && items[id].due <= now
      && forall other :: other in items && items[other].due <= now && other != id ==> Before(LeaseOrder, items[id], items[other])
  }

  // There is only one such job.
  lemma ScanUnique(items: map<string, Item>, now: int, x: Option<string>, y: Option<string>)
    requires Scan(items, now, x) && Scan(items, now, y)
    ensures x == y
  {
    if x.Some? && y.Some? && x != y {
      BeforeOrder(LeaseOrder, items[x.value], items[y.value]);
    }
  }

  // The leasable jobs, as the index should hold them.
  ghost function Leasable(jobs: map<string, Job>): map<string, Item> {
    map id | id in jobs && LeasableAt(jobs[id]).Some? :: Item(id, jobs[id].createdAt, LeasableAt(jobs[id]).value)
  }
}
