// Finding the job to lease without scanning the queue: two heaps whose entries
// know where they are.
module LeaseIndexCode {
  import opened Results
  import opened Jobs

  function Parent(k: nat): nat
    requires k > 0
  {
    (k - 1) / 2
  }

  ghost predicate Heap(order: Order, items: seq<Item>) {
    forall k :: 0 < k < |items| ==> !Before(order, items[k], items[Parent(k)])
  }

  // In order but for the link from k up; k's children fit its parent.
  ghost predicate RisingAt(order: Order, items: seq<Item>, k: nat) {
    && k < |items|
    && (forall j :: 0 < j < |items| && j != k ==> !Before(order, items[j], items[Parent(j)]))
    && (forall j :: 0 < j < |items| && Parent(j) == k && k > 0 ==> !Before(order, items[j], items[Parent(k)]))
  }

  // In order but for the links from k down; k's children fit its parent.
  ghost predicate SinkingAt(order: Order, items: seq<Item>, k: nat) {
    && k < |items|
    && (forall j :: 0 < j < |items| && Parent(j) != k ==> !Before(order, items[j], items[Parent(j)]))
    && (forall j :: 0 < j < |items| && Parent(j) == k && k > 0 ==> !Before(order, items[j], items[Parent(k)]))
  }

  // Neither its parent nor its children need fit k, but they fit each other.
  ghost predicate OddAt(order: Order, items: seq<Item>, k: nat) {
    && k < |items|
    && (forall j :: 0 < j < |items| && j != k && Parent(j) != k ==> !Before(order, items[j], items[Parent(j)]))
    && (forall j :: 0 < j < |items| && Parent(j) == k && k > 0 ==> !Before(order, items[j], items[Parent(k)]))
  }

  function Swapped(items: seq<Item>, j: nat, k: nat): seq<Item>
    requires j < |items| && k < |items|
  {
    items[j := items[k]][k := items[j]]
  }

  lemma {:induction false} RootFirst(order: Order, items: seq<Item>, k: nat)
    requires Heap(order, items) && k < |items|
    ensures !Before(order, items[k], items[0])
  {
    if k > 0 {
      RootFirst(order, items, Parent(k));
      NotBeforeTransitive(order, items[0], items[Parent(k)], items[k]);
    } else {
      BeforeOrder(order, items[0], items[0]);
    }
  }

  lemma RiseStep(order: Order, items: seq<Item>, k: nat)
    requires RisingAt(order, items, k) && k > 0 && Before(order, items[k], items[Parent(k)])
    ensures RisingAt(order, Swapped(items, k, Parent(k)), Parent(k))
  {
    hide Before;
    var p := Parent(k);
    var other := Swapped(items, k, p);
    BeforeOrder(order, items[k], items[p]);
    forall j | 0 < j < |other| && j != p ensures !Before(order, other[j], other[Parent(j)]) {
      if Parent(j) == p && j != k {
        NotBeforeTransitive(order, items[k], items[p], items[j]);
      }
    }
    forall j | 0 < j < |other| && Parent(j) == p && p > 0 ensures !Before(order, other[j], other[Parent(p)]) {
      if j != k {
        NotBeforeTransitive(order, items[Parent(p)], items[p], items[j]);
      }
    }
  }

  lemma SinkStep(order: Order, items: seq<Item>, k: nat, low: nat)
    requires SinkingAt(order, items, k) && 0 < low < |items| && Parent(low) == k && Before(order, items[low], items[k])
    requires forall j :: 0 < j < |items| && Parent(j) == k ==> !Before(order, items[j], items[low])
    ensures SinkingAt(order, Swapped(items, k, low), low)
  {
    hide Before;
    var other := Swapped(items, k, low);
    BeforeOrder(order, items[low], items[k]);
    forall j | 0 < j < |other| && Parent(j) == low ensures !Before(order, other[j], other[k]) {
      assert !Before(order, items[j], items[low]);
    }
  }

  lemma Risen(order: Order, items: seq<Item>, k: nat)
    requires RisingAt(order, items, k) && (k == 0 || !Before(order, items[k], items[Parent(k)]))
    ensures Heap(order, items)
  {
    hide Before;
  }

  lemma Sunk(order: Order, items: seq<Item>, k: nat)
    requires SinkingAt(order, items, k) && forall j :: 0 < j < |items| && Parent(j) == k ==> !Before(order, items[j], items[k])
    ensures Heap(order, items)
  {
    hide Before;
  }

  function Smallest(order: Order, items: seq<Item>, k: nat): nat
    requires k < |items|
  {
    var left := if 2 * k + 1 < |items| && Before(order, items[2 * k + 1], items[k]) then 2 * k + 1 else k;
    if 2 * k + 2 < |items| && Before(order, items[2 * k + 2], items[left]) then 2 * k + 2 else left
  }

  lemma SmallestOfThree(order: Order, items: seq<Item>, k: nat)
    requires k < |items|
    ensures var low := Smallest(order, items, k);
      && (low == k || (0 < low < |items| && Parent(low) == k && Before(order, items[low], items[k])))
      && forall j :: 0 < j < |items| && Parent(j) == k ==> !Before(order, items[j], items[low])
  {
    hide Before;
    var low := Smallest(order, items, k);
    forall j | 0 < j < |items| && Parent(j) == k ensures !Before(order, items[j], items[low]) {
      assert j == 2 * k + 1 || j == 2 * k + 2;
      BeforeOrder(order, items[j], items[j]);
      if low == 2 * k + 2 && j == 2 * k + 1 {
        var left := if Before(order, items[j], items[k]) then j else k;
        BeforeOrder(order, items[low], items[left]);
        if left == k && Before(order, items[j], items[low]) {
          BeforeTransitive(order, items[j], items[low], items[k]);
        }
      }
    }
    if low == 2 * k + 2 && 2 * k + 1 < |items| && Before(order, items[2 * k + 1], items[k]) {
      BeforeTransitive(order, items[low], items[2 * k + 1], items[k]);
    }
  }

  /******* One heap *******/

  // Every item's recorded position is where it is.
  ghost predicate Placed(items: seq<Item>, position: map<string, nat>) {
    && (forall k :: 0 <= k < |items| ==> items[k].id in position && position[items[k].id] == k)
    && (forall id :: id in position ==> position[id] < |items| && items[position[id]].id == id)
  }

  ghost function ById(items: seq<Item>, position: map<string, nat>): map<string, Item>
    requires Placed(items, position)
  {
    map id | id in position :: items[position[id]]
  }

  lemma SwapPlaced(items: seq<Item>, position: map<string, nat>, j: nat, k: nat)
    requires Placed(items, position) && j < |items| && k < |items|
    ensures var position' := position[items[k].id := j][items[j].id := k];
      Placed(Swapped(items, j, k), position') && ById(Swapped(items, j, k), position') == ById(items, position)
  {
    var other, position' := Swapped(items, j, k), position[items[k].id := j][items[j].id := k];
    assert position'.Keys == position.Keys;
    forall id | id in position' ensures position'[id] < |other| && other[position'[id]] == items[position[id]] {
    }
  }

  class JobHeap {
    const order: Order
    var items: seq<Item>
    var position: map<string, nat>

    ghost predicate Valid()
      reads this
    {
      Placed(items, position) && Heap(order, items)
    }

    ghost function Held(): map<string, Item>
      requires Placed(items, position)
      reads this
    {
      ById(items, position)
    }

    constructor (order: Order)
      ensures Valid() && this.order == order && Held() == map[]
    {
      this.order, items, position := order, [], map[];
    }

    method Swap(j: nat, k: nat)
      requires Placed(items, position) && j < |items| && k < |items|
      modifies this`items, this`position
      ensures items == Swapped(old(items), j, k) && |items| == |old(items)| && Placed(items, position) && Held() == old(Held())
      ensures position == old(position)[old(items[k]).id := j][old(items[j]).id := k]
    {
      SwapPlaced(items, position, j, k);
      var a, b := items[j], items[k];
      items := items[j := b][k := a];
      position := position[b.id := j][a.id := k];
    }

    method Up(from: nat)
      requires Placed(items, position) && RisingAt(order, items, from)
      modifies this`items, this`position
      ensures Valid() && Held() == old(Held()) && |items| == |old(items)|
    {
      hide Before, RisingAt, Heap, Placed, Swapped, ById;
      var k: nat := from;
      RisingInRange(order, items, k);
      while k > 0 && Before(order, items[k], items[(k - 1) / 2])
        invariant Placed(items, position) && k < |items| && RisingAt(order, items, k) && Held() == old(Held()) && |items| == |old(items)|
      {
        RiseStep(order, items, k);
        Swap(k, (k - 1) / 2);
        k := (k - 1) / 2;
        RisingInRange(order, items, k);
      }
      Risen(order, items, k);
    }

    // Returns whether anything moved.
    method Down(from: nat) returns (moved: bool)
      requires Placed(items, position) && from < |items| && OddAt(order, items, from)
      modifies this`items, this`position
      ensures Placed(items, position) && Held() == old(Held()) && |items| == |old(items)|
      ensures moved ==> Heap(order, items)
      ensures !moved ==> items == old(items) && RisingAt(order, items, from)
    {
      hide Before, RisingAt, SinkingAt, OddAt, Heap, Placed, Swapped, ById, Smallest;
      var k: nat := from;
      while true
        invariant Placed(items, position) && from <= k < |items| == |old(items)| && Held() == old(Held())
        invariant k == from ==> items == old(items)
        invariant k != from ==> SinkingAt(order, items, k)
        decreases |items| - k
      {
        SmallestOfThree(order, items, k);
        var low := LowChild(k);
        if low == k {
          if k == from {
            OddFits(order, items, k);
          } else {
            Sunk(order, items, k);
          }
          return k != from;
        }
        if k == from {
          OddSinks(order, items, k, low);
        } else {
          SinkStep(order, items, k, low);
        }
        Swap(k, low);
        SinkingInRange(order, items, low);
        k := low;
      }
    }

    method LowChild(k: nat) returns (low: nat)
      requires k < |items|
      ensures low == Smallest(order, items, k)
    {
      hide Before;
      low := k;
      if 2 * k + 1 < |items| && Before(order, items[2 * k + 1], items[low]) {
        low := 2 * k + 1;
      }
      if 2 * k + 2 < |items| && Before(order, items[2 * k + 2], items[low]) {
        low := 2 * k + 2;
      }
    }

    method Push(item: Item)
      requires Valid() && item.id !in position
      modifies this`items, this`position
      ensures Valid() && Held() == old(Held())[item.id := item] && |items| == |old(items)| + 1
    {
      hide Before;
      PushPlaced(items, position, item);
      PushRises(order, items, item);
      position := position[item.id := |items|];
      items := items + [item];
      Up(|items| - 1);
    }

    // Takes out the item at a position, wherever it is.
    method Remove(at: nat) returns (item: Item)
      requires Valid() && at < |items|
      modifies this`items, this`position
      ensures Valid() && item == old(items[at]) && Held() == old(Held()) - {item.id} && |items| == |old(items)| - 1
    {
      hide Before, RisingAt, OddAt, Heap, Placed, Swapped, ById;
      item := items[at];
      var last := |items| - 1;
      if last != at {
        RemovedFromMiddle(order, items, position, at);
        Swap(at, last);
        SwappedLast(old(items), at);
        position := position - {item.id};
        items := items[..last];
        var moved := Down(at);
        if !moved {
          Up(at);
        }
      } else {
        RemovedFromEnd(order, items, position);
        position := position - {item.id};
        items := items[..last];
      }
    }

    // The first item comes before all others.
    lemma FirstIsLeast(id: string)
      requires Valid() && id in position && items[0].id != id
      ensures Before(order, items[0], Held()[id])
    {
      RootFirst(order, items, position[id]);
      BeforeOrder(order, items[0], items[position[id]]);
    }
  }

  lemma RisingInRange(order: Order, items: seq<Item>, k: nat)
    requires RisingAt(order, items, k)
    ensures k < |items|
  {
  }

  lemma SinkingInRange(order: Order, items: seq<Item>, k: nat)
    requires SinkingAt(order, items, k)
    ensures k < |items|
  {
  }

  lemma OddFits(order: Order, items: seq<Item>, k: nat)
    requires OddAt(order, items, k) && forall j :: 0 < j < |items| && Parent(j) == k ==> !Before(order, items[j], items[k])
    ensures RisingAt(order, items, k)
  {
    hide Before;
  }

  // An item that goes below a child of its own fits above, so it only sinks.
  lemma OddSinks(order: Order, items: seq<Item>, k: nat, low: nat)
    requires OddAt(order, items, k) && 0 < low < |items| && Parent(low) == k && Before(order, items[low], items[k])
    requires forall j :: 0 < j < |items| && Parent(j) == k ==> !Before(order, items[j], items[low])
    ensures SinkingAt(order, Swapped(items, k, low), low)
  {
    hide Before;
    BeforeOrder(order, items[low], items[k]);
    if k > 0 && Before(order, items[k], items[Parent(k)]) {
      BeforeTransitive(order, items[low], items[k], items[Parent(k)]);
      assert false;
    }
    SinkStep(order, items, k, low);
  }

  lemma PushPlaced(items: seq<Item>, position: map<string, nat>, item: Item)
    requires Placed(items, position) && item.id !in position
    ensures Placed(items + [item], position[item.id := |items|])
    ensures ById(items + [item], position[item.id := |items|]) == ById(items, position)[item.id := item]
  {
  }

  lemma PushRises(order: Order, items: seq<Item>, item: Item)
    requires Heap(order, items)
    ensures RisingAt(order, items + [item], |items|)
  {
    hide Before;
  }

  lemma SwappedLast(items: seq<Item>, at: nat)
    requires at < |items|
    ensures |Swapped(items, at, |items| - 1)| == |items|
  {
  }

  lemma RemovedFromEnd(order: Order, items: seq<Item>, position: map<string, nat>)
    requires Placed(items, position) && Heap(order, items) && items != []
    ensures var last := |items| - 1; var item := items[last];
      Placed(items[..last], position - {item.id}) && Heap(order, items[..last])
      && ById(items[..last], position - {item.id}) == ById(items, position) - {item.id}
  {
    hide Before;
  }

  // What is left after the last item took the place of the one removed.
  lemma RemovedFromMiddle(order: Order, items: seq<Item>, position: map<string, nat>, at: nat)
    requires Placed(items, position) && Heap(order, items) && at < |items| - 1
    ensures var last := |items| - 1; var item := items[at];
      var moved, places := Swapped(items, at, last), position[items[last].id := at][item.id := last];
      && Placed(moved[..last], places - {item.id})
      && ById(moved[..last], places - {item.id}) == ById(items, position) - {item.id}
      && OddAt(order, moved[..last], at)
  {
    hide Before, Heap, OddAt, Swapped, Placed, ById;
    var last, item := |items| - 1, items[at];
    SwapPlaced(items, position, at, last);
    RemovedOdd(order, items, at);
    SwapEnds(items, at);
    CutPlaced(Swapped(items, at, last), position[items[last].id := at][item.id := last]);
  }

  lemma SwapEnds(items: seq<Item>, at: nat)
    requires at < |items|
    ensures |Swapped(items, at, |items| - 1)| == |items| && Swapped(items, at, |items| - 1)[|items| - 1] == items[at]
  {
  }

  lemma CutPlaced(items: seq<Item>, position: map<string, nat>)
    requires Placed(items, position) && items != []
    ensures var last := |items| - 1;
      Placed(items[..last], position - {items[last].id})
      && ById(items[..last], position - {items[last].id}) == ById(items, position) - {items[last].id}
  {
  }

  lemma RemovedOdd(order: Order, items: seq<Item>, at: nat)
    requires Heap(order, items) && at < |items| - 1
    ensures OddAt(order, Swapped(items, at, |items| - 1)[..|items| - 1], at)
  {
    hide Before;
    var other := Swapped(items, at, |items| - 1)[..|items| - 1];
    forall j | 0 < j < |other| && Parent(j) == at && at > 0 ensures !Before(order, other[j], other[Parent(at)]) {
      NotBeforeTransitive(order, items[Parent(at)], items[at], items[j]);
    }
  }

  /******* The index *******/

  datatype Entry = Entry(item: Item, ready: bool)

  // Every entry is in exactly the heap it says, and nothing else is.
  ghost predicate Split(entries: map<string, Entry>, waiting: map<string, Item>, ready: map<string, Item>) {
    && (forall id :: id in entries <==> id in waiting || id in ready)
    && (forall id :: id in waiting ==> id !in ready && waiting[id].id == id && entries[id] == Entry(waiting[id], false))
    && (forall id :: id in ready ==> ready[id].id == id && entries[id] == Entry(ready[id], true))
  }

  ghost function Items(entries: map<string, Entry>): map<string, Item> {
    map id | id in entries :: entries[id].item
  }

  lemma SplitWithout(entries: map<string, Entry>, waiting: map<string, Item>, ready: map<string, Item>, id: string)
    requires Split(entries, waiting, ready)
    ensures Split(entries - {id}, waiting - {id}, ready - {id}) && Items(entries - {id}) == Items(entries) - {id}
    ensures id !in waiting ==> waiting - {id} == waiting
    ensures id !in ready ==> ready - {id} == ready
    ensures id in entries ==> if entries[id].ready then id in ready && id !in waiting else id in waiting && id !in ready
  {
  }

  lemma SplitFewer(entries: map<string, Entry>, waiting: map<string, Item>, ready: map<string, Item>, id: string)
    requires Split(entries - {id}, waiting, ready)
    ensures id !in waiting && id !in ready && waiting - {id} == waiting && ready - {id} == ready
    ensures forall other :: other in entries && other != id ==> other in waiting || other in ready
    ensures forall other :: other in waiting ==> other in entries && other !in ready && waiting[other].id == other && entries[other] == Entry(waiting[other], false)
    ensures forall other :: other in ready ==> other in entries && ready[other].id == other && entries[other] == Entry(ready[other], true)
  {
    var fewer := entries - {id};
    assert forall other :: other in fewer <==> other in entries && other != id;
    assert forall other :: other in fewer ==> fewer[other] == entries[other];
  }

  lemma SplitReady(entries: map<string, Entry>, waiting: map<string, Item>, ready: map<string, Item>, item: Item)
    requires Split(entries - {item.id}, waiting, ready)
    ensures Split(entries[item.id := Entry(item, true)], waiting, ready[item.id := item])
  {
    SplitFewer(entries, waiting, ready, item.id);
  }

  lemma SplitWaiting(entries: map<string, Entry>, waiting: map<string, Item>, ready: map<string, Item>, item: Item)
    requires Split(entries - {item.id}, waiting, ready)
    ensures Split(entries[item.id := Entry(item, false)], waiting[item.id := item], ready)
  {
    SplitFewer(entries, waiting, ready, item.id);
  }

  lemma ItemsWith(entries: map<string, Entry>, item: Item, isReady: bool)
    ensures Items(entries[item.id := Entry(item, isReady)]) == Items(entries)[item.id := item]
  {
  }

  class LeaseIndex {
    var entries: map<string, Entry>
    const waiting: JobHeap // filed for later, by due time
    const ready: JobHeap   // due when filed, in the order of leasing
    var now: int

    ghost predicate Valid()
      reads this, waiting, ready
    {
      && waiting != ready && waiting.order == DueBefore && ready.order == LeaseOrder
      && waiting.Valid() && ready.Valid() && Split(entries, waiting.Held(), ready.Held())
    }

    // What is filed, whichever heap holds it.
    ghost function Filed(): map<string, Item>
      reads this
    {
      Items(entries)
    }

    constructor ()
      ensures Valid() && Filed() == map[] && fresh(waiting) && fresh(ready)
    {
      entries, now := map[], 0;
      waiting := new JobHeap(DueBefore);
      ready := new JobHeap(LeaseOrder);
    }

    method Detach(id: string)
      requires Valid() && id in entries
      modifies waiting, ready
      ensures waiting.Valid() && ready.Valid()
      ensures waiting.Held() == old(waiting.Held()) - {id} && ready.Held() == old(ready.Held()) - {id}
      ensures if entries[id].ready then |ready.items| < |old(ready.items)| else |waiting.items| < |old(waiting.items)|
    {
      hide Heap, Split, Items;
      SplitWithout(entries, waiting.Held(), ready.Held(), id);
      if entries[id].ready {
        assert ready.items[ready.position[id]].id == id;
        var _ := ready.Remove(ready.position[id]);
      } else {
        assert waiting.items[waiting.position[id]].id == id;
        var _ := waiting.Remove(waiting.position[id]);
      }
    }

    // Makes the index agree with what a job is now.
    method Update(id: string, job: Job)
      requires Valid()
      modifies this`entries, waiting, ready
      ensures Valid()
      ensures Filed() == match LeasableAt(job)
                         case None => old(Filed()) - {id}
                         case Some(due) => old(Filed())[id := Item(id, job.createdAt, due)]
    {
      hide Heap, Split, Items, Placed, ById;
      var due := LeasableAt(job);
      SplitWithout(entries, waiting.Held(), ready.Held(), id);
      if id in entries {
        Detach(id);
      } else {
        Unfiled(id);
      }
      if due.None? {
        entries := entries - {id};
        return;
      }
      var item := Item(id, job.createdAt, due.value);
      var isReady := due.value <= now;
      File(item, isReady);
    }

    // Puts an item that is in neither heap where it belongs.
    method File(item: Item, isReady: bool)
      requires waiting != ready && waiting.order == DueBefore && ready.order == LeaseOrder && waiting.Valid() && ready.Valid()
      requires Split(entries - {item.id}, waiting.Held(), ready.Held())
      modifies this`entries, waiting, ready
      ensures Valid() && Filed() == old(Filed())[item.id := item]
      ensures waiting.Held() == if isReady then old(waiting.Held()) else old(waiting.Held())[item.id := item]
      ensures |waiting.items| == |old(waiting.items)| + (if isReady then 0 else 1) && |ready.items| == |old(ready.items)| + if isReady then 1 else 0
    {
      hide Heap, Split, Items;
      var id := item.id;
      SplitFewer(entries, waiting.Held(), ready.Held(), id);
      SplitReady(entries, waiting.Held(), ready.Held(), item);
      SplitWaiting(entries, waiting.Held(), ready.Held(), item);
      ItemsWith(entries, item, isReady);
      entries := entries[id := Entry(item, isReady)];
      if isReady {
        ready.Push(item);
      } else {
        waiting.Push(item);
      }
    }

    lemma Unfiled(id: string)
      requires Valid() && id !in entries
      ensures waiting.Held() == waiting.Held() - {id} && ready.Held() == ready.Held() - {id} && entries - {id} == entries
    {
    }

    // Takes a job out of the index.
    method Remove(id: string)
      requires Valid()
      modifies this`entries, waiting, ready
      ensures Valid() && Filed() == old(Filed()) - {id}
    {
      hide Heap, Split, Items, Placed, ById;
      SplitWithout(entries, waiting.Held(), ready.Held(), id);
      if id in entries {
        Detach(id);
      } else {
        Unfiled(id);
      }
      entries := entries - {id};
    }

    // What a scan at this time finds. The time may lie before those of earlier
    // calls.
    method Next(at: int) returns (found: Option<string>)
      requires Valid()
      modifies this`entries, this`now, waiting, ready
      ensures Valid() && Filed() == old(Filed()) && Scan(Filed(), at, found)
    {
      hide Heap, Split, Items, Placed, ById, Before;
      now := at;
      while |waiting.items| > 0 && waiting.items[0].due <= at
        invariant Valid() && Filed() == old(Filed())
        decreases |waiting.items|
      {
        FirstFiled(waiting, false);
        Refile(waiting.items[0], true);
      }
      AllLater(at);
      while |ready.items| > 0
        invariant Valid() && Filed() == old(Filed()) && forall id :: id in waiting.Held() ==> waiting.Held()[id].due > at
        decreases |ready.items|
      {
        var item := ready.items[0];
        FirstFiled(ready, true);
        if item.due <= at {
          FoundFirst(at);
          return Some(item.id);
        }
        // It was due at a later reading of the clock and is not due at this one.
        Refile(item, false);
      }
      NoneDue(at);
      found := None;
    }

    // Moves an item from one heap to the other.
    method Refile(item: Item, isReady: bool)
      requires Valid() && item.id in entries && entries[item.id] == Entry(item, !isReady)
      modifies this`entries, waiting, ready
      ensures Valid() && Filed() == old(Filed())
      ensures isReady ==> |waiting.items| < |old(waiting.items)|
      ensures !isReady ==> |ready.items| < |old(ready.items)| && waiting.Held() == old(waiting.Held())[item.id := item]
    {
      hide Heap, Split, Placed, ById;
      SplitWithout(entries, waiting.Held(), ready.Held(), item.id);
      Detach(item.id);
      File(item, isReady);
    }

    lemma FirstFiled(heap: JobHeap, isReady: bool)
      requires Valid() && heap == (if isReady then ready else waiting) && |heap.items| > 0
      ensures heap.items[0].id in entries && entries[heap.items[0].id] == Entry(heap.items[0], isReady)
      ensures heap.items[0].id in Filed() && Filed()[heap.items[0].id] == heap.items[0]
    {
    }

    lemma AllLater(at: int)
      requires Valid() && (|waiting.items| > 0 ==> waiting.items[0].due > at)
      ensures forall id :: id in waiting.Held() ==> waiting.Held()[id].due > at
    {
      hide Heap, Split;
      forall id | id in waiting.Held() ensures waiting.Held()[id].due > at {
        if waiting.items[0].id != id {
          waiting.FirstIsLeast(id);
        }
      }
    }

    lemma FoundFirst(at: int)
      requires Valid() && |ready.items| > 0 && ready.items[0].due <= at
      requires forall id :: id in waiting.Held() ==> waiting.Held()[id].due > at
      ensures Scan(Filed(), at, Some(ready.items[0].id))
    {
      hide Heap, Before;
      FirstFiled(ready, true);
      forall other | other in Filed() && Filed()[other].due <= at && other != ready.items[0].id
        ensures Before(LeaseOrder, ready.items[0], Filed()[other])
      {
        ready.FirstIsLeast(other);
      }
    }

    lemma NoneDue(at: int)
      requires Valid() && |ready.items| == 0 && forall id :: id in waiting.Held() ==> waiting.Held()[id].due > at
      ensures Scan(Filed(), at, None)
    {
    }
  }
}
