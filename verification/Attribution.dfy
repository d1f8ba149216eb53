// Event-time attribution: outcomes within a window after a subject's first
// exposure count for its arm, and subjects are dropped once nothing can change
// what they contributed.
module Attribution {
  import opened Results

  datatype EventType = Assignment | Exposure | Outcome

  // Times are instants after the zero time 0, which no event carries.
  datatype Event = Event(id: string, kind: EventType, subject: string, arm: string, at: nat, outcomeName: string, value: Option<real>, version: int)

  datatype Observed = Observed(at: nat, value: real)

  datatype Contribution = Contribution(arm: string, exposed: bool, converted: bool, value: real)

  datatype Subject = Subject(arm: string, exposures: seq<nat>, outcomes: seq<Observed>, latest: nat, current: Contribution)

  datatype Tally = Tally(treatmentN: int, controlN: int, treatmentY: int, controlY: int, treatmentValue: real, controlValue: real)

  const Zero := Tally(0, 0, 0, 0, 0.0, 0.0)

  // One experiment. assign gives a subject its arm.
  datatype Config = Config(assign: string -> string, treatmentArm: string, controlArm: string, outcomeName: string, version: int, window: nat, lateness: nat)

  ghost predicate ConfigOk(c: Config) {
    && c.treatmentArm != "" && c.controlArm != "" && c.treatmentArm != c.controlArm
    && forall id :: c.assign(id) == c.treatmentArm || c.assign(id) == c.controlArm
  }

  datatype State = State(
    subjects: map<string, Subject>, seen: set<string>, tally: Tally, maxTime: nat,
    received: nat, accepted: nat, duplicates: nat, rejected: nat, late: nat, unmatched: nat)

  const Fresh := State(map[], {}, Zero, 0, 0, 0, 0, 0, 0, 0)

  /******* Contributions *******/

  function InsertTime(times: seq<nat>, t: nat): (r: seq<nat>)
    ensures |r| == |times| + 1
  {
    if times == [] || t < times[0] then [t] + times
    else [times[0]] + InsertTime(times[1..], t)
  }

  ghost predicate TimesSorted(times: seq<nat>) {
    forall j, k :: 0 <= j < k < |times| ==> times[j] <= times[k]
  }

  lemma {:induction false} InsertHolds(times: seq<nat>, t: nat)
    ensures multiset(InsertTime(times, t)) == multiset(times) + multiset{t}
  {
    if times != [] && t >= times[0] {
      var first, rest := times[0], times[1..];
      InsertHolds(rest, t);
      assert times == [first] + rest;
      assert InsertTime(times, t) == [first] + InsertTime(rest, t);
    }
  }

  lemma {:induction false} InsertSorted(times: seq<nat>, t: nat)
    requires TimesSorted(times)
    ensures TimesSorted(InsertTime(times, t))
    ensures InsertTime(times, t)[0] == if times == [] || t < times[0] then t else times[0]
    ensures forall k :: 0 <= k < |InsertTime(times, t)| ==> InsertTime(times, t)[k] in times || InsertTime(times, t)[k] == t
  {
    if times != [] && t >= times[0] {
      var rest := InsertTime(times[1..], t);
      InsertSorted(times[1..], t);
      PutFirst(times[0], rest);
    }
  }

  lemma PutFirst(t: nat, rest: seq<nat>)
    requires TimesSorted(rest) && (rest != [] ==> t <= rest[0])
    ensures TimesSorted([t] + rest)
  {
  }

  // Whether any outcome falls from lo to hi, and what they add up to.
  function Within(outcomes: seq<Observed>, lo: nat, hi: nat): (bool, real) {
    if outcomes == [] then (false, 0.0)
    else
      var before, last := Within(outcomes[..|outcomes| - 1], lo, hi), outcomes[|outcomes| - 1];
      if lo <= last.at <= hi then (true, before.1 + last.value) else before
  }

  function Contribute(s: Subject, window: nat): Contribution {
    if s.exposures == [] then Contribution(s.arm, false, false, 0.0)
    else
      var counted := Within(s.outcomes, s.exposures[0], s.exposures[0] + window);
      Contribution(s.arm, true, counted.0, counted.1)
  }

  function AddContribution(a: Tally, c: Contribution, treatmentArm: string): Tally {
    if !c.exposed || c.arm == "" then a
    else if c.arm == treatmentArm then
      a.(treatmentN := a.treatmentN + 1, treatmentY := a.treatmentY + (if c.converted then 1 else 0), treatmentValue := a.treatmentValue + c.value)
    else
      a.(controlN := a.controlN + 1, controlY := a.controlY + (if c.converted then 1 else 0), controlValue := a.controlValue + c.value)
  }

  function RemoveContribution(a: Tally, c: Contribution, treatmentArm: string): Tally {
    if !c.exposed then a
    else if c.arm == treatmentArm then
      a.(treatmentN := a.treatmentN - 1, treatmentY := a.treatmentY - (if c.converted then 1 else 0), treatmentValue := a.treatmentValue - c.value)
    else
      a.(controlN := a.controlN - 1, controlY := a.controlY - (if c.converted then 1 else 0), controlValue := a.controlValue - c.value)
  }

  /******* Events *******/

  function Watermark(c: Config, s: State): int {
    s.maxTime - c.lateness
  }

  predicate Misdirected(c: Config, e: Event) {
    || e.version != c.version
    || (e.arm != "" && e.arm != c.assign(e.subject))
    || (e.kind.Outcome? && e.outcomeName != c.outcomeName)
  }

  function NewSubject(c: Config, id: string): Subject {
    Subject(c.assign(id), [], [], 0, Contribution("", false, false, 0.0))
  }

  // A subject with one more event.
  function Extended(s: Subject, e: Event): Subject {
    var seen := s.(latest := if e.at > s.latest then e.at else s.latest);
    match e.kind
    case Exposure => seen.(exposures := InsertTime(s.exposures, e.at))
    case Outcome => seen.(outcomes := s.outcomes + [Observed(e.at, if e.value.Some? then e.value.value else 1.0)])
    case Assignment => seen
  }

  function Updated(c: Config, s: Subject, e: Event): Subject {
    var more := Extended(s, e);
    more.(current := Contribute(more, c.window))
  }

  function Deadline(c: Config, s: Subject): nat {
    if s.exposures != [] then s.exposures[0] + c.window else s.latest + c.window
  }

  predicate Expired(c: Config, s: State, subject: Subject) {
    Watermark(c, s) > Deadline(c, subject)
  }

  // Outcomes of expired subjects that were never exposed.
  ghost function UnmatchedOf(c: Config, s: State, ids: set<string>): nat {
    if ids == {} then 0
    else
      var id :| id in ids;
      UnmatchedOf(c, s, ids - {id})
        + if id in s.subjects && Expired(c, s, s.subjects[id]) && s.subjects[id].exposures == [] then |s.subjects[id].outcomes| else 0
  }

  ghost function ExpireSubjects(c: Config, s: State): State {
    s.(subjects := map id | id in s.subjects && !Expired(c, s, s.subjects[id]) :: s.subjects[id],
       unmatched := s.unmatched + UnmatchedOf(c, s, s.subjects.Keys))
  }

  datatype Receipt = Duplicate | Rejected | Late | Accepted

  function ReceiptFor(c: Config, s: State, e: Event): Receipt {
    if e.id in s.seen then Duplicate
    else if Misdirected(c, e) then Rejected
    else if s.maxTime != 0 && e.at < Watermark(c, s) then Late
    else Accepted
  }

  // What an accepted event changes, before anyone expires.
  function Accept(c: Config, s: State, e: Event): State {
    var old' := if e.subject in s.subjects then s.subjects[e.subject] else NewSubject(c, e.subject);
    var subject := Updated(c, old', e);
    s.(maxTime := if e.at > s.maxTime then e.at else s.maxTime,
       subjects := s.subjects[e.subject := subject],
       tally := AddContribution(RemoveContribution(s.tally, old'.current, c.treatmentArm), subject.current, c.treatmentArm),
       accepted := s.accepted + 1)
  }

  // Expiry runs with every 256th accepted event.
  ghost function ApplyEvent(c: Config, s: State, e: Event): State {
    var counted := s.(received := s.received + 1);
    match ReceiptFor(c, s, e)
    case Duplicate => counted.(duplicates := s.duplicates + 1)
    case Rejected => counted.(seen := s.seen + {e.id}, rejected := s.rejected + 1)
    case Late => counted.(seen := s.seen + {e.id}, late := s.late + 1)
    case Accepted =>
      var next := Accept(c, counted.(seen := s.seen + {e.id}), e);
      if next.accepted % 256 == 0 then ExpireSubjects(c, next) else next
  }

  ghost function ApplyAll(c: Config, s: State, events: seq<Event>): State {
    if events == [] then s else ApplyEvent(c, ApplyAll(c, s, events[..|events| - 1]), events[|events| - 1])
  }

  /******* Repeats *******/

  // The stream with every repetition of an id left out.
  function Distinct(events: seq<Event>): seq<Event> {
    if events == [] then []
    else
      var before, last := Distinct(events[..|events| - 1]), events[|events| - 1];
      if exists k :: 0 <= k < |events| - 1 && events[k].id == last.id then before else before + [last]
  }

  // States that differ at most in how many events and repeats were counted.
  ghost predicate SameResults(x: State, y: State) {
    x.(received := 0, duplicates := 0) == y.(received := 0, duplicates := 0)
  }

  ghost function IdsOf(events: seq<Event>): set<string> {
    set k | 0 <= k < |events| :: events[k].id
  }

  lemma {:induction false} SeenIds(c: Config, s: State, events: seq<Event>)
    ensures ApplyAll(c, s, events).seen == s.seen + IdsOf(events)
  {
    hide ExpireSubjects, Accept;
    if events == [] {
    } else {
      var init, last := events[..|events| - 1], events[|events| - 1];
      SeenIds(c, s, init);
      SeenOne(c, ApplyAll(c, s, init), last);
      assert IdsOf(events) == IdsOf(init) + {last.id};
    }
  }

  lemma SeenOne(c: Config, s: State, e: Event)
    ensures ApplyEvent(c, s, e).seen == s.seen + {e.id}
  {
  }

  lemma UnmatchedSame(c: Config, x: State, y: State, ids: set<string>)
    requires x.subjects == y.subjects && x.maxTime == y.maxTime
    ensures UnmatchedOf(c, x, ids) == UnmatchedOf(c, y, ids)
  {
    if ids != {} {
      var id :| id in ids && UnmatchedOf(c, x, ids) == UnmatchedOf(c, x, ids - {id})
        + if id in x.subjects && Expired(c, x, x.subjects[id]) && x.subjects[id].exposures == [] then |x.subjects[id].outcomes| else 0;
      UnmatchedSame(c, x, y, ids - {id});
    }
  }

  lemma SameApplied(c: Config, x: State, y: State, e: Event)
    requires SameResults(x, y)
    ensures SameResults(ApplyEvent(c, x, e), ApplyEvent(c, y, e))
  {
    hide UnmatchedOf, Expired, Updated;
    if ReceiptFor(c, x, e).Accepted? {
      var a := Accept(c, x.(received := x.received + 1, seen := x.seen + {e.id}), e);
      var b := Accept(c, y.(received := y.received + 1, seen := y.seen + {e.id}), e);
      UnmatchedSame(c, a, b, a.subjects.Keys);
      SameExpired(c, a, b);
    }
  }

  lemma SameExpired(c: Config, x: State, y: State)
    requires x.subjects == y.subjects && x.maxTime == y.maxTime
    ensures ExpireSubjects(c, x).subjects == ExpireSubjects(c, y).subjects
  {
  }

  // Delivering an event again changes nothing that is reported: the results are
  // those of the stream without repeats.
  lemma {:induction false} RepeatsDoNotCount(c: Config, events: seq<Event>)
    ensures SameResults(ApplyAll(c, Fresh, events), ApplyAll(c, Fresh, Distinct(events)))
  {
    hide ApplyEvent;
    if events != [] {
      var init, last := events[..|events| - 1], events[|events| - 1];
      RepeatsDoNotCount(c, init);
      var x, y := ApplyAll(c, Fresh, init), ApplyAll(c, Fresh, Distinct(init));
      SeenIds(c, Fresh, init);
      if last.id in IdsOf(init) {
        var k :| 0 <= k < |init| && init[k].id == last.id;
        assert events[k].id == last.id;
        RepeatIgnored(c, x, last);
      } else {
        assert forall k :: 0 <= k < |events| - 1 ==> events[k].id == init[k].id && init[k].id in IdsOf(init);
        SameApplied(c, x, y, last);
        ApplyLast(c, Fresh, Distinct(init), last);
      }
    }
  }

  lemma RepeatIgnored(c: Config, s: State, e: Event)
    requires e.id in s.seen
    ensures SameResults(ApplyEvent(c, s, e), s)
  {
  }

  lemma ApplyLast(c: Config, s: State, events: seq<Event>, e: Event)
    ensures ApplyAll(c, s, events + [e]) == ApplyEvent(c, ApplyAll(c, s, events), e)
  {
    hide ApplyEvent;
    assert (events + [e])[..|events|] == events;
  }
}
