// What expiry costs: nothing, unless a subject is exposed again after it was
// dropped.
module AttributionRuns {
  import opened Results
  import opened Attribution

  /******* Adding tallies up *******/

  function Plus(a: Tally, b: Tally): Tally {
    Tally(a.treatmentN + b.treatmentN, a.controlN + b.controlN, a.treatmentY + b.treatmentY, a.controlY + b.controlY,
          a.treatmentValue + b.treatmentValue, a.controlValue + b.controlValue)
  }

  function Minus(a: Tally, b: Tally): Tally {
    Tally(a.treatmentN - b.treatmentN, a.controlN - b.controlN, a.treatmentY - b.treatmentY, a.controlY - b.controlY,
          a.treatmentValue - b.treatmentValue, a.controlValue - b.controlValue)
  }

  // One contribution as a tally.
  function Share(c: Contribution, treatmentArm: string): Tally {
    AddContribution(Zero, c, treatmentArm)
  }

  lemma AddIsPlus(a: Tally, c: Contribution, treatmentArm: string)
    ensures AddContribution(a, c, treatmentArm) == Plus(a, Share(c, treatmentArm))
    ensures c.arm != "" || !c.exposed ==> RemoveContribution(a, c, treatmentArm) == Minus(a, Share(c, treatmentArm))
  {
  }

  // What the subjects contribute together.
  ghost function SumOf(m: map<string, Subject>, window: nat, treatmentArm: string): Tally {
    if m.Keys == {} then Zero
    else
      var id :| id in m;
      Plus(SumOf(m - {id}, window, treatmentArm), Share(Contribute(m[id], window), treatmentArm))
  }

  lemma {:induction false} SumRemove(m: map<string, Subject>, window: nat, treatmentArm: string, id: string)
    requires id in m
    ensures SumOf(m, window, treatmentArm) == Plus(SumOf(m - {id}, window, treatmentArm), Share(Contribute(m[id], window), treatmentArm))
    decreases |m|
  {
    hide Share, Contribute, SumOf, Plus;
    var first := SumFirst(m, window, treatmentArm);
    if first != id {
      SumRemove(m - {first}, window, treatmentArm, id);
      SumRemove(m - {id}, window, treatmentArm, first);
      assert m - {first} - {id} == m - {id} - {first};
      PlusSwap(SumOf(m - {first} - {id}, window, treatmentArm), Share(Contribute(m[id], window), treatmentArm), Share(Contribute(m[first], window), treatmentArm));
    }
  }

  lemma SumFirst(m: map<string, Subject>, window: nat, treatmentArm: string) returns (id: string)
    requires m.Keys != {}
    ensures id in m && SumOf(m, window, treatmentArm) == Plus(SumOf(m - {id}, window, treatmentArm), Share(Contribute(m[id], window), treatmentArm))
  {
    hide Share, Contribute, Plus;
    id :| id in m && SumOf(m, window, treatmentArm) == Plus(SumOf(m - {id}, window, treatmentArm), Share(Contribute(m[id], window), treatmentArm));
  }

  lemma PlusSwap(a: Tally, x: Tally, y: Tally)
    ensures Plus(Plus(a, x), y) == Plus(Plus(a, y), x)
  {
  }

  lemma SumPut(m: map<string, Subject>, window: nat, treatmentArm: string, id: string, s: Subject)
    ensures SumOf(m[id := s], window, treatmentArm)
         == Plus(SumOf(m - {id}, window, treatmentArm), Share(Contribute(s, window), treatmentArm))
  {
    hide Share, Contribute, SumOf;
    SumRemove(m[id := s], window, treatmentArm, id);
    assert m[id := s] - {id} == m - {id};
  }

  // A sum in two parts.
  lemma {:induction false} SumSplit(m: map<string, Subject>, part: map<string, Subject>, window: nat, treatmentArm: string)
    requires part.Keys <= m.Keys && forall id :: id in part ==> part[id] == m[id]
    ensures SumOf(m, window, treatmentArm) == Plus(SumOf(m - part.Keys, window, treatmentArm), SumOf(part, window, treatmentArm))
    decreases |part|
  {
    hide Share, Contribute, SumOf, Plus;
    if part == map[] {
      SumNone(window, treatmentArm);
      PlusZero(SumOf(m, window, treatmentArm));
      assert m - part.Keys == m;
    } else {
      var id :| id in part;
      var m', part' := m - {id}, part - {id};
      SumSplit(m', part', window, treatmentArm);
      assert m' - part'.Keys == m - part.Keys;
      SumRemove(m, window, treatmentArm, id);
      SumRemove(part, window, treatmentArm, id);
      PlusAssoc(SumOf(m - part.Keys, window, treatmentArm), SumOf(part', window, treatmentArm), Share(Contribute(m[id], window), treatmentArm));
    }
  }

  lemma PlusZero(a: Tally)
    ensures Plus(a, Zero) == a
  {
  }

  lemma PlusAssoc(a: Tally, x: Tally, y: Tally)
    ensures Plus(Plus(a, x), y) == Plus(a, Plus(x, y))
  {
  }

  lemma SumNone(window: nat, treatmentArm: string)
    ensures SumOf(map[], window, treatmentArm) == Zero
  {
  }

  /******* History *******/

  // state is what the engine holds. all keeps every accepted event, as an engine
  // that never dropped anyone would. closed are the subjects dropped after an
  // exposure, dropped the outcomes of those dropped without one. buried are the
  // subjects of every expiry, as they were when they went. again counts exposures
  // that made a closed subject count anew.
  datatype Run = Run(
    state: State, all: map<string, Subject>, closed: set<string>,
    dropped: map<string, seq<Observed>>, buried: seq<map<string, Subject>>, again: nat)

  ghost const Start: Run := Run(Fresh, map[], {}, map[], [], 0)

  ghost function LiveOr(c: Config, s: State, id: string): Subject {
    if id in s.subjects then s.subjects[id] else NewSubject(c, id)
  }

  ghost function AllOr(c: Config, r: Run, id: string): Subject {
    if id in r.all then r.all[id] else NewSubject(c, id)
  }

  ghost function DroppedOr(r: Run, id: string): seq<Observed> {
    if id in r.dropped then r.dropped[id] else []
  }

  // The subjects that go when they are dropped next.
  ghost function Leaving(c: Config, s: State): map<string, Subject> {
    map id | id in s.subjects && Expired(c, s, s.subjects[id]) :: s.subjects[id]
  }

  // What buried subjects had contributed, all together.
  ghost function Frozen(buried: seq<map<string, Subject>>, window: nat, treatmentArm: string): Tally {
    if buried == [] then Zero
    else Plus(Frozen(buried[..|buried| - 1], window, treatmentArm), SumOf(buried[|buried| - 1], window, treatmentArm))
  }

  // The history after subjects are dropped.
  ghost function RunExpire(c: Config, r: Run): Run {
    var s := r.state;
    var gone := set id | id in s.subjects && Expired(c, s, s.subjects[id]);
    r.(state := ExpireSubjects(c, s),
       closed := r.closed + (set id | id in gone && s.subjects[id].exposures != []),
       dropped := (map id | id in r.dropped.Keys + gone ::
         DroppedOr(r, id) + if id in gone && s.subjects[id].exposures == [] then s.subjects[id].outcomes else []),
       buried := r.buried + [Leaving(c, s)])
  }

  ghost function RunAccept(c: Config, r: Run, e: Event): Run {
    var next := Accept(c, r.state.(received := r.state.received + 1, seen := r.state.seen + {e.id}), e);
    r.(state := next, all := r.all[e.subject := Extended(AllOr(c, r, e.subject), e)],
       again := r.again + if e.kind.Exposure? && e.subject in r.closed && LiveOr(c, r.state, e.subject).exposures == [] then 1 else 0)
  }

  ghost function RunStep(c: Config, r: Run, e: Event): Run {
    if ReceiptFor(c, r.state, e).Accepted? then
      var next := RunAccept(c, r, e);
      if next.state.accepted % 256 == 0 then RunExpire(c, next) else next
    else r.(state := ApplyEvent(c, r.state, e))
  }

  ghost function RunAll(c: Config, r: Run, events: seq<Event>): Run {
    if events == [] then r else RunStep(c, RunAll(c, r, events[..|events| - 1]), events[|events| - 1])
  }

  // The history runs along the engine.
  lemma {:induction false} RunFollows(c: Config, r: Run, events: seq<Event>)
    ensures RunAll(c, r, events).state == ApplyAll(c, r.state, events)
  {
    hide Accept, ExpireSubjects, RunExpire;
    if events != [] {
      RunFollows(c, r, events[..|events| - 1]);
      StepFollows(c, RunAll(c, r, events[..|events| - 1]), events[|events| - 1]);
    }
  }

  lemma StepFollows(c: Config, r: Run, e: Event)
    ensures RunStep(c, r, e).state == ApplyEvent(c, r.state, e)
  {
    hide Accept, ExpireSubjects;
  }

  /******* What every run keeps *******/

  ghost predicate SubjectOk(c: Config, id: string, s: Subject) {
    && s.arm == c.assign(id) && TimesSorted(s.exposures)
    && (forall k :: 0 <= k < |s.outcomes| ==> s.outcomes[k].at <= s.latest)
  }

  // Outcomes that were dropped lie before every exposure.
  ghost predicate TooEarly(outcomes: seq<Observed>, limit: int, exposures: seq<nat>) {
    forall k :: 0 <= k < |outcomes| ==> outcomes[k].at < limit && forall j :: 0 <= j < |exposures| ==> outcomes[k].at < exposures[j]
  }

  // What the engine still holds of a subject, against all it was told.
  ghost predicate LinkOk(c: Config, r: Run, id: string) {
    var all, live := AllOr(c, r, id), LiveOr(c, r.state, id);
    && TimesSorted(all.exposures) && all.arm == c.assign(id)
    && (id !in r.closed ==>
          && all.exposures == live.exposures && all.outcomes == DroppedOr(r, id) + live.outcomes
          && TooEarly(DroppedOr(r, id), Watermark(c, r.state), live.exposures))
    && (id in r.closed ==> all.exposures != [] && all.exposures[0] + c.window < Watermark(c, r.state))
  }

  ghost predicate LiveOk(c: Config, s: State) {
    forall id :: id in s.subjects ==>
      SubjectOk(c, id, s.subjects[id]) && s.subjects[id].current == Contribute(s.subjects[id], c.window)
  }

  ghost predicate Known(r: Run) {
    && (forall id :: id in r.state.subjects ==> id in r.all)
    && (forall id :: id in r.closed ==> id in r.all)
    && (forall id :: id in r.dropped ==> id in r.all)
  }

  ghost predicate Linked(c: Config, r: Run) {
    forall id: string :: LinkOk(c, r, id)
  }

  // Live subjects and dropped ones together make up the tally.
  ghost predicate Conserved(c: Config, r: Run) {
    r.state.tally == Plus(SumOf(r.state.subjects, c.window, c.treatmentArm), Frozen(r.buried, c.window, c.treatmentArm))
  }

  ghost function Counted(t: Tally): int {
    t.treatmentN + t.controlN
  }

  // Against an engine that never drops anyone: one subject more for each exposure
  // that came again, and otherwise the same.
  ghost predicate Exact(c: Config, r: Run) {
    var whole := SumOf(r.all, c.window, c.treatmentArm);
    && Counted(r.state.tally) == Counted(whole) + r.again
    && (r.again == 0 ==> r.state.tally == whole)
  }

  // Closed subjects contribute again only if they were exposed again.
  ghost predicate ClosedQuiet(r: Run) {
    r.again == 0 ==> forall id :: id in r.closed && id in r.state.subjects ==> r.state.subjects[id].exposures == []
  }

  ghost predicate RunOk(c: Config, r: Run) {
    && Known(r) && Linked(c, r) && LiveOk(c, r.state) && Conserved(c, r) && Exact(c, r) && ClosedQuiet(r)
  }

  /******* Contributions that cannot change *******/

  lemma WithinNext(outcomes: seq<Observed>, o: Observed, lo: nat, hi: nat)
    ensures Within(outcomes + [o], lo, hi) == if lo <= o.at <= hi then (true, Within(outcomes, lo, hi).1 + o.value) else Within(outcomes, lo, hi)
  {
    assert (outcomes + [o])[..|outcomes|] == outcomes;
  }

  // Outcomes before the first exposure do not count.
  lemma {:induction false} EarlyDoNotCount(early: seq<Observed>, outcomes: seq<Observed>, lo: nat, hi: nat)
    requires forall k :: 0 <= k < |early| ==> early[k].at < lo
    ensures Within(early + outcomes, lo, hi) == Within(outcomes, lo, hi)
    decreases |early| + |outcomes|
  {
    if outcomes == [] {
      assert early + outcomes == early;
      if early != [] {
        EarlyDoNotCount(early[..|early| - 1], [], lo, hi);
        assert early[..|early| - 1] + [] == early[..|early| - 1];
      }
    } else {
      var init, last := outcomes[..|outcomes| - 1], outcomes[|outcomes| - 1];
      EarlyDoNotCount(early, init, lo, hi);
      assert early + outcomes == (early + init) + [last] && outcomes == init + [last];
      WithinNext(early + init, last, lo, hi);
      WithinNext(init, last, lo, hi);
    }
  }

  lemma EarlyContribute(all: Subject, live: Subject, early: seq<Observed>, limit: int, window: nat)
    requires all.arm == live.arm && all.exposures == live.exposures && all.outcomes == early + live.outcomes
    requires TooEarly(early, limit, live.exposures)
    ensures Contribute(all, window) == Contribute(live, window)
  {
    if live.exposures != [] {
      EarlyDoNotCount(early, live.outcomes, live.exposures[0], live.exposures[0] + window);
    }
  }

  // No event accepted after an exposed subject's window closed could have changed
  // what the subject contributed.
  lemma ClosedContributionStands(s: Subject, e: Event, window: nat)
    requires s.exposures != [] && TimesSorted(s.exposures) && s.exposures[0] + window < e.at
    ensures Contribute(Extended(s, e), window) == Contribute(s, window)
    ensures Extended(s, e).exposures != [] && Extended(s, e).exposures[0] == s.exposures[0] && TimesSorted(Extended(s, e).exposures)
  {
    match e.kind
    case Exposure => InsertSorted(s.exposures, e.at);
    case Outcome => WithinNext(s.outcomes, Observed(e.at, if e.value.Some? then e.value.value else 1.0), s.exposures[0], s.exposures[0] + window);
    case Assignment =>
  }

  lemma StartOk(c: Config)
    ensures RunOk(c, Start)
  {
    hide SumOf, Contribute, Share, LinkOk, Known, LiveOk, Conserved, Exact, ClosedQuiet;
    forall id: string ensures LinkOk(c, Start, id) {
      StartLinked(c, id);
    }
    StartSums(c);
    StartEmpty(c);
  }

  lemma StartLinked(c: Config, id: string)
    ensures LinkOk(c, Start, id)
  {
  }

  lemma StartSums(c: Config)
    ensures Conserved(c, Start) && Exact(c, Start)
  {
    hide SumOf, Plus, Counted;
    SumNone(c.window, c.treatmentArm);
    assert Start.all == map[] && Start.again == 0 && Start.state.tally == Zero && Start.buried == [] && Start.state.subjects == map[];
    NothingAdded();
  }

  lemma NothingAdded()
    ensures Plus(Zero, Zero) == Zero
  {
  }

  lemma StartEmpty(c: Config)
    ensures Known(Start) && LiveOk(c, Start.state) && ClosedQuiet(Start)
  {
    hide Contribute, SubjectOk;
  }

  /******* Accepting an event *******/

  lemma AcceptKnown(c: Config, r: Run, e: Event)
    requires Known(r)
    ensures Known(RunAccept(c, r, e))
  {
    hide Updated, Extended, AddContribution, RemoveContribution;
  }

  // The watermark never falls.
  lemma AcceptMark(c: Config, r: Run, e: Event)
    ensures Watermark(c, RunAccept(c, r, e).state) >= Watermark(c, r.state)
  {
    hide Updated, Extended, AddContribution, RemoveContribution;
  }

  lemma OnTime(c: Config, s: State, e: Event)
    requires ReceiptFor(c, s, e).Accepted?
    ensures e.at >= Watermark(c, s)
  {
  }

  lemma LiveUpdated(c: Config, r: Run, e: Event, id: string)
    ensures LiveOr(c, RunAccept(c, r, e).state, id)
         == if id == e.subject then Updated(c, LiveOr(c, r.state, id), e) else LiveOr(c, r.state, id)
    ensures AllOr(c, RunAccept(c, r, e), id) == if id == e.subject then Extended(AllOr(c, r, id), e) else AllOr(c, r, id)
  {
    hide Updated, Extended, AddContribution, RemoveContribution;
  }

  lemma ExtendSame(all: Subject, live: Subject, e: Event, early: seq<Observed>, window: nat)
    requires all.exposures == live.exposures && all.outcomes == early + live.outcomes && all.arm == live.arm
    ensures Extended(all, e).exposures == Extended(live, e).exposures
    ensures Extended(all, e).outcomes == early + Extended(live, e).outcomes
    ensures Extended(all, e).arm == Extended(live, e).arm == live.arm
  {
    hide InsertTime;
    if e.kind.Outcome? {
      var o := Observed(e.at, if e.value.Some? then e.value.value else 1.0);
      assert (early + live.outcomes) + [o] == early + (live.outcomes + [o]);
    }
  }

  lemma StillTooEarly(outcomes: seq<Observed>, limit: int, limit': int, live: Subject, e: Event)
    requires TooEarly(outcomes, limit, live.exposures) && limit <= e.at && limit <= limit' && TimesSorted(live.exposures)
    ensures TooEarly(outcomes, limit', Extended(live, e).exposures)
  {
    if e.kind.Exposure? {
      InsertSorted(live.exposures, e.at);
    }
  }

  lemma ExtendSorted(s: Subject, e: Event)
    requires TimesSorted(s.exposures)
    ensures TimesSorted(Extended(s, e).exposures) && Extended(s, e).arm == s.arm
  {
    if e.kind.Exposure? {
      InsertSorted(s.exposures, e.at);
    }
  }

  lemma AcceptLink(c: Config, r: Run, e: Event, id: string)
    requires Linked(c, r) && LiveOk(c, r.state) && ReceiptFor(c, r.state, e).Accepted?
    ensures LinkOk(c, RunAccept(c, r, e), id)
  {
    hide Updated, Extended, ReceiptFor, Watermark, LiveOr, AllOr, TimesSorted, TooEarly, RunAccept, Contribute;
    assert LinkOk(c, r, id);
    AcceptMark(c, r, e);
    OnTime(c, r.state, e);
    LiveUpdated(c, r, e, id);
    AcceptRest(c, r, e);
    var all, live := AllOr(c, r, id), LiveOr(c, r.state, id);
    if id == e.subject {
      LiveSorted(c, r.state, id);
      UpdatedParts(c, live, e);
      ExtendSorted(all, e);
      if id in r.closed {
        ClosedContributionStands(all, e, c.window);
      } else {
        ExtendSame(all, live, e, DroppedOr(r, id), c.window);
        StillTooEarly(DroppedOr(r, id), Watermark(c, r.state), Watermark(c, RunAccept(c, r, e).state), live, e);
      }
    } else if id !in r.closed {
      LaterLimit(DroppedOr(r, id), Watermark(c, r.state), Watermark(c, RunAccept(c, r, e).state), live.exposures);
    }
  }

  lemma LaterLimit(outcomes: seq<Observed>, limit: int, limit': int, exposures: seq<nat>)
    requires TooEarly(outcomes, limit, exposures) && limit <= limit'
    ensures TooEarly(outcomes, limit', exposures)
  {
  }

  lemma LiveSorted(c: Config, s: State, id: string)
    requires LiveOk(c, s)
    ensures TimesSorted(LiveOr(c, s, id).exposures) && LiveOr(c, s, id).arm == c.assign(id)
  {
    hide Contribute;
  }

  lemma UpdatedParts(c: Config, s: Subject, e: Event)
    ensures Updated(c, s, e).exposures == Extended(s, e).exposures && Updated(c, s, e).outcomes == Extended(s, e).outcomes
    ensures Updated(c, s, e).arm == s.arm
    ensures Updated(c, s, e).current == Contribute(Updated(c, s, e), c.window) == Contribute(Extended(s, e), c.window)
  {
    hide InsertTime, Within;
  }

  lemma AcceptRest(c: Config, r: Run, e: Event)
    ensures var n := RunAccept(c, r, e); n.closed == r.closed && n.dropped == r.dropped && n.buried == r.buried && n.again >= r.again
    ensures forall id :: DroppedOr(RunAccept(c, r, e), id) == DroppedOr(r, id)
  {
    hide Updated, Extended, AddContribution, RemoveContribution;
  }

  lemma AcceptLive(c: Config, r: Run, e: Event)
    requires LiveOk(c, r.state)
    ensures LiveOk(c, RunAccept(c, r, e).state)
  {
    hide Updated, AddContribution, RemoveContribution, Contribute, TimesSorted;
    var t := RunAccept(c, r, e).state;
    forall id | id in t.subjects ensures SubjectOk(c, id, t.subjects[id]) && t.subjects[id].current == Contribute(t.subjects[id], c.window) {
      if id == e.subject {
        var s := LiveOr(c, r.state, id);
        LiveSorted(c, r.state, id);
        UpdatedParts(c, s, e);
        ExtendSorted(s, e);
        OutcomesInTime(c, r.state, e);
      }
    }
  }

  lemma OutcomesInTime(c: Config, s: State, e: Event)
    requires LiveOk(c, s)
    ensures var n := Updated(c, LiveOr(c, s, e.subject), e); forall k :: 0 <= k < |n.outcomes| ==> n.outcomes[k].at <= n.latest
  {
    hide InsertTime, Contribute, TimesSorted;
  }

  // How an accepted event moves the tally.
  lemma AcceptTally(c: Config, r: Run, e: Event)
    requires ConfigOk(c) && LiveOk(c, r.state)
    ensures var live := LiveOr(c, r.state, e.subject);
      RunAccept(c, r, e).state.tally
        == Plus(Minus(r.state.tally, Share(Contribute(live, c.window), c.treatmentArm)), Share(Contribute(Extended(live, e), c.window), c.treatmentArm))
  {
    hide Extended, Updated, Contribute, AddContribution, RemoveContribution, Share, Plus, Minus;
    var old' := LiveOr(c, r.state, e.subject);
    LiveSorted(c, r.state, e.subject);
    UpdatedParts(c, old', e);
    BlankShare(c, e.subject);
    ContributeArm(old', c.window);
    AddIsPlus(r.state.tally, old'.current, c.treatmentArm);
    AddIsPlus(RemoveContribution(r.state.tally, old'.current, c.treatmentArm), Updated(c, old', e).current, c.treatmentArm);
  }

  lemma ContributeArm(s: Subject, window: nat)
    ensures Contribute(s, window).arm == s.arm
    ensures Contribute(s, window).exposed <==> s.exposures != []
  {
    hide Within;
  }

  lemma BlankShare(c: Config, id: string)
    ensures !NewSubject(c, id).current.exposed
    ensures Share(NewSubject(c, id).current, c.treatmentArm) == Share(Contribute(NewSubject(c, id), c.window), c.treatmentArm) == Zero
  {
  }

  lemma AcceptConserved(c: Config, r: Run, e: Event)
    requires ConfigOk(c) && LiveOk(c, r.state) && Conserved(c, r)
    ensures Conserved(c, RunAccept(c, r, e))
  {
    hide Extended, Updated, Contribute, Share, SumOf, AddContribution, RemoveContribution;
    var id, live := e.subject, LiveOr(c, r.state, e.subject);
    var m := r.state.subjects;
    AcceptTally(c, r, e);
    UpdatedParts(c, live, e);
    SumPut(m, c.window, c.treatmentArm, id, Updated(c, live, e));
    BlankShare(c, id);
    if id in m {
      SumRemove(m, c.window, c.treatmentArm, id);
    } else {
      assert m - {id} == m;
    }
  }

  // How many subjects a contribution counts for.
  lemma CountedShare(c: Contribution, treatmentArm: string)
    requires c.arm != ""
    ensures Counted(Share(c, treatmentArm)) == if c.exposed then 1 else 0
    ensures !c.exposed ==> Share(c, treatmentArm) == Zero
  {
  }

  lemma ArmKnown(c: Config, id: string)
    requires ConfigOk(c)
    ensures c.assign(id) != ""
  {
  }

  // What the event means to an engine that dropped nobody.
  lemma AcceptWhole(c: Config, r: Run, e: Event)
    ensures var all := AllOr(c, r, e.subject);
      SumOf(RunAccept(c, r, e).all, c.window, c.treatmentArm)
        == Plus(Minus(SumOf(r.all, c.window, c.treatmentArm), Share(Contribute(all, c.window), c.treatmentArm)), Share(Contribute(Extended(all, e), c.window), c.treatmentArm))
  {
    hide Extended, Contribute, Share, SumOf, Updated, AddContribution, RemoveContribution;
    var id, all := e.subject, AllOr(c, r, e.subject);
    SumPut(r.all, c.window, c.treatmentArm, id, Extended(all, e));
    BlankShare(c, id);
    if id in r.all {
      SumRemove(r.all, c.window, c.treatmentArm, id);
    } else {
      assert r.all - {id} == r.all;
    }
  }

  lemma ExtendExposed(s: Subject, e: Event)
    ensures Extended(s, e).exposures != [] <==> s.exposures != [] || e.kind.Exposure?
    ensures Extended(s, e).arm == s.arm
  {
  }

  // Both tallies moved, by as much or by one subject more.
  lemma MovedAlike(t: Tally, w: Tally, l0: Tally, l1: Tally, a0: Tally, a1: Tally, again: nat, again': nat)
    requires Counted(t) == Counted(w) + again && (again == 0 ==> t == w) && again <= again'
    requires Counted(l1) - Counted(l0) == Counted(a1) - Counted(a0) + again' - again
    requires again' == 0 ==> (l0 == a0 && l1 == a1) || (a0 == a1 && l0 == l1)
    ensures var t', w' := Plus(Minus(t, l0), l1), Plus(Minus(w, a0), a1);
      Counted(t') == Counted(w') + again' && (again' == 0 ==> t' == w')
  {
  }

  lemma AcceptExact(c: Config, r: Run, e: Event)
    requires ConfigOk(c) && RunOk(c, r) && ReceiptFor(c, r.state, e).Accepted?
    ensures Exact(c, RunAccept(c, r, e))
  {
    hide Extended, Contribute, Share, SumOf, Linked, LiveOk, Conserved, Known, ClosedQuiet, ReceiptFor, RunAccept, Plus, Minus, Counted, ConfigOk;
    var all, live := AllOr(c, r, e.subject), LiveOr(c, r.state, e.subject);
    AcceptTally(c, r, e);
    AcceptWhole(c, r, e);
    AcceptRest(c, r, e);
    if e.subject in r.closed {
      ClosedShares(c, r, e);
    } else {
      OpenShares(c, r, e);
    }
    MovedAlike(r.state.tally, SumOf(r.all, c.window, c.treatmentArm),
               Share(Contribute(live, c.window), c.treatmentArm), Share(Contribute(Extended(live, e), c.window), c.treatmentArm),
               Share(Contribute(all, c.window), c.treatmentArm), Share(Contribute(Extended(all, e), c.window), c.treatmentArm),
               r.again, RunAccept(c, r, e).again);
  }

  lemma AcceptQuiet(c: Config, r: Run, e: Event)
    requires ClosedQuiet(r)
    ensures ClosedQuiet(RunAccept(c, r, e))
  {
    hide Extended, Contribute, AddContribution, RemoveContribution, Updated;
    var n := RunAccept(c, r, e);
    UpdatedParts(c, LiveOr(c, r.state, e.subject), e);
    ExtendExposed(LiveOr(c, r.state, e.subject), e);
  }

  lemma AgainCount(c: Config, r: Run, e: Event)
    ensures RunAccept(c, r, e).again == r.again + if e.kind.Exposure? && e.subject in r.closed && LiveOr(c, r.state, e.subject).exposures == [] then 1 else 0
  {
    hide Updated, Extended, AddContribution, RemoveContribution;
  }

  // How many a subject counts for before and after an event.
  lemma SharesCount(c: Config, s: Subject, e: Event)
    requires s.arm != ""
    ensures Counted(Share(Contribute(s, c.window), c.treatmentArm)) == if s.exposures != [] then 1 else 0
    ensures Counted(Share(Contribute(Extended(s, e), c.window), c.treatmentArm)) == if s.exposures != [] || e.kind.Exposure? then 1 else 0
    ensures s.exposures == [] ==> Share(Contribute(s, c.window), c.treatmentArm) == Zero
    ensures s.exposures == [] && !e.kind.Exposure? ==> Share(Contribute(Extended(s, e), c.window), c.treatmentArm) == Zero
  {
    hide Extended, Contribute, Share, Counted;
    ContributeArm(s, c.window);
    ContributeArm(Extended(s, e), c.window);
    ExtendExposed(s, e);
    CountedShare(Contribute(s, c.window), c.treatmentArm);
    CountedShare(Contribute(Extended(s, e), c.window), c.treatmentArm);
  }

  // A closed subject's own contribution stands; what the engine holds counts anew
  // only with an exposure.
  lemma ClosedShares(c: Config, r: Run, e: Event)
    requires ConfigOk(c) && RunOk(c, r) && ReceiptFor(c, r.state, e).Accepted? && e.subject in r.closed
    ensures var all, live := AllOr(c, r, e.subject), LiveOr(c, r.state, e.subject);
      var a0, a1 := Share(Contribute(all, c.window), c.treatmentArm), Share(Contribute(Extended(all, e), c.window), c.treatmentArm);
      var l0, l1 := Share(Contribute(live, c.window), c.treatmentArm), Share(Contribute(Extended(live, e), c.window), c.treatmentArm);
      && Counted(l1) - Counted(l0) == Counted(a1) - Counted(a0) + RunAccept(c, r, e).again - r.again
      && a0 == a1 && (RunAccept(c, r, e).again == 0 ==> l0 == l1)
  {
    hide Extended, Contribute, Share, Known, LiveOk, Conserved, Exact, ReceiptFor, Watermark, TimesSorted, TooEarly, RunAccept, Counted;
    var id := e.subject;
    var all, live := AllOr(c, r, id), LiveOr(c, r.state, id);
    assert LinkOk(c, r, id);
    OnTime(c, r.state, e);
    LiveSorted(c, r.state, id);
    ArmKnown(c, id);
    SharesCount(c, live, e);
    AgainCount(c, r, e);
    ClosedContributionStands(all, e, c.window);
  }

  // Of an open subject the engine holds all that counts.
  lemma OpenShares(c: Config, r: Run, e: Event)
    requires ConfigOk(c) && RunOk(c, r) && ReceiptFor(c, r.state, e).Accepted? && e.subject !in r.closed
    ensures var all, live := AllOr(c, r, e.subject), LiveOr(c, r.state, e.subject);
      && Contribute(live, c.window) == Contribute(all, c.window)
      && Contribute(Extended(live, e), c.window) == Contribute(Extended(all, e), c.window)
      && RunAccept(c, r, e).again == r.again
  {
    hide Extended, Contribute, Known, LiveOk, Conserved, Exact, ReceiptFor, Watermark, TimesSorted, TooEarly, RunAccept;
    var id := e.subject;
    var all, live := AllOr(c, r, id), LiveOr(c, r.state, id);
    var early, limit := DroppedOr(r, id), Watermark(c, r.state);
    assert LinkOk(c, r, id);
    OnTime(c, r.state, e);
    LiveSorted(c, r.state, id);
    AgainCount(c, r, e);
    EarlyContribute(all, live, early, limit, c.window);
    ExtendSame(all, live, e, early, c.window);
    StillTooEarly(early, limit, limit, live, e);
    EarlyContribute(Extended(all, e), Extended(live, e), early, limit, c.window);
  }

  lemma AcceptOk(c: Config, r: Run, e: Event)
    requires ConfigOk(c) && RunOk(c, r) && ReceiptFor(c, r.state, e).Accepted?
    ensures RunOk(c, RunAccept(c, r, e))
  {
    hide Known, LinkOk, LiveOk, Conserved, Exact, ClosedQuiet, RunAccept, ReceiptFor;
    AcceptKnown(c, r, e);
    forall id: string ensures LinkOk(c, RunAccept(c, r, e), id) {
      AcceptLink(c, r, e, id);
    }
    AcceptLive(c, r, e);
    AcceptConserved(c, r, e);
    AcceptExact(c, r, e);
    AcceptQuiet(c, r, e);
  }

  /******* Dropping subjects *******/

  lemma ExpireParts(c: Config, r: Run, id: string)
    requires LiveOk(c, r.state)
    ensures var s, n := r.state, RunExpire(c, r);
      var gone := id in s.subjects && Expired(c, s, s.subjects[id]);
      && LiveOr(c, n.state, id) == (if gone then NewSubject(c, id) else LiveOr(c, s, id))
      && (id in n.closed <==> id in r.closed || (gone && s.subjects[id].exposures != []))
      && DroppedOr(n, id) == DroppedOr(r, id) + (if gone && s.subjects[id].exposures == [] then s.subjects[id].outcomes else [])
      && AllOr(c, n, id) == AllOr(c, r, id) && Watermark(c, n.state) == Watermark(c, s)
  {
    hide Contribute, UnmatchedOf, SubjectOk;
    var s := r.state;
    assert DroppedOr(r, id) + [] == DroppedOr(r, id);
  }

  lemma ExpireLink(c: Config, r: Run, id: string)
    requires Linked(c, r) && LiveOk(c, r.state)
    ensures LinkOk(c, RunExpire(c, r), id)
  {
    hide Contribute, RunExpire, Watermark, LiveOr, AllOr, DroppedOr, TimesSorted;
    assert LinkOk(c, r, id);
    ExpireParts(c, r, id);
    LiveIs(c, r.state, id);
    var s := r.state;
    if id in s.subjects && Expired(c, s, s.subjects[id]) {
      assert SubjectOk(c, id, s.subjects[id]);
      var early := DroppedOr(r, id);
      assert early + [] == early;
      if s.subjects[id].exposures == [] && id !in r.closed {
        DroppedEarly(early, s.subjects[id].outcomes, Watermark(c, s), s.subjects[id].latest);
        assert (early + s.subjects[id].outcomes) + [] == early + s.subjects[id].outcomes;
      }
    }
  }

  lemma LiveIs(c: Config, s: State, id: string)
    ensures id in s.subjects ==> LiveOr(c, s, id) == s.subjects[id]
    ensures NewSubject(c, id).exposures == [] && NewSubject(c, id).outcomes == []
  {
  }

  lemma DroppedEarly(early: seq<Observed>, outcomes: seq<Observed>, limit: int, latest: nat)
    requires TooEarly(early, limit, []) && latest < limit && forall k :: 0 <= k < |outcomes| ==> outcomes[k].at <= latest
    ensures TooEarly(early + outcomes, limit, [])
  {
  }

  // Dropping subjects freezes exactly what they contribute: the live sum falls by
  // the sum over the subjects that go.
  lemma ExpireConserved(c: Config, r: Run)
    requires Conserved(c, r)
    ensures Conserved(c, RunExpire(c, r))
    ensures var gone := Leaving(c, r.state);
      && RunExpire(c, r).state.subjects == r.state.subjects - gone.Keys
      && SumOf(r.state.subjects, c.window, c.treatmentArm)
         == Plus(SumOf(RunExpire(c, r).state.subjects, c.window, c.treatmentArm), SumOf(gone, c.window, c.treatmentArm))
  {
    hide SumOf, UnmatchedOf, Contribute, Share;
    var s, gone := r.state, Leaving(c, r.state);
    assert ExpireSubjects(c, s).subjects == s.subjects - gone.Keys;
    SumSplit(s.subjects, gone, c.window, c.treatmentArm);
    assert (r.buried + [gone])[..|r.buried|] == r.buried;
  }

  lemma ExpireOk(c: Config, r: Run)
    requires RunOk(c, r)
    ensures RunOk(c, RunExpire(c, r))
  {
    hide Contribute, UnmatchedOf, SumOf, Share, LinkOk, SubjectOk, Conserved, Leaving;
    ExpireConserved(c, r);
    forall id: string ensures LinkOk(c, RunExpire(c, r), id) {
      ExpireLink(c, r, id);
    }
  }

  /******* Whole runs *******/

  lemma StepOk(c: Config, r: Run, e: Event)
    requires ConfigOk(c) && RunOk(c, r)
    ensures RunOk(c, RunStep(c, r, e))
  {
    hide RunOk, RunAccept, RunExpire, ReceiptFor, ApplyEvent;
    if ReceiptFor(c, r.state, e).Accepted? {
      AcceptOk(c, r, e);
      ExpireOk(c, RunAccept(c, r, e));
    } else {
      RefusedOk(c, r, e);
    }
  }

  lemma RefusedOk(c: Config, r: Run, e: Event)
    requires RunOk(c, r) && !ReceiptFor(c, r.state, e).Accepted?
    ensures RunOk(c, r.(state := ApplyEvent(c, r.state, e)))
  {
    hide Contribute, SumOf, Share, SubjectOk, Exact, LinkOk;
    var n := r.(state := ApplyEvent(c, r.state, e));
    assert n.state.subjects == r.state.subjects && n.state.tally == r.state.tally && n.state.maxTime == r.state.maxTime;
    forall id: string ensures LinkOk(c, n, id) {
      SameLink(c, r, n, id);
    }
    SameExact(c, r, n);
  }

  lemma SameParts(c: Config, r: Run, n: Run, id: string)
    requires n == r.(state := n.state) && n.state.subjects == r.state.subjects && n.state.maxTime == r.state.maxTime
    ensures AllOr(c, n, id) == AllOr(c, r, id) && LiveOr(c, n.state, id) == LiveOr(c, r.state, id)
    ensures DroppedOr(n, id) == DroppedOr(r, id) && Watermark(c, n.state) == Watermark(c, r.state) && n.closed == r.closed
  {
  }

  lemma SameLink(c: Config, r: Run, n: Run, id: string)
    requires LinkOk(c, r, id) && n == r.(state := n.state) && n.state.subjects == r.state.subjects && n.state.maxTime == r.state.maxTime
    ensures LinkOk(c, n, id)
  {
    hide AllOr, LiveOr, DroppedOr, Watermark, TimesSorted, TooEarly;
    SameParts(c, r, n, id);
  }

  lemma SameExact(c: Config, r: Run, n: Run)
    requires Exact(c, r) && n == r.(state := n.state) && n.state.tally == r.state.tally
    ensures Exact(c, n)
  {
    hide SumOf;
  }

  lemma {:induction false} RunsOk(c: Config, events: seq<Event>)
    requires ConfigOk(c)
    ensures RunOk(c, RunAll(c, Start, events))
    decreases |events|
  {
    hide RunOk, RunStep, ConfigOk;
    if events == [] {
      StartOk(c);
    } else {
      RunsOk(c, events[..|events| - 1]);
      StepOk(c, RunAll(c, Start, events[..|events| - 1]), events[|events| - 1]);
    }
  }

  // Over any stream, the tally is the sum over the live subjects and over all the
  // subjects that were dropped, as they were when they went.
  lemma AttributionConserved(c: Config, events: seq<Event>)
    requires ConfigOk(c)
    ensures var s := ApplyAll(c, Fresh, events);
      s.tally == Plus(SumOf(s.subjects, c.window, c.treatmentArm), Frozen(RunAll(c, Start, events).buried, c.window, c.treatmentArm))
  {
    hide RunStep, ApplyEvent, SumOf, Known, Linked, LiveOk, Exact, ClosedQuiet;
    RunsOk(c, events);
    RunFollows(c, Start, events);
  }

  /******* What was frozen stands *******/

  // Expiry k is the first at which the subject went after an exposure.
  ghost predicate ClosedAt(r: Run, id: string, k: nat) {
    && k < |r.buried| && id in r.buried[k] && r.buried[k][id].exposures != []
    && forall j :: 0 <= j < k && id in r.buried[j] ==> r.buried[j][id].exposures == []
  }

  // A closed subject went at some expiry, and what it contributed then is what all
  // its events contribute.
  ghost predicate Stands(c: Config, r: Run) {
    && (forall id: string :: id in r.closed <==> exists k :: 0 <= k < |r.buried| && id in r.buried[k] && r.buried[k][id].exposures != [])
    && (forall id: string, k: nat :: ClosedAt(r, id, k) ==>
          Contribute(r.buried[k][id], c.window) == Contribute(AllOr(c, r, id), c.window))
  }

  lemma AcceptStands(c: Config, r: Run, e: Event)
    requires RunOk(c, r) && Stands(c, r) && ReceiptFor(c, r.state, e).Accepted?
    ensures Stands(c, RunAccept(c, r, e))
  {
    hide Known, LiveOk, Conserved, Exact, ClosedQuiet, RunAccept, ReceiptFor, Watermark, Extended, Updated, Contribute, TimesSorted, TooEarly;
    var n := RunAccept(c, r, e);
    AcceptRest(c, r, e);
    OnTime(c, r.state, e);
    forall id: string, k: nat | ClosedAt(n, id, k)
      ensures Contribute(n.buried[k][id], c.window) == Contribute(AllOr(c, n, id), c.window)
    {
      assert ClosedAt(r, id, k);
      assert LinkOk(c, r, id);
      LiveUpdated(c, r, e, id);
      if id == e.subject {
        ClosedContributionStands(AllOr(c, r, id), e, c.window);
      }
    }
  }

  lemma ExpireStands(c: Config, r: Run)
    requires RunOk(c, r) && Stands(c, r)
    ensures Stands(c, RunExpire(c, r))
  {
    hide Known, LiveOk, Conserved, Exact, ClosedQuiet, Watermark, Contribute, TimesSorted, Expired, UnmatchedOf;
    var n, last := RunExpire(c, r), |r.buried|;
    assert n.buried[last] == Leaving(c, r.state);
    forall id: string ensures id in n.closed <==> exists k :: 0 <= k < |n.buried| && id in n.buried[k] && n.buried[k][id].exposures != [] {
      if id in r.closed {
        var k :| 0 <= k < |r.buried| && id in r.buried[k] && r.buried[k][id].exposures != [];
        assert n.buried[k] == r.buried[k];
      } else if id in n.closed {
        assert id in n.buried[last];
      } else {
        forall k | 0 <= k < |n.buried| && id in n.buried[k] ensures n.buried[k][id].exposures == [] {
          assert k < last ==> n.buried[k] == r.buried[k];
        }
      }
    }
    forall id: string, k: nat | ClosedAt(n, id, k)
      ensures Contribute(n.buried[k][id], c.window) == Contribute(AllOr(c, n, id), c.window)
    {
      ClosedEarlier(r, n, id, k);
      if k == last {
        assert LinkOk(c, r, id);
        LiveSorted(c, r.state, id);
        EarlyContribute(AllOr(c, r, id), r.state.subjects[id], DroppedOr(r, id), Watermark(c, r.state), c.window);
      }
    }
  }

  lemma ClosedEarlier(r: Run, n: Run, id: string, k: nat)
    requires |n.buried| == |r.buried| + 1 && n.buried[..|r.buried|] == r.buried && ClosedAt(n, id, k)
    ensures k < |r.buried| ==> ClosedAt(r, id, k) && n.buried[k] == r.buried[k]
    ensures k == |r.buried| ==> forall j :: 0 <= j < |r.buried| && id in r.buried[j] ==> r.buried[j][id].exposures == []
  {
    assert forall j :: 0 <= j < |r.buried| ==> r.buried[j] == n.buried[..|r.buried|][j] == n.buried[j];
  }

  lemma StepStands(c: Config, r: Run, e: Event)
    requires ConfigOk(c) && RunOk(c, r) && Stands(c, r)
    ensures Stands(c, RunStep(c, r, e))
  {
    hide RunOk, RunAccept, RunExpire, ReceiptFor, Contribute, ApplyEvent;
    if ReceiptFor(c, r.state, e).Accepted? {
      AcceptOk(c, r, e);
      AcceptStands(c, r, e);
      ExpireStands(c, RunAccept(c, r, e));
    } else {
      var n := RunStep(c, r, e);
      assert n.buried == r.buried && n.closed == r.closed && n.all == r.all;
      forall id: string, k: nat | ClosedAt(n, id, k)
        ensures Contribute(n.buried[k][id], c.window) == Contribute(AllOr(c, n, id), c.window)
      {
        assert ClosedAt(r, id, k) && AllOr(c, n, id) == AllOr(c, r, id);
      }
    }
  }

  lemma {:induction false} RunsStand(c: Config, events: seq<Event>)
    requires ConfigOk(c)
    ensures Stands(c, RunAll(c, Start, events))
    decreases |events|
  {
    hide Stands, RunOk, RunStep, ConfigOk;
    if events == [] {
      NothingBuried(c);
    } else {
      var init := events[..|events| - 1];
      RunsStand(c, init);
      RunsOk(c, init);
      StepStands(c, RunAll(c, Start, init), events[|events| - 1]);
    }
  }

  lemma NothingBuried(c: Config)
    ensures Stands(c, Start)
  {
  }

  lemma BuriedGrows(c: Config, r: Run, e: Event)
    ensures r.buried <= RunStep(c, r, e).buried
  {
    hide RunAccept, ReceiptFor, ApplyEvent, UnmatchedOf;
    AcceptRest(c, r, e);
  }

  lemma {:induction false} BuriedStay(c: Config, events: seq<Event>, more: seq<Event>)
    ensures RunAll(c, Start, events).buried <= RunAll(c, Start, events + more).buried
    decreases |more|
  {
    hide RunStep;
    if more == [] {
      assert events + more == events;
    } else {
      var init, last := more[..|more| - 1], more[|more| - 1];
      BuriedStay(c, events, init);
      assert events + more == (events + init) + [last];
      RunLast(c, Start, events + init, last);
      BuriedGrows(c, RunAll(c, Start, events + init), last);
    }
  }

  // Whatever arrives later, what a subject contributed when it was first dropped
  // with an exposure is what all its accepted events contribute: none of them could
  // have changed it.
  lemma FrozenStands(c: Config, events: seq<Event>, more: seq<Event>, id: string, k: nat)
    requires ConfigOk(c) && ClosedAt(RunAll(c, Start, events), id, k)
    ensures var r, later := RunAll(c, Start, events), RunAll(c, Start, events + more);
      && ClosedAt(later, id, k) && later.buried[k][id] == r.buried[k][id]
      && Contribute(r.buried[k][id], c.window) == Contribute(AllOr(c, later, id), c.window)
  {
    hide RunAll, Contribute;
    BuriedStay(c, events, more);
    RunsStand(c, events + more);
    var r, later := RunAll(c, Start, events), RunAll(c, Start, events + more);
    assert forall j :: 0 <= j < |r.buried| ==> later.buried[j] == r.buried[j];
    assert ClosedAt(later, id, k);
  }

  /******* When dropping subjects is harmless *******/

  // Event i of a stream is accepted by the engine.
  ghost predicate Taken(c: Config, events: seq<Event>, i: nat)
    requires i < |events|
  {
    ReceiptFor(c, ApplyAll(c, Fresh, events[..i]), events[i]).Accepted?
  }

  // It is an exposure of a subject that was exposed before, and the engine holds no
  // exposure of that subject any more.
  ghost predicate ExposedAnew(c: Config, events: seq<Event>, i: nat)
    requires i < |events|
  {
    && Taken(c, events, i) && events[i].kind.Exposure?
    && LiveOr(c, ApplyAll(c, Fresh, events[..i]), events[i].subject).exposures == []
    && ExposedBefore(c, events[..i], events[i].subject)
  }

  ghost predicate ExposedBefore(c: Config, events: seq<Event>, id: string) {
    exists j :: 0 <= j < |events| && Taken(c, events, j) && events[j].kind.Exposure? && events[j].subject == id
  }

  // What an engine that never drops anyone holds after the accepted events.
  ghost function Kept(c: Config, events: seq<Event>): map<string, Subject> {
    if events == [] then map[]
    else
      var kept, e := Kept(c, events[..|events| - 1]), events[|events| - 1];
      if Taken(c, events, |events| - 1) then
        kept[e.subject := Extended(if e.subject in kept then kept[e.subject] else NewSubject(c, e.subject), e)]
      else kept
  }

  lemma {:induction false} AllIsKept(c: Config, events: seq<Event>)
    ensures RunAll(c, Start, events).all == Kept(c, events)
    decreases |events|
  {
    hide Extended, Accept, ApplyEvent, ReceiptFor, UnmatchedOf;
    if events != [] {
      var init := events[..|events| - 1];
      AllIsKept(c, init);
      RunFollows(c, Start, init);
    }
  }

  lemma TakenPrefix(c: Config, events: seq<Event>, n: nat, j: nat)
    requires j < n <= |events|
    ensures Taken(c, events[..n], j) == Taken(c, events, j) && ExposedAnew(c, events[..n], j) == ExposedAnew(c, events, j)
  {
    assert events[..n][..j] == events[..j];
  }

  lemma {:induction false} KeptExposed(c: Config, events: seq<Event>, id: string)
    ensures (if id in Kept(c, events) then Kept(c, events)[id].exposures else []) != [] <==> ExposedBefore(c, events, id)
    decreases |events|
  {
    hide Extended, ApplyAll, ReceiptFor, InsertTime;
    if events != [] {
      var n := |events| - 1;
      var init, e := events[..n], events[n];
      KeptExposed(c, init, id);
      ExtendExposed(if e.subject in Kept(c, init) then Kept(c, init)[e.subject] else NewSubject(c, e.subject), e);
      forall j | 0 <= j < n ensures Taken(c, init, j) == Taken(c, events, j) {
        TakenPrefix(c, events, n, j);
      }
      if ExposedBefore(c, init, id) {
        var j :| 0 <= j < |init| && Taken(c, init, j) && init[j].kind.Exposure? && init[j].subject == id;
        assert Taken(c, events, j) && events[j].kind.Exposure? && events[j].subject == id;
      }
      if ExposedBefore(c, events, id) {
        var j :| 0 <= j < |events| && Taken(c, events, j) && events[j].kind.Exposure? && events[j].subject == id;
        assert j < n ==> Taken(c, init, j) && init[j] == events[j];
      }
    }
  }

  // The count of exposures that came again is the number of such events, seen from
  // the stream.
  lemma AgainStep(c: Config, init: seq<Event>, e: Event)
    requires ConfigOk(c)
    ensures var r := RunAll(c, Start, init);
      RunStep(c, r, e).again == r.again + if ExposedAnew(c, init + [e], |init|) then 1 else 0
  {
    hide Extended, Accept, ApplyEvent, UnmatchedOf, Kept, ApplyAll, RunAll, RunAccept, Known, LiveOk, Conserved, Exact, ClosedQuiet, TimesSorted, TooEarly, Watermark;
    var r := RunAll(c, Start, init);
    assert (init + [e])[..|init|] == init;
    RunsOk(c, init);
    RunFollows(c, Start, init);
    AllIsKept(c, init);
    KeptExposed(c, init, e.subject);
    assert LinkOk(c, r, e.subject);
    AgainCount(c, r, e);
    AgainStays(c, RunAccept(c, r, e));
  }

  lemma {:induction false} AgainMeans(c: Config, events: seq<Event>)
    requires ConfigOk(c)
    ensures RunAll(c, Start, events).again == 0 <==> forall i :: 0 <= i < |events| ==> !ExposedAnew(c, events, i)
    decreases |events|
  {
    hide ExposedAnew, RunStep, ConfigOk;
    if events != [] {
      var n := |events| - 1;
      var init, e := events[..n], events[n];
      AgainMeans(c, init);
      AgainStep(c, init, e);
      assert init + [e] == events;
      forall i | 0 <= i < n ensures ExposedAnew(c, init, i) == ExposedAnew(c, events, i) {
        TakenPrefix(c, events, n, i);
      }
    }
  }

  // Dropping subjects is harmless exactly when no exposure came again: the tally
  // is that of an engine that keeps everyone if and only if the stream has no
  // exposure of a subject that was exposed before and that the engine had dropped.
  lemma ExpiryIsExact(c: Config, events: seq<Event>)
    requires ConfigOk(c)
    ensures ApplyAll(c, Fresh, events).tally == SumOf(Kept(c, events), c.window, c.treatmentArm)
      <==> forall i :: 0 <= i < |events| ==> !ExposedAnew(c, events, i)
  {
    hide RunStep, ApplyEvent, SumOf, Known, Linked, LiveOk, Conserved, ClosedQuiet, ExposedAnew, Kept;
    RunsOk(c, events);
    RunFollows(c, Start, events);
    AllIsKept(c, events);
    AgainMeans(c, events);
  }

  /******* A subject that counts twice *******/

  function Name(k: nat): string {
    seq(k + 1, _ => 'x')
  }

  // Late enough that a window that opened at time 1 is over.
  function Far(c: Config): nat {
    c.window + c.lateness + 3
  }

  function FirstExposure(c: Config): Event {
    Event("a", Exposure, "a", "", 1, "", None, c.version)
  }

  function Filler(c: Config, k: nat): Event {
    Event(Name(k), Assignment, "b", "", Far(c), "", None, c.version)
  }

  function SecondExposure(c: Config): Event {
    Event("again", Exposure, "a", "", Far(c), "", None, c.version)
  }

  // One exposure, and n later events of someone else.
  function Stream(c: Config, n: nat): seq<Event> {
    if n == 0 then [FirstExposure(c)] else Stream(c, n - 1) + [Filler(c, n - 1)]
  }

  ghost predicate Filled(c: Config, r: Run, n: nat) {
    && r.state.accepted == n + 1 && r.again == 0 && r.closed == {}
    && "a" in r.state.subjects && r.state.subjects["a"].exposures == [1]
    && (forall id :: id in r.state.seen ==> id == "a" || exists k :: 0 <= k < n && id == Name(k))
    && r.state.maxTime == if n == 0 then 1 else Far(c)
  }

  lemma RunLast(c: Config, r: Run, events: seq<Event>, e: Event)
    ensures RunAll(c, r, events + [e]) == RunStep(c, RunAll(c, r, events), e)
  {
    hide RunStep;
    assert (events + [e])[..|events|] == events;
  }

  lemma FirstFilled(c: Config)
    ensures Filled(c, RunAll(c, Start, Stream(c, 0)), 0)
  {
    RunLast(c, Start, [], FirstExposure(c));
    assert [] + [FirstExposure(c)] == Stream(c, 0);
    assert RunAll(c, Start, []) == Start;
  }

  lemma FillerAccepted(c: Config, r: Run, n: nat)
    requires Filled(c, r, n)
    ensures ReceiptFor(c, r.state, Filler(c, n)).Accepted?
    ensures Filled(c, RunAccept(c, r, Filler(c, n)), n + 1)
  {
    hide Contribute, AddContribution, RemoveContribution;
    NamesDiffer(n);
    var e := Filler(c, n);
    var next := RunAccept(c, r, e);
    assert next.state.subjects["a"] == r.state.subjects["a"];
    forall id | id in next.state.seen ensures id == "a" || exists k :: 0 <= k < n + 1 && id == Name(k) {
      if id in r.state.seen && id != "a" {
        var k :| 0 <= k < n && id == Name(k);
      } else if id != "a" {
        assert id == Name(n);
      }
    }
  }

  lemma NamesDiffer(n: nat)
    ensures Name(n) != "a" && Name(n) != "again" && forall k :: 0 <= k < n ==> Name(k) != Name(n)
  {
    assert Name(n)[0] == 'x';
    forall k | 0 <= k < n ensures Name(k) != Name(n) {
      assert |Name(k)| == k + 1 && |Name(n)| == n + 1;
    }
  }

  lemma {:induction false} Filling(c: Config, n: nat)
    requires n <= 254
    ensures Filled(c, RunAll(c, Start, Stream(c, n)), n)
  {
    hide Filled, RunStep, RunAll;
    if n == 0 {
      FirstFilled(c);
    } else {
      Filling(c, n - 1);
      FillerStep(c, RunAll(c, Start, Stream(c, n - 1)), n - 1);
      RunLast(c, Start, Stream(c, n - 1), Filler(c, n - 1));
    }
  }

  lemma FillerStep(c: Config, r: Run, n: nat)
    requires Filled(c, r, n) && n < 254
    ensures Filled(c, RunStep(c, r, Filler(c, n)), n + 1)
  {
    hide Filled, RunAccept, ReceiptFor, RunExpire;
    FillerAccepted(c, r, n);
    FilledCount(c, RunAccept(c, r, Filler(c, n)), n + 1);
  }

  lemma FilledCount(c: Config, r: Run, n: nat)
    requires Filled(c, r, n)
    ensures r.state.accepted == n + 1
  {
  }

  lemma FilledExpires(c: Config, r: Run)
    requires Filled(c, r, 255)
    ensures var n := RunExpire(c, r); "a" in n.closed && "a" !in n.state.subjects && n.again == 0 && n.state.seen == r.state.seen && n.state.maxTime == Far(c)
  {
    hide Contribute, UnmatchedOf;
    assert Expired(c, r.state, r.state.subjects["a"]);
  }

  lemma SecondAccepted(c: Config, r: Run)
    requires "a" in r.closed && "a" !in r.state.subjects && r.again == 0 && r.state.maxTime == Far(c) && "again" !in r.state.seen
    ensures ReceiptFor(c, r.state, SecondExposure(c)).Accepted?
    ensures RunAccept(c, r, SecondExposure(c)).again == 1
  {
    hide Extended, Updated, AddContribution, RemoveContribution;
  }

  // A subject exposed again after it was dropped counts twice.
  lemma SubjectCanCountTwice(c: Config) returns (events: seq<Event>)
    requires ConfigOk(c)
    ensures ApplyAll(c, Fresh, events).tally != SumOf(Kept(c, events), c.window, c.treatmentArm)
    ensures Kept(c, events).Keys <= {"a", "b"}
    ensures Counted(ApplyAll(c, Fresh, events).tally) == Counted(SumOf(Kept(c, events), c.window, c.treatmentArm)) + 1
  {
    hide SumOf, RunAccept, RunExpire, ReceiptFor, Filled, ApplyEvent, Known, Linked, LiveOk, Conserved, ClosedQuiet, Counted, Kept;
    events := Stream(c, 255) + [SecondExposure(c)];
    var r254, r255 := RunAll(c, Start, Stream(c, 254)), RunAll(c, Start, Stream(c, 255));
    Filling(c, 254);
    FillerAccepted(c, r254, 254);
    RunLast(c, Start, Stream(c, 254), Filler(c, 254));
    var full := RunAccept(c, r254, Filler(c, 254));
    FilledCount(c, full, 255);
    FilledExpires(c, full);
    assert r255 == RunExpire(c, full);
    NotSeen(c, full);
    SecondAccepted(c, r255);
    RunLast(c, Start, Stream(c, 255), SecondExposure(c));
    AcceptedCount(c, r255, SecondExposure(c));
    AgainStays(c, RunAccept(c, r255, SecondExposure(c)));
    RunsOk(c, events);
    RunFollows(c, Start, events);
    AllIsKept(c, events);
    StreamSubjects(c, 255);
    AllStep(c, Start, Stream(c, 255), SecondExposure(c));
  }

  lemma NotSeen(c: Config, r: Run)
    requires Filled(c, r, 255)
    ensures "again" !in r.state.seen
  {
    if "again" in r.state.seen {
      var k :| 0 <= k < 255 && "again" == Name(k);
      NamesDiffer(k);
    }
  }

  lemma AcceptedCount(c: Config, r: Run, e: Event)
    requires ReceiptFor(c, r.state, e).Accepted?
    ensures RunStep(c, r, e).again == RunAccept(c, r, e).again
  {
    hide RunAccept;
  }

  lemma AgainStays(c: Config, r: Run)
    ensures RunExpire(c, r).again == r.again
  {
  }

  lemma AllStep(c: Config, r: Run, events: seq<Event>, e: Event)
    ensures RunAll(c, r, events + [e]).all.Keys <= RunAll(c, r, events).all.Keys + {e.subject}
  {
    hide Extended, Accept, ApplyEvent, ReceiptFor;
    RunLast(c, r, events, e);
  }

  lemma {:induction false} StreamSubjects(c: Config, n: nat)
    ensures RunAll(c, Start, Stream(c, n)).all.Keys <= {"a", "b"}
  {
    hide RunAll;
    if n == 0 {
      AllStep(c, Start, [], FirstExposure(c));
      NoneYet(c);
      assert [] + [FirstExposure(c)] == Stream(c, 0);
    } else {
      StreamSubjects(c, n - 1);
      AllStep(c, Start, Stream(c, n - 1), Filler(c, n - 1));
    }
  }

  lemma NoneYet(c: Config)
    ensures RunAll(c, Start, []) == Start
  {
  }
}
