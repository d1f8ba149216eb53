// What the aggregates say about the events: who was exposed, who converted, and
// what the outcomes in the window add up to.
module AttributionMeaning {
  import opened Results
  import opened Attribution
  import opened AttributionRuns

  /******* Read off the stream *******/

  // Accepted event i is an exposure of subject id.
  ghost predicate Exposes(c: Config, events: seq<Event>, i: nat, id: string)
    requires i < |events|
  {
    Taken(c, events, i) && events[i].kind.Exposure? && events[i].subject == id
  }

  // t is the time of the earliest accepted exposure of subject id.
  ghost predicate Earliest(c: Config, events: seq<Event>, id: string, t: nat) {
    && (exists i :: 0 <= i < |events| && Exposes(c, events, i, id) && events[i].at == t)
    && forall i :: 0 <= i < |events| && Exposes(c, events, i, id) ==> t <= events[i].at
  }

  // Accepted outcome i lies in the window after its subject's earliest exposure.
  ghost predicate InWindow(c: Config, events: seq<Event>, i: nat)
    requires i < |events|
  {
    && Taken(c, events, i) && events[i].kind.Outcome?
    && exists t: nat :: Earliest(c, events, events[i].subject, t) && t <= events[i].at <= t + c.window
  }

  predicate InArm(c: Config, id: string, treated: bool) {
    (c.assign(id) == c.treatmentArm) == treated
  }

  ghost function ExposedIds(c: Config, events: seq<Event>, treated: bool): set<string> {
    set i | 0 <= i < |events| && Exposes(c, events, i, events[i].subject) && InArm(c, events[i].subject, treated) :: events[i].subject
  }

  ghost function ConvertedIds(c: Config, events: seq<Event>, treated: bool): set<string> {
    set i | 0 <= i < |events| && InWindow(c, events, i) && InArm(c, events[i].subject, treated) :: events[i].subject
  }

  function Worth(e: Event): real {
    if e.value.Some? then e.value.value else 1.0
  }

  // What the outcomes in their windows among the first n events are worth.
  ghost function WorthOf(c: Config, events: seq<Event>, treated: bool, n: nat): real
    requires n <= |events|
  {
    if n == 0 then 0.0
    else
      WorthOf(c, events, treated, n - 1)
        + if InWindow(c, events, n - 1) && InArm(c, events[n - 1].subject, treated) then Worth(events[n - 1]) else 0.0
  }

  /******* One subject *******/

  ghost function FirstUpTo(c: Config, events: seq<Event>, id: string, n: nat): Option<nat>
    requires n <= |events|
  {
    if n == 0 then None
    else
      var before := FirstUpTo(c, events, id, n - 1);
      if Exposes(c, events, n - 1, id) && (before.None? || events[n - 1].at < before.value) then Some(events[n - 1].at) else before
  }

  ghost predicate Observes(c: Config, events: seq<Event>, i: nat, id: string)
    requires i < |events|
  {
    Taken(c, events, i) && events[i].kind.Outcome? && events[i].subject == id
  }

  ghost function OutcomesUpTo(c: Config, events: seq<Event>, id: string, n: nat): seq<Observed>
    requires n <= |events|
  {
    if n == 0 then []
    else
      OutcomesUpTo(c, events, id, n - 1)
        + if Observes(c, events, n - 1, id) then [Observed(events[n - 1].at, Worth(events[n - 1]))] else []
  }

  // What the engine that keeps everyone holds of a subject, in these terms.
  ghost predicate Describes(c: Config, events: seq<Event>, n: nat, kept: map<string, Subject>, id: string)
    requires n <= |events|
  {
    if id in kept then
      && kept[id].arm == c.assign(id) && TimesSorted(kept[id].exposures)
      && FirstUpTo(c, events, id, n) == (if kept[id].exposures == [] then None else Some(kept[id].exposures[0]))
      && kept[id].outcomes == OutcomesUpTo(c, events, id, n)
    else FirstUpTo(c, events, id, n) == None && OutcomesUpTo(c, events, id, n) == []
  }

  lemma ExtendedParts(s: Subject, e: Event)
    requires TimesSorted(s.exposures)
    ensures var t := Extended(s, e);
      && t.arm == s.arm && TimesSorted(t.exposures)
      && (e.kind.Exposure? ==>
            (t.outcomes == s.outcomes && t.exposures != []
             && t.exposures[0] == if s.exposures == [] || e.at < s.exposures[0] then e.at else s.exposures[0]))
      && (e.kind.Outcome? ==> t.exposures == s.exposures && t.outcomes == s.outcomes + [Observed(e.at, Worth(e))])
      && (e.kind.Assignment? ==> t.exposures == s.exposures && t.outcomes == s.outcomes)
  {
    if e.kind.Exposure? {
      InsertSorted(s.exposures, e.at);
    }
  }

  lemma {:induction false} KeptMeans(c: Config, events: seq<Event>, id: string, n: nat)
    requires n <= |events|
    ensures Describes(c, events, n, Kept(c, events[..n]), id)
    decreases n
  {
    hide Taken, Extended;
    if n == 0 {
      assert Kept(c, events[..0]) == map[];
    } else {
      KeptMeans(c, events, id, n - 1);
      var before, e := Kept(c, events[..n - 1]), events[n - 1];
      assert events[..n][..n - 1] == events[..n - 1];
      TakenPrefix(c, events, n, n - 1);
      assert Kept(c, events[..n]) ==
        if Taken(c, events, n - 1) then before[e.subject := Extended(if e.subject in before then before[e.subject] else NewSubject(c, e.subject), e)]
        else before;
      if e.subject == id {
        ExtendedParts(if id in before then before[id] else NewSubject(c, id), e);
      }
    }
  }

  lemma {:induction false} FirstMeans(c: Config, events: seq<Event>, id: string, n: nat)
    requires n <= |events|
    ensures var f := FirstUpTo(c, events, id, n);
      if f.None? then forall i :: 0 <= i < n ==> !Exposes(c, events, i, id)
      else
        && (exists i :: 0 <= i < n && Exposes(c, events, i, id) && events[i].at == f.value)
        && forall i :: 0 <= i < n && Exposes(c, events, i, id) ==> f.value <= events[i].at
    decreases n
  {
    hide Exposes;
    if n > 0 {
      FirstMeans(c, events, id, n - 1);
    }
  }

  lemma EarliestIs(c: Config, events: seq<Event>, id: string, t: nat)
    ensures Earliest(c, events, id, t) <==> FirstUpTo(c, events, id, |events|) == Some(t)
  {
    hide Exposes, FirstUpTo;
    FirstMeans(c, events, id, |events|);
  }

  lemma InWindowIs(c: Config, events: seq<Event>, i: nat, id: string)
    requires i < |events|
    ensures var f := FirstUpTo(c, events, id, |events|);
      (InWindow(c, events, i) && events[i].subject == id)
        <==> (Observes(c, events, i, id) && f.Some? && f.value <= events[i].at <= f.value + c.window)
  {
    hide Earliest, Taken, FirstUpTo;
    var f := FirstUpTo(c, events, id, |events|);
    forall t: nat ensures Earliest(c, events, id, t) <==> f == Some(t) {
      EarliestIs(c, events, id, t);
    }
  }

  // What the outcomes of one subject are worth, among the first n events.
  ghost function SubjectWorth(c: Config, events: seq<Event>, id: string, n: nat): real
    requires n <= |events|
  {
    if n == 0 then 0.0
    else
      SubjectWorth(c, events, id, n - 1)
        + if InWindow(c, events, n - 1) && events[n - 1].subject == id then Worth(events[n - 1]) else 0.0
  }

  lemma {:induction false} WithinMeans(c: Config, events: seq<Event>, id: string, t: nat, n: nat)
    requires n <= |events| && FirstUpTo(c, events, id, |events|) == Some(t)
    ensures var within := Within(OutcomesUpTo(c, events, id, n), t, t + c.window);
      && within.1 == SubjectWorth(c, events, id, n)
      && (within.0 <==> exists i :: 0 <= i < n && InWindow(c, events, i) && events[i].subject == id)
    decreases n
  {
    hide InWindow, Observes, FirstUpTo, Within;
    if n == 0 {
      NothingWithin(t, t + c.window);
    } else {
      WithinMeans(c, events, id, t, n - 1);
      InWindowIs(c, events, n - 1, id);
      var before := OutcomesUpTo(c, events, id, n - 1);
      WithinNext(before, Observed(events[n - 1].at, Worth(events[n - 1])), t, t + c.window);
      assert before + [] == before;
    }
  }

  lemma NothingWithin(lo: nat, hi: nat)
    ensures Within([], lo, hi) == (false, 0.0)
  {
  }

  lemma {:induction false} NothingInWindow(c: Config, events: seq<Event>, id: string, n: nat)
    requires n <= |events| && FirstUpTo(c, events, id, |events|) == None
    ensures SubjectWorth(c, events, id, n) == 0.0
    ensures forall i :: 0 <= i < n ==> !(InWindow(c, events, i) && events[i].subject == id)
    decreases n
  {
    hide InWindow, Observes, FirstUpTo;
    if n > 0 {
      NothingInWindow(c, events, id, n - 1);
      InWindowIs(c, events, n - 1, id);
    }
  }

  ghost predicate WasExposed(c: Config, events: seq<Event>, id: string) {
    exists i :: 0 <= i < |events| && Exposes(c, events, i, id)
  }

  ghost predicate Converted(c: Config, events: seq<Event>, id: string) {
    exists i :: 0 <= i < |events| && InWindow(c, events, i) && events[i].subject == id
  }

  // What a subject contributes, told from the stream.
  lemma ContributeMeans(c: Config, events: seq<Event>, id: string)
    requires id in Kept(c, events)
    ensures var b := Contribute(Kept(c, events)[id], c.window);
      && b.arm == c.assign(id) && (b.exposed <==> WasExposed(c, events, id))
      && (b.converted <==> Converted(c, events, id)) && b.value == SubjectWorth(c, events, id, |events|)
  {
    hide Kept, Taken, Exposes, InWindow, OutcomesUpTo, FirstUpTo, Within, SubjectWorth;
    assert events[..|events|] == events;
    KeptMeans(c, events, id, |events|);
    FirstMeans(c, events, id, |events|);
    var f := FirstUpTo(c, events, id, |events|);
    if f.Some? {
      WithinMeans(c, events, id, f.value, |events|);
    } else {
      NothingInWindow(c, events, id, |events|);
    }
  }

  // A subject nobody keeps was never heard of.
  lemma UnknownMeans(c: Config, events: seq<Event>, id: string)
    requires id !in Kept(c, events)
    ensures !WasExposed(c, events, id) && !Converted(c, events, id) && SubjectWorth(c, events, id, |events|) == 0.0
  {
    hide Kept, Taken, Exposes, InWindow, OutcomesUpTo, FirstUpTo, SubjectWorth;
    assert events[..|events|] == events;
    KeptMeans(c, events, id, |events|);
    FirstMeans(c, events, id, |events|);
    NothingInWindow(c, events, id, |events|);
  }

  /******* All subjects *******/

  ghost function Number(t: Tally, treated: bool): int { if treated then t.treatmentN else t.controlN }

  ghost function Conversions(t: Tally, treated: bool): int { if treated then t.treatmentY else t.controlY }

  ghost function Value(t: Tally, treated: bool): real { if treated then t.treatmentValue else t.controlValue }

  // A sum over a set of subjects, in any order.
  ghost function SumSet(ids: set<string>, f: string -> real): real {
    if ids == {} then 0.0
    else
      var id :| id in ids;
      SumSet(ids - {id}, f) + f(id)
  }

  lemma {:induction false} SumSetRemove(ids: set<string>, f: string -> real, id: string)
    requires id in ids
    ensures SumSet(ids, f) == SumSet(ids - {id}, f) + f(id)
    decreases |ids|
  {
    var first :| first in ids && SumSet(ids, f) == SumSet(ids - {first}, f) + f(first);
    if first != id {
      SumSetRemove(ids - {first}, f, id);
      SumSetRemove(ids - {id}, f, first);
      assert ids - {first} - {id} == ids - {id} - {first};
    }
  }

  lemma {:induction false} SumSetSame(ids: set<string>, f: string -> real, g: string -> real)
    requires forall id :: id in ids ==> f(id) == g(id)
    ensures SumSet(ids, f) == SumSet(ids, g)
    decreases |ids|
  {
    if ids != {} {
      var id :| id in ids;
      SumSetRemove(ids, f, id);
      SumSetRemove(ids, g, id);
      SumSetSame(ids - {id}, f, g);
    }
  }

  lemma {:induction false} SumSetZero(ids: set<string>, f: string -> real)
    requires forall id :: id in ids ==> f(id) == 0.0
    ensures SumSet(ids, f) == 0.0
    decreases |ids|
  {
    if ids != {} {
      var id :| id in ids;
      SumSetRemove(ids, f, id);
      SumSetZero(ids - {id}, f);
    }
  }

  // One subject's part grows.
  lemma SumSetAdd(ids: set<string>, f: string -> real, g: string -> real, id: string, more: real)
    requires id in ids && g(id) == f(id) + more && forall other :: other in ids && other != id ==> g(other) == f(other)
    ensures SumSet(ids, g) == SumSet(ids, f) + more
  {
    SumSetRemove(ids, f, id);
    SumSetRemove(ids, g, id);
    SumSetSame(ids - {id}, f, g);
  }

  ghost function ExposedIn(m: map<string, Subject>, treatmentArm: string, treated: bool): set<string> {
    set id | id in m && m[id].exposures != [] && (m[id].arm == treatmentArm) == treated
  }

  ghost function ConvertedIn(m: map<string, Subject>, window: nat, treatmentArm: string, treated: bool): set<string> {
    set id | id in m && Contribute(m[id], window).converted && (m[id].arm == treatmentArm) == treated
  }

  ghost function Part(m: map<string, Subject>, window: nat, treatmentArm: string, treated: bool): string -> real {
    id => if id in m && (m[id].arm == treatmentArm) == treated then Contribute(m[id], window).value else 0.0
  }

  lemma ShareMeans(s: Subject, window: nat, treatmentArm: string, treated: bool)
    requires s.arm != ""
    ensures var share, b, mine := Share(Contribute(s, window), treatmentArm), Contribute(s, window), (s.arm == treatmentArm) == treated;
      && Number(share, treated) == (if mine && s.exposures != [] then 1 else 0)
      && Conversions(share, treated) == (if mine && b.converted then 1 else 0)
      && Value(share, treated) == if mine then b.value else 0.0
  {
    hide Within;
  }

  lemma PlusParts(a: Tally, b: Tally, treated: bool)
    ensures Number(Plus(a, b), treated) == Number(a, treated) + Number(b, treated)
    ensures Conversions(Plus(a, b), treated) == Conversions(a, treated) + Conversions(b, treated)
    ensures Value(Plus(a, b), treated) == Value(a, treated) + Value(b, treated)
  {
  }

  // A sum of contributions counts exposed and converted subjects.
  lemma {:induction false} SumMeans(m: map<string, Subject>, window: nat, treatmentArm: string, treated: bool)
    requires forall id :: id in m ==> m[id].arm != ""
    ensures var sum := SumOf(m, window, treatmentArm);
      && Number(sum, treated) == |ExposedIn(m, treatmentArm, treated)|
      && Conversions(sum, treated) == |ConvertedIn(m, window, treatmentArm, treated)|
      && Value(sum, treated) == SumSet(m.Keys, Part(m, window, treatmentArm, treated))
    decreases |m|
  {
    hide Contribute, Share, Plus, SumOf, Number, Conversions, Value, SumSet;
    if m == map[] {
      EmptyMeans(window, treatmentArm, treated);
    } else {
      var id :| id in m;
      var rest := m - {id};
      SumRemove(m, window, treatmentArm, id);
      SumMeans(rest, window, treatmentArm, treated);
      ShareMeans(m[id], window, treatmentArm, treated);
      PlusParts(SumOf(rest, window, treatmentArm), Share(Contribute(m[id], window), treatmentArm), treated);
      SetsWithout(m, window, treatmentArm, treated, id);
      SumSetRemove(m.Keys, Part(m, window, treatmentArm, treated), id);
      SumSetSame(m.Keys - {id}, Part(m, window, treatmentArm, treated), Part(rest, window, treatmentArm, treated));
      assert rest.Keys == m.Keys - {id};
    }
  }

  lemma EmptyMeans(window: nat, treatmentArm: string, treated: bool)
    ensures var sum := SumOf(map[], window, treatmentArm);
      && Number(sum, treated) == |ExposedIn(map[], treatmentArm, treated)| == 0
      && Conversions(sum, treated) == |ConvertedIn(map[], window, treatmentArm, treated)| == 0
      && Value(sum, treated) == SumSet({}, Part(map[], window, treatmentArm, treated)) == 0.0
  {
    SumNone(window, treatmentArm);
    assert ExposedIn(map[], treatmentArm, treated) == {} && ConvertedIn(map[], window, treatmentArm, treated) == {};
  }

  lemma SetsWithout(m: map<string, Subject>, window: nat, treatmentArm: string, treated: bool, id: string)
    requires id in m
    ensures |ExposedIn(m, treatmentArm, treated)|
      == |ExposedIn(m - {id}, treatmentArm, treated)| + if (m[id].arm == treatmentArm) == treated && m[id].exposures != [] then 1 else 0
    ensures |ConvertedIn(m, window, treatmentArm, treated)|
      == |ConvertedIn(m - {id}, window, treatmentArm, treated)| + if (m[id].arm == treatmentArm) == treated && Contribute(m[id], window).converted then 1 else 0
  {
    hide Contribute;
    OneLess(ExposedIn(m, treatmentArm, treated), ExposedIn(m - {id}, treatmentArm, treated), id);
    OneLess(ConvertedIn(m, window, treatmentArm, treated), ConvertedIn(m - {id}, window, treatmentArm, treated), id);
  }

  lemma OneLess(x: set<string>, y: set<string>, id: string)
    requires id !in y && forall other :: other != id ==> (other in x <==> other in y)
    ensures |x| == |y| + if id in x then 1 else 0
  {
    assert x == if id in x then y + {id} else y;
  }

  /******* The stream's own totals *******/

  ghost function WorthByArm(c: Config, events: seq<Event>, treated: bool, n: nat): string -> real
    requires n <= |events|
  {
    id => if InArm(c, id, treated) then SubjectWorth(c, events, id, n) else 0.0
  }

  // Summing over subjects or over events comes to the same.
  lemma {:induction false} WorthAdds(c: Config, events: seq<Event>, treated: bool, ids: set<string>, n: nat)
    requires n <= |events| && forall i :: 0 <= i < |events| && Taken(c, events, i) ==> events[i].subject in ids
    ensures SumSet(ids, WorthByArm(c, events, treated, n)) == WorthOf(c, events, treated, n)
    decreases n
  {
    hide Taken, Earliest, InArm, SumSet;
    if n == 0 {
      SumSetZero(ids, WorthByArm(c, events, treated, 0));
    } else {
      WorthAdds(c, events, treated, ids, n - 1);
      var f, g, e := WorthByArm(c, events, treated, n - 1), WorthByArm(c, events, treated, n), events[n - 1];
      if InWindow(c, events, n - 1) {
        SumSetAdd(ids, f, g, e.subject, if InArm(c, e.subject, treated) then Worth(e) else 0.0);
      } else {
        SumSetSame(ids, f, g);
      }
    }
  }

  lemma {:induction false} TakenKept(c: Config, events: seq<Event>, i: nat, n: nat)
    requires i < n <= |events| && Taken(c, events, i)
    ensures events[i].subject in Kept(c, events[..n])
    decreases n
  {
    hide Taken, Extended;
    assert events[..n][..n - 1] == events[..n - 1];
    TakenPrefix(c, events, n, n - 1);
    if i < n - 1 {
      TakenKept(c, events, i, n - 1);
    }
  }

  lemma IdsAreKept(c: Config, events: seq<Event>, treated: bool)
    ensures var kept := Kept(c, events);
      && ExposedIn(kept, c.treatmentArm, treated) == ExposedIds(c, events, treated)
      && ConvertedIn(kept, c.window, c.treatmentArm, treated) == ConvertedIds(c, events, treated)
  {
    hide Kept, Exposes, InWindow, Contribute;
    var kept := Kept(c, events);
    forall id: string
      ensures id in ExposedIn(kept, c.treatmentArm, treated) <==> id in ExposedIds(c, events, treated)
      ensures id in ConvertedIn(kept, c.window, c.treatmentArm, treated) <==> id in ConvertedIds(c, events, treated)
    {
      IdsMean(c, events, treated, id);
      if id in kept {
        ContributeMeans(c, events, id);
        ExposedSays(kept[id], c.window);
      } else {
        UnknownMeans(c, events, id);
      }
    }
  }

  lemma ExposedSays(s: Subject, window: nat)
    ensures Contribute(s, window).exposed <==> s.exposures != []
    ensures Contribute(s, window).arm == s.arm
  {
    hide Within;
  }

  lemma IdsMean(c: Config, events: seq<Event>, treated: bool, id: string)
    ensures id in ExposedIds(c, events, treated) <==> WasExposed(c, events, id) && InArm(c, id, treated)
    ensures id in ConvertedIds(c, events, treated) <==> Converted(c, events, id) && InArm(c, id, treated)
  {
    hide Taken, InWindow, InArm;
    if WasExposed(c, events, id) {
      var i :| 0 <= i < |events| && Exposes(c, events, i, id);
      assert Exposes(c, events, i, events[i].subject);
    }
  }

  // For every stream, an engine that keeps every subject reports for each arm: how
  // many subjects have an accepted exposure, how many of them an accepted outcome
  // in the window after the earliest one, and what those outcomes add up to.
  lemma TotalsMean(c: Config, events: seq<Event>, treated: bool)
    requires ConfigOk(c)
    ensures var total := SumOf(Kept(c, events), c.window, c.treatmentArm);
      && Number(total, treated) == |ExposedIds(c, events, treated)|
      && Conversions(total, treated) == |ConvertedIds(c, events, treated)|
      && Value(total, treated) == WorthOf(c, events, treated, |events|)
  {
    hide Kept, Exposes, InWindow, Contribute, SumOf, Number, Conversions, Value, SumSet, WorthOf, SubjectWorth, ConfigOk, ExposedIn, ConvertedIn, ExposedIds, ConvertedIds, Taken;
    var kept := Kept(c, events);
    forall id | id in kept ensures kept[id].arm == c.assign(id) != "" {
      ContributeMeans(c, events, id);
      ExposedSays(kept[id], c.window);
      ArmKnown(c, id);
    }
    SumMeans(kept, c.window, c.treatmentArm, treated);
    IdsAreKept(c, events, treated);
    forall id | id in kept.Keys
      ensures Part(kept, c.window, c.treatmentArm, treated)(id) == WorthByArm(c, events, treated, |events|)(id)
    {
      ContributeMeans(c, events, id);
    }
    SumSetSame(kept.Keys, Part(kept, c.window, c.treatmentArm, treated), WorthByArm(c, events, treated, |events|));
    forall i | 0 <= i < |events| && Taken(c, events, i) ensures events[i].subject in kept.Keys {
      assert events[..|events|] == events;
      TakenKept(c, events, i, |events|);
    }
    WorthAdds(c, events, treated, kept.Keys, |events|);
  }

  // So does the engine itself, for every stream without an exposure of a subject
  // it had already dropped.
  lemma AggregatesMean(c: Config, events: seq<Event>, treated: bool)
    requires ConfigOk(c) && forall i :: 0 <= i < |events| ==> !ExposedAnew(c, events, i)
    ensures var tally := ApplyAll(c, Fresh, events).tally;
      && Number(tally, treated) == |ExposedIds(c, events, treated)|
      && Conversions(tally, treated) == |ConvertedIds(c, events, treated)|
      && Value(tally, treated) == WorthOf(c, events, treated, |events|)
  {
    hide Kept, SumOf, Number, Conversions, Value, ExposedIds, ConvertedIds, WorthOf, ExposedAnew, ApplyAll;
    TotalsMean(c, events, treated);
    ExpiryIsExact(c, events);
  }

  /******* Which events are accepted *******/

  // An event is accepted exactly when its id is new, it is meant for this
  // experiment as configured, and it is no later than the allowed lateness behind
  // every event accepted before.
  lemma TakenMeans(c: Config, events: seq<Event>, i: nat)
    requires i < |events|
    ensures Taken(c, events, i) <==>
      && (forall j :: 0 <= j < i ==> events[j].id != events[i].id)
      && events[i].version == c.version && (events[i].arm == "" || events[i].arm == c.assign(events[i].subject))
      && (events[i].kind.Outcome? ==> events[i].outcomeName == c.outcomeName)
      && forall j :: 0 <= j < i && Taken(c, events, j) ==> events[i].at + c.lateness >= events[j].at
  {
    hide ApplyAll, ApplyEvent, Accept;
    SeenUpTo(c, events, i);
  }

  lemma ApplyFacts(c: Config, s: State, e: Event)
    ensures var t := ApplyEvent(c, s, e);
      && t.seen == s.seen + {e.id}
      && t.maxTime == if ReceiptFor(c, s, e).Accepted? && e.at > s.maxTime then e.at else s.maxTime
  {
    hide Updated, AddContribution, RemoveContribution, UnmatchedOf;
  }

  lemma {:induction false} SeenUpTo(c: Config, events: seq<Event>, n: nat)
    requires n <= |events|
    ensures var s := ApplyAll(c, Fresh, events[..n]);
      && (forall id :: id in s.seen <==> exists j :: 0 <= j < n && events[j].id == id)
      && (forall j :: 0 <= j < n && Taken(c, events, j) ==> events[j].at <= s.maxTime)
      && (s.maxTime > 0 ==> exists j :: 0 <= j < n && Taken(c, events, j) && events[j].at == s.maxTime)
    decreases n
  {
    hide ApplyEvent, ReceiptFor, Taken, ApplyAll;
    if n == 0 {
      NoEvents(c, events);
    } else {
      SeenUpTo(c, events, n - 1);
      NextEvent(c, events, n - 1);
    }
  }

  lemma NoEvents(c: Config, events: seq<Event>)
    ensures ApplyAll(c, Fresh, events[..0]) == Fresh
  {
  }

  lemma NextEvent(c: Config, events: seq<Event>, n: nat)
    requires n < |events|
    ensures var s, t, e := ApplyAll(c, Fresh, events[..n]), ApplyAll(c, Fresh, events[..n + 1]), events[n];
      && t.seen == s.seen + {e.id}
      && t.maxTime == if Taken(c, events, n) && e.at > s.maxTime then e.at else s.maxTime
  {
    hide ApplyEvent, ReceiptFor;
    assert events[..n + 1][..n] == events[..n];
    ApplyFacts(c, ApplyAll(c, Fresh, events[..n]), events[n]);
  }

  /******* Counters *******/

  ghost function Accepted(c: Config, events: seq<Event>): set<nat> {
    set i: nat | i < |events| && Taken(c, events, i)
  }

  ghost predicate Repeats(events: seq<Event>, i: nat)
    requires i < |events|
  {
    exists j :: 0 <= j < i && events[j].id == events[i].id
  }

  ghost function Repeated(events: seq<Event>): set<nat> {
    set i: nat | i < |events| && Repeats(events, i)
  }

  lemma ApplyCounts(c: Config, s: State, e: Event)
    ensures var t := ApplyEvent(c, s, e);
      && t.received == s.received + 1
      && t.accepted == s.accepted + (if ReceiptFor(c, s, e).Accepted? then 1 else 0)
      && t.duplicates == s.duplicates + (if e.id in s.seen then 1 else 0)
      && t.received - t.accepted - t.duplicates - t.rejected - t.late == s.received - s.accepted - s.duplicates - s.rejected - s.late
  {
    hide Updated, AddContribution, RemoveContribution, UnmatchedOf;
  }

  // The counters of a stream: every event is counted once, as what it was.
  lemma {:induction false} CountersMean(c: Config, events: seq<Event>)
    ensures var s := ApplyAll(c, Fresh, events);
      && s.received == |events| == s.accepted + s.duplicates + s.rejected + s.late
      && s.accepted == |Accepted(c, events)| && s.duplicates == |Repeated(events)|
    decreases |events|
  {
    hide ApplyEvent, ReceiptFor, Taken, Repeats;
    if events == [] {
      assert Accepted(c, events) == {} && Repeated(events) == {};
    } else {
      var n := |events| - 1;
      var init, e := events[..n], events[n];
      CountersMean(c, init);
      ApplyCounts(c, ApplyAll(c, Fresh, init), e);
      MoreAccepted(c, events);
      MoreRepeated(c, events);
    }
  }

  lemma MoreAccepted(c: Config, events: seq<Event>)
    requires events != []
    ensures var n := |events| - 1; var init := events[..n];
      |Accepted(c, events)| == |Accepted(c, init)| + if ReceiptFor(c, ApplyAll(c, Fresh, init), events[n]).Accepted? then 1 else 0
  {
    hide Taken, ReceiptFor, ApplyAll;
    var n := |events| - 1;
    TakenIs(c, events, n);
    forall i: nat | i < n ensures Taken(c, events[..n], i) == Taken(c, events, i) {
      TakenPrefix(c, events, n, i);
    }
    OneLater(Accepted(c, events), Accepted(c, events[..n]), n);
  }

  lemma MoreRepeated(c: Config, events: seq<Event>)
    requires events != []
    ensures var n := |events| - 1; var init := events[..n];
      |Repeated(events)| == |Repeated(init)| + if events[n].id in ApplyAll(c, Fresh, init).seen then 1 else 0
  {
    hide ApplyAll, Taken;
    var n := |events| - 1;
    SeenUpTo(c, events, n);
    forall i: nat | i < n ensures Repeats(events[..n], i) == Repeats(events, i) {
    }
    OneLater(Repeated(events), Repeated(events[..n]), n);
  }

  lemma OneLater(x: set<nat>, y: set<nat>, n: nat)
    requires n !in y && forall i: nat :: i != n ==> (i in x <==> i in y)
    ensures |x| == |y| + if n in x then 1 else 0
  {
    assert x == if n in x then y + {n} else y;
  }

  lemma TakenIs(c: Config, events: seq<Event>, i: nat)
    requires i < |events|
    ensures Taken(c, events, i) == ReceiptFor(c, ApplyAll(c, Fresh, events[..i]), events[i]).Accepted?
  {
  }
}
