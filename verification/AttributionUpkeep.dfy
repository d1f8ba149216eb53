// What dropping subjects leaves behind: no outcome goes missing uncounted, and no
// subject is kept that has been quiet for long.
module AttributionUpkeep {
  import opened Attribution
  import opened AttributionRuns

  /******* Counting outcomes *******/

  // All outcomes of the subjects, or only those of subjects never exposed.
  ghost function Outcomes(m: map<string, Subject>, unexposed: bool): nat {
    if m.Keys == {} then 0
    else
      var id :| id in m;
      Outcomes(m - {id}, unexposed) + Told(m[id], unexposed)
  }

  function Told(s: Subject, unexposed: bool): nat {
    if unexposed && s.exposures != [] then 0 else |s.outcomes|
  }

  lemma {:induction false} OutcomesRemove(m: map<string, Subject>, unexposed: bool, id: string)
    requires id in m
    ensures Outcomes(m, unexposed) == Outcomes(m - {id}, unexposed) + Told(m[id], unexposed)
    decreases |m|
  {
    hide Told, Outcomes;
    var first := OutcomesFirst(m, unexposed);
    if first != id {
      OutcomesRemove(m - {first}, unexposed, id);
      OutcomesRemove(m - {id}, unexposed, first);
      assert m - {first} - {id} == m - {id} - {first};
    }
  }

  lemma OutcomesFirst(m: map<string, Subject>, unexposed: bool) returns (id: string)
    requires m.Keys != {}
    ensures id in m && Outcomes(m, unexposed) == Outcomes(m - {id}, unexposed) + Told(m[id], unexposed)
  {
    hide Told;
    id :| id in m && Outcomes(m, unexposed) == Outcomes(m - {id}, unexposed) + Told(m[id], unexposed);
  }

  lemma OutcomesPut(m: map<string, Subject>, unexposed: bool, id: string, s: Subject)
    ensures Outcomes(m[id := s], unexposed) + (if id in m then Told(m[id], unexposed) else 0) == Outcomes(m, unexposed) + Told(s, unexposed)
  {
    hide Told, Outcomes;
    OutcomesRemove(m[id := s], unexposed, id);
    assert m[id := s] - {id} == m - {id};
    if id in m {
      OutcomesRemove(m, unexposed, id);
    } else {
      assert m - {id} == m;
    }
  }

  lemma {:induction false} OutcomesSplit(m: map<string, Subject>, part: map<string, Subject>, unexposed: bool)
    requires part.Keys <= m.Keys && forall id :: id in part ==> part[id] == m[id]
    ensures Outcomes(m, unexposed) == Outcomes(m - part.Keys, unexposed) + Outcomes(part, unexposed)
    decreases |part|
  {
    hide Told, Outcomes;
    if part.Keys == {} {
      assert m - part.Keys == m && part == map[];
      NoOutcomes(unexposed);
    } else {
      var id :| id in part;
      OutcomesSplit(m - {id}, part - {id}, unexposed);
      assert (m - {id}) - (part - {id}).Keys == m - part.Keys;
      OutcomesRemove(m, unexposed, id);
      OutcomesRemove(part, unexposed, id);
    }
  }

  lemma NoOutcomes(unexposed: bool)
    ensures Outcomes(map[], unexposed) == 0
  {
  }

  // The outcomes of everybody who was ever dropped.
  ghost function Buried(buried: seq<map<string, Subject>>, unexposed: bool): nat {
    if buried == [] then 0
    else Buried(buried[..|buried| - 1], unexposed) + Outcomes(buried[|buried| - 1], unexposed)
  }

  lemma {:induction false} UnmatchedIs(c: Config, s: State, ids: set<string>, m: map<string, Subject>)
    requires m == map id | id in ids && id in s.subjects && Expired(c, s, s.subjects[id]) :: s.subjects[id]
    ensures UnmatchedOf(c, s, ids) == Outcomes(m, true)
    decreases |ids|
  {
    hide Expired;
    if ids == {} {
      assert m.Keys == {};
    } else {
      var id :| id in ids && UnmatchedOf(c, s, ids) == UnmatchedOf(c, s, ids - {id})
        + if id in s.subjects && Expired(c, s, s.subjects[id]) && s.subjects[id].exposures == [] then |s.subjects[id].outcomes| else 0;
      UnmatchedIs(c, s, ids - {id}, m - {id});
      if id in m {
        OutcomesRemove(m, true, id);
      } else {
        assert m - {id} == m;
      }
    }
  }

  // The accepted outcomes of a stream.
  ghost function OutcomesTaken(c: Config, events: seq<Event>): nat {
    if events == [] then 0
    else
      var n := |events| - 1;
      OutcomesTaken(c, events[..n]) + if Taken(c, events, n) && events[n].kind.Outcome? then 1 else 0
  }

  ghost predicate Accounted(r: Run, outcomes: nat) {
    && Outcomes(r.state.subjects, false) + Buried(r.buried, false) == outcomes
    && r.state.unmatched == Buried(r.buried, true)
  }

  lemma AcceptAccounted(c: Config, r: Run, e: Event, outcomes: nat)
    requires Accounted(r, outcomes)
    ensures Accounted(RunAccept(c, r, e), outcomes + if e.kind.Outcome? then 1 else 0)
  {
    hide Outcomes, AddContribution, RemoveContribution, Contribute, InsertTime, Buried;
    var s := LiveOr(c, r.state, e.subject);
    OutcomesPut(r.state.subjects, false, e.subject, Updated(c, s, e));
    assert RunAccept(c, r, e).state.subjects == r.state.subjects[e.subject := Updated(c, s, e)];
  }

  lemma ExpireAccounted(c: Config, r: Run, outcomes: nat)
    requires Accounted(r, outcomes)
    ensures Accounted(RunExpire(c, r), outcomes)
  {
    hide Outcomes, Expired, UnmatchedOf, Buried, Leaving;
    var s, gone := r.state, Leaving(c, r.state);
    Leavers(c, s);
    OutcomesSplit(s.subjects, gone, false);
    UnmatchedIs(c, s, s.subjects.Keys, gone);
    BuriedNext(r.buried, gone, false);
    BuriedNext(r.buried, gone, true);
  }

  lemma Leavers(c: Config, s: State)
    ensures var gone := Leaving(c, s);
      && ExpireSubjects(c, s).subjects == s.subjects - gone.Keys
      && (gone.Keys <= s.subjects.Keys && forall id :: id in gone ==> gone[id] == s.subjects[id])
      && gone == map id | id in s.subjects.Keys && id in s.subjects && Expired(c, s, s.subjects[id]) :: s.subjects[id]
  {
    hide Expired, UnmatchedOf;
  }

  lemma BuriedNext(buried: seq<map<string, Subject>>, gone: map<string, Subject>, unexposed: bool)
    ensures Buried(buried + [gone], unexposed) == Buried(buried, unexposed) + Outcomes(gone, unexposed)
  {
    hide Outcomes;
    assert (buried + [gone])[..|buried|] == buried;
  }

  lemma StepAccounted(c: Config, r: Run, e: Event, outcomes: nat)
    requires Accounted(r, outcomes)
    ensures Accounted(RunStep(c, r, e), outcomes + if ReceiptFor(c, r.state, e).Accepted? && e.kind.Outcome? then 1 else 0)
  {
    hide Outcomes, RunAccept, RunExpire, Buried, ReceiptFor, UnmatchedOf, Accept;
    if ReceiptFor(c, r.state, e).Accepted? {
      AcceptAccounted(c, r, e, outcomes);
      ExpireAccounted(c, RunAccept(c, r, e), outcomes + if e.kind.Outcome? then 1 else 0);
    }
  }

  lemma {:induction false} RunAccounted(c: Config, events: seq<Event>)
    ensures Accounted(RunAll(c, Start, events), OutcomesTaken(c, events))
    decreases |events|
  {
    hide RunStep, Accounted, ReceiptFor, ApplyAll;
    if events == [] {
      NothingYet();
    } else {
      var n := |events| - 1;
      RunAccounted(c, events[..n]);
      RunFollows(c, Start, events[..n]);
      StepAccounted(c, RunAll(c, Start, events[..n]), events[n], OutcomesTaken(c, events[..n]));
      TakenIs(c, events, n);
    }
  }

  lemma TakenIs(c: Config, events: seq<Event>, n: nat)
    requires n < |events|
    ensures Taken(c, events, n) <==> ReceiptFor(c, ApplyAll(c, Fresh, events[..n]), events[n]).Accepted?
  {
  }

  // Over every stream: each accepted outcome is with a live subject or went with one
  // that was dropped, and unmatched counts those that went with a subject nobody
  // had seen exposed.
  lemma OutcomesConserved(c: Config, events: seq<Event>)
    ensures var s, buried := ApplyAll(c, Fresh, events), RunAll(c, Start, events).buried;
      && Outcomes(s.subjects, false) + Buried(buried, false) == OutcomesTaken(c, events)
      && s.unmatched == Buried(buried, true)
  {
    hide RunAll, ApplyAll, Outcomes, Buried, OutcomesTaken;
    RunFollows(c, Start, events);
    RunAccounted(c, events);
  }

  lemma NothingYet()
    ensures Accounted(Start, 0)
  {
  }

  /******* Who is kept *******/

  // Event i is an accepted one about the subject, from that time.
  ghost predicate Heard(c: Config, events: seq<Event>, i: nat, id: string, at: nat)
    requires i < |events|
  {
    Taken(c, events, i) && events[i].subject == id && events[i].at == at
  }

  ghost predicate EverHeard(c: Config, events: seq<Event>, id: string, at: nat) {
    exists i :: 0 <= i < |events| && Heard(c, events, i, id, at)
  }

  // What decides when a subject is dropped comes from its events.
  ghost predicate Sourced(c: Config, events: seq<Event>, m: map<string, Subject>) {
    forall id :: id in m ==>
      && (m[id].exposures != [] ==> EverHeard(c, events, id, m[id].exposures[0]))
      && EverHeard(c, events, id, m[id].latest)
  }

  lemma HeardLonger(c: Config, events: seq<Event>, n: nat, id: string, at: nat)
    requires n < |events| && EverHeard(c, events[..n], id, at)
    ensures EverHeard(c, events, id, at)
  {
    hide Taken;
    var i :| 0 <= i < n && Heard(c, events[..n], i, id, at);
    TakenPrefix(c, events, n, i);
    assert Heard(c, events, i, id, at);
  }

  lemma UpdatedTimes(c: Config, s: Subject, e: Event)
    ensures var t := Updated(c, s, e);
      && (t.latest == s.latest || t.latest == e.at)
      && (t.exposures != [] ==> t.exposures[0] == e.at || (s.exposures != [] && t.exposures[0] == s.exposures[0]))
    ensures Updated(c, NewSubject(c, e.subject), e).latest == e.at
  {
    hide Contribute;
  }

  lemma StepSubjects(c: Config, s: State, e: Event, id: string)
    requires id in ApplyEvent(c, s, e).subjects
    ensures var t := ApplyEvent(c, s, e);
      if ReceiptFor(c, s, e).Accepted? && id == e.subject then t.subjects[id] == Updated(c, LiveOr(c, s, id), e)
      else id in s.subjects && t.subjects[id] == s.subjects[id]
  {
    hide Updated, AddContribution, RemoveContribution, UnmatchedOf;
  }

  lemma {:induction false} SubjectsSourced(c: Config, events: seq<Event>)
    ensures Sourced(c, events, ApplyAll(c, Fresh, events).subjects)
    decreases |events|
  {
    hide ApplyEvent, Updated, ReceiptFor, EverHeard;
    if events != [] {
      var n := |events| - 1;
      SubjectsSourced(c, events[..n]);
      var s, e := ApplyAll(c, Fresh, events[..n]), events[n];
      forall id | id in ApplyEvent(c, s, e).subjects
        ensures var g := ApplyEvent(c, s, e).subjects[id];
          (g.exposures != [] ==> EverHeard(c, events, id, g.exposures[0])) && EverHeard(c, events, id, g.latest)
      {
        StepSubjects(c, s, e, id);
        KeptSourced(c, events, id);
        UpdatedTimes(c, LiveOr(c, s, id), e);
        if ReceiptFor(c, s, e).Accepted? {
          NowHeard(c, events);
        }
      }
    }
  }

  lemma NowHeard(c: Config, events: seq<Event>)
    requires events != [] && Taken(c, events, |events| - 1)
    ensures EverHeard(c, events, events[|events| - 1].subject, events[|events| - 1].at)
  {
    hide Taken;
    assert Heard(c, events, |events| - 1, events[|events| - 1].subject, events[|events| - 1].at);
  }

  lemma KeptSourced(c: Config, events: seq<Event>, id: string)
    requires events != [] && Sourced(c, events[..|events| - 1], ApplyAll(c, Fresh, events[..|events| - 1]).subjects)
    ensures var m := ApplyAll(c, Fresh, events[..|events| - 1]).subjects;
      id in m ==> (m[id].exposures != [] ==> EverHeard(c, events, id, m[id].exposures[0])) && EverHeard(c, events, id, m[id].latest)
  {
    hide ApplyAll, EverHeard;
    var n := |events| - 1;
    var m := ApplyAll(c, Fresh, events[..n]).subjects;
    if id in m {
      HeardLonger(c, events, n, id, m[id].latest);
      if m[id].exposures != [] {
        HeardLonger(c, events, n, id, m[id].exposures[0]);
      }
    }
  }

  // With every 256th accepted event, whoever is kept has an accepted event that the
  // watermark is at most one window past.
  lemma NobodyLingers(c: Config, events: seq<Event>, id: string) returns (i: nat)
    requires events != [] && Taken(c, events, |events| - 1)
    requires var s := ApplyAll(c, Fresh, events); s.accepted % 256 == 0 && id in s.subjects
    ensures i < |events| && Taken(c, events, i) && events[i].subject == id
      && events[i].at + c.window >= Watermark(c, ApplyAll(c, Fresh, events))
  {
    hide Taken, ApplyAll;
    SubjectsSourced(c, events);
    NotExpired(c, events, id);
    var s := ApplyAll(c, Fresh, events);
    if s.subjects[id].exposures != [] {
      i :| 0 <= i < |events| && Heard(c, events, i, id, s.subjects[id].exposures[0]);
    } else {
      i :| 0 <= i < |events| && Heard(c, events, i, id, s.subjects[id].latest);
    }
  }

  lemma NotExpired(c: Config, events: seq<Event>, id: string)
    requires events != [] && Taken(c, events, |events| - 1)
    requires var s := ApplyAll(c, Fresh, events); s.accepted % 256 == 0 && id in s.subjects
    ensures var s := ApplyAll(c, Fresh, events); !Expired(c, s, s.subjects[id])
  {
    hide Updated, AddContribution, RemoveContribution, UnmatchedOf, Expired, ReceiptFor;
    SweepKeeps(c, ApplyAll(c, Fresh, events[..|events| - 1]), events[|events| - 1]);
  }

  lemma SweepKeeps(c: Config, s: State, e: Event)
    requires ReceiptFor(c, s, e).Accepted? && ApplyEvent(c, s, e).accepted % 256 == 0
    ensures var t := ApplyEvent(c, s, e); forall id :: id in t.subjects ==> !Expired(c, t, t.subjects[id])
  {
    hide Updated, AddContribution, RemoveContribution, UnmatchedOf, Deadline;
  }
}
