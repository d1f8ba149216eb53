// The state of one experiment as the engine keeps it, updated event by event.
module ExperimentEngine {
  import opened Results
  import opened Attribution

  // Whether and how much the outcomes within a window count.
  method CalculateContribution(s: Subject, window: nat) returns (c: Contribution)
    requires TimesSorted(s.exposures)
    ensures c == Contribute(s, window)
  {
    c := Contribution(s.arm, false, false, 0.0);
    if |s.exposures| == 0 {
      return;
    }
    var exposure := s.exposures[0];
    c := c.(exposed := true);
    for k := 0 to |s.outcomes|
      invariant c == Contribution(s.arm, true, Within(s.outcomes[..k], exposure, exposure + window).0, Within(s.outcomes[..k], exposure, exposure + window).1)
    {
      assert s.outcomes[..k + 1][..k] == s.outcomes[..k];
      var outcome := s.outcomes[k];
      if outcome.at >= exposure && outcome.at <= exposure + window {
        c := c.(converted := true, value := c.value + outcome.value);
      }
    }
    assert s.outcomes[..|s.outcomes|] == s.outcomes;
  }

  // Appends a time and sorts: each insertion is in its place already but the last.
  method AppendSorted(times: seq<nat>, t: nat) returns (sorted: seq<nat>)
    requires TimesSorted(times)
    ensures sorted == InsertTime(times, t) && TimesSorted(sorted)
  {
    var place: nat := |times|;
    while place > 0 && times[place - 1] > t
      invariant place <= |times| && forall k :: place <= k < |times| ==> times[k] > t
    {
      place := place - 1;
    }
    InsertAt(times, t, place);
    InsertSorted(times, t);
    sorted := times[..place] + [t] + times[place..];
  }

  lemma {:induction false} InsertAt(times: seq<nat>, t: nat, place: nat)
    requires TimesSorted(times) && place <= |times|
    requires (forall k :: place <= k < |times| ==> times[k] > t) && (place > 0 ==> times[place - 1] <= t)
    ensures InsertTime(times, t) == times[..place] + [t] + times[place..]
    decreases |times|
  {
    if place == 0 {
      assert times[..0] + [t] + times[0..] == [t] + times;
    } else {
      InsertAt(times[1..], t, place - 1);
      assert times[..place] == [times[0]] + times[1..][..place - 1];
      assert times[1..][place - 1..] == times[place..];
    }
  }

  class ExperimentState {
    const config: Config
    var subjects: map<string, Subject>
    var seen: set<string>
    var tally: Tally
    var maxTime: nat
    var received: nat
    var accepted: nat
    var duplicates: nat
    var rejected: nat
    var late: nat
    var unmatched: nat

    function View(): State
      reads this
    {
      State(subjects, seen, tally, maxTime, received, accepted, duplicates, rejected, late, unmatched)
    }

    ghost predicate Valid()
      reads this
    {
      forall id :: id in subjects ==> TimesSorted(subjects[id].exposures)
    }

    constructor (config: Config)
      ensures Valid() && View() == Fresh && this.config == config
    {
      this.config := config;
      subjects, seen, tally, maxTime := map[], {}, Zero, 0;
      received, accepted, duplicates, rejected, late, unmatched := 0, 0, 0, 0, 0, 0;
    }

    method Apply(e: Event) returns (receipt: Receipt)
      requires Valid()
      modifies this
      ensures Valid() && View() == ApplyEvent(config, old(View()), e) && receipt == ReceiptFor(config, old(View()), e)
    {
      hide Accept, ExpireSubjects, TimesSorted;
      received := received + 1;
      if e.id in seen {
        duplicates := duplicates + 1;
        return Duplicate;
      }
      seen := seen + {e.id};
      var expectedArm := config.assign(e.subject);
      if e.version != config.version || (e.arm != "" && e.arm != expectedArm) || (e.kind.Outcome? && e.outcomeName != config.outcomeName) {
        rejected := rejected + 1;
        return Rejected;
      }
      var watermark := maxTime - config.lateness;
      if maxTime != 0 && e.at < watermark {
        late := late + 1;
        return Late;
      }
      Count(e);
      if accepted % 256 == 0 {
        Expire();
      }
      receipt := Accepted;
    }

    // Takes an accepted event into its subject and the tally.
    method Count(e: Event)
      requires Valid()
      modifies this`subjects, this`maxTime, this`tally, this`accepted
      ensures Valid() && View() == Accept(config, old(View()), e)
    {
      hide Contribute, TimesSorted, AddContribution, RemoveContribution, Extended;
      if e.at > maxTime {
        maxTime := e.at;
      }
      var subject := if e.subject in subjects then subjects[e.subject] else NewSubject(config, e.subject);
      var current := subject.current;
      NoTimes();
      var more := Extend(subject, e);
      tally := RemoveContribution(tally, current, config.treatmentArm);
      var contribution := CalculateContribution(more, config.window);
      subjects := subjects[e.subject := more.(current := contribution)];
      tally := AddContribution(tally, contribution, config.treatmentArm);
      accepted := accepted + 1;
    }

    lemma NoTimes()
      ensures TimesSorted([])
    {
    }

    method Extend(subject: Subject, e: Event) returns (more: Subject)
      requires TimesSorted(subject.exposures)
      ensures more == Extended(subject, e) && TimesSorted(more.exposures)
    {
      hide InsertTime, TimesSorted;
      more := subject;
      if e.at > more.latest {
        more := more.(latest := e.at);
      }
      match e.kind
      case Exposure =>
        var times := AppendSorted(more.exposures, e.at);
        more := more.(exposures := times);
      case Outcome =>
        var value := 1.0;
        if e.value.Some? {
          value := e.value.value;
        }
        more := more.(outcomes := more.outcomes + [Observed(e.at, value)]);
      case Assignment =>
    }

    // Drops the subjects whose windows are over.
    method Expire()
      requires Valid()
      modifies this`subjects, this`unmatched
      ensures Valid() && View() == ExpireSubjects(config, old(View()))
    {
      hide TimesSorted, Expired, UnmatchedOf;
      ghost var s := View();
      var todo := subjects.Keys;
      var watermark := maxTime - config.lateness;
      NoneUnmatched(config, s);
      while todo != {}
        modifies this`subjects, this`unmatched
        invariant todo <= s.subjects.Keys && Valid()
        invariant forall id :: id in subjects <==> id in s.subjects && (id in todo || !Expired(config, s, s.subjects[id]))
        invariant forall id :: id in subjects ==> subjects[id] == s.subjects[id]
        invariant unmatched + UnmatchedOf(config, s, todo) == s.unmatched + UnmatchedOf(config, s, s.subjects.Keys)
        decreases |todo|
      {
        var id :| id in todo;
        UnmatchedRemove(config, s, todo, id);
        todo := todo - {id};
        var subject := subjects[id];
        var deadline := subject.latest + config.window;
        if |subject.exposures| > 0 {
          deadline := subject.exposures[0] + config.window;
        }
        ExpiredMeans(config, s, subject);
        if watermark > deadline {
          if |subject.outcomes| > 0 && |subject.exposures| == 0 {
            unmatched := unmatched + |subject.outcomes|;
          }
          subjects := subjects - {id};
        }
      }
    }
  }

  lemma ExpiredMeans(c: Config, s: State, subject: Subject)
    ensures Expired(c, s, subject) <==> s.maxTime - c.lateness > (if |subject.exposures| > 0 then subject.exposures[0] + c.window else subject.latest + c.window)
  {
  }

  lemma NoneUnmatched(c: Config, s: State)
    ensures UnmatchedOf(c, s, {}) == 0
  {
  }

  ghost function UnmatchedBy(c: Config, s: State, id: string): nat {
    if id in s.subjects && Expired(c, s, s.subjects[id]) && s.subjects[id].exposures == [] then |s.subjects[id].outcomes| else 0
  }

  lemma {:induction false} UnmatchedRemove(c: Config, s: State, ids: set<string>, id: string)
    requires id in ids
    ensures UnmatchedOf(c, s, ids) == UnmatchedOf(c, s, ids - {id}) + UnmatchedBy(c, s, id)
    decreases |ids|
  {
    hide Expired;
    var first :| first in ids && UnmatchedOf(c, s, ids) == UnmatchedOf(c, s, ids - {first}) + UnmatchedBy(c, s, first);
    if first != id {
      UnmatchedRemove(c, s, ids - {first}, id);
      UnmatchedRemove(c, s, ids - {id}, first);
      assert ids - {first} - {id} == ids - {id} - {first};
    }
  }
}
