/**
 * Risk scoring: every event whose Impact is "Negative" adds its Severity to the
 * score of each known person listed in its People_IDs (once per occurrence), and
 * the total maps to Low (below 8), Medium (8 to 14) or High (15 and above). The
 * write-back sends a level to the host only for people whose stored level differs.
 */
module RiskService {
  import opened Wrappers
  import opened Types
  import opened DataService

  /** The severity an event adds for one person: once for each listed token equal to the ID. */
  function TokenSum(id: string, tokens: seq<string>, severity: int): int {
    if tokens == [] then 0
    else
      var n := |tokens| - 1;
      TokenSum(id, tokens[..n], severity) + (if tokens[n] == id then severity else 0)
  }

  /** How often `id` occurs among the tokens. */
  function Occurrences(id: string, tokens: seq<string>): nat {
    if tokens == [] then 0
    else
      var n := |tokens| - 1;
      Occurrences(id, tokens[..n]) + (if tokens[n] == id then 1 else 0)
  }

  /** What one event adds to a person's score: only a "Negative" event adds anything. */
  function Contribution(id: string, e: RelationshipEvent): int {
    if e.Impact == "Negative" then TokenSum(id, IdTokens(e.People_IDs), e.Severity) else 0
  }

  /** The accumulated risk score of a person over the events. */
  function Score(id: string, events: seq<RelationshipEvent>): int {
    if events == [] then 0
    else
      var n := |events| - 1;
      Score(id, events[..n]) + Contribution(id, events[n])
  }

  /** The level of a score: thresholds 15 (High) and 8 (Medium), both inclusive. */
  function LevelOf(score: int): RiskLevel {
    if score >= 15 then High else if score >= 8 then Medium else Low
  }

  /** The IDs of the people. */
  function IdsOf(people: seq<Person>): set<string> {
    set i | 0 <= i < |people| :: people[i].ID
  }

  /** `calculateRiskScores` as a specification: one level for every person ID. */
  function RiskLevels(people: seq<Person>, events: seq<RelationshipEvent>): map<string, RiskLevel> {
    map id | id in IdsOf(people) :: LevelOf(Score(id, events))
  }

  /**
   * `calculateRiskScores`: the scores are set to 0 for every person, raised by the
   * negative events, and then mapped to levels.
   */
  method CalculateRiskScores(people: seq<Person>, events: seq<RelationshipEvent>) returns (levels: map<string, RiskLevel>)
    ensures levels.Keys == IdsOf(people)
    ensures levels == RiskLevels(people, events)
  {
    var scores := ZeroScores(people);
    for k := 0 to |events|
      invariant scores.Keys == IdsOf(people)
      invariant forall id :: id in scores ==> scores[id] == Score(id, events[..k])
    {
      assert events[..k + 1][..k] == events[..k];
      if events[k].Impact != "Negative" {
        continue;
      }
      scores := AddNegativeEvent(scores, events[k]);
    }
    assert events[..|events|] == events;
    levels := ScoreLevels(scores);
  }

  /** The first loop of `calculateRiskScores`: a zero score for every person ID. */
  method ZeroScores(people: seq<Person>) returns (scores: map<string, int>)
    ensures scores.Keys == IdsOf(people)
    ensures forall id :: id in scores ==> scores[id] == 0
  {
    scores := map[];
    for i := 0 to |people|
      invariant scores.Keys == IdsOf(people[..i])
      invariant forall id :: id in scores ==> scores[id] == 0
    {
      assert IdsOf(people[..i + 1]) == IdsOf(people[..i]) + {people[i].ID} by {
        assert forall k :: 0 <= k < i ==> people[..i + 1][k] == people[..i][k];
      }
      scores := scores[people[i].ID := 0];
    }
    assert people[..|people|] == people;
  }

  /** The inner loop of `calculateRiskScores`: the event's Severity added for every listed token that is a known ID. */
  method AddNegativeEvent(scores: map<string, int>, event: RelationshipEvent) returns (updated: map<string, int>)
    requires event.Impact == "Negative"
    ensures updated.Keys == scores.Keys
    ensures forall id :: id in updated ==> updated[id] == scores[id] + Contribution(id, event)
  {
    var ids := IdTokens(event.People_IDs);
    updated := AddSeverity(scores, ids, event.Severity);
  }

  /** The token loop: `severity` added to the score of every token that is a known ID, once per occurrence. */
  method AddSeverity(scores: map<string, int>, ids: seq<string>, severity: int) returns (updated: map<string, int>)
    ensures updated.Keys == scores.Keys
    ensures forall id :: id in updated ==> updated[id] == scores[id] + TokenSum(id, ids, severity)
  {
    updated := scores;
    for t := 0 to |ids|
      invariant updated.Keys == scores.Keys
      invariant forall id :: id in updated ==> updated[id] == scores[id] + TokenSum(id, ids[..t], severity)
    {
      TokenSumStep(ids, t, severity);
      var pid := ids[t];
      if pid in updated {
        updated := updated[pid := updated[pid] + severity];
      }
    }
    assert ids[..|ids|] == ids;
  }

  lemma TokenSumStep(ids: seq<string>, t: nat, severity: int)
    requires t < |ids|
    ensures forall id :: TokenSum(id, ids[..t + 1], severity) == TokenSum(id, ids[..t], severity) + (if ids[t] == id then severity else 0)
  {
    assert ids[..t + 1][..t] == ids[..t];
  }

  /** The last loop of `calculateRiskScores`: every score mapped to its level. */
  method ScoreLevels(scores: map<string, int>) returns (levels: map<string, RiskLevel>)
    ensures levels.Keys == scores.Keys
    ensures forall id :: id in levels ==> levels[id] == LevelOf(scores[id])
  {
    levels := map[];
    var pending := scores.Keys;
    while pending != {}
      invariant pending <= scores.Keys
      invariant levels.Keys == scores.Keys - pending
      invariant forall id :: id in levels ==> levels[id] == LevelOf(scores[id])
      decreases pending
    {
      var id :| id in pending;
      levels := levels[id := LevelOf(scores[id])];
      pending := pending - {id};
    }
  }

  // ---- What scoring promises ----------------------------------------------------------

  /** A negative event adds its Severity once for every occurrence of the ID in its list. */
  lemma {:induction false} TokenSumCountsOccurrences(id: string, tokens: seq<string>, severity: int)
    ensures TokenSum(id, tokens, severity) == severity * Occurrences(id, tokens)
  {
    if tokens != [] {
      var n := |tokens| - 1;
      TokenSumCountsOccurrences(id, tokens[..n], severity);
      assert severity * (Occurrences(id, tokens[..n]) + 1) == severity * Occurrences(id, tokens[..n]) + severity;
    }
  }

  /** The score is additive over the event list. */
  lemma {:induction false} ScoreAppend(id: string, a: seq<RelationshipEvent>, b: seq<RelationshipEvent>)
    ensures Score(id, a + b) == Score(id, a) + Score(id, b)
  {
    if b == [] {
      assert a + b == a;
    } else {
      var n := |b| - 1;
      ScoreAppend(id, a, b[..n]);
      assert (a + b)[..|a + b| - 1] == a + b[..n];
      assert (a + b)[|a + b| - 1] == b[n];
    }
  }

  /** An event whose Impact is not exactly "Negative" changes no score, whatever its Severity. */
  lemma NonNegativeEventIgnored(id: string, a: seq<RelationshipEvent>, e: RelationshipEvent, b: seq<RelationshipEvent>)
    requires e.Impact != "Negative"
    ensures Score(id, a + [e] + b) == Score(id, a + b)
  {
    ScoreAppend(id, a + [e], b);
    ScoreAppend(id, a, [e]);
    ScoreAppend(id, a, b);
    assert [e][..0] == [];
  }

  /** One negative event adds its Severity times the number of times the person is listed. */
  lemma NegativeEventAdds(id: string, a: seq<RelationshipEvent>, e: RelationshipEvent)
    requires e.Impact == "Negative"
    ensures Score(id, a + [e]) == Score(id, a) + e.Severity * Occurrences(id, IdTokens(e.People_IDs))
  {
    assert (a + [e])[..|a|] == a;
    TokenSumCountsOccurrences(id, IdTokens(e.People_IDs), e.Severity);
  }

  /** With no negative event the score stays 0 and the level is Low. */
  lemma {:induction false} NoNegativeEventsLow(id: string, events: seq<RelationshipEvent>)
    requires forall k :: 0 <= k < |events| ==> events[k].Impact != "Negative"
    ensures Score(id, events) == 0 && LevelOf(Score(id, events)) == Low
  {
    if events != [] {
      NoNegativeEventsLow(id, events[..|events| - 1]);
    }
  }

  /** The thresholds, both boundaries inclusive. */
  lemma LevelThresholds(score: int)
    ensures LevelOf(score) == High <==> score >= 15
    ensures LevelOf(score) == Medium <==> 8 <= score < 15
    ensures LevelOf(score) == Low <==> score < 8
    ensures LevelOf(7) == Low && LevelOf(8) == Medium && LevelOf(14) == Medium && LevelOf(15) == High
  {
  }

  /** A higher score never gives a lower level. */
  lemma LevelMonotone(a: int, b: int)
    requires a <= b
    ensures LevelOf(a).Rank() <= LevelOf(b).Rank()
  {
  }

  // ---- Write-back ---------------------------------------------------------------------------

  /** The write `updateRiskLevels` sends for one person: one when the computed level differs from the stored one. */
  function PersonWrites(p: Person, levels: map<string, RiskLevel>): seq<Write> {
    if p.ID in levels && levels[p.ID].Name() != p.RiskLevel then [RiskWrite(p.ID, levels[p.ID])] else []
  }

  /** The writes `updateRiskLevels` issues: one per person, in order, whose computed level differs from the stored one. */
  function RiskPlan(people: seq<Person>, levels: map<string, RiskLevel>): seq<Write> {
    if people == [] then []
    else
      var n := |people| - 1;
      RiskPlan(people[..n], levels) + PersonWrites(people[n], levels)
  }

  lemma {:induction false} RiskPlanAppend(a: seq<Person>, b: seq<Person>, levels: map<string, RiskLevel>)
    ensures RiskPlan(a + b, levels) == RiskPlan(a, levels) + RiskPlan(b, levels)
  {
    if b == [] {
      assert a + b == a;
    } else {
      var n := |b| - 1;
      assert RiskPlan(a + b, levels) == RiskPlan(a + b[..n], levels) + PersonWrites(b[n], levels) by {
        var ab := a + b;
        assert ab[..|ab| - 1] == a + b[..n] && ab[|ab| - 1] == b[n];
      }
      RiskPlanAppend(a, b[..n], levels);
    }
  }

  /**
   * Every planned write is for a person whose computed level differs from the
   * stored one, carries that computed level, and there is at most one per person.
   */
  lemma {:induction false} RiskPlanSound(people: seq<Person>, levels: map<string, RiskLevel>)
    ensures |RiskPlan(people, levels)| <= |people|
    ensures forall w :: w in RiskPlan(people, levels) ==>
      w.RiskWrite? && w.personId in levels && w.level == levels[w.personId] &&
      exists k :: 0 <= k < |people| && people[k].ID == w.personId && people[k].RiskLevel != w.level.Name()
  {
    if people != [] {
      var n := |people| - 1;
      RiskPlanSound(people[..n], levels);
      forall w | w in RiskPlan(people[..n], levels)
        ensures exists k :: 0 <= k < |people| && people[k].ID == w.personId && people[k].RiskLevel != w.level.Name()
      {
        var k :| 0 <= k < n && people[..n][k].ID == w.personId && people[..n][k].RiskLevel != w.level.Name();
        assert people[k] == people[..n][k];
      }
    }
  }

  /** Every person whose computed level differs from the stored one gets a write with that level. */
  lemma {:induction false} RiskPlanComplete(people: seq<Person>, levels: map<string, RiskLevel>)
    ensures forall k :: 0 <= k < |people| && people[k].ID in levels && levels[people[k].ID].Name() != people[k].RiskLevel ==>
      RiskWrite(people[k].ID, levels[people[k].ID]) in RiskPlan(people, levels)
  {
    if people != [] {
      var n := |people| - 1;
      RiskPlanComplete(people[..n], levels);
      forall k | 0 <= k < n ensures people[..n][k] == people[k] { }
    }
  }

  /** A person whose level needs writing makes the plan non-empty. */
  lemma PlanNotEmpty(people: seq<Person>, i: nat, levels: map<string, RiskLevel>)
    requires i < |people| && people[i].ID in levels && levels[people[i].ID].Name() != people[i].RiskLevel
    ensures RiskPlan(people, levels) != []
  {
    RiskPlanComplete(people, levels);
  }

  /** A person whose stored level is the computed one is never written. */
  lemma {:induction false} RiskPlanSkipsUnchanged(people: seq<Person>, levels: map<string, RiskLevel>)
    requires forall k :: 0 <= k < |people| ==> people[k].ID in levels && levels[people[k].ID].Name() == people[k].RiskLevel
    ensures RiskPlan(people, levels) == []
  {
    if people != [] {
      RiskPlanSkipsUnchanged(people[..|people| - 1], levels);
    }
  }

  /** The People table after the planned risk writes, applied in order. */
  function ApplyRiskWrites(t: Table, writes: seq<Write>): Table {
    if writes == [] then t
    else
      var n := |writes| - 1;
      var t1 := ApplyRiskWrites(t, writes[..n]);
      if writes[n].RiskWrite? then WithRiskLevel(t1, writes[n].personId, writes[n].level) else t1
  }

  /** The plan for the first `i + 1` people extends the plan for the first `i` by that person's write, if any. */
  lemma RiskPlanStep(people: seq<Person>, i: nat, levels: map<string, RiskLevel>)
    requires i < |people|
    ensures RiskPlan(people[..i + 1], levels) == RiskPlan(people[..i], levels) + PersonWrites(people[i], levels)
  {
    assert people[..i + 1][..i] == people[..i];
  }

  lemma ApplyRiskWritesSnoc(t: Table, writes: seq<Write>, w: Write)
    requires w.RiskWrite?
    ensures ApplyRiskWrites(t, writes + [w]) == WithRiskLevel(ApplyRiskWrites(t, writes), w.personId, w.level)
  {
    assert (writes + [w])[..|writes|] == writes;
  }

  /**
   * `updateRiskLevels`: the computed level is sent for each person whose stored
   * level differs, one write at a time in `people` order. A failing write stops
   * the loop and the failure reaches the caller; with a missing People table the
   * first write fails, so nothing is written unless nothing needed writing.
   */
  method UpdateRiskLevels(host: ExcelHost, people: seq<Person>, events: seq<RelationshipEvent>) returns (r: Result<()>)
    modifies host`tables, host`writes
    ensures var plan := RiskPlan(people, RiskLevels(people, events));
      if host.reachable && PeopleTable in old(host.tables) then
        && r.Ok?
        && host.writes == old(host.writes) + plan
        && host.tables == old(host.tables)[PeopleTable := ApplyRiskWrites(old(host.tables)[PeopleTable], plan)]
      else
        && (r.Ok? <==> plan == [])
        && host.writes == old(host.writes) && host.tables == old(host.tables)
  {
    var computed := CalculateRiskScores(people, events);
    r := SendRiskWrites(host, people, computed);
  }

  /** The loop of `updateRiskLevels`: one awaited write per person whose computed level differs. */
  method SendRiskWrites(host: ExcelHost, people: seq<Person>, computed: map<string, RiskLevel>) returns (r: Result<()>)
    modifies host`tables, host`writes
    ensures var plan := RiskPlan(people, computed);
      if host.reachable && PeopleTable in old(host.tables) then
        && r.Ok?
        && host.writes == old(host.writes) + plan
        && host.tables == old(host.tables)[PeopleTable := ApplyRiskWrites(old(host.tables)[PeopleTable], plan)]
      else
        && (r.Ok? <==> plan == [])
        && host.writes == old(host.writes) && host.tables == old(host.tables)
  {
    ghost var writable := host.reachable && PeopleTable in host.tables;
    ghost var start := Snapshot(host.writes, host.tables, if writable then host.tables[PeopleTable] else Table([], []));
    ghost var sent: seq<Write> := [];
    for i := 0 to |people|
      invariant sent == RiskPlan(people[..i], computed)
      invariant writable <==> host.reachable && PeopleTable in host.tables
      invariant SentSoFar(host, writable, start, sent)
    {
      var res := SendOne(host, people[i], computed, writable, start, sent);
      RiskPlanStep(people, i, computed);
      if res.Err? {
        PlanNotEmpty(people, i, computed);
        return res;
      }
      sent := sent + PersonWrites(people[i], computed);
    }
    assert people[..|people|] == people;
    r := Ok(());
  }

  /** The host's writes and tables before the loop, with the People table then (an empty one when there is none). */
  datatype Snapshot = Snapshot(writes: seq<Write>, tables: map<string, Table>, people: Table)

  /**
   * The host after the writes `sent`: when it takes writes they are logged in order
   * and applied to the People table; when it does not, nothing was sent and nothing changed.
   */
  ghost predicate SentSoFar(host: ExcelHost, writable: bool, start: Snapshot, sent: seq<Write>)
    reads host
  {
    if writable then
      host.writes == start.writes + sent && host.tables == start.tables[PeopleTable := ApplyRiskWrites(start.people, sent)]
    else
      sent == [] && host.writes == start.writes && host.tables == start.tables
  }

  /**
   * One pass of the loop: the write for person `p` when their level changed. It
   * fails only when the host cannot take writes, and then only for a person who
   * needed a write.
   */
  method SendOne(host: ExcelHost, p: Person, computed: map<string, RiskLevel>, ghost writable: bool, ghost start: Snapshot, ghost sent: seq<Write>)
    returns (res: Result<()>)
    requires writable <==> host.reachable && PeopleTable in host.tables
    requires SentSoFar(host, writable, start, sent)
    modifies host`tables, host`writes
    ensures writable <==> host.reachable && PeopleTable in host.tables
    ensures res.Ok? ==> SentSoFar(host, writable, start, sent + PersonWrites(p, computed))
    ensures res.Err? ==> !writable && PersonWrites(p, computed) != [] && host.writes == old(host.writes) && host.tables == old(host.tables)
  {
    res := Ok(());
    if p.ID in computed && computed[p.ID].Name() != p.RiskLevel {
      var newLevel := computed[p.ID];
      ghost var w := RiskWrite(p.ID, newLevel);
      assert PersonWrites(p, computed) == [w];
      ApplyRiskWritesSnoc(start.people, sent, w);
      res := host.UpdatePersonRiskLevel(p.ID, newLevel);
      if res.Ok? {
        assert host.writes == start.writes + (sent + [w]);
        assert host.tables == start.tables[PeopleTable := ApplyRiskWrites(start.people, sent + [w])];
      }
    } else {
      assert sent + PersonWrites(p, computed) == sent;
    }
  }
}
