/**
 * The browser shell: loading the uploaded workbook through the in-memory store,
 * bringing every person's risk level up to date in place, the re-upload reset,
 * the selection handlers and applying an AI suggestion.
 *
 * The arrays the store returns are its own caches, so the person records the
 * shell updates are the cached ones; the model applies each such update to the
 * store's `people` field directly.
 */
module WebApp {
  import opened Wrappers
  import opened Types
  import opened RiskService
  import WebData

  datatype Tab = GraphTab | EventsTab | SettingsTab

  /** A person with the level computed for their ID, when there is one. */
  function Synced(p: Person, levels: map<string, RiskLevel>): Person {
    if p.ID in levels then p.(RiskLevel := levels[p.ID].Name()) else p
  }

  /** Every person brought to the computed level of their ID. */
  function SyncedLevels(people: seq<Person>, levels: map<string, RiskLevel>): (r: seq<Person>)
    ensures |r| == |people|
  {
    seq(|people|, k requires 0 <= k < |people| => Synced(people[k], levels))
  }

  /** The first `i` people brought to their computed level, the rest as loaded. */
  predicate SyncedUpTo(people: seq<Person>, loaded: seq<Person>, i: nat, levels: map<string, RiskLevel>) {
    && |people| == |loaded|
    && (forall k :: 0 <= k < i && k < |loaded| ==> people[k] == Synced(loaded[k], levels))
    && (forall k :: i <= k < |loaded| ==> people[k] == loaded[k])
  }

  /** Once every person is brought to their level, the people are `SyncedLevels` of the loaded ones. */
  lemma SyncedAll(people: seq<Person>, loaded: seq<Person>, levels: map<string, RiskLevel>)
    requires SyncedUpTo(people, loaded, |loaded|, levels)
    ensures people == SyncedLevels(loaded, levels)
  {
  }

  /** What the store's `loadAllData` returns in its present state. */
  function LoadOutcome(svc: WebData.WebDataService): DataLoadResult
    reads svc
  {
    if svc.HasCache() then DataLoadResult(svc.people, svc.relationships, svc.events, [])
    else if svc.workbook.None? then DataLoadResult([], [], [], [WebData.NoWorkbook])
    else WebData.LoadWorkbook(svc.workbook.value)
  }

  /**
   * After the sync every person keeps all fields but the level, and carries the
   * level of their own score; a person whose level already was that one is the
   * same record as before.
   */
  lemma SyncedLevelsMatchScores(people: seq<Person>, events: seq<RelationshipEvent>)
    ensures var r := SyncedLevels(people, RiskLevels(people, events));
      forall k :: 0 <= k < |people| ==>
        && r[k] == people[k].(RiskLevel := LevelOf(Score(people[k].ID, events)).Name())
        && (people[k].RiskLevel == LevelOf(Score(people[k].ID, events)).Name() ==> r[k] == people[k])
  {
    var levels := RiskLevels(people, events);
    forall k | 0 <= k < |people| ensures people[k].ID in levels {
      assert people[k].ID in IdsOf(people);
    }
  }

  /** Syncing keeps the IDs, so the computed levels are the same afterwards. */
  lemma SyncKeepsLevels(people: seq<Person>, events: seq<RelationshipEvent>)
    ensures var levels := RiskLevels(people, events);
      RiskLevels(SyncedLevels(people, levels), events) == levels
  {
    var levels := RiskLevels(people, events);
    var r := SyncedLevels(people, levels);
    assert IdsOf(r) == IdsOf(people) by {
      forall id | id in IdsOf(people) ensures id in IdsOf(r) {
        var k :| 0 <= k < |people| && people[k].ID == id;
        assert r[k].ID == id;
      }
      forall id | id in IdsOf(r) ensures id in IdsOf(people) {
        var k :| 0 <= k < |r| && r[k].ID == id;
        assert people[k].ID == id;
      }
    }
  }

  /** A second sync over the same events writes nothing: the levels are already current. */
  lemma SyncIsIdempotent(people: seq<Person>, events: seq<RelationshipEvent>)
    ensures var r := SyncedLevels(people, RiskLevels(people, events));
      && RiskPlan(r, RiskLevels(r, events)) == []
      && SyncedLevels(r, RiskLevels(r, events)) == r
  {
    var levels := RiskLevels(people, events);
    var r := SyncedLevels(people, levels);
    SyncKeepsLevels(people, events);
    SyncedLevelsMatchScores(people, events);
    forall k | 0 <= k < |r| ensures r[k].ID in levels && levels[r[k].ID].Name() == r[k].RiskLevel {
      assert r[k].ID in IdsOf(people) by { assert people[k].ID == r[k].ID; }
    }
    RiskPlanSkipsUnchanged(r, levels);
  }

  /** The web app's state. */
  class Shell {
    const svc: WebData.WebDataService
    var workbookLoaded: bool
    var people: seq<Person>
    var relationships: seq<Relationship>
    var events: seq<RelationshipEvent>
    var errors: seq<ValidationError>
    var activeTab: Tab
    var isLoading: bool
    var selectedPerson: Option<Person>
    var selectedRelationship: Option<Relationship>
    var filters: FilterState
    /** The levels passed to `updatePersonRiskLevel`, in order. */
    ghost var riskWrites: seq<Write>

    constructor(svc: WebData.WebDataService)
      ensures this.svc == svc && !workbookLoaded
      ensures people == [] && relationships == [] && events == [] && errors == []
      ensures activeTab == GraphTab && !isLoading && selectedPerson == None && selectedRelationship == None
      ensures filters == EmptyFilters && riskWrites == []
    {
      this.svc := svc;
      workbookLoaded := false;
      people, relationships, events, errors := [], [], [], [];
      activeTab, isLoading := GraphTab, false;
      selectedPerson, selectedRelationship := None, None;
      filters := EmptyFilters;
      riskWrites := [];
    }

    /**
     * `loadData`: the load result replaces the four lists; when people were
     * loaded, each person whose computed level differs is updated in place and
     * that level is passed to the store, and the people list is then the updated
     * one. The store ends holding the same updated people.
     */
    method LoadData()
      modifies this`people, this`relationships, this`events, this`errors, this`riskWrites,
               svc`people, svc`relationships, svc`events
      ensures var r := old(LoadOutcome(svc));
        && relationships == r.relationships && events == r.events && errors == r.errors
        && (r.people == [] ==> people == [] && riskWrites == old(riskWrites))
        && (r.people != [] ==>
              var levels := RiskLevels(r.people, r.events);
              && people == SyncedLevels(r.people, levels)
              && riskWrites == old(riskWrites) + RiskPlan(r.people, levels))
        && svc.people == (if r.people == [] then old(svc.people) else people)
        && svc.relationships == (if old(svc.HasCache()) || old(svc.workbook).None? then old(svc.relationships) else r.relationships)
        && svc.events == (if old(svc.HasCache()) || old(svc.workbook).None? then old(svc.events) else r.events)
    {
      var result := svc.LoadAllData();
      people, relationships, events, errors := result.people, result.relationships, result.events, result.errors;
      if |result.people| > 0 {
        var levels := CalculateRiskScores(result.people, result.events);
        SyncRiskLevels(result.people, levels);
        people := svc.people;
      }
    }

    /**
     * The loop over the loaded people, which are the store's cached records: a
     * person whose computed level differs gets it in place, and the level is
     * then passed to `updatePersonRiskLevel`.
     */
    method SyncRiskLevels(loaded: seq<Person>, levels: map<string, RiskLevel>)
      requires svc.people == loaded
      modifies this`riskWrites, svc`people
      ensures svc.people == SyncedLevels(loaded, levels)
      ensures riskWrites == old(riskWrites) + RiskPlan(loaded, levels)
    {
      for i := 0 to |loaded|
        invariant SyncedUpTo(svc.people, loaded, i, levels)
        invariant riskWrites == old(riskWrites) + RiskPlan(loaded[..i], levels)
      {
        RiskPlanStep(loaded, i, levels);
        SyncPerson(loaded, i, levels);
      }
      assert loaded[..|loaded|] == loaded;
      SyncedAll(svc.people, loaded, levels);
    }

    /** One pass of the loop, for person `i`. */
    method SyncPerson(loaded: seq<Person>, i: nat, levels: map<string, RiskLevel>)
      requires i < |loaded| && SyncedUpTo(svc.people, loaded, i, levels)
      modifies this`riskWrites, svc`people
      ensures SyncedUpTo(svc.people, loaded, i + 1, levels)
      ensures riskWrites == old(riskWrites) + PersonWrites(loaded[i], levels)
    {
      var person := svc.people[i];
      if person.ID in levels && levels[person.ID].Name() != person.RiskLevel {
        var newLevel := levels[person.ID];
        svc.people := svc.people[i := person.(RiskLevel := newLevel.Name())];
        StoreWriteIsNoOp(svc.people, loaded, i, levels);
        svc.UpdatePersonRiskLevel(person.ID, newLevel);
        riskWrites := riskWrites + [RiskWrite(person.ID, newLevel)];
      }
    }

    /**
     * `handleReUpload`: back to the upload screen with no data, no errors, no
     * selection, every facet empty and the graph tab chosen.
     */
    method HandleReUpload()
      modifies this`workbookLoaded, this`people, this`relationships, this`events, this`errors,
               this`selectedPerson, this`selectedRelationship, this`filters, this`activeTab
      ensures !workbookLoaded && people == [] && relationships == [] && events == [] && errors == []
      ensures selectedPerson == None && selectedRelationship == None
      ensures filters == EmptyFilters && activeTab == GraphTab
    {
      workbookLoaded := false;
      people, relationships, events, errors := [], [], [], [];
      selectedPerson, selectedRelationship := None, None;
      filters := EmptyFilters;
      activeTab := GraphTab;
    }

    /** `handleSelectPerson`: the person (or none) is selected and the relationship selection cleared. */
    method SelectPerson(person: Option<Person>)
      modifies this`selectedPerson, this`selectedRelationship
      ensures selectedPerson == person && selectedRelationship == None
    {
      selectedPerson := person;
      selectedRelationship := None;
    }

    /** `handleSelectRelationship`: the relationship (or none) is selected and the person selection cleared. */
    method SelectRelationship(rel: Option<Relationship>)
      modifies this`selectedPerson, this`selectedRelationship
      ensures selectedRelationship == rel && selectedPerson == None
    {
      selectedRelationship := rel;
      selectedPerson := None;
    }

    /**
     * `handleApplySuggestions`: the cached event is edited first and the data
     * then reloaded. With data cached, the reload returns the caches, so the
     * shown events hold the edit and the risk levels are computed from them.
     */
    method HandleApplySuggestions(eventId: string, fields: EventFields)
      modifies this`people, this`relationships, this`events, this`errors, this`riskWrites,
               svc`people, svc`relationships, svc`events
      ensures old(svc.HasCache()) ==>
        var i := FirstIndex(EventIds(old(svc.events)), eventId);
        var edited := if i == |old(svc.events)| then old(svc.events) else old(svc.events)[i := WithFields(old(svc.events)[i], fields)];
        && events == edited && svc.events == edited && errors == []
        && relationships == old(svc.relationships)
        && (old(svc.people) != [] ==> people == SyncedLevels(old(svc.people), RiskLevels(old(svc.people), edited)))
    {
      svc.WriteEventFields(eventId, fields);
      LoadData();
    }

    /** `handleFileLoaded`: the workbook is handed to the store, the data loaded, and the data screen shown. */
    method HandleFileLoaded(wb: WebData.Workbook)
      modifies this`people, this`relationships, this`events, this`errors, this`riskWrites, this`workbookLoaded, this`isLoading,
               svc
      ensures var r := WebData.LoadWorkbook(wb);
        && workbookLoaded && !isLoading
        && relationships == r.relationships && events == r.events && errors == r.errors
        && people == SyncedLevels(r.people, RiskLevels(r.people, r.events))
        && svc.workbook == Some(wb) && svc.people == people
    {
      isLoading := true;
      svc.SetWorkbook(wb);
      LoadData();
      workbookLoaded := true;
      isLoading := false;
    }
  }

  /**
   * Once person `i` carries the computed level, passing that level to the store
   * changes nothing: the first person with the same ID is `i` itself or an
   * earlier person, which already carries the level of that ID.
   */
  lemma StoreWriteIsNoOp(people: seq<Person>, loaded: seq<Person>, i: nat, levels: map<string, RiskLevel>)
    requires i < |people| == |loaded| && people[i].ID in levels
    requires people[i].RiskLevel == levels[people[i].ID].Name()
    requires forall k :: 0 <= k < i ==> people[k] == Synced(loaded[k], levels)
    ensures var j := FirstIndex(PersonIds(people), people[i].ID);
      people == if j == |people| then people else people[j := people[j].(RiskLevel := levels[people[i].ID].Name())]
  {
    var id := people[i].ID;
    assert PersonIds(people)[i] == id;
    var j := FirstIndex(PersonIds(people), id);
    assert j <= i;
    assert people[j].ID == id by { assert PersonIds(people)[j] == id; }
    if j < i {
      assert people[j] == Synced(loaded[j], levels);
    }
  }
}
