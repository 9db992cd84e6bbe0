/**
 * The spreadsheet add-in shell: loading the three tables from the host, deciding
 * whether the tables exist, replacing the shown data, writing the risk levels
 * back, applying an AI suggestion and the selection handlers.
 */
module App {
  import opened Wrappers
  import opened Types
  import JsText
  import opened DataService
  import opened RiskService

  /** Whether some error message mentions "not found". */
  predicate SomeNotFound(errors: seq<ValidationError>) {
    exists k :: 0 <= k < |errors| && JsText.Contains(errors[k].message, "not found")
  }

  /** The test that shows the "tables missing" screen: no data at all and some "not found" error. */
  predicate TablesMissing(r: DataLoadResult) {
    r.people == [] && r.relationships == [] && r.events == [] && SomeNotFound(r.errors)
  }

  /** A workbook without any of the three sheets is not taken for a missing set of tables: it loads as empty data. */
  lemma NoSheetsIsNotMissing(sheetNames: seq<string>, tables: map<string, Table>)
    requires "People" !in sheetNames && "Relationships" !in sheetNames && "Events" !in sheetNames
    ensures var r := LoadTables(sheetNames, tables);
      !TablesMissing(r) && r.people == [] && r.relationships == [] && r.events == []
  {
    NoSheetsNoErrors(sheetNames, tables);
  }

  /** With the People sheet present but none of the three tables, the tables count as missing. */
  lemma AbsentTablesAreMissing(sheetNames: seq<string>, tables: map<string, Table>)
    requires "People" in sheetNames
    requires PeopleTable !in tables && RelationshipsTable !in tables && EventsTable !in tables
    ensures TablesMissing(LoadTables(sheetNames, tables))
  {
    MissingTableError(sheetNames, tables, "People", PeopleTable);
    var r := LoadTables(sheetNames, tables);
    assert r.errors[0] == SectionOf(sheetNames, tables, "People", PeopleTable).1[0];
  }

  /** Data loaded with at least one record never counts as missing, whatever its errors. */
  lemma DataIsNeverMissing(r: DataLoadResult)
    requires r.people != [] || r.relationships != [] || r.events != []
    ensures !TablesMissing(r)
  {
  }

  /** The add-in's state. */
  class AddIn {
    const host: ExcelHost
    var people: seq<Person>
    var relationships: seq<Relationship>
    var events: seq<RelationshipEvent>
    var errors: seq<ValidationError>
    var isLoading: bool
    var tablesExist: bool
    var selectedPerson: Option<Person>
    var selectedRelationship: Option<Relationship>

    constructor(host: ExcelHost)
      ensures this.host == host
      ensures people == [] && relationships == [] && events == [] && errors == []
      ensures isLoading && tablesExist && selectedPerson == None && selectedRelationship == None
    {
      this.host := host;
      people, relationships, events, errors := [], [], [], [];
      isLoading, tablesExist := true, true;
      selectedPerson, selectedRelationship := None, None;
    }

    /**
     * `loadData`: an unreachable host marks the tables missing; a load that finds
     * no data and some "not found" error marks them missing and keeps the shown
     * data; otherwise the four lists are replaced by the load result and, when
     * people were loaded, the changed risk levels are written back, a failed
     * write marking the tables missing. The shown people stay as loaded. Loading
     * ends in every case.
     */
    method LoadData()
      modifies this`people, this`relationships, this`events, this`errors, this`isLoading, this`tablesExist,
               host`tables, host`writes
      ensures !isLoading
      ensures !host.reachable ==>
        && !tablesExist && unchanged(host)
        && people == old(people) && relationships == old(relationships) && events == old(events) && errors == old(errors)
      ensures host.reachable ==>
        var r := LoadTables(host.sheetNames, old(host.tables));
        && (TablesMissing(r) ==>
              && !tablesExist && unchanged(host)
              && people == old(people) && relationships == old(relationships) && events == old(events) && errors == old(errors))
        && (!TablesMissing(r) ==>
              && people == r.people && relationships == r.relationships && events == r.events && errors == r.errors
              && (r.people == [] ==> tablesExist && unchanged(host))
              && (r.people != [] ==>
                    var plan := RiskPlan(r.people, RiskLevels(r.people, r.events));
                    if PeopleTable in old(host.tables) then
                      && tablesExist
                      && host.writes == old(host.writes) + plan
                      && host.tables == old(host.tables)[PeopleTable := ApplyRiskWrites(old(host.tables)[PeopleTable], plan)]
                    else
                      && (tablesExist <==> plan == [])
                      && unchanged(host)))
    {
      var loaded := host.LoadAllData();
      if loaded.Err? {
        tablesExist := false;
        isLoading := false;
        return;
      }
      var result := loaded.value;
      if |result.people| == 0 && |result.relationships| == 0 && |result.events| == 0 && SomeNotFound(result.errors) {
        tablesExist := false;
        isLoading := false;
        return;
      }
      ShowLoaded(result);
    }

    /**
     * The rest of `loadData` once data was found: the four lists are replaced, and
     * when people were loaded their changed risk levels are written back, a failed
     * write marking the tables missing.
     */
    method ShowLoaded(result: DataLoadResult)
      requires host.reachable
      modifies this`people, this`relationships, this`events, this`errors, this`isLoading, this`tablesExist,
               host`tables, host`writes
      ensures !isLoading
      ensures people == result.people && relationships == result.relationships && events == result.events && errors == result.errors
      ensures result.people == [] ==> tablesExist && unchanged(host)
      ensures result.people != [] ==>
        var plan := RiskPlan(result.people, RiskLevels(result.people, result.events));
        if PeopleTable in old(host.tables) then
          && tablesExist
          && host.writes == old(host.writes) + plan
          && host.tables == old(host.tables)[PeopleTable := ApplyRiskWrites(old(host.tables)[PeopleTable], plan)]
        else
          && (tablesExist <==> plan == [])
          && unchanged(host)
    {
      tablesExist := true;
      people, relationships, events, errors := result.people, result.relationships, result.events, result.errors;
      if |result.people| > 0 {
        var written := UpdateRiskLevels(host, result.people, result.events);
        if written.Err? {
          tablesExist := false;
        }
      }
      isLoading := false;
    }

    /**
     * `handleApplySuggestions`: the write to the Events table completes before the
     * reload, so the reload reads the edited table; a failed write rejects and
     * nothing is reloaded.
     */
    method HandleApplySuggestions(eventId: string, fields: EventFields) returns (r: Result<()>)
      modifies this`people, this`relationships, this`events, this`errors, this`isLoading, this`tablesExist,
               host`tables, host`writes
      ensures r.Ok? <==> host.reachable && EventsTable in old(host.tables)
      ensures r.Err? ==>
        && unchanged(host) && unchanged(this)
      ensures r.Ok? ==>
        var edited := old(host.tables)[EventsTable := WithEventFields(old(host.tables)[EventsTable], eventId, fields)];
        var loaded := LoadTables(host.sheetNames, edited);
        && !isLoading
        && (!TablesMissing(loaded) ==> events == loaded.events && people == loaded.people)
        && |host.writes| >= |old(host.writes)| + 1
        && host.writes[..|old(host.writes)| + 1] == old(host.writes) + [EventWrite(eventId, fields)]
    {
      var written := host.WriteEventFields(eventId, fields);
      if written.Err? {
        return written;
      }
      ghost var afterWrite := host.writes;
      LoadData();
      assert host.writes[..|afterWrite|] == afterWrite;
      r := Ok(());
    }

    /** `handleSelectPerson`: the person (or none) is selected and the relationship selection cleared. */
    method SelectPerson(person: Option<Person>)
      modifies this`selectedPerson, this`selectedRelationship
      ensures selectedPerson == person && selectedRelationship == None
    {
      selectedPerson := person;
      selectedRelationship := None;
    }

    /** `handleSelectRelationship`: the relationship (or none) is selected and the person selection cleared. */
    method SelectRelationship(rel: Option<Relationship>)
      modifies this`selectedPerson, this`selectedRelationship
      ensures selectedRelationship == rel && selectedPerson == None
    {
      selectedRelationship := rel;
      selectedPerson := None;
    }
  }
}
