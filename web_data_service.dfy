/**
 * The browser-side data store: an uploaded workbook (each sheet already turned
 * into rows of cells) and three in-memory caches. Loading parses the sheets once
 * and afterwards hands back the caches; accepted AI suggestions and recomputed
 * risk levels are written into the cached records.
 */
module WebData {
  import opened Wrappers
  import opened Cells
  import opened Types
  import opened RowParser

  /** A workbook: each sheet name with its rows, the first row being the header row. */
  type Workbook = map<string, seq<seq<Cell>>>

  /** `row.some(cell => cell != null && cell !== "")`. */
  predicate HasContent(row: seq<Cell>) {
    exists j :: 0 <= j < |row| && !IsBlank(row[j])
  }

  /** The rows that are not blank, in order. */
  function NonBlankRows(rows: seq<seq<Cell>>): seq<seq<Cell>> {
    if rows == [] then []
    else
      var n := |rows| - 1;
      NonBlankRows(rows[..n]) + (if HasContent(rows[n]) then [rows[n]] else [])
  }

  /** `rows[0].map(String)`. */
  function HeaderTexts(row: seq<Cell>): seq<string> {
    seq(|row|, j requires 0 <= j < |row| => ToText(row[j]))
  }

  function SheetNotFound(sheet: string): ValidationError {
    ValidationError(sheet, 0, "", "Sheet '" + sheet + "' not found")
  }

  const NoWorkbook := ValidationError("", 0, "", "No workbook loaded")

  /**
   * The records and errors of one sheet: an error when the sheet is missing,
   * nothing for a sheet without rows, otherwise the non-blank data rows parsed
   * under the header row.
   */
  function SheetOf(wb: Workbook, sheet: string): (seq<Record>, seq<ValidationError>) {
    if sheet !in wb then ([], [SheetNotFound(sheet)])
    else if wb[sheet] == [] then ([], [])
    else
      var rows := wb[sheet];
      var data := NonBlankRows(rows[1..]);
      (ParsedRecords(HeaderTexts(rows[0]), data), MissingIdErrors(HeaderTexts(rows[0]), data, sheet))
  }

  /** The result of parsing a workbook: People, Relationships and Events in that order. */
  function LoadWorkbook(wb: Workbook): DataLoadResult {
    var p, r, e := SheetOf(wb, "People"), SheetOf(wb, "Relationships"), SheetOf(wb, "Events");
    DataLoadResult(PeopleOf(p.0), RelationshipsOf(r.0), EventsOf(e.0), p.1 + r.1 + e.1)
  }

  /** The number of data rows of a present sheet that survive the blank-row filter. */
  function DataRowCount(wb: Workbook, sheet: string): nat {
    if sheet !in wb || wb[sheet] == [] then 0 else |NonBlankRows(wb[sheet][1..])|
  }

  // ---- What loading a workbook promises ------------------------------------------------------

  /** The filter keeps exactly the rows with content, in order, and never adds a row. */
  lemma {:induction false} NonBlankRowsExact(rows: seq<seq<Cell>>)
    ensures |NonBlankRows(rows)| <= |rows|
    ensures forall row :: row in NonBlankRows(rows) <==> row in rows && HasContent(row)
  {
    if rows != [] {
      var n := |rows| - 1;
      NonBlankRowsExact(rows[..n]);
      assert rows == rows[..n] + [rows[n]];
    }
  }

  /** A sheet's records plus its errors number its non-blank data rows, or one error for a missing sheet. */
  lemma SheetAccounting(wb: Workbook, sheet: string)
    ensures sheet in wb ==> |SheetOf(wb, sheet).0| + |SheetOf(wb, sheet).1| == DataRowCount(wb, sheet)
    ensures sheet !in wb ==> SheetOf(wb, sheet) == ([], [SheetNotFound(sheet)])
  {
    if sheet in wb && wb[sheet] != [] {
      var rows := wb[sheet];
      ParseRowsAccounting(HeaderTexts(rows[0]), NonBlankRows(rows[1..]), sheet);
    }
  }

  /**
   * Every row number in a "Missing ID" error counts non-blank data rows only: it
   * lies between 1 and the number of rows left after the header and the blank rows
   * are removed.
   */
  lemma MissingIdRowsCountNonBlank(wb: Workbook, sheet: string)
    requires sheet in wb && wb[sheet] != []
    ensures forall e :: e in SheetOf(wb, sheet).1 ==>
      e.table == sheet && e.field == "ID" && e.message == "Missing ID" && 1 <= e.row <= DataRowCount(wb, sheet)
  {
    var rows := wb[sheet];
    MissingIdErrorsExact(HeaderTexts(rows[0]), NonBlankRows(rows[1..]), sheet);
  }

  /**
   * Every row of a workbook is accounted for: the records of the three entity
   * lists plus the errors equal the non-blank data rows of the present sheets plus
   * one per missing sheet.
   */
  lemma LoadWorkbookAccounting(wb: Workbook)
    ensures var r := LoadWorkbook(wb);
      |r.people| + |r.relationships| + |r.events| + |r.errors|
      == DataRowCount(wb, "People") + DataRowCount(wb, "Relationships") + DataRowCount(wb, "Events")
         + (if "People" in wb then 0 else 1) + (if "Relationships" in wb then 0 else 1) + (if "Events" in wb then 0 else 1)
  {
    SheetAccounting(wb, "People");
    SheetAccounting(wb, "Relationships");
    SheetAccounting(wb, "Events");
  }

  /** A missing sheet costs one error and does not stop the other sheets from loading. */
  lemma MissingPeopleSheet(wb: Workbook)
    requires "People" !in wb
    ensures LoadWorkbook(wb).people == []
    ensures LoadWorkbook(wb).errors == [SheetNotFound("People")] + SheetOf(wb, "Relationships").1 + SheetOf(wb, "Events").1
    ensures LoadWorkbook(wb).relationships == RelationshipsOf(SheetOf(wb, "Relationships").0)
    ensures LoadWorkbook(wb).events == EventsOf(SheetOf(wb, "Events").0)
  {
  }

  /** The in-memory store of the web app. */
  class WebDataService {
    var workbook: Option<Workbook>
    var people: seq<Person>
    var relationships: seq<Relationship>
    var events: seq<RelationshipEvent>

    constructor()
      ensures workbook == None && people == [] && relationships == [] && events == []
    {
      workbook, people, relationships, events := None, [], [], [];
    }

    /** Whether some cache holds data, in which case loading returns the caches. */
    predicate HasCache()
      reads this
    {
      |people| > 0 || |relationships| > 0 || |events| > 0
    }

    /** `setWorkbook`: the new workbook, with all three caches emptied. */
    method SetWorkbook(wb: Workbook)
      modifies this
      ensures workbook == Some(wb)
      ensures people == [] && relationships == [] && events == [] && !HasCache()
    {
      workbook := Some(wb);
      people, relationships, events := [], [], [];
    }

    /** `resetData`: the caches are emptied so that the next load parses the workbook again. */
    method ResetData()
      modifies this`people, this`relationships, this`events
      ensures people == [] && relationships == [] && events == [] && !HasCache()
    {
      people, relationships, events := [], [], [];
    }

    /** One sheet loaded, its errors appended to `errors`. */
    method LoadSheet(wb: Workbook, sheet: string, errors: seq<ValidationError>)
      returns (records: seq<Record>, errorsOut: seq<ValidationError>)
      ensures records == SheetOf(wb, sheet).0
      ensures errorsOut == errors + SheetOf(wb, sheet).1
    {
      records, errorsOut := [], errors;
      if sheet in wb {
        var rows := wb[sheet];
        if |rows| > 0 {
          var headers := HeaderTexts(rows[0]);
          var dataRows := NonBlankRows(rows[1..]);
          records, errorsOut := ParseRows(headers, dataRows, sheet, errors);
        }
      } else {
        errorsOut := errors + [SheetNotFound(sheet)];
      }
    }

    /**
     * `loadAllData`: the caches themselves, without errors, when one of them holds
     * data; one "No workbook loaded" error when there is nothing to parse; otherwise
     * the parsed workbook, which then also becomes the caches.
     */
    method LoadAllData() returns (result: DataLoadResult)
      modifies this`people, this`relationships, this`events
      ensures old(HasCache()) ==>
        result == DataLoadResult(old(people), old(relationships), old(events), []) && unchanged(this)
      ensures !old(HasCache()) && old(workbook).None? ==>
        result == DataLoadResult([], [], [], [NoWorkbook]) && unchanged(this)
      ensures !old(HasCache()) && old(workbook).Some? ==>
        && result == LoadWorkbook(old(workbook).value)
        && people == result.people && relationships == result.relationships && events == result.events
    {
      if |people| > 0 || |relationships| > 0 || |events| > 0 {
        return DataLoadResult(people, relationships, events, []);
      }
      if workbook.None? {
        return DataLoadResult([], [], [], [NoWorkbook]);
      }
      var wb := workbook.value;
      ghost var ps, rs, es := SheetOf(wb, "People"), SheetOf(wb, "Relationships"), SheetOf(wb, "Events");
      var p, errors := LoadSheet(wb, "People", []);
      assert errors == ps.1;
      var r, errors2 := LoadSheet(wb, "Relationships", errors);
      var e, errors3 := LoadSheet(wb, "Events", errors2);
      assert LoadWorkbook(wb) == DataLoadResult(PeopleOf(ps.0), RelationshipsOf(rs.0), EventsOf(es.0), ps.1 + rs.1 + es.1);
      result := DataLoadResult(PeopleOf(p), RelationshipsOf(r), EventsOf(e), errors3);
      people, relationships, events := result.people, result.relationships, result.events;
    }

    /**
     * `writeEventFields`: the first cached event with the ID takes the supplied
     * fields; every other event is left as it is, and an unknown ID changes nothing.
     */
    method WriteEventFields(eventId: string, fields: EventFields)
      modifies this`events
      ensures var i := FirstIndex(EventIds(old(events)), eventId);
        events == if i == |old(events)| then old(events) else old(events)[i := WithFields(old(events)[i], fields)]
    {
      var i := 0;
      while i < |events|
        invariant 0 <= i <= |events|
        invariant events == old(events)
        invariant forall k :: 0 <= k < i ==> events[k].ID != eventId
      {
        if events[i].ID == eventId {
          FirstIndexIs(EventIds(events), eventId, i);
          events := events[i := WithFields(events[i], fields)];
          return;
        }
        i := i + 1;
      }
      FirstIndexIs(EventIds(events), eventId, i);
    }

    /** `updatePersonRiskLevel`: the first cached person with the ID gets the level; nothing else changes. */
    method UpdatePersonRiskLevel(personId: string, level: RiskLevel)
      modifies this`people
      ensures var i := FirstIndex(PersonIds(old(people)), personId);
        people == if i == |old(people)| then old(people) else old(people)[i := old(people)[i].(RiskLevel := level.Name())]
    {
      var i := 0;
      while i < |people|
        invariant 0 <= i <= |people|
        invariant people == old(people)
        invariant forall k :: 0 <= k < i ==> people[k].ID != personId
      {
        if people[i].ID == personId {
          FirstIndexIs(PersonIds(people), personId, i);
          people := people[i := people[i].(RiskLevel := level.Name())];
          return;
        }
        i := i + 1;
      }
      FirstIndexIs(PersonIds(people), personId, i);
    }
  }
}
