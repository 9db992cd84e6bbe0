/**
 * The spreadsheet-host data service: the three named tables of the workbook as
 * header and body grids, the load of all three through the row parser, and the
 * two write-backs that find the first row with a given ID and overwrite cells in
 * it. Every write the host accepts is appended to a ghost log.
 */
module DataService {
  import opened Wrappers
  import opened Types
  import opened Cells
  import opened RowParser
  import JsText

  const PeopleTable := "tbl_People"
  const RelationshipsTable := "tbl_Relationships"
  const EventsTable := "tbl_Events"

  /** A table of the workbook: its header row and the rows of its data body. */
  datatype Table = Table(header: seq<Cell>, body: seq<seq<Cell>>)

  /** `headerRange.values[0].map(String)`. */
  function HeaderNames(t: Table): (hs: seq<string>)
    ensures |hs| == |t.header|
  {
    seq(|t.header|, i requires 0 <= i < |t.header| => ToText(t.header[i]))
  }

  /** `headers.indexOf(name)`: the first column with that name, or -1. */
  function IndexOf(headers: seq<string>, name: string): (k: int)
    ensures -1 <= k < |headers|
    ensures k == -1 <==> name !in headers
    ensures k >= 0 ==> headers[k] == name && forall i :: 0 <= i < k ==> headers[i] != name
  {
    if headers == [] then -1
    else if headers[0] == name then 0
    else
      var k := IndexOf(headers[1..], name);
      assert forall i :: 1 <= i < |headers| ==> headers[i] == headers[1..][i - 1];
      if k == -1 then -1 else k + 1
  }

  /** The position of the first body row whose cell in column `col` reads as `id`; `|body|` when there is none. */
  function FirstMatch(body: seq<seq<Cell>>, col: nat, id: string): (i: nat)
    ensures i <= |body|
    ensures i < |body| ==> ToText(CellAt(body[i], col)) == id
    ensures forall k :: 0 <= k < i ==> ToText(CellAt(body[k], col)) != id
  {
    if body == [] then 0
    else if ToText(CellAt(body[0], col)) == id then 0
    else
      var i := FirstMatch(body[1..], col, id);
      assert forall k :: 1 <= k < |body| ==> body[k] == body[1..][k - 1];
      1 + i
  }

  /** The scan for the first row whose ID cell reads `id`; past the end when there is none. */
  method FindRow(body: seq<seq<Cell>>, col: nat, id: string) returns (i: nat)
    ensures i == FirstMatch(body, col, id)
  {
    i := 0;
    while i < |body|
      invariant i <= |body|
      invariant forall k :: 0 <= k < i ==> ToText(CellAt(body[k], col)) != id
    {
      if ToText(CellAt(body[i], col)) == id {
        return;
      }
      i := i + 1;
    }
  }

  /**
   * The People table after the risk-level write: the header lookup, then the scan for
   * the person's row and the cell write, or the table unchanged when a column is missing.
   */
  method RiskLevelWritten(t: Table, personId: string, level: RiskLevel) returns (written: Table)
    ensures written == WithRiskLevel(t, personId, level)
  {
    var headers := HeaderNames(t);
    var idCol, riskCol := IndexOf(headers, "ID"), IndexOf(headers, "RiskLevel");
    if idCol == -1 || riskCol == -1 {
      return t;
    }
    var body := t.body;
    var i := FindRow(body, idCol, personId);
    if i < |body| {
      body := body[i := SetCell(body[i], riskCol, Text(level.Name()))];
    }
    written := t.(body := body);
  }

  /** The row with column `j` overwritten; a row without that column is left as it is. */
  function SetCell(row: seq<Cell>, j: int, c: Cell): seq<Cell> {
    if 0 <= j < |row| then row[j := c] else row
  }

  /** The People table after `updatePersonRiskLevel(personId, level)`. */
  function WithRiskLevel(t: Table, personId: string, level: RiskLevel): Table {
    var hs := HeaderNames(t);
    var idCol, riskCol := IndexOf(hs, "ID"), IndexOf(hs, "RiskLevel");
    if idCol == -1 || riskCol == -1 then t
    else
      var i := FirstMatch(t.body, idCol, personId);
      if i == |t.body| then t
      else t.(body := t.body[i := SetCell(t.body[i], riskCol, Text(level.Name()))])
  }

  /** A row with the supplied suggestion fields written into their columns (a field without a column is skipped). */
  function WithEventCells(row: seq<Cell>, hs: seq<string>, f: EventFields): seq<Cell> {
    var r1 := if f.Type.Some? then SetCell(row, IndexOf(hs, "Type"), Text(f.Type.value)) else row;
    var r2 := if f.Impact.Some? then SetCell(r1, IndexOf(hs, "Impact"), Text(f.Impact.value)) else r1;
    if f.Severity.Some? then SetCell(r2, IndexOf(hs, "Severity"), Num(f.Severity.value)) else r2
  }

  /** The Events table after `writeEventFields(eventId, fields)`. */
  function WithEventFields(t: Table, eventId: string, f: EventFields): Table {
    var hs := HeaderNames(t);
    var idCol := IndexOf(hs, "ID");
    if idCol == -1 then t
    else
      var i := FirstMatch(t.body, idCol, eventId);
      if i == |t.body| then t
      else t.(body := t.body[i := WithEventCells(t.body[i], hs, f)])
  }

  /** The records and errors of one sheet: nothing when the sheet is absent, one error when its table is missing. */
  function SectionOf(sheetNames: seq<string>, tables: map<string, Table>, sheet: string, tableName: string)
    : (seq<Record>, seq<ValidationError>)
  {
    if sheet !in sheetNames then ([], [])
    else if tableName !in tables then ([], [ValidationError(sheet, 0, "", "Table " + tableName + " not found")])
    else
      var t := tables[tableName];
      (ParsedRecords(HeaderNames(t), t.body), MissingIdErrors(HeaderNames(t), t.body, sheet))
  }

  /** `loadAllData` of a reachable host: People, Relationships and Events in that order, their errors accumulated. */
  function LoadTables(sheetNames: seq<string>, tables: map<string, Table>): DataLoadResult {
    var p := SectionOf(sheetNames, tables, "People", PeopleTable);
    var r := SectionOf(sheetNames, tables, "Relationships", RelationshipsTable);
    var e := SectionOf(sheetNames, tables, "Events", EventsTable);
    DataLoadResult(PeopleOf(p.0), RelationshipsOf(r.0), EventsOf(e.0), p.1 + r.1 + e.1)
  }

  /** A workbook without any of the three sheets loads as empty data without a single error. */
  lemma NoSheetsNoErrors(sheetNames: seq<string>, tables: map<string, Table>)
    requires "People" !in sheetNames && "Relationships" !in sheetNames && "Events" !in sheetNames
    ensures LoadTables(sheetNames, tables) == DataLoadResult([], [], [], [])
  {
  }

  /** Counting conservation of one loaded sheet: records kept plus errors equal the rows of its table. */
  lemma LoadSectionAccounting(sheetNames: seq<string>, tables: map<string, Table>, sheet: string, tableName: string)
    requires sheet in sheetNames && tableName in tables
    ensures var s := SectionOf(sheetNames, tables, sheet, tableName);
      |s.0| + |s.1| == |tables[tableName].body|
  {
    var t := tables[tableName];
    ParseRowsAccounting(HeaderNames(t), t.body, sheet);
  }

  /** A sheet whose table is missing contributes no records and one "not found" error. */
  lemma MissingTableError(sheetNames: seq<string>, tables: map<string, Table>, sheet: string, tableName: string)
    requires sheet in sheetNames && tableName !in tables
    ensures var s := SectionOf(sheetNames, tables, sheet, tableName);
      s.0 == [] && |s.1| == 1 && s.1[0].row == 0 && JsText.Contains(s.1[0].message, "not found")
  {
    var m := "Table " + tableName + " not found";
    NotFoundSuffix("Table " + tableName);
  }

  lemma {:induction false} NotFoundSuffix(prefix: string)
    ensures JsText.Contains(prefix + " not found", "not found")
  {
    if prefix == [] {
      assert (prefix + " not found")[1..] == "not found";
      assert JsText.StartsWith("not found", "not found");
    } else {
      NotFoundSuffix(prefix[1..]);
      assert (prefix + " not found")[1..] == prefix[1..] + " not found";
    }
  }

  /** Overwriting a risk level touches only the RiskLevel cell of the first row with that ID. */
  lemma RiskWriteTouchesOneCell(t: Table, personId: string, level: RiskLevel)
    ensures var r := WithRiskLevel(t, personId, level);
      var hs := HeaderNames(t);
      && r.header == t.header && |r.body| == |t.body|
      && ("ID" !in hs || "RiskLevel" !in hs ==> r == t)
      && forall i, j :: 0 <= i < |t.body| && 0 <= j < |t.body[i]| ==>
        |r.body[i]| == |t.body[i]| &&
        (r.body[i][j] != t.body[i][j] ==>
          i == FirstMatch(t.body, IndexOf(hs, "ID"), personId) && j == IndexOf(hs, "RiskLevel")
          && r.body[i][j] == Text(level.Name()))
  {
  }

  /** Writing suggestions touches only the Type, Impact and Severity cells of the first row with that ID. */
  lemma EventWriteTouchesSuppliedCells(t: Table, eventId: string, f: EventFields)
    ensures var r := WithEventFields(t, eventId, f);
      var hs := HeaderNames(t);
      && r.header == t.header && |r.body| == |t.body|
      && ("ID" !in hs ==> r == t)
      && forall i, j :: 0 <= i < |t.body| && 0 <= j < |t.body[i]| ==>
        |r.body[i]| == |t.body[i]| &&
        (r.body[i][j] != t.body[i][j] ==>
          i == FirstMatch(t.body, IndexOf(hs, "ID"), eventId) &&
          ((f.Type.Some? && j == IndexOf(hs, "Type") && r.body[i][j] == Text(f.Type.value)) ||
           (f.Impact.Some? && j == IndexOf(hs, "Impact") && r.body[i][j] == Text(f.Impact.value)) ||
           (f.Severity.Some? && j == IndexOf(hs, "Severity") && r.body[i][j] == Num(f.Severity.value))))
  {
  }

  /**
   * The host workbook: whether it can be reached at all, its sheet names, its
   * tables by name, and the log of writes it has accepted.
   */
  class ExcelHost {
    var reachable: bool
    var sheetNames: seq<string>
    var tables: map<string, Table>
    ghost var writes: seq<Write>

    constructor (reachable: bool, sheetNames: seq<string>, tables: map<string, Table>)
      ensures this.reachable == reachable && this.sheetNames == sheetNames && this.tables == tables
      ensures writes == []
    {
      this.reachable, this.sheetNames, this.tables := reachable, sheetNames, tables;
      writes := [];
    }

    /** Parses one sheet's table, appending its errors to `errors`. */
    method LoadSection(sheet: string, tableName: string, errors: seq<ValidationError>)
      returns (records: seq<Record>, errorsOut: seq<ValidationError>)
      ensures records == SectionOf(sheetNames, tables, sheet, tableName).0
      ensures errorsOut == errors + SectionOf(sheetNames, tables, sheet, tableName).1
    {
      records, errorsOut := [], errors;
      if sheet in sheetNames {
        if tableName in tables {
          var t := tables[tableName];
          records, errorsOut := ParseRows(HeaderNames(t), t.body, sheet, errors);
        } else {
          errorsOut := errors + [ValidationError(sheet, 0, "", "Table " + tableName + " not found")];
        }
      }
    }

    /** `loadAllData`: the three tables parsed in order; an unreachable host throws. */
    method LoadAllData() returns (r: Result<DataLoadResult>)
      ensures reachable ==> r == Ok(LoadTables(sheetNames, tables))
      ensures !reachable ==> r.Err?
    {
      if !reachable {
        return Err("Excel is not available");
      }
      ghost var p := SectionOf(sheetNames, tables, "People", PeopleTable);
      ghost var rs := SectionOf(sheetNames, tables, "Relationships", RelationshipsTable);
      ghost var es := SectionOf(sheetNames, tables, "Events", EventsTable);
      var people, errors := LoadSection("People", PeopleTable, []);
      assert errors == p.1;
      var relationships, errors2 := LoadSection("Relationships", RelationshipsTable, errors);
      var events, errors3 := LoadSection("Events", EventsTable, errors2);
      assert LoadTables(sheetNames, tables) == DataLoadResult(PeopleOf(p.0), RelationshipsOf(rs.0), EventsOf(es.0), p.1 + rs.1 + es.1);
      r := Ok(DataLoadResult(PeopleOf(people), RelationshipsOf(relationships), EventsOf(events), errors3));
    }

    /**
     * `updatePersonRiskLevel`: in the People table, the RiskLevel cell of the first
     * row whose ID reads as `personId` becomes the level; nothing is written when the
     * ID or RiskLevel column is missing. Throws when the table cannot be reached.
     */
    method UpdatePersonRiskLevel(personId: string, level: RiskLevel) returns (r: Result<()>)
      modifies this`tables, this`writes
      ensures r.Ok? <==> reachable && PeopleTable in old(tables)
      ensures r.Ok? ==> tables == old(tables)[PeopleTable := WithRiskLevel(old(tables)[PeopleTable], personId, level)]
      ensures r.Ok? ==> writes == old(writes) + [RiskWrite(personId, level)]
      ensures r.Err? ==> tables == old(tables) && writes == old(writes)
    {
      if !reachable || PeopleTable !in tables {
        return Err("The requested resource doesn't exist.");
      }
      writes := writes + [RiskWrite(personId, level)];
      var t := RiskLevelWritten(tables[PeopleTable], personId, level);
      tables := tables[PeopleTable := t];
      r := Ok(());
    }

    /**
     * `writeEventFields`: in the Events table, the supplied fields are written into
     * the first row whose ID reads as `eventId`, each only where its column exists.
     * Throws when the table cannot be reached.
     */
    method WriteEventFields(eventId: string, fields: EventFields) returns (r: Result<()>)
      modifies this`tables, this`writes
      ensures r.Ok? <==> reachable && EventsTable in old(tables)
      ensures r.Ok? ==> tables == old(tables)[EventsTable := WithEventFields(old(tables)[EventsTable], eventId, fields)]
      ensures r.Ok? ==> writes == old(writes) + [EventWrite(eventId, fields)]
      ensures r.Err? ==> tables == old(tables) && writes == old(writes)
    {
      if !reachable || EventsTable !in tables {
        return Err("The requested resource doesn't exist.");
      }
      var t := tables[EventsTable];
      var headers := HeaderNames(t);
      var idCol := IndexOf(headers, "ID");
      writes := writes + [EventWrite(eventId, fields)];
      if idCol == -1 {
        return Ok(());
      }
      var body := t.body;
      var i := 0;
      while i < |body|
        invariant 0 <= i <= |body|
        invariant body == t.body
        invariant forall k :: 0 <= k < i ==> ToText(CellAt(t.body[k], idCol)) != eventId
      {
        if ToText(CellAt(body[i], idCol)) == eventId {
          var row := EditEventRow(body[i], headers, fields);
          body := body[i := row];
          break;
        }
        i := i + 1;
      }
      assert i == FirstMatch(t.body, idCol, eventId);
      tables := tables[EventsTable := t.(body := body)];
      r := Ok(());
    }
  }

  /** The cell writes for one matched event row: each supplied field whose column exists. */
  method EditEventRow(row: seq<Cell>, headers: seq<string>, fields: EventFields) returns (edited: seq<Cell>)
    ensures edited == WithEventCells(row, headers, fields)
  {
    edited := row;
    if fields.Type.Some? {
      var col := IndexOf(headers, "Type");
      if col != -1 { edited := SetCell(edited, col, Text(fields.Type.value)); }
    }
    if fields.Impact.Some? {
      var col := IndexOf(headers, "Impact");
      if col != -1 { edited := SetCell(edited, col, Text(fields.Impact.value)); }
    }
    if fields.Severity.Some? {
      var col := IndexOf(headers, "Severity");
      if col != -1 { edited := SetCell(edited, col, Num(fields.Severity.value)); }
    }
  }
}
