/**
 * The row parser shared by both data services: it zips a header row with each
 * data row, coerces every cell (numbers for Influence, Strength and Severity,
 * text for everything else), keeps the rows that have a non-empty ID and records
 * a "Missing ID" validation error for each row that does not.
 */
module RowParser {
  import opened Cells
  import opened Types

  /** The columns whose cells are coerced with `Number(v) || 0`. */
  predicate IsNumericField(header: string) {
    header == "Influence" || header == "Strength" || header == "Severity"
  }

  /** The coercion of one cell under its column header. */
  function Coerce(header: string, c: Cell): Value {
    if IsNumericField(header) then Number(NumberOrZero(c)) else Str(TextOrEmpty(c))
  }

  /** JavaScript truthiness of a coerced value. */
  predicate Truthy(v: Value) {
    match v
    case Str(s) => s != ""
    case Number(n) => n != 0
  }

  /** A parsed row: field name to coerced value. */
  type Record = map<string, Value>

  /**
   * The record of one row: each header paired with the cell in the same position
   * (an empty cell past the end of a short row); of two columns with one name, the
   * later one wins.
   */
  function RowRecord(headers: seq<string>, row: seq<Cell>): (r: Record)
    ensures forall k :: 0 <= k < |headers| ==> headers[k] in r
  {
    if headers == [] then map[]
    else
      var n := |headers| - 1;
      assert forall k :: 0 <= k < n ==> headers[..n][k] == headers[k];
      RowRecord(headers[..n], row)[headers[n] := Coerce(headers[n], CellAt(row, n))]
  }

  /** The record's keys are exactly the header names. */
  lemma {:induction false} RowRecordKeys(headers: seq<string>, row: seq<Cell>)
    ensures forall h :: h in RowRecord(headers, row) <==> h in headers
  {
    if headers != [] {
      var n := |headers| - 1;
      RowRecordKeys(headers[..n], row);
      assert headers == headers[..n] + [headers[n]];
    }
  }

  /** Whether some "ID" column of the row holds a non-empty value. */
  predicate HasId(headers: seq<string>, row: seq<Cell>) {
    exists j :: 0 <= j < |headers| && headers[j] == "ID" && TextOrEmpty(CellAt(row, j)) != ""
  }

  /** The records of the rows that have an ID, in row order. */
  function ParsedRecords(headers: seq<string>, rows: seq<seq<Cell>>): seq<Record> {
    if rows == [] then []
    else
      var n := |rows| - 1;
      ParsedRecords(headers, rows[..n]) + (if HasId(headers, rows[n]) then [RowRecord(headers, rows[n])] else [])
  }

  /** The error recorded for the data row at 0-based position `i`. */
  function MissingIdError(table: string, i: nat): ValidationError {
    ValidationError(table, i + 1, "ID", "Missing ID")
  }

  /** One "Missing ID" error for each row without an ID, in row order. */
  function MissingIdErrors(headers: seq<string>, rows: seq<seq<Cell>>, table: string): seq<ValidationError> {
    if rows == [] then []
    else
      var n := |rows| - 1;
      MissingIdErrors(headers, rows[..n], table) + (if HasId(headers, rows[n]) then [] else [MissingIdError(table, n)])
  }

  /**
   * `parseRows`: the kept records in row order, and the caller's error list with
   * one "Missing ID" error appended for each rejected row.
   */
  method ParseRows(headers: seq<string>, rows: seq<seq<Cell>>, tableName: string, errors: seq<ValidationError>)
    returns (items: seq<Record>, errorsOut: seq<ValidationError>)
    ensures items == ParsedRecords(headers, rows)
    ensures errorsOut == errors + MissingIdErrors(headers, rows, tableName)
  {
    items, errorsOut := [], errors;
    for i := 0 to |rows|
      invariant items == ParsedRecords(headers, rows[..i])
      invariant errorsOut == errors + MissingIdErrors(headers, rows[..i], tableName)
    {
      items, errorsOut := ParseRow(headers, rows, i, tableName, errors, items, errorsOut);
    }
    assert rows[..|rows|] == rows;
  }

  /** One pass of the row loop: the row's record is kept when it has an ID, otherwise a "Missing ID" error is added. */
  method ParseRow(headers: seq<string>, rows: seq<seq<Cell>>, i: nat, tableName: string, errors: seq<ValidationError>,
                  items: seq<Record>, errorsOut: seq<ValidationError>)
    returns (items': seq<Record>, errorsOut': seq<ValidationError>)
    requires i < |rows|
    requires items == ParsedRecords(headers, rows[..i])
    requires errorsOut == errors + MissingIdErrors(headers, rows[..i], tableName)
    ensures items' == ParsedRecords(headers, rows[..i + 1])
    ensures errorsOut' == errors + MissingIdErrors(headers, rows[..i + 1], tableName)
  {
    var obj, hasId := BuildRecord(headers, rows[i]);
    ParsedStep(headers, rows, i, tableName);
    items', errorsOut' := items, errorsOut;
    if !hasId {
      errorsOut' := errorsOut' + [MissingIdError(tableName, i)];
      return;
    }
    items' := items' + [obj];
  }

  /** One more row: kept when it has an ID, otherwise one more "Missing ID" error. */
  lemma ParsedStep(headers: seq<string>, rows: seq<seq<Cell>>, i: nat, table: string)
    requires i < |rows|
    ensures ParsedRecords(headers, rows[..i + 1]) ==
      ParsedRecords(headers, rows[..i]) + (if HasId(headers, rows[i]) then [RowRecord(headers, rows[i])] else [])
    ensures MissingIdErrors(headers, rows[..i + 1], table) ==
      MissingIdErrors(headers, rows[..i], table) + (if HasId(headers, rows[i]) then [] else [MissingIdError(table, i)])
  {
    assert rows[..i + 1][..i] == rows[..i];
  }

  /** The inner loop of `parseRows`: the row's record, and whether an "ID" column holds a truthy value. */
  method BuildRecord(headers: seq<string>, row: seq<Cell>) returns (obj: Record, hasId: bool)
    ensures obj == RowRecord(headers, row)
    ensures hasId == HasId(headers, row)
  {
    obj, hasId := map[], false;
    for j := 0 to |headers|
      invariant obj == RowRecord(headers[..j], row)
      invariant hasId == HasId(headers[..j], row)
    {
      obj, hasId := AddColumn(headers, row, j, obj, hasId);
    }
    assert headers[..|headers|] == headers;
  }

  /** One pass of the column loop: `obj[header] = value`, and the ID test on that value. */
  method AddColumn(headers: seq<string>, row: seq<Cell>, j: nat, obj: Record, hasId: bool) returns (obj': Record, hasId': bool)
    requires j < |headers|
    requires obj == RowRecord(headers[..j], row) && hasId == HasId(headers[..j], row)
    ensures obj' == RowRecord(headers[..j + 1], row) && hasId' == HasId(headers[..j + 1], row)
  {
    var header := headers[j];
    var value := Coerce(header, CellAt(row, j));
    ColumnStep(headers, row, j);
    obj', hasId' := obj[header := value], hasId;
    if header == "ID" && Truthy(value) {
      hasId' := true;
    }
  }

  /** One more column: the record takes its field, and the ID test looks at it too. */
  lemma {:induction false} ColumnStep(headers: seq<string>, row: seq<Cell>, j: nat)
    requires j < |headers|
    ensures RowRecord(headers[..j + 1], row) == RowRecord(headers[..j], row)[headers[j] := Coerce(headers[j], CellAt(row, j))]
    ensures HasId(headers[..j + 1], row) <==>
      HasId(headers[..j], row) || (headers[j] == "ID" && Truthy(Coerce(headers[j], CellAt(row, j))))
  {
    var next := headers[..j + 1];
    assert next[..j] == headers[..j];
    assert HasId(next, row) <==> HasId(headers[..j], row) || (headers[j] == "ID" && TextOrEmpty(CellAt(row, j)) != "") by {
      HasIdStep(headers[..j], next, row);
    }
  }

  /** `next` extends `prefix` by one header, so it has an ID when `prefix` has or the new column gives one. */
  lemma {:induction false} HasIdStep(prefix: seq<string>, next: seq<string>, row: seq<Cell>)
    requires |next| == |prefix| + 1 && next[..|prefix|] == prefix
    ensures HasId(next, row) <==> HasId(prefix, row) || (next[|prefix|] == "ID" && TextOrEmpty(CellAt(row, |prefix|)) != "")
  {
    if HasId(next, row) {
      HasIdSplits(prefix, next, row);
    }
    if HasId(prefix, row) {
      HasIdKept(prefix, next, row);
    }
  }

  /** An ID column of `next` is an ID column of `prefix` or the new one. */
  lemma {:induction false} HasIdSplits(prefix: seq<string>, next: seq<string>, row: seq<Cell>)
    requires |next| == |prefix| + 1 && next[..|prefix|] == prefix
    requires HasId(next, row)
    ensures HasId(prefix, row) || (next[|prefix|] == "ID" && TextOrEmpty(CellAt(row, |prefix|)) != "")
  {
    var k :| 0 <= k < |next| && next[k] == "ID" && TextOrEmpty(CellAt(row, k)) != "";
    if k < |prefix| {
      assert prefix[k] == next[k];
      assert HasId(prefix, row);
    } else {
      assert k == |prefix|;
    }
  }

  /** An ID column of `prefix` stays one in `next`. */
  lemma {:induction false} HasIdKept(prefix: seq<string>, next: seq<string>, row: seq<Cell>)
    requires |next| == |prefix| + 1 && next[..|prefix|] == prefix
    requires HasId(prefix, row)
    ensures HasId(next, row)
  {
    var k :| 0 <= k < |prefix| && prefix[k] == "ID" && TextOrEmpty(CellAt(row, k)) != "";
    assert next[k] == prefix[k];
  }

  // ---- What parsing promises ------------------------------------------------------

  /** Every row is accounted for: kept records plus "Missing ID" errors make up the row count. */
  lemma {:induction false} ParseRowsAccounting(headers: seq<string>, rows: seq<seq<Cell>>, table: string)
    ensures |ParsedRecords(headers, rows)| + |MissingIdErrors(headers, rows, table)| == |rows|
  {
    if rows != [] {
      ParseRowsAccounting(headers, rows[..|rows| - 1], table);
    }
  }

  /**
   * The errors are exactly one `{table, row: i + 1, field: "ID", message: "Missing ID"}`
   * for each row `i` without an ID, and nothing else.
   */
  lemma {:induction false} MissingIdErrorsExact(headers: seq<string>, rows: seq<seq<Cell>>, table: string)
    ensures forall i :: 0 <= i < |rows| ==> (MissingIdError(table, i) in MissingIdErrors(headers, rows, table) <==> !HasId(headers, rows[i]))
    ensures forall e :: e in MissingIdErrors(headers, rows, table) ==>
      1 <= e.row <= |rows| && e == MissingIdError(table, e.row - 1) && !HasId(headers, rows[e.row - 1])
  {
    if rows != [] {
      var n := |rows| - 1;
      MissingIdErrorsExact(headers, rows[..n], table);
      forall i | 0 <= i < n ensures rows[..n][i] == rows[i] { }
    }
  }

  /** Parsing respects concatenation, so the kept records stay in input row order. */
  lemma {:induction false} ParsedRecordsAppend(headers: seq<string>, a: seq<seq<Cell>>, b: seq<seq<Cell>>)
    ensures ParsedRecords(headers, a + b) == ParsedRecords(headers, a) + ParsedRecords(headers, b)
  {
    if b != [] {
      var n := |b| - 1;
      ParsedRecordsAppend(headers, a, b[..n]);
      assert (a + b)[..|a + b| - 1] == a + b[..n];
      assert (a + b)[|a + b| - 1] == b[n];
    } else {
      assert a + b == a;
    }
  }

  /** Without an "ID" column every row is rejected, each with its own error. */
  lemma {:induction false} NoIdColumnRejectsAll(headers: seq<string>, rows: seq<seq<Cell>>, table: string)
    requires "ID" !in headers
    ensures ParsedRecords(headers, rows) == []
    ensures MissingIdErrors(headers, rows, table) == seq(|rows|, i requires 0 <= i < |rows| => MissingIdError(table, i))
  {
    if rows != [] {
      var n := |rows| - 1;
      NoIdColumnRejectsAll(headers, rows[..n], table);
      assert forall j :: 0 <= j < |headers| ==> headers[j] != "ID" by {
        forall j | 0 <= j < |headers| ensures headers[j] != "ID" {
          assert headers[j] in headers;
        }
      }
      assert !HasId(headers, rows[n]);
    }
  }

  /** A field of the record comes from the last column carrying its name. */
  lemma {:induction false} RowRecordLastColumn(headers: seq<string>, row: seq<Cell>, j: nat)
    requires j < |headers|
    requires forall k :: j < k < |headers| ==> headers[k] != headers[j]
    ensures RowRecord(headers, row)[headers[j]] == Coerce(headers[j], CellAt(row, j))
  {
    var n := |headers| - 1;
    if j < n {
      var prefix := headers[..n];
      EarlierColumnKept(headers, j);
      RowRecordLastColumn(prefix, row, j);
      LaterColumnKeepsField(headers, row, j, RowRecord(prefix, row)[prefix[j]]);
    } else {
      NewestColumnField(headers, row);
    }
  }

  /** Column `j` is still the last of its name once the final column is cut off. */
  lemma {:induction false} EarlierColumnKept(headers: seq<string>, j: nat)
    requires j < |headers| - 1
    requires forall k :: j < k < |headers| ==> headers[k] != headers[j]
    ensures var prefix := headers[..|headers| - 1];
      prefix[j] == headers[j] && forall k :: j < k < |prefix| ==> prefix[k] != prefix[j]
  {
    var prefix := headers[..|headers| - 1];
    forall k | j < k < |prefix| ensures prefix[k] != prefix[j] {
      assert prefix[k] == headers[k];
    }
  }

  /** The last column's field holds that column's cell. */
  lemma {:induction false} NewestColumnField(headers: seq<string>, row: seq<Cell>)
    requires |headers| > 0
    ensures var n := |headers| - 1; RowRecord(headers, row)[headers[n]] == Coerce(headers[n], CellAt(row, n))
  {
  }

  /** The last column does not touch the field of an earlier column of another name. */
  lemma {:induction false} LaterColumnKeepsField(headers: seq<string>, row: seq<Cell>, j: nat, v: Value)
    requires j < |headers| - 1 && headers[j] != headers[|headers| - 1]
    requires var prefix := headers[..|headers| - 1]; prefix[j] in RowRecord(prefix, row) && RowRecord(prefix, row)[prefix[j]] == v
    ensures RowRecord(headers, row)[headers[j]] == v
  {
    assert headers[..|headers| - 1][j] == headers[j];
  }

  /**
   * The coercions seen in the record: a numeric column holds `Number(v) || 0` (so
   * an empty cell, non-numeric text and zero give 0); any other column holds the
   * cell's text, and "" for an empty cell or one past the end of a short row.
   */
  lemma RecordFieldCoercion(headers: seq<string>, row: seq<Cell>, j: nat)
    requires j < |headers|
    requires forall k :: j < k < |headers| ==> headers[k] != headers[j]
    ensures var v := RowRecord(headers, row)[headers[j]];
      && (IsNumericField(headers[j]) ==> v == Number(NumberOrZero(CellAt(row, j))))
      && (IsNumericField(headers[j]) && (j >= |row| || row[j].Null? || row[j] == Num(0)) ==> v == Number(0))
      && (IsNumericField(headers[j]) && j < |row| && row[j].Text? && JsText.ParseNumber(row[j].text).None? ==> v == Number(0))
      && (!IsNumericField(headers[j]) && (j >= |row| || row[j].Null?) ==> v == Str(""))
      && (!IsNumericField(headers[j]) && j < |row| && !row[j].Null? ==> v == Str(ToText(row[j])))
  {
    RowRecordLastColumn(headers, row, j);
  }

  /** With a single "ID" column, a row is kept exactly when its coerced ID is non-empty. */
  lemma HasIdIffIdNonEmpty(headers: seq<string>, row: seq<Cell>, j: nat)
    requires j < |headers| && headers[j] == "ID"
    requires forall k :: 0 <= k < |headers| && k != j ==> headers[k] != "ID"
    ensures HasId(headers, row) <==> RowRecord(headers, row)["ID"] != Str("")
  {
    RowRecordLastColumn(headers, row, j);
  }

  // ---- Typed views of a record ------------------------------------------------------

  /** A text field of a record; a field without a column reads as "". */
  function TextField(r: Record, key: string): string {
    if key in r && r[key].Str? then r[key].s else ""
  }

  /** A numeric field of a record; a field without a column reads as 0. */
  function NumberField(r: Record, key: string): int {
    if key in r && r[key].Number? then r[key].n else 0
  }

  function PersonOf(r: Record): Person {
    Person(TextField(r, "ID"), TextField(r, "Name"), TextField(r, "Title"), TextField(r, "Department"),
      NumberField(r, "Influence"), TextField(r, "RiskLevel"), TextField(r, "Notes"))
  }

  function RelationshipOf(r: Record): Relationship {
    Relationship(TextField(r, "ID"), TextField(r, "PersonA_ID"), TextField(r, "PersonB_ID"), TextField(r, "Type"),
      NumberField(r, "Strength"), TextField(r, "Sentiment"), TextField(r, "Direction"), TextField(r, "Notes"))
  }

  function EventOf(r: Record): RelationshipEvent {
    RelationshipEvent(TextField(r, "ID"), TextField(r, "Date"), TextField(r, "People_IDs"), TextField(r, "Type"),
      TextField(r, "Description"), TextField(r, "Impact"), NumberField(r, "Severity"))
  }

  function PeopleOf(rs: seq<Record>): seq<Person> {
    seq(|rs|, i requires 0 <= i < |rs| => PersonOf(rs[i]))
  }

  function RelationshipsOf(rs: seq<Record>): seq<Relationship> {
    seq(|rs|, i requires 0 <= i < |rs| => RelationshipOf(rs[i]))
  }

  function EventsOf(rs: seq<Record>): seq<RelationshipEvent> {
    seq(|rs|, i requires 0 <= i < |rs| => EventOf(rs[i]))
  }
}
