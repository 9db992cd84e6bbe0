/**
 * Spreadsheet cells as the loaders hand them over, and the JavaScript coercions
 * the row parser applies to them: `String(v)`, `v != null ? String(v) : ""` and
 * `Number(v) || 0`.
 */
module Cells {
  import opened Wrappers
  import JsText

  /** One cell: empty (`null` or `undefined`, including a hole past the end of a short row), text, a number or a boolean. */
  datatype Cell = Null | Text(text: string) | Num(num: int) | Bool(flag: bool)

  /** A coerced field value of a parsed row: a string, or a number for the numeric columns. */
  datatype Value = Str(s: string) | Number(n: int)

  /** The cell in column `j`, or the empty cell when the row is shorter. */
  function CellAt(row: seq<Cell>, j: nat): (c: Cell)
    ensures j >= |row| ==> c == Null
    ensures j < |row| ==> c == row[j]
  {
    if j < |row| then row[j] else Null
  }

  /** `String(v)`; the empty cell reads as `undefined`. */
  function ToText(c: Cell): (s: string)
    ensures c.Text? ==> s == c.text
    ensures !c.Text? ==> s != ""
  {
    match c
    case Null => "undefined"
    case Text(t) => t
    case Num(n) => JsText.IntToString(n)
    case Bool(b) => if b then "true" else "false"
  }

  /** `v != null ? String(v) : ""`: the text of a cell, with the empty cell read as "". */
  function TextOrEmpty(c: Cell): (s: string)
    ensures c.Null? ==> s == ""
    ensures !c.Null? ==> s == ToText(c)
    ensures s == "" ==> c == Null || c == Text("")
  {
    if c.Null? then "" else ToText(c)
  }

  /**
   * `Number(v) || 0` for integers: the numeric value of the cell, where an empty
   * cell, text that is not a number (NaN) and zero all give 0.
   */
  function NumberOrZero(c: Cell): (n: int)
    ensures c.Null? ==> n == 0
    ensures c.Num? ==> n == c.num
    ensures c == Bool(true) ==> n == 1
    ensures c == Bool(false) ==> n == 0
  {
    match c
    case Null => 0
    case Text(t) => JsText.ParseNumber(t).GetOr(0)
    case Num(v) => v
    case Bool(b) => if b then 1 else 0
  }

  /** Text holding the decimal form of a number reads back as that number. */
  lemma NumberOrZeroOfNumeral(n: int)
    ensures NumberOrZero(Text(JsText.IntToString(n))) == n
  {
    JsText.ParseNumberIntToString(n);
  }

  /**
   * What `Number(v) || 0` reads: the text of a number cell reads back as that number,
   * text of digits (white space around them aside) as their value, and text that
   * is not a number as 0.
   */
  lemma CellReadsBack(c: Cell)
    ensures c.Num? ==> JsText.ParseNumber(ToText(c)) == Some(c.num) && NumberOrZero(Text(ToText(c))) == c.num
    ensures c.Text? && JsText.AllDigits(JsText.Trim(c.text)) ==> NumberOrZero(c) == JsText.DigitsValue(JsText.Trim(c.text))
    ensures c.Text? && JsText.ParseNumber(c.text).None? ==> NumberOrZero(c) == 0
  {
    if c.Num? {
      JsText.ParseNumberIntToString(c.num);
    } else if c.Text? {
      JsText.ParseNumberOfDigits(c.text);
    }
  }

  /** A cell that is empty or the empty string: the blank cells of a spreadsheet row. */
  predicate IsBlank(c: Cell) {
    c.Null? || c == Text("")
  }
}
