// A CSV row as the loaders see it: a map from header name to cell text.
// Number and date parsing follow Integer.parseInt, Double.parseDouble and
// SimpleDateFormat("yyyy-MM-dd HH:mm:ss"); the last two are supplied by the
// caller as partial functions.
module Csv {
  import opened Wrappers
  import opened Records
  import Text

  type CsvRow = map<string, string>

  /** Double.parseDouble and the date format's parse (to epoch milliseconds); None means an exception. */
  datatype Parsers = Parsers(parseDouble: string -> Option<real>, parseDate: string -> Option<int>)

  /**
   * How a column is read: as text, an int, a double or a date; KIntOrZero reads
   * an empty or `\N` cell as 0 and KDateOrNull reads it as null.
   */
  datatype Kind = KText | KInt | KDouble | KDate | KIntOrZero | KDateOrNull

  /** An empty cell or the MySQL null marker `\N`. */
  predicate IsNull(s: string) { s == "" || s == "\\N" }

  /** CSVRecord.get: the cell, or an IllegalArgumentException when the header lacks the column. */
  function Cell(row: CsvRow, name: string): (r: Option<string>)
    ensures r.Some? <==> name in row
    ensures r.Some? ==> r.value == row[name]
  {
    if name in row then Some(row[name]) else None
  }

  function GetInt(row: CsvRow, name: string): (r: Option<int>)
    ensures r.Some? <==> name in row && Text.ParseInt(row[name]).Some?
    ensures r.Some? ==> r == Text.ParseInt(row[name])
  {
    if name in row then Text.ParseInt(row[name]) else None
  }

  function GetDouble(row: CsvRow, name: string, p: Parsers): (r: Option<real>)
    ensures r.Some? <==> name in row && p.parseDouble(row[name]).Some?
  {
    if name in row then p.parseDouble(row[name]) else None
  }

  function GetDate(row: CsvRow, name: string, p: Parsers): (r: Option<int>)
    ensures r.Some? <==> name in row && p.parseDate(row[name]).Some?
  {
    if name in row then p.parseDate(row[name]) else None
  }

  /** Whether the cell named `name` can be read as `kind`. */
  predicate Readable(row: CsvRow, name: string, kind: Kind, p: Parsers)
  {
    name in row &&
    match kind
    case KText => true
    case KInt => Text.ParseInt(row[name]).Some?
    case KDouble => p.parseDouble(row[name]).Some?
    case KDate => p.parseDate(row[name]).Some?
    case KIntOrZero => IsNull(row[name]) || Text.ParseInt(row[name]).Some?
    case KDateOrNull => IsNull(row[name]) || p.parseDate(row[name]).Some?
  }

  /** Every listed column is present and readable. */
  predicate AllReadable(row: CsvRow, cols: seq<(string, Kind)>, p: Parsers)
  {
    forall c :: c in cols ==> Readable(row, c.0, c.1, p)
  }

  /** A cell read as `kind`, as a record field. */
  function ReadCell(row: CsvRow, name: string, kind: Kind, p: Parsers): (r: Option<Field>)
    ensures r.Some? <==> Readable(row, name, kind, p)
    ensures r.Some? ==> match kind
                        case KText => r.value == FText(row[name])
                        case KInt => r.value == FInt(Text.ParseInt(row[name]).value)
                        case KDouble => r.value == FDouble(p.parseDouble(row[name]).value)
                        case KDate => r.value == FDate(p.parseDate(row[name]).value)
                        case KIntOrZero =>
                          r.value == FInt(if IsNull(row[name]) then 0 else Text.ParseInt(row[name]).value)
                        case KDateOrNull =>
                          r.value == if IsNull(row[name]) then FNull else FDate(p.parseDate(row[name]).value)
  {
    if name !in row then None
    else
      var cell := row[name];
      match kind
      case KText => Some(FText(cell))
      case KInt => (var v :- Text.ParseInt(cell); Some(FInt(v)))
      case KDouble => (var v :- p.parseDouble(cell); Some(FDouble(v)))
      case KDate => (var v :- p.parseDate(cell); Some(FDate(v)))
      case KIntOrZero => if IsNull(cell) then Some(FInt(0)) else (var v :- Text.ParseInt(cell); Some(FInt(v)))
      case KDateOrNull => if IsNull(cell) then Some(FNull) else (var v :- p.parseDate(cell); Some(FDate(v)))
  }

  /** The listed cells read in order; the row fails to load as soon as one of them cannot be read. */
  function ReadCells(row: CsvRow, cols: seq<(string, Kind)>, p: Parsers): (r: Option<seq<Field>>)
    ensures r.Some? <==> AllReadable(row, cols, p)
    ensures r.Some? ==> |r.value| == |cols|
    ensures r.Some? ==> forall i :: 0 <= i < |cols| ==> Some(r.value[i]) == ReadCell(row, cols[i].0, cols[i].1, p)
    decreases |cols|
  {
    if |cols| == 0 then Some([])
    else
      assert forall c :: c in cols <==> c == cols[0] || c in cols[1..];
      var f :- ReadCell(row, cols[0].0, cols[0].1, p);
      var rest :- ReadCells(row, cols[1..], p);
      Some([f] + rest)
  }

  /** The cell read for a text column of a readable row is that column's text. */
  lemma ReadText(row: CsvRow, cols: seq<(string, Kind)>, p: Parsers, i: int)
    requires ReadCells(row, cols, p).Some? && 0 <= i < |cols| && cols[i].1 == KText
    ensures cols[i].0 in row && ReadCells(row, cols, p).value[i] == FText(row[cols[i].0])
  {
    assert Some(ReadCells(row, cols, p).value[i]) == ReadCell(row, cols[i].0, cols[i].1, p);
  }

  /** The cell read for an int column of a readable row is that column parsed by Integer.parseInt. */
  lemma ReadInt(row: CsvRow, cols: seq<(string, Kind)>, p: Parsers, i: int)
    requires ReadCells(row, cols, p).Some? && 0 <= i < |cols| && cols[i].1 == KInt
    ensures GetInt(row, cols[i].0).Some? && ReadCells(row, cols, p).value[i] == FInt(GetInt(row, cols[i].0).value)
  {
    assert Some(ReadCells(row, cols, p).value[i]) == ReadCell(row, cols[i].0, cols[i].1, p);
  }

  /** The cell read for a nullable date column: null for an empty or `\N` cell, the parsed date otherwise. */
  lemma ReadDateOrNull(row: CsvRow, cols: seq<(string, Kind)>, p: Parsers, i: int)
    requires ReadCells(row, cols, p).Some? && 0 <= i < |cols| && cols[i].1 == KDateOrNull
    ensures cols[i].0 in row && (!IsNull(row[cols[i].0]) ==> p.parseDate(row[cols[i].0]).Some?)
    ensures ReadCells(row, cols, p).value[i] ==
              if IsNull(row[cols[i].0]) then FNull else FDate(p.parseDate(row[cols[i].0]).value)
  {
    assert Some(ReadCells(row, cols, p).value[i]) == ReadCell(row, cols[i].0, cols[i].1, p);
  }
}
