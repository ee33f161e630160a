// The warehouse table: one row per warehouse, keyed by w_id.
module Warehouse {
  import opened Wrappers
  import opened Store
  import opened Records
  import opened Csv
  import TpccUtil
  import Text

  const TABLE_NAME: string := "warehouse"
  const COLUMN_PREFIX: string := "w_"
  const KEY_ID: string := "w_id"
  const KEY_NAME: string := "w_name"
  const KEY_ADDRESS: string := "w_address"
  const KEY_STREET_1: string := "w_street_1"
  const KEY_STREET_2: string := "w_street_2"
  const KEY_CITY: string := "w_city"
  const KEY_STATE: string := "w_state"
  const KEY_ZIP: string := "w_zip"
  const KEY_TAX: string := "w_tax"
  const KEY_YTD: string := "w_ytd"

  const MIN_NAME: int := 6
  const MAX_NAME: int := 10

  /** createPartitionKey(warehouseId): the single column w_id. */
  function PartitionKey(warehouseId: int): seq<Column>
  {
    [Column(KEY_ID, IntV(warehouseId))]
  }

  /** The store key createGet(warehouseId) reads. */
  function KeyFor(warehouseId: int): Key
  {
    Key(TABLE_NAME, PartitionKey(warehouseId), [])
  }

  /** The payment record: only the new year-to-date balance. */
  function WithYtd(warehouseId: int, ytd: real): (r: Record)
    ensures WellFormed(r) && KeyOf(r) == KeyFor(warehouseId)
    ensures ValueColumns(r.valueMap) == [Column(KEY_YTD, DoubleV(ytd))]
  {
    Record(TABLE_NAME, [(KEY_ID, FInt(warehouseId))], [], [(KEY_YTD, FDouble(ytd))])
  }

  /**
   * The generated warehouse: a drawn name of 6..10 characters, a generated
   * address with prefix "w_", tax = draw / 10000 for a draw in [0, 2000],
   * and year-to-date balance 300000.00.
   */
  function Generated(warehouseId: int, name: string, address: Address, taxDraw: int): (r: Record)
    requires TpccUtil.IsAlphaString(name, MIN_NAME, MAX_NAME)
    requires ValidGeneratedAddress(address) && address.prefix == COLUMN_PREFIX
    requires 0 <= taxDraw <= 2000
    ensures WellFormed(r) && KeyOf(r) == KeyFor(warehouseId)
    ensures Lookup(r.valueMap, KEY_NAME) == Some(FText(name))
    ensures Lookup(r.valueMap, KEY_ADDRESS) == Some(FAddress(address))
    ensures var tax := Lookup(r.valueMap, KEY_TAX);
            tax.Some? && tax.value.FDouble? && 0.0 <= tax.value.d <= 0.2
    ensures Lookup(r.valueMap, KEY_YTD) == Some(FDouble(300000.0))
  {
    var values := [(KEY_NAME, FText(name)), (KEY_ADDRESS, FAddress(address)),
       (KEY_TAX, FDouble(TpccUtil.RandomDouble(0, 2000, 10000, taxDraw))), (KEY_YTD, FDouble(300000.0))];
    LookupAt(values, 0);
    LookupAt(values, 1);
    LookupAt(values, 2);
    Record(TABLE_NAME, [(KEY_ID, FInt(warehouseId))], [], values)
  }

  /** The columns the CSV constructor reads; w_ytd is not among them. */
  const CSV_COLUMNS: seq<(string, Kind)> :=
    [(KEY_ID, KInt), (KEY_NAME, KText), (KEY_STREET_1, KText), (KEY_STREET_2, KText),
     (KEY_CITY, KText), (KEY_STATE, KText), (KEY_ZIP, KText), (KEY_TAX, KDouble)]

  /** The CSV constructor.  It fails when a column is missing or malformed. */
  function FromCsv(row: CsvRow, p: Parsers): (r: Option<Record>)
    ensures r.Some? <==> AllReadable(row, CSV_COLUMNS, p)
  {
    var f :- ReadCells(row, CSV_COLUMNS, p);
    var values := [(KEY_NAME, f[1]),
      (KEY_ADDRESS, FAddress(Address(COLUMN_PREFIX, FieldText(f[2]), FieldText(f[3]), FieldText(f[4]), FieldText(f[5]), FieldText(f[6])))),
      (KEY_TAX, f[7]), (KEY_YTD, f[7])];
    Some(Record(TABLE_NAME, [(KEY_ID, f[0])], [], values))
  }

  /** The CSV constructor fills w_ytd from the w_tax cell, so the two fields are always equal. */
  lemma FromCsvYtdIsTax(row: CsvRow, p: Parsers)
    requires FromCsv(row, p).Some?
    ensures var m := FromCsv(row, p).value.valueMap;
            Lookup(m, KEY_YTD) == Lookup(m, KEY_TAX) != None
  {
    var m := FromCsv(row, p).value.valueMap;
    LookupAt(m, 2);
    LookupAt(m, 3);
  }

  /** A loaded warehouse is keyed by its w_id cell read as an int. */
  lemma FromCsvKey(row: CsvRow, p: Parsers)
    requires FromCsv(row, p).Some?
    ensures GetInt(row, KEY_ID).Some?
    ensures var r := FromCsv(row, p).value;
            WellFormed(r) && KeyOf(r) == KeyFor(GetInt(row, KEY_ID).value)
  {
    var f := ReadCells(row, CSV_COLUMNS, p).value;
    assert Some(f[0]) == ReadCell(row, KEY_ID, KInt, p);
    var r := FromCsv(row, p).value;
    assert r.partitionKeyMap == [(KEY_ID, FInt(GetInt(row, KEY_ID).value))];
    ScalarKey1(KEY_ID, FInt(GetInt(row, KEY_ID).value));
  }
}
