// The district table: ten per warehouse, keyed by (d_w_id, d_id); it holds
// the next order number handed out by new-order.
module District {
  import opened Wrappers
  import opened Store
  import opened Records
  import opened Csv
  import TpccUtil

  const TABLE_NAME: string := "district"
  const COLUMN_PREFIX: string := "d_"
  const KEY_WAREHOUSE_ID: string := "d_w_id"
  const KEY_ID: string := "d_id"
  const KEY_NAME: string := "d_name"
  const KEY_ADDRESS: string := "d_address"
  const KEY_STREET_1: string := "d_street_1"
  const KEY_STREET_2: string := "d_street_2"
  const KEY_CITY: string := "d_city"
  const KEY_STATE: string := "d_state"
  const KEY_ZIP: string := "d_zip"
  const KEY_TAX: string := "d_tax"
  const KEY_YTD: string := "d_ytd"
  const KEY_NEXT_O_ID: string := "d_next_o_id"

  const CUSTOMERS: int := 3000
  const ORDERS: int := 3000
  const MIN_NAME: int := 6
  const MAX_NAME: int := 10

  /** createPartitionKey(warehouseId, districtId): d_w_id then d_id. */
  function PartitionKey(warehouseId: int, districtId: int): seq<Column>
  {
    [Column(KEY_WAREHOUSE_ID, IntV(warehouseId)), Column(KEY_ID, IntV(districtId))]
  }

  /** The store key createGet(warehouseId, districtId) reads. */
  function KeyFor(warehouseId: int, districtId: int): Key
  {
    Key(TABLE_NAME, PartitionKey(warehouseId, districtId), [])
  }

  /**
   * The generated district: a drawn name of 6..10 characters, a generated
   * address with prefix "d_", tax = draw / 10000 for a draw in [0, 2000],
   * year-to-date balance 30000.00 and next order number 3001.
   */
  function Generated(warehouseId: int, districtId: int, name: string, address: Address, taxDraw: int): (r: Record)
    requires TpccUtil.IsAlphaString(name, MIN_NAME, MAX_NAME)
    requires ValidGeneratedAddress(address) && address.prefix == COLUMN_PREFIX
    requires 0 <= taxDraw <= 2000
    ensures WellFormed(r) && KeyOf(r) == KeyFor(warehouseId, districtId)
    ensures Lookup(r.valueMap, KEY_NAME) == Some(FText(name))
    ensures Lookup(r.valueMap, KEY_ADDRESS) == Some(FAddress(address))
    ensures var tax := Lookup(r.valueMap, KEY_TAX);
            tax.Some? && tax.value.FDouble? && 0.0 <= tax.value.d <= 0.2
    ensures Lookup(r.valueMap, KEY_YTD) == Some(FDouble(30000.0))
    ensures Lookup(r.valueMap, KEY_NEXT_O_ID) == Some(FInt(3001))
  {
    var values := [(KEY_NAME, FText(name)), (KEY_ADDRESS, FAddress(address)),
      (KEY_TAX, FDouble(TpccUtil.RandomDouble(0, 2000, 10000, taxDraw))), (KEY_YTD, FDouble(30000.0)),
      (KEY_NEXT_O_ID, FInt(3001))];
    LookupAt(values, 0);
    LookupAt(values, 1);
    LookupAt(values, 2);
    LookupAt(values, 3);
    var key := [(KEY_WAREHOUSE_ID, FInt(warehouseId)), (KEY_ID, FInt(districtId))];
    ScalarKey2(KEY_WAREHOUSE_ID, FInt(warehouseId), KEY_ID, FInt(districtId));
    Record(TABLE_NAME, key, [], values)
  }

  const CSV_COLUMNS: seq<(string, Kind)> :=
    [(KEY_WAREHOUSE_ID, KInt), (KEY_ID, KInt), (KEY_NAME, KText), (KEY_STREET_1, KText),
     (KEY_STREET_2, KText), (KEY_CITY, KText), (KEY_STATE, KText), (KEY_ZIP, KText),
     (KEY_TAX, KDouble), (KEY_YTD, KDouble), (KEY_NEXT_O_ID, KInt)]

  /** The CSV constructor: ids and next order number as ints, tax and ytd as doubles from their own cells. */
  function FromCsv(row: CsvRow, p: Parsers): (r: Option<Record>)
    ensures r.Some? <==> AllReadable(row, CSV_COLUMNS, p)
  {
    var f :- ReadCells(row, CSV_COLUMNS, p);
    var values := [(KEY_NAME, f[2]), (KEY_ADDRESS, FAddress(Address(COLUMN_PREFIX, FieldText(f[3]), FieldText(f[4]), FieldText(f[5]), FieldText(f[6]), FieldText(f[7])))),
       (KEY_TAX, f[8]), (KEY_YTD, f[9]), (KEY_NEXT_O_ID, f[10])];
    var key := [(KEY_WAREHOUSE_ID, f[0]), (KEY_ID, f[1])];
    Some(Record(TABLE_NAME, key, [], values))
  }

  /** A loaded district is keyed by the two id cells read as ints. */
  lemma FromCsvKey(row: CsvRow, p: Parsers)
    requires FromCsv(row, p).Some?
    ensures GetInt(row, KEY_WAREHOUSE_ID).Some? && GetInt(row, KEY_ID).Some?
    ensures var r := FromCsv(row, p).value;
            WellFormed(r) && KeyOf(r) == KeyFor(GetInt(row, KEY_WAREHOUSE_ID).value, GetInt(row, KEY_ID).value)
  {
    var f := ReadCells(row, CSV_COLUMNS, p).value;
    assert Some(f[0]) == ReadCell(row, KEY_WAREHOUSE_ID, KInt, p);
    assert Some(f[1]) == ReadCell(row, KEY_ID, KInt, p);
    var w, d := GetInt(row, KEY_WAREHOUSE_ID).value, GetInt(row, KEY_ID).value;
    var r := FromCsv(row, p).value;
    assert r.partitionKeyMap == [(KEY_WAREHOUSE_ID, FInt(w)), (KEY_ID, FInt(d))];
    ScalarKey2(KEY_WAREHOUSE_ID, FInt(w), KEY_ID, FInt(d));
  }

  /** A loaded district hands out the next order number its d_next_o_id cell holds. */
  lemma FromCsvNextOrderId(row: CsvRow, p: Parsers)
    requires FromCsv(row, p).Some?
    ensures GetInt(row, KEY_NEXT_O_ID).Some?
    ensures Lookup(FromCsv(row, p).value.valueMap, KEY_NEXT_O_ID) == Some(FInt(GetInt(row, KEY_NEXT_O_ID).value))
  {
    var f := ReadCells(row, CSV_COLUMNS, p).value;
    assert Some(f[10]) == ReadCell(row, KEY_NEXT_O_ID, KInt, p);
    LookupAt(FromCsv(row, p).value.valueMap, 4);
  }
}
