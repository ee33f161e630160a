// The customer_secondary table: an index from (warehouse, district, last name)
// to the customers bearing it, clustered by (first name, customer id).
module CustomerSecondary {
  import opened Wrappers
  import opened Store
  import opened Records
  import opened Csv

  const TABLE_NAME: string := "customer_secondary"
  const KEY_WAREHOUSE_ID: string := "c_w_id"
  const KEY_DISTRICT_ID: string := "c_d_id"
  const KEY_LAST: string := "c_last"
  const KEY_FIRST: string := "c_first"
  const KEY_CUSTOMER_ID: string := "c_id"

  function PartitionKey(warehouseId: int, districtId: int, last: string): seq<Column>
  {
    [Column(KEY_WAREHOUSE_ID, IntV(warehouseId)), Column(KEY_DISTRICT_ID, IntV(districtId)),
     Column(KEY_LAST, TextV(last))]
  }

  function ClusteringKey(first: string, customerId: int): seq<Column>
  {
    [Column(KEY_FIRST, TextV(first)), Column(KEY_CUSTOMER_ID, IntV(customerId))]
  }

  function KeyFor(warehouseId: int, districtId: int, last: string, first: string, customerId: int): Key
  {
    Key(TABLE_NAME, PartitionKey(warehouseId, districtId, last), ClusteringKey(first, customerId))
  }

  /** The index record: keys only, inserted without value columns. */
  function Make(warehouseId: int, districtId: int, last: string, first: string, customerId: int): (r: Record)
    ensures WellFormed(r) && KeyOf(r) == KeyFor(warehouseId, districtId, last, first, customerId)
    ensures ValueColumns(r.valueMap) == []
  {
    var pk := [(KEY_WAREHOUSE_ID, FInt(warehouseId)), (KEY_DISTRICT_ID, FInt(districtId)), (KEY_LAST, FText(last))];
    var ck := [(KEY_FIRST, FText(first)), (KEY_CUSTOMER_ID, FInt(customerId))];
    ScalarKey3(KEY_WAREHOUSE_ID, FInt(warehouseId), KEY_DISTRICT_ID, FInt(districtId), KEY_LAST, FText(last));
    ScalarKey2(KEY_FIRST, FText(first), KEY_CUSTOMER_ID, FInt(customerId));
    Record(TABLE_NAME, pk, ck, [])
  }

  const CSV_COLUMNS: seq<(string, Kind)> :=
    [(KEY_WAREHOUSE_ID, KInt), (KEY_DISTRICT_ID, KInt), (KEY_LAST, KText), (KEY_FIRST, KText), (KEY_CUSTOMER_ID, KInt)]

  /** The CSV constructor: the two ids and the customer id as ints, the names as text. */
  function FromCsv(row: CsvRow, p: Parsers): (r: Option<Record>)
    ensures r.Some? <==> AllReadable(row, CSV_COLUMNS, p)
    ensures r.Some? ==> GetInt(row, KEY_WAREHOUSE_ID).Some? && GetInt(row, KEY_DISTRICT_ID).Some? &&
                        GetInt(row, KEY_CUSTOMER_ID).Some? && KEY_LAST in row && KEY_FIRST in row &&
                        r.value == Make(GetInt(row, KEY_WAREHOUSE_ID).value, GetInt(row, KEY_DISTRICT_ID).value,
                                        row[KEY_LAST], row[KEY_FIRST], GetInt(row, KEY_CUSTOMER_ID).value)
  {
    var f :- ReadCells(row, CSV_COLUMNS, p);
    assert Some(f[0]) == ReadCell(row, KEY_WAREHOUSE_ID, KInt, p);
    assert Some(f[1]) == ReadCell(row, KEY_DISTRICT_ID, KInt, p);
    assert Some(f[2]) == ReadCell(row, KEY_LAST, KText, p);
    assert Some(f[3]) == ReadCell(row, KEY_FIRST, KText, p);
    assert Some(f[4]) == ReadCell(row, KEY_CUSTOMER_ID, KInt, p);
    Some(Record(TABLE_NAME, [(KEY_WAREHOUSE_ID, f[0]), (KEY_DISTRICT_ID, f[1]), (KEY_LAST, f[2])],
                [(KEY_FIRST, f[3]), (KEY_CUSTOMER_ID, f[4])], []))
  }

  /**
   * createScan(warehouseId, districtId, lastName): every customer of the
   * district with that last name, in clustering order (first name, then id).
   */
  method Scan(db: Db, warehouseId: int, districtId: int, last: string) returns (res: seq<Entry>)
    ensures res == ScanSpec(db, TABLE_NAME, PartitionKey(warehouseId, districtId, last), None, true, 0)
  {
    res := Store.Scan(db, TABLE_NAME, PartitionKey(warehouseId, districtId, last), None, true, 0);
  }
}
