// The history table: one row per payment, keyed by a random UUID string.
module History {
  import opened Wrappers
  import opened Store
  import opened Records
  import opened Csv
  import opened TpccUtil

  const TABLE_NAME: string := "history"
  const KEY_ID: string := "h_id"
  const KEY_CUSTOMER_ID: string := "h_c_id"
  const KEY_CUSTOMER_DID: string := "h_c_d_id"
  const KEY_CUSTOMER_WID: string := "h_c_w_id"
  const KEY_DISTRICT_ID: string := "h_d_id"
  const KEY_WAREHOUSE_ID: string := "h_w_id"
  const KEY_DATE: string := "h_date"
  const KEY_AMOUNT: string := "h_amount"
  const KEY_DATA: string := "h_data"

  const MIN_DATA: int := 12
  const MAX_DATA: int := 24

  /** The store key of the history row whose UUID is `id`. */
  function KeyFor(id: string): Key
  {
    Key(TABLE_NAME, [Column(KEY_ID, TextV(id))], [])
  }

  /** A history record: the UUID key and the eight value fields in their order. */
  function Make(id: string, customerId: int, customerDistrictId: int, customerWarehouseId: int,
                districtId: int, warehouseId: int, date: int, amount: real, data: string): (r: Record)
    ensures WellFormed(r) && KeyOf(r) == KeyFor(id)
    ensures Lookup(r.valueMap, KEY_CUSTOMER_ID) == Some(FInt(customerId))
    ensures Lookup(r.valueMap, KEY_WAREHOUSE_ID) == Some(FInt(warehouseId))
    ensures Lookup(r.valueMap, KEY_DATE) == Some(FDate(date))
    ensures Lookup(r.valueMap, KEY_AMOUNT) == Some(FDouble(amount))
    ensures Lookup(r.valueMap, KEY_DATA) == Some(FText(data))
    ensures ValueColumns(r.valueMap) ==
            Columns(customerId, customerDistrictId, customerWarehouseId, districtId, warehouseId, date, amount, data)
  {
    var values := [(KEY_CUSTOMER_ID, FInt(customerId)), (KEY_CUSTOMER_DID, FInt(customerDistrictId)),
                   (KEY_CUSTOMER_WID, FInt(customerWarehouseId)), (KEY_DISTRICT_ID, FInt(districtId)),
                   (KEY_WAREHOUSE_ID, FInt(warehouseId)), (KEY_DATE, FDate(date)),
                   (KEY_AMOUNT, FDouble(amount)), (KEY_DATA, FText(data))];
    LookupAt(values, 0);
    LookupAt(values, 4);
    LookupAt(values, 5);
    LookupAt(values, 6);
    LookupAt(values, 7);
    ValueColumnsOfScalars(values);
    var key := [(KEY_ID, FText(id))];
    ScalarKey1(KEY_ID, FText(id));
    Record(TABLE_NAME, key, [], values)
  }

  /** The columns a history record writes, in order. */
  function Columns(customerId: int, customerDistrictId: int, customerWarehouseId: int,
                   districtId: int, warehouseId: int, date: int, amount: real, data: string): seq<Column>
  {
    [Column(KEY_CUSTOMER_ID, IntV(customerId)), Column(KEY_CUSTOMER_DID, IntV(customerDistrictId)),
     Column(KEY_CUSTOMER_WID, IntV(customerWarehouseId)), Column(KEY_DISTRICT_ID, IntV(districtId)),
     Column(KEY_WAREHOUSE_ID, IntV(warehouseId)), Column(KEY_DATE, BigIntV(date)),
     Column(KEY_AMOUNT, DoubleV(amount)), Column(KEY_DATA, TextV(data))]
  }

  /** Putting a history record is a put of its columns under its UUID key. */
  lemma MakePut(db: Db, id: string, customerId: int, customerDistrictId: int, customerWarehouseId: int,
                districtId: int, warehouseId: int, date: int, amount: real, data: string)
    ensures ApplyPut(db, Make(id, customerId, customerDistrictId, customerWarehouseId, districtId, warehouseId,
                              date, amount, data))
            == Put(db, KeyFor(id), Columns(customerId, customerDistrictId, customerWarehouseId, districtId,
                                           warehouseId, date, amount, data))
  {
  }

  /** A history put reads back the five ids, the amount and the data. */
  lemma ColumnsReadBack(db: Db, k: Key, customerId: int, customerDistrictId: int, customerWarehouseId: int,
                        districtId: int, warehouseId: int, date: int, amount: real, data: string)
    ensures var db' := Put(db, k, Columns(customerId, customerDistrictId, customerWarehouseId, districtId,
                                          warehouseId, date, amount, data));
            && Holds(db', k, KEY_CUSTOMER_ID, IntV(customerId))
            && Holds(db', k, KEY_CUSTOMER_DID, IntV(customerDistrictId))
            && Holds(db', k, KEY_CUSTOMER_WID, IntV(customerWarehouseId))
            && Holds(db', k, KEY_DISTRICT_ID, IntV(districtId))
            && Holds(db', k, KEY_WAREHOUSE_ID, IntV(warehouseId))
            && Holds(db', k, KEY_AMOUNT, DoubleV(amount))
            && Holds(db', k, KEY_DATA, TextV(data))
  {
    var cols := Columns(customerId, customerDistrictId, customerWarehouseId, districtId, warehouseId,
                        date, amount, data);
    PutReadsBackAt(db, k, cols, 0);
    PutReadsBackAt(db, k, cols, 1);
    PutReadsBackAt(db, k, cols, 2);
    PutReadsBackAt(db, k, cols, 3);
    PutReadsBackAt(db, k, cols, 4);
    PutReadsBackAt(db, k, cols, 6);
    PutReadsBackAt(db, k, cols, 7);
  }

  /**
   * The generating constructor: amount 10.00 and data drawn with 12..24
   * characters; `id` stands for UUID.randomUUID().
   */
  function Generated(id: string, customerId: int, customerDistrictId: int, customerWarehouseId: int,
                     districtId: int, warehouseId: int, date: int, data: string): (r: Record)
    requires IsAlphaString(data, MIN_DATA, MAX_DATA)
    ensures WellFormed(r) && KeyOf(r) == KeyFor(id)
    ensures Lookup(r.valueMap, KEY_AMOUNT) == Some(FDouble(10.0))
    ensures var d := Lookup(r.valueMap, KEY_DATA);
            d.Some? && d.value.FText? && IsAlphaString(d.value.s, MIN_DATA, MAX_DATA)
  {
    Make(id, customerId, customerDistrictId, customerWarehouseId, districtId, warehouseId, date, 10.0, data)
  }

  const CSV_COLUMNS: seq<(string, Kind)> :=
    [(KEY_CUSTOMER_ID, KInt), (KEY_CUSTOMER_DID, KInt), (KEY_CUSTOMER_WID, KInt), (KEY_DISTRICT_ID, KInt),
     (KEY_WAREHOUSE_ID, KInt), (KEY_DATE, KDate), (KEY_AMOUNT, KDouble), (KEY_DATA, KText)]

  /** The CSV constructor: the file carries no h_id, so a fresh UUID `id` keys the row. */
  function FromCsv(id: string, row: CsvRow, p: Parsers): (r: Option<Record>)
    ensures r.Some? <==> AllReadable(row, CSV_COLUMNS, p)
    ensures r.Some? ==> WellFormed(r.value) && KeyOf(r.value) == KeyFor(id)
  {
    var f :- ReadCells(row, CSV_COLUMNS, p);
    var key := [(KEY_ID, FText(id))];
    ScalarKey1(KEY_ID, FText(id));
    Some(Record(TABLE_NAME, key, [],
      [(KEY_CUSTOMER_ID, f[0]), (KEY_CUSTOMER_DID, f[1]), (KEY_CUSTOMER_WID, f[2]), (KEY_DISTRICT_ID, f[3]),
       (KEY_WAREHOUSE_ID, f[4]), (KEY_DATE, f[5]), (KEY_AMOUNT, f[6]), (KEY_DATA, f[7])]))
  }
}
