// The oorder table: one row per order, keyed by (o_w_id, o_d_id) and
// clustered by o_id.  An order that has not been delivered has carrier 0,
// which is still written as a column.
module Order {
  import opened Wrappers
  import opened Store
  import opened Records
  import opened Csv
  import Text

  const TABLE_NAME: string := "oorder"
  const COLUMN_PREFIX: string := "o_"
  const KEY_WAREHOUSE_ID: string := "o_w_id"
  const KEY_DISTRICT_ID: string := "o_d_id"
  const KEY_ID: string := "o_id"
  const KEY_CUSTOMER_ID: string := "o_c_id"
  const KEY_CARRIER_ID: string := "o_carrier_id"
  const KEY_OL_CNT: string := "o_ol_cnt"
  const KEY_ALL_LOCAL: string := "o_all_local"
  const KEY_ENTRY_D: string := "o_entry_d"

  /** Orders below this id are loaded as delivered; the rest are the district's open orders. */
  const DELIVERED_BELOW: int := 2101
  const MIN_PER_ORDER: int := 5
  const MAX_PER_ORDER: int := 15

  /** createPartitionKey(warehouseId, districtId): o_w_id then o_d_id. */
  function PartitionKey(warehouseId: int, districtId: int): seq<Column>
  {
    [Column(KEY_WAREHOUSE_ID, IntV(warehouseId)), Column(KEY_DISTRICT_ID, IntV(districtId))]
  }

  /** createClusteringKey(orderId): o_id alone. */
  function ClusteringKey(orderId: int): seq<Column>
  {
    [Column(KEY_ID, IntV(orderId))]
  }

  /** The store key of order `orderId` of a district, as createGet reads it. */
  function KeyFor(warehouseId: int, districtId: int, orderId: int): Key
  {
    Key(TABLE_NAME, PartitionKey(warehouseId, districtId), ClusteringKey(orderId))
  }

  /**
   * createScan(warehouseId, districtId, customerId), which the snapshot calls
   * but does not define: the district's orders whose o_c_id is the customer,
   * in key order.
   */
  ghost function CustomerOrders(db: Db, warehouseId: int, districtId: int, customerId: int): seq<Entry>
  {
    WhereColumn(ScanSpec(db, TABLE_NAME, PartitionKey(warehouseId, districtId), None, true, 0),
                KEY_CUSTOMER_ID, IntV(customerId))
  }

  /** createScan(warehouseId, districtId, customerId): the district's orders scanned from the store, then filtered to the customer. */
  method Scan(db: Db, warehouseId: int, districtId: int, customerId: int) returns (res: seq<Entry>)
    ensures res == CustomerOrders(db, warehouseId, districtId, customerId)
  {
    var district := Store.Scan(db, TABLE_NAME, PartitionKey(warehouseId, districtId), None, true, 0);
    res := WhereColumn(district, KEY_CUSTOMER_ID, IntV(customerId));
  }

  /** The scan returns exactly the stored orders of the district whose o_c_id holds the customer id. */
  lemma CustomerOrdersMembers(db: Db, warehouseId: int, districtId: int, customerId: int)
    ensures forall e :: e in CustomerOrders(db, warehouseId, districtId, customerId) <==>
              && e.key in db && e.row == db[e.key]
              && e.key.table == TABLE_NAME && e.key.partition == PartitionKey(warehouseId, districtId)
              && Holds(db, e.key, KEY_CUSTOMER_ID, IntV(customerId))
  {
    var part := PartitionKey(warehouseId, districtId);
    var district := ScanSpec(db, TABLE_NAME, part, None, true, 0);
    ScanSpecProperties(db, TABLE_NAME, part, None, true, 0);
    forall e: Entry | e.key in db && e.row == db[e.key] && e.key.table == TABLE_NAME && e.key.partition == part
      ensures e in district
    {
      ScanCoversMatching(db, TABLE_NAME, part, None, e.key);
      var i :| 0 <= i < |district| && district[i].key == e.key;
      assert district[i] == e;
    }
  }

  /**
   * The explicit constructor: customer, carrier, line count, all-local flag and
   * entry date, each written as its own column; a carrier of 0 is a column too.
   */
  function Make(warehouseId: int, districtId: int, orderId: int, customerId: int, carrierId: int,
                number: int, local: int, date: int): (r: Record)
    ensures WellFormed(r) && KeyOf(r) == KeyFor(warehouseId, districtId, orderId)
    ensures ValueColumns(r.valueMap) == Columns(customerId, carrierId, number, local, date)
    ensures Lookup(r.valueMap, KEY_CARRIER_ID) == Some(FInt(carrierId))
    ensures Lookup(r.valueMap, KEY_OL_CNT) == Some(FInt(number))
  {
    var values := [(KEY_CUSTOMER_ID, FInt(customerId)), (KEY_CARRIER_ID, FInt(carrierId)), (KEY_OL_CNT, FInt(number)),
                   (KEY_ALL_LOCAL, FInt(local)), (KEY_ENTRY_D, FDate(date))];
    ValueColumnsOfScalars(values);
    LookupAt(values, 1);
    LookupAt(values, 2);
    ScalarKey2(KEY_WAREHOUSE_ID, FInt(warehouseId), KEY_DISTRICT_ID, FInt(districtId));
    ScalarKey1(KEY_ID, FInt(orderId));
    Record(TABLE_NAME, [(KEY_WAREHOUSE_ID, FInt(warehouseId)), (KEY_DISTRICT_ID, FInt(districtId))],
           [(KEY_ID, FInt(orderId))], values)
  }
  /** The columns the explicit constructor writes, in order. */
  function Columns(customerId: int, carrierId: int, number: int, local: int, date: int): seq<Column>
  {
    [Column(KEY_CUSTOMER_ID, IntV(customerId)), Column(KEY_CARRIER_ID, IntV(carrierId)),
     Column(KEY_OL_CNT, IntV(number)), Column(KEY_ALL_LOCAL, IntV(local)), Column(KEY_ENTRY_D, BigIntV(date))]
  }

  /** Putting the explicit constructor's record is a put of its columns under the order's key. */
  lemma MakePut(db: Db, warehouseId: int, districtId: int, orderId: int, customerId: int, carrierId: int,
                number: int, local: int, date: int)
    ensures ApplyPut(db, Make(warehouseId, districtId, orderId, customerId, carrierId, number, local, date))
            == Put(db, KeyFor(warehouseId, districtId, orderId), Columns(customerId, carrierId, number, local, date))
  {
  }

  /** An order put reads back its customer, carrier, line count and all-local flag. */
  lemma ColumnsReadBack(db: Db, k: Key, customerId: int, carrierId: int, number: int, local: int, date: int)
    ensures var db' := Put(db, k, Columns(customerId, carrierId, number, local, date));
            && Holds(db', k, KEY_CUSTOMER_ID, IntV(customerId))
            && Holds(db', k, KEY_CARRIER_ID, IntV(carrierId))
            && Holds(db', k, KEY_OL_CNT, IntV(number))
            && Holds(db', k, KEY_ALL_LOCAL, IntV(local))
  {
    var cols := Columns(customerId, carrierId, number, local, date);
    PutReadsBackAt(db, k, cols, 0);
    PutReadsBackAt(db, k, cols, 1);
    PutReadsBackAt(db, k, cols, 2);
    PutReadsBackAt(db, k, cols, 3);
  }




  /**
   * The generating constructor: a delivered order (id below 2101) gets a
   * carrier drawn from [1, 10], an open one carrier 0; the line count is drawn
   * from [5, 15] and every order is all-local.
   */
  function Generated(warehouseId: int, districtId: int, orderId: int, customerId: int, date: int,
                     carrierDraw: int, lineCountDraw: int): (r: Record)
    requires 1 <= carrierDraw <= 10 && MIN_PER_ORDER <= lineCountDraw <= MAX_PER_ORDER
    ensures WellFormed(r) && KeyOf(r) == KeyFor(warehouseId, districtId, orderId)
    ensures var carrier := Lookup(r.valueMap, KEY_CARRIER_ID);
            && carrier.Some? && carrier.value.FInt?
            && (orderId < DELIVERED_BELOW <==> 1 <= carrier.value.i <= 10)
            && (orderId >= DELIVERED_BELOW <==> carrier.value.i == 0)
    ensures orderId >= DELIVERED_BELOW ==> Column(KEY_CARRIER_ID, IntV(0)) in ValueColumns(r.valueMap)
    ensures LineCount(r).Some? && MIN_PER_ORDER <= LineCount(r).value <= MAX_PER_ORDER
    ensures Column(KEY_ALL_LOCAL, IntV(1)) in ValueColumns(r.valueMap)
  {
    var carrier := if orderId < DELIVERED_BELOW then carrierDraw else 0;
    var r := Make(warehouseId, districtId, orderId, customerId, carrier, lineCountDraw, 1, date);
    assert ValueColumns(r.valueMap)[1] == Column(KEY_CARRIER_ID, IntV(carrier));
    assert ValueColumns(r.valueMap)[3] == Column(KEY_ALL_LOCAL, IntV(1));
    r
  }

  /**
   * The carrier-only record delivery puts to mark the order delivered.  Its
   * constructor is not part of this model's sources; its one call site fixes it
   * to the order's key and the new carrier id.
   */
  function WithCarrier(warehouseId: int, districtId: int, orderId: int, carrierId: int): (r: Record)
    ensures WellFormed(r) && KeyOf(r) == KeyFor(warehouseId, districtId, orderId)
    ensures ValueColumns(r.valueMap) == [Column(KEY_CARRIER_ID, IntV(carrierId))]
  {
    var values := [(KEY_CARRIER_ID, FInt(carrierId))];
    assert values[..0] == [];
    ScalarKey2(KEY_WAREHOUSE_ID, FInt(warehouseId), KEY_DISTRICT_ID, FInt(districtId));
    ScalarKey1(KEY_ID, FInt(orderId));
    Record(TABLE_NAME, [(KEY_WAREHOUSE_ID, FInt(warehouseId)), (KEY_DISTRICT_ID, FInt(districtId))],
           [(KEY_ID, FInt(orderId))], values)
  }

  /** getOrderLineCount: the o_ol_cnt entry unboxed; a missing or non-int entry throws. */
  function LineCount(r: Record): (n: Option<int>)
    ensures n.Some? <==> Lookup(r.valueMap, KEY_OL_CNT).Some? && Lookup(r.valueMap, KEY_OL_CNT).value.FInt?
    ensures n.Some? ==> Lookup(r.valueMap, KEY_OL_CNT) == Some(FInt(n.value))
  {
    match Lookup(r.valueMap, KEY_OL_CNT)
    case Some(FInt(n)) => Some(n)
    case _ => None
  }

  const CSV_COLUMNS: seq<(string, Kind)> :=
    [(KEY_WAREHOUSE_ID, KInt), (KEY_DISTRICT_ID, KInt), (KEY_ID, KInt), (KEY_CUSTOMER_ID, KInt),
     (KEY_CARRIER_ID, KIntOrZero), (KEY_OL_CNT, KInt), (KEY_ALL_LOCAL, KInt), (KEY_ENTRY_D, KDate)]

  /**
   * The CSV constructor: ids, line count and all-local flag as ints, an empty
   * or `\N` carrier as 0, the entry date through the date format.
   */
  function FromCsv(row: CsvRow, p: Parsers): (r: Option<Record>)
    ensures r.Some? <==> AllReadable(row, CSV_COLUMNS, p)
  {
    var f :- ReadCells(row, CSV_COLUMNS, p);
    Some(Make(FieldInt(f[0]), FieldInt(f[1]), FieldInt(f[2]), FieldInt(f[3]), FieldInt(f[4]), FieldInt(f[5]),
              FieldInt(f[6]), FieldDate(f[7])))
  }

  /** The carrier a CSV row loads: 0 for an empty or `\N` cell, the parsed int otherwise. */
  function CsvCarrier(row: CsvRow): int
    requires KEY_CARRIER_ID in row
  {
    if IsNull(row[KEY_CARRIER_ID]) then 0
    else match Text.ParseInt(row[KEY_CARRIER_ID]) case Some(c) => c case None => 0
  }

  /** A loaded order is the explicit constructor applied to the row's cells. */
  lemma FromCsvIsMake(row: CsvRow, p: Parsers)
    requires FromCsv(row, p).Some?
    ensures GetInt(row, KEY_WAREHOUSE_ID).Some? && GetInt(row, KEY_DISTRICT_ID).Some? && GetInt(row, KEY_ID).Some?
    ensures GetInt(row, KEY_CUSTOMER_ID).Some? && KEY_CARRIER_ID in row && GetInt(row, KEY_OL_CNT).Some?
    ensures GetInt(row, KEY_ALL_LOCAL).Some? && GetDate(row, KEY_ENTRY_D, p).Some?
    ensures FromCsv(row, p).value ==
      Make(GetInt(row, KEY_WAREHOUSE_ID).value, GetInt(row, KEY_DISTRICT_ID).value, GetInt(row, KEY_ID).value,
           GetInt(row, KEY_CUSTOMER_ID).value, CsvCarrier(row), GetInt(row, KEY_OL_CNT).value,
           GetInt(row, KEY_ALL_LOCAL).value, GetDate(row, KEY_ENTRY_D, p).value)
  {
    var f := ReadCells(row, CSV_COLUMNS, p).value;
    assert FromCsv(row, p) == Some(Make(FieldInt(f[0]), FieldInt(f[1]), FieldInt(f[2]), FieldInt(f[3]),
                                        FieldInt(f[4]), FieldInt(f[5]), FieldInt(f[6]), FieldDate(f[7])));
    CsvCells(row, p);
  }

  /** The cells of a readable row, as the fields the CSV constructor passes on. */
  lemma CsvCells(row: CsvRow, p: Parsers)
    requires AllReadable(row, CSV_COLUMNS, p)
    ensures var f := ReadCells(row, CSV_COLUMNS, p).value;
            && GetInt(row, KEY_WAREHOUSE_ID) == Some(FieldInt(f[0]))
            && GetInt(row, KEY_DISTRICT_ID) == Some(FieldInt(f[1]))
            && GetInt(row, KEY_ID) == Some(FieldInt(f[2]))
            && GetInt(row, KEY_CUSTOMER_ID) == Some(FieldInt(f[3]))
            && KEY_CARRIER_ID in row && CsvCarrier(row) == FieldInt(f[4])
            && GetInt(row, KEY_OL_CNT) == Some(FieldInt(f[5]))
            && GetInt(row, KEY_ALL_LOCAL) == Some(FieldInt(f[6]))
            && GetDate(row, KEY_ENTRY_D, p) == Some(FieldDate(f[7]))
  {
    var f := ReadCells(row, CSV_COLUMNS, p).value;
    ReadInt(row, CSV_COLUMNS, p, 0);
    ReadInt(row, CSV_COLUMNS, p, 1);
    ReadInt(row, CSV_COLUMNS, p, 2);
    ReadInt(row, CSV_COLUMNS, p, 3);
    ReadInt(row, CSV_COLUMNS, p, 5);
    ReadInt(row, CSV_COLUMNS, p, 6);
    assert Some(f[4]) == ReadCell(row, KEY_CARRIER_ID, KIntOrZero, p);
    assert Some(f[7]) == ReadCell(row, KEY_ENTRY_D, KDate, p);
  }
}
