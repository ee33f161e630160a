// The order_secondary table: an index from (warehouse, district, customer) to
// that customer's order ids, clustered by o_id.  It holds no value columns.
module OrderSecondary {
  import opened Wrappers
  import opened Store
  import opened Records
  import opened Csv

  const TABLE_NAME: string := "order_secondary"
  const KEY_WAREHOUSE_ID: string := "o_w_id"
  const KEY_DISTRICT_ID: string := "o_d_id"
  const KEY_CUSTOMER_ID: string := "o_c_id"
  const KEY_ORDER_ID: string := "o_id"

  function PartitionKey(warehouseId: int, districtId: int, customerId: int): seq<Column>
  {
    [Column(KEY_WAREHOUSE_ID, IntV(warehouseId)), Column(KEY_DISTRICT_ID, IntV(districtId)),
     Column(KEY_CUSTOMER_ID, IntV(customerId))]
  }

  function ClusteringKey(orderId: int): seq<Column>
  {
    [Column(KEY_ORDER_ID, IntV(orderId))]
  }

  function KeyFor(warehouseId: int, districtId: int, customerId: int, orderId: int): Key
  {
    Key(TABLE_NAME, PartitionKey(warehouseId, districtId, customerId), ClusteringKey(orderId))
  }

  /** The index record: keys only. */
  function Make(warehouseId: int, districtId: int, customerId: int, orderId: int): (r: Record)
    ensures WellFormed(r) && KeyOf(r) == KeyFor(warehouseId, districtId, customerId, orderId)
    ensures ValueColumns(r.valueMap) == []
  {
    ScalarKey3(KEY_WAREHOUSE_ID, FInt(warehouseId), KEY_DISTRICT_ID, FInt(districtId), KEY_CUSTOMER_ID, FInt(customerId));
    ScalarKey1(KEY_ORDER_ID, FInt(orderId));
    Record(TABLE_NAME, [(KEY_WAREHOUSE_ID, FInt(warehouseId)), (KEY_DISTRICT_ID, FInt(districtId)),
                        (KEY_CUSTOMER_ID, FInt(customerId))], [(KEY_ORDER_ID, FInt(orderId))], [])
  }

  const CSV_COLUMNS: seq<(string, Kind)> :=
    [(KEY_WAREHOUSE_ID, KInt), (KEY_DISTRICT_ID, KInt), (KEY_CUSTOMER_ID, KInt), (KEY_ORDER_ID, KInt)]

  /** The CSV constructor: the four ids as ints. */
  function FromCsv(row: CsvRow, p: Parsers): (r: Option<Record>)
    ensures r.Some? <==> AllReadable(row, CSV_COLUMNS, p)
    ensures r.Some? ==> GetInt(row, KEY_WAREHOUSE_ID).Some? && GetInt(row, KEY_DISTRICT_ID).Some? &&
                        GetInt(row, KEY_CUSTOMER_ID).Some? && GetInt(row, KEY_ORDER_ID).Some? &&
                        r.value == Make(GetInt(row, KEY_WAREHOUSE_ID).value, GetInt(row, KEY_DISTRICT_ID).value,
                                        GetInt(row, KEY_CUSTOMER_ID).value, GetInt(row, KEY_ORDER_ID).value)
  {
    var f :- ReadCells(row, CSV_COLUMNS, p);
    assert Some(f[0]) == ReadCell(row, KEY_WAREHOUSE_ID, KInt, p);
    assert Some(f[1]) == ReadCell(row, KEY_DISTRICT_ID, KInt, p);
    assert Some(f[2]) == ReadCell(row, KEY_CUSTOMER_ID, KInt, p);
    assert Some(f[3]) == ReadCell(row, KEY_ORDER_ID, KInt, p);
    Some(Record(TABLE_NAME, [(KEY_WAREHOUSE_ID, f[0]), (KEY_DISTRICT_ID, f[1]), (KEY_CUSTOMER_ID, f[2])],
                [(KEY_ORDER_ID, f[3])], []))
  }

  /** createScan(warehouseId, districtId, customerId): the customer's orders by descending o_id, at most one. */
  method Scan(db: Db, warehouseId: int, districtId: int, customerId: int) returns (res: seq<Entry>)
    ensures res == ScanSpec(db, TABLE_NAME, PartitionKey(warehouseId, districtId, customerId), None, false, 1)
  {
    res := Store.Scan(db, TABLE_NAME, PartitionKey(warehouseId, districtId, customerId), None, false, 1);
  }

  /** The scan finds the customer's latest order: none only when the customer has none, else the largest o_id. */
  lemma ScanFindsLatest(db: Db, warehouseId: int, districtId: int, customerId: int)
    requires forall k :: k in Matching(db, TABLE_NAME, PartitionKey(warehouseId, districtId, customerId), None) ==>
               exists o :: k.clustering == ClusteringKey(o)
    ensures var res := ScanSpec(db, TABLE_NAME, PartitionKey(warehouseId, districtId, customerId), None, false, 1);
            var m := Matching(db, TABLE_NAME, PartitionKey(warehouseId, districtId, customerId), None);
            && |res| <= 1
            && (|res| == 1 <==> m != {})
            && (|res| == 1 ==>
                  && res[0].key in m
                  && forall k :: k in m && k != res[0].key ==> FirstClusteringInt(k) < FirstClusteringInt(res[0].key))
  {
    ScanFirstByInt(db, TABLE_NAME, PartitionKey(warehouseId, districtId, customerId), KEY_ORDER_ID, false);
  }
}
