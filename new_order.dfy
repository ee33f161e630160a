// The new_order table: the orders of a district not yet delivered, keyed by
// (no_w_id, no_d_id) and clustered by no_o_id.  It holds no value columns.
module NewOrder {
  import opened Wrappers
  import opened Store
  import opened Records
  import opened Csv

  const TABLE_NAME: string := "new_order"
  const KEY_WAREHOUSE_ID: string := "no_w_id"
  const KEY_DISTRICT_ID: string := "no_d_id"
  const KEY_ORDER_ID: string := "no_o_id"

  function PartitionKey(warehouseId: int, districtId: int): seq<Column>
  {
    [Column(KEY_WAREHOUSE_ID, IntV(warehouseId)), Column(KEY_DISTRICT_ID, IntV(districtId))]
  }

  function ClusteringKey(orderId: int): seq<Column>
  {
    [Column(KEY_ORDER_ID, IntV(orderId))]
  }

  /** The key createDelete(warehouseId, districtId, orderId) removes. */
  function KeyFor(warehouseId: int, districtId: int, orderId: int): Key
  {
    Key(TABLE_NAME, PartitionKey(warehouseId, districtId), ClusteringKey(orderId))
  }

  /** The record new-order puts: keys only. */
  function Make(warehouseId: int, districtId: int, orderId: int): (r: Record)
    ensures WellFormed(r) && KeyOf(r) == KeyFor(warehouseId, districtId, orderId)
    ensures ValueColumns(r.valueMap) == []
  {
    ScalarKey2(KEY_WAREHOUSE_ID, FInt(warehouseId), KEY_DISTRICT_ID, FInt(districtId));
    ScalarKey1(KEY_ORDER_ID, FInt(orderId));
    Record(TABLE_NAME, [(KEY_WAREHOUSE_ID, FInt(warehouseId)), (KEY_DISTRICT_ID, FInt(districtId))],
           [(KEY_ORDER_ID, FInt(orderId))], [])
  }
  /** Putting a new-order record writes only its key columns. */
  lemma MakePut(db: Db, warehouseId: int, districtId: int, orderId: int)
    ensures ApplyPut(db, Make(warehouseId, districtId, orderId)) == Put(db, KeyFor(warehouseId, districtId, orderId), [])
  {
  }


  const CSV_COLUMNS: seq<(string, Kind)> := [(KEY_WAREHOUSE_ID, KInt), (KEY_DISTRICT_ID, KInt), (KEY_ORDER_ID, KInt)]

  /** The CSV constructor: the three ids as ints. */
  function FromCsv(row: CsvRow, p: Parsers): (r: Option<Record>)
    ensures r.Some? <==> AllReadable(row, CSV_COLUMNS, p)
    ensures r.Some? ==> GetInt(row, KEY_WAREHOUSE_ID).Some? && GetInt(row, KEY_DISTRICT_ID).Some? &&
                        GetInt(row, KEY_ORDER_ID).Some? &&
                        r.value == Make(GetInt(row, KEY_WAREHOUSE_ID).value, GetInt(row, KEY_DISTRICT_ID).value,
                                        GetInt(row, KEY_ORDER_ID).value)
  {
    var f :- ReadCells(row, CSV_COLUMNS, p);
    assert Some(f[0]) == ReadCell(row, KEY_WAREHOUSE_ID, KInt, p);
    assert Some(f[1]) == ReadCell(row, KEY_DISTRICT_ID, KInt, p);
    assert Some(f[2]) == ReadCell(row, KEY_ORDER_ID, KInt, p);
    Some(Record(TABLE_NAME, [(KEY_WAREHOUSE_ID, f[0]), (KEY_DISTRICT_ID, f[1])], [(KEY_ORDER_ID, f[2])], []))
  }

  /** createScan(warehouseId, districtId): the district's new orders by ascending no_o_id, at most one. */
  method Scan(db: Db, warehouseId: int, districtId: int) returns (res: seq<Entry>)
    ensures res == ScanSpec(db, TABLE_NAME, PartitionKey(warehouseId, districtId), None, true, 1)
  {
    res := Store.Scan(db, TABLE_NAME, PartitionKey(warehouseId, districtId), None, true, 1);
  }

  /**
   * The scan finds the district's oldest undelivered order: it returns one
   * record exactly when the district has some, and no other record of the
   * district has a smaller order id.
   */
  lemma ScanFindsOldest(db: Db, warehouseId: int, districtId: int)
    requires forall k :: k in Matching(db, TABLE_NAME, PartitionKey(warehouseId, districtId), None) ==>
               exists o :: k.clustering == ClusteringKey(o)
    ensures var res := ScanSpec(db, TABLE_NAME, PartitionKey(warehouseId, districtId), None, true, 1);
            var m := Matching(db, TABLE_NAME, PartitionKey(warehouseId, districtId), None);
            && |res| <= 1
            && (|res| == 1 <==> m != {})
            && (|res| == 1 ==>
                  && res[0].key in m
                  && forall k :: k in m && k != res[0].key ==> FirstClusteringInt(res[0].key) < FirstClusteringInt(k))
  {
    ScanFirstByInt(db, TABLE_NAME, PartitionKey(warehouseId, districtId), KEY_ORDER_ID, true);
  }
}
