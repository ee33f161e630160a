// The order_line table: the lines of every order, keyed by (ol_w_id, ol_d_id)
// and clustered by (ol_o_id, ol_number).  An undelivered line has a null
// delivery date, which is left out of the columns written.
module OrderLine {
  import opened Wrappers
  import opened Store
  import opened Records
  import opened Csv
  import TpccUtil

  const TABLE_NAME: string := "order_line"
  const COLUMN_PREFIX: string := "ol_"
  const KEY_WAREHOUSE_ID: string := "ol_w_id"
  const KEY_DISTRICT_ID: string := "ol_d_id"
  const KEY_ORDER_ID: string := "ol_o_id"
  const KEY_NUMBER: string := "ol_number"
  const KEY_ITEM_ID: string := "ol_i_id"
  const KEY_DELIVERY_D: string := "ol_delivery_d"
  const KEY_AMOUNT: string := "ol_amount"
  const KEY_SUPPLY_W_ID: string := "ol_supply_w_id"
  const KEY_QUANTITY: string := "ol_quantity"
  const KEY_DIST_INFO: string := "ol_dist_info"

  const MIN_PER_ORDER: int := 5
  const MAX_PER_ORDER: int := 15
  const DIST_INFO_SIZE: int := 24
  const DELIVERED_BELOW: int := 2101

  /** createPartitionKey(warehouseId, districtId): ol_w_id then ol_d_id. */
  function PartitionKey(warehouseId: int, districtId: int): seq<Column>
  {
    [Column(KEY_WAREHOUSE_ID, IntV(warehouseId)), Column(KEY_DISTRICT_ID, IntV(districtId))]
  }

  /** createClusteringKey(orderId, number): ol_o_id then ol_number. */
  function ClusteringKey(orderId: int, number: int): seq<Column>
  {
    [Column(KEY_ORDER_ID, IntV(orderId)), Column(KEY_NUMBER, IntV(number))]
  }

  function KeyFor(warehouseId: int, districtId: int, orderId: int, number: int): Key
  {
    Key(TABLE_NAME, PartitionKey(warehouseId, districtId), ClusteringKey(orderId, number))
  }

  function KeyMapOf(warehouseId: int, districtId: int): seq<(string, Field)>
  {
    [(KEY_WAREHOUSE_ID, FInt(warehouseId)), (KEY_DISTRICT_ID, FInt(districtId))]
  }

  function ClusteringMapOf(orderId: int, number: int): seq<(string, Field)>
  {
    [(KEY_ORDER_ID, FInt(orderId)), (KEY_NUMBER, FInt(number))]
  }

  /** Both key maps of a line are two ints each. */
  lemma Keys(warehouseId: int, districtId: int, orderId: int, number: int)
    ensures KeyMap(KeyMapOf(warehouseId, districtId)) && KeyMap(ClusteringMapOf(orderId, number))
    ensures KeyColumnsOf(KeyMapOf(warehouseId, districtId)) == PartitionKey(warehouseId, districtId)
    ensures KeyColumnsOf(ClusteringMapOf(orderId, number)) == ClusteringKey(orderId, number)
  {
    ScalarKey2(KEY_WAREHOUSE_ID, FInt(warehouseId), KEY_DISTRICT_ID, FInt(districtId));
    ScalarKey2(KEY_ORDER_ID, FInt(orderId), KEY_NUMBER, FInt(number));
  }

  /** The update constructor delivery uses: the delivery date and nothing else. */
  function ForDelivery(warehouseId: int, districtId: int, orderId: int, number: int, deliveryDate: int): (r: Record)
    ensures WellFormed(r) && KeyOf(r) == KeyFor(warehouseId, districtId, orderId, number)
    ensures ValueColumns(r.valueMap) == [Column(KEY_DELIVERY_D, BigIntV(deliveryDate))]
  {
    var values := [(KEY_DELIVERY_D, FDate(deliveryDate))];
    assert values[..0] == [];
    Keys(warehouseId, districtId, orderId, number);
    Record(TABLE_NAME, KeyMapOf(warehouseId, districtId), ClusteringMapOf(orderId, number), values)
  }

  /**
   * The insert constructor new-order uses: item, supplier, amount, quantity
   * and district info; the delivery date is null, so it is not written.
   */
  function Make(warehouseId: int, districtId: int, orderId: int, number: int, supplyWarehouseId: int,
                amount: real, quantity: int, itemId: int, info: string): (r: Record)
    ensures WellFormed(r) && KeyOf(r) == KeyFor(warehouseId, districtId, orderId, number)
    ensures Lookup(r.valueMap, KEY_DELIVERY_D) == Some(FNull)
    ensures ValueColumns(r.valueMap) == Columns(supplyWarehouseId, amount, quantity, itemId, info)
  {
    var front := [(KEY_ITEM_ID, FInt(itemId)), (KEY_SUPPLY_W_ID, FInt(supplyWarehouseId))];
    var back := [(KEY_AMOUNT, FDouble(amount)), (KEY_QUANTITY, FInt(quantity)), (KEY_DIST_INFO, FText(info))];
    var values := [(KEY_ITEM_ID, FInt(itemId)), (KEY_SUPPLY_W_ID, FInt(supplyWarehouseId)), (KEY_DELIVERY_D, FNull),
                   (KEY_AMOUNT, FDouble(amount)), (KEY_QUANTITY, FInt(quantity)), (KEY_DIST_INFO, FText(info))];
    assert values == front + [(KEY_DELIVERY_D, FNull)] + back;
    ValueColumnsSkipsNull(front, KEY_DELIVERY_D, back);
    ValueColumnsOfScalars(front + back);
    assert ValueColumns(values) == Columns(supplyWarehouseId, amount, quantity, itemId, info);
    LookupAt(values, 2);
    Keys(warehouseId, districtId, orderId, number);
    Record(TABLE_NAME, KeyMapOf(warehouseId, districtId), ClusteringMapOf(orderId, number), values)
  }
  /** The columns the insert constructor writes, in order. */
  function Columns(supplyWarehouseId: int, amount: real, quantity: int, itemId: int, info: string): seq<Column>
  {
    [Column(KEY_ITEM_ID, IntV(itemId)), Column(KEY_SUPPLY_W_ID, IntV(supplyWarehouseId)),
     Column(KEY_AMOUNT, DoubleV(amount)), Column(KEY_QUANTITY, IntV(quantity)), Column(KEY_DIST_INFO, TextV(info))]
  }

  /** Putting the insert constructor's record is a put of its columns under the line's key. */
  lemma MakePut(db: Db, warehouseId: int, districtId: int, orderId: int, number: int, supplyWarehouseId: int,
                amount: real, quantity: int, itemId: int, info: string)
    ensures ApplyPut(db, Make(warehouseId, districtId, orderId, number, supplyWarehouseId, amount, quantity, itemId, info))
            == Put(db, KeyFor(warehouseId, districtId, orderId, number),
                   Columns(supplyWarehouseId, amount, quantity, itemId, info))
  {
  }

  /** A line put reads back its item, supplier, amount, quantity and district information. */
  lemma ColumnsReadBack(db: Db, k: Key, supplyWarehouseId: int, amount: real, quantity: int, itemId: int, info: string)
    ensures var db' := Put(db, k, Columns(supplyWarehouseId, amount, quantity, itemId, info));
            && Holds(db', k, KEY_ITEM_ID, IntV(itemId))
            && Holds(db', k, KEY_SUPPLY_W_ID, IntV(supplyWarehouseId))
            && Holds(db', k, KEY_AMOUNT, DoubleV(amount))
            && Holds(db', k, KEY_QUANTITY, IntV(quantity))
            && Holds(db', k, KEY_DIST_INFO, TextV(info))
  {
    var cols := Columns(supplyWarehouseId, amount, quantity, itemId, info);
    PutReadsBackAt(db, k, cols, 0);
    PutReadsBackAt(db, k, cols, 1);
    PutReadsBackAt(db, k, cols, 2);
    PutReadsBackAt(db, k, cols, 3);
    PutReadsBackAt(db, k, cols, 4);
  }




  /**
   * The generating constructor: a line of a delivered order (id below 2101)
   * has the load date as delivery date and amount 0.00; a line of an open order
   * has no delivery date and an amount of a draw in [1, 999999] hundredths.
   * Every generated line has quantity 5 and 24 characters of district info.
   */
  function Generated(warehouseId: int, districtId: int, orderId: int, number: int, supplyWarehouseId: int,
                     itemId: int, date: int, amountDraw: int, info: string): (r: Record)
    requires 1 <= amountDraw <= 999999 && TpccUtil.IsAlphaString(info, DIST_INFO_SIZE, DIST_INFO_SIZE)
    ensures WellFormed(r) && KeyOf(r) == KeyFor(warehouseId, districtId, orderId, number)
    ensures orderId < DELIVERED_BELOW ==>
              Lookup(r.valueMap, KEY_DELIVERY_D) == Some(FDate(date)) &&
              Lookup(r.valueMap, KEY_AMOUNT) == Some(FDouble(0.0))
    ensures orderId >= DELIVERED_BELOW ==>
              && Lookup(r.valueMap, KEY_DELIVERY_D) == Some(FNull)
              && var amount := Lookup(r.valueMap, KEY_AMOUNT);
                 amount.Some? && amount.value.FDouble? && 0.01 <= amount.value.d <= 9999.99
    ensures Lookup(r.valueMap, KEY_QUANTITY) == Some(FInt(5))
    ensures var info := Lookup(r.valueMap, KEY_DIST_INFO);
            info.Some? && info.value.FText? && |info.value.s| == DIST_INFO_SIZE
  {
    var delivered := orderId < DELIVERED_BELOW;
    var values := [(KEY_ITEM_ID, FInt(itemId)), (KEY_SUPPLY_W_ID, FInt(supplyWarehouseId)),
                   (KEY_DELIVERY_D, if delivered then FDate(date) else FNull),
                   (KEY_AMOUNT, FDouble(if delivered then 0.0 else TpccUtil.RandomDouble(1, 999999, 100, amountDraw))),
                   (KEY_QUANTITY, FInt(5)), (KEY_DIST_INFO, FText(info))];
    LookupAt(values, 2);
    LookupAt(values, 3);
    LookupAt(values, 4);
    LookupAt(values, 5);
    Keys(warehouseId, districtId, orderId, number);
    Record(TABLE_NAME, KeyMapOf(warehouseId, districtId), ClusteringMapOf(orderId, number), values)
  }

  const CSV_COLUMNS: seq<(string, Kind)> :=
    [(KEY_WAREHOUSE_ID, KInt), (KEY_DISTRICT_ID, KInt), (KEY_ORDER_ID, KInt), (KEY_NUMBER, KInt),
     (KEY_ITEM_ID, KInt), (KEY_SUPPLY_W_ID, KInt), (KEY_AMOUNT, KDouble), (KEY_QUANTITY, KInt),
     (KEY_DIST_INFO, KText), (KEY_DELIVERY_D, KDateOrNull)]

  /**
   * The CSV constructor: ids, item, supplier and quantity as ints, the amount
   * as a double, and an empty or `\N` delivery date as null.
   */
  function FromCsv(row: CsvRow, p: Parsers): (r: Option<Record>)
    ensures r.Some? <==> AllReadable(row, CSV_COLUMNS, p)
  {
    var f :- ReadCells(row, CSV_COLUMNS, p);
    Some(Record(TABLE_NAME, [(KEY_WAREHOUSE_ID, f[0]), (KEY_DISTRICT_ID, f[1])], [(KEY_ORDER_ID, f[2]), (KEY_NUMBER, f[3])],
                [(KEY_ITEM_ID, f[4]), (KEY_SUPPLY_W_ID, f[5]), (KEY_AMOUNT, f[6]), (KEY_QUANTITY, f[7]),
                 (KEY_DIST_INFO, f[8]), (KEY_DELIVERY_D, f[9])]))
  }

  /** A loaded line has a null delivery date exactly when its cell is empty or `\N`. */
  lemma FromCsvDelivery(row: CsvRow, p: Parsers)
    requires FromCsv(row, p).Some?
    ensures KEY_DELIVERY_D in row
    ensures var d := Lookup(FromCsv(row, p).value.valueMap, KEY_DELIVERY_D);
            && d.Some?
            && (d.value.FNull? <==> IsNull(row[KEY_DELIVERY_D]))
            && (d.value.FDate? ==> p.parseDate(row[KEY_DELIVERY_D]) == Some(d.value.millis))
  {
    ReadDateOrNull(row, CSV_COLUMNS, p, 9);
  }

  /** A loaded line is keyed by its four id cells read as ints. */
  lemma FromCsvKey(row: CsvRow, p: Parsers)
    requires FromCsv(row, p).Some?
    ensures GetInt(row, KEY_WAREHOUSE_ID).Some? && GetInt(row, KEY_DISTRICT_ID).Some?
    ensures GetInt(row, KEY_ORDER_ID).Some? && GetInt(row, KEY_NUMBER).Some?
    ensures var r := FromCsv(row, p).value;
            && WellFormed(r)
            && KeyOf(r) == KeyFor(GetInt(row, KEY_WAREHOUSE_ID).value, GetInt(row, KEY_DISTRICT_ID).value,
                                  GetInt(row, KEY_ORDER_ID).value, GetInt(row, KEY_NUMBER).value)
  {
    var f := ReadCells(row, CSV_COLUMNS, p).value;
    ReadInt(row, CSV_COLUMNS, p, 0);
    ReadInt(row, CSV_COLUMNS, p, 1);
    ReadInt(row, CSV_COLUMNS, p, 2);
    ReadInt(row, CSV_COLUMNS, p, 3);
    ScalarKey2(KEY_WAREHOUSE_ID, f[0], KEY_DISTRICT_ID, f[1]);
    ScalarKey2(KEY_ORDER_ID, f[2], KEY_NUMBER, f[3]);
  }

  /** createScan(warehouseId, districtId, orderIdStart, orderIdEnd): the lines of a range of orders, in key order. */
  method ScanRange(db: Db, warehouseId: int, districtId: int, orderIdStart: int, orderIdEnd: int)
    returns (res: seq<Entry>)
    ensures res == ScanSpec(db, TABLE_NAME, PartitionKey(warehouseId, districtId), Some((orderIdStart, orderIdEnd)), true, 0)
  {
    res := Store.Scan(db, TABLE_NAME, PartitionKey(warehouseId, districtId), Some((orderIdStart, orderIdEnd)), true, 0);
  }

  /** createScan(warehouseId, districtId, orderId): the range scan from the order to itself. */
  method Scan(db: Db, warehouseId: int, districtId: int, orderId: int) returns (res: seq<Entry>)
    ensures res == ScanSpec(db, TABLE_NAME, PartitionKey(warehouseId, districtId), Some((orderId, orderId)), true, 0)
  {
    res := ScanRange(db, warehouseId, districtId, orderId, orderId);
  }

  /** Every row the single-order scan returns is a stored line of the district with that order id. */
  lemma ScanOnlyOrder(db: Db, warehouseId: int, districtId: int, orderId: int)
    ensures var res := ScanSpec(db, TABLE_NAME, PartitionKey(warehouseId, districtId), Some((orderId, orderId)), true, 0);
            forall i :: 0 <= i < |res| ==>
              && res[i].key in db && res[i].row == db[res[i].key]
              && res[i].key.table == TABLE_NAME && res[i].key.partition == PartitionKey(warehouseId, districtId)
              && FirstClusteringInt(res[i].key) == orderId
  {
    ScanRangeMembers(db, TABLE_NAME, PartitionKey(warehouseId, districtId), orderId, orderId, true, 0);
  }

  /** The single-order scan returns every stored line of the order. */
  lemma ScanAllLines(db: Db, warehouseId: int, districtId: int, orderId: int, number: int)
    requires KeyFor(warehouseId, districtId, orderId, number) in db
    ensures var res := ScanSpec(db, TABLE_NAME, PartitionKey(warehouseId, districtId), Some((orderId, orderId)), true, 0);
            exists i :: 0 <= i < |res| && res[i].key == KeyFor(warehouseId, districtId, orderId, number)
  {
    var k := KeyFor(warehouseId, districtId, orderId, number);
    assert k in Matching(db, TABLE_NAME, PartitionKey(warehouseId, districtId), Some((orderId, orderId)));
    ScanCoversMatching(db, TABLE_NAME, PartitionKey(warehouseId, districtId), Some((orderId, orderId)), k);
  }
}
