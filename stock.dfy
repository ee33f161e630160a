// The stock table: one row per (warehouse, item), with the quantity on hand,
// order counters and the ten per-district information strings s_dist_01..10.
module Stock {
  import opened Wrappers
  import opened Store
  import opened Records
  import opened Csv
  import opened TpccUtil
  import Text

  const TABLE_NAME: string := "stock"
  const KEY_WAREHOUSE_ID: string := "s_w_id"
  const KEY_ITEM_ID: string := "s_i_id"
  const KEY_QUANTITY: string := "s_quantity"
  const KEY_YTD: string := "s_ytd"
  const KEY_ORDER_CNT: string := "s_order_cnt"
  const KEY_REMOTE_CNT: string := "s_remote_cnt"
  const KEY_DATA: string := "s_data"
  const KEY_DIST_PREFIX: string := "s_dist_"
  const KEY_DISTRICT01: string := "s_dist_01"
  const KEY_DISTRICT02: string := "s_dist_02"
  const KEY_DISTRICT03: string := "s_dist_03"
  const KEY_DISTRICT04: string := "s_dist_04"
  const KEY_DISTRICT05: string := "s_dist_05"
  const KEY_DISTRICT06: string := "s_dist_06"
  const KEY_DISTRICT07: string := "s_dist_07"
  const KEY_DISTRICT08: string := "s_dist_08"
  const KEY_DISTRICT09: string := "s_dist_09"
  const KEY_DISTRICT10: string := "s_dist_10"

  const MIN_DATA: int := 26
  const MAX_DATA: int := 50
  const DIST_SIZE: int := 24

  /** createPartitionKey(warehouseId, itemId): s_w_id then s_i_id. */
  function PartitionKey(warehouseId: int, itemId: int): seq<Column>
  {
    [Column(KEY_WAREHOUSE_ID, IntV(warehouseId)), Column(KEY_ITEM_ID, IntV(itemId))]
  }

  /** The store key createGet(warehouseId, itemId) reads. */
  function KeyFor(warehouseId: int, itemId: int): Key
  {
    Key(TABLE_NAME, PartitionKey(warehouseId, itemId), [])
  }

  // ---- the district information columns ------------------------------------------

  /** The column the loaders write for loop index k: the prefix and k + 1 in two digits. */
  function DistName(k: int): string
    requires 0 <= k < 10
  {
    KEY_DIST_PREFIX + Text.ZeroPad(k + 1, 2)
  }

  lemma DistNameShape(k: int)
    requires 0 <= k < 10
    ensures |DistName(k)| == 9 && DistName(k)[7..] == Text.ZeroPad(k + 1, 2)
    ensures Text.DigitsValue(DistName(k)[7..]) == k + 1
  {
    assert Text.Pow10(2) == 100;
    Text.ZeroPadExact(k + 1, 2);
  }

  /** Different loop indexes name different columns. */
  lemma DistNameInjective(j: int, k: int)
    requires 0 <= j < 10 && 0 <= k < 10 && j != k
    ensures DistName(j) != DistName(k)
  {
    DistNameShape(j);
    DistNameShape(k);
  }

  /** Every district column name has nine characters, unlike the other stock columns. */
  lemma DistNamesShape()
    ensures forall k :: 0 <= k < 10 ==> |DistName(k)| == 9
  {
    forall k | 0 <= k < 10 ensures |DistName(k)| == 9 {
      DistNameShape(k);
    }
  }

  /**
   * getDistInfo's switch: the column holding the information string for a
   * district; an id outside 1..10 throws "No such district ID".
   */
  function DistKey(districtId: int): (r: Option<string>)
    ensures r.Some? <==> 1 <= districtId <= 10
    ensures r.Some? ==> r.value == DistName(districtId - 1)
  {
    if 1 <= districtId <= 9 then
      var d := Text.Digits(districtId);
      assert d == [Text.DigitChar(districtId)];
      assert Text.Zeros(1) == "0";
      Some(match districtId
           case 1 => KEY_DISTRICT01 case 2 => KEY_DISTRICT02 case 3 => KEY_DISTRICT03
           case 4 => KEY_DISTRICT04 case 5 => KEY_DISTRICT05 case 6 => KEY_DISTRICT06
           case 7 => KEY_DISTRICT07 case 8 => KEY_DISTRICT08 case _ => KEY_DISTRICT09)
    else if districtId == 10 then
      assert Text.Digits(10) == Text.Digits(1) + [Text.DigitChar(0)];
      assert Text.Zeros(0) == "";
      Some(KEY_DISTRICT10)
    else None
  }

  /** The district columns for the information strings `dists`, in loop order. */
  function DistEntries(dists: seq<string>): seq<(string, Field)>
    requires |dists| <= 10
  {
    seq(|dists|, j requires 0 <= j < |dists| => (DistName(j), FText(dists[j])))
  }

  /** Each district column of a value map ending in DistEntries(dists) holds its string. */
  lemma LookupDist(front: seq<(string, Field)>, dists: seq<string>, k: int)
    requires |dists| <= 10 && 0 <= k < |dists|
    ensures Lookup(front + DistEntries(dists), DistName(k)) == Some(FText(dists[k]))
  {
    var m := front + DistEntries(dists);
    forall j | |front| + k < j < |m| ensures m[j].0 != m[|front| + k].0 {
      DistNameInjective(j - |front|, k);
    }
    LookupAt(m, |front| + k);
  }

  /** A column of another length is not among the district columns. */
  lemma LookupBeforeDist(front: seq<(string, Field)>, dists: seq<string>, name: string)
    requires |dists| <= 10 && |name| != 9
    ensures Lookup(front + DistEntries(dists), name) == Lookup(front, name)
  {
    DistNamesShape();
    LookupAppend(front, DistEntries(dists), name);
  }

  // ---- constructors ---------------------------------------------------------------

  /** The new-order update: quantity, ytd and the two counters, and no other column. */
  function WithCounts(warehouseId: int, itemId: int, quantity: int, ytd: real,
                      orderCount: int, remoteCount: int): (r: Record)
    ensures WellFormed(r) && KeyOf(r) == KeyFor(warehouseId, itemId)
    ensures ValueColumns(r.valueMap) == CountColumns(quantity, ytd, orderCount, remoteCount)
  {
    ScalarKey2(KEY_WAREHOUSE_ID, FInt(warehouseId), KEY_ITEM_ID, FInt(itemId));
    var values := [(KEY_QUANTITY, FInt(quantity)), (KEY_YTD, FDouble(ytd)),
                   (KEY_ORDER_CNT, FInt(orderCount)), (KEY_REMOTE_CNT, FInt(remoteCount))];
    ValueColumnsOfScalars(values);
    Record(TABLE_NAME, [(KEY_WAREHOUSE_ID, FInt(warehouseId)), (KEY_ITEM_ID, FInt(itemId))], [], values)
  }
  /** The columns the counter update writes, in order. */
  function CountColumns(quantity: int, ytd: real, orderCount: int, remoteCount: int): seq<Column>
  {
    [Column(KEY_QUANTITY, IntV(quantity)), Column(KEY_YTD, DoubleV(ytd)),
     Column(KEY_ORDER_CNT, IntV(orderCount)), Column(KEY_REMOTE_CNT, IntV(remoteCount))]
  }

  /** Putting the counter update is a put of its columns under the stock key. */
  lemma WithCountsPut(db: Db, warehouseId: int, itemId: int, quantity: int, ytd: real, orderCount: int, remoteCount: int)
    ensures ApplyPut(db, WithCounts(warehouseId, itemId, quantity, ytd, orderCount, remoteCount))
            == Put(db, KeyFor(warehouseId, itemId), CountColumns(quantity, ytd, orderCount, remoteCount))
  {
  }

  /** A counter update reads back the quantity, ytd, order count and remote count it writes. */
  lemma CountColumnsReadBack(db: Db, k: Key, quantity: int, ytd: real, orderCount: int, remoteCount: int)
    ensures var db' := Put(db, k, CountColumns(quantity, ytd, orderCount, remoteCount));
            && Holds(db', k, KEY_QUANTITY, IntV(quantity))
            && Holds(db', k, KEY_YTD, DoubleV(ytd))
            && Holds(db', k, KEY_ORDER_CNT, IntV(orderCount))
            && Holds(db', k, KEY_REMOTE_CNT, IntV(remoteCount))
  {
    var cols := CountColumns(quantity, ytd, orderCount, remoteCount);
    PutReadsBackAt(db, k, cols, 0);
    PutReadsBackAt(db, k, cols, 1);
    PutReadsBackAt(db, k, cols, 2);
    PutReadsBackAt(db, k, cols, 3);
  }

  /**
   * The generating constructor: a quantity drawn in [10, 100], ytd 0.00, both
   * counters 0, data of 26..50 characters (with "ORIGINAL" one time in ten),
   * then one 24-character information string per district, in a loop.
   */
  method Generated(warehouseId: int, itemId: int, quantity: int,
                   dataBase: string, originalDraw: int, originalStart: int, dists: seq<string>)
    returns (r: Record)
    requires 10 <= quantity <= 100
    requires OriginalDraws(dataBase, MIN_DATA, MAX_DATA, 10, originalDraw, originalStart)
    requires |dists| == 10 && forall k :: 0 <= k < 10 ==> IsAlphaString(dists[k], DIST_SIZE, DIST_SIZE)
    ensures WellFormed(r) && KeyOf(r) == KeyFor(warehouseId, itemId)
    ensures Lookup(r.valueMap, KEY_QUANTITY) == Some(FInt(quantity))
    ensures Lookup(r.valueMap, KEY_YTD) == Some(FDouble(0.0))
    ensures Lookup(r.valueMap, KEY_ORDER_CNT) == Some(FInt(0))
    ensures Lookup(r.valueMap, KEY_REMOTE_CNT) == Some(FInt(0))
    ensures var data := Lookup(r.valueMap, KEY_DATA);
            data.Some? && data.value.FText? && IsAlphaString(data.value.s, MIN_DATA, MAX_DATA)
    ensures forall k :: 0 <= k < 10 ==> Lookup(r.valueMap, DistName(k)) == Some(FText(dists[k]))
  {
    var data := RandomStringWithOriginal(dataBase, 10, originalDraw, originalStart);
    WithOriginalIsAlpha(dataBase, MIN_DATA, MAX_DATA, 10, originalDraw, originalStart);
    var front := [(KEY_QUANTITY, FInt(quantity)), (KEY_YTD, FDouble(0.0)), (KEY_ORDER_CNT, FInt(0)),
                  (KEY_REMOTE_CNT, FInt(0)), (KEY_DATA, FText(data))];
    var values := front;
    for k := 0 to 10
      invariant values == front + DistEntries(dists[..k])
    {
      values := values + [(DistName(k), FText(dists[k]))];
      assert dists[..k + 1] == dists[..k] + [dists[k]];
    }
    assert dists[..10] == dists;
    forall k | 0 <= k < 10 ensures Lookup(values, DistName(k)) == Some(FText(dists[k])) {
      LookupDist(front, dists, k);
    }
    FrontLookups(front, dists, quantity, 0.0, 0, 0, data);
    ScalarKey2(KEY_WAREHOUSE_ID, FInt(warehouseId), KEY_ITEM_ID, FInt(itemId));
    r := Record(TABLE_NAME, [(KEY_WAREHOUSE_ID, FInt(warehouseId)), (KEY_ITEM_ID, FInt(itemId))], [], values);
  }

  /** The five leading columns of a loaded or generated stock row are found under their names. */
  lemma FrontLookups(front: seq<(string, Field)>, dists: seq<string>,
                     quantity: int, ytd: real, orderCount: int, remoteCount: int, data: string)
    requires |dists| <= 10
    requires front == [(KEY_QUANTITY, FInt(quantity)), (KEY_YTD, FDouble(ytd)), (KEY_ORDER_CNT, FInt(orderCount)),
                       (KEY_REMOTE_CNT, FInt(remoteCount)), (KEY_DATA, FText(data))]
    ensures var m := front + DistEntries(dists);
            && Lookup(m, KEY_QUANTITY) == Some(FInt(quantity))
            && Lookup(m, KEY_YTD) == Some(FDouble(ytd))
            && Lookup(m, KEY_ORDER_CNT) == Some(FInt(orderCount))
            && Lookup(m, KEY_REMOTE_CNT) == Some(FInt(remoteCount))
            && Lookup(m, KEY_DATA) == Some(FText(data))
  {
    LookupBeforeDist(front, dists, KEY_QUANTITY);
    LookupBeforeDist(front, dists, KEY_YTD);
    LookupBeforeDist(front, dists, KEY_ORDER_CNT);
    LookupBeforeDist(front, dists, KEY_REMOTE_CNT);
    LookupBeforeDist(front, dists, KEY_DATA);
    LookupAt(front, 0);
    LookupAt(front, 1);
    LookupAt(front, 2);
    LookupAt(front, 3);
    LookupAt(front, 4);
  }

  /** The columns the CSV constructor reads before the district columns. */
  const CSV_COLUMNS: seq<(string, Kind)> :=
    [(KEY_WAREHOUSE_ID, KInt), (KEY_ITEM_ID, KInt), (KEY_QUANTITY, KInt), (KEY_YTD, KDouble),
     (KEY_ORDER_CNT, KInt), (KEY_REMOTE_CNT, KInt), (KEY_DATA, KText)]

  /** The loop over the ten district columns of a CSV row: their cells in order, or None at the first missing one. */
  method ReadDists(row: CsvRow) returns (dists: Option<seq<string>>)
    ensures dists.Some? <==> forall k :: 0 <= k < 10 ==> DistName(k) in row
    ensures dists.Some? ==> |dists.value| == 10 && forall k :: 0 <= k < 10 ==> dists.value[k] == row[DistName(k)]
  {
    var read: seq<string> := [];
    for k := 0 to 10
      invariant |read| == k
      invariant forall j :: 0 <= j < k ==> DistName(j) in row && read[j] == row[DistName(j)]
    {
      var cell := Cell(row, DistName(k));
      if cell.None? {
        return None;
      }
      read := read + [cell.value];
    }
    dists := Some(read);
  }

  /**
   * The CSV constructor: the fixed columns, then the ten district columns in a
   * loop; a missing column or a number that does not parse fails the row.
   */
  method FromCsv(row: CsvRow, p: Parsers) returns (r: Option<Record>)
    ensures r.Some? <==> AllReadable(row, CSV_COLUMNS, p) && forall k :: 0 <= k < 10 ==> DistName(k) in row
    ensures r.Some? ==> GetInt(row, KEY_WAREHOUSE_ID).Some? && GetInt(row, KEY_ITEM_ID).Some? &&
                        WellFormed(r.value) &&
                        KeyOf(r.value) == KeyFor(GetInt(row, KEY_WAREHOUSE_ID).value, GetInt(row, KEY_ITEM_ID).value)
    ensures r.Some? ==> forall k :: 0 <= k < 10 ==> Lookup(r.value.valueMap, DistName(k)) == Some(FText(row[DistName(k)]))
    ensures r.Some? ==>
              var m := r.value.valueMap;
              && GetInt(row, KEY_QUANTITY).Some? && Lookup(m, KEY_QUANTITY) == Some(FInt(GetInt(row, KEY_QUANTITY).value))
              && GetDouble(row, KEY_YTD, p).Some? && Lookup(m, KEY_YTD) == Some(FDouble(GetDouble(row, KEY_YTD, p).value))
              && GetInt(row, KEY_ORDER_CNT).Some? && Lookup(m, KEY_ORDER_CNT) == Some(FInt(GetInt(row, KEY_ORDER_CNT).value))
              && GetInt(row, KEY_REMOTE_CNT).Some? && Lookup(m, KEY_REMOTE_CNT) == Some(FInt(GetInt(row, KEY_REMOTE_CNT).value))
              && KEY_DATA in row && Lookup(m, KEY_DATA) == Some(FText(row[KEY_DATA]))
  {
    var cells := ReadCells(row, CSV_COLUMNS, p);
    if cells.None? {
      return None;
    }
    var dists := ReadDists(row);
    if dists.None? {
      return None;
    }
    var f := cells.value;
    var front := [(KEY_QUANTITY, f[2]), (KEY_YTD, f[3]), (KEY_ORDER_CNT, f[4]), (KEY_REMOTE_CNT, f[5]), (KEY_DATA, f[6])];
    forall k | 0 <= k < 10 ensures Lookup(front + DistEntries(dists.value), DistName(k)) == Some(FText(row[DistName(k)])) {
      LookupDist(front, dists.value, k);
    }
    ReadInt(row, CSV_COLUMNS, p, 2);
    assert Some(f[3]) == ReadCell(row, KEY_YTD, KDouble, p);
    ReadInt(row, CSV_COLUMNS, p, 4);
    ReadInt(row, CSV_COLUMNS, p, 5);
    ReadText(row, CSV_COLUMNS, p, 6);
    FrontLookups(front, dists.value, GetInt(row, KEY_QUANTITY).value, GetDouble(row, KEY_YTD, p).value,
                 GetInt(row, KEY_ORDER_CNT).value, GetInt(row, KEY_REMOTE_CNT).value, row[KEY_DATA]);
    CsvKey(row, p);
    r := Some(Record(TABLE_NAME, [(KEY_WAREHOUSE_ID, f[0]), (KEY_ITEM_ID, f[1])], [], front + DistEntries(dists.value)));
  }

  /** The key columns of a readable stock row are its two id cells read as ints. */
  lemma CsvKey(row: CsvRow, p: Parsers)
    requires ReadCells(row, CSV_COLUMNS, p).Some?
    ensures GetInt(row, KEY_WAREHOUSE_ID).Some? && GetInt(row, KEY_ITEM_ID).Some?
    ensures var f := ReadCells(row, CSV_COLUMNS, p).value;
            var key := [(KEY_WAREHOUSE_ID, f[0]), (KEY_ITEM_ID, f[1])];
            KeyMap(key) &&
            KeyColumnsOf(key) == PartitionKey(GetInt(row, KEY_WAREHOUSE_ID).value, GetInt(row, KEY_ITEM_ID).value)
  {
    var f := ReadCells(row, CSV_COLUMNS, p).value;
    assert Some(f[0]) == ReadCell(row, KEY_WAREHOUSE_ID, KInt, p);
    assert Some(f[1]) == ReadCell(row, KEY_ITEM_ID, KInt, p);
    ScalarKey2(KEY_WAREHOUSE_ID, FInt(GetInt(row, KEY_WAREHOUSE_ID).value), KEY_ITEM_ID, FInt(GetInt(row, KEY_ITEM_ID).value));
  }
}
