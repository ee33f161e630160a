// The item table: the catalogue of 100000 items, keyed by i_id.
module Item {
  import opened Wrappers
  import opened Store
  import opened Records
  import opened Csv
  import opened TpccUtil

  const TABLE_NAME: string := "item"
  const KEY_ID: string := "i_id"
  const KEY_NAME: string := "i_name"
  const KEY_PRICE: string := "i_price"
  const KEY_DATA: string := "i_data"
  const KEY_IM_ID: string := "i_im_id"

  const ITEMS: int := 100000
  const MIN_NAME: int := 14
  const MAX_NAME: int := 24
  const MIN_DATA: int := 26
  const MAX_DATA: int := 50
  /** The item id new-order uses to force a rollback: no item has it in the run. */
  const UNUSED_ID: int := 1

  /** createPartitionKey(itemId): the single column i_id. */
  function PartitionKey(itemId: int): seq<Column>
  {
    [Column(KEY_ID, IntV(itemId))]
  }

  function KeyFor(itemId: int): Key
  {
    Key(TABLE_NAME, PartitionKey(itemId), [])
  }

  /**
   * The generated item: a name of 14..24 characters, a price of draw / 100
   * for a draw in [100, 1000], data of 26..50 characters that holds "ORIGINAL"
   * in one case out of ten, and an image id in [1, 10000].
   */
  function Generated(itemId: int, name: string, priceDraw: int,
                     dataBase: string, originalDraw: int, originalStart: int, imageId: int): (r: Record)
    requires IsAlphaString(name, MIN_NAME, MAX_NAME)
    requires 100 <= priceDraw <= 1000
    requires OriginalDraws(dataBase, MIN_DATA, MAX_DATA, 10, originalDraw, originalStart)
    requires 1 <= imageId <= 10000
    ensures WellFormed(r) && KeyOf(r) == KeyFor(itemId)
    ensures Lookup(r.valueMap, KEY_NAME) == Some(FText(name))
    ensures var price := Lookup(r.valueMap, KEY_PRICE);
            price.Some? && price.value.FDouble? && 1.0 <= price.value.d <= 10.0
    ensures var data := Lookup(r.valueMap, KEY_DATA);
            data.Some? && data.value.FText? && IsAlphaString(data.value.s, MIN_DATA, MAX_DATA)
    ensures var im := Lookup(r.valueMap, KEY_IM_ID);
            im.Some? && im.value.FInt? && 1 <= im.value.i <= 10000
  {
    var data := RandomStringWithOriginal(dataBase, 10, originalDraw, originalStart);
    WithOriginalIsAlpha(dataBase, MIN_DATA, MAX_DATA, 10, originalDraw, originalStart);
    var values := [(KEY_NAME, FText(name)), (KEY_PRICE, FDouble(RandomDouble(100, 1000, 100, priceDraw))),
                   (KEY_DATA, FText(data)), (KEY_IM_ID, FInt(imageId))];
    LookupAt(values, 0);
    LookupAt(values, 1);
    LookupAt(values, 2);
    LookupAt(values, 3);
    ScalarKey1(KEY_ID, FInt(itemId));
    Record(TABLE_NAME, [(KEY_ID, FInt(itemId))], [], values)
  }

  const CSV_COLUMNS: seq<(string, Kind)> :=
    [(KEY_ID, KInt), (KEY_NAME, KText), (KEY_PRICE, KDouble), (KEY_DATA, KText), (KEY_IM_ID, KInt)]

  /** The CSV constructor: fails when a column is missing or a number does not parse. */
  function FromCsv(row: CsvRow, p: Parsers): (r: Option<Record>)
    ensures r.Some? <==> AllReadable(row, CSV_COLUMNS, p)
  {
    var f :- ReadCells(row, CSV_COLUMNS, p);
    Some(Record(TABLE_NAME, [(KEY_ID, f[0])], [], [(KEY_NAME, f[1]), (KEY_PRICE, f[2]), (KEY_DATA, f[3]), (KEY_IM_ID, f[4])]))
  }

  /** A loaded item is keyed by its i_id cell read as an int, and keeps its i_data cell as text. */
  lemma FromCsvKey(row: CsvRow, p: Parsers)
    requires FromCsv(row, p).Some?
    ensures GetInt(row, KEY_ID).Some? && KEY_DATA in row
    ensures var r := FromCsv(row, p).value;
            WellFormed(r) && KeyOf(r) == KeyFor(GetInt(row, KEY_ID).value) &&
            Lookup(r.valueMap, KEY_DATA) == Some(FText(row[KEY_DATA]))
  {
    var f := ReadCells(row, CSV_COLUMNS, p).value;
    assert Some(f[0]) == ReadCell(row, KEY_ID, KInt, p);
    assert Some(f[3]) == ReadCell(row, KEY_DATA, KText, p);
    var r := FromCsv(row, p).value;
    assert r.partitionKeyMap == [(KEY_ID, FInt(GetInt(row, KEY_ID).value))];
    ScalarKey1(KEY_ID, FInt(GetInt(row, KEY_ID).value));
    LookupAt(r.valueMap, 2);
  }
}
