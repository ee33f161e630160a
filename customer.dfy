// The customer table: 3000 customers per district, keyed by (c_w_id, c_d_id,
// c_id), with a secondary index column c_index that concatenates the padded
// warehouse and district ids with the last name.
module Customer {
  import opened Wrappers
  import opened Store
  import opened Records
  import opened Csv
  import opened TpccUtil
  import Text

  const TABLE_NAME: string := "customer"
  const COLUMN_PREFIX: string := "c_"
  const KEY_WAREHOUSE_ID: string := "c_w_id"
  const KEY_DISTRICT_ID: string := "c_d_id"
  const KEY_ID: string := "c_id"
  const KEY_FIRST: string := "c_first"
  const KEY_MIDDLE: string := "c_middle"
  const KEY_LAST: string := "c_last"
  const KEY_DISCOUNT: string := "c_discount"
  const KEY_CREDIT: string := "c_credit"
  const KEY_CREDIT_LIM: string := "c_credit_lim"
  const KEY_BALANCE: string := "c_balance"
  const KEY_YTD_PAYMENT: string := "c_ytd_payment"
  const KEY_PAYMENT_CNT: string := "c_payment_cnt"
  const KEY_DELIVERY_CNT: string := "c_delivery_cnt"
  const KEY_ADDRESS: string := "c_address"
  const KEY_STREET_1: string := "c_street_1"
  const KEY_STREET_2: string := "c_street_2"
  const KEY_CITY: string := "c_city"
  const KEY_STATE: string := "c_state"
  const KEY_ZIP: string := "c_zip"
  const KEY_PHONE: string := "c_phone"
  const KEY_SINCE: string := "c_since"
  const KEY_DATA: string := "c_data"
  const KEY_INDEX: string := "c_index"

  const UNUSED_ID: int := 0
  const MIN_FIRST: int := 8
  const MAX_FIRST: int := 16
  const MIN_DATA: int := 300
  const MAX_DATA: int := 500
  const PHONE_SIZE: int := 16

  /** createPartitionKey(warehouseId, districtId, customerId). */
  function PartitionKey(warehouseId: int, districtId: int, customerId: int): seq<Column>
  {
    [Column(KEY_WAREHOUSE_ID, IntV(warehouseId)), Column(KEY_DISTRICT_ID, IntV(districtId)),
     Column(KEY_ID, IntV(customerId))]
  }

  /** The store key createGet(warehouseId, districtId, customerId) reads. */
  function KeyFor(warehouseId: int, districtId: int, customerId: int): Key
  {
    Key(TABLE_NAME, PartitionKey(warehouseId, districtId, customerId), [])
  }

  // ---- the index column ------------------------------------------------------------

  /** createIndexString: the warehouse id in five digits, the district id in three, then the last name. */
  function IndexString(warehouseId: int, districtId: int, last: string): string
  {
    Text.ZeroPad(warehouseId, 5) + Text.ZeroPad(districtId, 3) + last
  }

  /**
   * For ids that fit their widths, the index string determines the warehouse,
   * the district and the last name: customers of different districts or names
   * never share an index value.
   */
  lemma IndexStringInjective(w1: int, d1: int, last1: string, w2: int, d2: int, last2: string)
    requires 0 <= w1 < 100000 && 0 <= w2 < 100000 && 0 <= d1 < 1000 && 0 <= d2 < 1000
    requires IndexString(w1, d1, last1) == IndexString(w2, d2, last2)
    ensures w1 == w2 && d1 == d2 && last1 == last2
  {
    IndexStringParts(w1, d1, last1);
    IndexStringParts(w2, d2, last2);
  }

  /** The three parts of an index string can be cut back out of it, and the padded ids read back. */
  lemma IndexStringParts(w: int, d: int, last: string)
    requires 0 <= w < 100000 && 0 <= d < 1000
    ensures var s := IndexString(w, d, last);
            && |s| == 8 + |last| && s[8..] == last
            && (forall i :: 0 <= i < 5 ==> Text.IsDigit(s[..5][i])) && Text.DigitsValue(s[..5]) == w
            && (forall i :: 0 <= i < 3 ==> Text.IsDigit(s[5..8][i])) && Text.DigitsValue(s[5..8]) == d
  {
    assert Text.Pow10(3) == 1000;
    assert Text.Pow10(5) == 100000;
    Text.ZeroPadExact(w, 5);
    Text.ZeroPadExact(d, 3);
    var s := IndexString(w, d, last);
    assert s[..5] == Text.ZeroPad(w, 5);
    assert s[5..8] == Text.ZeroPad(d, 3);
  }

  /** The createScan(warehouseId, districtId, lastName) index lookup: customers whose c_index holds the string. */
  method Scan(db: Db, warehouseId: int, districtId: int, last: string) returns (res: seq<Entry>)
    ensures res == IndexScanSpec(db, TABLE_NAME, KEY_INDEX, TextV(IndexString(warehouseId, districtId, last)))
  {
    res := IndexScan(db, TABLE_NAME, KEY_INDEX, TextV(IndexString(warehouseId, districtId, last)));
  }

  /**
   * buildIndexColumn: adds c_index computed from the partition key's warehouse
   * and district ids and the c_last value.  The ids are unboxed, so a missing or
   * non-int id throws; a missing last name is concatenated as "null".
   */
  function WithIndexColumn(r: Record): (res: Option<Record>)
    ensures res.Some? <==> Lookup(r.partitionKeyMap, KEY_WAREHOUSE_ID).Some? &&
                           Lookup(r.partitionKeyMap, KEY_WAREHOUSE_ID).value.FInt? &&
                           Lookup(r.partitionKeyMap, KEY_DISTRICT_ID).Some? &&
                           Lookup(r.partitionKeyMap, KEY_DISTRICT_ID).value.FInt? &&
                           (Lookup(r.valueMap, KEY_LAST).None? || Lookup(r.valueMap, KEY_LAST).value.FText?)
    ensures res.Some? ==>
              var last := if Lookup(r.valueMap, KEY_LAST).None? then "null" else Lookup(r.valueMap, KEY_LAST).value.s;
              && res.value.table == r.table
              && res.value.partitionKeyMap == r.partitionKeyMap
              && res.value.clusteringKeyMap == r.clusteringKeyMap
              && Lookup(res.value.valueMap, KEY_INDEX) ==
                   Some(FText(IndexString(Lookup(r.partitionKeyMap, KEY_WAREHOUSE_ID).value.i,
                                          Lookup(r.partitionKeyMap, KEY_DISTRICT_ID).value.i, last)))
              && forall n :: n != KEY_INDEX ==> Lookup(res.value.valueMap, n) == Lookup(r.valueMap, n)
  {
    var w := Lookup(r.partitionKeyMap, KEY_WAREHOUSE_ID);
    var d := Lookup(r.partitionKeyMap, KEY_DISTRICT_ID);
    var last := Lookup(r.valueMap, KEY_LAST);
    if w.None? || !w.value.FInt? || d.None? || !d.value.FInt? then None
    else if last.Some? && !last.value.FText? then None
    else
      var name := if last.None? then "null" else last.value.s;
      var values := r.valueMap + [(KEY_INDEX, FText(IndexString(w.value.i, d.value.i, name)))];
      assert values[..|values| - 1] == r.valueMap;
      Some(r.(valueMap := values))
  }

  // ---- constructors -------------------------------------------------------------

  /** The payment update: balance, ytd payment and payment count, and c_data when it is not null. */
  function ForPayment(warehouseId: int, districtId: int, customerId: int,
                      balance: real, ytdPayment: real, paymentCount: int, data: Option<string>): (r: Record)
    ensures WellFormed(r) && KeyOf(r) == KeyFor(warehouseId, districtId, customerId)
    ensures ValueColumns(r.valueMap) == PaymentColumns(balance, ytdPayment, paymentCount, data)
  {
    ScalarKey3(KEY_WAREHOUSE_ID, FInt(warehouseId), KEY_DISTRICT_ID, FInt(districtId), KEY_ID, FInt(customerId));
    var values := [(KEY_BALANCE, FDouble(balance)), (KEY_YTD_PAYMENT, FDouble(ytdPayment)),
                   (KEY_PAYMENT_CNT, FInt(paymentCount)), (KEY_DATA, if data.Some? then FText(data.value) else FNull)];
    var front := values[..3];
    ValueColumnsOfScalars(front);
    assert ValueColumns(front) == [Column(KEY_BALANCE, DoubleV(balance)), Column(KEY_YTD_PAYMENT, DoubleV(ytdPayment)),
                                   Column(KEY_PAYMENT_CNT, IntV(paymentCount))];
    assert values[..|values| - 1] == front;
    Record(TABLE_NAME, [(KEY_WAREHOUSE_ID, FInt(warehouseId)), (KEY_DISTRICT_ID, FInt(districtId)),
                        (KEY_ID, FInt(customerId))], [], values)
  }

  /** The delivery update: balance and delivery count only. */
  function ForDelivery(warehouseId: int, districtId: int, customerId: int,
                       balance: real, deliveryCount: int): (r: Record)
    ensures WellFormed(r) && KeyOf(r) == KeyFor(warehouseId, districtId, customerId)
    ensures ValueColumns(r.valueMap) == DeliveryColumns(balance, deliveryCount)
  {
    ScalarKey3(KEY_WAREHOUSE_ID, FInt(warehouseId), KEY_DISTRICT_ID, FInt(districtId), KEY_ID, FInt(customerId));
    var values := [(KEY_BALANCE, FDouble(balance)), (KEY_DELIVERY_CNT, FInt(deliveryCount))];
    ValueColumnsOfScalars(values);
    Record(TABLE_NAME, [(KEY_WAREHOUSE_ID, FInt(warehouseId)), (KEY_DISTRICT_ID, FInt(districtId)),
                        (KEY_ID, FInt(customerId))], [], values)
  }

  /** The columns of a payment update: balance, ytd payment, payment count, then c_data when given. */
  function PaymentColumns(balance: real, ytdPayment: real, paymentCount: int, data: Option<string>): seq<Column>
  {
    [Column(KEY_BALANCE, DoubleV(balance)), Column(KEY_YTD_PAYMENT, DoubleV(ytdPayment)),
     Column(KEY_PAYMENT_CNT, IntV(paymentCount))] +
    (if data.Some? then [Column(KEY_DATA, TextV(data.value))] else [])
  }

  /** Putting the payment record is a put of its columns under the customer's key. */
  lemma ForPaymentPut(db: Db, warehouseId: int, districtId: int, customerId: int,
                      balance: real, ytdPayment: real, paymentCount: int, data: Option<string>)
    ensures ApplyPut(db, ForPayment(warehouseId, districtId, customerId, balance, ytdPayment, paymentCount, data))
            == Put(db, KeyFor(warehouseId, districtId, customerId), PaymentColumns(balance, ytdPayment, paymentCount, data))
  {
  }

  /**
   * A payment put reads back its balance, ytd payment and count, and c_data
   * when given; without data the row's c_data is what it was.
   */
  lemma PaymentColumnsReadBack(db: Db, k: Key, balance: real, ytdPayment: real, paymentCount: int,
                               data: Option<string>)
    ensures var db' := Put(db, k, PaymentColumns(balance, ytdPayment, paymentCount, data));
            && Holds(db', k, KEY_BALANCE, DoubleV(balance))
            && Holds(db', k, KEY_YTD_PAYMENT, DoubleV(ytdPayment))
            && Holds(db', k, KEY_PAYMENT_CNT, IntV(paymentCount))
            && (data.Some? ==> Holds(db', k, KEY_DATA, TextV(data.value)))
  {
    var cols := PaymentColumns(balance, ytdPayment, paymentCount, data);
    PutReadsBackAt(db, k, cols, 0);
    PutReadsBackAt(db, k, cols, 1);
    PutReadsBackAt(db, k, cols, 2);
    if data.Some? {
      PutReadsBackAt(db, k, cols, 3);
    }
  }

  /** The columns of a delivery update: balance and delivery count. */
  function DeliveryColumns(balance: real, deliveryCount: int): seq<Column>
  {
    [Column(KEY_BALANCE, DoubleV(balance)), Column(KEY_DELIVERY_CNT, IntV(deliveryCount))]
  }

  /** Putting the delivery record is a put of its columns under the customer's key. */
  lemma ForDeliveryPut(db: Db, warehouseId: int, districtId: int, customerId: int, balance: real, deliveryCount: int)
    ensures ApplyPut(db, ForDelivery(warehouseId, districtId, customerId, balance, deliveryCount))
            == Put(db, KeyFor(warehouseId, districtId, customerId), DeliveryColumns(balance, deliveryCount))
  {
  }

  /** A delivery put reads back its balance and delivery count. */
  lemma DeliveryColumnsReadBack(db: Db, k: Key, balance: real, deliveryCount: int)
    ensures var db' := Put(db, k, DeliveryColumns(balance, deliveryCount));
            && Holds(db', k, KEY_BALANCE, DoubleV(balance))
            && Holds(db', k, KEY_DELIVERY_CNT, IntV(deliveryCount))
  {
    PutReadsBackAt(db, k, DeliveryColumns(balance, deliveryCount), 0);
    PutReadsBackAt(db, k, DeliveryColumns(balance, deliveryCount), 1);
  }

  /** The last name the generating constructor gives customer `customerId`. */
  function GeneratedLastName(customerId: int, x: int, y: int): (last: string)
    requires customerId >= 1 && 0 <= x <= 255 && 0 <= y <= 999
    ensures customerId <= 1000 ==> last == LastName(customerId - 1)
    ensures exists n :: 0 <= n <= 999 && last == LastName(n)
  {
    if customerId <= 1000 then LastName(customerId - 1) else RandomLastName(true, x, y)
  }

  /**
   * The generating constructor.  The first 1000 customers of a district get
   * the last names of 0..999 in order, the others a NURand(255, 0, 999) name
   * with the load constant; one customer in ten has bad credit ("BC").
   */
  function Generated(warehouseId: int, districtId: int, customerId: int, date: int,
                     first: string, lastX: int, lastY: int, discountDraw: int, creditDraw: int,
                     address: Address, phone: string, data: string): (r: Record)
    requires customerId >= 1 && 0 <= lastX <= 255 && 0 <= lastY <= 999
    requires IsAlphaString(first, MIN_FIRST, MAX_FIRST)
    requires 0 <= discountDraw <= 5000 && 0 <= creditDraw <= 99
    requires ValidGeneratedAddress(address) && address.prefix == COLUMN_PREFIX
    requires IsNumberString(phone, PHONE_SIZE, PHONE_SIZE) && IsAlphaString(data, MIN_DATA, MAX_DATA)
    ensures WellFormed(r) && KeyOf(r) == KeyFor(warehouseId, districtId, customerId)
    ensures Lookup(r.valueMap, KEY_LAST) == Some(FText(GeneratedLastName(customerId, lastX, lastY)))
    ensures Lookup(r.valueMap, KEY_CREDIT) == Some(FText(if creditDraw < 10 then "BC" else "GC"))
    ensures var disc := Lookup(r.valueMap, KEY_DISCOUNT);
            disc.Some? && disc.value.FDouble? && 0.0 <= disc.value.d <= 0.5
    ensures Lookup(r.valueMap, KEY_BALANCE) == Some(FDouble(10.0))
    ensures Lookup(r.valueMap, KEY_PAYMENT_CNT) == Some(FInt(1))
    ensures Lookup(r.valueMap, KEY_DELIVERY_CNT) == Some(FInt(0))
  {
    var values := Values(FText(first), FText("OE"), FText(GeneratedLastName(customerId, lastX, lastY)),
                         FDouble(RandomDouble(0, 5000, 10000, discountDraw)),
                         FText(if creditDraw < 10 then "BC" else "GC"), FDouble(50000.0), FDouble(10.0), FDouble(10.0),
                         FInt(1), FInt(0), address, FText(phone), FDate(date), FText(data));
    ScalarKey3(KEY_WAREHOUSE_ID, FInt(warehouseId), KEY_DISTRICT_ID, FInt(districtId), KEY_ID, FInt(customerId));
    Record(TABLE_NAME, [(KEY_WAREHOUSE_ID, FInt(warehouseId)), (KEY_DISTRICT_ID, FInt(districtId)),
                        (KEY_ID, FInt(customerId))], [], values)
  }

  /** The value map both constructors fill, in their insertion order; every name occurs once. */
  function Values(first: Field, middle: Field, last: Field, discount: Field, credit: Field, creditLim: Field,
                  balance: Field, ytdPayment: Field, paymentCount: Field, deliveryCount: Field, address: Address,
                  phone: Field, data: Field, since: Field): (m: seq<(string, Field)>)
    ensures Lookup(m, KEY_LAST) == Some(last)
    ensures Lookup(m, KEY_DISCOUNT) == Some(discount)
    ensures Lookup(m, KEY_CREDIT) == Some(credit)
    ensures Lookup(m, KEY_BALANCE) == Some(balance)
    ensures Lookup(m, KEY_PAYMENT_CNT) == Some(paymentCount)
    ensures Lookup(m, KEY_DELIVERY_CNT) == Some(deliveryCount)
  {
    var m := [(KEY_FIRST, first), (KEY_MIDDLE, middle), (KEY_LAST, last), (KEY_DISCOUNT, discount),
              (KEY_CREDIT, credit), (KEY_CREDIT_LIM, creditLim), (KEY_BALANCE, balance), (KEY_YTD_PAYMENT, ytdPayment),
              (KEY_PAYMENT_CNT, paymentCount), (KEY_DELIVERY_CNT, deliveryCount), (KEY_ADDRESS, FAddress(address)),
              (KEY_PHONE, phone), (KEY_DATA, data), (KEY_SINCE, since)];
    LookupAt(m, 2);
    LookupAt(m, 3);
    LookupAt(m, 4);
    LookupAt(m, 6);
    LookupAt(m, 8);
    LookupAt(m, 9);
    m
  }

  const CSV_COLUMNS: seq<(string, Kind)> :=
    [(KEY_WAREHOUSE_ID, KInt), (KEY_DISTRICT_ID, KInt), (KEY_ID, KInt),
     (KEY_FIRST, KText), (KEY_MIDDLE, KText), (KEY_LAST, KText), (KEY_DISCOUNT, KDouble), (KEY_CREDIT, KText),
     (KEY_CREDIT_LIM, KDouble), (KEY_BALANCE, KDouble), (KEY_YTD_PAYMENT, KDouble),
     (KEY_PAYMENT_CNT, KInt), (KEY_DELIVERY_CNT, KInt),
     (KEY_STREET_1, KText), (KEY_STREET_2, KText), (KEY_CITY, KText), (KEY_STATE, KText), (KEY_ZIP, KText),
     (KEY_PHONE, KText), (KEY_DATA, KText), (KEY_SINCE, KDate)]

  /** The record the CSV constructor builds from the cells of CSV_COLUMNS, read in order. */
  function FromFields(f: seq<Field>): Record
    requires |f| == |CSV_COLUMNS|
  {
    var address := Address(COLUMN_PREFIX, FieldText(f[13]), FieldText(f[14]), FieldText(f[15]),
                           FieldText(f[16]), FieldText(f[17]));
    Record(TABLE_NAME, [(KEY_WAREHOUSE_ID, f[0]), (KEY_DISTRICT_ID, f[1]), (KEY_ID, f[2])], [],
      Values(f[3], f[4], f[5], f[6], f[7], f[8], f[9], f[10], f[11], f[12], address, f[18], f[19], f[20]))
  }

  /** The CSV constructor: fails when a column is missing, a number does not parse or c_since is not a date. */
  function FromCsv(row: CsvRow, p: Parsers): (r: Option<Record>)
    ensures r.Some? <==> AllReadable(row, CSV_COLUMNS, p)
  {
    var f :- ReadCells(row, CSV_COLUMNS, p);
    Some(FromFields(f))
  }

  /** A loaded customer is keyed by its three id cells read as ints. */
  lemma FromCsvKey(row: CsvRow, p: Parsers)
    requires FromCsv(row, p).Some?
    ensures GetInt(row, KEY_WAREHOUSE_ID).Some? && GetInt(row, KEY_DISTRICT_ID).Some? && GetInt(row, KEY_ID).Some?
    ensures var r := FromCsv(row, p).value;
            && WellFormed(r)
            && KeyOf(r) == KeyFor(GetInt(row, KEY_WAREHOUSE_ID).value, GetInt(row, KEY_DISTRICT_ID).value,
                                  GetInt(row, KEY_ID).value)
  {
    var f := ReadCells(row, CSV_COLUMNS, p).value;
    assert FromCsv(row, p) == Some(FromFields(f));
    ReadInt(row, CSV_COLUMNS, p, 0);
    ReadInt(row, CSV_COLUMNS, p, 1);
    ReadInt(row, CSV_COLUMNS, p, 2);
    ScalarKey3(KEY_WAREHOUSE_ID, f[0], KEY_DISTRICT_ID, f[1], KEY_ID, f[2]);
    assert FromFields(f).partitionKeyMap == [(KEY_WAREHOUSE_ID, f[0]), (KEY_DISTRICT_ID, f[1]), (KEY_ID, f[2])];
  }

  /** A loaded customer keeps its c_last cell as text, so its index column can be built. */
  lemma FromCsvLast(row: CsvRow, p: Parsers)
    requires FromCsv(row, p).Some?
    ensures KEY_LAST in row && Lookup(FromCsv(row, p).value.valueMap, KEY_LAST) == Some(FText(row[KEY_LAST]))
  {
    var f := ReadCells(row, CSV_COLUMNS, p).value;
    assert FromCsv(row, p) == Some(FromFields(f));
    ReadText(row, CSV_COLUMNS, p, 5);
    assert CSV_COLUMNS[5] == (KEY_LAST, KText);
  }
}
