// The record classes of the older driver (TPCCTable).  Each record holds its
// fields, lists its key and value columns with createValues, and inserts
// itself in a transaction of its own.  Unlike the current tables the legacy
// ones drop a carrier of 0, a missing delivery date and unset stock strings
// from the columns they write, and start a customer's balance at -10.00.
module LegacyTable {
  import opened Wrappers
  import opened Store
  import LegacyUtil
  import TpccUtil
  import CurrentCustomer = Customer
  import CurrentDistrict = District
  import CurrentOrder = Order
  import CurrentOrderLine = OrderLine
  import CurrentStock = Stock
  import CurrentWarehouse = Warehouse
  import CurrentItem = Item
  import CurrentHistory = History
  import CurrentNewOrder = NewOrder
  import CurrentCustomerSecondary = CustomerSecondary
  import Records

  /** Orders below this id are loaded as delivered. */
  const DELIVERED_BELOW: int := 2101

  // ---- Customer ---------------------------------------------------------------

  datatype Customer = Customer(warehouseId: int, districtId: int, id: int, first: string, middle: string,
                               last: string, discount: real, credit: string, creditLim: real, balance: real,
                               ytdPayment: real, paymentCnt: int, deliveryCnt: int, street1: string,
                               street2: string, city: string, state: string, zip: string, phone: string,
                               since: int, data: string)

  /** The value column names of a legacy customer, in the order createValues lists them. */
  const CUSTOMER_VALUE_NAMES: seq<string> :=
    ["c_first", "c_middle", "c_last", "c_street_1", "c_street_2", "c_city", "c_state", "c_zip", "c_phone",
     "c_credit", "c_data", "c_credit_lim", "c_discount", "c_balance", "c_ytd_payment", "c_payment_cnt",
     "c_delivery_cnt", "c_since"]

  /**
   * The generating constructor.  The first 1000 customers of a district get
   * the last names of 0..999 in order, the others a load-phase NURand name; the
   * balance starts at -10.00.  The strings are what the random string
   * generators returned.
   */
  function GeneratedCustomer(warehouseId: int, districtId: int, customerId: int, date: int, first: string,
                             lastX: real, lastY: real, discountDraw: real, creditDraw: real, street1: string,
                             street2: string, city: string, state: string, zip4: string, phone: string,
                             data: string): (c: Customer)
    requires customerId >= 1
    requires 0.0 <= lastX < 1.0 && 0.0 <= lastY < 1.0 && 0.0 <= discountDraw < 1.0 && 0.0 <= creditDraw < 1.0
    ensures c.warehouseId == warehouseId && c.districtId == districtId && c.id == customerId
    ensures customerId <= 1000 ==> c.last == TpccUtil.LastName(customerId - 1)
    ensures exists n :: 0 <= n <= 999 && c.last == TpccUtil.LastName(n)
    ensures c.balance == -10.0 && c.ytdPayment == 10.0 && c.paymentCnt == 1 && c.deliveryCnt == 0
    ensures c.middle == "OE" && c.creditLim == 50000.0 && 0.0 <= c.discount <= 0.5
    ensures c.credit == "BC" || c.credit == "GC"
    ensures c.zip == zip4 + "11111" && c.since == date
  {
    var last := if customerId <= 1000 then LegacyUtil.LastName(customerId - 1)
                else LegacyUtil.RandomLastName(true, lastX, lastY);
    var credit := if LegacyUtil.RandomInt(0, 99, creditDraw) < 10 then "BC" else "GC";
    Customer(warehouseId, districtId, customerId, first, "OE", last, LegacyUtil.RandomDouble(0, 5000, 10000, discountDraw),
             credit, 50000.0, -10.0, 10.0, 1, 0, street1, street2, city, state, zip4 + "11111", phone, date, data)
  }

  /** createPartitionKey: c_w_id, c_d_id, c_id, the key the current customer table uses too. */
  function CustomerKey(c: Customer): (k: Key)
    ensures k == CurrentCustomer.KeyFor(c.warehouseId, c.districtId, c.id)
  {
    Key("customer", [Column("c_w_id", IntV(c.warehouseId)), Column("c_d_id", IntV(c.districtId)),
                     Column("c_id", IntV(c.id))], [])
  }

  /**
   * createValues: eleven text columns, then four doubles, two ints and the
   * since date as a bigint, always all eighteen.
   */
  function CustomerValues(c: Customer): (cols: seq<Column>)
    ensures |cols| == 18
    ensures forall i :: 0 <= i < 18 ==> cols[i].name == CUSTOMER_VALUE_NAMES[i]
    ensures forall i :: 0 <= i < 11 ==> cols[i].value.TextV?
    ensures forall i :: 11 <= i < 15 ==> cols[i].value.DoubleV?
    ensures cols[15].value.IntV? && cols[16].value.IntV? && cols[17].value.BigIntV?
  {
    [Column("c_first", TextV(c.first)), Column("c_middle", TextV(c.middle)), Column("c_last", TextV(c.last)),
     Column("c_street_1", TextV(c.street1)), Column("c_street_2", TextV(c.street2)), Column("c_city", TextV(c.city)),
     Column("c_state", TextV(c.state)), Column("c_zip", TextV(c.zip)), Column("c_phone", TextV(c.phone)),
     Column("c_credit", TextV(c.credit)), Column("c_data", TextV(c.data)),
     Column("c_credit_lim", DoubleV(c.creditLim)), Column("c_discount", DoubleV(c.discount)),
     Column("c_balance", DoubleV(c.balance)), Column("c_ytd_payment", DoubleV(c.ytdPayment)),
     Column("c_payment_cnt", IntV(c.paymentCnt)), Column("c_delivery_cnt", IntV(c.deliveryCnt)),
     Column("c_since", BigIntV(c.since))]
  }

  // ---- District ---------------------------------------------------------------

  datatype District = District(warehouseId: int, id: int, name: string, street1: string, street2: string,
                               city: string, state: string, zip: string, tax: real, ytd: real, nextOrderId: int)

  /** The generating constructor: tax in [0, 0.2], ytd 30000.00 and the next order number 3001. */
  function GeneratedDistrict(warehouseId: int, districtId: int, name: string, street1: string, street2: string,
                             city: string, state: string, zip4: string, taxDraw: real): (d: District)
    requires 0.0 <= taxDraw < 1.0
    ensures d.warehouseId == warehouseId && d.id == districtId
    ensures d.nextOrderId == 3001 && d.ytd == 30000.0 && 0.0 <= d.tax <= 0.2
    ensures d.zip == zip4 + "11111"
  {
    District(warehouseId, districtId, name, street1, street2, city, state, zip4 + "11111",
             LegacyUtil.RandomDouble(0, 2000, 10000, taxDraw), 30000.0, 3001)
  }

  function DistrictKey(d: District): (k: Key)
    ensures k == CurrentDistrict.KeyFor(d.warehouseId, d.id)
  {
    Key("district", [Column("d_w_id", IntV(d.warehouseId)), Column("d_id", IntV(d.id))], [])
  }

  /** createValues: name and address as six text columns, tax and ytd as doubles, the next order id as an int. */
  function DistrictValues(d: District): (cols: seq<Column>)
    ensures |cols| == 9
    ensures forall i :: 0 <= i < 6 ==> cols[i].value.TextV?
    ensures cols[6].value.DoubleV? && cols[7].value.DoubleV?
    ensures cols[8] == Column(CurrentDistrict.KEY_NEXT_O_ID, IntV(d.nextOrderId))
  {
    [Column("d_name", TextV(d.name)), Column("d_street_1", TextV(d.street1)), Column("d_street_2", TextV(d.street2)),
     Column("d_city", TextV(d.city)), Column("d_state", TextV(d.state)), Column("d_zip", TextV(d.zip)),
     Column("d_tax", DoubleV(d.tax)), Column("d_ytd", DoubleV(d.ytd)), Column("d_next_o_id", IntV(d.nextOrderId))]
  }

  // ---- Warehouse, Item, History, NewOrder, CustomerSecondary ------------------------

  datatype Warehouse = Warehouse(id: int, name: string, street1: string, street2: string, city: string,
                                 state: string, zip: string, tax: real, ytd: real)

  function WarehouseKey(w: Warehouse): (k: Key)
    ensures k == CurrentWarehouse.KeyFor(w.id)
  {
    Key("warehouse", [Column("w_id", IntV(w.id))], [])
  }

  /** createValues: name and address as six text columns, then tax and ytd. */
  function WarehouseValues(w: Warehouse): (cols: seq<Column>)
    ensures |cols| == 8 && forall i :: 0 <= i < 6 ==> cols[i].value.TextV?
    ensures cols[6] == Column(CurrentWarehouse.KEY_TAX, DoubleV(w.tax))
    ensures cols[7] == Column(CurrentWarehouse.KEY_YTD, DoubleV(w.ytd))
  {
    [Column("w_name", TextV(w.name)), Column("w_street_1", TextV(w.street1)), Column("w_street_2", TextV(w.street2)),
     Column("w_city", TextV(w.city)), Column("w_state", TextV(w.state)), Column("w_zip", TextV(w.zip)),
     Column("w_tax", DoubleV(w.tax)), Column("w_ytd", DoubleV(w.ytd))]
  }

  datatype Item = Item(id: int, name: string, price: real, data: string, imageId: int)

  function ItemKey(i: Item): (k: Key)
    ensures k == CurrentItem.KeyFor(i.id)
  {
    Key("item", [Column("i_id", IntV(i.id))], [])
  }

  /** createValues: name, price, data and image id, in that order. */
  function ItemValues(i: Item): (cols: seq<Column>)
    ensures |cols| == 4
    ensures cols[0].value.TextV? && cols[1].value.DoubleV? && cols[2].value.TextV? && cols[3].value.IntV?
    ensures cols[3] == Column(CurrentItem.KEY_IM_ID, IntV(i.imageId))
  {
    [Column("i_name", TextV(i.name)), Column("i_price", DoubleV(i.price)), Column("i_data", TextV(i.data)),
     Column("i_im_id", IntV(i.imageId))]
  }

  /** A history row; `id` is the random UUID every constructor draws. */
  datatype History = History(id: string, customerId: int, customerDistrictId: int, customerWarehouseId: int,
                             districtId: int, warehouseId: int, date: int, amount: real, data: string)

  function HistoryKey(h: History): (k: Key)
    ensures k == CurrentHistory.KeyFor(h.id)
  {
    Key("history", [Column("h_id", TextV(h.id))], [])
  }

  /** createValues: the five ids as ints, the date as a bigint, the amount and the data. */
  function HistoryValues(h: History): (cols: seq<Column>)
    ensures |cols| == 8 && forall i :: 0 <= i < 5 ==> cols[i].value.IntV?
    ensures cols[5] == Column(CurrentHistory.KEY_DATE, BigIntV(h.date))
    ensures cols[6] == Column(CurrentHistory.KEY_AMOUNT, DoubleV(h.amount))
  {
    [Column("h_c_id", IntV(h.customerId)), Column("h_c_d_id", IntV(h.customerDistrictId)),
     Column("h_c_w_id", IntV(h.customerWarehouseId)), Column("h_d_id", IntV(h.districtId)),
     Column("h_w_id", IntV(h.warehouseId)), Column("h_date", BigIntV(h.date)), Column("h_amount", DoubleV(h.amount)),
     Column("h_data", TextV(h.data))]
  }

  datatype NewOrder = NewOrder(warehouseId: int, districtId: int, orderId: int)

  function NewOrderKey(n: NewOrder): (k: Key)
    ensures k == CurrentNewOrder.KeyFor(n.warehouseId, n.districtId, n.orderId)
  {
    Key("new_order", [Column("no_w_id", IntV(n.warehouseId)), Column("no_d_id", IntV(n.districtId))],
        [Column("no_o_id", IntV(n.orderId))])
  }

  datatype CustomerSecondary = CustomerSecondary(warehouseId: int, districtId: int, last: string, first: string,
                                                 customerId: int)

  function CustomerSecondaryKey(s: CustomerSecondary): (k: Key)
    ensures k == CurrentCustomerSecondary.KeyFor(s.warehouseId, s.districtId, s.last, s.first, s.customerId)
  {
    Key("customer_secondary",
        [Column("c_w_id", IntV(s.warehouseId)), Column("c_d_id", IntV(s.districtId)), Column("c_last", TextV(s.last))],
        [Column("c_first", TextV(s.first)), Column("c_id", IntV(s.customerId))])
  }

  // ---- Order ------------------------------------------------------------------

  datatype Order = Order(warehouseId: int, districtId: int, id: int, customerId: int, carrierId: int,
                         lineCount: int, allLocal: int, entryDate: int)

  /**
   * The generating constructor: a delivered order (id below 2101) gets a
   * carrier in [1, 10], an open one carrier 0; 5 to 15 lines, all local.
   */
  function GeneratedOrder(warehouseId: int, districtId: int, orderId: int, customerId: int, date: int,
                          carrierDraw: real, lineCountDraw: real): (o: Order)
    requires 0.0 <= carrierDraw < 1.0 && 0.0 <= lineCountDraw < 1.0
    ensures o.warehouseId == warehouseId && o.districtId == districtId && o.id == orderId
    ensures orderId < DELIVERED_BELOW ==> 1 <= o.carrierId <= 10
    ensures orderId >= DELIVERED_BELOW ==> o.carrierId == 0
    ensures 5 <= o.lineCount <= 15 && o.allLocal == 1
  {
    var carrier := if orderId < DELIVERED_BELOW then LegacyUtil.RandomInt(1, 10, carrierDraw) else 0;
    Order(warehouseId, districtId, orderId, customerId, carrier, LegacyUtil.RandomInt(5, 15, lineCountDraw), 1, date)
  }

  function OrderKey(o: Order): (k: Key)
    ensures k == CurrentOrder.KeyFor(o.warehouseId, o.districtId, o.id)
  {
    Key("oorder", [Column("o_w_id", IntV(o.warehouseId)), Column("o_d_id", IntV(o.districtId))],
        [Column("o_id", IntV(o.id))])
  }

  /** createValues: the carrier column is written only for a positive carrier. */
  function OrderValues(o: Order): (cols: seq<Column>)
    ensures (exists c :: c in cols && c.name == CurrentOrder.KEY_CARRIER_ID) <==> o.carrierId > 0
    ensures o.carrierId > 0 ==> Column(CurrentOrder.KEY_CARRIER_ID, IntV(o.carrierId)) in cols
    ensures |cols| == if o.carrierId > 0 then 5 else 4
    ensures cols[0] == Column(CurrentOrder.KEY_CUSTOMER_ID, IntV(o.customerId))
    ensures cols[|cols| - 3] == Column(CurrentOrder.KEY_OL_CNT, IntV(o.lineCount))
    ensures cols[|cols| - 1] == Column(CurrentOrder.KEY_ENTRY_D, BigIntV(o.entryDate))
  {
    [Column("o_c_id", IntV(o.customerId))]
    + (if o.carrierId > 0 then [Column("o_carrier_id", IntV(o.carrierId))] else [])
    + [Column("o_ol_cnt", IntV(o.lineCount)), Column("o_all_local", IntV(o.allLocal)),
       Column("o_entry_d", BigIntV(o.entryDate))]
  }

  /**
   * An open order loaded by the legacy driver has no carrier column, where the
   * current driver writes carrier 0 for the same order.
   */
  lemma OpenOrderCarrier(warehouseId: int, districtId: int, orderId: int, customerId: int, date: int,
                         carrierDraw: real, lineCountDraw: real, carrier: int, lineCount: int)
    requires 0.0 <= carrierDraw < 1.0 && 0.0 <= lineCountDraw < 1.0 && orderId >= DELIVERED_BELOW
    requires 1 <= carrier <= 10 && 5 <= lineCount <= 15
    ensures var legacy := OrderValues(GeneratedOrder(warehouseId, districtId, orderId, customerId, date,
                                                     carrierDraw, lineCountDraw));
            forall c :: c in legacy ==> c.name != CurrentOrder.KEY_CARRIER_ID
    ensures var current := CurrentOrder.Generated(warehouseId, districtId, orderId, customerId, date,
                                                  carrier, lineCount);
            Column(CurrentOrder.KEY_CARRIER_ID, IntV(0)) in Records.ValueColumns(current.valueMap)
  {
  }

  // ---- OrderLine --------------------------------------------------------------

  /** An order line; `delivery` is None for the Java null date. */
  datatype OrderLine = OrderLine(warehouseId: int, districtId: int, orderId: int, number: int, itemId: int,
                                 delivery: Option<int>, amount: real, supplyWarehouseId: int, quantity: int,
                                 distInfo: string)

  /** The insert constructor of new-order: the line is not delivered yet. */
  function NewOrderLine(warehouseId: int, districtId: int, orderId: int, number: int, supplyWarehouseId: int,
                        amount: real, quantity: int, itemId: int, info: string): (l: OrderLine)
    ensures l.delivery.None? && l.amount == amount && l.quantity == quantity && l.itemId == itemId
  {
    OrderLine(warehouseId, districtId, orderId, number, itemId, None, amount, supplyWarehouseId, quantity, info)
  }

  /**
   * The generating constructor: a line of a delivered order (id below 2101) is
   * delivered at `date` with amount 0, one of an open order has no delivery
   * date and an amount in [0.01, 9999.99]; the quantity is 5.
   */
  function GeneratedOrderLine(warehouseId: int, districtId: int, orderId: int, number: int,
                              supplyWarehouseId: int, itemId: int, date: int, amountDraw: real,
                              info: string): (l: OrderLine)
    requires 0.0 <= amountDraw < 1.0
    ensures l.delivery.None? <==> orderId >= DELIVERED_BELOW
    ensures l.delivery.Some? ==> l.delivery.value == date && l.amount == 0.0
    ensures l.delivery.None? ==> 0.01 <= l.amount <= 9999.99
    ensures l.quantity == 5
  {
    if orderId < DELIVERED_BELOW then
      OrderLine(warehouseId, districtId, orderId, number, itemId, Some(date), 0.0, supplyWarehouseId, 5, info)
    else
      OrderLine(warehouseId, districtId, orderId, number, itemId, None,
                LegacyUtil.RandomDouble(1, 999999, 100, amountDraw), supplyWarehouseId, 5, info)
  }

  function OrderLineKey(l: OrderLine): (k: Key)
    ensures k == CurrentOrderLine.KeyFor(l.warehouseId, l.districtId, l.orderId, l.number)
  {
    Key("order_line", [Column("ol_w_id", IntV(l.warehouseId)), Column("ol_d_id", IntV(l.districtId))],
        [Column("ol_o_id", IntV(l.orderId)), Column("ol_number", IntV(l.number))])
  }

  /** createValues: the delivery date column is written only when the line has one. */
  function OrderLineValues(l: OrderLine): (cols: seq<Column>)
    ensures (exists c :: c in cols && c.name == CurrentOrderLine.KEY_DELIVERY_D) <==> l.delivery.Some?
    ensures l.delivery.Some? ==> Column(CurrentOrderLine.KEY_DELIVERY_D, BigIntV(l.delivery.value)) in cols
    ensures |cols| == if l.delivery.Some? then 6 else 5
    ensures cols[0] == Column(CurrentOrderLine.KEY_ITEM_ID, IntV(l.itemId))
    ensures cols[|cols| - 4] == Column(CurrentOrderLine.KEY_AMOUNT, DoubleV(l.amount))
  {
    [Column("ol_i_id", IntV(l.itemId))]
    + (if l.delivery.Some? then [Column("ol_delivery_d", BigIntV(l.delivery.value))] else [])
    + [Column("ol_amount", DoubleV(l.amount)), Column("ol_supply_w_id", IntV(l.supplyWarehouseId)),
       Column("ol_quantity", IntV(l.quantity)), Column("ol_dist_info", TextV(l.distInfo))]
  }

  // ---- Stock ------------------------------------------------------------------

  /** A stock row; `data` and each of the ten `dists` are None for a Java null. */
  datatype Stock = Stock(warehouseId: int, itemId: int, quantity: int, ytd: real, orderCount: int,
                         remoteCount: int, data: Option<string>, dists: seq<Option<string>>)

  /** The update constructor of new-order: the counters only, data and the ten dist strings left null. */
  function UpdatedStock(warehouseId: int, itemId: int, quantity: int, ytd: real, orderCount: int,
                        remoteCount: int): (s: Stock)
    ensures s.data.None? && |s.dists| == 10 && forall k :: 0 <= k < 10 ==> s.dists[k].None?
  {
    Stock(warehouseId, itemId, quantity, ytd, orderCount, remoteCount, None, seq(10, k => None))
  }

  /**
   * The generating constructor: quantity in [10, 100], zero ytd and counters,
   * and the loop filling the ten dist strings from `dists`.
   */
  method GenerateStock(warehouseId: int, itemId: int, quantityDraw: real, data: string, dists: seq<string>)
    returns (s: Stock)
    requires 0.0 <= quantityDraw < 1.0 && |dists| == 10
    ensures s.warehouseId == warehouseId && s.itemId == itemId
    ensures 10 <= s.quantity <= 100 && s.ytd == 0.0 && s.orderCount == 0 && s.remoteCount == 0
    ensures s.data == Some(data) && |s.dists| == 10
    ensures forall k :: 0 <= k < 10 ==> s.dists[k] == Some(dists[k])
  {
    var a := new Option<string>[10](k => None);
    for i := 0 to 10
      invariant forall k :: 0 <= k < i ==> a[k] == Some(dists[k])
    {
      a[i] := Some(dists[i]);
    }
    s := Stock(warehouseId, itemId, LegacyUtil.RandomInt(10, 100, quantityDraw), 0.0, 0, 0, Some(data), a[..]);
  }

  function StockKey(s: Stock): (k: Key)
    ensures k == CurrentStock.KeyFor(s.warehouseId, s.itemId)
  {
    Key("stock", [Column("s_w_id", IntV(s.warehouseId)), Column("s_i_id", IntV(s.itemId))], [])
  }

  /** The number of non-null entries. */
  function CountSet(xs: seq<Option<string>>): nat
  {
    if |xs| == 0 then 0 else CountSet(xs[..|xs| - 1]) + (if xs[|xs| - 1].Some? then 1 else 0)
  }

  /**
   * The s_dist columns the loop of createValues appends for the first |dists|
   * indexes: one per non-null entry, named by its index, in index order.
   */
  function DistColumns(dists: seq<Option<string>>): (cols: seq<Column>)
    requires |dists| <= 10
    ensures |cols| == CountSet(dists)
    decreases |dists|
  {
    if |dists| == 0 then []
    else
      var k := |dists| - 1;
      DistColumns(dists[..k]) + (if dists[k].Some? then [Column(CurrentStock.DistName(k), TextV(dists[k].value))] else [])
  }

  /** Every set entry has its column among the dist columns. */
  lemma {:induction false} DistColumnsComplete(dists: seq<Option<string>>, k: int)
    requires |dists| <= 10 && 0 <= k < |dists| && dists[k].Some?
    ensures Column(CurrentStock.DistName(k), TextV(dists[k].value)) in DistColumns(dists)
    decreases |dists|
  {
    var last := |dists| - 1;
    if k < last {
      var front := dists[..last];
      assert front[k] == dists[k];
      DistColumnsComplete(front, k);
    }
  }

  /** Every dist column is the column of a set entry. */
  lemma {:induction false} DistColumnsSound(dists: seq<Option<string>>, c: Column)
    requires |dists| <= 10 && c in DistColumns(dists)
    ensures exists k :: 0 <= k < |dists| && dists[k].Some? && c == Column(CurrentStock.DistName(k), TextV(dists[k].value))
    decreases |dists|
  {
    var last := |dists| - 1;
    var front := dists[..last];
    if c in DistColumns(front) {
      DistColumnsSound(front, c);
      var k :| 0 <= k < |front| && front[k].Some? && c == Column(CurrentStock.DistName(k), TextV(front[k].value));
      assert dists[k] == front[k];
    } else {
      assert dists[last].Some? && c == Column(CurrentStock.DistName(last), TextV(dists[last].value));
    }
  }

  /** The columns createValues lists: the four counters, s_data unless null, then the non-null dist strings. */
  function StockValues(s: Stock): (cols: seq<Column>)
    requires |s.dists| == 10
  {
    [Column("s_quantity", IntV(s.quantity)), Column("s_ytd", DoubleV(s.ytd)),
     Column("s_order_cnt", IntV(s.orderCount)), Column("s_remote_cnt", IntV(s.remoteCount))]
    + (if s.data.Some? then [Column("s_data", TextV(s.data.value))] else [])
    + DistColumns(s.dists)
  }

  /** createValues: appends the fixed columns, s_data when set, and the set dist strings in a loop over 0..9. */
  method CreateStockValues(s: Stock) returns (cols: seq<Column>)
    requires |s.dists| == 10
    ensures cols == StockValues(s)
    ensures |cols| == 4 + (if s.data.Some? then 1 else 0) + CountSet(s.dists)
  {
    cols := [Column(CurrentStock.KEY_QUANTITY, IntV(s.quantity)), Column(CurrentStock.KEY_YTD, DoubleV(s.ytd)),
             Column(CurrentStock.KEY_ORDER_CNT, IntV(s.orderCount)),
             Column(CurrentStock.KEY_REMOTE_CNT, IntV(s.remoteCount))];
    if s.data.Some? {
      cols := cols + [Column(CurrentStock.KEY_DATA, TextV(s.data.value))];
    }
    ghost var fixed := cols;
    for i := 0 to 10
      invariant cols == fixed + DistColumns(s.dists[..i])
    {
      assert s.dists[..i + 1][..i] == s.dists[..i];
      if s.dists[i].Some? {
        cols := cols + [Column(CurrentStock.KEY_DIST_PREFIX + TpccUtil.Text.ZeroPad(i + 1, 2), TextV(s.dists[i].value))];
      }
    }
    assert s.dists[..10] == s.dists;
  }

  /** With every entry null, no dist column is written. */
  lemma {:induction false} NoDistColumns(dists: seq<Option<string>>)
    requires |dists| <= 10 && forall k :: 0 <= k < |dists| ==> dists[k].None?
    ensures DistColumns(dists) == []
    decreases |dists|
  {
    if |dists| > 0 {
      NoDistColumns(dists[..|dists| - 1]);
    }
  }

  /** The update constructor's record writes exactly the four counter columns. */
  lemma UpdateWritesFour(warehouseId: int, itemId: int, quantity: int, ytd: real, orderCount: int, remoteCount: int)
    ensures StockValues(UpdatedStock(warehouseId, itemId, quantity, ytd, orderCount, remoteCount)) ==
      [Column(CurrentStock.KEY_QUANTITY, IntV(quantity)), Column(CurrentStock.KEY_YTD, DoubleV(ytd)),
       Column(CurrentStock.KEY_ORDER_CNT, IntV(orderCount)), Column(CurrentStock.KEY_REMOTE_CNT, IntV(remoteCount))]
  {
    NoDistColumns(UpdatedStock(warehouseId, itemId, quantity, ytd, orderCount, remoteCount).dists);
  }

  /** With every entry set, all ten dist columns are written. */
  lemma {:induction false} AllDistColumns(dists: seq<Option<string>>)
    requires |dists| <= 10 && forall k :: 0 <= k < |dists| ==> dists[k].Some?
    ensures CountSet(dists) == |dists|
    decreases |dists|
  {
    if |dists| > 0 {
      AllDistColumns(dists[..|dists| - 1]);
    }
  }

  /** A generated stock row writes fifteen columns: the counters, s_data and s_dist_01..s_dist_10. */
  lemma GeneratedWritesFifteen(s: Stock, dists: seq<string>)
    requires s.data.Some? && |s.dists| == 10 && |dists| == 10
    requires forall k :: 0 <= k < 10 ==> s.dists[k] == Some(dists[k])
    ensures |StockValues(s)| == 15
    ensures forall k :: 0 <= k < 10 ==> Column(CurrentStock.DistName(k), TextV(dists[k])) in StockValues(s)
  {
    AllDistColumns(s.dists);
    forall k | 0 <= k < 10 ensures Column(CurrentStock.DistName(k), TextV(dists[k])) in StockValues(s) {
      DistColumnsComplete(s.dists, k);
    }
  }

  // ---- insertion ------------------------------------------------------------

  /** A record of any legacy table, as the loader queues them. */
  datatype Record =
    | CustomerRecord(customer: Customer)
    | CustomerSecondaryRecord(secondary: CustomerSecondary)
    | DistrictRecord(district: District)
    | HistoryRecord(history: History)
    | ItemRecord(item: Item)
    | NewOrderRecord(newOrder: NewOrder)
    | OrderRecord(order: Order)
    | OrderSecondaryRecord
    | OrderLineRecord(line: OrderLine)
    | StockRecord(stock: Stock)
    | WarehouseRecord(warehouse: Warehouse)

  predicate ValidRecord(r: Record)
  {
    r.StockRecord? ==> |r.stock.dists| == 10
  }

  /** The key insert writes; the secondary order record has none (it writes nothing). */
  function RecordKey(r: Record): Key
    requires !r.OrderSecondaryRecord?
  {
    match r
    case CustomerRecord(c) => CustomerKey(c)
    case CustomerSecondaryRecord(s) => CustomerSecondaryKey(s)
    case DistrictRecord(d) => DistrictKey(d)
    case HistoryRecord(h) => HistoryKey(h)
    case ItemRecord(i) => ItemKey(i)
    case NewOrderRecord(n) => NewOrderKey(n)
    case OrderRecord(o) => OrderKey(o)
    case OrderLineRecord(l) => OrderLineKey(l)
    case StockRecord(s) => StockKey(s)
    case WarehouseRecord(w) => WarehouseKey(w)
  }

  /** The value columns insert writes; the key-only tables write none. */
  function RecordValues(r: Record): seq<Column>
    requires ValidRecord(r)
  {
    match r
    case CustomerRecord(c) => CustomerValues(c)
    case DistrictRecord(d) => DistrictValues(d)
    case HistoryRecord(h) => HistoryValues(h)
    case ItemRecord(i) => ItemValues(i)
    case OrderRecord(o) => OrderValues(o)
    case OrderLineRecord(l) => OrderLineValues(l)
    case StockRecord(s) => StockValues(s)
    case WarehouseRecord(w) => WarehouseValues(w)
    case _ => []
  }

  /**
   * insert: one transaction that puts the record and commits; `committed` says
   * whether the commit went through.  On failure the transaction is aborted,
   * the exception propagates and the store is unchanged.  The secondary order
   * record's insert does nothing at all.
   */
  function InsertRecord(db: Db, r: Record, committed: bool): (res: Result<Db, TxError>)
    requires ValidRecord(r)
    ensures r.OrderSecondaryRecord? ==> res == Ok(db)
    ensures !r.OrderSecondaryRecord? ==> (res.Ok? <==> committed)
    ensures !r.OrderSecondaryRecord? && res.Ok? ==>
              res.value == Put(db, RecordKey(r), RecordValues(r))
              && res.value.Keys == db.Keys + {RecordKey(r)}
              && forall k :: k in db && k != RecordKey(r) ==> res.value[k] == db[k]
  {
    if r.OrderSecondaryRecord? then Ok(db)
    else if committed then Ok(Put(db, RecordKey(r), RecordValues(r)))
    else Err(Conflict)
  }
}
