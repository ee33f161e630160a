// The Delivery transaction profile (TPC-C clause 2.7).  `generate` draws the
// warehouse and the carrier and takes the current date.  `execute` visits
// districts 1 to 10 in order inside one transaction; for each it takes the
// oldest new-order, deletes it, sets the order's carrier, stamps every line
// of the order with the delivery date and credits the customer with the sum
// of the line amounts and one more delivery.  Any exception aborts the
// transaction, so the store is either the result of every write or unchanged.
module DeliveryTx {
  import opened Wrappers
  import opened Store
  import opened JavaInt
  import opened Schema
  import opened Loops
  import Customer
  import NewOrder
  import Order
  import OrderLine

  const INVALID_SCAN: string := "Invalid scan on new-order"

  /** The transaction's arguments, as generate leaves them. */
  datatype Args = Args(warehouseId: int, carrierId: int, deliveryDate: int)

  // ---- the order lines ------------------------------------------------------------------

  /** The lines of one order, in key order. */
  ghost function LineRows(db: Db, warehouseId: int, districtId: int, orderId: int): seq<Entry>
  {
    ScanSpec(db, OrderLine.TABLE_NAME, OrderLine.PartitionKey(warehouseId, districtId), Some((orderId, orderId)), true, 0)
  }

  /** The delivery-date put of line `number`: the line's key and ol_delivery_d alone. */
  function StampLine(db: Db, warehouseId: int, districtId: int, orderId: int, number: int, date: int): Db
  {
    Put(db, OrderLine.KeyFor(warehouseId, districtId, orderId, number), [Column(OrderLine.KEY_DELIVERY_D, BigIntV(date))])
  }

  /**
   * The loop over the scanned lines: read the line number and the amount, add
   * the amount to `total`, put the delivery date under the line's key; the
   * first line that lacks either value throws.
   */
  function Deliveries(db: Db, warehouseId: int, districtId: int, orderId: int, date: int, lines: seq<Entry>,
                      total: real): Result<(Db, real), TxError>
    decreases |lines|
  {
    if |lines| == 0 then Ok((db, total))
    else
      var number :- IntOf(lines[0].row, OrderLine.KEY_NUMBER);
      var amount :- DoubleOf(lines[0].row, OrderLine.KEY_AMOUNT);
      Deliveries(StampLine(db, warehouseId, districtId, orderId, number, date), warehouseId, districtId, orderId,
                 date, lines[1..], total + amount)
  }

  /** The amount a line holds (0 when it has none as a double). */
  function AmountOf(e: Entry): real
  {
    if OrderLine.KEY_AMOUNT in e.row && e.row[OrderLine.KEY_AMOUNT].DoubleV? then e.row[OrderLine.KEY_AMOUNT].d
    else 0.0
  }

  /** The sum of the lines' amounts. */
  function AmountSum(lines: seq<Entry>): real
  {
    if |lines| == 0 then 0.0 else AmountOf(lines[0]) + AmountSum(lines[1..])
  }

  /** Whether a line can be delivered: it holds its number as an int and its amount as a double. */
  predicate Deliverable(e: Entry)
  {
    IntOf(e.row, OrderLine.KEY_NUMBER).Ok? && DoubleOf(e.row, OrderLine.KEY_AMOUNT).Ok?
  }

  /** The line loop succeeds exactly when every line is deliverable. */
  lemma {:induction false} DeliveriesSucceed(db: Db, warehouseId: int, districtId: int, orderId: int, date: int,
                                             lines: seq<Entry>, total: real)
    ensures Deliveries(db, warehouseId, districtId, orderId, date, lines, total).Ok? <==>
              forall i :: 0 <= i < |lines| ==> Deliverable(lines[i])
    decreases |lines|
  {
    if |lines| > 0 && Deliverable(lines[0]) {
      var number := IntOf(lines[0].row, OrderLine.KEY_NUMBER).value;
      var amount := DoubleOf(lines[0].row, OrderLine.KEY_AMOUNT).value;
      DeliveriesSucceed(StampLine(db, warehouseId, districtId, orderId, number, date), warehouseId, districtId,
                        orderId, date, lines[1..], total + amount);
      assert forall i :: 1 <= i < |lines| ==> lines[i] == lines[1..][i - 1];
    }
  }

  /** A successful line loop adds the sum of the lines' amounts to `total`. */
  lemma {:induction false} DeliveriesSum(db: Db, warehouseId: int, districtId: int, orderId: int, date: int,
                                         lines: seq<Entry>, total: real)
    requires Deliveries(db, warehouseId, districtId, orderId, date, lines, total).Ok?
    ensures Deliveries(db, warehouseId, districtId, orderId, date, lines, total).value.1 == total + AmountSum(lines)
    decreases |lines|
  {
    if |lines| > 0 {
      var number := IntOf(lines[0].row, OrderLine.KEY_NUMBER).value;
      var amount := DoubleOf(lines[0].row, OrderLine.KEY_AMOUNT).value;
      DeliveriesSum(StampLine(db, warehouseId, districtId, orderId, number, date), warehouseId, districtId,
                    orderId, date, lines[1..], total + amount);
    }
  }

  /** A line that holds the delivery date still holds it after any line is stamped. */
  lemma StampKeepsDate(db: Db, warehouseId: int, districtId: int, orderId: int, number: int, date: int, k: Key)
    requires Holds(db, k, OrderLine.KEY_DELIVERY_D, BigIntV(date))
    ensures Holds(StampLine(db, warehouseId, districtId, orderId, number, date), k, OrderLine.KEY_DELIVERY_D,
                  BigIntV(date))
  {
    var k' := OrderLine.KeyFor(warehouseId, districtId, orderId, number);
    var cols := [Column(OrderLine.KEY_DELIVERY_D, BigIntV(date))];
    if k == k' {
      PutReadsBackAt(db, k', cols, 0);
    }
  }

  /** The key the loop stamps for a deliverable line. */
  function StampedKey(warehouseId: int, districtId: int, orderId: int, e: Entry): Key
    requires Deliverable(e)
  {
    OrderLine.KeyFor(warehouseId, districtId, orderId, IntOf(e.row, OrderLine.KEY_NUMBER).value)
  }

  /**
   * After a successful line loop every line number read is stamped with the
   * delivery date, and so is every line stamped before the loop.
   */
  lemma {:induction false} DeliveriesStamp(db: Db, warehouseId: int, districtId: int, orderId: int, date: int,
                                           lines: seq<Entry>, total: real)
    requires Deliveries(db, warehouseId, districtId, orderId, date, lines, total).Ok?
    ensures forall i :: 0 <= i < |lines| ==> Deliverable(lines[i])
    ensures var out := Deliveries(db, warehouseId, districtId, orderId, date, lines, total).value.0;
            forall i :: 0 <= i < |lines| ==>
              Holds(out, StampedKey(warehouseId, districtId, orderId, lines[i]), OrderLine.KEY_DELIVERY_D, BigIntV(date))
    ensures var out := Deliveries(db, warehouseId, districtId, orderId, date, lines, total).value.0;
            forall k :: Holds(db, k, OrderLine.KEY_DELIVERY_D, BigIntV(date)) ==>
              Holds(out, k, OrderLine.KEY_DELIVERY_D, BigIntV(date))
    decreases |lines|
  {
    DeliveriesSucceed(db, warehouseId, districtId, orderId, date, lines, total);
    if |lines| > 0 {
      var number := IntOf(lines[0].row, OrderLine.KEY_NUMBER).value;
      var amount := DoubleOf(lines[0].row, OrderLine.KEY_AMOUNT).value;
      var db1 := StampLine(db, warehouseId, districtId, orderId, number, date);
      var out := Deliveries(db, warehouseId, districtId, orderId, date, lines, total).value.0;
      assert Deliveries(db1, warehouseId, districtId, orderId, date, lines[1..], total + amount).value.0 == out;
      DeliveriesStamp(db1, warehouseId, districtId, orderId, date, lines[1..], total + amount);
      PutReadsBackAt(db, StampedKey(warehouseId, districtId, orderId, lines[0]),
                     [Column(OrderLine.KEY_DELIVERY_D, BigIntV(date))], 0);
      forall k | Holds(db, k, OrderLine.KEY_DELIVERY_D, BigIntV(date))
        ensures Holds(out, k, OrderLine.KEY_DELIVERY_D, BigIntV(date))
      {
        StampKeepsDate(db, warehouseId, districtId, orderId, number, date, k);
      }
      forall i | 0 <= i < |lines|
        ensures Holds(out, StampedKey(warehouseId, districtId, orderId, lines[i]), OrderLine.KEY_DELIVERY_D,
                      BigIntV(date))
      {
        if i > 0 {
          assert lines[i] == lines[1..][i - 1];
        }
      }
    }
  }

  /** The line loop writes order_line records of the district and nothing else. */
  lemma {:induction false} DeliveriesFrame(db: Db, warehouseId: int, districtId: int, orderId: int, date: int,
                                           lines: seq<Entry>, total: real)
    requires Deliveries(db, warehouseId, districtId, orderId, date, lines, total).Ok?
    ensures var out := Deliveries(db, warehouseId, districtId, orderId, date, lines, total).value.0;
            forall k: Key :: k.table != OrderLine.TABLE_NAME ==> SameRecord(db, out, k)
    decreases |lines|
  {
    if |lines| > 0 {
      var number := IntOf(lines[0].row, OrderLine.KEY_NUMBER).value;
      var amount := DoubleOf(lines[0].row, OrderLine.KEY_AMOUNT).value;
      DeliveriesFrame(StampLine(db, warehouseId, districtId, orderId, number, date), warehouseId, districtId,
                      orderId, date, lines[1..], total + amount);
    }
  }

  // ---- one district ---------------------------------------------------------------------

  /** The district's new-order rows, oldest first, at most one. */
  ghost function NewOrderRows(db: Db, warehouseId: int, districtId: int): seq<Entry>
  {
    ScanSpec(db, NewOrder.TABLE_NAME, NewOrder.PartitionKey(warehouseId, districtId), None, true, 1)
  }

  /** The order id of the district's oldest new-order, when the scan returns exactly one row. */
  function OldestOrderId(rows: seq<Entry>): (r: Result<int, TxError>)
    ensures |rows| != 1 ==> r == Err(NotFound(INVALID_SCAN))
    ensures r.Ok? <==> |rows| == 1 && IntOf(rows[0].row, NewOrder.KEY_ORDER_ID).Ok?
    ensures r.Ok? ==> rows[0].row[NewOrder.KEY_ORDER_ID] == IntV(r.value)
  {
    if |rows| != 1 then Err(NotFound(INVALID_SCAN)) else IntOf(rows[0].row, NewOrder.KEY_ORDER_ID)
  }

  /** The customer update: balance plus the lines' total, one more delivery. */
  function CreditCustomer(db: Db, warehouseId: int, districtId: int, customerId: int, total: real)
    : Result<Db, TxError>
  {
    var customerKey := Customer.KeyFor(warehouseId, districtId, customerId);
    var customer :- GetOr(db, customerKey, "Customer not found");
    var balance :- DoubleOf(customer, Customer.KEY_BALANCE);
    var count :- IntOf(customer, Customer.KEY_DELIVERY_CNT);
    Ok(Put(db, customerKey, Customer.DeliveryColumns(balance + total, Wrap32(count + 1))))
  }

  /** The order read-modify-write: the order must exist; its customer id is read and its carrier set. */
  function SetCarrier(db: Db, warehouseId: int, districtId: int, orderId: int, carrierId: int)
    : Result<(Db, int), TxError>
  {
    var orderKey := Order.KeyFor(warehouseId, districtId, orderId);
    var order :- GetOr(db, orderKey, "Order not found");
    var customerId :- IntOf(order, Order.KEY_CUSTOMER_ID);
    Ok((Put(db, orderKey, [Column(Order.KEY_CARRIER_ID, IntV(carrierId))]), customerId))
  }

  /** The rest of a district step once the order is updated: the lines, then the customer. */
  ghost function DeliverOrder(db: Db, a: Args, districtId: int, orderId: int, customerId: int): Result<Db, TxError>
  {
    var delivered :- Deliveries(db, a.warehouseId, districtId, orderId, a.deliveryDate,
                                LineRows(db, a.warehouseId, districtId, orderId), 0.0);
    CreditCustomer(delivered.0, a.warehouseId, districtId, customerId, delivered.1)
  }

  /** One iteration of the district loop. */
  ghost function DistrictStep(db: Db, a: Args, districtId: int): Result<Db, TxError>
  {
    var orderId :- OldestOrderId(NewOrderRows(db, a.warehouseId, districtId));
    var ordered :- SetCarrier(Delete(db, NewOrder.KeyFor(a.warehouseId, districtId, orderId)), a.warehouseId,
                              districtId, orderId, a.carrierId);
    DeliverOrder(ordered.0, a, districtId, orderId, ordered.1)
  }

  /** One district of these arguments as a function value. */
  ghost function StepOf(a: Args): (Db, int) -> Result<Db, TxError>
  {
    (x: Db, districtId: int) => DistrictStep(x, a, districtId)
  }

  /** The whole of execute: the ten districts, then the commit. */
  ghost function Execution(db: Db, a: Args, committed: bool): Result<Db, TxError>
  {
    var done :- Loop(db, StepOf(a), DISTRICTS);
    if committed then Ok(done) else Err(Conflict)
  }

  // ---- what a district step does ---------------------------------------------------------

  /** Once the lines are delivered, the rest of the step is the customer update. */
  lemma DeliverOrderAfter(db: Db, a: Args, districtId: int, orderId: int, customerId: int, delivered: (Db, real))
    requires Deliveries(db, a.warehouseId, districtId, orderId, a.deliveryDate,
                        LineRows(db, a.warehouseId, districtId, orderId), 0.0) == Ok(delivered)
    ensures DeliverOrder(db, a, districtId, orderId, customerId)
              == CreditCustomer(delivered.0, a.warehouseId, districtId, customerId, delivered.1)
  {
  }

  /** Once the oldest new-order is found and its order updated, the rest of the step delivers the order. */
  lemma DistrictStepAfter(db: Db, a: Args, districtId: int, orderId: int, ordered: (Db, int))
    requires OldestOrderId(NewOrderRows(db, a.warehouseId, districtId)) == Ok(orderId)
    requires SetCarrier(Delete(db, NewOrder.KeyFor(a.warehouseId, districtId, orderId)), a.warehouseId, districtId,
                        orderId, a.carrierId) == Ok(ordered)
    ensures DistrictStep(db, a, districtId) == DeliverOrder(ordered.0, a, districtId, orderId, ordered.1)
  {
  }

  /** A successful district step found its new-order and updated its order. */
  lemma DistrictStepStages(db: Db, a: Args, districtId: int)
    requires DistrictStep(db, a, districtId).Ok?
    ensures var orderId := OldestOrderId(NewOrderRows(db, a.warehouseId, districtId));
            && orderId.Ok?
            && var ordered := SetCarrier(Delete(db, NewOrder.KeyFor(a.warehouseId, districtId, orderId.value)),
                                         a.warehouseId, districtId, orderId.value, a.carrierId);
               && ordered.Ok?
               && DistrictStep(db, a, districtId)
                    == DeliverOrder(ordered.value.0, a, districtId, orderId.value, ordered.value.1)
  {
  }

  /** The customer update writes the new balance and delivery count under the customer's key and nothing else. */
  lemma CreditCustomerWrites(db: Db, warehouseId: int, districtId: int, customerId: int, total: real)
    requires CreditCustomer(db, warehouseId, districtId, customerId, total).Ok?
    ensures var ck := Customer.KeyFor(warehouseId, districtId, customerId);
            var out := CreditCustomer(db, warehouseId, districtId, customerId, total).value;
            && ck in db
            && DoubleOf(db[ck], Customer.KEY_BALANCE).Ok? && IntOf(db[ck], Customer.KEY_DELIVERY_CNT).Ok?
            && Holds(out, ck, Customer.KEY_BALANCE, DoubleV(DoubleOf(db[ck], Customer.KEY_BALANCE).value + total))
            && Holds(out, ck, Customer.KEY_DELIVERY_CNT,
                     IntV(Wrap32(IntOf(db[ck], Customer.KEY_DELIVERY_CNT).value + 1)))
            && forall k :: k != ck ==> SameRecord(db, out, k)
  {
    var ck := Customer.KeyFor(warehouseId, districtId, customerId);
    Customer.DeliveryColumnsReadBack(db, ck, DoubleOf(db[ck], Customer.KEY_BALANCE).value + total,
                                     Wrap32(IntOf(db[ck], Customer.KEY_DELIVERY_CNT).value + 1));
  }

  /** The carrier update writes o_carrier_id under the order's key and nothing else. */
  lemma SetCarrierWrites(db: Db, warehouseId: int, districtId: int, orderId: int, carrierId: int)
    requires SetCarrier(db, warehouseId, districtId, orderId, carrierId).Ok?
    ensures var ok := Order.KeyFor(warehouseId, districtId, orderId);
            var out := SetCarrier(db, warehouseId, districtId, orderId, carrierId).value;
            && ok in db && IntOf(db[ok], Order.KEY_CUSTOMER_ID) == Ok(out.1)
            && Holds(out.0, ok, Order.KEY_CARRIER_ID, IntV(carrierId))
            && forall k :: k != ok ==> SameRecord(db, out.0, k)
  {
    var ok := Order.KeyFor(warehouseId, districtId, orderId);
    PutReadsBackAt(db, ok, [Column(Order.KEY_CARRIER_ID, IntV(carrierId))], 0);
  }

  /** Delivering an order stamps every line the scan returned with the delivery date. */
  lemma DeliverOrderStamps(db: Db, a: Args, districtId: int, orderId: int, customerId: int)
    requires DeliverOrder(db, a, districtId, orderId, customerId).Ok?
    ensures var lines := LineRows(db, a.warehouseId, districtId, orderId);
            var out := DeliverOrder(db, a, districtId, orderId, customerId).value;
            && (forall i :: 0 <= i < |lines| ==> Deliverable(lines[i]))
            && (forall i :: 0 <= i < |lines| ==>
                  Holds(out, StampedKey(a.warehouseId, districtId, orderId, lines[i]), OrderLine.KEY_DELIVERY_D,
                        BigIntV(a.deliveryDate)))
  {
    var lines := LineRows(db, a.warehouseId, districtId, orderId);
    var delivered := Deliveries(db, a.warehouseId, districtId, orderId, a.deliveryDate, lines, 0.0).value;
    var out := DeliverOrder(db, a, districtId, orderId, customerId).value;
    DeliverOrderAfter(db, a, districtId, orderId, customerId, delivered);
    DeliveriesStamp(db, a.warehouseId, districtId, orderId, a.deliveryDate, lines, 0.0);
    CreditCustomerWrites(delivered.0, a.warehouseId, districtId, customerId, delivered.1);
    forall i | 0 <= i < |lines|
      ensures Holds(out, StampedKey(a.warehouseId, districtId, orderId, lines[i]), OrderLine.KEY_DELIVERY_D,
                    BigIntV(a.deliveryDate))
    {
      assert SameRecord(delivered.0, out, StampedKey(a.warehouseId, districtId, orderId, lines[i]));
    }
  }

  /** Delivering an order credits the customer with the sum of the line amounts and one more delivery. */
  lemma DeliverOrderCredits(db: Db, a: Args, districtId: int, orderId: int, customerId: int)
    requires DeliverOrder(db, a, districtId, orderId, customerId).Ok?
    ensures var lines := LineRows(db, a.warehouseId, districtId, orderId);
            var out := DeliverOrder(db, a, districtId, orderId, customerId).value;
            var ck := Customer.KeyFor(a.warehouseId, districtId, customerId);
            && ck in db && DoubleOf(db[ck], Customer.KEY_BALANCE).Ok? && IntOf(db[ck], Customer.KEY_DELIVERY_CNT).Ok?
            && Holds(out, ck, Customer.KEY_BALANCE,
                     DoubleV(DoubleOf(db[ck], Customer.KEY_BALANCE).value + AmountSum(lines)))
            && Holds(out, ck, Customer.KEY_DELIVERY_CNT, IntV(Wrap32(IntOf(db[ck], Customer.KEY_DELIVERY_CNT).value + 1)))
  {
    var lines := LineRows(db, a.warehouseId, districtId, orderId);
    var delivered := Deliveries(db, a.warehouseId, districtId, orderId, a.deliveryDate, lines, 0.0).value;
    var ck := Customer.KeyFor(a.warehouseId, districtId, customerId);
    DeliverOrderAfter(db, a, districtId, orderId, customerId, delivered);
    DeliveriesFrame(db, a.warehouseId, districtId, orderId, a.deliveryDate, lines, 0.0);
    DeliveriesSum(db, a.warehouseId, districtId, orderId, a.deliveryDate, lines, 0.0);
    assert SameRecord(db, delivered.0, ck);
    assert delivered.1 == AmountSum(lines);
    CreditCustomerWrites(delivered.0, a.warehouseId, districtId, customerId, delivered.1);
  }

  /** Delivering an order changes no record but the customer's outside the order_line table. */
  lemma DeliverOrderFrame(db: Db, a: Args, districtId: int, orderId: int, customerId: int)
    requires DeliverOrder(db, a, districtId, orderId, customerId).Ok?
    ensures var out := DeliverOrder(db, a, districtId, orderId, customerId).value;
            forall k :: k != Customer.KeyFor(a.warehouseId, districtId, customerId) && k.table != OrderLine.TABLE_NAME ==>
                          SameRecord(db, out, k)
  {
    var lines := LineRows(db, a.warehouseId, districtId, orderId);
    var delivered := Deliveries(db, a.warehouseId, districtId, orderId, a.deliveryDate, lines, 0.0).value;
    var out := DeliverOrder(db, a, districtId, orderId, customerId).value;
    DeliverOrderAfter(db, a, districtId, orderId, customerId, delivered);
    DeliveriesFrame(db, a.warehouseId, districtId, orderId, a.deliveryDate, lines, 0.0);
    CreditCustomerWrites(delivered.0, a.warehouseId, districtId, customerId, delivered.1);
    forall k | k != Customer.KeyFor(a.warehouseId, districtId, customerId) && k.table != OrderLine.TABLE_NAME
      ensures SameRecord(db, out, k)
    {
      assert SameRecord(db, delivered.0, k) && SameRecord(delivered.0, out, k);
    }
  }

  /** The order_line scan of a district step sees the lines as they were before the step. */
  lemma StepSeesLines(db: Db, a: Args, districtId: int, orderId: int)
    requires SetCarrier(Delete(db, NewOrder.KeyFor(a.warehouseId, districtId, orderId)), a.warehouseId, districtId,
                        orderId, a.carrierId).Ok?
    ensures var db1 := Delete(db, NewOrder.KeyFor(a.warehouseId, districtId, orderId));
            var db2 := SetCarrier(db1, a.warehouseId, districtId, orderId, a.carrierId).value.0;
            LineRows(db2, a.warehouseId, districtId, orderId) == LineRows(db, a.warehouseId, districtId, orderId)
  {
    var db1 := Delete(db, NewOrder.KeyFor(a.warehouseId, districtId, orderId));
    SetCarrierWrites(db1, a.warehouseId, districtId, orderId, a.carrierId);
    var db2 := SetCarrier(db1, a.warehouseId, districtId, orderId, a.carrierId).value.0;
    forall k: Key | k.table == OrderLine.TABLE_NAME && k.partition == OrderLine.PartitionKey(a.warehouseId, districtId)
      ensures SameRecord(db, db2, k)
    {
      assert SameRecord(db, db1, k) && SameRecord(db1, db2, k);
    }
    ScanSpecFrame(db, db2, OrderLine.TABLE_NAME, OrderLine.PartitionKey(a.warehouseId, districtId),
                  Some((orderId, orderId)), true, 0);
  }

  /**
   * The first half of a district step: the new-order row is deleted and the
   * order's carrier set, and the order_line scan that follows sees the lines
   * as they were.
   */
  lemma DistrictStepUpdatesOrder(db: Db, a: Args, districtId: int, orderId: int, customerId: int)
    requires OldestOrderId(NewOrderRows(db, a.warehouseId, districtId)) == Ok(orderId)
    requires Order.KeyFor(a.warehouseId, districtId, orderId) in db
    requires IntOf(db[Order.KeyFor(a.warehouseId, districtId, orderId)], Order.KEY_CUSTOMER_ID) == Ok(customerId)
    ensures var nk := NewOrder.KeyFor(a.warehouseId, districtId, orderId);
            var ok := Order.KeyFor(a.warehouseId, districtId, orderId);
            var db2 := Put(Delete(db, nk), ok, [Column(Order.KEY_CARRIER_ID, IntV(a.carrierId))]);
            && DistrictStep(db, a, districtId) == DeliverOrder(db2, a, districtId, orderId, customerId)
            && LineRows(db2, a.warehouseId, districtId, orderId) == LineRows(db, a.warehouseId, districtId, orderId)
            && nk !in db2
            && Holds(db2, ok, Order.KEY_CARRIER_ID, IntV(a.carrierId))
            && forall k :: k != nk && k != ok ==> SameRecord(db, db2, k)
  {
    var nk := NewOrder.KeyFor(a.warehouseId, districtId, orderId);
    var db1 := Delete(db, nk);
    assert SameRecord(db, db1, Order.KeyFor(a.warehouseId, districtId, orderId));
    var ordered := SetCarrier(db1, a.warehouseId, districtId, orderId, a.carrierId).value;
    SetCarrierWrites(db1, a.warehouseId, districtId, orderId, a.carrierId);
    DistrictStepAfter(db, a, districtId, orderId, ordered);
    StepSeesLines(db, a, districtId, orderId);
    forall k | k != nk && k != Order.KeyFor(a.warehouseId, districtId, orderId)
      ensures SameRecord(db, ordered.0, k)
    {
      assert SameRecord(db, db1, k) && SameRecord(db1, ordered.0, k);
    }
  }

  /**
   * A district step deletes the new-order row of the order the scan found,
   * sets that order's carrier, and changes no other record outside the
   * order_line table but the customer's.
   */
  lemma DistrictStepFrame(db: Db, a: Args, districtId: int, orderId: int, customerId: int)
    requires OldestOrderId(NewOrderRows(db, a.warehouseId, districtId)) == Ok(orderId)
    requires Order.KeyFor(a.warehouseId, districtId, orderId) in db
    requires IntOf(db[Order.KeyFor(a.warehouseId, districtId, orderId)], Order.KEY_CUSTOMER_ID) == Ok(customerId)
    requires DistrictStep(db, a, districtId).Ok?
    ensures var out := DistrictStep(db, a, districtId).value;
            var nk := NewOrder.KeyFor(a.warehouseId, districtId, orderId);
            var ok := Order.KeyFor(a.warehouseId, districtId, orderId);
            var ck := Customer.KeyFor(a.warehouseId, districtId, customerId);
            && nk !in out
            && Holds(out, ok, Order.KEY_CARRIER_ID, IntV(a.carrierId))
            && forall k :: k != nk && k != ok && k != ck && k.table != OrderLine.TABLE_NAME ==> SameRecord(db, out, k)
  {
    var nk := NewOrder.KeyFor(a.warehouseId, districtId, orderId);
    var ok := Order.KeyFor(a.warehouseId, districtId, orderId);
    var db2 := Put(Delete(db, nk), ok, [Column(Order.KEY_CARRIER_ID, IntV(a.carrierId))]);
    DistrictStepUpdatesOrder(db, a, districtId, orderId, customerId);
    DeliverOrderFrame(db2, a, districtId, orderId, customerId);
    var out := DistrictStep(db, a, districtId).value;
    var ck := Customer.KeyFor(a.warehouseId, districtId, customerId);
    assert SameRecord(db2, out, nk) && SameRecord(db2, out, ok);
    forall k | k != nk && k != ok && k != ck && k.table != OrderLine.TABLE_NAME
      ensures SameRecord(db, out, k)
    {
      assert SameRecord(db, db2, k) && SameRecord(db2, out, k);
    }
  }

  /** A district step stamps every line of the order it found with the delivery date. */
  lemma DistrictStepStamps(db: Db, a: Args, districtId: int, orderId: int, customerId: int)
    requires OldestOrderId(NewOrderRows(db, a.warehouseId, districtId)) == Ok(orderId)
    requires Order.KeyFor(a.warehouseId, districtId, orderId) in db
    requires IntOf(db[Order.KeyFor(a.warehouseId, districtId, orderId)], Order.KEY_CUSTOMER_ID) == Ok(customerId)
    requires DistrictStep(db, a, districtId).Ok?
    ensures var out := DistrictStep(db, a, districtId).value;
            var lines := LineRows(db, a.warehouseId, districtId, orderId);
            && (forall i :: 0 <= i < |lines| ==> Deliverable(lines[i]))
            && (forall i :: 0 <= i < |lines| ==>
                  Holds(out, StampedKey(a.warehouseId, districtId, orderId, lines[i]), OrderLine.KEY_DELIVERY_D,
                        BigIntV(a.deliveryDate)))
  {
    var nk := NewOrder.KeyFor(a.warehouseId, districtId, orderId);
    var ok := Order.KeyFor(a.warehouseId, districtId, orderId);
    var db2 := Put(Delete(db, nk), ok, [Column(Order.KEY_CARRIER_ID, IntV(a.carrierId))]);
    DistrictStepUpdatesOrder(db, a, districtId, orderId, customerId);
    DeliverOrderStamps(db2, a, districtId, orderId, customerId);
  }

  /**
   * Delivering the order on a store whose customer record and order lines are
   * those of `db` credits the customer as `db` holds it.
   */
  lemma DeliverOrderCreditsFrom(db: Db, db2: Db, a: Args, districtId: int, orderId: int, customerId: int)
    requires DeliverOrder(db2, a, districtId, orderId, customerId).Ok?
    requires LineRows(db2, a.warehouseId, districtId, orderId) == LineRows(db, a.warehouseId, districtId, orderId)
    requires SameRecord(db, db2, Customer.KeyFor(a.warehouseId, districtId, customerId))
    ensures var lines := LineRows(db, a.warehouseId, districtId, orderId);
            var out := DeliverOrder(db2, a, districtId, orderId, customerId).value;
            var ck := Customer.KeyFor(a.warehouseId, districtId, customerId);
            && ck in db && DoubleOf(db[ck], Customer.KEY_BALANCE).Ok? && IntOf(db[ck], Customer.KEY_DELIVERY_CNT).Ok?
            && Holds(out, ck, Customer.KEY_BALANCE,
                     DoubleV(DoubleOf(db[ck], Customer.KEY_BALANCE).value + AmountSum(lines)))
            && Holds(out, ck, Customer.KEY_DELIVERY_CNT, IntV(Wrap32(IntOf(db[ck], Customer.KEY_DELIVERY_CNT).value + 1)))
  {
    DeliverOrderCredits(db2, a, districtId, orderId, customerId);
    var ck := Customer.KeyFor(a.warehouseId, districtId, customerId);
    assert ck in db2 && db2[ck] == db[ck];
  }

  /**
   * A district step credits the customer of the order it found with the sum
   * of the order's line amounts and one more delivery.
   */
  lemma DistrictStepCredits(db: Db, a: Args, districtId: int, orderId: int, customerId: int)
    requires OldestOrderId(NewOrderRows(db, a.warehouseId, districtId)) == Ok(orderId)
    requires Order.KeyFor(a.warehouseId, districtId, orderId) in db
    requires IntOf(db[Order.KeyFor(a.warehouseId, districtId, orderId)], Order.KEY_CUSTOMER_ID) == Ok(customerId)
    requires DistrictStep(db, a, districtId).Ok?
    ensures var out := DistrictStep(db, a, districtId).value;
            var lines := LineRows(db, a.warehouseId, districtId, orderId);
            var ck := Customer.KeyFor(a.warehouseId, districtId, customerId);
            && ck in db && DoubleOf(db[ck], Customer.KEY_BALANCE).Ok? && IntOf(db[ck], Customer.KEY_DELIVERY_CNT).Ok?
            && Holds(out, ck, Customer.KEY_BALANCE,
                     DoubleV(DoubleOf(db[ck], Customer.KEY_BALANCE).value + AmountSum(lines)))
            && Holds(out, ck, Customer.KEY_DELIVERY_CNT, IntV(Wrap32(IntOf(db[ck], Customer.KEY_DELIVERY_CNT).value + 1)))
  {
    var nk := NewOrder.KeyFor(a.warehouseId, districtId, orderId);
    var ok := Order.KeyFor(a.warehouseId, districtId, orderId);
    var db2 := Put(Delete(db, nk), ok, [Column(Order.KEY_CARRIER_ID, IntV(a.carrierId))]);
    DistrictStepUpdatesOrder(db, a, districtId, orderId, customerId);
    assert SameRecord(db, db2, Customer.KeyFor(a.warehouseId, districtId, customerId));
    DeliverOrderCreditsFrom(db, db2, a, districtId, orderId, customerId);
  }

  /**
   * A change that touches no new-order record but `nk`, outside the partition
   * of district `other`, leaves that district's new-order rows as they were.
   */
  lemma NewOrderRowsKept(db: Db, out: Db, warehouseId: int, other: int, nk: Key, ok: Key, ck: Key)
    requires nk.partition != NewOrder.PartitionKey(warehouseId, other)
    requires ok.table != NewOrder.TABLE_NAME && ck.table != NewOrder.TABLE_NAME
    requires forall k :: k != nk && k != ok && k != ck && k.table != OrderLine.TABLE_NAME ==> SameRecord(db, out, k)
    ensures NewOrderRows(out, warehouseId, other) == NewOrderRows(db, warehouseId, other)
  {
    ScanSpecFrame(db, out, NewOrder.TABLE_NAME, NewOrder.PartitionKey(warehouseId, other), None, true, 1);
  }

  /** A district step leaves the new-order rows of every other district as they were. */
  lemma DistrictStepKeepsOthers(db: Db, a: Args, districtId: int, other: int)
    requires DistrictStep(db, a, districtId).Ok? && other != districtId
    ensures NewOrderRows(DistrictStep(db, a, districtId).value, a.warehouseId, other)
              == NewOrderRows(db, a.warehouseId, other)
  {
    DistrictStepStages(db, a, districtId);
    var orderId := OldestOrderId(NewOrderRows(db, a.warehouseId, districtId)).value;
    var db1 := Delete(db, NewOrder.KeyFor(a.warehouseId, districtId, orderId));
    SetCarrierWrites(db1, a.warehouseId, districtId, orderId, a.carrierId);
    var customerId := SetCarrier(db1, a.warehouseId, districtId, orderId, a.carrierId).value.1;
    DistrictStepFrame(db, a, districtId, orderId, customerId);
    var nk := NewOrder.KeyFor(a.warehouseId, districtId, orderId);
    assert nk.partition[1] != NewOrder.PartitionKey(a.warehouseId, other)[1];
    NewOrderRowsKept(db, DistrictStep(db, a, districtId).value, a.warehouseId, other, nk,
                     Order.KeyFor(a.warehouseId, districtId, orderId), Customer.KeyFor(a.warehouseId, districtId, customerId));
  }

  /** A district step succeeds only when the new-order scan returned one row. */
  lemma DistrictStepNeedsOne(db: Db, a: Args, districtId: int)
    requires DistrictStep(db, a, districtId).Ok?
    ensures |NewOrderRows(db, a.warehouseId, districtId)| == 1
  {
  }

  /**
   * No district is skipped: when the scan of any district's new-orders does
   * not return exactly one row, the whole transaction fails; so does a failed
   * commit.
   */
  lemma ExecutionNeedsEveryDistrict(db: Db, a: Args, committed: bool)
    ensures (exists d :: 1 <= d <= DISTRICTS && |NewOrderRows(db, a.warehouseId, d)| != 1) ==>
              Execution(db, a, committed).Err?
    ensures !committed ==> Execution(db, a, committed).Err?
  {
    if Loop(db, StepOf(a), DISTRICTS).Ok? {
      var need := (x: Db, d: int) => |NewOrderRows(x, a.warehouseId, d)| == 1;
      forall x: Db, d: int | StepOf(a)(x, d).Ok?
        ensures need(x, d)
      {
        DistrictStepNeedsOne(x, a, d);
      }
      forall x: Db, d: int, e: int | d < e && StepOf(a)(x, d).Ok?
        ensures need(StepOf(a)(x, d).value, e) == need(x, e)
      {
        DistrictStepKeepsOthers(x, a, d, e);
      }
      LoopNeedsEach(db, StepOf(a), DISTRICTS, need);
      forall d | 1 <= d <= DISTRICTS
        ensures |NewOrderRows(db, a.warehouseId, d)| == 1
      {
        assert need(db, d);
      }
    }
  }

  class DeliveryTransaction {
    var warehouseId: int
    var carrierId: int
    var deliveryDate: int

    /** The arguments the fields hold. */
    function Arguments(): Args
      reads this
    {
      Args(warehouseId, carrierId, deliveryDate)
    }

    /** A transaction object before its first generate: every field at its default. */
    constructor ()
      ensures Arguments() == Args(0, 0, 0)
    {
      warehouseId, carrierId, deliveryDate := 0, 0, 0;
    }

    /** generate(numWarehouse): the warehouse, a carrier in [1, 10] and the current date `now`. */
    method Generate(numWarehouse: int, warehouseDraw: int, carrierDraw: int, now: int)
      requires 1 <= warehouseDraw <= numWarehouse && 1 <= carrierDraw <= 10
      modifies this
      ensures Arguments() == Args(warehouseDraw, carrierDraw, now)
      ensures 1 <= warehouseId <= numWarehouse && 1 <= carrierId <= 10
    {
      warehouseId, carrierId, deliveryDate := warehouseDraw, carrierDraw, now;
    }

    /** The loop over the scanned order lines of one order. */
    method DeliverLines(tx: Db, districtId: int, orderId: int, lines: seq<Entry>) returns (r: Result<(Db, real), TxError>)
      ensures r == Deliveries(tx, warehouseId, districtId, orderId, deliveryDate, lines, 0.0)
    {
      var db := tx;
      var total := 0.0;
      for i := 0 to |lines|
        invariant Deliveries(tx, warehouseId, districtId, orderId, deliveryDate, lines, 0.0)
                  == Deliveries(db, warehouseId, districtId, orderId, deliveryDate, lines[i..], total)
      {
        assert lines[i..][1..] == lines[i + 1..];
        var number :- IntOf(lines[i].row, OrderLine.KEY_NUMBER);
        var amount :- DoubleOf(lines[i].row, OrderLine.KEY_AMOUNT);
        total := total + amount;
        db := Put(db, OrderLine.KeyFor(warehouseId, districtId, orderId, number),
                  [Column(OrderLine.KEY_DELIVERY_D, BigIntV(deliveryDate))]);
      }
      assert lines[|lines|..] == [];
      return Ok((db, total));
    }

    /** The order read-modify-write of one district: read the customer id, set the carrier. */
    method UpdateOrder(tx: Db, districtId: int, orderId: int) returns (r: Result<(Db, int), TxError>)
      ensures r == SetCarrier(tx, warehouseId, districtId, orderId, carrierId)
    {
      var order :- GetOr(tx, Order.KeyFor(warehouseId, districtId, orderId), "Order not found");
      var customerId :- IntOf(order, Order.KEY_CUSTOMER_ID);
      return Ok((Put(tx, Order.KeyFor(warehouseId, districtId, orderId),
                     [Column(Order.KEY_CARRIER_ID, IntV(carrierId))]), customerId));
    }

    /** The customer read-modify-write of one district: the balance plus the total, one more delivery. */
    method UpdateCustomer(tx: Db, districtId: int, customerId: int, total: real) returns (r: Result<Db, TxError>)
      ensures r == CreditCustomer(tx, warehouseId, districtId, customerId, total)
    {
      var customerKey := Customer.KeyFor(warehouseId, districtId, customerId);
      var customer :- GetOr(tx, customerKey, "Customer not found");
      var balance :- DoubleOf(customer, Customer.KEY_BALANCE);
      var count :- IntOf(customer, Customer.KEY_DELIVERY_CNT);
      return Ok(Put(tx, customerKey, Customer.DeliveryColumns(balance + total, Wrap32(count + 1))));
    }

    /** The order lines and the customer of one district. */
    method DeliverOrderLines(tx: Db, districtId: int, orderId: int, customerId: int) returns (r: Result<Db, TxError>)
      ensures r == DeliverOrder(tx, Arguments(), districtId, orderId, customerId)
    {
      var orderLines := OrderLine.Scan(tx, warehouseId, districtId, orderId);
      var delivered :- DeliverLines(tx, districtId, orderId, orderLines);
      DeliverOrderAfter(tx, Arguments(), districtId, orderId, customerId, delivered);
      r := UpdateCustomer(delivered.0, districtId, customerId, delivered.1);
    }

    /** One iteration of the district loop of execute; `step` is the district step as a function value. */
    method DeliverDistrict(tx: Db, districtId: int, ghost step: (Db, int) -> Result<Db, TxError>)
      returns (r: Result<Db, TxError>)
      requires forall x: Db, d: int {:trigger DistrictStep(x, Arguments(), d)} ::
                 step(x, d) == DistrictStep(x, Arguments(), d)
      ensures r == step(tx, districtId)
    {
      assert step(tx, districtId) == DistrictStep(tx, Arguments(), districtId);
      var newOrders := NewOrder.Scan(tx, warehouseId, districtId);
      if |newOrders| != 1 {
        return Err(NotFound(INVALID_SCAN));
      }
      var orderId :- IntOf(newOrders[0].row, NewOrder.KEY_ORDER_ID);
      var db := Delete(tx, NewOrder.KeyFor(warehouseId, districtId, orderId));
      var ordered :- UpdateOrder(db, districtId, orderId);
      DistrictStepAfter(tx, Arguments(), districtId, orderId, ordered);
      r := DeliverOrderLines(ordered.0, districtId, orderId, ordered.1);
    }

    /**
     * The district loop of execute: districts 1 to 10 in ascending order in
     * one transaction. `step` is the district step as a function value.
     */
    method DeliverDistricts(db: Db, ghost step: (Db, int) -> Result<Db, TxError>) returns (r: Result<Db, TxError>)
      requires forall x: Db, d: int {:trigger DistrictStep(x, Arguments(), d)} ::
                 step(x, d) == DistrictStep(x, Arguments(), d)
      ensures r == Loop(db, step, DISTRICTS)
    {
      var tx := db;
      for districtId := 1 to DISTRICTS + 1
        invariant Loop(db, step, districtId - 1) == Ok(tx)
      {
        var next := DeliverDistrict(tx, districtId, step);
        if next.Err? {
          LoopStopAt(db, step, districtId, DISTRICTS);
          return Err(next.error);
        }
        tx := next.value;
      }
      return Ok(tx);
    }

    /** execute: the district loop, then the commit. */
    method Execute(db: Db, committed: bool) returns (r: Result<Db, TxError>)
      ensures r == Execution(db, Arguments(), committed)
    {
      var tx :- DeliverDistricts(db, StepOf(Arguments()));
      if !committed {
        return Err(Conflict);
      }
      return Ok(tx);
    }
  }
}
