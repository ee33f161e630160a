// The New-Order transaction profile (TPC-C clause 2.4).  `generate` draws the
// arguments into the transaction object's fields and three int arrays;
// `execute` reads the warehouse, district and customer, bumps the district's
// next order id, inserts the new-order and order rows, and for every line
// reads the item and the stock, rewrites the stock counters and inserts the
// order line, then commits.  Any exception aborts the transaction, so the
// store is either the result of every write or unchanged.
module NewOrderTx {
  import opened Wrappers
  import opened Store
  import opened Records
  import opened JavaInt
  import opened Schema
  import opened Loops
  import TpccUtil
  import Warehouse
  import District
  import Customer
  import Item
  import Stock
  import NewOrder
  import Order
  import OrderLine

  /** The draws generate takes for one order line. */
  datatype LineDraw = LineDraw(itemX: int, itemY: int, remoteDraw: int, supplierDraw: int, quantityDraw: int)

  /**
   * The ranges of a line's other draws (the NURand item draws are bounded
   * apart): a 1..100 draw deciding remoteness, a quantity in [1, 10], and, for
   * a remote line, the first supplier draw of the do-while that differs from
   * the home warehouse.
   */
  predicate ValidLineDraw(l: LineDraw, numWarehouse: int, home: int)
  {
    && 1 <= l.remoteDraw <= 100 && 1 <= l.quantityDraw <= 10
    && (!IsHomeLine(l, numWarehouse) ==> 1 <= l.supplierDraw <= numWarehouse && l.supplierDraw != home)
  }

  /** A line is supplied by the home warehouse when there is one warehouse or its draw is above 1. */
  predicate IsHomeLine(l: LineDraw, numWarehouse: int)
  {
    numWarehouse == 1 || l.remoteDraw > 1
  }

  /** The arguments execute works from: the fields generate sets. */
  datatype Args = Args(warehouseId: int, districtId: int, customerId: int, orderLineCount: int,
                       itemIds: seq<int>, supplierWarehouseIds: seq<int>, orderQuantities: seq<int>,
                       remote: bool, date: int)

  predicate WellShaped(a: Args)
  {
    && a.orderLineCount >= 0 && |a.itemIds| == a.orderLineCount
    && |a.supplierWarehouseIds| == a.orderLineCount && |a.orderQuantities| == a.orderLineCount
  }

  /** What the header reads: the new order's id, both taxes and the customer's discount. */
  datatype Header = Header(orderId: int, warehouseTax: real, districtTax: real, discount: real)

  /** A line's amount: quantity * price * (1 + warehouse tax + district tax) * (1 - discount). */
  function LineAmount(quantity: int, price: real, h: Header): real
  {
    (quantity as real) * price * (1.0 + h.warehouseTax + h.districtTax) * (1.0 - h.discount)
  }

  /**
   * The stock quantity execute computes (and then does not write): the order
   * quantity is taken off, and 91 is added back when fewer than 10 would remain.
   */
  function AdjustedQuantity(stockQuantity: int, quantity: int): (r: int)
    ensures stockQuantity > quantity + 10 ==> r == stockQuantity - quantity
    ensures stockQuantity <= quantity + 10 ==> r == stockQuantity - quantity + 91
    ensures 10 <= stockQuantity <= 101 && 1 <= quantity <= 10 ==> 11 <= r <= 101
  {
    if stockQuantity > quantity + 10 then stockQuantity - quantity else (stockQuantity - quantity) + 91
  }

  /** getDistInfo: the stock row's information string for the district; other ids throw. */
  function DistInfo(stock: Row, districtId: int): (r: Result<string, TxError>)
    ensures !(1 <= districtId <= DISTRICTS) ==> r == Err(NotFound("No such district ID"))
    ensures 1 <= districtId <= DISTRICTS ==>
              r == TextOf(stock, Stock.DistName(districtId - 1))
  {
    match Stock.DistKey(districtId)
    case None => Err(NotFound("No such district ID"))
    case Some(name) => TextOf(stock, name)
  }

  // ---- the header -----------------------------------------------------------------

  /** The district put: only the next order id, orderId + 1 as a Java int. */
  function NextOrderIdColumns(orderId: int): seq<Column>
  {
    [Column(District.KEY_NEXT_O_ID, IntV(Wrap32(orderId + 1)))]
  }

  /**
   * The header's three puts: the district's next order id, the new-order row
   * and the order row (carrier 0, the line count, all-local unless remote).
   */
  function WriteHeader(db: Db, a: Args, orderId: int): Db
  {
    var db1 := Put(db, District.KeyFor(a.warehouseId, a.districtId), NextOrderIdColumns(orderId));
    var db2 := Put(db1, NewOrder.KeyFor(a.warehouseId, a.districtId, orderId), []);
    Put(db2, Order.KeyFor(a.warehouseId, a.districtId, orderId),
        Order.Columns(a.customerId, 0, a.orderLineCount, if a.remote then 0 else 1, a.date))
  }

  /**
   * What the header leaves in the store for order `orderId`: the district's
   * next order id is orderId + 1 (as a Java int), the new-order row exists and
   * the order row holds the customer, carrier 0, the line count and the
   * all-local flag (0 when remote).
   */
  predicate HeaderWritten(db: Db, a: Args, orderId: int)
  {
    && Holds(db, District.KeyFor(a.warehouseId, a.districtId), District.KEY_NEXT_O_ID, IntV(Wrap32(orderId + 1)))
    && NewOrder.KeyFor(a.warehouseId, a.districtId, orderId) in db
    && var ok := Order.KeyFor(a.warehouseId, a.districtId, orderId);
       && Holds(db, ok, Order.KEY_CUSTOMER_ID, IntV(a.customerId))
       && Holds(db, ok, Order.KEY_CARRIER_ID, IntV(0))
       && Holds(db, ok, Order.KEY_OL_CNT, IntV(a.orderLineCount))
       && Holds(db, ok, Order.KEY_ALL_LOCAL, IntV(if a.remote then 0 else 1))
  }

  /** The tables a new-order writes: district, new_order, oorder, stock and order_line. */
  predicate Written(table: string)
  {
    || table == District.TABLE_NAME || table == NewOrder.TABLE_NAME || table == Order.TABLE_NAME
    || table == Stock.TABLE_NAME || table == OrderLine.TABLE_NAME
  }

  /** The header's puts leave the header written and every table new-order does not write alone. */
  lemma WriteHeaderWrites(db: Db, a: Args, orderId: int)
    ensures HeaderWritten(WriteHeader(db, a, orderId), a, orderId)
    ensures forall k: Key :: !Written(k.table) ==> SameRecord(db, WriteHeader(db, a, orderId), k)
    ensures StockFrom(db, WriteHeader(db, a, orderId))
  {
    var dk := District.KeyFor(a.warehouseId, a.districtId);
    var db1 := Put(db, dk, NextOrderIdColumns(orderId));
    var db2 := Put(db1, NewOrder.KeyFor(a.warehouseId, a.districtId, orderId), []);
    PutReadsBackAt(db, dk, NextOrderIdColumns(orderId), 0);
    Order.ColumnsReadBack(db2, Order.KeyFor(a.warehouseId, a.districtId, orderId), a.customerId, 0,
                          a.orderLineCount, if a.remote then 0 else 1, a.date);
  }

  // ---- one order line ---------------------------------------------------------------

  /** What a line reads: the item's price and, from the stock row, the counters, quantity and district info. */
  datatype LineRead = LineRead(price: real, ytd: real, orderCount: int, remoteCount: int,
                               stockQuantity: int, info: string)

  /**
   * The reads of line `i`: the item (missing: "Item not found"), its price,
   * the stock row of the home warehouse (missing: "Stock not found"), its ytd,
   * order count, remote count, quantity and the district's information string.
   */
  function ReadLine(db: Db, a: Args, i: int): (r: Result<LineRead, TxError>)
    requires WellShaped(a) && 0 <= i < a.orderLineCount
    ensures Item.KeyFor(a.itemIds[i]) !in db ==> r == Err(NotFound("Item not found"))
    ensures r.Ok? ==>
              && Item.KeyFor(a.itemIds[i]) in db
              && var stockKey := Stock.KeyFor(a.warehouseId, a.itemIds[i]);
                 && stockKey in db
                 && DoubleOf(db[stockKey], Stock.KEY_YTD) == Ok(r.value.ytd)
                 && IntOf(db[stockKey], Stock.KEY_ORDER_CNT) == Ok(r.value.orderCount)
                 && IntOf(db[stockKey], Stock.KEY_REMOTE_CNT) == Ok(r.value.remoteCount)
  {
    var item :- GetOr(db, Item.KeyFor(a.itemIds[i]), "Item not found");
    var price :- DoubleOf(item, Item.KEY_PRICE);
    var stock :- GetOr(db, Stock.KeyFor(a.warehouseId, a.itemIds[i]), "Stock not found");
    var ytd :- DoubleOf(stock, Stock.KEY_YTD);
    var orderCount :- IntOf(stock, Stock.KEY_ORDER_CNT);
    var remoteCount :- IntOf(stock, Stock.KEY_REMOTE_CNT);
    var stockQuantity :- IntOf(stock, Stock.KEY_QUANTITY);
    var info :- DistInfo(stock, a.districtId);
    Ok(LineRead(price, ytd, orderCount, remoteCount, stockQuantity, info))
  }

  /**
   * The writes of line `i` after its reads: the stock row of the home
   * warehouse and the item gets s_quantity set to the order quantity, the ytd
   * raised by it, the order count raised by one and the remote count by one
   * iff the order is remote; order line i + 1 gets the item, the supplier, the
   * amount, the quantity and the district information.
   */
  function LineWrite(db: Db, a: Args, h: Header, i: int, rd: LineRead): Db
    requires WellShaped(a) && 0 <= i < a.orderLineCount
  {
    var q := a.orderQuantities[i];
    var db1 := Put(db, Stock.KeyFor(a.warehouseId, a.itemIds[i]),
                   Stock.CountColumns(q, rd.ytd + q as real, Wrap32(rd.orderCount + 1),
                                      if a.remote then Wrap32(rd.remoteCount + 1) else rd.remoteCount));
    Put(db1, OrderLine.KeyFor(a.warehouseId, a.districtId, h.orderId, i + 1),
        OrderLine.Columns(a.supplierWarehouseIds[i], LineAmount(q, rd.price, h), q, a.itemIds[i], rd.info))
  }

  /** Line `i`: its reads, then its writes; the first failed read aborts. */
  function LineStep(db: Db, a: Args, h: Header, i: int): Result<Db, TxError>
    requires WellShaped(a) && 0 <= i < a.orderLineCount
  {
    var rd :- ReadLine(db, a, i);
    Ok(LineWrite(db, a, h, i, rd))
  }

  /** Line `i` writes its stock row and order line i + 1, and no other record. */
  lemma LineWriteFrame(db: Db, a: Args, h: Header, i: int, rd: LineRead, k: Key)
    requires WellShaped(a) && 0 <= i < a.orderLineCount
    requires k.table != Stock.TABLE_NAME && k != OrderLine.KeyFor(a.warehouseId, a.districtId, h.orderId, i + 1)
    ensures SameRecord(db, LineWrite(db, a, h, i, rd), k)
  {
  }

  /** Line i + 1, as the order line row holds it: its item, supplier and quantity. */
  predicate LineWritten(db: Db, a: Args, orderId: int, j: int)
    requires WellShaped(a) && 0 <= j < a.orderLineCount
  {
    var k := OrderLine.KeyFor(a.warehouseId, a.districtId, orderId, j + 1);
    && Holds(db, k, OrderLine.KEY_ITEM_ID, IntV(a.itemIds[j]))
    && Holds(db, k, OrderLine.KEY_SUPPLY_W_ID, IntV(a.supplierWarehouseIds[j]))
    && Holds(db, k, OrderLine.KEY_QUANTITY, IntV(a.orderQuantities[j]))
  }

  /** A line's writes put its own order line. */
  lemma LineWriteWrites(db: Db, a: Args, h: Header, i: int, rd: LineRead)
    requires WellShaped(a) && 0 <= i < a.orderLineCount
    ensures LineWritten(LineWrite(db, a, h, i, rd), a, h.orderId, i)
  {
    var q := a.orderQuantities[i];
    var db1 := Put(db, Stock.KeyFor(a.warehouseId, a.itemIds[i]),
                   Stock.CountColumns(q, rd.ytd + q as real, Wrap32(rd.orderCount + 1),
                                      if a.remote then Wrap32(rd.remoteCount + 1) else rd.remoteCount));
    OrderLine.ColumnsReadBack(db1, OrderLine.KeyFor(a.warehouseId, a.districtId, h.orderId, i + 1),
                              a.supplierWarehouseIds[i], LineAmount(q, rd.price, h), q, a.itemIds[i], rd.info);
  }

  /**
   * The stock write of a line: keyed by the home warehouse and the item (not
   * the supplier), s_quantity set to the order quantity, ytd raised by the
   * quantity, the order count by one and the remote count by one iff the
   * order is remote.
   */
  lemma StockWrite(db: Db, a: Args, h: Header, i: int)
    requires WellShaped(a) && 0 <= i < a.orderLineCount && LineStep(db, a, h, i).Ok?
    ensures var k := Stock.KeyFor(a.warehouseId, a.itemIds[i]);
            && k in db
            && DoubleOf(db[k], Stock.KEY_YTD).Ok? && IntOf(db[k], Stock.KEY_ORDER_CNT).Ok?
            && IntOf(db[k], Stock.KEY_REMOTE_CNT).Ok?
            && var db' := LineStep(db, a, h, i).value;
               var q := a.orderQuantities[i];
               var remoteCount := IntOf(db[k], Stock.KEY_REMOTE_CNT).value;
               && Holds(db', k, Stock.KEY_QUANTITY, IntV(q))
               && Holds(db', k, Stock.KEY_YTD, DoubleV(DoubleOf(db[k], Stock.KEY_YTD).value + q as real))
               && Holds(db', k, Stock.KEY_ORDER_CNT, IntV(Wrap32(IntOf(db[k], Stock.KEY_ORDER_CNT).value + 1)))
               && Holds(db', k, Stock.KEY_REMOTE_CNT,
                        IntV(if a.remote then Wrap32(remoteCount + 1) else remoteCount))
  {
    var rd := ReadLine(db, a, i).value;
    var q := a.orderQuantities[i];
    var k := Stock.KeyFor(a.warehouseId, a.itemIds[i]);
    Stock.CountColumnsReadBack(db, k, q, rd.ytd + q as real, Wrap32(rd.orderCount + 1),
                               if a.remote then Wrap32(rd.remoteCount + 1) else rd.remoteCount);
  }

  /**
   * What lines 0 .. n - 1 establish, from a store `db` before execute: the
   * header, those lines, their items and stock rows present in `db`, every
   * stock row of `tx` already in `db`, and every record of a table new-order
   * does not write as it was in `db`.
   */
  /** Every stock row of `tx` is one `db` already has: new-order updates stock rows but never creates one. */
  ghost predicate StockFrom(db: Db, tx: Db)
  {
    forall k: Key :: k in tx && k.table == Stock.TABLE_NAME ==> k in db
  }

  ghost predicate Progress(db: Db, tx: Db, a: Args, h: Header, n: int)
    requires WellShaped(a) && 0 <= n <= a.orderLineCount
  {
    && HeaderWritten(tx, a, h.orderId)
    && (forall j :: 0 <= j < n ==> LineWritten(tx, a, h.orderId, j))
    && (forall j :: 0 <= j < n ==> Item.KeyFor(a.itemIds[j]) in db)
    && (forall j :: 0 <= j < n ==> Stock.KeyFor(a.warehouseId, a.itemIds[j]) in db)
    && StockFrom(db, tx)
    && (forall k: Key {:trigger SameRecord(db, tx, k)} :: !Written(k.table) ==> SameRecord(db, tx, k))
  }

  /** Line `i`'s writes leave the order lines before it as they were. */
  lemma LineWriteKeepsEarlier(tx: Db, a: Args, h: Header, i: int, rd: LineRead)
    requires WellShaped(a) && 0 <= i < a.orderLineCount
    requires forall j :: 0 <= j < i ==> LineWritten(tx, a, h.orderId, j)
    ensures forall j :: 0 <= j < i ==> LineWritten(LineWrite(tx, a, h, i, rd), a, h.orderId, j)
  {
    forall j | 0 <= j < i
      ensures LineWritten(LineWrite(tx, a, h, i, rd), a, h.orderId, j)
    {
      var k := OrderLine.KeyFor(a.warehouseId, a.districtId, h.orderId, j + 1);
      assert k.clustering[1] != OrderLine.KeyFor(a.warehouseId, a.districtId, h.orderId, i + 1).clustering[1];
      LineWriteFrame(tx, a, h, i, rd, k);
      assert LineWritten(tx, a, h.orderId, j);
    }
  }

  /** Line `i`'s writes keep the header and every record of a table new-order does not write. */
  lemma LineWriteKeepsHeader(db: Db, tx: Db, a: Args, h: Header, i: int, rd: LineRead)
    requires WellShaped(a) && 0 <= i < a.orderLineCount
    requires HeaderWritten(tx, a, h.orderId) && forall k: Key :: !Written(k.table) ==> SameRecord(db, tx, k)
    ensures HeaderWritten(LineWrite(tx, a, h, i, rd), a, h.orderId)
    ensures forall k: Key :: !Written(k.table) ==> SameRecord(db, LineWrite(tx, a, h, i, rd), k)
  {
    LineWriteFrame(tx, a, h, i, rd, District.KeyFor(a.warehouseId, a.districtId));
    LineWriteFrame(tx, a, h, i, rd, NewOrder.KeyFor(a.warehouseId, a.districtId, h.orderId));
    LineWriteFrame(tx, a, h, i, rd, Order.KeyFor(a.warehouseId, a.districtId, h.orderId));
    forall k: Key | !Written(k.table)
      ensures SameRecord(db, LineWrite(tx, a, h, i, rd), k)
    {
      LineWriteFrame(tx, a, h, i, rd, k);
    }
  }

  /** The writes of line `i`, whose item and stock row were in the original store, extend the progress of lines 0 .. i - 1. */
  lemma LineWriteKeeps(db: Db, tx: Db, a: Args, h: Header, i: int, rd: LineRead)
    requires WellShaped(a) && 0 <= i < a.orderLineCount
    requires Progress(db, tx, a, h, i) && Item.KeyFor(a.itemIds[i]) in db
    requires Stock.KeyFor(a.warehouseId, a.itemIds[i]) in db
    ensures Progress(db, LineWrite(tx, a, h, i, rd), a, h, i + 1)
  {
    assert OrderLine.KeyFor(a.warehouseId, a.districtId, h.orderId, i + 1).table != Stock.TABLE_NAME;
    LineWriteWrites(tx, a, h, i, rd);
    LineWriteKeepsEarlier(tx, a, h, i, rd);
    LineWriteKeepsHeader(db, tx, a, h, i, rd);
  }

  /** A successful line `i`, run after lines 0 .. i - 1, extends their progress. */
  lemma LineStepKeeps(db: Db, tx: Db, a: Args, h: Header, i: int)
    requires WellShaped(a) && 0 <= i < a.orderLineCount
    requires Progress(db, tx, a, h, i) && LineStep(tx, a, h, i).Ok?
    ensures Progress(db, LineStep(tx, a, h, i).value, a, h, i + 1)
  {
    var rd := ReadLine(tx, a, i).value;
    assert SameRecord(db, tx, Item.KeyFor(a.itemIds[i]));
    assert Stock.KeyFor(a.warehouseId, a.itemIds[i]) in tx;
    LineWriteKeeps(db, tx, a, h, i, rd);
  }

  /**
   * What generate's line loop draws for `lines`: each line's NURand item id,
   * its supplier (the home warehouse unless the line is remote) and its
   * quantity, and whether any line is remote.
   */
  ghost predicate LinesDrawn(items: seq<int>, suppliers: seq<int>, quantities: seq<int>, isRemote: bool,
                             lines: seq<LineDraw>, numWarehouse: int, home: int)
  {
    && |items| == |lines| && |suppliers| == |lines| && |quantities| == |lines|
    && (forall j {:trigger lines[j]} :: 0 <= j < |lines| ==>
          && 0 <= lines[j].itemX <= 8191 && 1 <= lines[j].itemY <= ITEMS
          && items[j] == TpccUtil.ItemId(lines[j].itemX, lines[j].itemY))
    && (forall j :: 0 <= j < |lines| ==>
          suppliers[j] == if IsHomeLine(lines[j], numWarehouse) then home else lines[j].supplierDraw)
    && (forall j :: 0 <= j < |lines| ==> quantities[j] == lines[j].quantityDraw)
    && (isRemote <==> exists j :: 0 <= j < |lines| && !IsHomeLine(lines[j], numWarehouse))
  }

  /**
   * The drawn lines' ranges: items in [1, ITEMS], quantities in [1, 10],
   * suppliers among the warehouses and equal to the home warehouse exactly on
   * home lines, so the order is remote exactly when some supplier is not the
   * home warehouse.
   */
  lemma DrawnRanges(items: seq<int>, suppliers: seq<int>, quantities: seq<int>, isRemote: bool,
                    lines: seq<LineDraw>, numWarehouse: int, home: int)
    requires 1 <= home <= numWarehouse
    requires forall i :: 0 <= i < |lines| ==> ValidLineDraw(lines[i], numWarehouse, home)
    requires LinesDrawn(items, suppliers, quantities, isRemote, lines, numWarehouse, home)
    ensures forall j :: 0 <= j < |lines| ==> 1 <= items[j] <= ITEMS && 1 <= quantities[j] <= 10
    ensures forall j :: 0 <= j < |lines| ==>
              1 <= suppliers[j] <= numWarehouse && (suppliers[j] == home <==> IsHomeLine(lines[j], numWarehouse))
    ensures isRemote <==> exists j :: 0 <= j < |lines| && suppliers[j] != home
  {
    forall j | 0 <= j < |lines|
      ensures 1 <= items[j] <= ITEMS
    {
      assert items[j] == TpccUtil.ItemId(lines[j].itemX, lines[j].itemY);
    }
  }

  /**
   * The line loop of generate: for each line a NURand item, the supplier (the
   * home warehouse unless the line is remote) and the quantity, into three
   * fresh arrays; whether any line was remote.
   */
  method DrawLines(numWarehouse: int, warehouseDraw: int, lines: seq<LineDraw>)
    returns (items: array<int>, suppliers: array<int>, quantities: array<int>, isRemote: bool)
    requires 1 <= warehouseDraw <= numWarehouse
    requires forall i :: 0 <= i < |lines| ==> 0 <= lines[i].itemX <= 8191 && 1 <= lines[i].itemY <= ITEMS
    ensures fresh(items) && fresh(suppliers) && fresh(quantities)
    ensures items != suppliers && items != quantities && suppliers != quantities
    ensures LinesDrawn(items[..], suppliers[..], quantities[..], isRemote, lines, numWarehouse, warehouseDraw)
  {
    items := new int[|lines|];
    suppliers := new int[|lines|];
    quantities := new int[|lines|];
    isRemote := false;
    for i := 0 to |lines|
      invariant forall j :: 0 <= j < i ==> items[j] == TpccUtil.ItemId(lines[j].itemX, lines[j].itemY)
      invariant forall j :: 0 <= j < i ==>
                  suppliers[j] == if IsHomeLine(lines[j], numWarehouse) then warehouseDraw else lines[j].supplierDraw
      invariant forall j :: 0 <= j < i ==> quantities[j] == lines[j].quantityDraw
      invariant isRemote <==> exists j :: 0 <= j < i && !IsHomeLine(lines[j], numWarehouse)
    {
      var supplier;
      if numWarehouse == 1 || lines[i].remoteDraw > 1 {
        supplier := warehouseDraw;
      } else {
        supplier := lines[i].supplierDraw;
        isRemote := true;
      }
      items[i], suppliers[i], quantities[i] := TpccUtil.ItemId(lines[i].itemX, lines[i].itemY), supplier,
                                               lines[i].quantityDraw;
    }
  }

  /** The rollback of generate: the last item id moved past the item range, to an id no item has. */
  method MoveLastItem(items: array<int>)
    requires items.Length > 0
    modifies items
    ensures items[..] == old(items[..])[items.Length - 1 := old(items[items.Length - 1]) + ITEMS]
  {
    items[items.Length - 1] := items[items.Length - 1] + ITEMS;
  }

  // ---- the whole transaction ----------------------------------------------------------

  /**
   * The header of execute: the warehouse (missing: "Warehouse not found") and
   * its tax, the district (missing: "District not found"), its tax and next
   * order id, the put of the bumped id, the customer (missing: "Customer not
   * found") and its discount; then the new-order and order puts.
   */
  function HeaderStep(db: Db, a: Args): (r: Result<(Db, Header), TxError>)
  {
    var warehouse :- GetOr(db, Warehouse.KeyFor(a.warehouseId), "Warehouse not found");
    var warehouseTax :- DoubleOf(warehouse, Warehouse.KEY_TAX);
    var districtKey := District.KeyFor(a.warehouseId, a.districtId);
    var district :- GetOr(db, districtKey, "District not found");
    var districtTax :- DoubleOf(district, District.KEY_TAX);
    var orderId :- IntOf(district, District.KEY_NEXT_O_ID);
    var bumped := Put(db, districtKey, NextOrderIdColumns(orderId));
    var customer :- GetOr(bumped, Customer.KeyFor(a.warehouseId, a.districtId, a.customerId), "Customer not found");
    var discount :- DoubleOf(customer, Customer.KEY_DISCOUNT);
    Ok((WriteHeader(db, a, orderId), Header(orderId, warehouseTax, districtTax, discount)))
  }

  /**
   * Pass `number` of execute's line loop: line number - 1 (numbers outside
   * 1 .. orderLineCount are never run and change nothing).
   */
  ghost function LineAt(db: Db, a: Args, h: Header, number: int): Result<Db, TxError>
  {
    if WellShaped(a) && 1 <= number <= a.orderLineCount then LineStep(db, a, h, number - 1) else Ok(db)
  }

  /** One pass of the line loop for these arguments and header, as a function value. */
  ghost function StepOf(a: Args, h: Header): (Db, int) -> Result<Db, TxError>
  {
    (x: Db, number: int) => LineAt(x, a, h, number)
  }

  /** execute as a whole: the header, every line, then the commit (a conflict aborts). */
  ghost function Execution(db: Db, a: Args, committed: bool): Result<Db, TxError>
  {
    var start :- HeaderStep(db, a);
    var passes: nat := if a.orderLineCount < 0 then 0 else a.orderLineCount;
    var done :- Loop(start.0, StepOf(a, start.1), passes);
    if committed then Ok(done) else Err(Conflict)
  }

  /** Pass `number` of the line loop extends the progress of the passes before it. */
  lemma LineAtKeeps(db: Db, tx: Db, a: Args, h: Header, number: int)
    requires WellShaped(a) && 1 <= number <= a.orderLineCount
    requires Progress(db, tx, a, h, number - 1) && LineAt(tx, a, h, number).Ok?
    ensures Progress(db, LineAt(tx, a, h, number).value, a, h, number)
  {
    LineStepKeeps(db, tx, a, h, number - 1);
  }

  /**
   * Lines run from a store holding the header keep the header and every
   * record of a table new-order does not write, write each of their order
   * lines, and only succeed when each line's item was in the original store.
   */
  lemma LinesKeep(db: Db, tx: Db, a: Args, h: Header)
    requires WellShaped(a) && Progress(db, tx, a, h, 0)
    ensures var done := Loop(tx, StepOf(a, h), a.orderLineCount);
            done.Ok? ==> Progress(db, done.value, a, h, a.orderLineCount)
  {
    var inv := (x: Db, n: int) => 0 <= n <= a.orderLineCount && Progress(db, x, a, h, n);
    forall x: Db, d: int | 1 <= d <= a.orderLineCount && inv(x, d - 1) && StepOf(a, h)(x, d).Ok?
      ensures inv(StepOf(a, h)(x, d).value, d)
    {
      LineAtKeeps(db, x, a, h, d);
    }
    LoopInvariant(tx, StepOf(a, h), a.orderLineCount, inv);
  }

  /** The header step fails on a missing warehouse or district, and otherwise writes the header. */
  lemma HeaderStepOutcome(db: Db, a: Args)
    ensures Warehouse.KeyFor(a.warehouseId) !in db ==> HeaderStep(db, a) == Err(NotFound("Warehouse not found"))
    ensures (&& Warehouse.KeyFor(a.warehouseId) in db
             && DoubleOf(db[Warehouse.KeyFor(a.warehouseId)], Warehouse.KEY_TAX).Ok?
             && District.KeyFor(a.warehouseId, a.districtId) !in db) ==>
              HeaderStep(db, a) == Err(NotFound("District not found"))
    ensures (&& Warehouse.KeyFor(a.warehouseId) in db
             && DoubleOf(db[Warehouse.KeyFor(a.warehouseId)], Warehouse.KEY_TAX).Ok?
             && District.KeyFor(a.warehouseId, a.districtId) in db
             && DoubleOf(db[District.KeyFor(a.warehouseId, a.districtId)], District.KEY_TAX).Ok?
             && IntOf(db[District.KeyFor(a.warehouseId, a.districtId)], District.KEY_NEXT_O_ID).Ok?
             && Customer.KeyFor(a.warehouseId, a.districtId, a.customerId) !in db) ==>
              HeaderStep(db, a) == Err(NotFound("Customer not found"))
    ensures HeaderStep(db, a).Ok? ==>
              var dk := District.KeyFor(a.warehouseId, a.districtId);
              var (tx, h) := HeaderStep(db, a).value;
              && dk in db && IntOf(db[dk], District.KEY_NEXT_O_ID) == Ok(h.orderId)
              && HeaderWritten(tx, a, h.orderId)
              && StockFrom(db, tx)
              && forall k: Key :: !Written(k.table) ==> SameRecord(db, tx, k)
  {
    assert Customer.KeyFor(a.warehouseId, a.districtId, a.customerId) != District.KeyFor(a.warehouseId, a.districtId);
    if HeaderStep(db, a).Ok? {
      WriteHeaderWrites(db, a, HeaderStep(db, a).value.1.orderId);
    }
  }

  /**
   * How execute fails: with "Warehouse not found", "District not found" or
   * "Customer not found" when those rows are missing (and the reads before
   * them succeed), whenever an ordered item or its home-warehouse stock row
   * is missing, and when the commit conflicts.
   */
  lemma ExecutionFails(db: Db, a: Args, committed: bool)
    requires WellShaped(a)
    ensures Warehouse.KeyFor(a.warehouseId) !in db ==> Execution(db, a, committed) == Err(NotFound("Warehouse not found"))
    ensures (&& Warehouse.KeyFor(a.warehouseId) in db
             && DoubleOf(db[Warehouse.KeyFor(a.warehouseId)], Warehouse.KEY_TAX).Ok?
             && District.KeyFor(a.warehouseId, a.districtId) !in db) ==>
              Execution(db, a, committed) == Err(NotFound("District not found"))
    ensures (&& Warehouse.KeyFor(a.warehouseId) in db
             && DoubleOf(db[Warehouse.KeyFor(a.warehouseId)], Warehouse.KEY_TAX).Ok?
             && District.KeyFor(a.warehouseId, a.districtId) in db
             && DoubleOf(db[District.KeyFor(a.warehouseId, a.districtId)], District.KEY_TAX).Ok?
             && IntOf(db[District.KeyFor(a.warehouseId, a.districtId)], District.KEY_NEXT_O_ID).Ok?
             && Customer.KeyFor(a.warehouseId, a.districtId, a.customerId) !in db) ==>
              Execution(db, a, committed) == Err(NotFound("Customer not found"))
    ensures (exists j :: 0 <= j < a.orderLineCount && Item.KeyFor(a.itemIds[j]) !in db) ==> Execution(db, a, committed).Err?
    ensures (exists j :: 0 <= j < a.orderLineCount && Stock.KeyFor(a.warehouseId, a.itemIds[j]) !in db) ==>
              Execution(db, a, committed).Err?
    ensures !committed ==> Execution(db, a, committed).Err?
  {
    HeaderStepOutcome(db, a);
    if Execution(db, a, committed).Ok? {
      var (tx, h) := HeaderStep(db, a).value;
      LinesKeep(db, tx, a, h);
    }
  }

  /**
   * What a successful execute leaves: the district's next order id raised
   * past the id it read, the new-order and order rows, every order line, and
   * every table new-order does not write as it was.
   */
  lemma ExecutionWrites(db: Db, a: Args, committed: bool)
    requires WellShaped(a) && Execution(db, a, committed).Ok?
    ensures var dk := District.KeyFor(a.warehouseId, a.districtId);
            && dk in db && IntOf(db[dk], District.KEY_NEXT_O_ID).Ok?
            && var orderId := IntOf(db[dk], District.KEY_NEXT_O_ID).value;
               var after := Execution(db, a, committed).value;
               && HeaderWritten(after, a, orderId)
               && (forall j :: 0 <= j < a.orderLineCount ==> LineWritten(after, a, orderId, j))
               && (forall k: Key :: !Written(k.table) ==> SameRecord(db, after, k))
  {
    HeaderStepOutcome(db, a);
    var (tx, h) := HeaderStep(db, a).value;
    LinesKeep(db, tx, a, h);
  }

  /** The item table holds only ids 1..ITEMS, as the loader writes it. */
  ghost predicate ItemsLoaded(db: Db)
  {
    forall id :: Item.KeyFor(id) in db ==> 1 <= id <= ITEMS
  }

  /** Against a loaded item table, an order whose rollback moved an item out of range fails. */
  lemma RollbackFails(db: Db, a: Args, committed: bool)
    requires WellShaped(a) && ItemsLoaded(db)
    requires exists j :: 0 <= j < a.orderLineCount && a.itemIds[j] > ITEMS
    ensures Execution(db, a, committed).Err?
  {
    var j :| 0 <= j < a.orderLineCount && a.itemIds[j] > ITEMS;
    assert Item.KeyFor(a.itemIds[j]) !in db;
    ExecutionFails(db, a, committed);
  }

  // ---- the transaction object ---------------------------------------------------------

  class NewOrderTransaction {
    var warehouseId: int
    var districtId: int
    var customerId: int
    var rollback: int
    var orderLineCount: int
    var itemIds: array<int>
    var supplierWarehouseIds: array<int>
    var orderQuantities: array<int>
    var remote: bool
    var date: int

    predicate Valid()
      reads this
    {
      && orderLineCount >= 0 && itemIds.Length == orderLineCount
      && supplierWarehouseIds.Length == orderLineCount && orderQuantities.Length == orderLineCount
    }

    /** The arguments the fields hold. */
    function Arguments(): (a: Args)
      reads this, itemIds, supplierWarehouseIds, orderQuantities
      requires Valid()
      ensures WellShaped(a)
    {
      Args(warehouseId, districtId, customerId, orderLineCount, itemIds[..], supplierWarehouseIds[..],
           orderQuantities[..], remote, date)
    }

    /** A transaction object before its first generate: every field at its default. */
    constructor ()
      ensures Valid() && orderLineCount == 0
    {
      warehouseId, districtId, customerId, rollback, orderLineCount := 0, 0, 0, 0, 0;
      remote, date := false, 0;
      itemIds := new int[0];
      supplierWarehouseIds := new int[0];
      orderQuantities := new int[0];
    }

    /**
     * generate(numWarehouse): home warehouse and district, a NURand customer,
     * the rollback draw, 5..15 lines each with a NURand item, a supplier (the
     * home warehouse unless the order is remote) and a quantity in [1, 10];
     * a rollback draw of 1 moves the last item out of the item range.
     */
    method Generate(numWarehouse: int, warehouseDraw: int, districtDraw: int, customerX: int, customerY: int,
                    rollbackDraw: int, countDraw: int, lines: seq<LineDraw>, now: int)
      returns (ghost drawnItems: seq<int>)
      requires 1 <= warehouseDraw <= numWarehouse && 1 <= districtDraw <= DISTRICTS
      requires 0 <= customerX <= 1023 && 1 <= customerY <= CUSTOMERS
      requires 1 <= rollbackDraw <= 100 && MIN_PER_ORDER <= countDraw <= MAX_PER_ORDER && |lines| == countDraw
      requires forall i :: 0 <= i < |lines| ==> 0 <= lines[i].itemX <= 8191 && 1 <= lines[i].itemY <= ITEMS
      modifies this
      ensures Valid() && fresh(itemIds) && fresh(supplierWarehouseIds) && fresh(orderQuantities)
      ensures warehouseId == warehouseDraw && districtId == districtDraw && date == now
      ensures customerId == TpccUtil.CustomerId(customerX, customerY) && 1 <= customerId <= CUSTOMERS
      ensures rollback == rollbackDraw && orderLineCount == countDraw
      ensures LinesDrawn(drawnItems, supplierWarehouseIds[..], orderQuantities[..], remote, lines, numWarehouse,
                         warehouseDraw)
      ensures itemIds[..] == if rollbackDraw == 1 then drawnItems[countDraw - 1 := drawnItems[countDraw - 1] + ITEMS]
                             else drawnItems
    {
      var items, suppliers, quantities, isRemote := DrawLines(numWarehouse, warehouseDraw, lines);
      drawnItems := items[..];
      warehouseId, districtId, customerId := warehouseDraw, districtDraw, TpccUtil.CustomerId(customerX, customerY);
      rollback, orderLineCount, date := rollbackDraw, countDraw, now;
      itemIds, supplierWarehouseIds, orderQuantities, remote := items, suppliers, quantities, isRemote;
      if rollbackDraw == 1 {
        MoveLastItem(itemIds);
      }
    }

    /**
     * execute: read the warehouse tax, read the district's tax and next order
     * id and write the id back incremented, read the customer's discount, put
     * the new-order and the order, then one pass per order line, then the
     * commit.  The first exception aborts, and the store is left unchanged.
     */
    method Execute(db: Db, committed: bool) returns (r: Result<Db, TxError>)
      requires Valid()
      ensures r == Execution(db, Arguments(), committed)
    {
      ghost var a := Arguments();
      var warehouse :- GetOr(db, Warehouse.KeyFor(warehouseId), "Warehouse not found");
      var warehouseTax :- DoubleOf(warehouse, Warehouse.KEY_TAX);
      var districtKey := District.KeyFor(warehouseId, districtId);
      var district :- GetOr(db, districtKey, "District not found");
      var districtTax :- DoubleOf(district, District.KEY_TAX);
      var orderId :- IntOf(district, District.KEY_NEXT_O_ID);
      var tx := Put(db, districtKey, NextOrderIdColumns(orderId));
      var customer :- GetOr(tx, Customer.KeyFor(warehouseId, districtId, customerId), "Customer not found");
      var discount :- DoubleOf(customer, Customer.KEY_DISCOUNT);
      tx := Put(tx, NewOrder.KeyFor(warehouseId, districtId, orderId), []);
      tx := Put(tx, Order.KeyFor(warehouseId, districtId, orderId),
                Order.Columns(customerId, 0, orderLineCount, if remote then 0 else 1, date));
      var h := Header(orderId, warehouseTax, districtTax, discount);
      assert HeaderStep(db, a) == Ok((tx, h));
      tx :- ExecuteLines(tx, h, StepOf(a, h));
      if !committed {
        return Err(Conflict);
      }
      r := Ok(tx);
    }

    /** The line loop of execute: line numbers 1 to orderLineCount in ascending order. */
    method ExecuteLines(start: Db, h: Header, ghost step: (Db, int) -> Result<Db, TxError>)
      returns (r: Result<Db, TxError>)
      requires Valid()
      requires forall x: Db, d: int {:trigger LineAt(x, Arguments(), h, d)} :: step(x, d) == LineAt(x, Arguments(), h, d)
      ensures r == Loop(start, step, orderLineCount)
    {
      var tx := start;
      for orderLineNumber := 1 to orderLineCount + 1
        invariant Loop(start, step, orderLineNumber - 1) == Ok(tx)
      {
        var next := LineOfLoop(tx, h, orderLineNumber, step);
        if next.Err? {
          LoopStopAt(start, step, orderLineNumber, orderLineCount);
          return Err(next.error);
        }
        tx := next.value;
      }
      return Ok(tx);
    }

    /** One order line seen as step `orderLineNumber` of the loop `ExecuteLines` runs. */
    method LineOfLoop(tx: Db, h: Header, orderLineNumber: int, ghost step: (Db, int) -> Result<Db, TxError>)
      returns (r: Result<Db, TxError>)
      requires Valid() && 1 <= orderLineNumber <= orderLineCount
      requires forall x: Db, d: int {:trigger LineAt(x, Arguments(), h, d)} :: step(x, d) == LineAt(x, Arguments(), h, d)
      ensures r == step(tx, orderLineNumber)
    {
      r := ExecuteLine(tx, h, orderLineNumber);
      assert step(tx, orderLineNumber) == LineAt(tx, Arguments(), h, orderLineNumber);
    }

    /**
     * The reads of one pass of execute's loop, for order line
     * `orderLineNumber`: the item and its price, then the stock row's ytd, order
     * count, remote count and quantity (from which the adjusted quantity is
     * computed and then left unused) and the district's information string.
     */
    method ReadLineOf(tx: Db, orderLineNumber: int) returns (r: Result<LineRead, TxError>)
      requires Valid() && 1 <= orderLineNumber <= orderLineCount
      ensures r == ReadLine(tx, Arguments(), orderLineNumber - 1)
    {
      var itemId := itemIds[orderLineNumber - 1];
      var quantity := orderQuantities[orderLineNumber - 1];
      var item :- GetOr(tx, Item.KeyFor(itemId), "Item not found");
      var itemPrice :- DoubleOf(item, Item.KEY_PRICE);
      var stock :- GetOr(tx, Stock.KeyFor(warehouseId, itemId), "Stock not found");
      var stockYtd :- DoubleOf(stock, Stock.KEY_YTD);
      var stockOrderCount :- IntOf(stock, Stock.KEY_ORDER_CNT);
      var stockRemoteCount :- IntOf(stock, Stock.KEY_REMOTE_CNT);
      var stockQuantity :- IntOf(stock, Stock.KEY_QUANTITY);
      var adjustedQuantity := AdjustedQuantity(stockQuantity, quantity);
      var distInfo :- DistInfo(stock, districtId);
      r := Ok(LineRead(itemPrice, stockYtd, stockOrderCount, stockRemoteCount, stockQuantity, distInfo));
    }

    /**
     * The writes of one pass of execute's loop, for order line
     * `orderLineNumber` after its reads `rd`: the amount, then the puts of the
     * stock row's new counters (Stock.WithCountsPut: the columns of the Stock
     * record execute builds, the remote count raised iff the order is remote)
     * and of the order line (OrderLine.MakePut likewise).
     */
    method WriteLineOf(tx: Db, h: Header, orderLineNumber: int, rd: LineRead) returns (db: Db)
      requires Valid() && 1 <= orderLineNumber <= orderLineCount
      ensures db == LineWrite(tx, Arguments(), h, orderLineNumber - 1, rd)
    {
      var itemId := itemIds[orderLineNumber - 1];
      var supplyWarehouseId := supplierWarehouseIds[orderLineNumber - 1];
      var quantity := orderQuantities[orderLineNumber - 1];
      var amount := LineAmount(quantity, rd.price, h);
      var stockRemoteCount := rd.remoteCount;
      if remote {
        stockRemoteCount := Wrap32(stockRemoteCount + 1);
      }
      db := Put(tx, Stock.KeyFor(warehouseId, itemId),
                Stock.CountColumns(quantity, rd.ytd + quantity as real, Wrap32(rd.orderCount + 1),
                                   stockRemoteCount));
      db := Put(db, OrderLine.KeyFor(warehouseId, districtId, h.orderId, orderLineNumber),
                OrderLine.Columns(supplyWarehouseId, amount, quantity, itemId, rd.info));
    }

    /** One pass of execute's loop, for order line `orderLineNumber`: its reads, then its writes. */
    method ExecuteLine(tx: Db, h: Header, orderLineNumber: int) returns (r: Result<Db, TxError>)
      requires Valid() && 1 <= orderLineNumber <= orderLineCount
      ensures r == LineStep(tx, Arguments(), h, orderLineNumber - 1)
    {
      var rd :- ReadLineOf(tx, orderLineNumber);
      var db := WriteLineOf(tx, h, orderLineNumber, rd);
      r := Ok(db);
    }
  }
}
