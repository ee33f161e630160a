// The Order-Status transaction profile (TPC-C clause 2.6).  `generate` draws
// the warehouse and district and names the customer by run-time NURand last
// name (60 draws in 100, the id then being UNUSED_ID) or by NURand id.
// `execute` resolves a by-name customer, reads the customer, finds the
// customer's last order through order_secondary (table index) or through a
// scan of the orders sorted by ORDER_ID_COMPARATOR (secondary index), reads
// that order and reads five columns of each of its lines.  It writes nothing:
// the store after a commit is the store before it.
module OrderStatusTx {
  import opened Wrappers
  import opened Store
  import opened Schema
  import TpccUtil
  import Customer
  import CustomerSecondary
  import CustomerLookup
  import Order
  import OrderSecondary
  import OrderLine

  /** The message of both order lookups when the scan does not return what they need. */
  const INVALID_SCAN: string := "Invalid scan on order-secondary"

  // ---- the secondary-index order lookup -------------------------------------------------

  /** Whether ORDER_ID_COMPARATOR can read the row's order id: o_id is present and an int. */
  predicate OrderIded(e: Entry)
  {
    Order.KEY_ID in e.row && e.row[Order.KEY_ID].IntV?
  }

  /** The order id the comparator reads (0 when absent; the comparator then throws). */
  function OrderIdOf(e: Entry): int
  {
    if OrderIded(e) then e.row[Order.KEY_ID].i else 0
  }

  /** Ordered by ORDER_ID_COMPARATOR: no row has a larger order id than a row ahead of it. */
  predicate NewestFirst(s: seq<Entry>)
  {
    forall i, j :: 0 <= i < j < |s| ==> OrderIdOf(s[j]) <= OrderIdOf(s[i])
  }

  /** The largest order id among the rows. */
  function MaxOrderId(rows: seq<Entry>): (m: int)
    requires |rows| > 0
    ensures forall i :: 0 <= i < |rows| ==> OrderIdOf(rows[i]) <= m
    ensures exists i :: 0 <= i < |rows| && OrderIdOf(rows[i]) == m
  {
    if |rows| == 1 then OrderIdOf(rows[0])
    else
      var rest := MaxOrderId(rows[1..]);
      assert forall i :: 1 <= i < |rows| ==> rows[i] == rows[1..][i - 1];
      if OrderIdOf(rows[0]) >= rest then OrderIdOf(rows[0]) else rest
  }

  /**
   * getOrderIdBySecondaryIndex on the rows of the customer's orders: an empty
   * scan is invalid; a single row is read as it is; two or more rows are
   * compared, so each must hold an int o_id, and the first after sorting is
   * the one with the largest.
   */
  function LatestOrderId(rows: seq<Entry>): (r: Result<int, TxError>)
    ensures |rows| == 0 ==> r == Err(NotFound(INVALID_SCAN))
    ensures |rows| >= 2 && (exists i :: 0 <= i < |rows| && !OrderIded(rows[i])) ==> r == Err(NoSuchValue(Order.KEY_ID))
    ensures r.Ok? ==> exists i :: 0 <= i < |rows| && Order.KEY_ID in rows[i].row && rows[i].row[Order.KEY_ID] == IntV(r.value)
    ensures r.Ok? ==> forall i :: 0 <= i < |rows| && OrderIded(rows[i]) ==> OrderIdOf(rows[i]) <= r.value
    ensures |rows| > 0 && (forall i :: 0 <= i < |rows| ==> OrderIded(rows[i])) ==> r.Ok?
  {
    if |rows| == 0 then Err(NotFound(INVALID_SCAN))
    else if |rows| == 1 then IntOf(rows[0].row, Order.KEY_ID)
    else if exists i :: 0 <= i < |rows| && !OrderIded(rows[i]) then Err(NoSuchValue(Order.KEY_ID))
    else Ok(MaxOrderId(rows))
  }

  /** Every pair of rows up to `i` is in order, leaving out the row at `j`. */
  predicate NewestFirstExcept(s: seq<Entry>, i: int, j: int)
    requires i < |s|
  {
    forall p, q :: 0 <= p < q <= i && p != j && q != j ==> OrderIdOf(s[q]) <= OrderIdOf(s[p])
  }

  /** The row at `j` has a larger order id than the rows after it up to `i`. */
  predicate NewerThanRest(s: seq<Entry>, i: int, j: int)
    requires 0 <= j <= i < |s|
  {
    forall q :: j < q <= i ==> OrderIdOf(s[q]) < OrderIdOf(s[j])
  }

  /** Swapping the moving row with an older neighbour keeps both properties. */
  lemma SwapStep(s: seq<Entry>, i: int, j: int)
    requires 0 < j <= i < |s| && NewestFirstExcept(s, i, j) && NewerThanRest(s, i, j)
    requires OrderIdOf(s[j - 1]) < OrderIdOf(s[j])
    ensures var t := s[j - 1 := s[j]][j := s[j - 1]];
            NewestFirstExcept(t, i, j - 1) && NewerThanRest(t, i, j - 1)
  {
  }

  /** Once the moving row's neighbour is not older, the rows up to `i` are sorted. */
  lemma StopStep(s: seq<Entry>, i: int, j: int)
    requires 0 <= j <= i < |s| && NewestFirstExcept(s, i, j) && NewerThanRest(s, i, j)
    requires j > 0 ==> OrderIdOf(s[j]) <= OrderIdOf(s[j - 1])
    ensures NewestFirst(s[..i + 1])
  {
    forall p, q | 0 <= p < q <= i ensures OrderIdOf(s[q]) <= OrderIdOf(s[p]) {
      if q == j && p < j - 1 {
        assert OrderIdOf(s[j - 1]) <= OrderIdOf(s[p]);
      }
    }
  }

  /** One swap of the insertion sort: the moving row at `j` trades places with its older neighbour. */
  method SwapBack(a: array<Entry>, i: int, j: int)
    requires 0 < j <= i < a.Length && NewestFirstExcept(a[..], i, j) && NewerThanRest(a[..], i, j)
    requires OrderIdOf(a[j - 1]) < OrderIdOf(a[j])
    modifies a
    ensures NewestFirstExcept(a[..], i, j - 1) && NewerThanRest(a[..], i, j - 1)
    ensures multiset(a[..]) == multiset(old(a[..])) && a[i + 1..] == old(a[i + 1..])
  {
    ghost var before := a[..];
    SwapStep(before, i, j);
    CustomerLookup.SwapKeepsRows(before, j);
    a[j - 1], a[j] := a[j], a[j - 1];
    assert a[..] == before[j - 1 := before[j]][j := before[j - 1]];
  }

  /** One step of the insertion sort: the row at `i` moves towards the front past older rows. */
  method InsertAt(a: array<Entry>, i: int)
    requires 0 <= i < a.Length && NewestFirst(a[..i])
    modifies a
    ensures NewestFirst(a[..i + 1]) && a[i + 1..] == old(a[i + 1..])
    ensures multiset(a[..]) == multiset(old(a[..]))
  {
    var j := i;
    assert forall p :: 0 <= p < i ==> a[..i][p] == a[p];
    while j > 0 && OrderIdOf(a[j - 1]) < OrderIdOf(a[j])
      invariant 0 <= j <= i
      invariant multiset(a[..]) == multiset(old(a[..])) && a[i + 1..] == old(a[i + 1..])
      invariant NewestFirstExcept(a[..], i, j) && NewerThanRest(a[..], i, j)
    {
      SwapBack(a, i, j);
      j := j - 1;
    }
    StopStep(a[..], i, j);
  }

  /** results.sort(ORDER_ID_COMPARATOR): an insertion sort in place, newest order first. */
  method SortNewestFirst(a: array<Entry>)
    modifies a
    ensures NewestFirst(a[..]) && multiset(a[..]) == multiset(old(a[..]))
  {
    for i := 0 to a.Length
      invariant NewestFirst(a[..i]) && multiset(a[..]) == multiset(old(a[..]))
    {
      InsertAt(a, i);
    }
    assert a[..a.Length] == a[..];
  }

  /** A sorted permutation of rows that all hold an int o_id starts with the largest one. */
  lemma FirstIsLatest(s: seq<Entry>, rows: seq<Entry>)
    requires |rows| > 0 && NewestFirst(s) && multiset(s) == multiset(rows)
    requires forall i :: 0 <= i < |rows| ==> OrderIded(rows[i])
    ensures |s| > 0 && OrderIded(s[0]) && OrderIdOf(s[0]) == MaxOrderId(rows)
  {
    assert rows[0] in multiset(s);
    assert s[0] in multiset(rows);
    var k :| 0 <= k < |rows| && s[0] == rows[k];
    var m :| 0 <= m < |rows| && OrderIdOf(rows[m]) == MaxOrderId(rows);
    assert rows[m] in multiset(s);
    var n :| 0 <= n < |s| && s[n] == rows[m];
    assert OrderIdOf(s[n]) <= OrderIdOf(s[0]);
  }

  /**
   * getOrderIdBySecondaryIndex: throws on an empty scan, sorts the rows by
   * ORDER_ID_COMPARATOR and reads the o_id of the first.
   */
  method OrderIdBySecondaryIndex(rows: seq<Entry>) returns (r: Result<int, TxError>)
    ensures r == LatestOrderId(rows)
  {
    if |rows| < 1 {
      return Err(NotFound(INVALID_SCAN));
    }
    if |rows| >= 2 && exists i :: 0 <= i < |rows| && !OrderIded(rows[i]) {
      return Err(NoSuchValue(Order.KEY_ID));
    }
    var a := new Entry[|rows|](i requires 0 <= i < |rows| => rows[i]);
    assert a[..] == rows;
    SortNewestFirst(a);
    r := IntOf(a[0].row, Order.KEY_ID);
    if |rows| >= 2 {
      FirstIsLatest(a[..], rows);
    } else {
      assert a[..] == [a[0]] && rows == [rows[0]];
      assert multiset([a[0]]) == multiset([rows[0]]);
      assert a[0] in multiset([rows[0]]);
    }
  }

  /** A stored order of the district placed by the customer. */
  ghost predicate OrderOf(db: Db, k: Key, warehouseId: int, districtId: int, customerId: int)
  {
    && k in db && k.table == Order.TABLE_NAME && k.partition == Order.PartitionKey(warehouseId, districtId)
    && Holds(db, k, Order.KEY_CUSTOMER_ID, IntV(customerId))
  }

  /**
   * The secondary-index lookup throws when the customer has no order in the
   * district; when it succeeds it returns the o_id of one of the customer's
   * stored orders, and no order of the customer holds a larger one.
   */
  lemma SecondaryOrderIdIsLatest(db: Db, warehouseId: int, districtId: int, customerId: int)
    ensures var r := LatestOrderId(Order.CustomerOrders(db, warehouseId, districtId, customerId));
            && ((forall k :: !OrderOf(db, k, warehouseId, districtId, customerId)) ==> r == Err(NotFound(INVALID_SCAN)))
            && (r.Ok? ==> exists k :: OrderOf(db, k, warehouseId, districtId, customerId)
                                      && Holds(db, k, Order.KEY_ID, IntV(r.value)))
            && (r.Ok? ==> forall k :: OrderOf(db, k, warehouseId, districtId, customerId)
                                      && Order.KEY_ID in db[k] && db[k][Order.KEY_ID].IntV? ==>
                                        db[k][Order.KEY_ID].i <= r.value)
  {
    var rows := Order.CustomerOrders(db, warehouseId, districtId, customerId);
    var r := LatestOrderId(rows);
    Order.CustomerOrdersMembers(db, warehouseId, districtId, customerId);
    if |rows| > 0 {
      assert rows[0] in rows;
      assert OrderOf(db, rows[0].key, warehouseId, districtId, customerId);
    }
    if r.Ok? {
      var i :| 0 <= i < |rows| && Order.KEY_ID in rows[i].row && rows[i].row[Order.KEY_ID] == IntV(r.value);
      assert rows[i] in rows;
      assert OrderOf(db, rows[i].key, warehouseId, districtId, customerId);
      forall k | OrderOf(db, k, warehouseId, districtId, customerId) && Order.KEY_ID in db[k] && db[k][Order.KEY_ID].IntV?
        ensures db[k][Order.KEY_ID].i <= r.value
      {
        var e := Entry(k, db[k]);
        assert e in rows;
        var j :| 0 <= j < |rows| && rows[j] == e;
        assert OrderIded(rows[j]);
      }
    }
  }

  // ---- the table-index order lookup -------------------------------------------------

  /** The order_secondary rows of a customer, newest first, at most one. */
  ghost function SecondaryRows(db: Db, warehouseId: int, districtId: int, customerId: int): seq<Entry>
  {
    ScanSpec(db, OrderSecondary.TABLE_NAME, OrderSecondary.PartitionKey(warehouseId, districtId, customerId),
             None, false, 1)
  }

  /** getOrderIdByTableIndex on the scan's rows: exactly one row, whose o_id is read. */
  function TableOrderId(rows: seq<Entry>): (r: Result<int, TxError>)
    ensures |rows| != 1 ==> r == Err(NotFound(INVALID_SCAN))
    ensures r.Ok? <==> |rows| == 1 && IntOf(rows[0].row, OrderSecondary.KEY_ORDER_ID).Ok?
    ensures r.Ok? ==> rows[0].row[OrderSecondary.KEY_ORDER_ID] == IntV(r.value)
  {
    if |rows| != 1 then Err(NotFound(INVALID_SCAN)) else IntOf(rows[0].row, OrderSecondary.KEY_ORDER_ID)
  }

  /** getOrderIdByTableIndex: scan order_secondary and read the o_id of the only row. */
  method OrderIdByTableIndex(db: Db, warehouseId: int, districtId: int, customerId: int)
    returns (r: Result<int, TxError>)
    ensures r == TableOrderId(SecondaryRows(db, warehouseId, districtId, customerId))
  {
    var rows := OrderSecondary.Scan(db, warehouseId, districtId, customerId);
    if |rows| != 1 {
      return Err(NotFound(INVALID_SCAN));
    }
    r := IntOf(rows[0].row, OrderSecondary.KEY_ORDER_ID);
  }

  /**
   * The table-index lookup fails exactly when the customer has no
   * order_secondary row, and otherwise reads the row with the largest o_id.
   */
  lemma TableOrderIdIsLatest(db: Db, warehouseId: int, districtId: int, customerId: int)
    requires forall k :: k in Matching(db, OrderSecondary.TABLE_NAME,
                                       OrderSecondary.PartitionKey(warehouseId, districtId, customerId), None) ==>
               exists o :: k.clustering == OrderSecondary.ClusteringKey(o)
    ensures var m := Matching(db, OrderSecondary.TABLE_NAME,
                              OrderSecondary.PartitionKey(warehouseId, districtId, customerId), None);
            var rows := SecondaryRows(db, warehouseId, districtId, customerId);
            && (m == {} ==> TableOrderId(rows) == Err(NotFound(INVALID_SCAN)))
            && (TableOrderId(rows).Ok? ==>
                  && rows[0].key in m && rows[0].row == db[rows[0].key]
                  && forall k :: k in m && k != rows[0].key ==> FirstClusteringInt(k) < FirstClusteringInt(rows[0].key))
  {
    OrderSecondary.ScanFindsLatest(db, warehouseId, districtId, customerId);
    var rows := SecondaryRows(db, warehouseId, districtId, customerId);
    ScanSpecProperties(db, OrderSecondary.TABLE_NAME, OrderSecondary.PartitionKey(warehouseId, districtId, customerId),
                       None, false, 1);
  }

  // ---- reading the order lines --------------------------------------------------------

  /** The lines of one order, in key order. */
  ghost function LineRows(db: Db, warehouseId: int, districtId: int, orderId: int): seq<Entry>
  {
    ScanSpec(db, OrderLine.TABLE_NAME, OrderLine.PartitionKey(warehouseId, districtId), Some((orderId, orderId)), true, 0)
  }

  /**
   * The body of the forEach: supplier, item and quantity as ints, amount as a
   * double, delivery date as a long; the first missing one throws.  The
   * delivery date of an undelivered line is null and reads as 0.
   */
  function LineRead(row: Row): (r: Result<(), TxError>)
    ensures r.Ok? <==> && IntOf(row, OrderLine.KEY_SUPPLY_W_ID).Ok? && IntOf(row, OrderLine.KEY_ITEM_ID).Ok?
                       && IntOf(row, OrderLine.KEY_QUANTITY).Ok? && DoubleOf(row, OrderLine.KEY_AMOUNT).Ok?
                       && (OrderLine.KEY_DELIVERY_D in row ==> row[OrderLine.KEY_DELIVERY_D].BigIntV?)
  {
    var _ :- IntOf(row, OrderLine.KEY_SUPPLY_W_ID);
    var _ :- IntOf(row, OrderLine.KEY_ITEM_ID);
    var _ :- IntOf(row, OrderLine.KEY_QUANTITY);
    var _ :- DoubleOf(row, OrderLine.KEY_AMOUNT);
    var _ :- NullableBigIntOf(row, OrderLine.KEY_DELIVERY_D);
    Ok(())
  }

  /** A line new-order has just inserted, its delivery date still null, is read without error. */
  lemma InsertedLineReads(db: Db, warehouseId: int, districtId: int, orderId: int, number: int,
                          supplyWarehouseId: int, amount: real, quantity: int, itemId: int, info: string)
    requires OrderLine.KeyFor(warehouseId, districtId, orderId, number) !in db
    ensures var k := OrderLine.KeyFor(warehouseId, districtId, orderId, number);
            var db' := Put(db, k, OrderLine.Columns(supplyWarehouseId, amount, quantity, itemId, info));
            OrderLine.KEY_DELIVERY_D !in db'[k] && LineRead(db'[k]).Ok?
  {
    var k := OrderLine.KeyFor(warehouseId, districtId, orderId, number);
    var cols := OrderLine.Columns(supplyWarehouseId, amount, quantity, itemId, info);
    OrderLine.ColumnsReadBack(db, k, supplyWarehouseId, amount, quantity, itemId, info);
    PutKeepsColumn(db, k, cols, OrderLine.KEY_DELIVERY_D);
  }

  /** Delivery's stamp of a date on a readable line leaves it readable. */
  lemma StampedLineReads(db: Db, warehouseId: int, districtId: int, orderId: int, number: int, deliveryDate: int)
    requires OrderLine.KeyFor(warehouseId, districtId, orderId, number) in db
    requires LineRead(db[OrderLine.KeyFor(warehouseId, districtId, orderId, number)]).Ok?
    ensures var k := OrderLine.KeyFor(warehouseId, districtId, orderId, number);
            LineRead(Put(db, k, [Column(OrderLine.KEY_DELIVERY_D, BigIntV(deliveryDate))])[k]).Ok?
  {
    var k := OrderLine.KeyFor(warehouseId, districtId, orderId, number);
    var stamp := [Column(OrderLine.KEY_DELIVERY_D, BigIntV(deliveryDate))];
    PutReadsBackAt(db, k, stamp, 0);
    PutKeepsColumn(db, k, stamp, OrderLine.KEY_SUPPLY_W_ID);
    PutKeepsColumn(db, k, stamp, OrderLine.KEY_ITEM_ID);
    PutKeepsColumn(db, k, stamp, OrderLine.KEY_QUANTITY);
    PutKeepsColumn(db, k, stamp, OrderLine.KEY_AMOUNT);
  }

  /** orderLines.forEach(...): the lines in order, stopping at the first that throws. */
  function LinesRead(lines: seq<Entry>): Result<(), TxError>
  {
    if |lines| == 0 then Ok(())
    else
      var _ :- LineRead(lines[0].row);
      LinesRead(lines[1..])
  }

  /** The lines read without error exactly when every line holds the five columns. */
  lemma {:induction false} LinesReadAll(lines: seq<Entry>)
    ensures LinesRead(lines).Ok? <==> forall i :: 0 <= i < |lines| ==> LineRead(lines[i].row).Ok?
  {
    if |lines| > 0 {
      LinesReadAll(lines[1..]);
      assert forall i :: 1 <= i < |lines| ==> lines[i] == lines[1..][i - 1];
    }
  }

  /** A failed read reports the error of the first line that fails. */
  lemma {:induction false} LinesReadFirstError(lines: seq<Entry>, i: int)
    requires 0 <= i < |lines| && LineRead(lines[i].row).Err?
    requires forall j :: 0 <= j < i ==> LineRead(lines[j].row).Ok?
    ensures LinesRead(lines) == Err(LineRead(lines[i].row).error)
  {
    if i > 0 {
      assert lines[1..][i - 1] == lines[i];
      assert forall j :: 0 <= j < i - 1 ==> lines[1..][j] == lines[j + 1];
      LinesReadFirstError(lines[1..], i - 1);
    }
  }

  /** The forEach over the order lines. */
  method ReadLines(lines: seq<Entry>) returns (r: Result<(), TxError>)
    ensures r == LinesRead(lines)
  {
    for i := 0 to |lines|
      invariant LinesRead(lines) == LinesRead(lines[i..])
    {
      assert lines[i..][1..] == lines[i + 1..];
      var _ :- LineRead(lines[i].row);
    }
    assert lines[|lines|..] == [];
    return Ok(());
  }

  // ---- what execute does ------------------------------------------------------------------

  /** The transaction's arguments, as generate leaves them. */
  datatype Args = Args(warehouseId: int, districtId: int, customerId: int, byLastName: bool, lastName: string)

  /**
   * Whether `res` is what the customer resolution may give: the id itself when
   * not by name; by name, the midpoint of the customer_secondary scan (table
   * index) or of the c_index scan sorted by first name (secondary index).
   */
  ghost predicate Resolved(db: Db, a: Args, useTableIndex: bool, res: Result<int, TxError>)
  {
    if !a.byLastName then res == Ok(a.customerId)
    else if useTableIndex then
      res == CustomerLookup.MidpointId(CustomerLookup.TableRows(db, a.warehouseId, a.districtId, a.lastName),
                                       CustomerSecondary.KEY_CUSTOMER_ID)
    else
      var rows := CustomerLookup.IndexRows(db, a.warehouseId, a.districtId, a.lastName);
      && (!CustomerLookup.Comparable(rows) ==> res.Err?)
      && (|rows| == 0 ==> res.Err?)
      && (CustomerLookup.Comparable(rows) ==>
            exists s :: CustomerLookup.SortedByFirst(s) && multiset(s) == multiset(rows)
                        && res == CustomerLookup.MidpointId(s, Customer.KEY_ID))
  }

  /**
   * The reads after the customer is resolved to `a.customerId`: the customer
   * ("Customer not found"), the last order id by either strategy, the order
   * ("Order not found"), the order's lines; then the commit.
   */
  ghost function Lookups(db: Db, a: Args, useTableIndex: bool, committed: bool)
    : Result<Db, TxError>
  {
    var _ :- GetOr(db, Customer.KeyFor(a.warehouseId, a.districtId, a.customerId), "Customer not found");
    var orderId :- if useTableIndex then TableOrderId(SecondaryRows(db, a.warehouseId, a.districtId, a.customerId))
                   else LatestOrderId(Order.CustomerOrders(db, a.warehouseId, a.districtId, a.customerId));
    var _ :- GetOr(db, Order.KeyFor(a.warehouseId, a.districtId, orderId), "Order not found");
    var _ :- LinesRead(LineRows(db, a.warehouseId, a.districtId, orderId));
    if committed then Ok(db) else Err(Conflict)
  }

  /** The whole of execute once the resolution has given `res`. */
  ghost function Execution(db: Db, a: Args, res: Result<int, TxError>, useTableIndex: bool, committed: bool): Result<Db, TxError>
  {
    match res
    case Err(e) => Err(e)
    case Ok(id) => Lookups(db, a.(customerId := id), useTableIndex, committed)
  }

  /** The order id the lookup of the last order gives. */
  ghost function LastOrderId(db: Db, a: Args, useTableIndex: bool)
    : Result<int, TxError>
  {
    if useTableIndex then TableOrderId(SecondaryRows(db, a.warehouseId, a.districtId, a.customerId))
    else LatestOrderId(Order.CustomerOrders(db, a.warehouseId, a.districtId, a.customerId))
  }

  /** Order-status is read-only: when it commits, the store is the one it started from. */
  lemma LookupsReadOnly(db: Db, a: Args, useTableIndex: bool, committed: bool)
    ensures var r := Lookups(db, a, useTableIndex, committed);
            r.Ok? ==> r.value == db
  {
  }

  /**
   * Order-status commits exactly when the customer, the last order and every
   * line of that order could be read and the commit succeeds.
   */
  lemma LookupsSucceed(db: Db, a: Args, useTableIndex: bool, committed: bool)
    ensures var orderId := LastOrderId(db, a, useTableIndex);
            Lookups(db, a, useTableIndex, committed).Ok? <==>
              && committed
              && Customer.KeyFor(a.warehouseId, a.districtId, a.customerId) in db
              && orderId.Ok?
              && Order.KeyFor(a.warehouseId, a.districtId, orderId.value) in db
              && forall i :: 0 <= i < |LineRows(db, a.warehouseId, a.districtId, orderId.value)| ==>
                   LineRead(LineRows(db, a.warehouseId, a.districtId, orderId.value)[i].row).Ok?
  {
    var orderId := LastOrderId(db, a, useTableIndex);
    if orderId.Ok? {
      LinesReadAll(LineRows(db, a.warehouseId, a.districtId, orderId.value));
    }
  }

  /** The errors of the lookups, in the order execute meets them. */
  lemma LookupsFail(db: Db, a: Args, useTableIndex: bool, committed: bool)
    ensures var r := Lookups(db, a, useTableIndex, committed);
            var orderId := LastOrderId(db, a, useTableIndex);
            && (Customer.KeyFor(a.warehouseId, a.districtId, a.customerId) !in db ==>
                  r == Err(NotFound("Customer not found")))
            && (Customer.KeyFor(a.warehouseId, a.districtId, a.customerId) in db && orderId.Err? ==>
                  r == Err(orderId.error))
            && (Customer.KeyFor(a.warehouseId, a.districtId, a.customerId) in db && orderId.Ok?
                && Order.KeyFor(a.warehouseId, a.districtId, orderId.value) !in db ==>
                  r == Err(NotFound("Order not found")))
            && (useTableIndex && |SecondaryRows(db, a.warehouseId, a.districtId, a.customerId)| != 1 ==> r.Err?)
            && (!useTableIndex && |Order.CustomerOrders(db, a.warehouseId, a.districtId, a.customerId)| == 0 ==> r.Err?)
  {
  }

  class OrderStatusTransaction {
    var warehouseId: int
    var districtId: int
    var customerId: int
    var byLastName: bool
    var lastName: string

    /** The arguments the fields hold. */
    function Arguments(): Args
      reads this
    {
      Args(warehouseId, districtId, customerId, byLastName, lastName)
    }

    /** A transaction object before its first generate: every field at its default. */
    constructor ()
      ensures Arguments() == Args(0, 0, 0, false, "")
    {
      warehouseId, districtId, customerId, byLastName, lastName := 0, 0, 0, false, "";
    }

    /**
     * generate(numWarehouse): the warehouse and district; for a draw `y` up to
     * 60 the customer is named by a run-time NURand last name and the id is
     * UNUSED_ID, otherwise by a NURand id and the name is left as it was.
     */
    method Generate(numWarehouse: int, warehouseDraw: int, districtDraw: int, y: int,
                    lastX: int, lastY: int, customerX: int, customerY: int)
      requires 1 <= warehouseDraw <= numWarehouse && 1 <= districtDraw <= DISTRICTS && 1 <= y <= 100
      requires 0 <= lastX <= 255 && 0 <= lastY <= 999 && 0 <= customerX <= 1023 && 1 <= customerY <= CUSTOMERS
      modifies this
      ensures warehouseId == warehouseDraw && districtId == districtDraw
      ensures 1 <= warehouseId <= numWarehouse && 1 <= districtId <= DISTRICTS
      ensures byLastName <==> y <= 60
      ensures byLastName ==> customerId == Customer.UNUSED_ID
                             && lastName == TpccUtil.RandomLastName(false, lastX, lastY)
      ensures !byLastName ==> customerId == TpccUtil.CustomerId(customerX, customerY) && 1 <= customerId <= CUSTOMERS
                              && lastName == old(lastName)
    {
      warehouseId, districtId := warehouseDraw, districtDraw;
      byLastName := y <= 60;
      if byLastName {
        customerId := Customer.UNUSED_ID;
        lastName := TpccUtil.RandomLastName(false, lastX, lastY);
      } else {
        customerId := TpccUtil.CustomerId(customerX, customerY);
      }
    }

    /** The customer resolution of execute, by the strategy `useTableIndex` selects. */
    method ResolveCustomer(db: Db, useTableIndex: bool) returns (res: Result<int, TxError>)
      ensures Resolved(db, Arguments(), useTableIndex, res)
    {
      if !byLastName {
        return Ok(customerId);
      }
      if useTableIndex {
        res := CustomerLookup.ByTableIndex(db, warehouseId, districtId, lastName);
      } else {
        res := CustomerLookup.BySecondaryIndex(db, warehouseId, districtId, lastName);
      }
    }

    /** The reads of execute once customerId names the customer. */
    method ReadLastOrder(db: Db, useTableIndex: bool, committed: bool)
      returns (r: Result<Db, TxError>)
      ensures r == Lookups(db, Arguments(), useTableIndex, committed)
    {
      var _ :- GetOr(db, Customer.KeyFor(warehouseId, districtId, customerId), "Customer not found");
      var orderId: Result<int, TxError>;
      if useTableIndex {
        orderId := OrderIdByTableIndex(db, warehouseId, districtId, customerId);
      } else {
        var rows := Order.Scan(db, warehouseId, districtId, customerId);
        orderId := OrderIdBySecondaryIndex(rows);
      }
      if orderId.Err? {
        return Err(orderId.error);
      }
      var _ :- GetOr(db, Order.KeyFor(warehouseId, districtId, orderId.value), "Order not found");
      var lines := OrderLine.Scan(db, warehouseId, districtId, orderId.value);
      var _ :- ReadLines(lines);
      if !committed {
        return Err(Conflict);
      }
      return Ok(db);
    }

    /**
     * execute: resolve a by-name customer (overwriting customerId), then read
     * the customer, the last order and its lines, and commit.
     */
    method Execute(db: Db, useTableIndex: bool, committed: bool)
      returns (r: Result<Db, TxError>)
      modifies this
      ensures exists res :: && Resolved(db, old(Arguments()), useTableIndex, res)
                            && r == Execution(db, old(Arguments()), res, useTableIndex, committed)
                            && Arguments() == old(Arguments()).(customerId := if res.Ok? then res.value else old(customerId))
    {
      ghost var a := Arguments();
      var res := ResolveCustomer(db, useTableIndex);
      if res.Err? {
        return Err(res.error);
      }
      if byLastName {
        customerId := res.value;
      }
      assert Arguments() == a.(customerId := res.value);
      r := ReadLastOrder(db, useTableIndex, committed);
    }
  }
}
