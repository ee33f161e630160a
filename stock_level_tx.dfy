// The Stock-Level transaction profile (TPC-C clause 2.8).  `generate` draws
// the warehouse, the district and a threshold in [10, 20].  `execute` reads
// the district's next order id, scans the order lines of the twenty orders
// before it, collects their distinct item ids other than UNUSED_ID, and counts
// the items whose stock quantity lies below the threshold.  It writes nothing.
module StockLevelTx {
  import opened Wrappers
  import opened Store
  import opened Schema
  import opened JavaInt
  import District
  import Item
  import OrderLine
  import Stock

  /** The transaction's arguments, as generate leaves them. */
  datatype Args = Args(warehouseId: int, districtId: int, threshold: int)

  /** The order ids the scan covers: `orderId - 20` through `orderId - 1`, as Java ints. */
  function RecentRange(orderId: int): Option<(int, int)>
  {
    Some((Wrap32(orderId - 20), Wrap32(orderId - 1)))
  }

  /** The lines of the orders `orderId - 20` through `orderId - 1` of a district, in key order. */
  ghost function RecentLines(db: Db, warehouseId: int, districtId: int, orderId: int): seq<Entry>
  {
    ScanSpec(db, OrderLine.TABLE_NAME, OrderLine.PartitionKey(warehouseId, districtId), RecentRange(orderId), true, 0)
  }

  /** Some line among the first `n` holds `itemId` as its ol_i_id. */
  predicate HasItem(lines: seq<Entry>, n: int, itemId: int)
    requires 0 <= n <= |lines|
  {
    exists i :: 0 <= i < n && OrderLine.KEY_ITEM_ID in lines[i].row && lines[i].row[OrderLine.KEY_ITEM_ID] == IntV(itemId)
  }

  /**
   * The first loop of execute over the first `n` lines: each line's ol_i_id
   * is read as an int (the first line without one throws) and, unless it is
   * UNUSED_ID, added to the set.
   */
  function ItemSet(lines: seq<Entry>, n: int): (r: Result<set<int>, TxError>)
    requires 0 <= n <= |lines|
    ensures r.Ok? <==> forall i :: 0 <= i < n ==> IntOf(lines[i].row, OrderLine.KEY_ITEM_ID).Ok?
    ensures r.Ok? ==> forall x :: x in r.value <==> x != Item.UNUSED_ID && HasItem(lines, n, x)
    decreases n
  {
    if n == 0 then Ok({})
    else
      var before :- ItemSet(lines, n - 1);
      var itemId :- IntOf(lines[n - 1].row, OrderLine.KEY_ITEM_ID);
      Ok(if itemId != Item.UNUSED_ID then before + {itemId} else before)
  }

  /** Once a line fails to give an item id, the loop over more lines fails the same way. */
  lemma {:induction false} ItemSetStops(lines: seq<Entry>, n: int, m: int)
    requires 0 <= n <= m <= |lines| && ItemSet(lines, n).Err?
    ensures ItemSet(lines, m) == ItemSet(lines, n)
    decreases m - n
  {
    if n < m {
      ItemSetStops(lines, n + 1, m);
    }
  }

  /** The stock quantity of an item in the warehouse: "Stock not found" when absent. */
  function StockQuantity(db: Db, warehouseId: int, itemId: int): (r: Result<int, TxError>)
    ensures r.Ok? <==> Stock.KeyFor(warehouseId, itemId) in db
                       && IntOf(db[Stock.KeyFor(warehouseId, itemId)], Stock.KEY_QUANTITY).Ok?
    ensures Stock.KeyFor(warehouseId, itemId) !in db ==> r == Err(NotFound("Stock not found"))
  {
    var stock :- GetOr(db, Stock.KeyFor(warehouseId, itemId), "Stock not found");
    IntOf(stock, Stock.KEY_QUANTITY)
  }

  /** The item's stock row holds a quantity below the threshold. */
  predicate IsLow(db: Db, warehouseId: int, itemId: int, threshold: int)
  {
    StockQuantity(db, warehouseId, itemId).Ok? && StockQuantity(db, warehouseId, itemId).value < threshold
  }

  /** The items of a set whose stock is below the threshold. */
  function LowItems(db: Db, warehouseId: int, items: set<int>, threshold: int): set<int>
  {
    set x | x in items && IsLow(db, warehouseId, x, threshold)
  }

  /**
   * The count execute arrives at: every stock row must be readable; the low
   * ones are counted.  The set's iteration order is not fixed, so a failure
   * reports the error of some item that fails.
   */
  ghost function LowStock(db: Db, warehouseId: int, items: set<int>, threshold: int): (r: Result<nat, TxError>)
    ensures r.Ok? <==> forall x :: x in items ==> StockQuantity(db, warehouseId, x).Ok?
  {
    if forall x :: x in items ==> StockQuantity(db, warehouseId, x).Ok? then Ok(|LowItems(db, warehouseId, items, threshold)|)
    else
      var x :| x in items && StockQuantity(db, warehouseId, x).Err?;
      Err(StockQuantity(db, warehouseId, x).error)
  }

  /** Adding one more item to the counted ones adds one to the count exactly when it is low. */
  lemma LowItemsAdd(db: Db, warehouseId: int, done: set<int>, x: int, threshold: int)
    requires x !in done
    ensures |LowItems(db, warehouseId, done + {x}, threshold)|
            == |LowItems(db, warehouseId, done, threshold)| + (if IsLow(db, warehouseId, x, threshold) then 1 else 0)
  {
    var before := LowItems(db, warehouseId, done, threshold);
    if IsLow(db, warehouseId, x, threshold) {
      assert LowItems(db, warehouseId, done + {x}, threshold) == before + {x};
    } else {
      assert LowItems(db, warehouseId, done + {x}, threshold) == before;
    }
  }

  /** A subset is no larger than its superset. */
  lemma SubsetSize(a: set<int>, b: set<int>)
    requires a <= b
    ensures |a| <= |b|
  {
    assert b == a + (b - a);
  }

  /** A set without members is the empty set. */
  lemma NoMemberEmpty(a: set<int>)
    requires forall x :: x !in a
    ensures a == {}
  {
    var empty: set<int> := {};
    assert forall x :: x in a <==> x in empty;
  }

  /** A set other than the empty one has a member. */
  lemma NonEmptyHas(a: set<int>)
    requires a != {}
    ensures exists x :: x in a
  {
    if forall x :: x !in a {
      NoMemberEmpty(a);
      assert false;
    }
  }

  /** The count of low items is at most the number of items. */
  lemma LowItemsBounded(db: Db, warehouseId: int, items: set<int>, threshold: int)
    ensures |LowItems(db, warehouseId, items, threshold)| <= |items|
  {
    SubsetSize(LowItems(db, warehouseId, items, threshold), items);
  }

  /**
   * The whole of execute: the district's next_o_id ("District not found"
   * when absent), the scan of the twenty orders before it, the item set, the
   * low-stock count and the commit.  Success gives the unchanged store and
   * the count.
   */
  ghost function Execution(db: Db, a: Args, committed: bool): Result<(Db, nat), TxError>
  {
    var district :- GetOr(db, District.KeyFor(a.warehouseId, a.districtId), "District not found");
    var orderId :- IntOf(district, District.KEY_NEXT_O_ID);
    Counted(db, a, RecentLines(db, a.warehouseId, a.districtId, orderId), committed)
  }

  /** What execute does with the scanned lines: the item set, the low-stock count and the commit. */
  ghost function Counted(db: Db, a: Args, lines: seq<Entry>, committed: bool): Result<(Db, nat), TxError>
  {
    var items :- ItemSet(lines, |lines|);
    var lowStock :- LowStock(db, a.warehouseId, items, a.threshold);
    if committed then Ok((db, lowStock)) else Err(Conflict)
  }

  /**
   * A run of execute agrees with the specification: the same success, or a
   * failure where the specification fails too (which stock row reports the
   * error depends on the set's iteration order).
   */
  predicate SameOutcome(r: Result<(Db, nat), TxError>, spec: Result<(Db, nat), TxError>)
  {
    r == spec || (r.Err? && spec.Err?)
  }

  /** Stock-level is read-only, and its count is at most the number of distinct items. */
  lemma ExecutionReadOnly(db: Db, a: Args, committed: bool)
    ensures var r := Execution(db, a, committed);
            r.Ok? ==> r.value.0 == db
    ensures var r := Execution(db, a, committed);
            r.Ok? ==> exists items: set<int> :: r.value.1 <= |items|
                        && forall x :: x in items ==> x != Item.UNUSED_ID && StockQuantity(db, a.warehouseId, x).Ok?
  {
    var r := Execution(db, a, committed);
    if r.Ok? {
      var district := db[District.KeyFor(a.warehouseId, a.districtId)];
      var orderId := IntOf(district, District.KEY_NEXT_O_ID).value;
      var lines := RecentLines(db, a.warehouseId, a.districtId, orderId);
      var items := ItemSet(lines, |lines|).value;
      LowItemsBounded(db, a.warehouseId, items, a.threshold);
    }
  }

  /**
   * The lines scanned are those of the district whose order id lies in
   * [next_o_id - 20, next_o_id - 1], every such line among them.
   */
  lemma RecentLinesRange(db: Db, warehouseId: int, districtId: int, orderId: int)
    requires IsInt32(orderId - 20) && IsInt32(orderId - 1)
    ensures var res := RecentLines(db, warehouseId, districtId, orderId);
            && (forall i :: 0 <= i < |res| ==>
                  && res[i].key in db && res[i].row == db[res[i].key]
                  && res[i].key.table == OrderLine.TABLE_NAME
                  && res[i].key.partition == OrderLine.PartitionKey(warehouseId, districtId)
                  && orderId - 20 <= FirstClusteringInt(res[i].key) <= orderId - 1)
            && (forall k :: k in Matching(db, OrderLine.TABLE_NAME, OrderLine.PartitionKey(warehouseId, districtId),
                                          RecentRange(orderId)) ==>
                  exists i :: 0 <= i < |res| && res[i].key == k)
  {
    var partition := OrderLine.PartitionKey(warehouseId, districtId);
    var range := RecentRange(orderId);
    assert range == Some((orderId - 20, orderId - 1));
    assert RecentLines(db, warehouseId, districtId, orderId) == ScanSpec(db, OrderLine.TABLE_NAME, partition, range, true, 0);
    ScanRangeMembers(db, OrderLine.TABLE_NAME, partition, orderId - 20, orderId - 1, true, 0);
    forall k | k in Matching(db, OrderLine.TABLE_NAME, partition, range)
      ensures exists i :: 0 <= i < |ScanSpec(db, OrderLine.TABLE_NAME, partition, range, true, 0)| &&
                          ScanSpec(db, OrderLine.TABLE_NAME, partition, range, true, 0)[i].key == k
    {
      ScanCoversMatching(db, OrderLine.TABLE_NAME, partition, range, k);
    }
  }

  /** The errors of execute, in the order it meets them. */
  lemma ExecutionFails(db: Db, a: Args, committed: bool)
    ensures var r := Execution(db, a, committed);
            var dk := District.KeyFor(a.warehouseId, a.districtId);
            && (dk !in db ==> r == Err(NotFound("District not found")))
            && (dk in db && IntOf(db[dk], District.KEY_NEXT_O_ID).Err? ==> r == Err(NoSuchValue(District.KEY_NEXT_O_ID)))
            && (dk in db && IntOf(db[dk], District.KEY_NEXT_O_ID).Ok? ==>
                  var lines := RecentLines(db, a.warehouseId, a.districtId, IntOf(db[dk], District.KEY_NEXT_O_ID).value);
                  var items := ItemSet(lines, |lines|);
                  && (items.Err? ==> r.Err?)
                  && (items.Ok? && (exists x :: x in items.value && Stock.KeyFor(a.warehouseId, x) !in db) ==>
                        r.Err?)
                  && (items.Ok? && (forall x :: x in items.value ==> StockQuantity(db, a.warehouseId, x).Ok?) ==>
                        r == (if committed then Ok((db, |LowItems(db, a.warehouseId, items.value, a.threshold)|))
                              else Err(Conflict))))
  {
  }

  class StockLevelTransaction {
    var warehouseId: int
    var districtId: int
    var threshold: int

    /** The arguments the fields hold. */
    function Arguments(): Args
      reads this
    {
      Args(warehouseId, districtId, threshold)
    }

    /** A transaction object before its first generate: every field at its default. */
    constructor ()
      ensures Arguments() == Args(0, 0, 0)
    {
      warehouseId, districtId, threshold := 0, 0, 0;
    }

    /** generate(): the warehouse in [1, numWarehouse], the district in [1, 10], the threshold in [10, 20]. */
    method Generate(numWarehouse: int, warehouseDraw: int, districtDraw: int, thresholdDraw: int)
      requires 1 <= warehouseDraw <= numWarehouse && 1 <= districtDraw <= DISTRICTS && 10 <= thresholdDraw <= 20
      modifies this
      ensures Arguments() == Args(warehouseDraw, districtDraw, thresholdDraw)
      ensures 1 <= warehouseId <= numWarehouse && 1 <= districtId <= DISTRICTS && 10 <= threshold <= 20
    {
      warehouseId := warehouseDraw;
      districtId := districtDraw;
      threshold := thresholdDraw;
    }

    /** The first loop: the distinct item ids of the lines, other than UNUSED_ID. */
    static method CollectItems(lines: seq<Entry>) returns (r: Result<set<int>, TxError>)
      ensures r == ItemSet(lines, |lines|)
    {
      var itemSet: set<int> := {};
      for i := 0 to |lines|
        invariant ItemSet(lines, i) == Ok(itemSet)
      {
        var read := IntOf(lines[i].row, OrderLine.KEY_ITEM_ID);
        if read.Err? {
          ItemSetStops(lines, i + 1, |lines|);
          return Err(read.error);
        }
        var itemId := read.value;
        if itemId != Item.UNUSED_ID {
          itemSet := itemSet + {itemId};
        }
      }
      return Ok(itemSet);
    }

    /**
     * The second loop: the items in the set's iteration order (any order),
     * the first missing stock row or quantity throwing, the low ones counted.
     */
    method CountLowStock(db: Db, items: set<int>) returns (r: Result<nat, TxError>)
      ensures r.Ok? <==> LowStock(db, warehouseId, items, threshold).Ok?
      ensures r.Ok? ==> r == LowStock(db, warehouseId, items, threshold) && r.value <= |items|
      ensures r.Err? ==> exists x :: x in items && StockQuantity(db, warehouseId, x) == Err(r.error)
    {
      var lowStock := 0;
      var remaining := items;
      while remaining != {}
        invariant remaining <= items
        invariant forall x :: x in items - remaining ==> StockQuantity(db, warehouseId, x).Ok?
        invariant lowStock == |LowItems(db, warehouseId, items - remaining, threshold)|
        decreases |remaining|
      {
        NonEmptyHas(remaining);
        var itemId :| itemId in remaining;
        var quantity := StockQuantity(db, warehouseId, itemId);
        if quantity.Err? {
          return Err(quantity.error);
        }
        LowItemsAdd(db, warehouseId, items - remaining, itemId, threshold);
        assert items - (remaining - {itemId}) == (items - remaining) + {itemId};
        if quantity.value < threshold {
          lowStock := lowStock + 1;
        }
        remaining := remaining - {itemId};
      }
      assert items - remaining == items;
      LowItemsBounded(db, warehouseId, items, threshold);
      return Ok(lowStock);
    }

    /** The two loops of execute over the scanned lines, then the commit. */
    method CountLines(db: Db, lines: seq<Entry>, committed: bool) returns (r: Result<(Db, nat), TxError>)
      ensures SameOutcome(r, Counted(db, Arguments(), lines, committed))
    {
      var items :- CollectItems(lines);
      var lowStock :- CountLowStock(db, items);
      if !committed {
        return Err(Conflict);
      }
      return Ok((db, lowStock));
    }

    /** execute: read the district, scan the recent lines, collect the items, count the low ones, commit. */
    method Execute(db: Db, committed: bool) returns (r: Result<(Db, nat), TxError>)
      ensures SameOutcome(r, Execution(db, Arguments(), committed))
    {
      var district :- GetOr(db, District.KeyFor(warehouseId, districtId), "District not found");
      var orderId :- IntOf(district, District.KEY_NEXT_O_ID);
      var lines := OrderLine.ScanRange(db, warehouseId, districtId, Wrap32(orderId - 20), Wrap32(orderId - 1));
      assert lines == RecentLines(db, warehouseId, districtId, orderId);
      r := CountLines(db, lines, committed);
    }
  }
}
