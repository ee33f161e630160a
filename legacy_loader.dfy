// The legacy loader's producer and consumer.  It enumerates the same data set
// as the current loader in the same order, except that orders get no
// secondary-index rows, and it reads ten CSV files (no order_secondary.csv).
// The CSV path is taken only when a directory is given.  The queued records,
// the draws and the per-file row lists are those of TpccLoader; the legacy
// record constructors' own row checks are the `accepts` parameter.
module LegacyLoader {
  import opened Wrappers
  import opened Schema
  import opened Csv
  import opened TpccLoader

  // ---- the legacy queue has no order_secondary records ------------------------------------

  /** The records of s other than order-secondary ones, in order. */
  function WithoutSecondary(s: seq<Queued>): (r: seq<Queued>)
    ensures |r| <= |s|
  {
    if s == [] then []
    else WithoutSecondary(s[..|s| - 1]) + (if s[|s| - 1].QOrderSecondary? then [] else [s[|s| - 1]])
  }

  lemma {:induction false} WithoutSecondaryAppend(a: seq<Queued>, b: seq<Queued>)
    ensures WithoutSecondary(a + b) == WithoutSecondary(a) + WithoutSecondary(b)
    decreases |b|
  {
    if b == [] {
      assert a + b == a;
    } else {
      assert (a + b)[..|a + b| - 1] == a + b[..|b| - 1];
      WithoutSecondaryAppend(a, b[..|b| - 1]);
    }
  }

  /** A queue with no order-secondary record is kept as it is. */
  lemma {:induction false} WithoutSecondaryKeeps(s: seq<Queued>)
    requires NoOrderSecondary(s)
    ensures WithoutSecondary(s) == s
    decreases |s|
  {
    if s != [] {
      assert forall q :: q in s[..|s| - 1] ==> q in s;
      WithoutSecondaryKeeps(s[..|s| - 1]);
    }
  }

  /** An order's group loses its secondary-index row and nothing else. */
  lemma OrderGroupFiltered(w: int, d: int, o: int, c: int, dr: Draws)
    ensures WithoutSecondary(OrderGroup(w, d, o, c, dr, true)) == OrderGroup(w, d, o, c, dr, false)
  {
    var head: seq<Queued> := [QOrder(w, d, o, c)];
    var second: seq<Queued> := [QOrderSecondary(w, d, c, o)];
    var lines := Lines(w, d, o, dr, dr.lineCounts(w, d, o));
    var tail: seq<Queued> := if o > UNDELIVERED_ABOVE then [QNewOrder(w, d, o)] else [];
    LinesAreLines(w, d, o, dr, dr.lineCounts(w, d, o));
    WithoutSecondaryKeeps(head);
    WithoutSecondaryKeeps(lines);
    WithoutSecondaryKeeps(tail);
    assert WithoutSecondary(second) == [] by {
      assert second[..0] == [];
    }
    WithoutSecondaryAppend(head, second);
    WithoutSecondaryAppend(head + second, lines);
    WithoutSecondaryAppend(head + second + lines, tail);
    assert OrderGroup(w, d, o, c, dr, true) == head + second + lines + tail;
    assert OrderGroup(w, d, o, c, dr, false) == head + [] + lines + tail;
  }

  /** No order-secondary record anywhere in s. */
  predicate NoOrderSecondary(s: seq<Queued>)
  {
    forall q :: q in s ==> !q.QOrderSecondary?
  }

  lemma {:induction false} CustomersHaveNoOrderSecondary(w: int, d: int, dr: Draws, n: int)
    ensures NoOrderSecondary(Customers(w, d, dr, n))
    decreases n
  {
    if n > 0 {
      CustomersHaveNoOrderSecondary(w, d, dr, n - 1);
    }
  }

  lemma {:induction false} OrdersHaveNoOrderSecondary(w: int, d: int, perm: seq<int>, dr: Draws, n: int)
    requires n <= |perm|
    ensures NoOrderSecondary(Orders(w, d, perm, dr, false, n))
    decreases n
  {
    if n > 0 {
      OrdersHaveNoOrderSecondary(w, d, perm, dr, n - 1);
      LinesAreLines(w, d, n, dr, dr.lineCounts(w, d, n));
    }
  }

  lemma DistrictGroupHasNoOrderSecondary(w: int, d: int, dr: Draws)
    ensures NoOrderSecondary(DistrictGroup(w, d, dr, false))
  {
    CustomersHaveNoOrderSecondary(w, d, dr, CUSTOMERS);
    OrdersHaveNoOrderSecondary(w, d, Permutation(w, d, dr), dr, ORDERS);
  }

  lemma {:induction false} DistrictsHaveNoOrderSecondary(w: int, dr: Draws, n: int)
    ensures NoOrderSecondary(Districts(w, dr, false, n))
    decreases n
  {
    if n > 0 {
      DistrictsHaveNoOrderSecondary(w, dr, n - 1);
      DistrictGroupHasNoOrderSecondary(w, n, dr);
    }
  }

  lemma {:induction false} WarehousesHaveNoOrderSecondary(dr: Draws, n: int)
    ensures NoOrderSecondary(Warehouses(dr, false, n))
    decreases n
  {
    if n > 0 {
      WarehousesHaveNoOrderSecondary(dr, n - 1);
      DistrictsHaveNoOrderSecondary(n, dr, DISTRICTS);
    }
  }

  /** The legacy synthetic load queues no order_secondary record at all. */
  lemma LegacySyntheticHasNoOrderSecondary(numWarehouse: int, dr: Draws)
    ensures NoOrderSecondary(Synthetic(numWarehouse, dr, false))
  {
    WarehousesHaveNoOrderSecondary(dr, numWarehouse);
  }

  // ---- the CSV path ---------------------------------------------------------------------

  /** The CSV load: the ten legacy files in the order the loader reads them. */
  function LegacyCsvLoad(read: (string, string) -> seq<CsvRow>, dir: string, accepts: (CsvFile, CsvRow) -> bool)
    : seq<Queued>
  {
    Accepted(WarehouseFile, read(dir, FileName(WarehouseFile)), accepts)
    + Accepted(ItemFile, read(dir, FileName(ItemFile)), accepts)
    + Accepted(StockFile, read(dir, FileName(StockFile)), accepts)
    + Accepted(DistrictFile, read(dir, FileName(DistrictFile)), accepts)
    + Accepted(CustomerFile, read(dir, FileName(CustomerFile)), accepts)
    + Accepted(CustomerSecondaryFile, read(dir, FileName(CustomerSecondaryFile)), accepts)
    + Accepted(HistoryFile, read(dir, FileName(HistoryFile)), accepts)
    + Accepted(OrderFile, read(dir, FileName(OrderFile)), accepts)
    + Accepted(NewOrderFile, read(dir, FileName(NewOrderFile)), accepts)
    + Accepted(OrderLineFile, read(dir, FileName(OrderLineFile)), accepts)
  }

  /** Every row Accepted queues comes from its own file. */
  lemma {:induction false} AcceptedFromFile(f: CsvFile, rows: seq<CsvRow>, ok: (CsvFile, CsvRow) -> bool)
    ensures forall q :: q in Accepted(f, rows, ok) ==> q.QRow? && q.file == f
    decreases |rows|
  {
    if rows != [] && ok(f, rows[0]) {
      AcceptedFromFile(f, rows[1..], ok);
    }
  }

  /**
   * With the same row checks, the current loader queues the legacy loader's
   * CSV records followed by the rows of order_secondary.csv, and the legacy
   * loader queues no row of that file.
   */
  lemma CsvLoadIsPrefix(read: (string, string) -> seq<CsvRow>, dir: string, p: Parsers)
    ensures TpccLoader.CsvLoad(read, dir, p)
              == LegacyCsvLoad(read, dir, Parser(p)) + Accepted(OrderSecondaryFile, read(dir, FileName(OrderSecondaryFile)), Parser(p))
    ensures forall q :: q in LegacyCsvLoad(read, dir, Parser(p)) ==> q.QRow? && q.file != OrderSecondaryFile
  {
    var ok := Parser(p);
    AcceptedFromFile(WarehouseFile, read(dir, FileName(WarehouseFile)), ok);
    AcceptedFromFile(ItemFile, read(dir, FileName(ItemFile)), ok);
    AcceptedFromFile(StockFile, read(dir, FileName(StockFile)), ok);
    AcceptedFromFile(DistrictFile, read(dir, FileName(DistrictFile)), ok);
    AcceptedFromFile(CustomerFile, read(dir, FileName(CustomerFile)), ok);
    AcceptedFromFile(CustomerSecondaryFile, read(dir, FileName(CustomerSecondaryFile)), ok);
    AcceptedFromFile(HistoryFile, read(dir, FileName(HistoryFile)), ok);
    AcceptedFromFile(OrderFile, read(dir, FileName(OrderFile)), ok);
    AcceptedFromFile(NewOrderFile, read(dir, FileName(NewOrderFile)), ok);
    AcceptedFromFile(OrderLineFile, read(dir, FileName(OrderLineFile)), ok);
  }

  // ---- the loader ------------------------------------------------------------------------

  /** The directory option's default: no directory, so the synthetic data set is loaded. */
  const DEFAULT_DIRECTORY: Option<string> := None

  class LegacyLoader {
    const numWarehouse: int
    const directory: Option<string>
    const draws: Draws
    /** Whether the legacy CSV constructor of a file's table builds a record from a row. */
    const accepts: (CsvFile, CsvRow) -> bool
    /** The records queued and not yet polled. */
    var queue: seq<Queued>
    /** The records the consumers have polled. */
    var polled: int
    var succeeded: int
    var failed: int

    /** queuedCounter: one increment per put, so the polled records and the waiting ones. */
    function Queued(): int
      reads this
    {
      polled + |queue|
    }

    constructor (numWarehouse: int, directory: Option<string>, draws: Draws, accepts: (CsvFile, CsvRow) -> bool)
      ensures this.numWarehouse == numWarehouse && this.directory == directory
      ensures this.draws == draws && this.accepts == accepts
      ensures queue == [] && polled == 0 && succeeded == 0 && failed == 0
    {
      this.numWarehouse := numWarehouse;
      this.directory := directory;
      this.draws := draws;
      this.accepts := accepts;
      queue := [];
      polled := 0;
      succeeded := 0;
      failed := 0;
    }

    /** queue.put followed by counter.incrementAndGet. */
    method Put(q: Queued)
      modifies this
      ensures queue == old(queue) + [q] && polled == old(polled)
      ensures succeeded == old(succeeded) && failed == old(failed)
    {
      queue := queue + [q];
    }

    /** The synthetic path's first loop: items 1..ITEMS. */
    method QueueItems()
      modifies this
      ensures queue == old(queue) + Items(ITEMS) && polled == old(polled)
      ensures succeeded == old(succeeded) && failed == old(failed)
    {
      ghost var start := queue;
      for itemId := 1 to ITEMS + 1
        invariant queue == start + Items(itemId - 1) && polled == old(polled)
        invariant succeeded == old(succeeded) && failed == old(failed)
      {
        Put(QItem(itemId));
        Assoc(start, Items(itemId - 1), [QItem(itemId)]);
        ItemsStep(itemId - 1);
      }
    }

    /** Warehouses 1..numWarehouse, each with its stock and districts. */
    method QueueWarehouses()
      modifies this
      ensures queue == old(queue) + Warehouses(draws, false, numWarehouse) && polled == old(polled)
      ensures succeeded == old(succeeded) && failed == old(failed)
    {
      ghost var start := queue;
      var warehouseId := 1;
      while warehouseId <= numWarehouse
        invariant 1 <= warehouseId <= Clamped(numWarehouse) + 1
        invariant queue == start + Warehouses(draws, false, warehouseId - 1)
        invariant polled == old(polled)
        invariant succeeded == old(succeeded) && failed == old(failed)
        decreases numWarehouse - warehouseId
      {
        WarehousesStep(start, queue, draws, false, warehouseId);
        QueueWarehouse(warehouseId);
        warehouseId := warehouseId + 1;
      }
      WarehousesDone(start, queue, draws, false, warehouseId, numWarehouse);
    }

    /** One pass of queueWarehouses' loop: the warehouse, its stock, its districts. */
    method QueueWarehouse(warehouseId: int)
      modifies this
      ensures queue == old(queue) + WarehouseGroup(warehouseId, draws, false) && polled == old(polled)
      ensures succeeded == old(succeeded) && failed == old(failed)
    {
      ghost var start := queue;
      Put(QWarehouse(warehouseId));
      QueueStocks(warehouseId);
      Assoc(start, [QWarehouse(warehouseId)], Stocks(warehouseId, STOCKS));
      QueueDistricts(warehouseId);
      Assoc(start, [QWarehouse(warehouseId)] + Stocks(warehouseId, STOCKS), Districts(warehouseId, draws, false, DISTRICTS));
    }

    /** The stock loop: items 1..STOCKS in the warehouse. */
    method QueueStocks(warehouseId: int)
      modifies this
      ensures queue == old(queue) + Stocks(warehouseId, STOCKS) && polled == old(polled)
      ensures succeeded == old(succeeded) && failed == old(failed)
    {
      ghost var start := queue;
      for stockId := 1 to STOCKS + 1
        invariant queue == start + Stocks(warehouseId, stockId - 1) && polled == old(polled)
        invariant succeeded == old(succeeded) && failed == old(failed)
      {
        Put(QStock(warehouseId, stockId));
        Assoc(start, Stocks(warehouseId, stockId - 1), [QStock(warehouseId, stockId)]);
        StocksStep(warehouseId, stockId - 1);
      }
    }

    /** Districts 1..10 of a warehouse. */
    method QueueDistricts(warehouseId: int)
      modifies this
      ensures queue == old(queue) + Districts(warehouseId, draws, false, DISTRICTS)
      ensures polled == old(polled)
      ensures succeeded == old(succeeded) && failed == old(failed)
    {
      ghost var start := queue;
      for districtId := 1 to DISTRICTS + 1
        invariant queue == start + Districts(warehouseId, draws, false, districtId - 1)
        invariant polled == old(polled)
        invariant succeeded == old(succeeded) && failed == old(failed)
      {
        QueueDistrict(warehouseId, districtId);
        Assoc(start, Districts(warehouseId, draws, false, districtId - 1), DistrictGroup(warehouseId, districtId, draws, false));
      }
    }

    /** One pass of queueDistricts' loop: the district, then its customers and its orders. */
    method QueueDistrict(warehouseId: int, districtId: int)
      modifies this
      ensures queue == old(queue) + DistrictGroup(warehouseId, districtId, draws, false)
      ensures polled == old(polled)
      ensures succeeded == old(succeeded) && failed == old(failed)
    {
      ghost var start := queue;
      Put(QDistrict(warehouseId, districtId));
      QueueCustomers(warehouseId, districtId);
      Assoc(start, [QDistrict(warehouseId, districtId)], Customers(warehouseId, districtId, draws, CUSTOMERS));
      QueueOrders(warehouseId, districtId);
      Assoc(start, [QDistrict(warehouseId, districtId)] + Customers(warehouseId, districtId, draws, CUSTOMERS),
            Orders(warehouseId, districtId, Permutation(warehouseId, districtId, draws), draws, false, ORDERS));
    }

    /** Customers 1..3000 of a district. */
    method QueueCustomers(warehouseId: int, districtId: int)
      modifies this
      ensures queue == old(queue) + Customers(warehouseId, districtId, draws, CUSTOMERS)
      ensures polled == old(polled)
      ensures succeeded == old(succeeded) && failed == old(failed)
    {
      ghost var start := queue;
      for customerId := 1 to CUSTOMERS + 1
        invariant queue == start + Customers(warehouseId, districtId, draws, customerId - 1)
        invariant polled == old(polled)
        invariant succeeded == old(succeeded) && failed == old(failed)
      {
        var (first, last) := draws.names(warehouseId, districtId, customerId);
        Put(QCustomer(warehouseId, districtId, customerId, first, last));
        Put(QCustomerSecondary(warehouseId, districtId, last, first, customerId));
        Put(QHistory(customerId, districtId, warehouseId, districtId, warehouseId));
        Assoc(start, Customers(warehouseId, districtId, draws, customerId - 1),
              CustomerGroup(warehouseId, districtId, customerId, draws.names(warehouseId, districtId, customerId)));
      }
    }

    /** The customer ids 1..3000, shuffled, as the array the orders take their customers from. */
    method CustomerPermutation(warehouseId: int, districtId: int) returns (permutation: seq<int>)
      ensures permutation == Permutation(warehouseId, districtId, draws)
    {
      var customers := new int[CUSTOMERS];
      for customerId := 1 to CUSTOMERS + 1
        invariant forall k :: 0 <= k < customerId - 1 ==> customers[k] == k + 1
      {
        customers[customerId - 1] := customerId;
      }
      assert customers[..] == Ascending(CUSTOMERS);
      Shuffle(customers, draws.swaps(warehouseId, districtId));
      permutation := customers[..];
    }

    /** Orders 1..3000, order o going to the o-th customer of the shuffled list. */
    method QueueOrders(warehouseId: int, districtId: int)
      modifies this
      ensures queue == old(queue) + Orders(warehouseId, districtId, Permutation(warehouseId, districtId, draws), draws, false, ORDERS)
      ensures polled == old(polled)
      ensures succeeded == old(succeeded) && failed == old(failed)
    {
      ghost var start := queue;
      var permutation := CustomerPermutation(warehouseId, districtId);
      PermutationOfCustomers(warehouseId, districtId, draws);
      for orderId := 1 to ORDERS + 1
        invariant queue == start + Orders(warehouseId, districtId, permutation, draws, false, orderId - 1)
        invariant polled == old(polled)
        invariant succeeded == old(succeeded) && failed == old(failed)
      {
        QueueOrder(warehouseId, districtId, orderId, permutation[orderId - 1]);
        Assoc(start, Orders(warehouseId, districtId, permutation, draws, false, orderId - 1),
              OrderGroup(warehouseId, districtId, orderId, permutation[orderId - 1], draws, false));
      }
    }

    /** One order: the order, its lines, and a New-Order above 2100. */
    method QueueOrder(warehouseId: int, districtId: int, orderId: int, customerId: int)
      modifies this
      ensures queue == old(queue) + OrderGroup(warehouseId, districtId, orderId, customerId, draws, false)
      ensures polled == old(polled)
      ensures succeeded == old(succeeded) && failed == old(failed)
    {
      ghost var start := queue;
      var head := [QOrder(warehouseId, districtId, orderId, customerId)];
      Put(QOrder(warehouseId, districtId, orderId, customerId));
      var orderLineCount := draws.lineCounts(warehouseId, districtId, orderId);
      QueueLines(warehouseId, districtId, orderId, orderLineCount);
      ghost var lines := Lines(warehouseId, districtId, orderId, draws, orderLineCount);
      Assoc(start, head, lines);
      assert head + [] == head;
      if orderId > UNDELIVERED_ABOVE {
        Put(QNewOrder(warehouseId, districtId, orderId));
        Assoc(start, head + lines, [QNewOrder(warehouseId, districtId, orderId)]);
      } else {
        assert head + lines + [] == head + lines;
      }
    }

    /** The order-line loop: lines 1..n, each on an item drawn from 1..ITEMS, supplied by the home warehouse. */
    method QueueLines(warehouseId: int, districtId: int, orderId: int, orderLineCount: int)
      modifies this
      ensures queue == old(queue) + Lines(warehouseId, districtId, orderId, draws, orderLineCount)
      ensures polled == old(polled)
      ensures succeeded == old(succeeded) && failed == old(failed)
    {
      ghost var start := queue;
      var number := 1;
      while number <= orderLineCount
        invariant 1 <= number && (number <= orderLineCount + 1 || number == 1)
        invariant queue == start + Lines(warehouseId, districtId, orderId, draws, number - 1)
        invariant polled == old(polled)
        invariant succeeded == old(succeeded) && failed == old(failed)
        decreases orderLineCount - number
      {
        var itemId := draws.items(warehouseId, districtId, orderId, number);
        Put(QOrderLine(warehouseId, districtId, orderId, number, warehouseId, itemId));
        Assoc(start, Lines(warehouseId, districtId, orderId, draws, number - 1),
              [QOrderLine(warehouseId, districtId, orderId, number, warehouseId, itemId)]);
        number := number + 1;
      }
    }

    /** queueCSV: the file's rows until a constructor throws, which ends that file. */
    method QueueCsv(f: CsvFile, rows: seq<CsvRow>)
      modifies this
      ensures queue == old(queue) + Accepted(f, rows, accepts)
      ensures polled == old(polled)
      ensures succeeded == old(succeeded) && failed == old(failed)
    {
      var i := 0;
      while i < |rows|
        invariant 0 <= i <= |rows|
        invariant old(queue) + Accepted(f, rows, accepts) == queue + Accepted(f, rows[i..], accepts)
        invariant polled == old(polled)
        invariant succeeded == old(succeeded) && failed == old(failed)
      {
        if !accepts(f, rows[i]) {
          assert queue + [] == queue;
          return;
        }
        ghost var before := queue;
        Put(QRow(f, rows[i]));
        assert rows[i..][1..] == rows[i + 1..];
        Assoc(before, [QRow(f, rows[i])], Accepted(f, rows[i + 1..], accepts));
        i := i + 1;
      }
      assert queue + [] == queue;
    }

    /** The CSV branch of load: the ten files in order. */
    method QueueCsvFiles(read: (string, string) -> seq<CsvRow>, dir: string)
      modifies this
      ensures queue == old(queue) + LegacyCsvLoad(read, dir, accepts) && polled == old(polled)
      ensures succeeded == old(succeeded) && failed == old(failed)
    {
      ghost var start := queue;
      QueueCsv(WarehouseFile, read(dir, FileName(WarehouseFile)));
      ghost var done := Accepted(WarehouseFile, read(dir, FileName(WarehouseFile)), accepts);
      QueueCsv(ItemFile, read(dir, FileName(ItemFile)));
      Assoc(start, done, Accepted(ItemFile, read(dir, FileName(ItemFile)), accepts));
      done := done + Accepted(ItemFile, read(dir, FileName(ItemFile)), accepts);
      QueueCsv(StockFile, read(dir, FileName(StockFile)));
      Assoc(start, done, Accepted(StockFile, read(dir, FileName(StockFile)), accepts));
      done := done + Accepted(StockFile, read(dir, FileName(StockFile)), accepts);
      QueueCsv(DistrictFile, read(dir, FileName(DistrictFile)));
      Assoc(start, done, Accepted(DistrictFile, read(dir, FileName(DistrictFile)), accepts));
      done := done + Accepted(DistrictFile, read(dir, FileName(DistrictFile)), accepts);
      QueueCsv(CustomerFile, read(dir, FileName(CustomerFile)));
      Assoc(start, done, Accepted(CustomerFile, read(dir, FileName(CustomerFile)), accepts));
      done := done + Accepted(CustomerFile, read(dir, FileName(CustomerFile)), accepts);
      QueueCsv(CustomerSecondaryFile, read(dir, FileName(CustomerSecondaryFile)));
      Assoc(start, done, Accepted(CustomerSecondaryFile, read(dir, FileName(CustomerSecondaryFile)), accepts));
      done := done + Accepted(CustomerSecondaryFile, read(dir, FileName(CustomerSecondaryFile)), accepts);
      QueueCsv(HistoryFile, read(dir, FileName(HistoryFile)));
      Assoc(start, done, Accepted(HistoryFile, read(dir, FileName(HistoryFile)), accepts));
      done := done + Accepted(HistoryFile, read(dir, FileName(HistoryFile)), accepts);
      QueueCsv(OrderFile, read(dir, FileName(OrderFile)));
      Assoc(start, done, Accepted(OrderFile, read(dir, FileName(OrderFile)), accepts));
      done := done + Accepted(OrderFile, read(dir, FileName(OrderFile)), accepts);
      QueueCsv(NewOrderFile, read(dir, FileName(NewOrderFile)));
      Assoc(start, done, Accepted(NewOrderFile, read(dir, FileName(NewOrderFile)), accepts));
      done := done + Accepted(NewOrderFile, read(dir, FileName(NewOrderFile)), accepts);
      QueueCsv(OrderLineFile, read(dir, FileName(OrderLineFile)));
      Assoc(start, done, Accepted(OrderLineFile, read(dir, FileName(OrderLineFile)), accepts));
      done := done + Accepted(OrderLineFile, read(dir, FileName(OrderLineFile)), accepts);
      assert done == LegacyCsvLoad(read, dir, accepts);
    }

    /** What load queues: the CSV files when a directory is given, the synthetic data otherwise. */
    function Plan(read: (string, string) -> seq<CsvRow>): seq<Queued>
    {
      if directory.Some? then LegacyCsvLoad(read, directory.value, accepts) else Synthetic(numWarehouse, draws, false)
    }

    /** load's producer half. */
    method Produce(read: (string, string) -> seq<CsvRow>)
      modifies this
      ensures queue == old(queue) + Plan(read) && polled == old(polled)
      ensures succeeded == old(succeeded) && failed == old(failed)
    {
      if directory.Some? {
        QueueCsvFiles(read, directory.value);
      } else {
        ghost var start := queue;
        QueueItems();
        QueueWarehouses();
        Assoc(start, Items(ITEMS), Warehouses(draws, false, numWarehouse));
      }
    }

    /**
     * The consumers' loop, run after the producer: poll each record, insert
     * it (`outcomes[i]` says whether the i-th insert committed) and count it
     * as succeeded or failed.
     */
    method Consume(outcomes: seq<bool>)
      requires |outcomes| >= |queue|
      modifies this
      ensures queue == [] && polled == old(polled) + |old(queue)|
      ensures succeeded == old(succeeded) + Successes(outcomes[..|old(queue)|])
      ensures failed == old(failed) + |old(queue)| - Successes(outcomes[..|old(queue)|])
    {
      var i := 0;
      while queue != []
        invariant 0 <= i <= |old(queue)| && queue == old(queue)[i..] && polled == old(polled) + i
        invariant succeeded == old(succeeded) + Successes(outcomes[..i])
        invariant failed == old(failed) + i - Successes(outcomes[..i])
        decreases |queue|
      {
        queue := queue[1..];
        polled := polled + 1;
        assert outcomes[..i + 1][..i] == outcomes[..i];
        if outcomes[i] {
          succeeded := succeeded + 1;
        } else {
          failed := failed + 1;
        }
        i := i + 1;
      }
    }

    /**
     * load: queue everything, then drain the queue.  When it returns the
     * monitor's exit condition holds: every queued record was counted as
     * succeeded or failed.
     */
    method Load(read: (string, string) -> seq<CsvRow>, outcomes: seq<bool>)
      requires queue == [] && polled == 0 && succeeded == 0 && failed == 0
      requires |outcomes| >= |Plan(read)|
      modifies this
      ensures queue == [] && Queued() == |Plan(read)| && succeeded + failed == Queued()
      ensures succeeded == Successes(outcomes[..Queued()])
    {
      Produce(read);
      assert queue == Plan(read);
      Consume(outcomes);
    }
  }
}
