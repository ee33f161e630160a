// The loader's producer and consumer.  The producer puts records on a queue:
// either the rows of eleven CSV files, or the synthetic data set (all items,
// then per warehouse the warehouse, its stock and its districts, each
// district followed by its customers and its orders).  A counter is bumped
// after every put, so it equals the records polled plus those still waiting.
// The consumer polls records and inserts each in a transaction of its own,
// counting successes and failures.
//
// A queued record is named by the constructor call that built it and the
// arguments that call received (the ids, and a customer's drawn names); what
// the constructor draws for the other columns is modelled by each table's
// Generated.  A CSV row is queued as the row itself.  The random draws
// (names, line counts, item ids, the shuffle's swap positions) are inputs.
module TpccLoader {
  import opened Wrappers
  import opened Schema
  import opened Csv
  import Warehouse
  import Item
  import Stock
  import District
  import Customer
  import CustomerSecondary
  import History
  import Order
  import NewOrder
  import OrderLine
  import OrderSecondary

  /** The orders above this id are still undelivered, so each gets a New-Order record. */
  const UNDELIVERED_ABOVE: int := 2100

  /** The eleven CSV files the loader knows. */
  datatype CsvFile =
    | CustomerFile | CustomerSecondaryFile | DistrictFile | HistoryFile | ItemFile | NewOrderFile
    | OrderFile | OrderLineFile | OrderSecondaryFile | StockFile | WarehouseFile

  function FileName(f: CsvFile): string
  {
    match f
    case CustomerFile => "customer.csv"
    case CustomerSecondaryFile => "customer_secondary.csv"
    case DistrictFile => "district.csv"
    case HistoryFile => "history.csv"
    case ItemFile => "item.csv"
    case NewOrderFile => "new_order.csv"
    case OrderFile => "oorder.csv"
    case OrderLineFile => "order_line.csv"
    case OrderSecondaryFile => "order_secondary.csv"
    case StockFile => "stock.csv"
    case WarehouseFile => "warehouse.csv"
  }

  /** A queued record: the constructor call that built it. */
  datatype Queued =
    | QItem(itemId: int)
    | QWarehouse(warehouseId: int)
    | QStock(warehouseId: int, itemId: int)
    | QDistrict(warehouseId: int, districtId: int)
    | QCustomer(warehouseId: int, districtId: int, customerId: int, first: string, last: string)
    | QCustomerSecondary(warehouseId: int, districtId: int, last: string, first: string, customerId: int)
    | QHistory(customerId: int, customerDistrictId: int, customerWarehouseId: int, districtId: int, warehouseId: int)
    | QOrder(warehouseId: int, districtId: int, orderId: int, customerId: int)
    | QOrderSecondary(warehouseId: int, districtId: int, customerId: int, orderId: int)
    | QOrderLine(warehouseId: int, districtId: int, orderId: int, number: int, supplyWarehouseId: int, itemId: int)
    | QNewOrder(warehouseId: int, districtId: int, orderId: int)
    | QRow(file: CsvFile, row: CsvRow)

  /**
   * The draws of the synthetic load: a customer's (first, last) names, the
   * random source Collections.shuffle uses on a district's customer list
   * (swaps(w, d)(i) is the draw that nextInt(i) reduces), an order's line
   * count and an order line's item id.
   */
  datatype Draws = Draws(names: (int, int, int) -> (string, string), swaps: (int, int) -> (int -> int),
                         lineCounts: (int, int, int) -> int, items: (int, int, int, int) -> int)

  // ---- Collections.shuffle --------------------------------------------------------------

  /** Random.nextInt(bound): a draw reduced into 0..bound-1. */
  function NextInt(draw: int, bound: int): (r: int)
    requires bound > 0
    ensures 0 <= r < bound
  {
    draw % bound
  }

  function Swap(s: seq<int>, i: int, j: int): (r: seq<int>)
    requires 0 <= i < |s| && 0 <= j < |s|
    ensures |r| == |s|
  {
    s[i := s[j]][j := s[i]]
  }

  /** The list after the swaps for positions i-1 down to 1 (the shuffle runs i from size down to 2). */
  function Shuffled(s: seq<int>, rnd: int -> int, i: int): (r: seq<int>)
    requires i <= |s|
    ensures |r| == |s|
    decreases i, s
  {
    if i <= 1 then s else Shuffled(Swap(s, i - 1, NextInt(rnd(i), i)), rnd, i - 1)
  }

  /** A swap keeps the elements and their multiplicities. */
  lemma SwapPermutes(s: seq<int>, i: int, j: int)
    requires 0 <= i < |s| && 0 <= j < |s|
    ensures multiset(Swap(s, i, j)) == multiset(s)
  {
    if i != j {
      var t := s[i := s[j]];
      assert multiset(t) == multiset(s) - multiset{s[i]} + multiset{s[j]};
    }
  }

  /** Shuffling yields a permutation of the list. */
  lemma {:induction false} ShuffledPermutes(s: seq<int>, rnd: int -> int, i: int)
    requires i <= |s|
    ensures multiset(Shuffled(s, rnd, i)) == multiset(s)
    decreases i
  {
    if i > 1 {
      SwapPermutes(s, i - 1, NextInt(rnd(i), i));
      ShuffledPermutes(Swap(s, i - 1, NextInt(rnd(i), i)), rnd, i - 1);
    }
  }

  /** Collections.shuffle on a random-access list: for i from size down to 2, swap i-1 with nextInt(i). */
  method Shuffle(a: array<int>, rnd: int -> int)
    modifies a
    ensures a[..] == Shuffled(old(a[..]), rnd, a.Length)
  {
    var i := a.Length;
    while i > 1
      invariant 0 <= i <= a.Length
      invariant Shuffled(a[..], rnd, i) == Shuffled(old(a[..]), rnd, a.Length)
      decreases i
    {
      var j := NextInt(rnd(i), i);
      ghost var before := a[..];
      a[i - 1], a[j] := a[j], a[i - 1];
      assert a[..] == Swap(before, i - 1, j);
      i := i - 1;
    }
  }

  /** The ids 1..n in order, as the loader first lists the customers. */
  function Ascending(n: nat): (s: seq<int>)
    ensures |s| == n
  {
    seq(n, k => k + 1)
  }

  /** Each of 1..n occurs once in Ascending(n), and nothing else occurs. */
  lemma {:induction false} AscendingOnce(n: nat)
    ensures forall c :: multiset(Ascending(n))[c] == if 1 <= c <= n then 1 else 0
  {
    if n > 0 {
      AscendingOnce(n - 1);
      assert Ascending(n) == Ascending(n - 1) + [n];
    }
  }

  /** The customer list of district (w, d) after the shuffle. */
  function Permutation(w: int, d: int, dr: Draws): seq<int>
  {
    Shuffled(Ascending(CUSTOMERS), dr.swaps(w, d), CUSTOMERS)
  }

  /** The shuffled list holds every customer id exactly once, and nothing else. */
  lemma PermutationOfCustomers(w: int, d: int, dr: Draws)
    ensures |Permutation(w, d, dr)| == CUSTOMERS
    ensures forall c :: multiset(Permutation(w, d, dr))[c] == if 1 <= c <= CUSTOMERS then 1 else 0
  {
    ShuffledPermutes(Ascending(CUSTOMERS), dr.swaps(w, d), CUSTOMERS);
    AscendingOnce(CUSTOMERS);
  }

  /** a + (b + c) == a + b + c, stated for the solver on the terms at hand. */
  lemma Assoc(a: seq<Queued>, b: seq<Queued>, c: seq<Queued>)
    ensures a + (b + c) == a + b + c
  {
  }

  // ---- what the synthetic load queues ---------------------------------------------------

  /** Items 1..n, in order. */
  function Items(n: nat): seq<Queued>
  {
    seq(n, k => QItem(k + 1))
  }

  lemma ItemsStep(n: nat)
    ensures Items(n) + [QItem(n + 1)] == Items(n + 1)
  {
  }

  /** The stock of items 1..n in warehouse w, in order. */
  function Stocks(w: int, n: nat): seq<Queued>
  {
    seq(n, k => QStock(w, k + 1))
  }

  lemma StocksStep(w: int, n: nat)
    ensures Stocks(w, n) + [QStock(w, n + 1)] == Stocks(w, n + 1)
  {
  }

  /** A customer, its secondary-index row with the same names, and its history row. */
  function CustomerGroup(w: int, d: int, c: int, names: (string, string)): seq<Queued>
  {
    [QCustomer(w, d, c, names.0, names.1), QCustomerSecondary(w, d, names.1, names.0, c), QHistory(c, d, w, d, w)]
  }

  /** Customers 1..n of district (w, d). */
  function Customers(w: int, d: int, dr: Draws, n: int): seq<Queued>
    decreases n, dr
  {
    if n <= 0 then [] else Customers(w, d, dr, n - 1) + CustomerGroup(w, d, n, dr.names(w, d, n))
  }

  /** Lines 1..n of order o, each supplied by the home warehouse. */
  function Lines(w: int, d: int, o: int, dr: Draws, n: int): seq<Queued>
    decreases n
  {
    if n <= 0 then [] else Lines(w, d, o, dr, n - 1) + [QOrderLine(w, d, o, n, w, dr.items(w, d, o, n))]
  }

  /**
   * Order o of customer c: the order, its secondary-index row when `secondary`
   * (the current loader; the legacy one has none), its lines, and a New-Order
   * when the order is one of the undelivered ones.
   */
  function OrderGroup(w: int, d: int, o: int, c: int, dr: Draws, secondary: bool): seq<Queued>
  {
    [QOrder(w, d, o, c)] + (if secondary then [QOrderSecondary(w, d, c, o)] else [])
    + Lines(w, d, o, dr, dr.lineCounts(w, d, o))
    + (if o > UNDELIVERED_ABOVE then [QNewOrder(w, d, o)] else [])
  }

  /** Orders 1..n of district (w, d), order o going to customer perm[o-1]. */
  function Orders(w: int, d: int, perm: seq<int>, dr: Draws, secondary: bool, n: int): seq<Queued>
    requires n <= |perm|
    decreases n, dr
  {
    if n <= 0 then [] else Orders(w, d, perm, dr, secondary, n - 1) + OrderGroup(w, d, n, perm[n - 1], dr, secondary)
  }

  function DistrictGroup(w: int, d: int, dr: Draws, secondary: bool): seq<Queued>
  {
    [QDistrict(w, d)] + Customers(w, d, dr, CUSTOMERS) + Orders(w, d, Permutation(w, d, dr), dr, secondary, ORDERS)
  }

  /** Districts 1..n of warehouse w. */
  function Districts(w: int, dr: Draws, secondary: bool, n: int): seq<Queued>
    decreases n, dr
  {
    if n <= 0 then [] else Districts(w, dr, secondary, n - 1) + DistrictGroup(w, n, dr, secondary)
  }

  function WarehouseGroup(w: int, dr: Draws, secondary: bool): seq<Queued>
  {
    [QWarehouse(w)] + Stocks(w, STOCKS) + Districts(w, dr, secondary, DISTRICTS)
  }

  /** Warehouses 1..n. */
  function Warehouses(dr: Draws, secondary: bool, n: int): seq<Queued>
    decreases n
  {
    if n <= 0 then [] else Warehouses(dr, secondary, n - 1) + WarehouseGroup(n, dr, secondary)
  }

  /** n, or 0 when n is negative: the last id a loop from 1 to n reaches. */
  function Clamped(n: int): nat
  {
    if n < 0 then 0 else n
  }

  /** One more round of QueueWarehouses' loop extends the queue by the next warehouse. */
  lemma WarehousesStep(start: seq<Queued>, queued: seq<Queued>, dr: Draws, secondary: bool, w: int)
    requires w >= 1 && queued == start + Warehouses(dr, secondary, w - 1)
    ensures queued + WarehouseGroup(w, dr, secondary) == start + Warehouses(dr, secondary, w)
  {
    Assoc(start, Warehouses(dr, secondary, w - 1), WarehouseGroup(w, dr, secondary));
  }

  /** The loop's last id stands for the requested count, negative counts included. */
  lemma WarehousesDone(start: seq<Queued>, queued: seq<Queued>, dr: Draws, secondary: bool, w: int, n: int)
    requires w - 1 == Clamped(n) && queued == start + Warehouses(dr, secondary, w - 1)
    ensures queued == start + Warehouses(dr, secondary, n)
  {
  }

  /** The synthetic load: every item, then the warehouses. */
  function Synthetic(numWarehouse: int, dr: Draws, secondary: bool): seq<Queued>
  {
    Items(ITEMS) + Warehouses(dr, secondary, numWarehouse)
  }

  // ---- the synthetic load's properties -----------------------------------------------

  /** An order's lines are numbered 1..n, each supplied by the home warehouse. */
  lemma {:induction false} LinesNumbered(w: int, d: int, o: int, dr: Draws, n: nat)
    ensures |Lines(w, d, o, dr, n)| == n
    ensures forall k :: 0 <= k < n ==> Lines(w, d, o, dr, n)[k] == QOrderLine(w, d, o, k + 1, w, dr.items(w, d, o, k + 1))
  {
    if n > 0 {
      LinesNumbered(w, d, o, dr, n - 1);
    }
  }

  /** Customers 1..n queue three records each. */
  lemma {:induction false} CustomersLength(w: int, d: int, dr: Draws, n: nat)
    ensures |Customers(w, d, dr, n)| == 3 * n
  {
    if n > 0 {
      CustomersLength(w, d, dr, n - 1);
    }
  }

  /** Customer c's three records sit at positions 3c-3, 3c-2 and 3c-1 of customers 1..n. */
  lemma {:induction false} CustomerTriple(w: int, d: int, dr: Draws, n: nat, c: int)
    requires 1 <= c <= n
    ensures |Customers(w, d, dr, n)| == 3 * n
    ensures Customers(w, d, dr, n)[3 * c - 3] == QCustomer(w, d, c, dr.names(w, d, c).0, dr.names(w, d, c).1)
    ensures Customers(w, d, dr, n)[3 * c - 2] == QCustomerSecondary(w, d, dr.names(w, d, c).1, dr.names(w, d, c).0, c)
    ensures Customers(w, d, dr, n)[3 * c - 1] == QHistory(c, d, w, d, w)
  {
    CustomersLength(w, d, dr, n - 1);
    CustomersLength(w, d, dr, n);
    if c < n {
      CustomerTriple(w, d, dr, n - 1, c);
    }
  }

  /**
   * Each customer yields exactly three records, in the order customer,
   * secondary-index row, history; the secondary row carries the customer's
   * own first and last names.
   */
  lemma CustomerTriples(w: int, d: int, dr: Draws, n: nat)
    ensures |Customers(w, d, dr, n)| == 3 * n
    ensures forall c :: 1 <= c <= n ==>
              var s := Customers(w, d, dr, n);
              var (first, last) := dr.names(w, d, c);
              && s[3 * c - 3] == QCustomer(w, d, c, first, last)
              && s[3 * c - 2] == QCustomerSecondary(w, d, last, first, c)
              && s[3 * c - 1] == QHistory(c, d, w, d, w)
  {
    CustomersLength(w, d, dr, n);
    forall c | 1 <= c <= n {
      CustomerTriple(w, d, dr, n, c);
    }
  }

  /** The kinds of record counted below: New-Orders, and the orders of one customer. */
  datatype Tag = NewOrderTag | OrderTag(warehouseId: int, districtId: int, customerId: int)

  predicate HasTag(q: Queued, t: Tag)
  {
    match t
    case NewOrderTag => q.QNewOrder?
    case OrderTag(w, d, c) => q.QOrder? && q.warehouseId == w && q.districtId == d && q.customerId == c
  }

  /** The number of records of a kind in a queue. */
  function Tally(s: seq<Queued>, t: Tag): (n: nat)
    ensures n <= |s|
  {
    if s == [] then 0 else Tally(s[..|s| - 1], t) + (if HasTag(s[|s| - 1], t) then 1 else 0)
  }

  lemma {:induction false} TallyAppend(a: seq<Queued>, b: seq<Queued>, t: Tag)
    ensures Tally(a + b, t) == Tally(a, t) + Tally(b, t)
    decreases |b|
  {
    if b != [] {
      assert (a + b)[..|a + b| - 1] == a + b[..|b| - 1];
      TallyAppend(a, b[..|b| - 1], t);
    } else {
      assert a + b == a;
    }
  }

  lemma TallyOne(q: Queued, t: Tag)
    ensures Tally([q], t) == if HasTag(q, t) then 1 else 0
  {
    assert [q][..0] == [];
  }

  lemma {:induction false} LinesUntagged(w: int, d: int, o: int, dr: Draws, n: int, t: Tag)
    ensures Tally(Lines(w, d, o, dr, n), t) == 0
    decreases n
  {
    if n > 0 {
      LinesUntagged(w, d, o, dr, n - 1, t);
      TallyAppend(Lines(w, d, o, dr, n - 1), [QOrderLine(w, d, o, n, w, dr.items(w, d, o, n))], t);
      TallyOne(QOrderLine(w, d, o, n, w, dr.items(w, d, o, n)), t);
    }
  }

  /** An order group counts its order, and its New-Order when it has one. */
  lemma OrderGroupTally(w: int, d: int, o: int, c: int, dr: Draws, secondary: bool, t: Tag)
    ensures Tally(OrderGroup(w, d, o, c, dr, secondary), t) ==
            (if HasTag(QOrder(w, d, o, c), t) then 1 else 0) + (if o > UNDELIVERED_ABOVE && t == NewOrderTag then 1 else 0)
  {
    var head: seq<Queued> := [QOrder(w, d, o, c)];
    var second: seq<Queued> := if secondary then [QOrderSecondary(w, d, c, o)] else [];
    var lines := Lines(w, d, o, dr, dr.lineCounts(w, d, o));
    var tail: seq<Queued> := if o > UNDELIVERED_ABOVE then [QNewOrder(w, d, o)] else [];
    TallyOne(QOrder(w, d, o, c), t);
    assert Tally(second, t) == 0 by {
      if secondary {
        TallyOne(QOrderSecondary(w, d, c, o), t);
      }
    }
    assert Tally(tail, t) == (if o > UNDELIVERED_ABOVE && t == NewOrderTag then 1 else 0) by {
      if o > UNDELIVERED_ABOVE {
        TallyOne(QNewOrder(w, d, o), t);
      }
    }
    LinesUntagged(w, d, o, dr, dr.lineCounts(w, d, o), t);
    TallyAppend(head, second, t);
    TallyAppend(head + second, lines, t);
    TallyAppend(head + second + lines, tail, t);
  }

  /** No item record anywhere in s. */
  predicate NoItem(s: seq<Queued>)
  {
    forall q :: q in s ==> !q.QItem?
  }

  lemma NoItemAppend(a: seq<Queued>, b: seq<Queued>)
    requires NoItem(a) && NoItem(b)
    ensures NoItem(a + b)
  {
  }

  lemma {:induction false} CustomersHaveNoItem(w: int, d: int, dr: Draws, n: int)
    ensures NoItem(Customers(w, d, dr, n))
    decreases n
  {
    if n > 0 {
      CustomersHaveNoItem(w, d, dr, n - 1);
    }
  }

  lemma {:induction false} OrdersHaveNoItem(w: int, d: int, perm: seq<int>, dr: Draws, secondary: bool, n: int)
    requires n <= |perm|
    ensures NoItem(Orders(w, d, perm, dr, secondary, n))
    decreases n
  {
    if n > 0 {
      OrdersHaveNoItem(w, d, perm, dr, secondary, n - 1);
      LinesAreLines(w, d, n, dr, dr.lineCounts(w, d, n));
    }
  }

  lemma DistrictGroupHasNoItem(w: int, d: int, dr: Draws, secondary: bool)
    ensures NoItem(DistrictGroup(w, d, dr, secondary))
  {
    CustomersHaveNoItem(w, d, dr, CUSTOMERS);
    OrdersHaveNoItem(w, d, Permutation(w, d, dr), dr, secondary, ORDERS);
  }

  lemma {:induction false} DistrictsHaveNoItem(w: int, dr: Draws, secondary: bool, n: int)
    ensures NoItem(Districts(w, dr, secondary, n))
    decreases n
  {
    if n > 0 {
      DistrictsHaveNoItem(w, dr, secondary, n - 1);
      DistrictGroupHasNoItem(w, n, dr, secondary);
      NoItemAppend(Districts(w, dr, secondary, n - 1), DistrictGroup(w, n, dr, secondary));
    }
  }

  lemma {:induction false} WarehousesHaveNoItem(dr: Draws, secondary: bool, n: int)
    ensures NoItem(Warehouses(dr, secondary, n))
    decreases n
  {
    if n > 0 {
      WarehousesHaveNoItem(dr, secondary, n - 1);
      DistrictsHaveNoItem(n, dr, secondary, DISTRICTS);
    }
  }

  /** The synthetic load queues items 1..ITEMS first, and no item after any other record. */
  lemma ItemsFirst(numWarehouse: int, dr: Draws, secondary: bool)
    ensures var s := Synthetic(numWarehouse, dr, secondary);
            && |s| >= ITEMS
            && (forall k :: 0 <= k < ITEMS ==> s[k] == QItem(k + 1))
            && (forall i, j :: 0 <= i < |s| && 0 <= j < |s| && s[j].QItem? && !s[i].QItem? ==> j < i)
  {
    var warehouses := Warehouses(dr, secondary, numWarehouse);
    WarehousesHaveNoItem(dr, secondary, numWarehouse);
    var s := Synthetic(numWarehouse, dr, secondary);
    assert forall k :: ITEMS <= k < |s| ==> s[k] == warehouses[k - ITEMS] && s[k] in warehouses;
  }

  predicate OnlyLines(s: seq<Queued>)
  {
    forall q :: q in s ==> q.QOrderLine?
  }

  lemma {:induction false} LinesAreLines(w: int, d: int, o: int, dr: Draws, n: int)
    ensures OnlyLines(Lines(w, d, o, dr, n))
    decreases n
  {
    if n > 0 {
      LinesAreLines(w, d, o, dr, n - 1);
    }
  }

  /** An order group holds exactly one order record, the order itself, and a New-Order only above 2100. */
  lemma OrderGroupOrders(w: int, d: int, o: int, c: int, dr: Draws, secondary: bool)
    ensures forall w', d', o', c' :: QOrder(w', d', o', c') in OrderGroup(w, d, o, c, dr, secondary) <==>
              w' == w && d' == d && o' == o && c' == c
    ensures forall w', d', o' :: QNewOrder(w', d', o') in OrderGroup(w, d, o, c, dr, secondary) <==>
              w' == w && d' == d && o' == o && o > UNDELIVERED_ABOVE
  {
    var lines := Lines(w, d, o, dr, dr.lineCounts(w, d, o));
    LinesAreLines(w, d, o, dr, dr.lineCounts(w, d, o));
  }

  /** The order records of a district: order o, for o in 1..n, belongs to customer perm[o-1], and no other. */
  lemma {:induction false} OrdersOfCustomers(w: int, d: int, perm: seq<int>, dr: Draws, secondary: bool, n: int)
    requires n <= |perm|
    ensures forall w', d', o, c :: QOrder(w', d', o, c) in Orders(w, d, perm, dr, secondary, n) <==>
              w' == w && d' == d && 1 <= o <= n && c == perm[o - 1]
    decreases n
  {
    if n > 0 {
      OrdersOfCustomers(w, d, perm, dr, secondary, n - 1);
      OrderGroupOrders(w, d, n, perm[n - 1], dr, secondary);
    }
  }

  /** A district's New-Order records are those of the orders above 2100, and no others. */
  lemma {:induction false} UndeliveredOrders(w: int, d: int, perm: seq<int>, dr: Draws, secondary: bool, n: int)
    requires n <= |perm|
    ensures forall w', d', o :: QNewOrder(w', d', o) in Orders(w, d, perm, dr, secondary, n) <==>
              w' == w && d' == d && UNDELIVERED_ABOVE < o <= n
    decreases n
  {
    if n > 0 {
      UndeliveredOrders(w, d, perm, dr, secondary, n - 1);
      OrderGroupOrders(w, d, n, perm[n - 1], dr, secondary);
    }
  }

  /** Orders 1..n count what orders 1..n-1 count plus what order n's group counts. */
  lemma OrdersTallyStep(w: int, d: int, perm: seq<int>, dr: Draws, secondary: bool, n: int, t: Tag)
    requires 0 < n <= |perm|
    ensures Tally(Orders(w, d, perm, dr, secondary, n), t) ==
            Tally(Orders(w, d, perm, dr, secondary, n - 1), t) + Tally(OrderGroup(w, d, n, perm[n - 1], dr, secondary), t)
  {
    TallyAppend(Orders(w, d, perm, dr, secondary, n - 1), OrderGroup(w, d, n, perm[n - 1], dr, secondary), t);
  }

  /** The occurrences of c among the first n entries: those among the first n-1, and the n-th. */
  lemma CountStep(s: seq<int>, n: int, c: int)
    requires 0 < n <= |s|
    ensures multiset(s[..n])[c] == multiset(s[..n - 1])[c] + (if s[n - 1] == c then 1 else 0)
  {
    assert s[..n] == s[..n - 1] + [s[n - 1]];
  }

  /** Of orders 1..n, those above 2100 each queue one New-Order: 900 of a district's 3000. */
  lemma {:induction false} NewOrdersPerDistrict(w: int, d: int, perm: seq<int>, dr: Draws, secondary: bool, n: int)
    requires n <= |perm|
    ensures Tally(Orders(w, d, perm, dr, secondary, n), NewOrderTag) == if n > UNDELIVERED_ABOVE then n - UNDELIVERED_ABOVE else 0
    decreases n
  {
    if n > 0 {
      NewOrdersPerDistrict(w, d, perm, dr, secondary, n - 1);
      OrderGroupTally(w, d, n, perm[n - 1], dr, secondary, NewOrderTag);
      OrdersTallyStep(w, d, perm, dr, secondary, n, NewOrderTag);
    }
  }

  /** Orders 1..n give customer c as many orders as c occurs among the first n entries of the list. */
  lemma {:induction false} OrdersPerCustomer(w: int, d: int, perm: seq<int>, dr: Draws, secondary: bool, n: int, c: int)
    requires 0 <= n <= |perm|
    ensures Tally(Orders(w, d, perm, dr, secondary, n), OrderTag(w, d, c)) == multiset(perm[..n])[c]
    decreases n
  {
    if n > 0 {
      OrdersPerCustomer(w, d, perm, dr, secondary, n - 1, c);
      OrderGroupTally(w, d, n, perm[n - 1], dr, secondary, OrderTag(w, d, c));
      OrdersTallyStep(w, d, perm, dr, secondary, n, OrderTag(w, d, c));
      CountStep(perm, n, c);
    }
  }

  /** Each customer of a district gets exactly one of its 3000 orders, and no other id gets any. */
  lemma OneOrderPerCustomer(w: int, d: int, dr: Draws, secondary: bool, c: int)
    ensures Tally(Orders(w, d, Permutation(w, d, dr), dr, secondary, ORDERS), OrderTag(w, d, c)) ==
            if 1 <= c <= CUSTOMERS then 1 else 0
  {
    var perm := Permutation(w, d, dr);
    PermutationOfCustomers(w, d, dr);
    OrdersPerCustomer(w, d, perm, dr, secondary, ORDERS, c);
    assert perm[..ORDERS] == perm;
  }

  // ---- what the CSV load queues ---------------------------------------------------------

  /**
   * Whether the CSV constructor of the file's table builds a record from the
   * row: every column it reads is present and parses (the stock constructor
   * also reads the ten district columns).  Each table's FromCsv states the
   * same condition as its contract.
   */
  predicate Parses(f: CsvFile, row: CsvRow, p: Parsers)
  {
    match f
    case CustomerFile => AllReadable(row, Customer.CSV_COLUMNS, p)
    case CustomerSecondaryFile => AllReadable(row, CustomerSecondary.CSV_COLUMNS, p)
    case DistrictFile => AllReadable(row, District.CSV_COLUMNS, p)
    case HistoryFile => AllReadable(row, History.CSV_COLUMNS, p)
    case ItemFile => AllReadable(row, Item.CSV_COLUMNS, p)
    case NewOrderFile => AllReadable(row, NewOrder.CSV_COLUMNS, p)
    case OrderFile => AllReadable(row, Order.CSV_COLUMNS, p)
    case OrderLineFile => AllReadable(row, OrderLine.CSV_COLUMNS, p)
    case OrderSecondaryFile => AllReadable(row, OrderSecondary.CSV_COLUMNS, p)
    case StockFile => AllReadable(row, Stock.CSV_COLUMNS, p) && forall k :: 0 <= k < 10 ==> Stock.DistName(k) in row
    case WarehouseFile => AllReadable(row, Warehouse.CSV_COLUMNS, p)
  }

  /** The row test of the current loader's constructors. */
  function Parser(p: Parsers): (CsvFile, CsvRow) -> bool
  {
    (f, row) => Parses(f, row, p)
  }

  /**
   * What one file queues: its rows up to the first one the constructor
   * rejects; the exception ends the whole file.
   */
  function Accepted(f: CsvFile, rows: seq<CsvRow>, ok: (CsvFile, CsvRow) -> bool): seq<Queued>
  {
    if rows == [] || !ok(f, rows[0]) then [] else [QRow(f, rows[0])] + Accepted(f, rows[1..], ok)
  }

  /** The number of rows before the first rejected one. */
  function AcceptedCount(f: CsvFile, rows: seq<CsvRow>, ok: (CsvFile, CsvRow) -> bool): (k: nat)
    ensures k <= |rows|
  {
    if rows == [] || !ok(f, rows[0]) then 0 else 1 + AcceptedCount(f, rows[1..], ok)
  }

  /**
   * A file queues its rows in order, all accepted, up to the first rejected
   * row (and none from there on).
   */
  lemma {:induction false} AcceptedPrefix(f: CsvFile, rows: seq<CsvRow>, ok: (CsvFile, CsvRow) -> bool)
    ensures var k := AcceptedCount(f, rows, ok);
            && |Accepted(f, rows, ok)| == k
            && (forall j :: 0 <= j < k ==> Accepted(f, rows, ok)[j] == QRow(f, rows[j]) && ok(f, rows[j]))
            && (k < |rows| ==> !ok(f, rows[k]))
    decreases |rows|
  {
    if rows != [] && ok(f, rows[0]) {
      AcceptedPrefix(f, rows[1..], ok);
    }
  }

  /** The CSV load: the files in the order the loader reads them, each from `read(directory, name)`. */
  function CsvLoad(read: (string, string) -> seq<CsvRow>, dir: string, p: Parsers): seq<Queued>
  {
    var ok := Parser(p);
    Accepted(WarehouseFile, read(dir, FileName(WarehouseFile)), ok)
    + Accepted(ItemFile, read(dir, FileName(ItemFile)), ok)
    + Accepted(StockFile, read(dir, FileName(StockFile)), ok)
    + Accepted(DistrictFile, read(dir, FileName(DistrictFile)), ok)
    + Accepted(CustomerFile, read(dir, FileName(CustomerFile)), ok)
    + Accepted(CustomerSecondaryFile, read(dir, FileName(CustomerSecondaryFile)), ok)
    + Accepted(HistoryFile, read(dir, FileName(HistoryFile)), ok)
    + Accepted(OrderFile, read(dir, FileName(OrderFile)), ok)
    + Accepted(NewOrderFile, read(dir, FileName(NewOrderFile)), ok)
    + Accepted(OrderLineFile, read(dir, FileName(OrderLineFile)), ok)
    + Accepted(OrderSecondaryFile, read(dir, FileName(OrderSecondaryFile)), ok)
  }

  /** The number of `true`s among insert outcomes: the records that committed. */
  function Successes(outcomes: seq<bool>): (n: nat)
    ensures n <= |outcomes|
  {
    if outcomes == [] then 0 else Successes(outcomes[..|outcomes| - 1]) + (if outcomes[|outcomes| - 1] then 1 else 0)
  }

  /** The directory option's default: the CSV path is taken unless it is cleared. */
  const DEFAULT_DIRECTORY: Option<string> := Some("./")

  class Loader {
    const numWarehouse: int
    const directory: Option<string>
    const draws: Draws
    const parsers: Parsers
    /** The records queued and not yet polled. */
    var queue: seq<Queued>
    /** The records the consumers have polled. */
    var polled: int
    var succeeded: int
    var failed: int

    /** queuedCounter: one increment per put, so the polled records and the waiting ones. */
    function Queued(): int
      reads this
    {
      polled + |queue|
    }

    constructor (numWarehouse: int, directory: Option<string>, draws: Draws, parsers: Parsers)
      ensures this.numWarehouse == numWarehouse && this.directory == directory
      ensures this.draws == draws && this.parsers == parsers
      ensures queue == [] && polled == 0 && succeeded == 0 && failed == 0
    {
      this.numWarehouse := numWarehouse;
      this.directory := directory;
      this.draws := draws;
      this.parsers := parsers;
      queue := [];
      polled := 0;
      succeeded := 0;
      failed := 0;
    }

    /** queue.put followed by counter.incrementAndGet. */
    method Put(q: Queued)
      modifies this
      ensures queue == old(queue) + [q] && polled == old(polled)
      ensures succeeded == old(succeeded) && failed == old(failed)
    {
      queue := queue + [q];
    }

    /** The synthetic path's first loop: items 1..ITEMS. */
    method QueueItems()
      modifies this
      ensures queue == old(queue) + Items(ITEMS) && polled == old(polled)
      ensures succeeded == old(succeeded) && failed == old(failed)
    {
      ghost var start := queue;
      for itemId := 1 to ITEMS + 1
        invariant queue == start + Items(itemId - 1) && polled == old(polled)
        invariant succeeded == old(succeeded) && failed == old(failed)
      {
        Put(QItem(itemId));
        Assoc(start, Items(itemId - 1), [QItem(itemId)]);
        ItemsStep(itemId - 1);
      }
    }

    /** Warehouses 1..numWarehouse, each with its stock and districts. */
    method QueueWarehouses()
      modifies this
      ensures queue == old(queue) + Warehouses(draws, true, numWarehouse) && polled == old(polled)
      ensures succeeded == old(succeeded) && failed == old(failed)
    {
      ghost var start := queue;
      var warehouseId := 1;
      while warehouseId <= numWarehouse
        invariant 1 <= warehouseId <= Clamped(numWarehouse) + 1
        invariant queue == start + Warehouses(draws, true, warehouseId - 1)
        invariant polled == old(polled)
        invariant succeeded == old(succeeded) && failed == old(failed)
        decreases numWarehouse - warehouseId
      {
        WarehousesStep(start, queue, draws, true, warehouseId);
        QueueWarehouse(warehouseId);
        warehouseId := warehouseId + 1;
      }
      WarehousesDone(start, queue, draws, true, warehouseId, numWarehouse);
    }

    /** One pass of queueWarehouses' loop: the warehouse, its stock, its districts. */
    method QueueWarehouse(warehouseId: int)
      modifies this
      ensures queue == old(queue) + WarehouseGroup(warehouseId, draws, true) && polled == old(polled)
      ensures succeeded == old(succeeded) && failed == old(failed)
    {
      ghost var start := queue;
      Put(QWarehouse(warehouseId));
      QueueStocks(warehouseId);
      Assoc(start, [QWarehouse(warehouseId)], Stocks(warehouseId, STOCKS));
      QueueDistricts(warehouseId);
      Assoc(start, [QWarehouse(warehouseId)] + Stocks(warehouseId, STOCKS), Districts(warehouseId, draws, true, DISTRICTS));
    }

    /** The stock loop: items 1..STOCKS in the warehouse. */
    method QueueStocks(warehouseId: int)
      modifies this
      ensures queue == old(queue) + Stocks(warehouseId, STOCKS) && polled == old(polled)
      ensures succeeded == old(succeeded) && failed == old(failed)
    {
      ghost var start := queue;
      for stockId := 1 to STOCKS + 1
        invariant queue == start + Stocks(warehouseId, stockId - 1) && polled == old(polled)
        invariant succeeded == old(succeeded) && failed == old(failed)
      {
        Put(QStock(warehouseId, stockId));
        Assoc(start, Stocks(warehouseId, stockId - 1), [QStock(warehouseId, stockId)]);
        StocksStep(warehouseId, stockId - 1);
      }
    }

    /** Districts 1..10 of a warehouse. */
    method QueueDistricts(warehouseId: int)
      modifies this
      ensures queue == old(queue) + Districts(warehouseId, draws, true, DISTRICTS)
      ensures polled == old(polled)
      ensures succeeded == old(succeeded) && failed == old(failed)
    {
      ghost var start := queue;
      for districtId := 1 to DISTRICTS + 1
        invariant queue == start + Districts(warehouseId, draws, true, districtId - 1)
        invariant polled == old(polled)
        invariant succeeded == old(succeeded) && failed == old(failed)
      {
        QueueDistrict(warehouseId, districtId);
        Assoc(start, Districts(warehouseId, draws, true, districtId - 1), DistrictGroup(warehouseId, districtId, draws, true));
      }
    }

    /** One pass of queueDistricts' loop: the district, then its customers and its orders. */
    method QueueDistrict(warehouseId: int, districtId: int)
      modifies this
      ensures queue == old(queue) + DistrictGroup(warehouseId, districtId, draws, true)
      ensures polled == old(polled)
      ensures succeeded == old(succeeded) && failed == old(failed)
    {
      ghost var start := queue;
      Put(QDistrict(warehouseId, districtId));
      QueueCustomers(warehouseId, districtId);
      Assoc(start, [QDistrict(warehouseId, districtId)], Customers(warehouseId, districtId, draws, CUSTOMERS));
      QueueOrders(warehouseId, districtId);
      Assoc(start, [QDistrict(warehouseId, districtId)] + Customers(warehouseId, districtId, draws, CUSTOMERS),
            Orders(warehouseId, districtId, Permutation(warehouseId, districtId, draws), draws, true, ORDERS));
    }

    /** Customers 1..3000 of a district. */
    method QueueCustomers(warehouseId: int, districtId: int)
      modifies this
      ensures queue == old(queue) + Customers(warehouseId, districtId, draws, CUSTOMERS)
      ensures polled == old(polled)
      ensures succeeded == old(succeeded) && failed == old(failed)
    {
      ghost var start := queue;
      for customerId := 1 to CUSTOMERS + 1
        invariant queue == start + Customers(warehouseId, districtId, draws, customerId - 1)
        invariant polled == old(polled)
        invariant succeeded == old(succeeded) && failed == old(failed)
      {
        QueueCustomer(warehouseId, districtId, customerId);
        Assoc(start, Customers(warehouseId, districtId, draws, customerId - 1),
              CustomerGroup(warehouseId, districtId, customerId, draws.names(warehouseId, districtId, customerId)));
      }
    }

    /** One customer: the customer, its secondary row with the same names, its history. */
    method QueueCustomer(warehouseId: int, districtId: int, customerId: int)
      modifies this
      ensures queue == old(queue) + CustomerGroup(warehouseId, districtId, customerId, draws.names(warehouseId, districtId, customerId))
      ensures polled == old(polled)
      ensures succeeded == old(succeeded) && failed == old(failed)
    {
      var (first, last) := draws.names(warehouseId, districtId, customerId);
      Put(QCustomer(warehouseId, districtId, customerId, first, last));
      Put(QCustomerSecondary(warehouseId, districtId, last, first, customerId));
      Put(QHistory(customerId, districtId, warehouseId, districtId, warehouseId));
    }

    /** The customer ids 1..3000, shuffled, as the array the orders take their customers from. */
    method CustomerPermutation(warehouseId: int, districtId: int) returns (permutation: seq<int>)
      ensures permutation == Permutation(warehouseId, districtId, draws)
    {
      var customers := new int[CUSTOMERS];
      for customerId := 1 to CUSTOMERS + 1
        invariant forall k :: 0 <= k < customerId - 1 ==> customers[k] == k + 1
      {
        customers[customerId - 1] := customerId;
      }
      assert customers[..] == Ascending(CUSTOMERS);
      Shuffle(customers, draws.swaps(warehouseId, districtId));
      permutation := customers[..];
    }

    /** Orders 1..3000, order o going to the o-th customer of the shuffled list. */
    method QueueOrders(warehouseId: int, districtId: int)
      modifies this
      ensures queue == old(queue) + Orders(warehouseId, districtId, Permutation(warehouseId, districtId, draws), draws, true, ORDERS)
      ensures polled == old(polled)
      ensures succeeded == old(succeeded) && failed == old(failed)
    {
      ghost var start := queue;
      var permutation := CustomerPermutation(warehouseId, districtId);
      PermutationOfCustomers(warehouseId, districtId, draws);
      for orderId := 1 to ORDERS + 1
        invariant queue == start + Orders(warehouseId, districtId, permutation, draws, true, orderId - 1)
        invariant polled == old(polled)
        invariant succeeded == old(succeeded) && failed == old(failed)
      {
        QueueOrder(warehouseId, districtId, orderId, permutation[orderId - 1]);
        Assoc(start, Orders(warehouseId, districtId, permutation, draws, true, orderId - 1),
              OrderGroup(warehouseId, districtId, orderId, permutation[orderId - 1], draws, true));
      }
    }

    /** One order: the order and its secondary row, its lines, and a New-Order above 2100. */
    method QueueOrder(warehouseId: int, districtId: int, orderId: int, customerId: int)
      modifies this
      ensures queue == old(queue) + OrderGroup(warehouseId, districtId, orderId, customerId, draws, true)
      ensures polled == old(polled)
      ensures succeeded == old(succeeded) && failed == old(failed)
    {
      ghost var start := queue;
      var head := [QOrder(warehouseId, districtId, orderId, customerId)];
      Put(QOrder(warehouseId, districtId, orderId, customerId));
      Put(QOrderSecondary(warehouseId, districtId, customerId, orderId));
      Assoc(start, head, [QOrderSecondary(warehouseId, districtId, customerId, orderId)]);
      ghost var pair := head + [QOrderSecondary(warehouseId, districtId, customerId, orderId)];
      var orderLineCount := draws.lineCounts(warehouseId, districtId, orderId);
      QueueLines(warehouseId, districtId, orderId, orderLineCount);
      ghost var lines := Lines(warehouseId, districtId, orderId, draws, orderLineCount);
      Assoc(start, pair, lines);
      if orderId > UNDELIVERED_ABOVE {
        Put(QNewOrder(warehouseId, districtId, orderId));
        Assoc(start, pair + lines, [QNewOrder(warehouseId, districtId, orderId)]);
      } else {
        assert pair + lines + [] == pair + lines;
      }
    }

    /** The order-line loop: lines 1..n, each on a drawn item, supplied by the home warehouse. */
    method QueueLines(warehouseId: int, districtId: int, orderId: int, orderLineCount: int)
      modifies this
      ensures queue == old(queue) + Lines(warehouseId, districtId, orderId, draws, orderLineCount)
      ensures polled == old(polled)
      ensures succeeded == old(succeeded) && failed == old(failed)
    {
      ghost var start := queue;
      var number := 1;
      while number <= orderLineCount
        invariant 1 <= number && (number <= orderLineCount + 1 || number == 1)
        invariant queue == start + Lines(warehouseId, districtId, orderId, draws, number - 1)
        invariant polled == old(polled)
        invariant succeeded == old(succeeded) && failed == old(failed)
        decreases orderLineCount - number
      {
        var itemId := draws.items(warehouseId, districtId, orderId, number);
        Put(QOrderLine(warehouseId, districtId, orderId, number, warehouseId, itemId));
        Assoc(start, Lines(warehouseId, districtId, orderId, draws, number - 1),
              [QOrderLine(warehouseId, districtId, orderId, number, warehouseId, itemId)]);
        number := number + 1;
      }
    }

    /** queueCsv: the file's rows until a constructor throws, which ends that file. */
    method QueueCsv(f: CsvFile, rows: seq<CsvRow>)
      modifies this
      ensures queue == old(queue) + Accepted(f, rows, Parser(parsers))
      ensures polled == old(polled)
      ensures succeeded == old(succeeded) && failed == old(failed)
    {
      var ok := Parser(parsers);
      var i := 0;
      while i < |rows|
        invariant 0 <= i <= |rows|
        invariant old(queue) + Accepted(f, rows, ok) == queue + Accepted(f, rows[i..], ok)
        invariant polled == old(polled)
        invariant succeeded == old(succeeded) && failed == old(failed)
      {
        if !ok(f, rows[i]) {
          assert queue + [] == queue;
          return;
        }
        ghost var before := queue;
        Put(QRow(f, rows[i]));
        assert rows[i..][1..] == rows[i + 1..];
        Assoc(before, [QRow(f, rows[i])], Accepted(f, rows[i + 1..], ok));
        i := i + 1;
      }
      assert queue + [] == queue;
    }

    /** The CSV branch of load: the eleven files in order. */
    method QueueCsvFiles(read: (string, string) -> seq<CsvRow>, dir: string)
      modifies this
      ensures queue == old(queue) + CsvLoad(read, dir, parsers) && polled == old(polled)
      ensures succeeded == old(succeeded) && failed == old(failed)
    {
      ghost var start := queue;
      ghost var ok := Parser(parsers);
      QueueCsv(WarehouseFile, read(dir, FileName(WarehouseFile)));
      ghost var done := Accepted(WarehouseFile, read(dir, FileName(WarehouseFile)), ok);
      QueueCsv(ItemFile, read(dir, FileName(ItemFile)));
      Assoc(start, done, Accepted(ItemFile, read(dir, FileName(ItemFile)), ok));
      done := done + Accepted(ItemFile, read(dir, FileName(ItemFile)), ok);
      QueueCsv(StockFile, read(dir, FileName(StockFile)));
      Assoc(start, done, Accepted(StockFile, read(dir, FileName(StockFile)), ok));
      done := done + Accepted(StockFile, read(dir, FileName(StockFile)), ok);
      QueueCsv(DistrictFile, read(dir, FileName(DistrictFile)));
      Assoc(start, done, Accepted(DistrictFile, read(dir, FileName(DistrictFile)), ok));
      done := done + Accepted(DistrictFile, read(dir, FileName(DistrictFile)), ok);
      QueueCsv(CustomerFile, read(dir, FileName(CustomerFile)));
      Assoc(start, done, Accepted(CustomerFile, read(dir, FileName(CustomerFile)), ok));
      done := done + Accepted(CustomerFile, read(dir, FileName(CustomerFile)), ok);
      QueueCsv(CustomerSecondaryFile, read(dir, FileName(CustomerSecondaryFile)));
      Assoc(start, done, Accepted(CustomerSecondaryFile, read(dir, FileName(CustomerSecondaryFile)), ok));
      done := done + Accepted(CustomerSecondaryFile, read(dir, FileName(CustomerSecondaryFile)), ok);
      QueueCsv(HistoryFile, read(dir, FileName(HistoryFile)));
      Assoc(start, done, Accepted(HistoryFile, read(dir, FileName(HistoryFile)), ok));
      done := done + Accepted(HistoryFile, read(dir, FileName(HistoryFile)), ok);
      QueueCsv(OrderFile, read(dir, FileName(OrderFile)));
      Assoc(start, done, Accepted(OrderFile, read(dir, FileName(OrderFile)), ok));
      done := done + Accepted(OrderFile, read(dir, FileName(OrderFile)), ok);
      QueueCsv(NewOrderFile, read(dir, FileName(NewOrderFile)));
      Assoc(start, done, Accepted(NewOrderFile, read(dir, FileName(NewOrderFile)), ok));
      done := done + Accepted(NewOrderFile, read(dir, FileName(NewOrderFile)), ok);
      QueueCsv(OrderLineFile, read(dir, FileName(OrderLineFile)));
      Assoc(start, done, Accepted(OrderLineFile, read(dir, FileName(OrderLineFile)), ok));
      done := done + Accepted(OrderLineFile, read(dir, FileName(OrderLineFile)), ok);
      QueueCsv(OrderSecondaryFile, read(dir, FileName(OrderSecondaryFile)));
      Assoc(start, done, Accepted(OrderSecondaryFile, read(dir, FileName(OrderSecondaryFile)), ok));
      done := done + Accepted(OrderSecondaryFile, read(dir, FileName(OrderSecondaryFile)), ok);
      assert done == CsvLoad(read, dir, parsers);
    }

    /** What load queues: the CSV files when a directory is set, the synthetic data otherwise. */
    function Plan(read: (string, string) -> seq<CsvRow>): seq<Queued>
    {
      if directory.Some? then CsvLoad(read, directory.value, parsers) else Synthetic(numWarehouse, draws, true)
    }

    /** load's producer half. */
    method Produce(read: (string, string) -> seq<CsvRow>)
      modifies this
      ensures queue == old(queue) + Plan(read) && polled == old(polled)
      ensures succeeded == old(succeeded) && failed == old(failed)
    {
      if directory.Some? {
        QueueCsvFiles(read, directory.value);
      } else {
        ghost var start := queue;
        QueueItems();
        QueueWarehouses();
        Assoc(start, Items(ITEMS), Warehouses(draws, true, numWarehouse));
      }
    }

    /**
     * The consumers' loop, run after the producer: poll each record, insert
     * it (`outcomes[i]` says whether the i-th insert committed) and count it
     * as succeeded or failed.
     */
    method Consume(outcomes: seq<bool>)
      requires |outcomes| >= |queue|
      modifies this
      ensures queue == [] && polled == old(polled) + |old(queue)|
      ensures succeeded == old(succeeded) + Successes(outcomes[..|old(queue)|])
      ensures failed == old(failed) + |old(queue)| - Successes(outcomes[..|old(queue)|])
    {
      var i := 0;
      while queue != []
        invariant 0 <= i <= |old(queue)| && queue == old(queue)[i..] && polled == old(polled) + i
        invariant succeeded == old(succeeded) + Successes(outcomes[..i])
        invariant failed == old(failed) + i - Successes(outcomes[..i])
        decreases |queue|
      {
        queue := queue[1..];
        polled := polled + 1;
        assert outcomes[..i + 1][..i] == outcomes[..i];
        if outcomes[i] {
          succeeded := succeeded + 1;
        } else {
          failed := failed + 1;
        }
        i := i + 1;
      }
    }

    /**
     * load: queue everything, then drain the queue.  When it returns the
     * monitor's exit condition holds: every queued record was counted as
     * succeeded or failed.
     */
    method Load(read: (string, string) -> seq<CsvRow>, outcomes: seq<bool>)
      requires queue == [] && polled == 0 && succeeded == 0 && failed == 0
      requires |outcomes| >= |Plan(read)|
      modifies this
      ensures queue == [] && Queued() == |Plan(read)| && succeeded + failed == Queued()
      ensures succeeded == Successes(outcomes[..Queued()])
    {
      Produce(read);
      assert queue == Plan(read);
      Consume(outcomes);
    }
  }
}
