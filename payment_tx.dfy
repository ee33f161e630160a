// The Payment transaction profile (TPC-C clause 2.5).  `generate` draws the
// home warehouse and district, the amount, the customer's warehouse and
// district (home for 85 draws in 100) and whether the customer is named by
// last name (60 in 100) or by NURand id.  `execute` adds the amount to the
// warehouse's and the district's ytd, resolves the customer under the HOME
// warehouse and district, updates the customer's balance, ytd payment,
// payment count and, for bad credit, c_data, and inserts a history row.  Any
// exception aborts the transaction, so the store is either the result of
// every write or unchanged.
module PaymentTx {
  import opened Wrappers
  import opened Store
  import opened JavaInt
  import opened Schema
  import Text
  import TpccUtil
  import Warehouse
  import District
  import Customer
  import CustomerSecondary
  import History
  import CustomerLookup

  // ---- the string helpers -------------------------------------------------------------

  /** `s.substring(0, n)` when `s` is longer than `n`, else `s` itself. */
  function Truncate(s: string, n: nat): (r: string)
    ensures |r| == if |s| > n then n else |s|
    ensures r == s[..|r|]
  {
    if |s| > n then s[..n] else s
  }

  function Min(a: int, b: int): int { if a < b then a else b }

  /**
   * generateHistoryData: the warehouse name and the district name, each cut to
   * ten characters, joined by four spaces.
   */
  function HistoryData(warehouseName: string, districtName: string): (r: string)
    ensures var m, n := Min(|warehouseName|, 10), Min(|districtName|, 10);
            && |r| == m + 4 + n && |r| <= 24
            && r[..m] == warehouseName[..m] && r[m..m + 4] == "    " && r[m + 4..] == districtName[..n]
    ensures |warehouseName| <= 10 && |districtName| <= 10 ==> r == warehouseName + "    " + districtName
  {
    Truncate(warehouseName, 10) + "    " + Truncate(districtName, 10)
  }

  /**
   * The text generateCustomerData builds before the cut: the customer id, the
   * customer's district and warehouse, the home district and warehouse, the
   * amount as "%7.2f" renders it (`amountText`), " | " and the old c_data.
   */
  function CustomerDataHead(warehouseId: int, districtId: int, customerId: int, customerWarehouseId: int,
                            customerDistrictId: int, amountText: string): string
  {
    Text.ToDecimal(customerId) + " " + Text.ToDecimal(customerDistrictId) + " " + Text.ToDecimal(customerWarehouseId)
    + " " + Text.ToDecimal(districtId) + " " + Text.ToDecimal(warehouseId) + " " + amountText + " | "
  }

  /** generateCustomerData: the payment's description followed by the old data, cut to 500 characters. */
  function CustomerData(warehouseId: int, districtId: int, customerId: int, customerWarehouseId: int,
                        customerDistrictId: int, amountText: string, oldData: string): (r: string)
    ensures var full := CustomerDataHead(warehouseId, districtId, customerId, customerWarehouseId,
                                         customerDistrictId, amountText) + oldData;
            && |r| <= 500 && |r| <= |full| && r == full[..|r|]
            && (|full| <= 500 ==> r == full)
            && (|full| > 500 ==> |r| == 500)
  {
    Truncate(CustomerDataHead(warehouseId, districtId, customerId, customerWarehouseId, customerDistrictId,
                              amountText) + oldData, 500)
  }

  /**
   * The cut only ever removes old data: when the description itself fits in
   * 500 characters, the new c_data is the description followed by the
   * beginning of the old data.
   */
  lemma CustomerDataKeepsHead(warehouseId: int, districtId: int, customerId: int, customerWarehouseId: int,
                              customerDistrictId: int, amountText: string, oldData: string)
    requires |CustomerDataHead(warehouseId, districtId, customerId, customerWarehouseId, customerDistrictId,
                               amountText)| <= 500
    ensures var head := CustomerDataHead(warehouseId, districtId, customerId, customerWarehouseId,
                                         customerDistrictId, amountText);
            var r := CustomerData(warehouseId, districtId, customerId, customerWarehouseId, customerDistrictId,
                                  amountText, oldData);
            r == head + oldData[..|r| - |head|]
  {
    var head := CustomerDataHead(warehouseId, districtId, customerId, customerWarehouseId, customerDistrictId,
                                 amountText);
    var r := CustomerData(warehouseId, districtId, customerId, customerWarehouseId, customerDistrictId,
                          amountText, oldData);
    assert |r| >= |head|;
    assert (head + oldData)[..|r|] == head + oldData[..|r| - |head|];
  }

  // ---- the spec of execute --------------------------------------------------------------

  /** The arguments execute works from: the fields generate sets. */
  datatype Args = Args(warehouseId: int, districtId: int, customerId: int, customerWarehouseId: int,
                       customerDistrictId: int, customerLastName: string, byLastName: bool,
                       amount: real, date: int)

  /** What the warehouse and district steps read for the history row: the two names. */
  datatype Names = Names(warehouseName: string, districtName: string)

  /**
   * The warehouse step (missing: "Warehouse not found"; read w_name and w_ytd,
   * write w_ytd + amount) and the district step (missing: "District not
   * found"; read d_name and d_ytd, write d_ytd + amount).
   */
  function HomeStep(db: Db, a: Args): Result<(Db, Names), TxError>
  {
    var warehouseKey := Warehouse.KeyFor(a.warehouseId);
    var warehouse :- GetOr(db, warehouseKey, "Warehouse not found");
    var warehouseName :- TextOf(warehouse, Warehouse.KEY_NAME);
    var warehouseYtd :- DoubleOf(warehouse, Warehouse.KEY_YTD);
    var db1 := Put(db, warehouseKey, [Column(Warehouse.KEY_YTD, DoubleV(warehouseYtd + a.amount))]);
    var districtKey := District.KeyFor(a.warehouseId, a.districtId);
    var district :- GetOr(db1, districtKey, "District not found");
    var districtName :- TextOf(district, District.KEY_NAME);
    var districtYtd :- DoubleOf(district, District.KEY_YTD);
    Ok((Put(db1, districtKey, [Column(District.KEY_YTD, DoubleV(districtYtd + a.amount))]),
        Names(warehouseName, districtName)))
  }

  /**
   * The customer id execute uses: by last name, the c_id of the midpoint row
   * of the customer_secondary scan of the HOME warehouse and district (an
   * empty scan throws); otherwise the generated id.
   */
  ghost function ResolveCustomer(db: Db, a: Args): Result<int, TxError>
  {
    if a.byLastName then
      CustomerLookup.MidpointId(CustomerLookup.TableRows(db, a.warehouseId, a.districtId, a.customerLastName),
                                CustomerSecondary.KEY_CUSTOMER_ID)
    else Ok(a.customerId)
  }

  /**
   * The customer's new columns: balance and ytd payment raised by the amount,
   * the payment count by one, and for a customer with credit "BC" the new
   * c_data built from the old one.
   */
  function CustomerColumns(customer: Row, a: Args, customerId: int, amountText: string)
    : Result<seq<Column>, TxError>
  {
    var balance :- DoubleOf(customer, Customer.KEY_BALANCE);
    var ytdPayment :- DoubleOf(customer, Customer.KEY_YTD_PAYMENT);
    var count :- IntOf(customer, Customer.KEY_PAYMENT_CNT);
    var credit :- TextOf(customer, Customer.KEY_CREDIT);
    var data :- if credit == "BC" then
                  var oldData :- TextOf(customer, Customer.KEY_DATA);
                  Ok(Some(CustomerData(a.warehouseId, a.districtId, customerId, a.customerWarehouseId,
                                       a.customerDistrictId, amountText, oldData)))
                else Ok(None);
    Ok(Customer.PaymentColumns(balance + a.amount, ytdPayment + a.amount, Wrap32(count + 1), data))
  }

  /** The customer update: get under the home keys (missing: "Customer not found"), then put its new columns. */
  function CustomerUpdate(db: Db, a: Args, customerId: int, amountText: string): Result<Db, TxError>
  {
    var customerKey := Customer.KeyFor(a.warehouseId, a.districtId, customerId);
    var customer :- GetOr(db, customerKey, "Customer not found");
    var columns :- CustomerColumns(customer, a, customerId, amountText);
    Ok(Put(db, customerKey, columns))
  }

  /** The customer step: resolve the id, then update that customer. */
  ghost function CustomerStep(db: Db, a: Args, amountText: string): Result<(Db, int), TxError>
  {
    var customerId :- ResolveCustomer(db, a);
    var updated :- CustomerUpdate(db, a, customerId, amountText);
    Ok((updated, customerId))
  }

  /** The history put: both customer ids, both home ids, the date, the amount and the names. */
  function HistoryColumns(a: Args, names: Names, customerId: int): seq<Column>
  {
    History.Columns(customerId, a.customerDistrictId, a.customerWarehouseId, a.districtId, a.warehouseId,
                    a.date, a.amount, HistoryData(names.warehouseName, names.districtName))
  }

  /**
   * execute as a whole: the warehouse, district and customer steps, the
   * history insert under the fresh UUID `historyId`, then the commit, which
   * fails when the store reports a conflict (`committed` false).
   */
  ghost function Execution(db: Db, a: Args, historyId: string, amountText: string, committed: bool)
    : Result<Db, TxError>
  {
    var home :- HomeStep(db, a);
    var customer :- CustomerStep(home.0, a, amountText);
    var done := Put(customer.0, History.KeyFor(historyId), HistoryColumns(a, home.1, customer.1));
    if committed then Ok(done) else Err(Conflict)
  }

  /** The customerId field after execute: the resolved id once the lookup succeeds, else unchanged. */
  ghost function CustomerIdAfter(db: Db, a: Args): int
  {
    match HomeStep(db, a)
    case Err(_) => a.customerId
    case Ok(home) =>
      match ResolveCustomer(home.0, a)
      case Err(_) => a.customerId
      case Ok(id) => id
  }

  // ---- what execute does ------------------------------------------------------------------

  /** The tables a payment writes. */
  predicate Written(table: string)
  {
    table == Warehouse.TABLE_NAME || table == District.TABLE_NAME || table == Customer.TABLE_NAME
    || table == History.TABLE_NAME
  }

  /**
   * The home step fails on a missing warehouse or district; otherwise it adds
   * the amount to both ytd columns and leaves every other record alone.
   */
  lemma HomeStepOutcome(db: Db, a: Args)
    ensures Warehouse.KeyFor(a.warehouseId) !in db ==> HomeStep(db, a) == Err(NotFound("Warehouse not found"))
    ensures var wk := Warehouse.KeyFor(a.warehouseId);
            (&& wk in db && TextOf(db[wk], Warehouse.KEY_NAME).Ok? && DoubleOf(db[wk], Warehouse.KEY_YTD).Ok?
             && District.KeyFor(a.warehouseId, a.districtId) !in db) ==>
              HomeStep(db, a) == Err(NotFound("District not found"))
    ensures HomeStep(db, a).Ok? ==>
              var wk, dk := Warehouse.KeyFor(a.warehouseId), District.KeyFor(a.warehouseId, a.districtId);
              var db' := HomeStep(db, a).value.0;
              var names := HomeStep(db, a).value.1;
              && wk in db && dk in db
              && TextOf(db[wk], Warehouse.KEY_NAME) == Ok(names.warehouseName)
              && TextOf(db[dk], District.KEY_NAME) == Ok(names.districtName)
              && DoubleOf(db[wk], Warehouse.KEY_YTD).Ok? && DoubleOf(db[dk], District.KEY_YTD).Ok?
              && Holds(db', wk, Warehouse.KEY_YTD, DoubleV(DoubleOf(db[wk], Warehouse.KEY_YTD).value + a.amount))
              && Holds(db', dk, District.KEY_YTD, DoubleV(DoubleOf(db[dk], District.KEY_YTD).value + a.amount))
              && forall k: Key :: k != wk && k != dk ==> SameRecord(db, db', k)
  {
    if HomeStep(db, a).Ok? {
      var wk, dk := Warehouse.KeyFor(a.warehouseId), District.KeyFor(a.warehouseId, a.districtId);
      var wytd := DoubleOf(db[wk], Warehouse.KEY_YTD).value + a.amount;
      var db1 := Put(db, wk, [Column(Warehouse.KEY_YTD, DoubleV(wytd))]);
      PutReadsBackAt(db, wk, [Column(Warehouse.KEY_YTD, DoubleV(wytd))], 0);
      var dytd := DoubleOf(db1[dk], District.KEY_YTD).value + a.amount;
      PutReadsBackAt(db1, dk, [Column(District.KEY_YTD, DoubleV(dytd))], 0);
    }
  }

  /** The home step leaves every customer_secondary record alone, so the by-name lookup sees the original store. */
  lemma HomeStepKeepsLookup(db: Db, a: Args)
    requires HomeStep(db, a).Ok?
    ensures ResolveCustomer(HomeStep(db, a).value.0, a) == ResolveCustomer(db, a)
  {
    HomeStepOutcome(db, a);
    Store.ScanSpecFrame(db, HomeStep(db, a).value.0, CustomerSecondary.TABLE_NAME,
                        CustomerSecondary.PartitionKey(a.warehouseId, a.districtId, a.customerLastName),
                        None, true, 0);
  }

  /**
   * The customer step fails when the lookup fails or the customer is missing;
   * otherwise it writes the customer found under the home keys: balance and
   * ytd payment raised by the amount, the count by one (as a Java int), c_data
   * rewritten iff the credit is "BC", and no other record.
   */
  lemma CustomerStepOutcome(db: Db, a: Args, amountText: string)
    ensures ResolveCustomer(db, a).Err? ==> CustomerStep(db, a, amountText).Err?
    ensures (&& ResolveCustomer(db, a).Ok?
             && Customer.KeyFor(a.warehouseId, a.districtId, ResolveCustomer(db, a).value) !in db) ==>
              CustomerStep(db, a, amountText) == Err(NotFound("Customer not found"))
    ensures CustomerStep(db, a, amountText).Ok? ==>
              && ResolveCustomer(db, a).Ok?
              && var id := ResolveCustomer(db, a).value;
                 var ck := Customer.KeyFor(a.warehouseId, a.districtId, id);
                 var db' := CustomerStep(db, a, amountText).value.0;
                 && CustomerStep(db, a, amountText).value.1 == id
                 && ck in db && PaymentApplied(db[ck], db', ck, a, id, amountText)
                 && forall k: Key :: k != ck ==> SameRecord(db, db', k)
  {
    if CustomerStep(db, a, amountText).Ok? {
      var id := ResolveCustomer(db, a).value;
      var ck := Customer.KeyFor(a.warehouseId, a.districtId, id);
      ColumnsApplied(db[ck], db, ck, a, id, amountText);
    }
  }

  /** Putting the customer columns of a row under the row's key applies the payment to it. */
  lemma ColumnsApplied(row: Row, db: Db, ck: Key, a: Args, id: int, amountText: string)
    requires CustomerColumns(row, a, id, amountText).Ok? && ck == Customer.KeyFor(a.warehouseId, a.districtId, id)
    requires ck in db && db[ck] == row
    ensures PaymentApplied(row, Put(db, ck, CustomerColumns(row, a, id, amountText).value), ck, a, id, amountText)
  {
    var columns := CustomerColumns(row, a, id, amountText).value;
    var count := IntOf(row, Customer.KEY_PAYMENT_CNT).value;
    var data := if TextOf(row, Customer.KEY_CREDIT) == Ok("BC") then
                  Some(CustomerData(a.warehouseId, a.districtId, id, a.customerWarehouseId, a.customerDistrictId,
                                    amountText, TextOf(row, Customer.KEY_DATA).value))
                else None;
    var balance := DoubleOf(row, Customer.KEY_BALANCE).value + a.amount;
    var ytdPayment := DoubleOf(row, Customer.KEY_YTD_PAYMENT).value + a.amount;
    assert columns == Customer.PaymentColumns(balance, ytdPayment, Wrap32(count + 1), data);
    Customer.PaymentColumnsReadBack(db, ck, balance, ytdPayment, Wrap32(count + 1), data);
    if data.None? {
      PutKeepsColumn(db, ck, columns, Customer.KEY_DATA);
    }
  }

  /**
   * The payment update of customer row `row` as record `ck` of `db'` holds it:
   * balance and ytd payment raised by the amount, the payment count by one,
   * c_data rebuilt from the old one for credit "BC" and otherwise as it was.
   */
  predicate PaymentApplied(row: Row, db': Db, ck: Key, a: Args, id: int, amountText: string)
  {
    && DoubleOf(row, Customer.KEY_BALANCE).Ok? && DoubleOf(row, Customer.KEY_YTD_PAYMENT).Ok?
    && IntOf(row, Customer.KEY_PAYMENT_CNT).Ok? && TextOf(row, Customer.KEY_CREDIT).Ok?
    && Holds(db', ck, Customer.KEY_BALANCE, DoubleV(DoubleOf(row, Customer.KEY_BALANCE).value + a.amount))
    && Holds(db', ck, Customer.KEY_YTD_PAYMENT, DoubleV(DoubleOf(row, Customer.KEY_YTD_PAYMENT).value + a.amount))
    && Holds(db', ck, Customer.KEY_PAYMENT_CNT, IntV(Wrap32(IntOf(row, Customer.KEY_PAYMENT_CNT).value + 1)))
    && (TextOf(row, Customer.KEY_CREDIT) == Ok("BC") ==>
          && TextOf(row, Customer.KEY_DATA).Ok?
          && Holds(db', ck, Customer.KEY_DATA,
                   TextV(CustomerData(a.warehouseId, a.districtId, id, a.customerWarehouseId, a.customerDistrictId,
                                      amountText, TextOf(row, Customer.KEY_DATA).value))))
    && (TextOf(row, Customer.KEY_CREDIT) != Ok("BC") ==>
          && ck in db' && (Customer.KEY_DATA in db'[ck] <==> Customer.KEY_DATA in row)
          && (Customer.KEY_DATA in row ==> db'[ck][Customer.KEY_DATA] == row[Customer.KEY_DATA]))
  }

  /**
   * The history row `historyId` names the resolved customer with the
   * customer's warehouse and district, the home warehouse and district, the
   * amount and the joined names.
   */
  predicate HistoryWritten(db: Db, historyId: string, a: Args, id: int, names: Names)
  {
    var hk := History.KeyFor(historyId);
    && Holds(db, hk, History.KEY_CUSTOMER_ID, IntV(id))
    && Holds(db, hk, History.KEY_CUSTOMER_DID, IntV(a.customerDistrictId))
    && Holds(db, hk, History.KEY_CUSTOMER_WID, IntV(a.customerWarehouseId))
    && Holds(db, hk, History.KEY_DISTRICT_ID, IntV(a.districtId))
    && Holds(db, hk, History.KEY_WAREHOUSE_ID, IntV(a.warehouseId))
    && Holds(db, hk, History.KEY_AMOUNT, DoubleV(a.amount))
    && Holds(db, hk, History.KEY_DATA, TextV(HistoryData(names.warehouseName, names.districtName)))
  }

  /** A payment fails on a missing warehouse or district, and when the commit meets a conflict. */
  lemma ExecutionFails(db: Db, a: Args, historyId: string, amountText: string, committed: bool)
    ensures Warehouse.KeyFor(a.warehouseId) !in db ==>
              Execution(db, a, historyId, amountText, committed) == Err(NotFound("Warehouse not found"))
    ensures var wk := Warehouse.KeyFor(a.warehouseId);
            (&& wk in db && TextOf(db[wk], Warehouse.KEY_NAME).Ok? && DoubleOf(db[wk], Warehouse.KEY_YTD).Ok?
             && District.KeyFor(a.warehouseId, a.districtId) !in db) ==>
              Execution(db, a, historyId, amountText, committed) == Err(NotFound("District not found"))
    ensures !committed ==> Execution(db, a, historyId, amountText, committed).Err?
  {
    ExecutionStopsAtError(db, a, historyId, amountText, committed);
    HomeStepOutcome(db, a);
  }

  /**
   * A payment fails when the customer resolved under the home keys is
   * missing, and when a by-name lookup's scan is empty.
   */
  lemma ExecutionFailsOnCustomer(db: Db, a: Args, historyId: string, amountText: string, committed: bool)
    ensures (&& HomeStep(db, a).Ok? && ResolveCustomer(db, a).Ok?
             && Customer.KeyFor(a.warehouseId, a.districtId, ResolveCustomer(db, a).value) !in db) ==>
              Execution(db, a, historyId, amountText, committed) == Err(NotFound("Customer not found"))
    ensures a.byLastName && |CustomerLookup.TableRows(db, a.warehouseId, a.districtId, a.customerLastName)| == 0 ==>
              Execution(db, a, historyId, amountText, committed).Err?
  {
    ExecutionStopsAtError(db, a, historyId, amountText, committed);
    if HomeStep(db, a).Ok? {
      var home := HomeStep(db, a).value;
      assert ResolveCustomer(home.0, a) == ResolveCustomer(db, a) by { HomeStepKeepsLookup(db, a); }
      if ResolveCustomer(db, a).Ok? {
        var ck := Customer.KeyFor(a.warehouseId, a.districtId, ResolveCustomer(db, a).value);
        assert SameRecord(db, home.0, ck) by { HomeStepOutcome(db, a); }
      }
      CustomerStepOutcome(home.0, a, amountText);
    }
  }

  /** The error of the first failing step is the error of the payment. */
  lemma ExecutionStopsAtError(db: Db, a: Args, historyId: string, amountText: string, committed: bool)
    ensures HomeStep(db, a).Err? ==> Execution(db, a, historyId, amountText, committed) == Err(HomeStep(db, a).error)
    ensures HomeStep(db, a).Ok? && CustomerStep(HomeStep(db, a).value.0, a, amountText).Err? ==>
              Execution(db, a, historyId, amountText, committed)
                == Err(CustomerStep(HomeStep(db, a).value.0, a, amountText).error)
    ensures !committed ==> Execution(db, a, historyId, amountText, committed).Err?
  {
  }

  /**
   * A committed payment adds the amount to the home warehouse's and district's
   * ytd, applies the payment to the customer resolved under the HOME keys
   * from the store before the transaction, inserts the history row, and
   * leaves every other record as it was.
   */
  lemma ExecutionWrites(db: Db, a: Args, historyId: string, amountText: string, committed: bool)
    requires Execution(db, a, historyId, amountText, committed).Ok?
    ensures committed && ResolveCustomer(db, a).Ok?
    ensures var done := Execution(db, a, historyId, amountText, committed).value;
            var id := ResolveCustomer(db, a).value;
            var wk, dk := Warehouse.KeyFor(a.warehouseId), District.KeyFor(a.warehouseId, a.districtId);
            var ck := Customer.KeyFor(a.warehouseId, a.districtId, id);
            && wk in db && dk in db && ck in db
            && TextOf(db[wk], Warehouse.KEY_NAME).Ok? && TextOf(db[dk], District.KEY_NAME).Ok?
            && DoubleOf(db[wk], Warehouse.KEY_YTD).Ok? && DoubleOf(db[dk], District.KEY_YTD).Ok?
            && Holds(done, wk, Warehouse.KEY_YTD, DoubleV(DoubleOf(db[wk], Warehouse.KEY_YTD).value + a.amount))
            && Holds(done, dk, District.KEY_YTD, DoubleV(DoubleOf(db[dk], District.KEY_YTD).value + a.amount))
            && PaymentApplied(db[ck], done, ck, a, id, amountText)
            && HistoryWritten(done, historyId, a, id,
                              Names(TextOf(db[wk], Warehouse.KEY_NAME).value, TextOf(db[dk], District.KEY_NAME).value))
            && forall k: Key :: k != wk && k != dk && k != ck && k != History.KeyFor(historyId) ==>
                 SameRecord(db, done, k)
  {
    ExecutionWritesHome(db, a, historyId, amountText, committed);
    ExecutionWritesCustomer(db, a, historyId, amountText, committed);
    ExecutionFrame(db, a, historyId, amountText, committed);
  }

  /** The warehouse and district parts of ExecutionWrites. */
  lemma ExecutionWritesHome(db: Db, a: Args, historyId: string, amountText: string, committed: bool)
    requires Execution(db, a, historyId, amountText, committed).Ok?
    ensures var done := Execution(db, a, historyId, amountText, committed).value;
            var wk, dk := Warehouse.KeyFor(a.warehouseId), District.KeyFor(a.warehouseId, a.districtId);
            && wk in db && dk in db
            && TextOf(db[wk], Warehouse.KEY_NAME).Ok? && TextOf(db[dk], District.KEY_NAME).Ok?
            && DoubleOf(db[wk], Warehouse.KEY_YTD).Ok? && DoubleOf(db[dk], District.KEY_YTD).Ok?
            && Holds(done, wk, Warehouse.KEY_YTD, DoubleV(DoubleOf(db[wk], Warehouse.KEY_YTD).value + a.amount))
            && Holds(done, dk, District.KEY_YTD, DoubleV(DoubleOf(db[dk], District.KEY_YTD).value + a.amount))
  {
    ExecutionShape(db, a, historyId, amountText, committed);
    HomeStepOutcome(db, a);
    var home := HomeStep(db, a).value;
    CustomerStepOutcome(home.0, a, amountText);
    var db3 := CustomerStep(home.0, a, amountText).value.0;
    var hk := History.KeyFor(historyId);
    var id := CustomerStep(home.0, a, amountText).value.1;
    HistoryPutWrites(db3, historyId, a, home.1, id);
    var wk, dk := Warehouse.KeyFor(a.warehouseId), District.KeyFor(a.warehouseId, a.districtId);
    assert SameRecord(home.0, db3, wk) && SameRecord(db3, Put(db3, hk, HistoryColumns(a, home.1, id)), wk);
    assert SameRecord(home.0, db3, dk) && SameRecord(db3, Put(db3, hk, HistoryColumns(a, home.1, id)), dk);
  }

  /** The customer and history parts of ExecutionWrites. */
  lemma ExecutionWritesCustomer(db: Db, a: Args, historyId: string, amountText: string, committed: bool)
    requires Execution(db, a, historyId, amountText, committed).Ok?
    ensures committed && ResolveCustomer(db, a).Ok?
    ensures var done := Execution(db, a, historyId, amountText, committed).value;
            var id := ResolveCustomer(db, a).value;
            var wk, dk := Warehouse.KeyFor(a.warehouseId), District.KeyFor(a.warehouseId, a.districtId);
            var ck := Customer.KeyFor(a.warehouseId, a.districtId, id);
            && wk in db && dk in db && ck in db
            && TextOf(db[wk], Warehouse.KEY_NAME).Ok? && TextOf(db[dk], District.KEY_NAME).Ok?
            && PaymentApplied(db[ck], done, ck, a, id, amountText)
            && HistoryWritten(done, historyId, a, id,
                              Names(TextOf(db[wk], Warehouse.KEY_NAME).value, TextOf(db[dk], District.KEY_NAME).value))
  {
    var wk, dk := Warehouse.KeyFor(a.warehouseId), District.KeyFor(a.warehouseId, a.districtId);
    assert committed && HomeStep(db, a).Ok? && CustomerStep(HomeStep(db, a).value.0, a, amountText).Ok? by {
      ExecutionShape(db, a, historyId, amountText, committed);
    }
    var home := HomeStep(db, a).value;
    assert && wk in db && dk in db
           && TextOf(db[wk], Warehouse.KEY_NAME) == Ok(home.1.warehouseName)
           && TextOf(db[dk], District.KEY_NAME) == Ok(home.1.districtName)
           && forall k: Key :: k != wk && k != dk ==> SameRecord(db, home.0, k) by {
      HomeStepOutcome(db, a);
    }
    assert ResolveCustomer(home.0, a) == ResolveCustomer(db, a) by {
      HomeStepKeepsLookup(db, a);
    }
    var customer := CustomerStep(home.0, a, amountText).value;
    var id := ResolveCustomer(db, a).value;
    var ck := Customer.KeyFor(a.warehouseId, a.districtId, id);
    assert ck in home.0 && customer.1 == id && PaymentApplied(home.0[ck], customer.0, ck, a, id, amountText) by {
      CustomerStepOutcome(home.0, a, amountText);
    }
    assert SameRecord(db, home.0, ck);
    var hk := History.KeyFor(historyId);
    var done := Put(customer.0, hk, HistoryColumns(a, home.1, id));
    assert done == Execution(db, a, historyId, amountText, committed).value by {
      ExecutionShape(db, a, historyId, amountText, committed);
    }
    assert HistoryWritten(done, historyId, a, id, home.1) && SameRecord(customer.0, done, ck) by {
      HistoryPutWrites(customer.0, historyId, a, home.1, id);
    }
    PaymentAppliedKept(db[ck], customer.0, done, ck, a, id, amountText);
  }

  /** Nothing but the four records of ExecutionWrites changes. */
  lemma ExecutionFrame(db: Db, a: Args, historyId: string, amountText: string, committed: bool)
    requires Execution(db, a, historyId, amountText, committed).Ok?
    ensures committed && ResolveCustomer(db, a).Ok?
    ensures var done := Execution(db, a, historyId, amountText, committed).value;
            var id := ResolveCustomer(db, a).value;
            var wk, dk := Warehouse.KeyFor(a.warehouseId), District.KeyFor(a.warehouseId, a.districtId);
            var ck := Customer.KeyFor(a.warehouseId, a.districtId, id);
            forall k: Key :: k != wk && k != dk && k != ck && k != History.KeyFor(historyId) ==>
              SameRecord(db, done, k)
  {
    var wk, dk := Warehouse.KeyFor(a.warehouseId), District.KeyFor(a.warehouseId, a.districtId);
    var hk := History.KeyFor(historyId);
    assert committed && HomeStep(db, a).Ok? && CustomerStep(HomeStep(db, a).value.0, a, amountText).Ok? by {
      ExecutionShape(db, a, historyId, amountText, committed);
    }
    var home := HomeStep(db, a).value;
    var customer := CustomerStep(home.0, a, amountText).value;
    var done := Put(customer.0, hk, HistoryColumns(a, home.1, customer.1));
    assert done == Execution(db, a, historyId, amountText, committed).value by {
      ExecutionShape(db, a, historyId, amountText, committed);
    }
    assert forall k: Key :: k != wk && k != dk ==> SameRecord(db, home.0, k) by {
      HomeStepOutcome(db, a);
    }
    assert ResolveCustomer(home.0, a) == ResolveCustomer(db, a) by {
      HomeStepKeepsLookup(db, a);
    }
    var ck := Customer.KeyFor(a.warehouseId, a.districtId, ResolveCustomer(db, a).value);
    assert ResolveCustomer(db, a).Ok? && forall k: Key :: k != ck ==> SameRecord(home.0, customer.0, k) by {
      CustomerStepOutcome(home.0, a, amountText);
    }
    assert forall k: Key :: k != hk ==> SameRecord(customer.0, done, k) by {
      HistoryPutWrites(customer.0, historyId, a, home.1, customer.1);
    }
    FrameChain(db, home.0, customer.0, done, wk, dk, ck, hk);
  }

  /** Three stores each changing only the named records change, together, only those records. */
  lemma FrameChain(db: Db, db1: Db, db2: Db, db3: Db, wk: Key, dk: Key, ck: Key, hk: Key)
    requires forall k: Key :: k != wk && k != dk ==> SameRecord(db, db1, k)
    requires forall k: Key :: k != ck ==> SameRecord(db1, db2, k)
    requires forall k: Key :: k != hk ==> SameRecord(db2, db3, k)
    ensures forall k: Key :: k != wk && k != dk && k != ck && k != hk ==> SameRecord(db, db3, k)
  {
    forall k: Key | k != wk && k != dk && k != ck && k != hk
      ensures SameRecord(db, db3, k)
    {
      assert SameRecord(db, db1, k) && SameRecord(db1, db2, k) && SameRecord(db2, db3, k);
    }
  }

  /** A committed payment is the history put on top of the customer step on top of the home step. */
  lemma ExecutionShape(db: Db, a: Args, historyId: string, amountText: string, committed: bool)
    requires Execution(db, a, historyId, amountText, committed).Ok?
    ensures committed && HomeStep(db, a).Ok? && CustomerStep(HomeStep(db, a).value.0, a, amountText).Ok?
    ensures var home := HomeStep(db, a).value;
            var customer := CustomerStep(home.0, a, amountText).value;
            Execution(db, a, historyId, amountText, committed).value
              == Put(customer.0, History.KeyFor(historyId), HistoryColumns(a, home.1, customer.1))
  {
  }

  /** Once the home step has succeeded, execute is the customer step followed by the history put and the commit. */
  lemma ExecutionAfterHome(db: Db, a: Args, home: (Db, Names), historyId: string, amountText: string,
                           committed: bool)
    requires HomeStep(db, a) == Ok(home)
    ensures Execution(db, a, historyId, amountText, committed)
              == match CustomerStep(home.0, a, amountText)
                 case Err(e) => Err(e)
                 case Ok(customer) =>
                   if committed then Ok(Put(customer.0, History.KeyFor(historyId), HistoryColumns(a, home.1, customer.1)))
                   else Err(Conflict)
  {
  }

  /** The customer columns read the id they are given, not the customerId argument. */
  lemma CustomerColumnsIgnoreArgumentId(row: Row, a: Args, id: int, amountText: string, other: int)
    ensures CustomerColumns(row, a.(customerId := other), id, amountText) == CustomerColumns(row, a, id, amountText)
  {
  }

  /** The customer update reads the id it is given, not the customerId argument. */
  lemma CustomerUpdateIgnoresArgumentId(db: Db, a: Args, id: int, amountText: string, other: int)
    ensures CustomerUpdate(db, a.(customerId := other), id, amountText) == CustomerUpdate(db, a, id, amountText)
  {
    var k := Customer.KeyFor(a.warehouseId, a.districtId, id);
    if k in db {
      CustomerColumnsIgnoreArgumentId(db[k], a, id, amountText, other);
    }
  }

  /** Once the id is resolved, the customer step is the update of that customer. */
  lemma CustomerStepAfterResolve(db: Db, a: Args, id: int, amountText: string)
    requires ResolveCustomer(db, a) == Ok(id)
    ensures CustomerStep(db, a, amountText)
              == match CustomerUpdate(db, a, id, amountText)
                 case Err(e) => Err(e)
                 case Ok(updated) => Ok((updated, id))
  {
  }

  /** The history put writes the history row and no other record. */
  lemma HistoryPutWrites(db: Db, historyId: string, a: Args, names: Names, id: int)
    ensures HistoryWritten(Put(db, History.KeyFor(historyId), HistoryColumns(a, names, id)), historyId, a, id, names)
    ensures forall k: Key :: k != History.KeyFor(historyId) ==>
              SameRecord(db, Put(db, History.KeyFor(historyId), HistoryColumns(a, names, id)), k)
  {
    History.ColumnsReadBack(db, History.KeyFor(historyId), id, a.customerDistrictId, a.customerWarehouseId,
                            a.districtId, a.warehouseId, a.date, a.amount,
                            HistoryData(names.warehouseName, names.districtName));
  }

  /** A later store that keeps record `ck` keeps the payment applied to it. */
  lemma PaymentAppliedKept(row: Row, db: Db, db': Db, ck: Key, a: Args, id: int, amountText: string)
    requires PaymentApplied(row, db, ck, a, id, amountText) && SameRecord(db, db', ck)
    ensures PaymentApplied(row, db', ck, a, id, amountText)
  {
  }

  // ---- the transaction object ---------------------------------------------------------

  class PaymentTransaction {
    var warehouseId: int
    var districtId: int
    var customerId: int
    var customerWarehouseId: int
    var customerDistrictId: int
    var customerLastName: string
    var byLastName: bool
    var paymentAmount: real
    var date: int

    /** The arguments the fields hold. */
    function Arguments(): Args
      reads this
    {
      Args(warehouseId, districtId, customerId, customerWarehouseId, customerDistrictId, customerLastName,
           byLastName, paymentAmount, date)
    }

    /** A transaction object before its first generate: every field at its default. */
    constructor ()
      ensures Arguments() == Args(0, 0, 0, 0, 0, "", false, 0.0, 0)
    {
      warehouseId, districtId, customerId, customerWarehouseId, customerDistrictId := 0, 0, 0, 0, 0;
      customerLastName, byLastName, paymentAmount, date := "", false, 0.0, 0;
    }

    /**
     * generate(numWarehouse): the home warehouse and district, the amount
     * (a draw in [100, 500000] over 100), the date; for a draw `x` up to 85 the
     * customer's warehouse and district are the home ones, otherwise the
     * customer's district is drawn and its warehouse is the first draw that
     * differs from home (home itself when there is one warehouse); for a draw
     * `y` up to 60 the customer is named by a run-time NURand last name and the
     * id is left as it was, otherwise by a NURand id and the name is left.
     */
    method Generate(numWarehouse: int, warehouseDraw: int, districtDraw: int, amountDraw: int, now: int,
                    x: int, remoteWarehouseDraw: int, remoteDistrictDraw: int,
                    y: int, lastX: int, lastY: int, customerX: int, customerY: int)
      requires 1 <= warehouseDraw <= numWarehouse && 1 <= districtDraw <= DISTRICTS
      requires 100 <= amountDraw <= 500000 && 1 <= x <= 100 && 1 <= y <= 100
      requires 1 <= remoteWarehouseDraw <= numWarehouse && (numWarehouse > 1 ==> remoteWarehouseDraw != warehouseDraw)
      requires 1 <= remoteDistrictDraw <= DISTRICTS
      requires 0 <= lastX <= 255 && 0 <= lastY <= 999 && 0 <= customerX <= 1023 && 1 <= customerY <= CUSTOMERS
      modifies this
      ensures warehouseId == warehouseDraw && districtId == districtDraw && date == now
      ensures paymentAmount == amountDraw as real / 100.0 && 1.0 <= paymentAmount <= 5000.0
      ensures x <= 85 ==> customerWarehouseId == warehouseId && customerDistrictId == districtId
      ensures x > 85 ==> customerDistrictId == remoteDistrictDraw
      ensures x > 85 && numWarehouse > 1 ==> customerWarehouseId != warehouseId
      ensures x > 85 && numWarehouse == 1 ==> customerWarehouseId == warehouseId
      ensures 1 <= customerWarehouseId <= numWarehouse && 1 <= customerDistrictId <= DISTRICTS
      ensures byLastName <==> y <= 60
      ensures byLastName ==> customerLastName == TpccUtil.RandomLastName(false, lastX, lastY)
                             && customerId == old(customerId)
      ensures !byLastName ==> customerId == TpccUtil.CustomerId(customerX, customerY) && 1 <= customerId <= CUSTOMERS
                              && customerLastName == old(customerLastName)
    {
      warehouseId, districtId := warehouseDraw, districtDraw;
      paymentAmount := amountDraw as real / 100.0;
      date := now;
      if x <= 85 {
        customerWarehouseId, customerDistrictId := warehouseId, districtId;
      } else {
        if numWarehouse > 1 {
          customerWarehouseId := remoteWarehouseDraw;
        } else {
          customerWarehouseId := warehouseId;
        }
        customerDistrictId := remoteDistrictDraw;
      }
      if y <= 60 {
        byLastName := true;
        customerLastName := TpccUtil.RandomLastName(false, lastX, lastY);
      } else {
        byLastName := false;
        customerId := TpccUtil.CustomerId(customerX, customerY);
      }
    }

    /** The warehouse and district read-modify-writes of execute. */
    method UpdateHome(db: Db) returns (r: Result<(Db, Names), TxError>)
      ensures r == HomeStep(db, Arguments())
    {
      var warehouseKey := Warehouse.KeyFor(warehouseId);
      var warehouse :- GetOr(db, warehouseKey, "Warehouse not found");
      var warehouseName :- TextOf(warehouse, Warehouse.KEY_NAME);
      var warehouseYtd :- DoubleOf(warehouse, Warehouse.KEY_YTD);
      var tx := Put(db, warehouseKey, [Column(Warehouse.KEY_YTD, DoubleV(warehouseYtd + paymentAmount))]);
      var districtKey := District.KeyFor(warehouseId, districtId);
      var district :- GetOr(tx, districtKey, "District not found");
      var districtName :- TextOf(district, District.KEY_NAME);
      var districtYtd :- DoubleOf(district, District.KEY_YTD);
      tx := Put(tx, districtKey, [Column(District.KEY_YTD, DoubleV(districtYtd + paymentAmount))]);
      return Ok((tx, Names(warehouseName, districtName)));
    }

    /** The customer read-modify-write of execute, for the customer the customerId field names. */
    method UpdateCustomer(tx: Db, amountText: string) returns (r: Result<Db, TxError>)
      ensures r == CustomerUpdate(tx, Arguments(), customerId, amountText)
    {
      var customerKey := Customer.KeyFor(warehouseId, districtId, customerId);
      var customer :- GetOr(tx, customerKey, "Customer not found");
      var columns :- NewCustomerColumns(customer, amountText);
      return Ok(Put(tx, customerKey, columns));
    }

    /** The customer's new columns, read from its current row. */
    method NewCustomerColumns(customer: Row, amountText: string) returns (r: Result<seq<Column>, TxError>)
      ensures r == CustomerColumns(customer, Arguments(), customerId, amountText)
    {
      var balance :- DoubleOf(customer, Customer.KEY_BALANCE);
      var ytdPayment :- DoubleOf(customer, Customer.KEY_YTD_PAYMENT);
      var count :- IntOf(customer, Customer.KEY_PAYMENT_CNT);
      var credit :- TextOf(customer, Customer.KEY_CREDIT);
      var data: Option<string> := None;
      if credit == "BC" {
        var oldData :- TextOf(customer, Customer.KEY_DATA);
        data := Some(CustomerData(warehouseId, districtId, customerId, customerWarehouseId, customerDistrictId,
                                  amountText, oldData));
      }
      return Ok(Customer.PaymentColumns(balance + paymentAmount, ytdPayment + paymentAmount, Wrap32(count + 1), data));
    }

    /**
     * execute: the warehouse and district read-modify-writes, the by-name
     * lookup that overwrites the customerId field, the customer update under
     * the home keys, the history insert under the fresh UUID `historyId`, then
     * the commit.  `amountText` is what "%7.2f" renders the amount as.
     */
    method Execute(db: Db, historyId: string, amountText: string, committed: bool) returns (r: Result<Db, TxError>)
      modifies this
      ensures r == Execution(db, old(Arguments()), historyId, amountText, committed)
      ensures Arguments() == old(Arguments()).(customerId := CustomerIdAfter(db, old(Arguments())))
    {
      ghost var a := Arguments();
      var home := UpdateHome(db);
      if home.Err? {
        assert Execution(db, a, historyId, amountText, committed) == Err(home.error);
        return Err(home.error);
      }
      var tx := home.value.0;
      var names := home.value.1;
      ExecutionAfterHome(db, a, home.value, historyId, amountText, committed);
      if byLastName {
        var rows := CustomerSecondary.Scan(tx, warehouseId, districtId, customerLastName);
        var id := CustomerLookup.MidpointId(rows, CustomerSecondary.KEY_CUSTOMER_ID);
        if id.Err? {
          assert Execution(db, a, historyId, amountText, committed) == Err(id.error);
          return Err(id.error);
        }
        customerId := id.value;
      }
      assert ResolveCustomer(tx, a) == Ok(customerId);
      CustomerStepAfterResolve(tx, a, customerId, amountText);
      assert Arguments() == a.(customerId := customerId);
      CustomerUpdateIgnoresArgumentId(tx, a, customerId, amountText, customerId);
      var updated := UpdateCustomer(tx, amountText);
      if updated.Err? {
        assert Execution(db, a, historyId, amountText, committed) == Err(updated.error);
        return Err(updated.error);
      }
      tx := Put(updated.value, History.KeyFor(historyId), HistoryColumns(Arguments(), names, customerId));
      assert HistoryColumns(Arguments(), names, customerId) == HistoryColumns(a, names, customerId);
      if !committed {
        assert Execution(db, a, historyId, amountText, committed) == Err(Conflict);
        return Err(Conflict);
      }
      assert Execution(db, a, historyId, amountText, committed) == Ok(tx);
      return Ok(tx);
    }
  }
}
