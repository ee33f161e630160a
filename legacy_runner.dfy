// The older driver: its config is a plain mutable record (rates 50/50/0/0,
// one warehouse, the constructor setting the warehouse count and the payment
// rate), decideType only ever picks Payment or New-Order, and run generates
// and executes the chosen transaction once.  As in the newer runner, the
// calls are recorded in a trace and the outcome of execute is an input.
module LegacyRunner {
  import opened Wrappers
  import opened Store
  import LegacyUtil

  datatype LegacyType = None | NewOrder | Payment | OrderStatus | Delivery | StockLevel

  /** TPCCConfig's fields; its setters replace one of them. */
  datatype LegacyConfig = LegacyConfig(rateNewOrder: int, ratePayment: int, rateOrderStatus: int, rateDelivery: int,
                                       numWarehouse: int)

  /** new TPCCConfig(warehouse, payment): the field defaults with these two replaced. */
  function MakeConfig(warehouse: int, payment: int): (c: LegacyConfig)
    ensures c.numWarehouse == warehouse && c.ratePayment == payment
    ensures c.rateNewOrder == 50 && c.rateOrderStatus == 0 && c.rateDelivery == 0
  {
    LegacyConfig(50, payment, 0, 0, warehouse)
  }

  /** The choice on the draw x: Payment up to the payment rate, New-Order above it. */
  function Choose(c: LegacyConfig, x: int): (t: LegacyType)
    ensures t == Payment <==> x <= c.ratePayment
    ensures t == NewOrder <==> x > c.ratePayment
  {
    if x <= c.ratePayment then Payment else NewOrder
  }

  /** decideType with randomInt(1, 100) on the uniform fraction u. */
  function DecideType(c: LegacyConfig, u: real): (t: LegacyType)
    requires 0.0 <= u < 1.0
    ensures t == Payment || t == NewOrder
  {
    Choose(c, LegacyUtil.RandomInt(1, 100, u))
  }

  /** A payment rate of 0 or less always picks New-Order, one of 100 or more always Payment. */
  lemma ExtremeRates(c: LegacyConfig, u: real)
    requires 0.0 <= u < 1.0
    ensures c.ratePayment <= 0 ==> DecideType(c, u) == NewOrder
    ensures c.ratePayment >= 100 ==> DecideType(c, u) == Payment
  {
    var x := LegacyUtil.RandomInt(1, 100, u);
    assert 1 <= x <= 100;
  }

  /** The number of draws in [1, n] that pick Payment. */
  function PaymentCount(c: LegacyConfig, n: nat): (r: nat)
    ensures r <= n
  {
    if n == 0 then 0 else PaymentCount(c, n - 1) + (if Choose(c, n) == Payment then 1 else 0)
  }

  /** Of the 100 draws, exactly the payment rate (clamped to [0, 100]) pick Payment. */
  lemma {:induction false} PaymentShare(c: LegacyConfig, n: nat)
    ensures PaymentCount(c, n) == if c.ratePayment <= 0 then 0 else if c.ratePayment <= n then c.ratePayment else n
  {
    if n > 0 {
      PaymentShare(c, n - 1);
    }
  }

  /** A call the runner makes on a transaction object. */
  datatype Call = Generate(generated: LegacyType, numWarehouse: int) | Execute(executed: LegacyType)

  class LegacyTpccRunner {
    const config: LegacyConfig
    /** The generate and execute calls made so far, in order. */
    var calls: seq<Call>

    constructor (c: LegacyConfig)
      ensures config == c && calls == []
    {
      config := c;
      calls := [];
    }

    /**
     * run: generate(numWarehouse) and execute on the chosen transaction, once
     * each; the other types fall to a default branch that does nothing.
     */
    method Run(u: real, outcome: Result<(), TxError>) returns (r: Result<(), TxError>)
      requires 0.0 <= u < 1.0
      modifies this
      ensures var t := DecideType(config, u);
              calls == old(calls) + [Generate(t, config.numWarehouse), Execute(t)] && r == outcome
    {
      var t := DecideType(config, u);
      match t {
        case Payment =>
          calls := calls + [Generate(Payment, config.numWarehouse)];
          calls := calls + [Execute(Payment)];
          r := outcome;
        case NewOrder =>
          calls := calls + [Generate(NewOrder, config.numWarehouse)];
          calls := calls + [Execute(NewOrder)];
          r := outcome;
        case _ =>
          assert false;
          r := Ok(());
      }
    }
  }
}
