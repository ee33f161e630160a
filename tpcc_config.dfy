// The benchmark's settings: the five transaction-mix rates (percentages) and
// the number of warehouses.  A Builder starts from the defaults (half
// New-Order, half Payment, one warehouse), each setter overwrites one field
// and hands back the same builder, and build checks the mix: the rates must
// add up to 100 (as a Java int sum) and, since only the New-Order/Payment mix
// is supported, the other three must be 0.  A built config is immutable.
module TpccConfig {
  import opened Wrappers
  import opened JavaInt

  /** An immutable config; its getters are the fields. */
  datatype Config = Config(rateNewOrder: int, ratePayment: int, rateOrderStatus: int, rateDelivery: int,
                           rateStockLevel: int, numWarehouse: int)

  /** The message of each IllegalStateException build throws. */
  const TOTAL_NOT_100: string := "Total rate must be 100."
  const NP_ONLY: string := "Currently TPC-C NP only."

  /** The values a fresh builder holds. */
  const DEFAULTS: Config := Config(50, 50, 0, 0, 0, 1)

  /** The Java int sum build computes over the five rates. */
  function TotalRate(c: Config): int
  {
    Wrap32(c.rateNewOrder + c.ratePayment + c.rateOrderStatus + c.rateDelivery + c.rateStockLevel)
  }

  /** build()'s checks, in order, on the builder's values. */
  function Validate(c: Config): (r: Result<Config, string>)
    ensures r.Ok? <==> TotalRate(c) == 100 && c.rateOrderStatus == 0 && c.rateDelivery == 0 && c.rateStockLevel == 0
    ensures r.Ok? ==> r.value == c
    ensures TotalRate(c) != 100 ==> r == Err(TOTAL_NOT_100)
    ensures TotalRate(c) == 100 && r.Err? ==> r == Err(NP_ONLY)
  {
    if TotalRate(c) != 100 then Err(TOTAL_NOT_100)
    else if c.rateOrderStatus != 0 || c.rateDelivery != 0 || c.rateStockLevel != 0 then Err(NP_ONLY)
    else Ok(c)
  }

  /** Rates between 0 and 100 each, the case the benchmark is meant for. */
  predicate Percentages(c: Config)
  {
    && 0 <= c.rateNewOrder <= 100 && 0 <= c.ratePayment <= 100 && 0 <= c.rateOrderStatus <= 100
    && 0 <= c.rateDelivery <= 100 && 0 <= c.rateStockLevel <= 100
  }

  /**
   * A config that builds is a New-Order/Payment mix; when every rate is a
   * percentage the two add up to 100 exactly, the Java sum not wrapping.
   */
  lemma ValidMix(c: Config)
    requires Validate(c).Ok?
    ensures c.rateOrderStatus == 0 && c.rateDelivery == 0 && c.rateStockLevel == 0
    ensures Percentages(c) ==> c.rateNewOrder + c.ratePayment == 100
  {
    if Percentages(c) {
      assert IsInt32(c.rateNewOrder + c.ratePayment + c.rateOrderStatus + c.rateDelivery + c.rateStockLevel);
    }
  }

  /** Building from the defaults succeeds and gives the defaults. */
  lemma DefaultsBuild()
    ensures Validate(DEFAULTS) == Ok(DEFAULTS)
  {
    assert TotalRate(DEFAULTS) == 100;
  }

  class Builder {
    var rateNewOrder: int
    var ratePayment: int
    var rateOrderStatus: int
    var rateDelivery: int
    var rateStockLevel: int
    var numWarehouse: int

    /** The values the builder holds. */
    function Values(): Config
      reads this
    {
      Config(rateNewOrder, ratePayment, rateOrderStatus, rateDelivery, rateStockLevel, numWarehouse)
    }

    /** newBuilder(): the defaults 50/50/0/0/0 and one warehouse. */
    constructor ()
      ensures Values() == DEFAULTS
    {
      rateNewOrder, ratePayment, rateOrderStatus, rateDelivery, rateStockLevel, numWarehouse := 50, 50, 0, 0, 0, 1;
    }

    method RateNewOrder(rate: int) returns (b: Builder)
      modifies this
      ensures b == this && Values() == old(Values()).(rateNewOrder := rate)
    {
      rateNewOrder := rate;
      return this;
    }

    method RatePayment(rate: int) returns (b: Builder)
      modifies this
      ensures b == this && Values() == old(Values()).(ratePayment := rate)
    {
      ratePayment := rate;
      return this;
    }

    method RateOrderStatus(rate: int) returns (b: Builder)
      modifies this
      ensures b == this && Values() == old(Values()).(rateOrderStatus := rate)
    {
      rateOrderStatus := rate;
      return this;
    }

    method RateDelivery(rate: int) returns (b: Builder)
      modifies this
      ensures b == this && Values() == old(Values()).(rateDelivery := rate)
    {
      rateDelivery := rate;
      return this;
    }

    method RateStockLevel(rate: int) returns (b: Builder)
      modifies this
      ensures b == this && Values() == old(Values()).(rateStockLevel := rate)
    {
      rateStockLevel := rate;
      return this;
    }

    method NumWarehouse(count: int) returns (b: Builder)
      modifies this
      ensures b == this && Values() == old(Values()).(numWarehouse := count)
    {
      numWarehouse := count;
      return this;
    }

    /** build(): check the mix, then copy the six values into a new config. */
    method Build() returns (r: Result<Config, string>)
      ensures r == Validate(Values())
    {
      var total := Wrap32(rateNewOrder + ratePayment + rateOrderStatus + rateDelivery + rateStockLevel);
      if total != 100 {
        return Err(TOTAL_NOT_100);
      }
      if rateOrderStatus != 0 || rateDelivery != 0 || rateStockLevel != 0 {
        return Err(NP_ONLY);
      }
      return Ok(Config(rateNewOrder, ratePayment, rateOrderStatus, rateDelivery, rateStockLevel, numWarehouse));
    }
  }
}
