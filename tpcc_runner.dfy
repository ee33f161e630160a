// The driver of one client: decideType draws x in [1, 100] and picks the
// transaction profile whose band of the cumulative mix holds x; run()
// generates that transaction's arguments once and executes it, and the
// retrying run executes it again with the same arguments after each
// CrudConflictException or CommitConflictException, counting them, until it
// commits, another exception escapes, or the benchmark stops running.
//
// The transactions' own generate and execute are not called from here: the
// runner records which transaction it generated and executed in a trace, and
// the outcome of each execute (commit, conflict, other exception) is an input.
module TpccRunner {
  import opened Wrappers
  import opened JavaInt
  import opened Store
  import opened TpccConfig

  datatype TxType = NONE | NEW_ORDER | PAYMENT | ORDER_STATUS | DELIVERY | STOCK_LEVEL

  /** A call the runner makes on the transaction object of a type. */
  datatype Call = Generate(generated: TxType) | Execute(executed: TxType)

  /** decideType with the draw x: the first band of the running sums (Java ints) that holds x. */
  function DecideType(c: Config, x: int): (t: TxType)
    ensures t != NONE
    ensures t == NEW_ORDER <==> x <= c.rateNewOrder
  {
    if x <= c.rateNewOrder then NEW_ORDER
    else if x <= Wrap32(c.rateNewOrder + c.ratePayment) then PAYMENT
    else if x <= Wrap32(c.rateNewOrder + c.ratePayment + c.rateOrderStatus) then ORDER_STATUS
    else if x <= Wrap32(c.rateNewOrder + c.ratePayment + c.rateOrderStatus + c.rateDelivery) then DELIVERY
    else STOCK_LEVEL
  }

  // ---- the mix is honoured ----------------------------------------------------------------

  /** Every rate a percentage and the five adding up to 100. */
  predicate Mix(c: Config)
  {
    Percentages(c) && c.rateNewOrder + c.ratePayment + c.rateOrderStatus + c.rateDelivery + c.rateStockLevel == 100
  }

  /** The position of a type in the mix (1 for New-Order .. 5 for Stock-Level). */
  function Position(t: TxType): nat
  {
    match t
    case NONE => 0
    case NEW_ORDER => 1
    case PAYMENT => 2
    case ORDER_STATUS => 3
    case DELIVERY => 4
    case STOCK_LEVEL => 5
  }

  /** The rate of a type (0 for NONE). */
  function Rate(c: Config, t: TxType): int
  {
    match t
    case NONE => 0
    case NEW_ORDER => c.rateNewOrder
    case PAYMENT => c.ratePayment
    case ORDER_STATUS => c.rateOrderStatus
    case DELIVERY => c.rateDelivery
    case STOCK_LEVEL => c.rateStockLevel
  }

  /** The sum of the first `k` rates of the mix. */
  function Cumulative(c: Config, k: nat): int
  {
    (if k >= 1 then c.rateNewOrder else 0) + (if k >= 2 then c.ratePayment else 0)
    + (if k >= 3 then c.rateOrderStatus else 0) + (if k >= 4 then c.rateDelivery else 0)
    + (if k >= 5 then c.rateStockLevel else 0)
  }

  /** A type's band: the draws above the rates before it and up to its own. */
  predicate InBand(c: Config, t: TxType, x: int)
  {
    Position(t) >= 1 && Cumulative(c, Position(t) - 1) < x <= Cumulative(c, Position(t))
  }

  /** For a mix, a draw in [1, 100] selects exactly the type whose band holds it. */
  lemma DecideTypeBands(c: Config, x: int, t: TxType)
    requires Mix(c) && 1 <= x <= 100
    ensures DecideType(c, x) == t <==> InBand(c, t, x)
  {
    var s := c.rateNewOrder + c.ratePayment + c.rateOrderStatus + c.rateDelivery;
    assert IsInt32(c.rateNewOrder + c.ratePayment) && IsInt32(s - c.rateDelivery) && IsInt32(s);
  }

  /** The number of draws in [1, n] that select `t`. */
  function Count(c: Config, t: TxType, n: nat): (r: nat)
    ensures r <= n
  {
    if n == 0 then 0 else Count(c, t, n - 1) + (if DecideType(c, n) == t then 1 else 0)
  }

  /** The number of integers in [1, n] that lie in (lo, hi]. */
  function InBandUpTo(n: int, lo: int, hi: int): int
  {
    if n <= lo then 0 else if n <= hi then n - lo else hi - lo
  }

  /** Counting the draws band by band. */
  lemma {:induction false} CountIsBand(c: Config, t: TxType, n: nat)
    requires Mix(c) && t != NONE && n <= 100
    ensures Count(c, t, n) == InBandUpTo(n, Cumulative(c, Position(t) - 1), Cumulative(c, Position(t)))
  {
    if n > 0 {
      CountIsBand(c, t, n - 1);
      DecideTypeBands(c, n, t);
    }
  }

  /**
   * For a mix, each type is selected by exactly as many of the 100 draws as
   * its rate says; a type with rate 0 is never selected, and NONE never is.
   */
  lemma RatesAreFrequencies(c: Config, t: TxType)
    requires Mix(c)
    ensures Count(c, t, 100) == Rate(c, t)
    ensures Rate(c, t) == 0 ==> forall x :: 1 <= x <= 100 ==> DecideType(c, x) != t
  {
    if t != NONE {
      CountIsBand(c, t, 100);
      forall x | 1 <= x <= 100
        ensures Rate(c, t) == 0 ==> DecideType(c, x) != t
      {
        DecideTypeBands(c, x, t);
      }
    } else {
      NeverNone(c, 100);
    }
  }

  /** No draw counts towards NONE. */
  lemma {:induction false} NeverNone(c: Config, n: nat)
    ensures Count(c, NONE, n) == 0
  {
    if n > 0 {
      NeverNone(c, n - 1);
    }
  }

  /** A built config sends every draw to New-Order or Payment. */
  lemma BuiltConfigIsNP(c: Config, x: int)
    requires Validate(c).Ok? && Percentages(c) && 1 <= x <= 100
    ensures DecideType(c, x) == NEW_ORDER || DecideType(c, x) == PAYMENT
  {
    ValidMix(c);
    DecideTypeBands(c, x, NEW_ORDER);
    DecideTypeBands(c, x, PAYMENT);
  }

  // ---- the retry loop ---------------------------------------------------------------------

  /**
   * The loop of run(isRunning, errorCounter) from attempt `i` on: `running[j]`
   * is what isRunning reads before attempt j (false once the readings run
   * out) and `outcomes[j]` how execute ends at attempt j.  The result is the
   * number of attempts made and what run ends with.
   */
  function Retry(running: seq<bool>, outcomes: seq<Result<(), TxError>>, i: nat): (r: (nat, Result<(), TxError>))
    requires |outcomes| >= |running|
    ensures i <= |running| ==> i <= r.0 <= |running|
    ensures i > |running| ==> r.0 == i
    decreases |running| - i
  {
    if i >= |running| || !running[i] then (i, Ok(()))
    else if outcomes[i].Ok? then (i + 1, Ok(()))
    else if outcomes[i] == Err(Conflict) then Retry(running, outcomes, i + 1)
    else (i + 1, outcomes[i])
  }

  /** The conflicts among the first `n` outcomes. */
  function Conflicts(outcomes: seq<Result<(), TxError>>, n: nat): nat
    requires n <= |outcomes|
  {
    if n == 0 then 0 else Conflicts(outcomes, n - 1) + (if outcomes[n - 1] == Err(Conflict) then 1 else 0)
  }

  /**
   * What the retry loop promises: every attempt is made while running; each
   * attempt but the last ended in a conflict; the loop ends on a commit, on
   * another exception (which run rethrows) or, after conflicts only, when
   * isRunning reads false; no attempt is made once it reads false.
   */
  lemma {:induction false} RetryProperties(running: seq<bool>, outcomes: seq<Result<(), TxError>>, i: nat)
    requires |outcomes| >= |running| && i <= |running|
    requires forall j :: 0 <= j < i ==> running[j] && outcomes[j] == Err(Conflict)
    ensures var (n, res) := Retry(running, outcomes, i);
            && (forall j :: 0 <= j < n ==> running[j])
            && (forall j :: 0 <= j < n - 1 ==> outcomes[j] == Err(Conflict))
            && (res.Err? <==> n > 0 && outcomes[n - 1].Err? && outcomes[n - 1] != Err(Conflict))
            && (res.Err? ==> res == outcomes[n - 1])
            && (res.Ok? ==> (n > 0 && outcomes[n - 1].Ok?) || ((n == |running| || !running[n])
                                                                 && forall j :: 0 <= j < n ==> outcomes[j] == Err(Conflict)))
            && (i < |running| && !running[i] ==> n == i)
    decreases |running| - i
  {
    if i < |running| && running[i] && outcomes[i] == Err(Conflict) {
      RetryProperties(running, outcomes, i + 1);
    }
  }

  /** The counter grows by one per conflict: all attempts but a committing or failing last one. */
  lemma {:induction false} ConflictsCounted(outcomes: seq<Result<(), TxError>>, n: nat)
    requires n <= |outcomes| && forall j :: 0 <= j < n - 1 ==> outcomes[j] == Err(Conflict)
    ensures Conflicts(outcomes, n) == if n > 0 && outcomes[n - 1] != Err(Conflict) then n - 1 else n
  {
    if n > 1 {
      ConflictsCounted(outcomes, n - 1);
    }
  }

  /** The AtomicInteger the runner counts conflicts in. */
  class ErrorCounter {
    var value: int

    constructor ()
      ensures value == 0
    {
      value := 0;
    }

    /** incrementAndGet, its result unused. */
    method Increment()
      modifies this
      ensures value == old(value) + 1
    {
      value := value + 1;
    }
  }

  class Runner {
    const config: Config
    /** The generate and execute calls made so far, in order. */
    var calls: seq<Call>

    constructor (c: Config)
      ensures config == c && calls == []
    {
      config := c;
      calls := [];
    }

    /** decideType, generate once, then execute until the loop ends. */
    method RunWithRetry(x: int, running: seq<bool>, outcomes: seq<Result<(), TxError>>, errorCounter: ErrorCounter)
      returns (r: Result<(), TxError>)
      requires 1 <= x <= 100 && |outcomes| >= |running|
      modifies this, errorCounter
      ensures var t := DecideType(config, x);
              var (n, res) := Retry(running, outcomes, 0);
              && r == res
              && calls == old(calls) + [Generate(t)] + seq(n, _ => Execute(t))
              && errorCounter.value == old(errorCounter.value) + Conflicts(outcomes, n)
    {
      var t := DecideType(config, x);
      calls := calls + [Generate(t)];
      ghost var start := calls;
      var i := 0;
      while i < |running| && running[i]
        invariant 0 <= i <= |running|
        invariant Retry(running, outcomes, i) == Retry(running, outcomes, 0)
        invariant calls == start + seq(i, _ => Execute(t))
        invariant errorCounter.value == old(errorCounter.value) + Conflicts(outcomes, i)
        decreases |running| - i
      {
        calls := calls + [Execute(t)];
        assert calls == start + seq(i + 1, _ => Execute(t));
        if outcomes[i].Ok? {
          return Ok(());
        }
        if outcomes[i] != Err(Conflict) {
          return outcomes[i];
        }
        errorCounter.Increment();
        i := i + 1;
      }
      return Ok(());
    }

    /** run() without retry: decideType, generate, execute once; every exception escapes. */
    method Run(x: int, outcome: Result<(), TxError>) returns (r: Result<(), TxError>)
      requires 1 <= x <= 100
      modifies this
      ensures r == outcome
      ensures calls == old(calls) + [Generate(DecideType(config, x)), Execute(DecideType(config, x))]
    {
      var t := DecideType(config, x);
      calls := calls + [Generate(t)];
      calls := calls + [Execute(t)];
      return outcome;
    }
  }
}
