// The counted loops of the transactions (Delivery's districts, New-Order's
// order lines): steps 1 .. count in ascending order inside one transaction,
// each step seeing the state the previous one left, the first exception
// ending the loop.  The step is a function value so that the facts below are
// proved once for every loop.
module Loops {
  import opened Wrappers

  /** Steps 1 to `count` in ascending order from `s`, stopping at the first error. */
  ghost function Loop<S, E>(s: S, step: (S, int) -> Result<S, E>, count: nat): Result<S, E>
    decreases count
  {
    if count == 0 then Ok(s)
    else
      var before :- Loop(s, step, count - 1);
      step(before, count)
  }

  /** Once a step fails, the loop fails with its error. */
  lemma {:induction false} LoopStopAt<S, E>(s: S, step: (S, int) -> Result<S, E>, count: nat, last: nat)
    requires count <= last && Loop(s, step, count).Err?
    ensures Loop(s, step, last) == Loop(s, step, count)
    decreases last - count
  {
    if count < last {
      LoopStopAt(s, step, count + 1, last);
    }
  }

  /**
   * When `inv(_, 0)` holds at the start and step `d` takes `inv(_, d - 1)` to
   * `inv(_, d)` whenever it succeeds, a successful loop ends in `inv(_, count)`.
   */
  lemma {:induction false} LoopInvariant<S, E>(s: S, step: (S, int) -> Result<S, E>, count: nat,
                                               inv: (S, int) -> bool)
    requires inv(s, 0)
    requires forall x: S, d: int :: 1 <= d <= count && inv(x, d - 1) && step(x, d).Ok? ==> inv(step(x, d).value, d)
    ensures Loop(s, step, count).Ok? ==> inv(Loop(s, step, count).value, count)
    decreases count
  {
    if count > 0 {
      LoopInvariant(s, step, count - 1, inv);
    }
  }

  /** What no step changes, the loop does not change. */
  lemma {:induction false} LoopKeeps<S, E, T>(s: S, step: (S, int) -> Result<S, E>, count: nat, view: S -> T)
    requires Loop(s, step, count).Ok?
    requires forall x: S, d: int :: 1 <= d <= count && step(x, d).Ok? ==> view(step(x, d).value) == view(x)
    ensures view(Loop(s, step, count).value) == view(s)
    decreases count
  {
    if count > 0 {
      LoopKeeps(s, step, count - 1, view);
    }
  }

  /**
   * When step `d` succeeds only if `need(_, d)` holds before it, and no step
   * changes `need` for a later one, a successful loop needed `need(s, d)` for
   * every step of the loop.
   */
  lemma {:induction false} LoopNeedsEach<S, E>(s: S, step: (S, int) -> Result<S, E>, count: nat,
                                               need: (S, int) -> bool)
    requires Loop(s, step, count).Ok?
    requires forall x: S, d: int :: step(x, d).Ok? ==> need(x, d)
    requires forall x: S, d: int, e: int :: d < e && step(x, d).Ok? ==> need(step(x, d).value, e) == need(x, e)
    ensures forall d :: 1 <= d <= count ==> need(s, d)
    decreases count
  {
    if count > 0 {
      LoopNeedsEach(s, step, count - 1, need);
      LoopKeeps(s, step, count - 1, (x: S) => need(x, count));
    }
  }
}
