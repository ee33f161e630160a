// Runs of consecutive record ids, and a range [start, end) cut into
// consecutive chunks of a fixed size (the last one cut short at `end`): the
// shape of the YCSB loaders' per-thread ranges and per-transaction batches.
module Intervals {
  function Min(a: int, b: int): int { if a <= b then a else b }

  /** The ids a, a + 1, .., b - 1 in ascending order; empty when b <= a. */
  function Interval(a: int, b: int): (s: seq<int>)
    ensures |s| == if b > a then b - a else 0
    ensures forall k :: 0 <= k < |s| ==> s[k] == a + k
  {
    if b <= a then [] else seq(b - a, k requires 0 <= k < b - a => a + k)
  }

  /** Two adjacent runs make one. */
  lemma IntervalAppend(a: int, b: int, c: int)
    requires a <= b <= c
    ensures Interval(a, b) + Interval(b, c) == Interval(a, c)
  {
    var s := Interval(a, b) + Interval(b, c);
    assert |s| == |Interval(a, c)|;
    forall k | 0 <= k < |s| ensures s[k] == Interval(a, c)[k] {
      if k >= b - a {
        assert s[k] == Interval(b, c)[k - (b - a)];
      }
    }
  }

  /** The ids the first `count` chunks of [start, end) cover, chunk i being [start + size * i, min(start + size * (i + 1), end)). */
  function Chunks(start: int, end: int, size: nat, count: nat): seq<int>
    decreases count
  {
    if count == 0 then []
    else Chunks(start, end, size, count - 1) + Interval(start + size * (count - 1), Min(start + size * count, end))
  }

  /** The chunks run without gap or overlap from `start` to where the last of them stops. */
  lemma {:induction false} ChunksCover(start: int, end: int, size: nat, count: nat)
    ensures Chunks(start, end, size, count) == Interval(start, Min(start + size * count, end))
    decreases count
  {
    if count > 0 {
      ChunksCover(start, end, size, count - 1);
      var a := start + size * (count - 1);
      assert a + size == start + size * count;
      assert start <= a;
      if a < end {
        IntervalAppend(start, a, Min(a + size, end));
      }
    }
  }

  lemma MulMono(a: int, b: int, size: nat)
    requires a <= b
    ensures a * size <= b * size
  {
  }

  /**
   * `total` cut into `count` slices of total / count ids (Java's int division
   * for non-negative operands): slice t starts at or after 0, the next one
   * starts size ids later, and none ends past `total`.
   */
  lemma EvenSlices(t: int, count: int, total: int)
    requires 0 <= t < count && 0 <= total
    ensures 0 <= total / count
    ensures 0 <= t * (total / count)
    ensures (t + 1) * (total / count) == t * (total / count) + total / count
    ensures (t + 1) * (total / count) <= total
  {
    var size := total / count;
    assert size * count + total % count == total;
    MulMono(t + 1, count, size);
  }
}
