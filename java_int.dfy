// Java `int` arithmetic on Dafny's unbounded integers: two's-complement
// wrap-around, the truncating remainder and the bitwise OR of non-negative
// values, written out explicitly.
module JavaInt {
  const TWO_31: int := 0x8000_0000
  const TWO_32: int := 0x1_0000_0000

  predicate IsInt32(x: int) { -TWO_31 <= x < TWO_31 }

  /** The value a Java `int` expression takes once `x` is computed modulo 2^32. */
  function Wrap32(x: int): (r: int)
    ensures IsInt32(r)
    ensures (r - x) % TWO_32 == 0
    ensures IsInt32(x) ==> r == x
    ensures TWO_31 <= x < TWO_32 ==> r == x - TWO_32
  {
    var m := x % TWO_32;
    if m < TWO_31 then m else m - TWO_32
  }

  /** Java's `%`: the sign of the result follows the dividend. */
  function Rem(a: int, b: int): (r: int)
    requires b != 0
    ensures a >= 0 ==> 0 <= r < Abs(b)
    ensures a < 0 ==> -(Abs(b) as int) < r <= 0
    ensures a >= 0 && b > 0 ==> r == a % b
  {
    if a >= 0 then a % Abs(b) else -((-a) % Abs(b))
  }

  /** Java's `/` on ints: the quotient truncated toward zero. */
  function Quot(a: int, b: int): (q: int)
    requires b != 0
    ensures q * b + Rem(a, b) == a
    ensures a >= 0 && b > 0 ==> q == a / b
  {
    var m := Abs(a) / Abs(b);
    QuotRem(a, b, m);
    if (a >= 0) == (b > 0) then m else -m
  }

  lemma QuotRem(a: int, b: int, m: int)
    requires b != 0 && m == Abs(a) / Abs(b)
    ensures ((a >= 0) == (b > 0) ==> m * b + Rem(a, b) == a)
    ensures ((a >= 0) != (b > 0) ==> (-m) * b + Rem(a, b) == a)
  {
    var x, y := Abs(a), Abs(b);
    assert m * y + x % y == x;
    if b > 0 {
      assert y == b;
    } else {
      assert y == -b;
      assert (-m) * b == m * y;
      assert m * b == -(m * y);
    }
  }

  function Abs(x: int): (r: nat)
    ensures r == x || r == -x
  {
    if x < 0 then -x else x
  }

  function Pow2(k: nat): (r: nat)
    ensures r >= 1
  {
    if k == 0 then 1 else 2 * Pow2(k - 1)
  }

  /** Bitwise OR of two non-negative integers, bit by bit from the lowest. */
  function Or(a: nat, b: nat): nat
  {
    if a == 0 then b
    else if b == 0 then a
    else 2 * Or(a / 2, b / 2) + (if a % 2 == 1 || b % 2 == 1 then 1 else 0)
  }

  /** OR never sets a bit above the highest bit of its operands. */
  lemma {:induction false} OrBound(a: nat, b: nat, k: nat)
    requires a < Pow2(k) && b < Pow2(k)
    ensures Or(a, b) < Pow2(k)
  {
    if a != 0 && b != 0 {
      assert k > 0;
      OrBound(a / 2, b / 2, k - 1);
    }
  }

  /** OR keeps every bit of each operand, so it is at least as large as both. */
  lemma {:induction false} OrAtLeast(a: nat, b: nat)
    ensures Or(a, b) >= a && Or(a, b) >= b
  {
    if a != 0 && b != 0 {
      OrAtLeast(a / 2, b / 2);
    }
  }

  lemma Pow2Values()
    ensures Pow2(10) == 1024 && Pow2(13) == 8192 && Pow2(8) == 256 && Pow2(14) == 16384
  {
    assert Pow2(8) == 256;
    assert Pow2(10) == 1024;
    assert Pow2(13) == 8192;
  }
}
