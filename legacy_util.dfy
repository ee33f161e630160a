// The generators of the older benchmark driver (TPCCUtil).  Its randomInt
// scales a uniform double u in [0, 1) and casts it to int, so every draw here
// is such a `u`.  Last names and NURand use the same syllables, formula and
// constants as TpccUtil; item ids come from [1, 100]; and the marker string
// is built from three separately drawn pieces.
module LegacyUtil {
  import opened Wrappers
  import opened JavaInt
  import opened Schema
  import TpccUtil

  const NAME_TOKENS: seq<string> :=
    ["BAR", "OUGHT", "ABLE", "PRI", "PRES", "ESE", "ANTI", "CALLY", "ATION", "EING"]

  const LEGACY_ITEMS: int := 100   // the item range getItemId draws from

  /** Java's `(int)` cast of a double within int range: truncation toward zero. */
  function TruncateToInt(v: real): (r: int)
    ensures v >= 0.0 ==> r as real <= v < r as real + 1.0
    ensures v < 0.0 ==> r as real - 1.0 < v <= r as real
  {
    if v >= 0.0 then v.Floor else -((-v).Floor)
  }

  /**
   * randomInt(min, max) = (int) (u * (max - min + 1) + min).  For min >= 0 the
   * result lies in [min, max]; below zero the truncation can give max + 1.
   */
  function RandomInt(min: int, max: int, u: real): (r: int)
    requires 0.0 <= u < 1.0 && min <= max
    ensures min <= r <= max + 1
    ensures min >= 0 ==> r <= max
  {
    var span := (max - min + 1) as real;
    ScaleBelow(u, span);
    var scaled := u * span;
    var v := scaled + min as real;
    assert 0.0 <= scaled < span;
    assert span + min as real == (max + 1) as real;
    assert min as real <= v < (max + 1) as real;
    TruncateToInt(v)
  }

  /** A fraction u in [0, 1) of a positive span lies in [0, span). */
  lemma ScaleBelow(u: real, span: real)
    requires 0.0 <= u < 1.0 && span > 0.0
    ensures 0.0 <= u * span < span
  {
    assert span - u * span == (1.0 - u) * span;
  }

  /** With min < 0 the truncation really can return max + 1, outside the requested range. */
  lemma RandomIntAboveMax()
    ensures RandomInt(-1, -1, 0.5) == 0
  {
  }

  function RandomDouble(min: int, max: int, divider: int, u: real): (r: real)
    requires 0.0 <= u < 1.0 && 0 <= min <= max && divider > 0
    ensures min as real / divider as real <= r <= max as real / divider as real
  {
    RandomInt(min, max, u) as real / divider as real
  }

  /** The legacy syllables are those of TpccUtil, so its last names are too. */
  function LastName(num: int): (s: string)
    requires 0 <= num <= 999
    ensures s == TpccUtil.LastName(num)
  {
    assert NAME_TOKENS == TpccUtil.NAME_TOKENS;
    TpccUtil.NameTokensValid();
    TpccUtil.Syllables(NAME_TOKENS, num)
  }

  /** NURand on the legacy draws x = randomInt(0, A) and y = randomInt(min, max), with TpccUtil's formula and constants. */
  function NonUniformRandom(a: int, min: int, max: int, isLoad: bool, ux: real, uy: real): (r: int)
    requires 0 <= a < 0x4000_0000 && 0 <= min <= max < 0x4000_0000
    requires 0.0 <= ux < 1.0 && 0.0 <= uy < 1.0
    ensures min <= r <= max
  {
    var x := RandomInt(0, a, ux);
    var y := RandomInt(min, max, uy);
    TpccUtil.NonUniformRandomInRange(a, min, max, isLoad, x, y);
    TpccUtil.NonUniformRandom(a, min, max, isLoad, x, y)
  }

  function CustomerId(ux: real, uy: real): (r: int)
    requires 0.0 <= ux < 1.0 && 0.0 <= uy < 1.0
    ensures 1 <= r <= CUSTOMERS
  {
    NonUniformRandom(1023, 1, CUSTOMERS, false, ux, uy)
  }

  /** getItemId draws from [1, 100], not from the whole item table. */
  function ItemId(ux: real, uy: real): (r: int)
    requires 0.0 <= ux < 1.0 && 0.0 <= uy < 1.0
    ensures 1 <= r <= LEGACY_ITEMS < ITEMS
  {
    NonUniformRandom(8191, 1, LEGACY_ITEMS, false, ux, uy)
  }

  function RandomLastName(isLoad: bool, ux: real, uy: real): (s: string)
    requires 0.0 <= ux < 1.0 && 0.0 <= uy < 1.0
    ensures exists n :: 0 <= n <= 999 && s == TpccUtil.LastName(n)
  {
    LastName(NonUniformRandom(255, 0, 999, isLoad, ux, uy))
  }

  /**
   * randomString: the length is randomInt(minLength, maxLength, uLength); a
   * negative length makes `new byte[length]` throw (None); otherwise character
   * i is CHARACTERS[randomInt(0, offset, draws[i])].
   */
  method RandomString(minLength: int, maxLength: int, numberOnly: bool, uLength: real, draws: seq<real>)
    returns (s: Option<string>)
    requires 0.0 <= uLength < 1.0 && minLength <= maxLength
    requires forall i :: 0 <= i < |draws| ==> 0.0 <= draws[i] < 1.0
    requires |draws| == if RandomInt(minLength, maxLength, uLength) < 0 then 0 else RandomInt(minLength, maxLength, uLength)
    ensures s.None? <==> RandomInt(minLength, maxLength, uLength) < 0
    ensures s.Some? ==> |s.value| == |draws|
    ensures s.Some? ==> forall i :: 0 <= i < |draws| ==>
              s.value[i] == TpccUtil.CHARACTERS[RandomInt(0, if numberOnly then 9 else 61, draws[i])]
    ensures s.Some? && numberOnly ==> forall i :: 0 <= i < |draws| ==> TpccUtil.Text.IsDigit(s.value[i])
    ensures s.Some? ==> forall i :: 0 <= i < |draws| ==> TpccUtil.IsAlnum(s.value[i])
  {
    TpccUtil.CharactersFacts();
    var length := RandomInt(minLength, maxLength, uLength);
    if length < 0 {
      return None;
    }
    var offset := if numberOnly then 9 else 61;
    var bytes := new char[length];
    for i := 0 to length
      invariant forall j :: 0 <= j < i ==> bytes[j] == TpccUtil.CHARACTERS[RandomInt(0, offset, draws[j])]
    {
      bytes[i] := TpccUtil.CHARACTERS[RandomInt(0, offset, draws[i])];
    }
    s := Some(bytes[..]);
  }

  /** The length randomAlphaString(n) produces from its length draw; below zero it throws. */
  function AlphaLength(n: int, u: real): int
    requires 0.0 <= u < 1.0
  {
    RandomInt(n, n, u)
  }

  /**
   * getRandomStringWithOriginal as written: `rate` is ignored and 10 used; in the
   * marker case the result is randomAlphaString(start - 1) + "ORIGINAL" +
   * randomAlphaString(length - start - 9) with start = randomInt(2, length - 8).
   * `prefix`, `suffix` and `plain` are the strings those calls return; None is
   * the exception a negative suffix length raises.
   */
  function RandomStringWithOriginal(length: int, rate: int, marker: int, start: int, uSuffix: real,
                                    prefix: string, suffix: string, plain: string): (r: Option<string>)
    requires 0 <= marker <= 99 && 0.0 <= uSuffix < 1.0 && |plain| == length
    requires marker < 10 ==> 2 <= start <= length - 8 && |prefix| == start - 1
    requires marker < 10 && AlphaLength(length - start - 9, uSuffix) >= 0 ==>
               |suffix| == AlphaLength(length - start - 9, uSuffix)
    ensures marker >= 10 ==> r == Some(plain)
    ensures marker < 10 ==> (r.None? <==> start == length - 8 && uSuffix == 0.0)
    ensures marker < 10 && r.Some? ==> |r.value| >= start + 7 && r.value[start - 1..start + 7] == "ORIGINAL"
    ensures marker < 10 && start <= length - 9 ==> r.Some? && |r.value| == length - 2
    ensures marker < 10 && start == length - 8 && r.Some? ==> |r.value| == length - 1
  {
    if marker < 10 then
      if AlphaLength(length - start - 9, uSuffix) < 0 then None
      else Some(prefix + "ORIGINAL" + suffix)
    else Some(plain)
  }

  /** The rate argument makes no difference. */
  lemma RateIgnored(length: int, rate1: int, rate2: int, marker: int, start: int, uSuffix: real,
                    prefix: string, suffix: string, plain: string)
    requires 0 <= marker <= 99 && 0.0 <= uSuffix < 1.0 && |plain| == length
    requires marker < 10 ==> 2 <= start <= length - 8 && |prefix| == start - 1
    requires marker < 10 && AlphaLength(length - start - 9, uSuffix) >= 0 ==>
               |suffix| == AlphaLength(length - start - 9, uSuffix)
    ensures RandomStringWithOriginal(length, rate1, marker, start, uSuffix, prefix, suffix, plain)
         == RandomStringWithOriginal(length, rate2, marker, start, uSuffix, prefix, suffix, plain)
  {
  }

  /** A drawn length of 26 with the marker at 2 yields 24 characters, not 26. */
  lemma WithOriginalDropsTwo(prefix: string, suffix: string, plain: string)
    requires |plain| == 26 && |prefix| == 1 && |suffix| == 15
    ensures var r := RandomStringWithOriginal(26, 10, 0, 2, 0.0, prefix, suffix, plain);
            r.Some? && |r.value| == 24
  {
  }
}
