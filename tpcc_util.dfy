// The TPC-C input generators of TpccUtil: the syllable last names of clause
// 4.3.2.3, NURand of clause 2.1.6 with its run-time constants, random
// alphanumeric strings and the "ORIGINAL" marker string, and the midpoint
// rule for customer lookups by last name.  Every random draw is a parameter
// whose range the `requires` clause states.
module TpccUtil {
  import opened Wrappers
  import opened JavaInt
  import opened Text
  import opened Schema

  const NAME_TOKENS: seq<string> :=
    ["BAR", "OUGHT", "ABLE", "PRI", "PRES", "ESE", "ANTI", "CALLY", "ATION", "EING"]

  const CUSTOMER_LASTNAME_IN_LOAD: int := 250
  const CUSTOMER_LASTNAME_IN_RUN: int := 150
  const CUSTOMER_ID: int := 987
  const ORDER_LINE_ITEM_ID: int := 5987

  // ---- last names ------------------------------------------------------------

  /** A syllable table whose entries have 3 to 5 letters and pairwise different first three letters. */
  predicate ValidTokens(t: seq<string>)
  {
    && |t| == 10
    && (forall i :: 0 <= i < 10 ==> 3 <= |t[i]| <= 5)
    && (forall i, j :: 0 <= i < 10 && 0 <= j < 10 && Head3(t, i) == Head3(t, j) ==> i == j)
  }

  /** The first three letters of syllable `i`. */
  function Head3(t: seq<string>, i: int): string
  {
    if 0 <= i < |t| && |t[i]| >= 3 then t[i][..3] else []
  }

  /** The name spelled by the digits of `num` (hundreds, tens, units) in the syllable table `t`. */
  function Syllables(t: seq<string>, num: int): (s: string)
    requires ValidTokens(t) && 0 <= num <= 999
    ensures 9 <= |s| <= 15
  {
    t[num / 100] + t[(num / 10) % 10] + t[num % 10]
  }

  /** The first syllable at index `from` or later that `s` starts with. */
  function FindToken(t: seq<string>, s: string, from: nat): (r: Option<nat>)
    requires ValidTokens(t)
    ensures r.Some? ==> from <= r.value < 10 && t[r.value] <= s
    decreases 10 - from, s  // s keeps the measure from being a constant, which the verifier would unroll
  {
    if from >= 10 then None
    else if t[from] <= s then Some(from)
    else FindToken(t, s, from + 1)
  }

  /** The syllable `s` starts with and what follows it. */
  function ParseToken(t: seq<string>, s: string): (r: Option<(nat, string)>)
    requires ValidTokens(t)
    ensures r.Some? ==> r.value.0 < 10 && s == t[r.value.0] + r.value.1
  {
    var i :- FindToken(t, s, 0);
    assert s == t[i] + s[|t[i]|..];
    Some((i, s[|t[i]|..]))
  }

  /** The syllables `ds` (digits 0..9) written one after another. */
  function Join(t: seq<string>, ds: seq<nat>): string
    requires ValidTokens(t) && forall k :: 0 <= k < |ds| ==> ds[k] < 10
  {
    if |ds| == 0 then [] else t[ds[0]] + Join(t, ds[1..])
  }

  /** Splits a string into syllables of `t`, or fails if it is not made of them. */
  function ParseNames(t: seq<string>, s: string): (r: Option<seq<nat>>)
    requires ValidTokens(t)
    ensures r.Some? ==> forall k :: 0 <= k < |r.value| ==> r.value[k] < 10
    decreases |s|
  {
    if s == [] then Some([])
    else
      var first :- ParseToken(t, s);
      var rest :- ParseNames(t, first.1);
      Some([first.0] + rest)
  }

  /** Reads a name of three syllables back into the number it was built from. */
  function ParseSyllables(t: seq<string>, s: string): (r: Option<int>)
    requires ValidTokens(t)
    ensures r.Some? ==> 0 <= r.value <= 999
  {
    var ds :- ParseNames(t, s);
    if |ds| == 3 then Some(100 * ds[0] + 10 * ds[1] + ds[2]) else None
  }

  lemma {:induction false} FindTokenOf(t: seq<string>, i: nat, rest: string, from: nat)
    requires ValidTokens(t) && from <= i < 10
    ensures FindToken(t, t[i] + rest, from) == Some(i)
    decreases 10 - from
  {
    if from < i {
      assert Head3(t, from) != Head3(t, i);
      FindTokenOf(t, i, rest, from + 1);
    }
  }

  lemma ParseTokenOf(t: seq<string>, i: nat, rest: string)
    requires ValidTokens(t) && i < 10
    ensures ParseToken(t, t[i] + rest) == Some((i, rest))
  {
    FindTokenOf(t, i, rest, 0);
    assert (t[i] + rest)[|t[i]|..] == rest;
  }

  /** Splitting joined syllables gives the syllables back. */
  lemma {:induction false} ParseNamesJoin(t: seq<string>, ds: seq<nat>)
    requires ValidTokens(t) && forall k :: 0 <= k < |ds| ==> ds[k] < 10
    ensures ParseNames(t, Join(t, ds)) == Some(ds)
    decreases |ds|
  {
    if |ds| > 0 {
      var rest := Join(t, ds[1..]);
      ParseTokenOf(t, ds[0], rest);
      ParseNamesJoin(t, ds[1..]);
      assert [ds[0]] + ds[1..] == ds;
    }
  }

  lemma DigitsOf(num: int)
    requires 0 <= num <= 999
    ensures 100 * (num / 100) + 10 * ((num / 10) % 10) + num % 10 == num
  {
    var q := num / 10;
    assert num == 10 * q + num % 10;
    assert q == 10 * (q / 10) + q % 10;
    assert q / 10 == num / 100;
  }

  lemma ParseThree(t: seq<string>, a: nat, b: nat, c: nat)
    requires ValidTokens(t) && a < 10 && b < 10 && c < 10
    ensures ParseSyllables(t, t[a] + t[b] + t[c]) == Some(100 * a + 10 * b + c)
  {
    var ds: seq<nat> := [a, b, c];
    assert Join(t, ds[2..]) == t[c] + [];
    assert Join(t, ds[1..]) == t[b] + Join(t, ds[2..]);
    assert t[a] + t[b] + t[c] == Join(t, ds);
    ParseNamesJoin(t, ds);
  }

  /** Decoding a name built from a valid table gives back its number. */
  lemma SyllablesRoundTrip(t: seq<string>, num: int)
    requires ValidTokens(t) && 0 <= num <= 999
    ensures ParseSyllables(t, Syllables(t, num)) == Some(num)
  {
    ParseThree(t, num / 100, (num / 10) % 10, num % 10);
    DigitsOf(num);
  }

  function TokenPrefixes(): seq<string>
  {
    seq(10, i requires 0 <= i < 10 => NAME_TOKENS[i][..3])
  }

  /** The syllables of clause 4.3.2.3 form a valid table. */
  lemma NameTokensValid()
    ensures ValidTokens(NAME_TOKENS)
  {
    var p := TokenPrefixes();
    assert p[0] == "BAR";
    assert p[1] == "OUG";
    assert p[2] == "ABL";
    assert p[3] == "PRI";
    assert p[4] == "PRE";
    assert p[5] == "ESE";
    assert p[6] == "ANT";
    assert p[7] == "CAL";
    assert p[8] == "ATI";
    assert p[9] == "EIN";
  }

  /** getLastName(num) for num in [0, 999]; any other num indexes outside NAME_TOKENS. */
  function LastName(num: int): (s: string)
    requires 0 <= num <= 999
    ensures 9 <= |s| <= 15
  {
    NameTokensValid();
    Syllables(NAME_TOKENS, num)
  }

  function ParseLastName(s: string): (r: Option<int>)
    ensures r.Some? ==> 0 <= r.value <= 999
  {
    NameTokensValid();
    ParseSyllables(NAME_TOKENS, s)
  }

  /** Decoding a generated last name gives back its number. */
  lemma LastNameRoundTrip(num: int)
    requires 0 <= num <= 999
    ensures ParseLastName(LastName(num)) == Some(num)
  {
    NameTokensValid();
    SyllablesRoundTrip(NAME_TOKENS, num);
  }

  /** Different numbers give different last names. */
  lemma LastNameInjective(m: int, n: int)
    requires 0 <= m <= 999 && 0 <= n <= 999
    ensures LastName(m) == LastName(n) <==> m == n
  {
    LastNameRoundTrip(m);
    LastNameRoundTrip(n);
  }

  // ---- NURand ------------------------------------------------------------------

  /** The run-time constant C of NURand(A, x, y); other values of A get 0. */
  function Constant(a: int, isLoad: bool): (c: int)
    ensures 0 <= c <= 5987
    ensures c != 0 <==> a == 255 || a == 1023 || a == 8191
    ensures c != 0 ==> c <= a
    ensures a == 255 ==> c == (if isLoad then CUSTOMER_LASTNAME_IN_LOAD else CUSTOMER_LASTNAME_IN_RUN)
  {
    if a == 255 then (if isLoad then CUSTOMER_LASTNAME_IN_LOAD else CUSTOMER_LASTNAME_IN_RUN)
    else if a == 1023 then CUSTOMER_ID
    else if a == 8191 then ORDER_LINE_ITEM_ID
    else 0
  }

  /** Clause 2.1.6.1: the load and run constants for last names differ by 65..119, but not by 96 or 112. */
  lemma LastNameConstantsDelta()
    ensures var delta := Abs(Constant(255, true) - Constant(255, false));
            65 <= delta <= 119 && delta != 96 && delta != 112
  {
  }

  /**
   * NURand(A, min, max) from the draws x in [0, A] and y in [min, max], in Java int
   * arithmetic: when `(x | y) + C` does not overflow, the result lies in [min, max]
   * and equals the mathematical formula.
   */
  function NonUniformRandom(a: int, min: int, max: int, isLoad: bool, x: int, y: int): (r: int)
    requires 0 <= a < TWO_31 && 0 <= min <= max < TWO_31
    requires 0 <= x <= a && min <= y <= max
    ensures IsInt32(r)
    ensures Or(x, y) + Constant(a, isLoad) < TWO_31 ==>
              min <= r <= max && r == (Or(x, y) + Constant(a, isLoad)) % (max - min + 1) + min
  {
    var n := Wrap32(max - min + 1);
    var s := Wrap32(Or(x, y) + Constant(a, isLoad));
    NonUniformRandomStep(s, n, min, max, Or(x, y) + Constant(a, isLoad));
    Wrap32(Rem(s, n) + min)
  }

  /** The last two steps of NURand, `% (max - min + 1)` and `+ min`, in int arithmetic. */
  lemma NonUniformRandomStep(s: int, n: int, min: int, max: int, sum: int)
    requires 0 <= min <= max < TWO_31 && n == Wrap32(max - min + 1) && IsInt32(s)
    requires 0 <= sum < TWO_31 ==> s == sum
    ensures n != 0
    ensures 0 <= sum < TWO_31 ==>
              min <= Wrap32(Rem(s, n) + min) <= max && Wrap32(Rem(s, n) + min) == sum % (max - min + 1) + min
  {
    if max - min + 1 == TWO_31 {
      assert n == -TWO_31;
    }
  }

  lemma {:induction false} Pow2Is(k: nat)
    requires k <= 31
    ensures k == 30 ==> Pow2(k) == 0x4000_0000
    ensures k == 31 ==> Pow2(k) == TWO_31
  {
    if k > 0 {
      Pow2Is(k - 1);
      if k >= 30 {
        Pow2Upper(k);
      }
    }
  }

  lemma {:induction false} Pow2Upper(k: nat)
    requires 29 <= k <= 31
    ensures Pow2(k) == if k == 29 then 0x2000_0000 else if k == 30 then 0x4000_0000 else TWO_31
  {
    if k > 29 {
      Pow2Upper(k - 1);
    } else {
      Pow2Values();
      assert Pow2(29) == Pow2(14) * Pow2(15) by { Pow2Add(14, 15); }
      assert Pow2(15) == 2 * Pow2(14);
    }
  }

  lemma {:induction false} Pow2Add(a: nat, b: nat)
    ensures Pow2(a + b) == Pow2(a) * Pow2(b)
    decreases b
  {
    if b > 0 {
      Pow2Add(a, b - 1);
    }
  }

  /** With A and max below 2^30 (all of TPC-C's uses) the sum never overflows, so NURand stays in range. */
  lemma NonUniformRandomInRange(a: int, min: int, max: int, isLoad: bool, x: int, y: int)
    requires 0 <= a < 0x4000_0000 && 0 <= min <= max < 0x4000_0000
    requires 0 <= x <= a && min <= y <= max
    ensures min <= NonUniformRandom(a, min, max, isLoad, x, y) <= max
  {
    Pow2Is(30);
    OrBound(x, y, 30);
  }

  /**
   * NURand over the integers, ((x | y) + C) % (max - min + 1) + min: what the
   * Java int arithmetic computes for every A and max below 2^30
   * (NonUniformRandomIsInt).
   */
  function NonUniformRandomInt(a: int, min: int, max: int, isLoad: bool, x: int, y: int): (r: int)
    requires 0 <= min <= max && 0 <= x && 0 <= y
    ensures min <= r <= max
  {
    (Or(x, y) + Constant(a, isLoad)) % (max - min + 1) + min
  }

  /** With A and max below 2^30 the Java int NURand never overflows and equals the integer formula. */
  lemma NonUniformRandomIsInt(a: int, min: int, max: int, isLoad: bool, x: int, y: int)
    requires 0 <= a < 0x4000_0000 && 0 <= min <= max < 0x4000_0000
    requires 0 <= x <= a && min <= y <= max
    ensures NonUniformRandom(a, min, max, isLoad, x, y) == NonUniformRandomInt(a, min, max, isLoad, x, y)
  {
    Pow2Is(30);
    OrBound(x, y, 30);
  }

  /** A customer id for a transaction: NURand(1023, 1, 3000). */
  function CustomerId(x: int, y: int): (r: int)
    requires 0 <= x <= 1023 && 1 <= y <= CUSTOMERS
    ensures 1 <= r <= CUSTOMERS
  {
    NonUniformRandomInt(1023, 1, CUSTOMERS, false, x, y)
  }

  /** An item id for a transaction: NURand(8191, 1, 100000). */
  function ItemId(x: int, y: int): (r: int)
    requires 0 <= x <= 8191 && 1 <= y <= ITEMS
    ensures 1 <= r <= ITEMS
  {
    NonUniformRandomInt(8191, 1, ITEMS, false, x, y)
  }

  /** The last name drawn as NURand(255, 0, 999) with the run or the load constant. */
  function RandomLastName(isLoad: bool, x: int, y: int): (s: string)
    requires 0 <= x <= 255 && 0 <= y <= 999
    ensures exists n :: 0 <= n <= 999 && s == LastName(n)
  {
    LastName(NonUniformRandomInt(255, 0, 999, isLoad, x, y))
  }

  // ---- random strings ------------------------------------------------------------

  function CharAt(i: nat): char
    requires i < 62
  {
    if i < 10 then (48 + i) as char else if i < 36 then (55 + i) as char else (61 + i) as char
  }

  /** "0123456789ABCDEFGHIJKLMNOPQRSTUVWXYZabcdefghijklmnopqrstuvwxyz" */
  const CHARACTERS: string := seq(62, i requires 0 <= i < 62 => CharAt(i))

  predicate IsAlnum(c: char) { '0' <= c <= '9' || 'A' <= c <= 'Z' || 'a' <= c <= 'z' }

  lemma CharactersFacts()
    ensures |CHARACTERS| == 62
    ensures forall i :: 0 <= i < 10 ==> IsDigit(CHARACTERS[i])
    ensures forall i :: 0 <= i < 62 ==> IsAlnum(CHARACTERS[i])
  {
  }

  /** A string randomAlphaString(min, max) can return: alphanumerics of a length in range. */
  predicate IsAlphaString(s: string, minLength: int, maxLength: int)
  {
    minLength <= |s| <= maxLength && forall i :: 0 <= i < |s| ==> IsAlnum(s[i])
  }

  /** A string randomNumberString(min, max) can return: digits of a length in range. */
  predicate IsNumberString(s: string, minLength: int, maxLength: int)
  {
    minLength <= |s| <= maxLength && forall i :: 0 <= i < |s| ==> IsDigit(s[i])
  }

  /**
   * randomString: the length is drawn in [minLength, maxLength] (here `|draws|`),
   * then each character is CHARACTERS[draw] with the draw in [0, 9] for numbers
   * only and in [0, 61] otherwise.
   */
  method RandomString(minLength: int, maxLength: int, numberOnly: bool, draws: seq<int>) returns (s: string)
    requires minLength <= |draws| <= maxLength
    requires forall i :: 0 <= i < |draws| ==> 0 <= draws[i] <= (if numberOnly then 9 else 61)
    ensures |s| == |draws|
    ensures forall i :: 0 <= i < |s| ==> s[i] == CHARACTERS[draws[i]]
    ensures numberOnly ==> IsNumberString(s, minLength, maxLength)
    ensures IsAlphaString(s, minLength, maxLength)
  {
    CharactersFacts();
    var bytes := new char[|draws|];
    for i := 0 to |draws|
      invariant forall j :: 0 <= j < i ==> bytes[j] == CHARACTERS[draws[j]]
    {
      bytes[i] := CHARACTERS[draws[i]];
    }
    s := bytes[..];
  }

  /**
   * getRandomStringWithOriginal: `base` is the drawn alphanumeric string; when
   * `draw` (in [0, 99]) is below `rate`, "ORIGINAL" overwrites the eight
   * characters from `start`, a draw in [0, |base| - 8].
   */
  function RandomStringWithOriginal(base: string, rate: int, draw: int, start: int): (r: string)
    requires 0 <= draw <= 99
    requires draw < rate ==> 0 <= start <= |base| - 8
    ensures |r| == |base|
    ensures draw < rate ==> r[start..start + 8] == "ORIGINAL"
    ensures draw < rate ==> forall i :: 0 <= i < |r| && !(start <= i < start + 8) ==> r[i] == base[i]
    ensures draw >= rate ==> r == base
  {
    if draw < rate then base[..start] + "ORIGINAL" + base[start + 8..] else base
  }

  /**
   * The draws getRandomStringWithOriginal(minLength, maxLength, rate) makes: an
   * alphanumeric base of a length in range, a percentile in [0, 99] and, when
   * the percentile is below the rate, a start in [0, length - 8].
   */
  predicate OriginalDraws(base: string, minLength: int, maxLength: int, rate: int, draw: int, start: int)
  {
    IsAlphaString(base, minLength, maxLength) && 0 <= draw <= 99 && (draw < rate ==> 0 <= start <= |base| - 8)
  }

  /** Every alphanumeric string with the marker is still alphanumeric. */
  lemma WithOriginalIsAlpha(base: string, minLength: int, maxLength: int, rate: int, draw: int, start: int)
    requires IsAlphaString(base, minLength, maxLength) && 0 <= draw <= 99
    requires draw < rate ==> 0 <= start <= |base| - 8
    ensures IsAlphaString(RandomStringWithOriginal(base, rate, draw, start), minLength, maxLength)
  {
    var r := RandomStringWithOriginal(base, rate, draw, start);
    if draw < rate {
      forall i | 0 <= i < |r| ensures IsAlnum(r[i]) {
        if start <= i < start + 8 {
          assert r[i] == "ORIGINAL"[i - start];
        }
      }
    }
  }

  /** randomDouble(min, max, divider): the draw scaled down by the divider. */
  function RandomDouble(min: int, max: int, divider: int, draw: int): (r: real)
    requires min <= draw <= max && divider > 0
    ensures min as real / divider as real <= r <= max as real / divider as real
  {
    draw as real / divider as real
  }

  // ---- customer lookup by last name ------------------------------------------------

  /** The offset `(n + 1) / 2 - 1` of the midpoint row of `n` rows sharing a last name. */
  function MidpointOffset(n: int): (r: int)
    requires n >= 0
    ensures 0 <= r < n <==> n >= 1
    ensures n >= 1 ==> r <= n - 1 - r <= r + 1
  {
    (n + 1) / 2 - 1
  }
}
