// Strings as Java sees them: lexicographic comparison (String.compareTo),
// decimal rendering of ints (string concatenation and String.format("%0Nd"))
// and Integer.parseInt.
module Text {
  import opened Wrappers
  import opened JavaInt

  /** `a.compareTo(b) < 0`: the first differing character decides, and a proper prefix comes first. */
  predicate StrLess(a: string, b: string)
    decreases |a|
  {
    if |a| == 0 then |b| > 0
    else if |b| == 0 then false
    else a[0] < b[0] || (a[0] == b[0] && StrLess(a[1..], b[1..]))
  }

  lemma {:induction false} StrLessIrreflexive(a: string)
    ensures !StrLess(a, a)
    decreases |a|
  {
    if |a| > 0 { StrLessIrreflexive(a[1..]); }
  }

  lemma {:induction false} StrLessTransitive(a: string, b: string, c: string)
    requires StrLess(a, b) && StrLess(b, c)
    ensures StrLess(a, c)
    decreases |a|
  {
    if |a| > 0 && |b| > 0 && |c| > 0 && a[0] == b[0] == c[0] {
      StrLessTransitive(a[1..], b[1..], c[1..]);
    }
  }

  /** compareTo is a total order: two different strings are ordered one way or the other. */
  lemma {:induction false} StrLessTotal(a: string, b: string)
    requires a != b
    ensures StrLess(a, b) || StrLess(b, a)
    decreases |a|
  {
    if |a| > 0 && |b| > 0 && a[0] == b[0] {
      assert a == [a[0]] + a[1..] && b == [b[0]] + b[1..];
      StrLessTotal(a[1..], b[1..]);
    }
  }

  lemma {:induction false} StrLessAsymmetric(a: string, b: string)
    requires StrLess(a, b)
    ensures !StrLess(b, a)
  {
    if StrLess(b, a) {
      StrLessTransitive(a, b, a);
      StrLessIrreflexive(a);
    }
  }

  function DigitChar(d: int): char
    requires 0 <= d < 10
  {
    (48 + d) as char
  }

  predicate IsDigit(c: char) { '0' <= c <= '9' }

  function DigitValue(c: char): int
    requires IsDigit(c)
  {
    c as int - 48
  }

  /** The decimal digits of `n` with no leading zero ("0" for zero). */
  function Digits(n: nat): (s: string)
    ensures |s| >= 1
    ensures forall i :: 0 <= i < |s| ==> IsDigit(s[i])
    ensures n >= 10 ==> s[0] != '0'
    decreases n
  {
    if n < 10 then [DigitChar(n)] else Digits(n / 10) + [DigitChar(n % 10)]
  }

  /** The number spelled by a string of digits (leading zeros allowed). */
  function DigitsValue(s: string): (n: nat)
    requires forall i :: 0 <= i < |s| ==> IsDigit(s[i])
    decreases |s|
  {
    if |s| == 0 then 0 else 10 * DigitsValue(s[..|s| - 1]) + DigitValue(s[|s| - 1])
  }

  function Pow10(k: nat): (r: nat)
    ensures r >= 1
  {
    if k == 0 then 1 else 10 * Pow10(k - 1)
  }

  lemma {:induction false} DigitsRoundTrip(n: nat)
    ensures DigitsValue(Digits(n)) == n
    decreases n
  {
    var s := Digits(n);
    if n >= 10 {
      DigitsRoundTrip(n / 10);
      assert s[..|s| - 1] == Digits(n / 10);
    }
  }

  /** A number below 10^k has at most k digits. */
  lemma {:induction false} DigitsLength(n: nat, k: nat)
    requires n < Pow10(k)
    ensures |Digits(n)| <= k || (n == 0 && k == 0)
    decreases n
  {
    if n >= 10 {
      assert k >= 2;
      DigitsLength(n / 10, k - 1);
    }
  }

  lemma {:induction false} DigitsValueAppend(s: string, t: string)
    requires forall i :: 0 <= i < |s| ==> IsDigit(s[i])
    requires forall i :: 0 <= i < |t| ==> IsDigit(t[i])
    ensures forall i :: 0 <= i < |s + t| ==> IsDigit((s + t)[i])
    ensures DigitsValue(s + t) == DigitsValue(s) * Pow10(|t|) + DigitsValue(t)
    decreases |t|
  {
    if |t| > 0 {
      var u := s + t;
      var t' := t[..|t| - 1];
      assert u[..|u| - 1] == s + t';
      DigitsValueAppend(s, t');
      var d := DigitValue(t[|t| - 1]);
      assert DigitsValue(u) == 10 * DigitsValue(s + t') + d;
      assert DigitsValue(t) == 10 * DigitsValue(t') + d;
      assert Pow10(|t|) == 10 * Pow10(|t'|);
      ShiftDigit(DigitsValue(s), Pow10(|t'|), DigitsValue(t'), d);
    } else {
      assert s + t == s;
    }
  }

  lemma ShiftDigit(a: int, p: int, b: int, d: int)
    ensures 10 * (a * p + b) + d == a * (10 * p) + (10 * b + d)
  {
  }

  lemma {:induction false} ZerosValue(k: nat)
    ensures forall i :: 0 <= i < |Zeros(k)| ==> IsDigit(Zeros(k)[i])
    ensures DigitsValue(Zeros(k)) == 0
  {
    if k > 0 {
      assert Zeros(k)[..k - 1] == Zeros(k - 1);
      ZerosValue(k - 1);
    }
  }

  function Zeros(k: int): (s: string)
    ensures |s| == if k < 0 then 0 else k
    ensures forall i :: 0 <= i < |s| ==> s[i] == '0'
  {
    seq(if k < 0 then 0 else k, i => '0')
  }

  /** Java's decimal rendering of an int (`"" + n`, `Integer.toString`). */
  function ToDecimal(n: int): string
  {
    if n < 0 then "-" + Digits(-n) else Digits(n)
  }

  /** `String.format("%0<width>d", n)`: zeros are inserted after the sign up to `width` characters. */
  function ZeroPad(n: int, width: nat): (s: string)
    ensures n >= 0 ==> |s| >= width
  {
    if n >= 0 then Zeros(width - |Digits(n)|) + Digits(n)
    else "-" + Zeros(width - 1 - |Digits(-n)|) + Digits(-n)
  }

  /** For 0 <= n < 10^width the padded form has exactly `width` digits and reads back as `n`. */
  lemma ZeroPadExact(n: int, width: nat)
    requires 0 <= n < Pow10(width) && width >= 1
    ensures |ZeroPad(n, width)| == width
    ensures forall i :: 0 <= i < width ==> IsDigit(ZeroPad(n, width)[i])
    ensures DigitsValue(ZeroPad(n, width)) == n
  {
    var d := Digits(n);
    DigitsLength(n, width);
    var z := Zeros(width - |d|);
    assert ZeroPad(n, width) == z + d;
    assert |z| == width - |d|;
    ZerosValue(width - |d|);
    DigitsValueAppend(z, d);
    assert DigitsValue(z) * Pow10(|d|) == 0;
    DigitsRoundTrip(n);
  }

  /** `Integer.parseInt`: an optional sign, at least one digit, nothing else, and an int32 value. */
  function ParseInt(s: string): (r: Option<int>)
    ensures r.Some? ==> IsInt32(r.value)
  {
    var neg := |s| > 0 && s[0] == '-';
    var body := if |s| > 0 && (s[0] == '-' || s[0] == '+') then s[1..] else s;
    if |body| == 0 || !(forall i :: 0 <= i < |body| ==> IsDigit(body[i])) then None
    else
      var v := if neg then -(DigitsValue(body) as int) else DigitsValue(body);
      if IsInt32(v) then Some(v) else None
  }

  /** Every int prints as a string that Integer.parseInt reads back unchanged. */
  lemma ParseIntRoundTrip(n: int)
    requires IsInt32(n)
    ensures ParseInt(ToDecimal(n)) == Some(n)
  {
    var s := ToDecimal(n);
    if n < 0 {
      DigitsRoundTrip(-n);
      assert s[0] == '-' && s[1..] == Digits(-n);
    } else {
      DigitsRoundTrip(n);
      assert s == Digits(n) && IsDigit(s[0]);
    }
  }
}
