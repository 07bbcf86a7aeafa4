/** Decimal printing as done by itoa, and parsing as done by `str::parse::<i64>`. */
module Decimal {
  import opened Bytes

  const I64_MIN: int := -0x8000_0000_0000_0000
  const I64_MAX: int := 0x7FFF_FFFF_FFFF_FFFF

  predicate IsI64(n: int) {
    I64_MIN <= n <= I64_MAX
  }

  const ZERO: byte := 48
  const MINUS: byte := 45
  const PLUS: byte := 43

  predicate IsDigit(b: byte) {
    48 <= b <= 57
  }

  predicate AllDigits(s: bytes) {
    forall i :: 0 <= i < |s| ==> IsDigit(s[i])
  }

  function Digits(n: nat): (s: bytes)
    ensures s != [] && AllDigits(s)
  {
    if n < 10 then [ZERO + n] else Digits(n / 10) + [ZERO + n % 10]
  }

  /** The text itoa writes for an integer. */
  function Print(n: int): bytes {
    if n < 0 then [MINUS] + Digits(-n) else Digits(n)
  }

  function Value(s: bytes): nat
    requires AllDigits(s)
  {
    if s == [] then 0 else 10 * Value(s[..|s| - 1]) + (s[|s| - 1] - ZERO)
  }

  /** An optional sign, at least one digit, nothing else, and a result within 64 bits. */
  function Parse(s: bytes): (r: Option<int>)
    ensures r.Some? ==> IsI64(r.value)
  {
    var digits := if s != [] && (s[0] == PLUS || s[0] == MINUS) then s[1..] else s;
    if digits == [] || !AllDigits(digits) then None
    else
      var magnitude: int := Value(digits);
      var n := if s[0] == MINUS then -magnitude else magnitude;
      if IsI64(n) then Some(n) else None
  }

  lemma {:induction false} ValueOfDigits(n: nat)
    ensures Value(Digits(n)) == n
  {
    if n >= 10 {
      ValueOfDigits(n / 10);
      var s := Digits(n);
      assert s[..|s| - 1] == Digits(n / 10);
    }
  }

  function Bounded(n: int): Option<int> {
    if IsI64(n) then Some(n) else None
  }

  lemma ParseUnsigned(digits: bytes)
    requires digits != [] && AllDigits(digits)
    ensures Parse(digits) == Bounded(Value(digits))
  {
    hide Value;
    assert IsDigit(digits[0]);
  }

  lemma ParseSigned(digits: bytes, sign: byte)
    requires digits != [] && AllDigits(digits) && (sign == PLUS || sign == MINUS)
    ensures var n: int := Value(digits);
      Parse([sign] + digits) == Bounded(if sign == MINUS then -n else n)
  {
    hide Value;
    assert ([sign] + digits)[1..] == digits;
  }

  /** Printing and parsing undo each other on every 64-bit integer. */
  lemma ParsePrint(n: int)
    requires IsI64(n)
    ensures Parse(Print(n)) == Some(n)
  {
    hide Parse, Value, Digits;
    if n < 0 {
      ValueOfDigits(-n);
      ParseSigned(Digits(-n), MINUS);
    } else {
      ValueOfDigits(n);
      ParseUnsigned(Digits(n));
    }
  }

  lemma PrintInjective(m: int, n: int)
    requires Print(m) == Print(n)
    ensures m == n
  {
    assert IsDigit(Digits(if m < 0 then -m else m)[0]) && IsDigit(Digits(if n < 0 then -n else n)[0]);
    if m < 0 {
      assert Print(m)[1..] == Digits(-m) && Print(n)[1..] == Digits(-n);
    }
    ValueOfDigits(if m < 0 then -m else m);
    ValueOfDigits(if n < 0 then -n else n);
  }

  function Pow10(k: nat): nat {
    if k == 0 then 1 else 10 * Pow10(k - 1)
  }

  lemma {:induction false} DigitCount(n: nat, k: nat)
    requires 1 <= k && n < Pow10(k)
    ensures |Digits(n)| <= k
  {
    if n >= 10 {
      DigitCount(n / 10, k - 1);
    }
  }

  // ---- The notation. ----

  /** Numbers are written in base ten, without leading zeros, and with a sign only if negative. */
  lemma BaseTen(n: int, d: nat)
    requires n >= 0 && d < 10
    ensures Print(d) == [48 + d]
    ensures n > 0 ==> Print(10 * n + d) == Print(n) + [48 + d] && Print(-n) == [45] + Print(n)
  {
  }

  /** Digits are read in base ten, leading zeros included. */
  lemma ReadBaseTen(s: bytes, d: nat)
    requires AllDigits(s) && d < 10
    ensures Value([]) == 0 && AllDigits(s + [48 + d]) && Value(s + [48 + d]) == 10 * Value(s) + d
  {
    assert (s + [48 + d])[..|s|] == s;
  }

  /** An optional sign of either kind and at least one digit, if the result is within 64 bits. */
  lemma ParseIs(digits: bytes)
    requires digits != [] && forall i :: 0 <= i < |digits| ==> 48 <= digits[i] <= 57
    ensures AllDigits(digits)
    ensures var n: int := Value(digits);
      Parse(digits) == Parse([43] + digits) == (if n <= 9223372036854775807 then Some(n) else None)
      && Parse([45] + digits) == if n <= 9223372036854775808 then Some(-n) else None
  {
    ParseUnsigned(digits);
    ParseSigned(digits, 43);
    ParseSigned(digits, 45);
  }

  /** Nothing else is a number. */
  lemma ParseNothingElse(s: bytes)
    requires Parse(s).Some?
    ensures s != [] && (48 <= s[0] <= 57 || (|s| >= 2 && s[0] in {43, 45}))
    ensures forall i :: 1 <= i < |s| ==> 48 <= s[i] <= 57
  {
    if s[0] == 43 || s[0] == 45 {
      forall i | 1 <= i < |s| ensures 48 <= s[i] <= 57 {
        assert IsDigit(s[1..][i - 1]);
      }
    } else {
      assert forall i :: 0 <= i < |s| ==> IsDigit(s[i]);
    }
  }

  lemma ParsedIsAscii(s: bytes)
    requires Parse(s).Some?
    ensures forall i :: 0 <= i < |s| ==> s[i] < 0x80
  {
    ParseNothingElse(s);
  }
}
