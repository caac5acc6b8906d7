/**
 * Decimal text of Swift's 64-bit `Int`: the text `String(describing:)` gives an
 * integer, and the failable parse `Int(_: String)` (radix 10).
 */
module Decimal {
  import opened Wrappers

  /** Bounds of Swift's `Int` on a 64-bit platform. */
  const IntMin: int := -0x8000_0000_0000_0000
  const IntMax: int := 0x7FFF_FFFF_FFFF_FFFF

  predicate InIntRange(n: int) {
    IntMin <= n <= IntMax
  }

  predicate IsDigit(c: char) {
    '0' <= c <= '9'
  }

  predicate AllDigits(s: string) {
    forall i :: 0 <= i < |s| ==> IsDigit(s[i])
  }

  function DigitValue(c: char): (d: nat)
    requires IsDigit(c)
    ensures d < 10
  {
    (c as int) - ('0' as int)
  }

  function DigitChar(d: nat): (c: char)
    requires d < 10
    ensures IsDigit(c) && DigitValue(c) == d
  {
    (('0' as int) + d) as char
  }

  /** The value of a run of decimal digits, most significant first. */
  function DigitsValue(s: string): nat
    requires AllDigits(s)
  {
    if s == [] then 0 else DigitsValue(s[..|s| - 1]) * 10 + DigitValue(s[|s| - 1])
  }

  /** The shortest decimal text of `n`: no sign, no leading zero. */
  function NatText(n: nat): (s: string)
    ensures |s| >= 1 && AllDigits(s)
    ensures |s| > 1 ==> s[0] != '0'
    decreases n
  {
    if n < 10 then [DigitChar(n)] else NatText(n / 10) + [DigitChar(n % 10)]
  }

  /** `String(describing: n)` for an `Int`: a minus sign for negatives, then `NatText`. */
  function IntText(n: int): (r: string)
    ensures |r| >= 1
    ensures r[0] == '-' <==> n < 0
    ensures n < 0 ==> |r| >= 2 && AllDigits(r[1..])
    ensures n >= 0 ==> AllDigits(r)
  {
    if n < 0 then "-" + NatText(0 - n) else NatText(n)
  }

  /**
   * `Int(s)`: an optional `+` or `-`, then at least one ASCII digit and nothing
   * else; nil when the text is malformed or its value does not fit in `Int`.
   */
  function ParseInt(s: string): (r: Option<int>)
    ensures r.Some? ==> InIntRange(r.value)
    ensures r.Some? ==> exists k :: 0 <= k < |s| && IsDigit(s[k])
  {
    var signed := |s| > 0 && (s[0] == '+' || s[0] == '-');
    var digits := if signed then s[1..] else s;
    if digits == [] || !AllDigits(digits) then None
    else
      var v: int := if signed && s[0] == '-' then 0 - (DigitsValue(digits) as int) else DigitsValue(digits);
      if InIntRange(v) then Some(v) else None
  }

  /** Reading back the digits that `NatText` writes gives the number again. */
  lemma {:induction false} NatTextRoundTrip(n: nat)
    ensures DigitsValue(NatText(n)) == n
    decreases n
  {
    if n >= 10 {
      var s := NatText(n);
      NatTextRoundTrip(n / 10);
      assert s[..|s| - 1] == NatText(n / 10);
    }
  }

  /**
   * `Int(String(describing: n))` gives `n` back exactly when `n` fits in
   * `Int`, and nil otherwise.
   */
  lemma IntTextRoundTrip(n: int)
    ensures InIntRange(n) ==> ParseInt(IntText(n)) == Some(n)
    ensures !InIntRange(n) ==> ParseInt(IntText(n)) == None
  {
    if n < 0 {
      NegativeTextRoundTrip(n);
    } else {
      NonNegativeTextRoundTrip(n);
    }
  }

  lemma NegativeTextRoundTrip(n: int)
    requires n < 0
    ensures ParseInt(IntText(n)) == if InIntRange(n) then Some(n) else None
  {
    var digits := NatText(-n);
    var s := "-" + digits;
    NatTextRoundTrip(-n);
    assert s[0] == '-' && s[1..] == digits;
    assert AllDigits(digits) && digits != [];
    assert 0 - (DigitsValue(digits) as int) == n;
  }

  lemma NonNegativeTextRoundTrip(n: int)
    requires n >= 0
    ensures ParseInt(IntText(n)) == if InIntRange(n) then Some(n) else None
  {
    NatTextRoundTrip(n);
    assert IsDigit(NatText(n)[0]);
  }

  /** Text holding a character that is neither a digit nor a leading sign never parses. */
  lemma ParseIntRejectsNonDigit(s: string, k: nat)
    requires k < |s| && !IsDigit(s[k])
    requires k == 0 ==> s[0] != '+' && s[0] != '-'
    ensures ParseInt(s) == None
  {
    var signed := |s| > 0 && (s[0] == '+' || s[0] == '-');
    var digits := if signed then s[1..] else s;
    if signed {
      assert digits[k - 1] == s[k];
    } else {
      assert digits[k] == s[k];
    }
  }
}
