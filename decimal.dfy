/**
  Decimal text of chat ids. The registry stores each chat under `str(chat_id)`
  and the price checker reads the ids back with `int(...)`.
 */
module Decimal {
  import opened Optional

  predicate IsDigit(c: char)
  {
    '0' <= c <= '9'
  }

  predicate AllDigits(s: string)
  {
    forall i :: 0 <= i < |s| ==> IsDigit(s[i])
  }

  function DigitChar(d: nat): (c: char)
    requires d < 10
    ensures IsDigit(c)
  {
    ('0' as int + d) as char
  }

  function DigitValue(c: char): (d: nat)
    requires IsDigit(c)
    ensures d < 10
  {
    c as int - '0' as int
  }

  /** `str(n)` for a non-negative `n`: its decimal digits, most significant first. */
  function NatToString(n: nat): (s: string)
    ensures |s| > 0 && AllDigits(s)
    decreases n
  {
    if n < 10 then [DigitChar(n)] else NatToString(n / 10) + [DigitChar(n % 10)]
  }

  /** `str(n)`: a leading '-' for negative ids (Telegram group chats). */
  function IntToString(n: int): string
  {
    if n < 0 then "-" + NatToString(-n) else NatToString(n)
  }

  /** The number a non-empty run of digits denotes; leading zeros are allowed. */
  function DigitsValue(s: string): nat
    requires AllDigits(s)
  {
    if s == [] then 0 else DigitsValue(s[..|s| - 1]) * 10 + DigitValue(s[|s| - 1])
  }

  /**
    `int(s)` on an optional '-' followed by one or more ASCII digits; None
    stands for the ValueError Python raises on anything else.
   */
  function ParseInt(s: string): Option<int>
  {
    if |s| > 1 && s[0] == '-' && AllDigits(s[1..]) then Some(-(DigitsValue(s[1..]) as int))
    else if |s| > 0 && AllDigits(s) then Some(DigitsValue(s))
    else None
  }

  /** A string that `str` produces: it parses, and printing its value gives it back. */
  predicate Canonical(s: string)
  {
    ParseInt(s).Some? && IntToString(ParseInt(s).value) == s
  }

  lemma {:induction false} NatRoundTrip(n: nat)
    ensures DigitsValue(NatToString(n)) == n
    decreases n
  {
    if n >= 10 {
      NatRoundTrip(n / 10);
      var s := NatToString(n);
      assert s[..|s| - 1] == NatToString(n / 10);
    }
  }

  /** `int(str(n)) == n` for every integer `n`. */
  lemma IntRoundTrip(n: int)
    ensures ParseInt(IntToString(n)) == Some(n)
  {
    if n < 0 {
      NatRoundTrip(-n);
      var s := IntToString(n);
      assert s[1..] == NatToString(-n);
    } else {
      NatRoundTrip(n);
      assert IntToString(n)[0] != '-';
    }
  }

  /** Every id written with `str` is canonical. */
  lemma IntToStringIsCanonical(n: int)
    ensures Canonical(IntToString(n))
  {
    IntRoundTrip(n);
  }
}
