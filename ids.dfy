/**
 * Decimal rendering of platform ids.
 *
 * The mapping store is keyed by `str(message.id)` and the legacy header
 * embeds `<@author_id>` and `<#channel_id>`, so both rely on Python's
 * `str` of a non-negative integer: its decimal digits without leading
 * zeros. Snowflake ids are never negative, so ids are `nat` here.
 */
module Ids {

  predicate IsDigit(c: char) {
    '0' <= c <= '9'
  }

  function DigitChar(d: nat): (c: char)
    requires d < 10
    ensures IsDigit(c) && DigitValue(c) == d
  {
    "0123456789"[d]
  }

  function DigitValue(c: char): nat
    requires IsDigit(c)
  {
    (c as int - '0' as int) as nat
  }

  /** Python's `str(n)` for `n >= 0`. */
  function DecimalString(n: nat): (s: string)
    ensures |s| >= 1
    ensures forall i :: 0 <= i < |s| ==> IsDigit(s[i])
    ensures s[0] == '0' ==> n == 0
    ensures n >= 10 ==> |s| >= 2
  {
    if n < 10 then [DigitChar(n)] else DecimalString(n / 10) + [DigitChar(n % 10)]
  }

  /** Reads a string of decimal digits back as a number (Python's `int(s)` on digits). */
  function ParseDecimal(s: string): nat
    requires forall i :: 0 <= i < |s| ==> IsDigit(s[i])
  {
    if s == [] then 0 else ParseDecimal(s[..|s| - 1]) * 10 + DigitValue(s[|s| - 1])
  }

  /** Rendering an id and reading it back yields the id. */
  lemma {:induction false} ParseDecimalString(n: nat)
    ensures ParseDecimal(DecimalString(n)) == n
  {
    var s := DecimalString(n);
    if n < 10 {
      assert s[..|s| - 1] == [];
    } else {
      assert s[..|s| - 1] == DecimalString(n / 10);
      ParseDecimalString(n / 10);
    }
  }

  /** A rendered id holds no line break, so it never splits a header. */
  lemma DecimalNoNewline(n: nat)
    ensures '\n' !in DecimalString(n)
  {
  }

  /** Distinct ids never share a store key. */
  lemma DecimalStringInjective(a: nat, b: nat)
    ensures DecimalString(a) == DecimalString(b) <==> a == b
  {
    if DecimalString(a) == DecimalString(b) {
      ParseDecimalString(a);
      ParseDecimalString(b);
    }
  }
}
