/** Values shared by every part of the model: optional values, results carrying an error
    message, JavaScript truthiness of optional fields, string prefixes and the decimal text
    that `Number.prototype.toString` gives an integer. */
module Common {

  datatype Option<+T> = None | Some(value: T)

  /** A thrown `Error` is modelled as `Err(message)`. */
  datatype Result<+T> = Ok(value: T) | Err(message: string)

  /** `if (x)` on an optional boolean: only `true` passes. */
  predicate IsTrue(o: Option<bool>) { o.Some? && o.value }

  /** `x === false` on an optional boolean: `undefined` does not pass. */
  predicate IsFalse(o: Option<bool>) { o.Some? && !o.value }

  /** `if (x)` on an optional integer: `undefined` and `0` fail. */
  predicate NonZero(o: Option<int>) { o.Some? && o.value != 0 }

  /** `if (x)` on an optional string: `undefined` and `""` fail. */
  predicate NonEmpty(o: Option<string>) { o.Some? && o.value != "" }

  predicate StartsWith(s: string, prefix: string) {
    |prefix| <= |s| && s[..|prefix|] == prefix
  }

  function DigitChar(d: nat): (c: char)
    requires d < 10
    ensures '0' <= c <= '9' && c as int - '0' as int == d
  {
    (d + '0' as int) as char
  }

  predicate IsDigits(s: string) {
    forall i :: 0 <= i < |s| ==> '0' <= s[i] <= '9'
  }

  /** Decimal digits of a natural number, most significant first, no leading zero. */
  function NatToString(n: nat): (s: string)
    ensures |s| >= 1 && IsDigits(s)
    ensures s[0] == '0' ==> n == 0
    decreases n
  {
    if n < 10 then [DigitChar(n)] else NatToString(n / 10) + [DigitChar(n % 10)]
  }

  /** The decimal text of an integer, with a leading '-' when negative. */
  function IntToString(i: int): (s: string)
    ensures |s| >= 1
    ensures i >= 0 <==> IsDigits(s)
    ensures i < 0 <==> s[0] == '-'
  {
    if i < 0 then
      var s := "-" + NatToString(-i);
      assert s[0] == '-';
      s
    else NatToString(i)
  }

  /** Reads back a string of decimal digits (the inverse of `NatToString`). */
  function ParseDigits(s: string): nat
    requires IsDigits(s)
  {
    if s == [] then 0 else 10 * ParseDigits(s[..|s| - 1]) + (s[|s| - 1] as int - '0' as int)
  }

  /** Reads back the text `IntToString` produces. */
  function ParseInt(s: string): int
    requires |s| >= 1
    requires IsDigits(s) || (s[0] == '-' && IsDigits(s[1..]))
  {
    if s[0] == '-' then -(ParseDigits(s[1..]) as int) else ParseDigits(s)
  }

  lemma {:induction false} NatToStringRoundTrip(n: nat)
    ensures ParseDigits(NatToString(n)) == n
    decreases n
  {
    if n >= 10 {
      var s := NatToString(n);
      NatToStringRoundTrip(n / 10);
      assert s[..|s| - 1] == NatToString(n / 10);
    }
  }

  /** Number tokens carry their value exactly: the text reads back as the same integer,
      so two different numbers never give the same token. */
  lemma IntToStringRoundTrip(i: int)
    ensures var s := IntToString(i);
      (IsDigits(s) || (s[0] == '-' && IsDigits(s[1..]))) && ParseInt(s) == i
  {
    if i < 0 {
      NatToStringRoundTrip(-i);
      assert IntToString(i)[1..] == NatToString(-i);
    } else {
      NatToStringRoundTrip(i);
    }
  }
}
