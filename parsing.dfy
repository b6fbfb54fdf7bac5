/**
 * The text conversions the attribute readers rely on: `Integer.parseInt`
 * (ASCII digits, 32-bit range) and `Boolean.parseBoolean`, with the facts that
 * they invert the printing done by `String.valueOf`.
 */
module Parsing {
  import opened Values

  predicate IsDigit(c: char)
  {
    '0' <= c <= '9'
  }

  predicate AllDigits(s: string)
  {
    forall i :: 0 <= i < |s| ==> IsDigit(s[i])
  }

  /** The number a string of decimal digits denotes. */
  function DigitsValue(s: string): nat
    requires AllDigits(s)
  {
    if s == [] then 0 else 10 * DigitsValue(s[..|s| - 1]) + (s[|s| - 1] as int - '0' as int)
  }

  predicate InInt32Range(v: int)
  {
    -0x8000_0000 <= v < 0x8000_0000
  }

  /**
   * `Integer.parseInt(s)`: an optional sign followed by at least one digit,
   * denoting a value within 32 bits; anything else throws
   * `NumberFormatException`, which is `None` here.
   */
  function ParseInt(s: string): (r: Option<Int32>)
    ensures r.Some? ==> |s| > 0
    ensures r.Some? && s[0] == '-' ==> r.value <= 0
  {
    if |s| == 0 then None
    else
      var signed := s[0] == '-' || s[0] == '+';
      var digits := if signed then s[1..] else s;
      if |digits| == 0 || !AllDigits(digits) then None
      else
        var v := if s[0] == '-' then -(DigitsValue(digits) as int) else DigitsValue(digits) as int;
        if InInt32Range(v) then Some(v as Int32) else None
  }

  /** `Boolean.parseBoolean(s)`: true exactly for "true" in any letter case; it never throws. */
  function ParseBoolean(s: string): (b: bool)
    ensures b ==> |s| == 4
  {
    |s| == 4 && LowerAscii(s[0]) == 't' && LowerAscii(s[1]) == 'r'
    && LowerAscii(s[2]) == 'u' && LowerAscii(s[3]) == 'e'
  }

  function LowerAscii(c: char): char
  {
    if 'A' <= c <= 'Z' then (c as int - 'A' as int + 'a' as int) as char else c
  }

  lemma {:induction false} NatToDecimalValue(n: nat)
    ensures AllDigits(NatToDecimal(n)) && DigitsValue(NatToDecimal(n)) == n
  {
    var s := NatToDecimal(n);
    if n >= 10 {
      NatToDecimalValue(n / 10);
      assert s[..|s| - 1] == NatToDecimal(n / 10);
    }
  }

  /** `Integer.parseInt(Integer.toString(i)) == i`. */
  lemma {:induction false} ParseIntRoundTrip(i: Int32)
    ensures ParseInt(IntToDecimal(i)) == Some(i)
  {
    var s := IntToDecimal(i);
    if i < 0 {
      NatToDecimalValue(-(i as int));
      assert s[0] == '-' && s[1..] == NatToDecimal(-(i as int));
    } else {
      NatToDecimalValue(i as int);
      assert IsDigit(s[0]);
    }
  }

  /** `Boolean.parseBoolean(String.valueOf(b)) == b`. */
  lemma ParseBooleanRoundTrip(b: bool)
    ensures ParseBoolean(Show(BoolV(b))) == b
  {
  }
}
