/**
 * Decimal text as the C++ standard library produces and reads it:
 * std::to_string for integers and std::stoi (base 10).
 */
module Decimal {
  import opened Wrappers

  predicate IsDigit(c: char) { '0' <= c <= '9' }

  predicate AllDigits(s: string) { forall i :: 0 <= i < |s| ==> IsDigit(s[i]) }

  function DigitValue(c: char): (d: nat)
    requires IsDigit(c)
    ensures d < 10
  {
    c as int - '0' as int
  }

  function DigitChar(d: nat): (c: char)
    requires d < 10
    ensures IsDigit(c) && DigitValue(c) == d
  {
    ('0' as int + d) as char
  }

  /** The value of a string of decimal digits, most significant first. */
  function DigitsValue(s: string): nat
    requires AllDigits(s)
  {
    if |s| == 0 then 0 else DigitsValue(s[..|s| - 1]) * 10 + DigitValue(s[|s| - 1])
  }

  /** std::to_string of a non-negative integer: no leading zeros. */
  function NatToString(n: nat): (s: string)
    ensures |s| >= 1 && AllDigits(s)
    ensures n < 10 <==> |s| == 1
    ensures n >= 10 ==> s[0] != '0'
  {
    if n < 10 then [DigitChar(n)] else NatToString(n / 10) + [DigitChar(n % 10)]
  }

  /** The width of std::to_string for up to four digits. */
  lemma {:induction false} NatToStringWidth(n: nat)
    ensures n < 10 ==> |NatToString(n)| == 1
    ensures 10 <= n < 100 ==> |NatToString(n)| == 2
    ensures 100 <= n < 1000 ==> |NatToString(n)| == 3
    ensures 1000 <= n < 10000 ==> |NatToString(n)| == 4
    decreases n
  {
    if n >= 10 {
      NatToStringWidth(n / 10);
    }
  }

  /** std::to_string of any integer. */
  function IntToString(n: int): string
  {
    if n < 0 then "-" + NatToString(-n) else NatToString(n)
  }

  /** Length of the run of digits that starts `s`. */
  function DigitRun(s: string): (k: nat)
    ensures k <= |s|
    ensures forall i :: 0 <= i < k ==> IsDigit(s[i])
    ensures k < |s| ==> !IsDigit(s[k])
  {
    if |s| == 0 || !IsDigit(s[0]) then 0 else 1 + DigitRun(s[1..])
  }

  /**
   * std::stoi: an optional sign, then the longest run of digits; no digit at all
   * throws std::invalid_argument. (Leading white space and overflow are not modelled.)
   */
  function Stoi(s: string): Result<int>
  {
    var signed := |s| > 0 && (s[0] == '-' || s[0] == '+');
    var body := if signed then s[1..] else s;
    var k := DigitRun(body);
    var v: int := if k == 0 then 0 else DigitsValue(body[..k]);
    if k == 0 then Err(InvalidArgument)
    else if signed && s[0] == '-' then Ok(-v)
    else Ok(v)
  }

  lemma {:induction false} NatToStringValue(n: nat)
    ensures DigitsValue(NatToString(n)) == n
    decreases n
  {
    if n >= 10 {
      var s := NatToString(n);
      assert s[..|s| - 1] == NatToString(n / 10);
      NatToStringValue(n / 10);
    }
  }

  lemma {:induction false} LeadingZeroValue(s: string)
    requires AllDigits(s)
    ensures AllDigits("0" + s) && DigitsValue("0" + s) == DigitsValue(s)
    decreases |s|
  {
    if |s| > 0 {
      var t := "0" + s;
      assert t[..|t| - 1] == "0" + s[..|s| - 1];
      LeadingZeroValue(s[..|s| - 1]);
    }
  }

  /** A digit string followed by a non-digit (or nothing) reads back as its value. */
  lemma StoiOfDigits(s: string, rest: string)
    requires |s| > 0 && AllDigits(s)
    requires rest == [] || !IsDigit(rest[0])
    ensures Stoi(s + rest) == Ok(DigitsValue(s))
  {
    var u := s + rest;
    assert u[0] == s[0];
    DigitRunOfPrefix(s, rest);
    assert u[..|s|] == s;
  }

  lemma {:induction false} DigitRunOfPrefix(s: string, rest: string)
    requires AllDigits(s)
    requires rest == [] || !IsDigit(rest[0])
    ensures DigitRun(s + rest) == |s|
    decreases |s|
  {
    if |s| == 0 {
      assert s + rest == rest;
    } else {
      assert (s + rest)[1..] == s[1..] + rest;
      DigitRunOfPrefix(s[1..], rest);
    }
  }

  /** std::stoi(std::to_string(n)) == n. */
  lemma StoiOfIntToString(n: int)
    ensures Stoi(IntToString(n)) == Ok(n)
  {
    if n < 0 {
      var d := NatToString(-n);
      var s := "-" + d;
      assert s == IntToString(n);
      assert s[0] == '-' && s[1..] == d;
      DigitRunOfPrefix(d, []);
      assert d + [] == d;
      assert DigitRun(d) == |d|;
      assert d[..|d|] == d;
      NatToStringValue(-n);
      assert DigitsValue(d) == -n;
    } else {
      var d := NatToString(n);
      StoiOfDigits(d, []);
      assert d + [] == d;
      NatToStringValue(n);
    }
  }
}
