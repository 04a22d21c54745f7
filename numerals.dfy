/** Decimal text of integers and the JavaScript `parseInt(text, 10)` reading of it,
    as used by the settings form (components/SettingsPage.tsx) and the CSV export. */
module Numerals {
  import opened Types

  predicate IsDigit(c: char) { '0' <= c <= '9' }

  function DigitValue(c: char): (d: nat)
    requires IsDigit(c)
    ensures d < 10
  {
    (c as int) - ('0' as int)
  }

  function DigitChar(d: nat): (c: char)
    requires d < 10
    ensures IsDigit(c) && DigitValue(c) == d
  {
    ((('0' as int) + d) as char)
  }

  predicate AllDigits(s: string) { forall i :: 0 <= i < |s| ==> IsDigit(s[i]) }

  /** The value of a string of decimal digits, most significant digit first. */
  function DigitsValue(s: string): nat
    requires AllDigits(s)
  {
    if |s| == 0 then 0 else DigitsValue(s[..|s| - 1]) * 10 + DigitValue(s[|s| - 1])
  }

  /** `String(n)` for a natural number: its digits without leading zeros. */
  function NatToString(n: nat): (s: string)
    ensures |s| > 0 && AllDigits(s)
    ensures DigitsValue(s) == n
    ensures s[0] == '0' ==> s == "0"
    decreases n
  {
    if n < 10 then [DigitChar(n)]
    else
      var prefix := NatToString(n / 10);
      var s := prefix + [DigitChar(n % 10)];
      assert s[..|s| - 1] == prefix;
      s
  }

  /** `String(n)` for an integer: a minus sign before the digits of a negative number. */
  function IntToString(n: int): (s: string)
    ensures |s| > 0
    ensures n >= 0 <==> AllDigits(s)
  {
    if n < 0 then
      var s := "-" + NatToString(-n);
      assert !IsDigit(s[0]);
      s
    else NatToString(n)
  }

  /** The characters `parseInt` skips before the number: white space and line terminators. */
  predicate IsJsWhiteSpace(c: char) {
    c == '\t' || c == '\n' || c == '\U{B}' || c == '\U{C}' || c == '\r' || c == ' '
    || c == '\U{A0}' || c == '\U{1680}' || ('\U{2000}' <= c <= '\U{200A}')
    || c == '\U{2028}' || c == '\U{2029}' || c == '\U{202F}' || c == '\U{205F}'
    || c == '\U{3000}' || c == '\U{FEFF}'
  }

  lemma DigitIsNotWhiteSpace(c: char)
    requires IsDigit(c)
    ensures !IsJsWhiteSpace(c)
  {
  }

  /** A string that does not start with white space is left as it is. */
  lemma TrimStartNoOp(s: string)
    requires |s| > 0 ==> !IsJsWhiteSpace(s[0])
    ensures TrimStart(s) == s
  {
  }

  function TrimStart(s: string): (r: string)
    ensures |r| <= |s| && r == s[|s| - |r|..]
    ensures |r| > 0 ==> !IsJsWhiteSpace(r[0])
    ensures forall i :: 0 <= i < |s| - |r| ==> IsJsWhiteSpace(s[i])
  {
    if |s| > 0 && IsJsWhiteSpace(s[0]) then TrimStart(s[1..]) else s
  }

  /** The longest prefix of digits. */
  function DigitPrefix(s: string): (r: string)
    ensures |r| <= |s| && AllDigits(r) && r == s[..|r|]
    ensures |r| < |s| ==> !IsDigit(s[|r|])
  {
    if |s| > 0 && IsDigit(s[0]) then
      var rest := DigitPrefix(s[1..]);
      assert AllDigits([s[0]] + rest) by {
        forall i | 0 <= i < |rest| + 1 ensures IsDigit(([s[0]] + rest)[i]) {
          if i > 0 { assert ([s[0]] + rest)[i] == rest[i - 1]; }
        }
      }
      [s[0]] + rest
    else []
  }

  /** A non-empty digit string is neither trimmed nor cut short by `parseInt`. */
  lemma DigitsAreWhole(s: string)
    ensures |s| > 0 && AllDigits(s) ==> TrimStart(s) == s && DigitPrefix(s) == s
  {
    if |s| > 0 && AllDigits(s) {
      DigitIsNotWhiteSpace(s[0]);
      TrimStartNoOp(s);
      var z := DigitPrefix(s);
      assert z == s;
    }
  }

  /** `parseInt(s, 10)`: skip leading white space, read an optional sign, then the
      longest run of digits; no digits at all gives NaN, written None. */
  function ParseInt(s: string): (r: Option<int>)
    ensures s == "" ==> r == None
    ensures |s| > 0 && AllDigits(s) ==> r == Some(DigitsValue(s))
  {
    DigitsAreWhole(s);
    var t := TrimStart(s);
    var negative := |t| > 0 && t[0] == '-';
    var unsigned := if |t| > 0 && (t[0] == '-' || t[0] == '+') then t[1..] else t;
    var digits := DigitPrefix(unsigned);
    var magnitude: int := DigitsValue(digits);
    if |digits| == 0 then None
    else if negative then Some(-magnitude)
    else Some(magnitude)
  }

  /** `parseInt(s, 10) || 0`: NaN and zero both become 0. */
  function ParseTier(s: string): (v: int)
    ensures ParseInt(s).None? ==> v == 0
    ensures ParseInt(s).Some? ==> v == ParseInt(s).value
  {
    match ParseInt(s)
    case None => 0
    case Some(v) => if v == 0 then 0 else v
  }

  /** An empty field reads as 0. */
  lemma ParseTierEmpty()
    ensures ParseTier("") == 0
  {
  }

  /** A field of digits reads as its decimal value, so it is never negative. */
  lemma ParseTierOfDigits(s: string)
    requires AllDigits(s)
    ensures ParseTier(s) == DigitsValue(s) && ParseTier(s) >= 0
  {
  }

  /** Leading zeros do not change the value of a digit string. */
  lemma {:induction false} LeadingZeroIgnored(s: string)
    requires AllDigits(s)
    ensures AllDigits("0" + s) && DigitsValue("0" + s) == DigitsValue(s)
  {
    var z := "0" + s;
    assert AllDigits(z) by {
      forall i | 0 <= i < |z| ensures IsDigit(z[i]) {
        if i > 0 { assert z[i] == s[i - 1]; }
      }
    }
    if |s| > 0 {
      var init := s[..|s| - 1];
      assert z[..|z| - 1] == "0" + init;
      LeadingZeroIgnored(init);
    }
  }

  /** A digit field with leading zeros reads as the same number without them. */
  lemma ParseTierLeadingZero(s: string)
    requires AllDigits(s)
    ensures AllDigits("0" + s) && ParseTier("0" + s) == ParseTier(s)
  {
    LeadingZeroIgnored(s);
    ParseTierOfDigits(s);
    ParseTierOfDigits("0" + s);
  }

  /** Reading back the text of an integer gives that integer. */
  lemma ParseTierOfIntToString(n: int)
    ensures ParseTier(IntToString(n)) == n
  {
    if n >= 0 {
      ParseTierOfDigits(NatToString(n));
    } else {
      var d := NatToString(-n);
      var s := "-" + d;
      assert s[1..] == d;
      TrimStartNoOp(s);
      var z := DigitPrefix(d);
      assert z == d;
    }
  }
}
