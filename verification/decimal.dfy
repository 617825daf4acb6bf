/** Invariant-culture decimal text of 32-bit integers: `int.ToString()` and `int.Parse`
    under `NumberStyles.Integer`. */
module Decimal {
  import opened Wrappers

  const Int32Min: int := -0x8000_0000
  const Int32Max: int := 0x7FFF_FFFF

  /** The values a C# `int` can hold. */
  predicate IsInt32(n: int)
  {
    Int32Min <= n <= Int32Max
  }

  predicate IsDigit(c: char)
  {
    '0' <= c <= '9'
  }

  predicate AllDigits(s: string)
  {
    forall i :: 0 <= i < |s| ==> IsDigit(s[i])
  }

  function DigitValue(c: char): nat
    requires IsDigit(c)
  {
    (c as int) - ('0' as int)
  }

  function DigitChar(d: nat): (c: char)
    requires d < 10
    ensures IsDigit(c) && DigitValue(c) == d
  {
    (('0' as int) + d) as char
  }

  /** The decimal digits of `n`, most significant first, with no leading zero. */
  function NatToDigits(n: nat): (s: string)
    ensures 1 <= |s| && AllDigits(s)
    ensures |s| == 1 || s[0] != '0'
    decreases n
  {
    if n < 10 then [DigitChar(n)] else NatToDigits(n / 10) + [DigitChar(n % 10)]
  }

  /** `int.ToString()` under the invariant culture. */
  function IntToString(n: int): string
  {
    if n < 0 then "-" + NatToDigits(-n) else NatToDigits(n)
  }

  /** The number a string of decimal digits denotes. */
  function DigitsValue(s: string): nat
    requires AllDigits(s)
    decreases |s|
  {
    if |s| == 0 then 0 else 10 * DigitsValue(s[..|s| - 1]) + DigitValue(s[|s| - 1])
  }

  /** The white space `NumberStyles.Integer` allows around a number: U+0009 to U+000D and
      the space. */
  predicate IsNumberWhiteSpace(c: char)
  {
    c == ' ' || '\t' <= c <= '\r'
  }

  predicate AllNumberWhiteSpace(s: string)
  {
    forall i :: 0 <= i < |s| ==> IsNumberWhiteSpace(s[i])
  }

  /** `s` without its leading white space. */
  function TrimStart(s: string): (t: string)
    ensures |t| <= |s| && t == s[|s| - |t|..]
    ensures AllNumberWhiteSpace(s[..|s| - |t|])
    ensures |t| == 0 || !IsNumberWhiteSpace(t[0])
    decreases |s|
  {
    if 0 < |s| && IsNumberWhiteSpace(s[0]) then
      var t := TrimStart(s[1..]);
      assert s[..|s| - |t|] == [s[0]] + s[1..][..|s| - 1 - |t|];
      t
    else s
  }

  /** `s` without its trailing white space. */
  function TrimEnd(s: string): (t: string)
    ensures |t| <= |s| && t == s[..|t|]
    ensures AllNumberWhiteSpace(s[|t|..])
    ensures |t| == 0 || !IsNumberWhiteSpace(t[|t| - 1])
    decreases |s|
  {
    if 0 < |s| && IsNumberWhiteSpace(s[|s| - 1]) then
      var t := TrimEnd(s[..|s| - 1]);
      assert s[|t|..] == s[..|s| - 1][|t|..] + [s[|s| - 1]];
      t
    else s
  }

  /** The text `int.Parse` reads the number from: `s` without surrounding white space. */
  function NumberText(s: string): string
  {
    TrimEnd(TrimStart(s))
  }

  /** An optional sign followed by decimal digits, as a 32-bit value. `None` stands for the
      FormatException (no digits, or a character that is not a digit) and for the
      OverflowException (a value outside the 32-bit range). */
  function ParseSignedDigits(s: string): (r: Option<int>)
    ensures r.Some? ==> IsInt32(r.value)
    ensures r.Some? ==> 1 <= |s| && (IsDigit(s[0]) || s[0] == '-' || s[0] == '+')
    ensures r.Some? ==> AllDigits(s[1..])
  {
    var signed := 0 < |s| && (s[0] == '-' || s[0] == '+');
    var digits := if signed then s[1..] else s;
    if |digits| == 0 || !AllDigits(digits) then None
    else
      var magnitude: int := DigitsValue(digits);
      var v := if signed && s[0] == '-' then -magnitude else magnitude;
      if IsInt32(v) then Some(v) else None
  }

  /** `int.Parse(s)` under `NumberStyles.Integer` and the invariant culture: white space
      around the number, an optional sign, then digits. */
  function ParseInt32(s: string): (r: Option<int>)
    ensures r.Some? ==> IsInt32(r.value)
    ensures r.Some? ==> var t := NumberText(s);
      && 1 <= |t| && (IsDigit(t[0]) || t[0] == '-' || t[0] == '+')
      && AllDigits(t[1..])
  {
    ParseSignedDigits(NumberText(s))
  }

  /** Leading white space does not change what `int.Parse` reads. */
  lemma LeadingWhiteSpaceIgnored(w: string, s: string)
    requires AllNumberWhiteSpace(w)
    ensures ParseInt32(w + s) == ParseInt32(s)
  {
    TrimStartPrepend(w, s);
  }

  /** Trailing white space does not change what `int.Parse` reads. */
  lemma TrailingWhiteSpaceIgnored(s: string, w: string)
    requires AllNumberWhiteSpace(w)
    ensures ParseInt32(s + w) == ParseInt32(s)
  {
    NumberTextAppend(s, w);
  }

  /** Text without surrounding white space is read as it is. */
  lemma NumberTextUntrimmed(s: string)
    requires 0 < |s| && !IsNumberWhiteSpace(s[0]) && !IsNumberWhiteSpace(s[|s| - 1])
    ensures NumberText(s) == s
  {
  }

  lemma {:induction false} TrimStartPrepend(w: string, s: string)
    requires AllNumberWhiteSpace(w)
    ensures TrimStart(w + s) == TrimStart(s)
    decreases |w|
  {
    if 0 < |w| {
      assert (w + s)[1..] == w[1..] + s;
      TrimStartPrepend(w[1..], s);
    } else {
      assert w + s == s;
    }
  }

  /** Text made of white space only trims to nothing. */
  lemma TrimStartOfWhiteSpace(w: string)
    requires AllNumberWhiteSpace(w)
    ensures TrimStart(w) == []
  {
  }

  lemma {:induction false} NumberTextAppend(s: string, w: string)
    requires AllNumberWhiteSpace(w)
    ensures NumberText(s + w) == NumberText(s)
    decreases |s|
  {
    if |s| == 0 {
      assert s + w == w;
      TrimStartOfWhiteSpace(w);
    } else if IsNumberWhiteSpace(s[0]) {
      assert (s + w)[1..] == s[1..] + w;
      NumberTextAppend(s[1..], w);
    } else {
      TrimEndAppend(s, w);
    }
  }

  /** Trailing white space is what `TrimEnd` removes. */
  lemma {:induction false} TrimEndAppend(s: string, w: string)
    requires AllNumberWhiteSpace(w)
    ensures TrimEnd(s + w) == TrimEnd(s)
    decreases |w|
  {
    if 0 < |w| {
      assert (s + w)[..|s + w| - 1] == s + w[..|w| - 1];
      TrimEndAppend(s, w[..|w| - 1]);
    } else {
      assert s + w == s;
    }
  }

  /** Reading back the digits of `n` gives `n`. */
  lemma {:induction false} DigitsValueOfNatToDigits(n: nat)
    ensures DigitsValue(NatToDigits(n)) == n
    decreases n
  {
    if n >= 10 {
      var s := NatToDigits(n);
      DigitsValueOfNatToDigits(n / 10);
      assert s[..|s| - 1] == NatToDigits(n / 10);
    }
  }

  /** Round trip: parsing the text `int.ToString()` writes gives the number back. */
  lemma ParseIntToString(n: int)
    requires IsInt32(n)
    ensures ParseInt32(IntToString(n)) == Some(n)
  {
    var s := IntToString(n);
    assert IsDigit(s[|s| - 1]);
    NumberTextUntrimmed(s);
    ParseSignedDigitsOfIntToString(n);
  }

  /** The digits and sign `int.ToString()` writes parse back to the number. */
  lemma ParseSignedDigitsOfIntToString(n: int)
    requires IsInt32(n)
    ensures ParseSignedDigits(IntToString(n)) == Some(n)
  {
    var s := IntToString(n);
    if n < 0 {
      var d := NatToDigits(-n);
      DigitsValueOfNatToDigits(-n);
      assert s == "-" + d && s[0] == '-' && s[1..] == d;
      assert DigitsValue(d) == -n;
    } else {
      DigitsValueOfNatToDigits(n);
      assert s == NatToDigits(n) && IsDigit(s[0]);
      assert !(s[0] == '-' || s[0] == '+');
    }
  }
}
