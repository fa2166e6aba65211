/** Python's `int(text)` on a line of decimal text, and decimal display of an integer. */
module Numerals {
  import Text
  import opened Wrappers

  predicate IsDigit(c: char)
  {
    '0' <= c <= '9'
  }

  function DigitValue(c: char): nat
    requires IsDigit(c)
  {
    (c as int) - ('0' as int)
  }

  function DigitChar(d: nat): (c: char)
    requires d < 10
    ensures IsDigit(c) && DigitValue(c) == d
  {
    (('0' as int) + d) as char
  }

  /** What may follow the first digit: digits, each of which may be preceded by a single
      underscore. */
  predicate IsDigitTail(s: string)
    decreases |s|
  {
    || |s| == 0
    || (IsDigit(s[0]) && IsDigitTail(s[1..]))
    || (|s| >= 2 && s[0] == '_' && IsDigit(s[1]) && IsDigitTail(s[2..]))
  }

  /** The digit part `int()` accepts: ASCII digits, with single underscores allowed
      between two digits. */
  predicate IsDigitText(s: string)
  {
    |s| > 0 && IsDigit(s[0]) && IsDigitTail(s[1..])
  }

  /** The value of the digits of `s`, read as a decimal number; underscores are ignored. */
  function DigitsValue(s: string): nat
  {
    if |s| == 0 then 0
    else if IsDigit(s[|s| - 1]) then DigitsValue(s[..|s| - 1]) * 10 + DigitValue(s[|s| - 1])
    else DigitsValue(s[..|s| - 1])
  }

  /** `int(text)`: surrounding whitespace is ignored, then an optional sign and a digit
      text; anything else is a ValueError, here `None`. */
  function ParseInt(text: string): Option<int>
  {
    var t := Text.Strip(text);
    if |t| > 0 && (t[0] == '+' || t[0] == '-') then
      var body := t[1..];
      if IsDigitText(body) then
        var magnitude: int := DigitsValue(body);
        Some(if t[0] == '-' then -magnitude else magnitude)
      else None
    else if IsDigitText(t) then Some(DigitsValue(t))
    else None
  }

  /** Decimal digits of a natural number, most significant first, without leading zeros. */
  function ShowNat(n: nat): (s: string)
    ensures |s| > 0 && forall i :: 0 <= i < |s| ==> IsDigit(s[i])
  {
    if n < 10 then [DigitChar(n)] else ShowNat(n / 10) + [DigitChar(n % 10)]
  }

  /** Decimal text of an integer, as Python's `str(n)`. */
  function ShowInt(n: int): string
  {
    if n < 0 then "-" + ShowNat(-n) else ShowNat(n)
  }

  lemma {:induction false} ShowNatValue(n: nat)
    ensures DigitsValue(ShowNat(n)) == n
  {
    if n >= 10 {
      var s := ShowNat(n);
      ShowNatValue(n / 10);
      assert s[..|s| - 1] == ShowNat(n / 10);
    }
  }

  lemma {:induction false} AllDigitsTail(s: string)
    requires forall i :: 0 <= i < |s| ==> IsDigit(s[i])
    ensures IsDigitTail(s)
    decreases |s|
  {
    if |s| > 0 {
      AllDigitsTail(s[1..]);
    }
  }

  /** Reading back the decimal text of any integer gives the integer. */
  lemma ParseShowRoundTrip(n: int)
    ensures ParseInt(ShowInt(n)) == Some(n)
  {
    var s := ShowInt(n);
    var digits := if n < 0 then ShowNat(-n) else ShowNat(n);
    assert s[|s| - 1] == digits[|digits| - 1];
    Text.StripUnpadded(s);
    ShowNatValue(if n < 0 then -n else n);
    AllDigitsTail(digits[1..]);
    if n < 0 {
      assert s[1..] == digits;
    }
  }

  /** Surrounding whitespace is ignored. */
  lemma ParsePadded()
    ensures ParseInt(" 25\n") == Some(25)
  {
    assert " 25\n"[1..] == "25\n";
    assert Text.TrimStart(" 25\n") == "25\n";
    assert "25\n"[..2] == "25";
    assert Text.Strip(" 25\n") == "25";
    assert IsDigitText("25");
    assert "25"[..1] == "2" && "2"[..0] == "";
  }

  /** Leading zeros are accepted. */
  lemma ParseLeadingZeros()
    ensures ParseInt("007") == Some(7)
  {
    Text.StripUnpadded("007");
    assert IsDigitText("007");
    assert "007"[..2] == "00" && "00"[..1] == "0" && "0"[..0] == "";
    assert DigitsValue("007") == 7;
  }

  /** A plus sign and a single underscore between digits are accepted. */
  lemma ParseSignAndUnderscore()
    ensures ParseInt("+1_0") == Some(10)
  {
    Text.StripUnpadded("+1_0");
    assert "+1_0"[1..] == "1_0";
    assert IsDigitText("1_0");
    assert "1_0"[..2] == "1_" && "1_"[..1] == "1" && "1"[..0] == "";
    assert DigitsValue("1_0") == 10;
  }

  /** Two underscores in a row, an empty line and words are rejected. */
  lemma ParseRejects()
    ensures ParseInt("1__0") == None
    ensures ParseInt("") == None
    ensures ParseInt("다섯") == None
  {
    Text.StripUnpadded("1__0");
    assert "1__0"[1] == '_' && "1__0"[2] == '_';
    Text.StripUnpadded("다섯");
    assert !IsDigit("다섯"[0]);
  }
}
