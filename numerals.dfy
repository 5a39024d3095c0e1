/**
 * The decimal text of integers as the chat server writes and reads it:
 * `'{}'.format(n)` turns a Python `int` into text, and `int(s)` turns the
 * trailing field of a quick-reply payload back into a number.
 */
module Numerals {
  import opened Wrappers

  predicate IsDigit(c: char) {
    '0' <= c <= '9'
  }

  /** The ASCII whitespace `int()` skips around a number: tab, line feed, VT, FF, CR and space. */
  predicate IsSpace(c: char) {
    c == ' ' || '\t' <= c <= '\r'
  }

  function DigitChar(d: nat): (c: char)
    requires d < 10
    ensures IsDigit(c)
  {
    ('0' as int + d) as char
  }

  function DigitValue(c: char): (d: nat)
    requires IsDigit(c)
    ensures d < 10 && DigitChar(d) == c
  {
    c as int - '0' as int
  }

  /** Decimal text of a natural number, as Python's `str(n)`: digits only, no leading zero. */
  function NatToString(n: nat): (s: string)
    ensures |s| > 0
    ensures forall i :: 0 <= i < |s| ==> IsDigit(s[i])
    ensures s[0] == '0' ==> n == 0
    decreases n
  {
    if n < 10 then [DigitChar(n)] else NatToString(n / 10) + [DigitChar(n % 10)]
  }

  /** Decimal text of an integer, as Python's `str(i)`: a minus sign for negatives. */
  function IntToString(i: int): (s: string)
    ensures |s| > 0 && !IsSpace(s[0]) && !IsSpace(s[|s| - 1])
    ensures (s[0] == '-') == (i < 0)
    ensures forall k :: 0 <= k < |s| ==> s[k] == '-' || IsDigit(s[k])
    ensures forall k :: 0 < k < |s| ==> IsDigit(s[k])
  {
    if i < 0 then "-" + NatToString(-i) else NatToString(i)
  }

  /** Text made only of digits and underscores, the alphabet of a Python integer body. */
  predicate DigitsAndUnderscores(s: string) {
    forall i :: 0 <= i < |s| ==> IsDigit(s[i]) || s[i] == '_'
  }

  /**
   * The body `int()` accepts after an optional sign: one or more digits, where a
   * single underscore may separate two digits.
   */
  predicate IsDigitRun(s: string) {
    && |s| > 0
    && DigitsAndUnderscores(s)
    && forall i {:trigger s[i]} :: 0 <= i < |s| ==>
         IsDigit(s[i]) || (s[i] == '_' && 0 < i < |s| - 1 && IsDigit(s[i - 1]) && IsDigit(s[i + 1]))
  }

  /** The value of a digit run, underscores being mere separators. */
  function DigitsValue(s: string): (v: nat)
    requires DigitsAndUnderscores(s)
  {
    if |s| == 0 then 0
    else if s[|s| - 1] == '_' then DigitsValue(s[..|s| - 1])
    else 10 * DigitsValue(s[..|s| - 1]) + DigitValue(s[|s| - 1])
  }

  /** Drops leading whitespace. */
  function TrimStart(s: string): (r: string)
    ensures |r| <= |s| && r == s[|s| - |r|..]
    ensures r == [] || !IsSpace(r[0])
    ensures forall i :: 0 <= i < |s| - |r| ==> IsSpace(s[i])
  {
    if |s| > 0 && IsSpace(s[0]) then TrimStart(s[1..]) else s
  }

  /** Drops trailing whitespace. */
  function TrimEnd(s: string): (r: string)
    ensures |r| <= |s| && r == s[..|r|]
    ensures r == [] || !IsSpace(r[|r| - 1])
    ensures forall i :: |r| <= i < |s| ==> IsSpace(s[i])
  {
    if |s| > 0 && IsSpace(s[|s| - 1]) then TrimEnd(s[..|s| - 1]) else s
  }

  /** Python's `int(s)` on a `str`, base 10: `None` stands for the `ValueError` it raises. */
  function ParseInt(s: string): Option<int> {
    ParseStripped(TrimEnd(TrimStart(s)))
  }

  /** What `int()` makes of the text once surrounding whitespace is gone: an optional sign, then a digit run. */
  function ParseStripped(t: string): Option<int> {
    if |t| > 0 && (t[0] == '-' || t[0] == '+') then
      var body := t[1..];
      if IsDigitRun(body) then Some(if t[0] == '-' then -(DigitsValue(body) as int) else DigitsValue(body))
      else None
    else if IsDigitRun(t) then Some(DigitsValue(t))
    else None
  }

  /** Python's `s.split(sep)[-1]`: the text after the last separator, or all of `s` when there is none. */
  function LastField(s: string, sep: char): (r: string)
    ensures sep !in r
    ensures |r| <= |s| && r == s[|s| - |r|..]
    ensures |r| < |s| ==> s[|s| - |r| - 1] == sep
  {
    if |s| == 0 then []
    else if s[|s| - 1] == sep then []
    else LastField(s[..|s| - 1], sep) + [s[|s| - 1]]
  }

  /** Reading back what `NatToString` writes gives the number again. */
  lemma {:induction false} DigitsValueOfNatToString(n: nat)
    ensures DigitsAndUnderscores(NatToString(n))
    ensures DigitsValue(NatToString(n)) == n
    decreases n
  {
    var s := NatToString(n);
    if n >= 10 {
      DigitsValueOfNatToString(n / 10);
      assert s[..|s| - 1] == NatToString(n / 10);
    }
  }

  /** `int(str(i)) == i` for every integer `i`. */
  lemma ParseIntOfIntToString(i: int)
    ensures ParseInt(IntToString(i)) == Some(i)
  {
    var s := IntToString(i);
    assert ParseInt(s) == ParseStripped(s) by {
      IntToStringTrimmed(i);
    }
    ParseStrippedOfIntToString(i);
  }

  /** `int()` ignores whitespace around the number: `int(ws + str(i) + ws') == i`. */
  lemma ParseIntIgnoresSpaces(ws: string, i: int, ws': string)
    requires forall k :: 0 <= k < |ws| ==> IsSpace(ws[k])
    requires forall k :: 0 <= k < |ws'| ==> IsSpace(ws'[k])
    ensures ParseInt(ws + IntToString(i) + ws') == Some(i)
  {
    var s := IntToString(i);
    assert TrimStart(ws + s + ws') == s + ws' by {
      assert ws + s + ws' == ws + (s + ws');
      TrimStartSpaces(ws, s + ws');
    }
    assert TrimEnd(s + ws') == s by {
      TrimEndSpaces(s, ws');
    }
    ParseStrippedOfIntToString(i);
  }

  /** Leading whitespace goes, up to the first character that is not whitespace. */
  lemma {:induction false} TrimStartSpaces(ws: string, t: string)
    requires forall k :: 0 <= k < |ws| ==> IsSpace(ws[k])
    requires t == [] || !IsSpace(t[0])
    ensures TrimStart(ws + t) == t
    decreases |ws|
  {
    if ws == [] {
      assert ws + t == t;
    } else {
      assert (ws + t)[1..] == ws[1..] + t;
      TrimStartSpaces(ws[1..], t);
    }
  }

  /** Trailing whitespace goes, back to the last character that is not whitespace. */
  lemma {:induction false} TrimEndSpaces(t: string, ws: string)
    requires forall k :: 0 <= k < |ws| ==> IsSpace(ws[k])
    requires t == [] || !IsSpace(t[|t| - 1])
    ensures TrimEnd(t + ws) == t
    decreases |ws|
  {
    if ws == [] {
      assert t + ws == t;
    } else {
      assert (t + ws)[..|t + ws| - 1] == t + ws[..|ws| - 1];
      TrimEndSpaces(t, ws[..|ws| - 1]);
    }
  }

  /** The sign and digits written for `i` are read back as `i`. */
  lemma ParseStrippedOfIntToString(i: int)
    ensures ParseStripped(IntToString(i)) == Some(i)
  {
    if i < 0 {
      NatToStringIsDigitRun(-i);
      ParseStrippedNegative(NatToString(-i));
    } else {
      NatToStringIsDigitRun(i);
      ParseStrippedDigits(NatToString(i));
    }
  }

  /** A minus sign before a digit run gives the negated value. */
  lemma ParseStrippedNegative(body: string)
    requires IsDigitRun(body)
    ensures ParseStripped("-" + body) == Some(-(DigitsValue(body) as int))
  {
    assert ("-" + body)[1..] == body;
  }

  /** A digit run without a sign gives its value. */
  lemma ParseStrippedDigits(t: string)
    requires IsDigitRun(t)
    ensures ParseStripped(t) == Some(DigitsValue(t))
  {
    assert IsDigit(t[0]);
  }

  /** The text of an integer has no whitespace to strip. */
  lemma IntToStringTrimmed(i: int)
    ensures TrimEnd(TrimStart(IntToString(i))) == IntToString(i)
  {
    var s := IntToString(i);
    assert TrimStart(s) == s;
    assert TrimEnd(s) == s;
  }

  /** The text of a natural number is a digit run worth that number. */
  lemma NatToStringIsDigitRun(n: nat)
    ensures IsDigitRun(NatToString(n)) && DigitsValue(NatToString(n)) == n
  {
    DigitsValueOfNatToString(n);
  }

  /** The last field of `prefix + sep + field` is `field` when `field` holds no separator. */
  lemma {:induction false} LastFieldAfterSeparator(prefix: string, sep: char, field: string)
    requires sep !in field
    ensures LastField(prefix + [sep] + field, sep) == field
    decreases |field|
  {
    var s := prefix + [sep] + field;
    if |field| > 0 {
      var n := |field|;
      assert s[..|s| - 1] == prefix + [sep] + field[..n - 1];
      LastFieldAfterSeparator(prefix, sep, field[..n - 1]);
      assert field == field[..n - 1] + [field[n - 1]];
    }
  }
}
