/** Python's `int(text)` for base-10 strings, as `ConfigParser.getint` applies
    it to an option's value, and `str(n)`, which writes an integer back. */
module PyInt {
  import opened Basics

  /** The characters `int()` skips around the digits: the six ASCII white
      space characters, and the non-ASCII white space it first turns into
      spaces. The ASCII separators U+001C to U+001F are not among them. */
  predicate IsSpace(c: char)
  {
    || c == ' ' || c == '\t' || c == '\n' || c == '\r'
    || c == '\U{000B}' || c == '\U{000C}'
    || c == '\U{0085}' || c == '\U{00A0}' || c == '\U{1680}'
    || ('\U{2000}' <= c <= '\U{200A}')
    || c == '\U{2028}' || c == '\U{2029}' || c == '\U{202F}'
    || c == '\U{205F}' || c == '\U{3000}'
  }

  predicate IsDigit(c: char)
  {
    '0' <= c <= '9'
  }

  function DigitValue(c: char): nat
    requires IsDigit(c)
  {
    (c as int) - ('0' as int)
  }

  function DigitChar(d: nat): (c: char)
    requires d < 10
    ensures IsDigit(c) && DigitValue(c) == d
  {
    (('0' as int) + d) as char
  }

  /** `s` without its leading white space. */
  function StripLeft(s: string): (t: string)
    ensures |t| <= |s| && t == s[|s| - |t|..]
    ensures |t| > 0 ==> !IsSpace(t[0])
    ensures forall k :: 0 <= k < |s| - |t| ==> IsSpace(s[k])
  {
    if |s| > 0 && IsSpace(s[0]) then StripLeft(s[1..]) else s
  }

  /** `s` without its trailing white space. */
  function StripRight(s: string): (t: string)
    ensures |t| <= |s| && t == s[..|t|]
    ensures |t| > 0 ==> !IsSpace(t[|t| - 1])
    ensures forall k :: |t| <= k < |s| ==> IsSpace(s[k])
  {
    if |s| > 0 && IsSpace(s[|s| - 1]) then StripRight(s[..|s| - 1]) else s
  }

  /** `s` without the white space `int()` skips at either end. */
  function Strip(s: string): string
  {
    StripRight(StripLeft(s))
  }

  /** A run of decimal digits in which single underscores may separate two
      digits, as Python's integer syntax allows (`1_000`). */
  predicate DigitGroup(s: string)
  {
    && |s| > 0
    && IsDigit(s[0])
    && IsDigit(s[|s| - 1])
    && (forall k :: 0 <= k < |s| ==> IsDigit(s[k]) || s[k] == '_')
    && (forall k :: 0 <= k < |s| - 1 ==> s[k] == '_' ==> s[k + 1] != '_')
  }

  /** The number the digits of `s` spell, underscores skipped. */
  function DigitsValue(s: string): nat
    requires forall k :: 0 <= k < |s| ==> IsDigit(s[k]) || s[k] == '_'
  {
    if |s| == 0 then 0
    else if s[|s| - 1] == '_' then DigitsValue(s[..|s| - 1])
    else 10 * DigitsValue(s[..|s| - 1]) + DigitValue(s[|s| - 1])
  }

  /** Python's `int(text)`: surrounding white space is ignored, one optional
      sign may precede the digits; any other shape is a `ValueError`
      (`None`). Python's limit on the number of digits is not modelled. */
  function ParseInt(text: string): Option<int>
  {
    ParseStripped(Strip(text))
  }

  /** `int()` on text already stripped of white space. */
  function ParseStripped(t: string): Option<int>
  {
    if |t| > 0 && (t[0] == '+' || t[0] == '-') then
      if DigitGroup(t[1..]) then
        var magnitude: int := DigitsValue(t[1..]);
        Some(if t[0] == '-' then -magnitude else magnitude)
      else None
    else if DigitGroup(t) then Some(DigitsValue(t))
    else None
  }

  /** Python's `str(n)` for a natural number: no sign, no leading zero. */
  function FormatNat(n: nat): (s: string)
    ensures |s| > 0
    ensures forall k :: 0 <= k < |s| ==> IsDigit(s[k])
  {
    if n < 10 then [DigitChar(n)] else FormatNat(n / 10) + [DigitChar(n % 10)]
  }

  /** Python's `str(n)`. */
  function FormatInt(n: int): string
  {
    if n < 0 then "-" + FormatNat(-n) else FormatNat(n)
  }

  /** The digits `str` writes spell the number back. */
  lemma {:induction false} DigitsValueFormatNat(n: nat)
    ensures DigitsValue(FormatNat(n)) == n
    decreases n
  {
    var s := FormatNat(n);
    if n >= 10 {
      assert s[..|s| - 1] == FormatNat(n / 10);
      DigitsValueFormatNat(n / 10);
    }
  }

  /** `str` writes a digit group, which `Strip` leaves alone. */
  lemma FormatNatIsDigitGroup(n: nat)
    ensures DigitGroup(FormatNat(n))
    ensures Strip(FormatNat(n)) == FormatNat(n)
  {
    var d := FormatNat(n);
    assert !IsSpace(d[0]) && !IsSpace(d[|d| - 1]);
    assert StripLeft(d) == d;
  }

  /** A leading minus sign keeps `Strip` from touching the digits. */
  lemma StripNegative(d: string)
    requires DigitGroup(d)
    ensures Strip("-" + d) == "-" + d
  {
    var s := "-" + d;
    assert s[|s| - 1] == d[|d| - 1];
    assert !IsSpace(s[0]) && !IsSpace(s[|s| - 1]);
    assert StripLeft(s) == s;
  }

  /** `int(str(n)) == n` for a natural number. */
  lemma ParseFormatNat(n: nat)
    ensures ParseInt(FormatNat(n)) == Some(n)
  {
    var d := FormatNat(n);
    FormatNatIsDigitGroup(n);
    DigitsValueFormatNat(n);
    assert IsDigit(d[0]);
  }

  /** `int(str(n)) == n` for a negative number. */
  lemma ParseFormatNegative(n: int)
    requires n < 0
    ensures ParseInt(FormatInt(n)) == Some(n)
  {
    var d := FormatNat(-n);
    FormatNatIsDigitGroup(-n);
    DigitsValueFormatNat(-n);
    StripNegative(d);
    ParseStrippedNegative(d);
  }

  lemma ParseStrippedNegative(d: string)
    requires DigitGroup(d)
    ensures ParseStripped("-" + d) == Some(-(DigitsValue(d) as int))
  {
    var s := "-" + d;
    assert s[0] == '-' && s[1..] == d;
  }

  /** `int(str(n)) == n` for every integer. */
  lemma ParseFormatInt(n: int)
    ensures ParseInt(FormatInt(n)) == Some(n)
  {
    if n < 0 {
      ParseFormatNegative(n);
    } else {
      ParseFormatNat(n);
    }
  }

  /** `int()` rejects an ASCII separator character before the digits. */
  lemma SeparatorIsNotSpace()
    ensures ParseInt(['\U{001C}', '2', '5']) == None
  {
    var t := ['\U{001C}', '2', '5'];
    assert !IsSpace(t[0]) && !IsSpace(t[2]);
    assert StripLeft(t) == t;
    assert StripRight(t) == t;
    assert !DigitGroup(t);
  }
}
