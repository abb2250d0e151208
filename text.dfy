/** Text handling that the cashier applies to what the clerk types: Python's `str.strip()`,
    `str.lower()`, the substring test `in`, and the two conversions `int(...)` and `float(...)`,
    each restricted to the ASCII subset the model covers. */
module Text {

  datatype Option<+T> = None | Some(value: T)

  // ---------------------------------------------------------------------------------------------
  // Whitespace and strip()
  // ---------------------------------------------------------------------------------------------

  /** The ASCII characters for which Python's `str.isspace()` holds: space, 9..13 and 28..31. */
  predicate IsSpace(c: char) {
    c == ' ' || (9 <= c as int <= 13) || (28 <= c as int <= 31)
  }

  /** Number of whitespace characters at the start of `s`. */
  function Leading(s: string): (n: nat)
    ensures n <= |s|
    ensures forall k :: 0 <= k < n ==> IsSpace(s[k])
    ensures n < |s| ==> !IsSpace(s[n])
  {
    if |s| == 0 || !IsSpace(s[0]) then 0 else 1 + Leading(s[1..])
  }

  /** Number of whitespace characters at the end of `s`. */
  function Trailing(s: string): (n: nat)
    ensures n <= |s|
    ensures forall k :: |s| - n <= k < |s| ==> IsSpace(s[k])
    ensures n < |s| ==> !IsSpace(s[|s| - 1 - n])
  {
    if |s| == 0 || !IsSpace(s[|s| - 1]) then 0 else 1 + Trailing(s[..|s| - 1])
  }

  /** `s.strip()`: `s` without its leading and its trailing whitespace. */
  function Strip(s: string): string {
    var rest := s[Leading(s)..];
    rest[..|rest| - Trailing(rest)]
  }

  /** strip() gives the slice of `s` that starts after the leading whitespace. */
  lemma StripSlice(s: string)
    ensures var r := Strip(s);
      Leading(s) + |r| <= |s| && r == s[Leading(s)..Leading(s) + |r|]
  {
    var n := Leading(s);
    var rest := s[n..];
    assert Strip(s) == rest[..|rest| - Trailing(rest)];
  }

  /** Everything strip() cuts away after the slice it keeps is whitespace. */
  lemma StripTail(s: string)
    ensures Leading(s) + |Strip(s)| <= |s|
    ensures forall k :: Leading(s) + |Strip(s)| <= k < |s| ==> IsSpace(s[k])
  {
    var n := Leading(s);
    var rest := s[n..];
    var t := Trailing(rest);
    assert |Strip(s)| == |rest| - t;
    forall k | n + |rest| - t <= k < |s|
      ensures IsSpace(s[k])
    {
      assert s[k] == rest[k - n];
    }
  }

  /** strip() neither starts nor ends with whitespace, and it is empty exactly when `s` is all
      whitespace. */
  lemma StripEnds(s: string)
    ensures var r := Strip(s);
      && (r != [] ==> !IsSpace(r[0]) && !IsSpace(r[|r| - 1]))
      && (r == [] <==> forall k :: 0 <= k < |s| ==> IsSpace(s[k]))
  {
    var n := Leading(s);
    var rest := s[n..];
    var t := Trailing(rest);
    var r := Strip(s);
    assert r == rest[..|rest| - t];
    if r != [] {
      assert r[0] == s[n];
      assert r[|r| - 1] == rest[|rest| - 1 - t];
    }
    if n < |s| {
      assert rest[0] == s[n];
      assert t < |rest|;
    }
    if forall k :: 0 <= k < |s| ==> IsSpace(s[k]) {
      assert n == |s|;
    }
  }

  /** A string that neither starts nor ends with whitespace is its own strip(). */
  lemma StripTrimmed(s: string)
    requires s == [] || (!IsSpace(s[0]) && !IsSpace(s[|s| - 1]))
    ensures Strip(s) == s
  {
    assert Leading(s) == 0;
    assert Trailing(s) == 0;
  }

  /** strip() is idempotent. */
  lemma StripIdempotent(s: string)
    ensures Strip(Strip(s)) == Strip(s)
  {
    StripEnds(s);
    StripTrimmed(Strip(s));
  }

  // ---------------------------------------------------------------------------------------------
  // lower() and the substring test
  // ---------------------------------------------------------------------------------------------

  /** ASCII lower-casing of one character. */
  function LowerChar(c: char): char {
    if 'A' <= c <= 'Z' then (c as int - 'A' as int + 'a' as int) as char else c
  }

  /** `s.lower()` on ASCII letters; every other character is kept. */
  function Lower(s: string): (r: string)
    ensures |r| == |s|
    ensures forall i :: 0 <= i < |s| ==> r[i] == LowerChar(s[i])
  {
    seq(|s|, i requires 0 <= i < |s| => LowerChar(s[i]))
  }

  /** Python's `needle in haystack` on strings: some slice of `haystack` equals `needle`
      (so the empty string is in every string). */
  predicate IsSubstring(needle: string, haystack: string) {
    exists k :: 0 <= k <= |haystack| - |needle| && OccursAt(needle, haystack, k)
  }

  /** `needle` is the slice of `haystack` that starts at index `k`. */
  predicate OccursAt(needle: string, haystack: string, k: int)
    requires 0 <= k <= |haystack| - |needle|
  {
    haystack[k..k + |needle|] == needle
  }

  // ---------------------------------------------------------------------------------------------
  // Decimal digits, int() and str() on integers
  // ---------------------------------------------------------------------------------------------

  predicate IsDigit(c: char) {
    '0' <= c <= '9'
  }

  predicate AllDigits(s: string) {
    forall i :: 0 <= i < |s| ==> IsDigit(s[i])
  }

  /** The value of a string of decimal digits, most significant first. */
  function DigitsValue(s: string): nat
    requires AllDigits(s)
  {
    if s == [] then 0 else DigitsValue(s[..|s| - 1]) * 10 + (s[|s| - 1] as int - '0' as int)
  }

  function DigitChar(d: nat): (c: char)
    requires d < 10
    ensures IsDigit(c) && c as int - '0' as int == d
  {
    ('0' as int + d) as char
  }

  /** `str(n)` for a natural number: its decimal digits, without leading zeros. */
  function Decimal(n: nat): (r: string)
    ensures r != [] && AllDigits(r)
  {
    if n < 10 then [DigitChar(n)] else Decimal(n / 10) + [DigitChar(n % 10)]
  }

  /** `str(n)` for any integer. */
  function IntText(n: int): (r: string)
    ensures r != []
  {
    if n < 0 then "-" + Decimal(-n) else Decimal(n)
  }

  /** `int(s)` on an already stripped string: an optional sign followed by at least one digit;
      anything else is the `ValueError` case, `None`. */
  function ParseInt(s: string): Option<int> {
    if |s| > 0 && (s[0] == '+' || s[0] == '-') then
      var body := s[1..];
      if body != [] && AllDigits(body) then
        var magnitude: int := DigitsValue(body);
        Some(if s[0] == '-' then -magnitude else magnitude)
      else None
    else if s != [] && AllDigits(s) then Some(DigitsValue(s))
    else None
  }

  /** Reading back the digits `str` writes gives the number. */
  lemma {:induction false} DecimalValue(n: nat)
    ensures DigitsValue(Decimal(n)) == n
  {
    var s := Decimal(n);
    if n >= 10 {
      DecimalValue(n / 10);
      assert s[..|s| - 1] == Decimal(n / 10);
    }
  }

  /** `int(str(n)) == n` for every integer. */
  lemma ParseIntRoundTrip(n: int)
    ensures ParseInt(IntText(n)) == Some(n)
  {
    var s := IntText(n);
    if n < 0 {
      DecimalValue(-n);
      assert s[0] == '-' && s[1..] == Decimal(-n);
    } else {
      DecimalValue(n);
      assert IsDigit(s[0]);
    }
  }

  /** `str(n)` never carries whitespace at either end, so strip() leaves it alone. */
  lemma IntTextTrimmed(n: int)
    ensures Strip(IntText(n)) == IntText(n)
  {
    var s := IntText(n);
    if n < 0 {
      assert s[|s| - 1] == Decimal(-n)[|Decimal(-n)| - 1];
    }
    StripTrimmed(s);
  }

  // ---------------------------------------------------------------------------------------------
  // float() on decimal notation
  // ---------------------------------------------------------------------------------------------

  function Pow10(n: nat): (r: nat)
    ensures r >= 1
  {
    if n == 0 then 1 else 10 * Pow10(n - 1)
  }

  /** Index of the first '.' in `s`, or `|s|` when there is none. */
  function FirstDot(s: string): (k: nat)
    ensures k <= |s|
    ensures k < |s| ==> s[k] == '.'
    ensures forall i :: 0 <= i < k ==> s[i] != '.'
  {
    if s == [] || s[0] == '.' then 0 else 1 + FirstDot(s[1..])
  }

  /** Unsigned decimal notation: digits, optionally a '.' and more digits, at least one digit
      in all ("7", "7.5", ".5" and "7." are all accepted, as by Python). */
  function ParseUnsigned(s: string): Option<real> {
    var k := FirstDot(s);
    if k == |s| then
      if s != [] && AllDigits(s) then Some(DigitsValue(s) as real) else None
    else PointedValue(s[..k], s[k + 1..])
  }

  /** The value of the digits before and after a '.'; at least one digit is required. */
  function PointedValue(whole: string, fraction: string): Option<real> {
    if |whole| + |fraction| > 0 && AllDigits(whole) && AllDigits(fraction) then
      Some(DigitsValue(whole) as real + DigitsValue(fraction) as real / Pow10(|fraction|) as real)
    else None
  }

  /** `float(s)` on an already stripped string, for signed decimal notation. */
  function ParseAmount(s: string): Option<real> {
    if |s| > 0 && (s[0] == '+' || s[0] == '-') then
      match ParseUnsigned(s[1..])
      case None => None
      case Some(v) => Some(if s[0] == '-' then -v else v)
    else ParseUnsigned(s)
  }

  /** An amount of cents written the way a clerk types money: "12.05". */
  function CentsText(cents: nat): (r: string)
    ensures r != []
  {
    Decimal(cents / 100) + "." + [DigitChar(cents % 100 / 10), DigitChar(cents % 10)]
  }

  /** In digits followed by a '.', the first '.' is the one after the digits. */
  lemma {:induction false} FirstDotAfterDigits(digits: string, rest: string)
    requires AllDigits(digits)
    requires rest != [] && rest[0] == '.'
    ensures FirstDot(digits + rest) == |digits|
  {
    if digits != [] {
      assert (digits + rest)[1..] == digits[1..] + rest;
      FirstDotAfterDigits(digits[1..], rest);
    }
  }

  /** Two digits are read as tens and units. */
  lemma TwoDigitsValue(tens: nat, units: nat)
    requires tens < 10 && units < 10
    ensures DigitsValue([DigitChar(tens), DigitChar(units)]) == tens * 10 + units
  {
    var s := [DigitChar(tens), DigitChar(units)];
    assert s[..1] == [DigitChar(tens)];
    assert [DigitChar(tens)][..0] == [];
    assert DigitsValue([DigitChar(tens)]) == tens;
    assert DigitsValue(s) == DigitsValue(s[..1]) * 10 + units;
  }

  /** Digits, a '.', and more digits are read as the whole part plus the fraction. */
  lemma ParsePointed(whole: string, fraction: string)
    requires AllDigits(whole) && AllDigits(fraction)
    requires |whole| + |fraction| > 0
    ensures ParseUnsigned(whole + "." + fraction) == PointedValue(whole, fraction)
  {
    var s := whole + "." + fraction;
    assert s == whole + ("." + fraction);
    FirstDotAfterDigits(whole, "." + fraction);
    var k := FirstDot(s);
    assert k == |whole| < |s|;
    assert s[..k] == whole;
    assert s[k + 1..] == fraction;
  }

  /** Without a sign, `float` reads the unsigned notation. */
  lemma ParseUnsignedFirst(s: string)
    requires s == [] || (s[0] != '+' && s[0] != '-')
    ensures ParseAmount(s) == ParseUnsigned(s)
  {
  }

  /** Whole units and cents, as one amount. */
  lemma CentsAmount(cents: nat)
    ensures (cents / 100) as real + (cents % 100 / 10 * 10 + cents % 10) as real / 100.0
         == cents as real / 100.0
  {
    var q, m := cents / 100, cents % 100;
    assert m / 10 * 10 + cents % 10 == m;
    assert q * 100 + m == cents;
    assert q as real + m as real / 100.0 == (q * 100 + m) as real / 100.0;
  }

  /** Digits before a '.' and two digits after it, given their values. */
  lemma PointedHundredths(digits: string, fraction: string, whole: nat, hundredths: nat)
    requires AllDigits(digits) && AllDigits(fraction) && |fraction| == 2
    requires DigitsValue(digits) == whole && DigitsValue(fraction) == hundredths
    ensures PointedValue(digits, fraction) == Some(whole as real + hundredths as real / 100.0)
  {
    assert Pow10(|fraction|) == 100;
  }

  /** `float` reads a whole number, a '.' and two digits as the whole number plus the
      hundredths the two digits give. */
  lemma TwoDecimalsParsed(whole: nat, tens: nat, units: nat)
    requires tens < 10 && units < 10
    ensures ParseAmount(Decimal(whole) + "." + [DigitChar(tens), DigitChar(units)])
         == Some(whole as real + (tens * 10 + units) as real / 100.0)
  {
    var digits := Decimal(whole);
    var fraction := [DigitChar(tens), DigitChar(units)];
    var s := digits + "." + fraction;
    assert ParseAmount(s) == PointedValue(digits, fraction) by {
      ParsePointed(digits, fraction);
      assert s[0] == digits[0];
      ParseUnsignedFirst(s);
    }
    DecimalValue(whole);
    TwoDigitsValue(tens, units);
    PointedHundredths(digits, fraction, whole, tens * 10 + units);
  }

  /** `float` reads an amount written with two decimals back as that exact amount. */
  lemma CentsRoundTrip(cents: nat)
    ensures ParseAmount(CentsText(cents)) == Some(cents as real / 100.0)
  {
    TwoDecimalsParsed(cents / 100, cents % 100 / 10, cents % 10);
    CentsAmount(cents);
  }

  /** A string `int` accepts is read by `float` as the same number. */
  lemma ParseAmountOfInt(s: string, n: int)
    requires ParseInt(s) == Some(n)
    ensures ParseAmount(s) == Some(n as real)
  {
    var body := if s[0] == '+' || s[0] == '-' then s[1..] else s;
    assert FirstDot(body) == |body|;
  }

  /** Two decimals never carry whitespace at either end, so strip() leaves them alone. */
  lemma CentsTextTrimmed(cents: nat)
    ensures Strip(CentsText(cents)) == CentsText(cents)
  {
    var s := CentsText(cents);
    assert s[0] == Decimal(cents / 100)[0];
    StripTrimmed(s);
  }
}
