/**
 * The three pieces of Python's text-to-number machinery that the controller
 * relies on, restricted to ASCII text:
 *   - `str.isnumeric()` (the guard on the step field),
 *   - `int(text)` (parsing the step field and the two factor texts),
 *   - `str(n)` (printing the magnitude into a frame).
 */
module PyText {
  import opened Wrappers

  predicate IsDigit(c: char) { '0' <= c <= '9' }

  /**
   * The whitespace `int()` ignores around an ASCII argument: space and
   * \t \n \v \f \r. (The separators 0x1C-0x1F, which `str.isspace()` also
   * accepts, are not stripped from ASCII text.)
   */
  predicate IsSpace(c: char) { c == ' ' || '\t' <= c <= '\r' }

  predicate AllDigits(s: string) { forall i :: 0 <= i < |s| ==> IsDigit(s[i]) }

  /** `s.isnumeric()`: true exactly for a non-empty string of digits. */
  predicate IsNumeric(s: string) { |s| > 0 && AllDigits(s) }

  /** Decimal text without superfluous leading zeros, as `str` prints a non-negative int. */
  predicate Canonical(s: string) { IsNumeric(s) && (s[0] == '0' ==> s == "0") }

  function DigitValue(c: char): (d: nat)
    requires IsDigit(c)
    ensures d < 10
  {
    (c as int) - ('0' as int)
  }

  function DigitChar(d: nat): (c: char)
    requires d < 10
    ensures IsDigit(c) && DigitValue(c) == d
  {
    ('0' as int + d) as char
  }

  /** The number a string of decimal digits denotes, most significant digit first. */
  function DigitsValue(s: string): nat
    requires AllDigits(s)
  {
    if s == [] then 0 else DigitsValue(s[..|s| - 1]) * 10 + DigitValue(s[|s| - 1])
  }

  /** `str(n)` for n >= 0: the canonical decimal text that denotes n. */
  function NatToString(n: nat): (s: string)
    ensures Canonical(s) && DigitsValue(s) == n
  {
    if n < 10 then [DigitChar(n)]
    else
      var prefix := NatToString(n / 10);
      var s := prefix + [DigitChar(n % 10)];
      assert s[..|s| - 1] == prefix;
      s
  }

  /** `str(n)` for any int: a minus sign in front of the magnitude when n is negative. */
  function IntToString(n: int): (s: string)
    ensures n >= 0 ==> Canonical(s) && DigitsValue(s) == n
    ensures n < 0 ==> |s| >= 2 && s[0] == '-' && Canonical(s[1..]) && s[1..] != "0" && DigitsValue(s[1..]) == -n
  {
    if n >= 0 then NatToString(n)
    else
      var s := "-" + NatToString(-n);
      assert s[1..] == NatToString(-n);
      s
  }

  /** Removes the whitespace that `int()` ignores at the front of its argument. */
  function StripLeading(s: string): (t: string)
    ensures |t| <= |s| && t == s[|s| - |t|..]
    ensures t == [] || !IsSpace(t[0])
    ensures forall i :: 0 <= i < |s| - |t| ==> IsSpace(s[i])
  {
    if s != [] && IsSpace(s[0]) then StripLeading(s[1..]) else s
  }

  /** Removes the whitespace that `int()` ignores at the end of its argument. */
  function StripTrailing(s: string): (t: string)
    ensures |t| <= |s| && t == s[..|t|]
    ensures t == [] || !IsSpace(t[|t| - 1])
    ensures forall i :: |t| <= i < |s| ==> IsSpace(s[i])
  {
    if s != [] && IsSpace(s[|s| - 1]) then StripTrailing(s[..|s| - 1]) else s
  }

  function Strip(s: string): string { StripTrailing(StripLeading(s)) }

  /**
   * The digit part `int()` accepts after the optional sign: digits, where a
   * single underscore may separate two digits ("1_000").
   */
  predicate Grouped(b: string) {
    && |b| > 0
    && IsDigit(b[0])
    && IsDigit(b[|b| - 1])
    && (forall i :: 0 <= i < |b| ==> IsDigit(b[i]) || b[i] == '_')
    && (forall i :: 0 <= i < |b| - 1 ==> IsDigit(b[i]) || IsDigit(b[i + 1]))
  }

  /** The digits of `b` with the separating underscores taken out. */
  function DropUnderscores(b: string): (d: string)
    requires forall i :: 0 <= i < |b| ==> IsDigit(b[i]) || b[i] == '_'
    ensures AllDigits(d) && |d| <= |b|
    ensures AllDigits(b) ==> d == b
  {
    if b == [] then []
    else if b[0] == '_' then DropUnderscores(b[1..])
    else [b[0]] + DropUnderscores(b[1..])
  }

  /** Exactly the underscores are dropped: the digits that remain are as many as the characters that were not `_`. */
  lemma {:induction false} DropUnderscoresCount(b: string)
    requires forall i :: 0 <= i < |b| ==> IsDigit(b[i]) || b[i] == '_'
    ensures |DropUnderscores(b)| == |b| - multiset(b)['_']
  {
    if b != [] {
      assert b == [b[0]] + b[1..];
      DropUnderscoresCount(b[1..]);
    }
  }

  /** The digit part of `int()`'s argument: None where it is not digits and single underscores. */
  function ParseGrouped(b: string): Option<nat> {
    if Grouped(b) then Some(DigitsValue(DropUnderscores(b))) else None
  }

  /** The stripped argument of `int()`: an optional sign, then the digit part. */
  function ParseSigned(t: string): Option<int> {
    if |t| > 0 && (t[0] == '+' || t[0] == '-') then
      match ParseGrouped(t[1..])
      case None => None
      case Some(v) => Some(if t[0] == '-' then -(v as int) else v)
    else
      match ParseGrouped(t)
      case None => None
      case Some(v) => Some(v)
  }

  /**
   * `int(s)` on a string: None where Python raises ValueError. Surrounding
   * ASCII whitespace is ignored, one sign is allowed, leading zeros are allowed.
   */
  function ParseInt(s: string): Option<int> {
    ParseSigned(Strip(s))
  }

  /** Taking out underscores works piecewise: the digits of `x + y` are the digits of x, then those of y. */
  lemma {:induction false} DropUnderscoresAppend(x: string, y: string)
    requires forall i :: 0 <= i < |x| ==> IsDigit(x[i]) || x[i] == '_'
    requires forall i :: 0 <= i < |y| ==> IsDigit(y[i]) || y[i] == '_'
    ensures DropUnderscores(x + y) == DropUnderscores(x) + DropUnderscores(y)
  {
    if x != [] {
      assert (x + y)[0] == x[0];
      assert (x + y)[1..] == x[1..] + y;
      DropUnderscoresAppend(x[1..], y);
    } else {
      assert x + y == y;
    }
  }

  /** One digit group is kept, one separating underscore is dropped: `int("1_000") == 1000`. */
  lemma GroupedThousand()
    ensures ParseInt("1_000") == Some(1000)
  {
    var s := "1_000";
    ThousandDigits();
    ThousandValue();
    assert Grouped(s);
    StripNoSpace(s);
    assert s[0] != '+' && s[0] != '-';
    assert ParseGrouped(s) == Some(1000);
  }

  lemma ThousandDigits()
    ensures DropUnderscores("1_000") == "1000"
  {
    var x, y := "1_", "000";
    assert "1_000" == x + y;
    DropUnderscoresAppend(x, y);
    assert DropUnderscores(x) == "1" by {
      assert x[1..] == "_" && "_"[1..] == [];
    }
    assert DropUnderscores(y) == y;
  }

  lemma ThousandValue()
    ensures AllDigits("1000") && DigitsValue("1000") == 1000
  {
    var d := "1000";
    assert d[..3] == "100" && "100"[..2] == "10" && "10"[..1] == "1" && "1"[..0] == [];
  }

  /** The file separator 0x1C is not whitespace to `int()` on ASCII text: `int("10\x1c")` raises. */
  lemma SeparatorNotStripped()
    ensures ParseInt("10\U{1C}") == None
  {
    var s := "10\U{1C}";
    assert !IsSpace(s[0]) && !IsSpace(s[2]);
    assert StripLeading(s) == s;
    assert StripTrailing(s) == s;
    assert !IsDigit(s[2]) && !Grouped(s);
    assert s[0] != '+' && s[0] != '-';
    assert ParseSigned(s) == None;
  }

  lemma StripNoSpace(s: string)
    requires s != [] && !IsSpace(s[0]) && !IsSpace(s[|s| - 1])
    ensures Strip(s) == s
  {
  }

  /** Whatever passes `isnumeric()` is accepted by `int()`, with its digit value. */
  lemma ParseNumeric(s: string)
    requires IsNumeric(s)
    ensures ParseInt(s) == Some(DigitsValue(s))
  {
    StripNoSpace(s);
    assert ParseGrouped(s) == Some(DigitsValue(s));
  }

  /** `int(str(n)) == n` for every int. */
  lemma ParseIntToString(n: int)
    ensures ParseInt(IntToString(n)) == Some(n)
  {
    var s := IntToString(n);
    StripNoSpace(s);
    if n < 0 {
      var d := s[1..];
      assert s[0] == '-' && Grouped(d) && DropUnderscores(d) == d;
      assert ParseGrouped(d) == Some(-n);
      assert ParseSigned(s) == Some(n);
    } else {
      assert s[0] != '+' && s[0] != '-';
      assert Grouped(s) && DropUnderscores(s) == s;
      assert ParseGrouped(s) == Some(n);
    }
  }

  lemma {:induction false} LeadingDigitPositive(s: string)
    requires IsNumeric(s) && s[0] != '0'
    ensures DigitsValue(s) > 0
  {
    if |s| > 1 {
      var p := s[..|s| - 1];
      assert p[0] == s[0];
      LeadingDigitPositive(p);
    }
  }

  /** `str` prints a canonical decimal text back exactly: `str(int(d)) == d`. */
  lemma {:induction false} CanonicalRoundTrip(d: string)
    requires Canonical(d)
    ensures NatToString(DigitsValue(d)) == d
  {
    if |d| > 1 {
      var p := d[..|d| - 1];
      assert p[0] == d[0];
      LeadingDigitPositive(p);
      CanonicalRoundTrip(p);
      var n := DigitsValue(d);
      assert n / 10 == DigitsValue(p) && n % 10 == DigitValue(d[|d| - 1]);
      assert d == p + [d[|d| - 1]];
    }
  }

  /** A canonical decimal text is `str` of exactly one natural number. */
  lemma CanonicalUnique(d: string, n: nat)
    requires Canonical(d)
    ensures d == NatToString(n) <==> DigitsValue(d) == n
  {
    CanonicalRoundTrip(d);
  }

}
