/**
 * Python's str(n) for an int and int(s) for a decimal string: the two
 * conversions the scripts apply to command-line numbers.
 */
module PyInt {
  import opened Wrappers
  import opened PyText

  predicate IsDigit(c: char) {
    '0' <= c <= '9'
  }

  function DigitValue(c: char): nat
    requires IsDigit(c)
  {
    c as int - '0' as int
  }

  function DigitChar(d: nat): (c: char)
    requires d < 10
    ensures IsDigit(c) && DigitValue(c) == d
  {
    ('0' as int + d) as char
  }

  predicate AllDigits(s: string) {
    forall k :: 0 <= k < |s| ==> IsDigit(s[k])
  }

  /** The number a string of decimal digits denotes (most significant first). */
  function DigitsValue(s: string): nat
    requires AllDigits(s)
  {
    if s == [] then 0 else 10 * DigitsValue(s[..|s| - 1]) + DigitValue(s[|s| - 1])
  }

  /** str(n) for n >= 0: shortest decimal digits, no leading zero. */
  function NatString(n: nat): (r: string)
    ensures |r| >= 1 && AllDigits(r)
    ensures |r| > 1 ==> r[0] != '0'
  {
    if n < 10 then [DigitChar(n)] else NatString(n / 10) + [DigitChar(n % 10)]
  }

  /** Python's str(n): a minus sign before the digits of a negative number. */
  function DecimalString(n: int): (r: string)
    ensures |r| >= 1 && (r[0] == '-' <==> n < 0)
  {
    if n < 0 then "-" + NatString(-n) else NatString(n)
  }

  /**
   * The digit part int() accepts: digits, with single underscores allowed
   * between two digits ("1_000").
   */
  predicate WellFormedDigits(b: string) {
    && |b| > 0 && IsDigit(b[0]) && IsDigit(b[|b| - 1])
    && (forall k :: 0 <= k < |b| ==> IsDigit(b[k]) || b[k] == '_')
    && (forall k :: 0 <= k < |b| - 1 ==> b[k] == '_' ==> b[k + 1] != '_')
  }

  function RemoveUnderscores(b: string): (r: string)
    ensures (forall k :: 0 <= k < |b| ==> IsDigit(b[k]) || b[k] == '_') ==> AllDigits(r)
  {
    if b == [] then [] else (if b[0] == '_' then [] else [b[0]]) + RemoveUnderscores(b[1..])
  }

  /**
   * The white space int() skips around the number. Non-ASCII white space is
   * first turned into ' ', then only the six ASCII spaces " \t\n\v\f\r" are
   * skipped, so the separators U+001C..U+001F, which str.isspace() accepts,
   * make int() raise.
   */
  predicate IsIntSpace(c: char) {
    IsSpace(c) && !('\U{1C}' <= c <= '\U{1F}')
  }

  /** Leading int() white space removed. */
  function TrimLeft(s: string): (r: string)
    ensures |r| <= |s| && r == s[|s| - |r|..]
    ensures forall k :: 0 <= k < |s| - |r| ==> IsIntSpace(s[k])
    ensures r == [] || !IsIntSpace(r[0])
  {
    if |s| > 0 && IsIntSpace(s[0]) then TrimLeft(s[1..]) else s
  }

  /** Trailing int() white space removed. */
  function TrimRight(s: string): (r: string)
    ensures |r| <= |s| && r == s[..|r|]
    ensures forall k :: |r| <= k < |s| ==> IsIntSpace(s[k])
    ensures r == [] || !IsIntSpace(r[|r| - 1])
  {
    if |s| > 0 && IsIntSpace(s[|s| - 1]) then TrimRight(s[..|s| - 1]) else s
  }

  /**
   * Python's int(s) in base 10: surrounding white space ignored, an optional
   * sign, then well-formed digits; None where Python raises ValueError on
   * a malformed string. CPython's limit on the number of digits is not
   * modelled: longer strings parse here.
   */
  function ParseInt(s: string): Option<int> {
    ParseSigned(TrimRight(TrimLeft(s)))
  }

  /** int() on text without surrounding white space. */
  function ParseSigned(t: string): Option<int> {
    if |t| > 0 && t[0] == '-' then
      match ParseDigits(t[1..])
      case Some(v) => Some(-(v as int))
      case None => None
    else if |t| > 0 && t[0] == '+' then
      match ParseDigits(t[1..])
      case Some(v) => Some(v as int)
      case None => None
    else
      match ParseDigits(t)
      case Some(v) => Some(v as int)
      case None => None
  }

  /** The unsigned digit part: None unless well formed. */
  function ParseDigits(b: string): Option<nat> {
    if WellFormedDigits(b) then Some(DigitsValue(RemoveUnderscores(b))) else None
  }

  lemma {:induction false} NatStringValue(n: nat)
    ensures DigitsValue(NatString(n)) == n
  {
    if n >= 10 {
      NatStringValue(n / 10);
      var s := NatString(n);
      assert s[..|s| - 1] == NatString(n / 10);
    }
  }

  lemma {:induction false} RemoveUnderscoresNone(b: string)
    requires AllDigits(b)
    ensures RemoveUnderscores(b) == b
  {
    if b != [] {
      RemoveUnderscoresNone(b[1..]);
      assert [b[0]] + b[1..] == b;
    }
  }

  /** int(str(n)) == n for every integer n. */
  lemma ParseDecimalString(n: int)
    ensures ParseInt(DecimalString(n)) == Some(n)
  {
    DecimalStringTrimmed(n);
    SignedDecimalString(n);
  }

  /** The sign and digits of str(n) read back as n. */
  lemma SignedDecimalString(n: int)
    ensures ParseSigned(DecimalString(n)) == Some(n)
  {
    if n < 0 {
      ParseNegative(-n);
    } else {
      ParseNonNegative(n);
    }
  }

  /** str(n) has no white space for int() to skip. */
  lemma DecimalStringTrimmed(n: int)
    ensures TrimRight(TrimLeft(DecimalString(n))) == DecimalString(n)
  {
    var s := DecimalString(n);
    var d := NatString(if n < 0 then -n else n);
    assert IsDigit(d[0]) && IsDigit(d[|d| - 1]);
    DigitNotSpace(d[0]);
    if n < 0 {
      assert s == "-" + d;
      assert s[0] == '-' && s[|s| - 1] == d[|d| - 1];
    }
    StripKeeps(s);
  }

  /** int() reads back the minus sign and digits of a negative number. */
  lemma ParseNegative(m: nat)
    ensures ParseSigned("-" + NatString(m)) == Some(-(m as int))
  {
    var digits := NatString(m);
    var s := "-" + digits;
    assert s[0] == '-' && s[1..] == digits;
    ParseNatString(m);
  }

  /** int() reads back the digits of a non-negative number. */
  lemma ParseNonNegative(m: nat)
    ensures ParseSigned(NatString(m)) == Some(m as int)
  {
    var digits := NatString(m);
    assert IsDigit(digits[0]);
    ParseNatString(m);
  }

  lemma ParseNatString(m: nat)
    ensures ParseDigits(NatString(m)) == Some(m)
  {
    var digits := NatString(m);
    WellFormedAllDigits(digits);
    RemoveUnderscoresNone(digits);
    NatStringValue(m);
  }

  lemma WellFormedAllDigits(d: string)
    requires |d| > 0 && AllDigits(d)
    ensures WellFormedDigits(d)
  {
  }

  /** Text that starts with a non-space and ends with a digit is left as it is. */
  lemma StripKeeps(s: string)
    requires |s| > 0 && !IsIntSpace(s[0]) && IsDigit(s[|s| - 1])
    ensures TrimRight(TrimLeft(s)) == s
  {
    DigitNotSpace(s[|s| - 1]);
    assert TrimLeft(s) == s;
    assert TrimRight(s) == s;
  }

  lemma DigitNotSpace(c: char)
    requires IsDigit(c)
    ensures !IsSpace(c) && !IsIntSpace(c)
  {
  }

  /** int() skips a no-break space and a trailing blank around the number. */
  lemma NoBreakSpaceSkipped()
    ensures ParseInt("\U{A0}5 ") == Some(5)
  {
    assert TrimLeft("\U{A0}5 ") == "5 " by {
      assert "\U{A0}5 "[1..] == "5 ";
    }
    assert TrimRight("5 ") == "5" by {
      assert "5 "[..1] == "5";
    }
    assert WellFormedDigits("5");
    assert RemoveUnderscores("5") == "5";
  }

  /** U+001C is white space to str.isspace() but not to int(), which raises. */
  lemma SeparatorNotSkipped()
    ensures IsSpace('\U{1C}') && ParseInt("\U{1C}5") == None
  {
    var s := "\U{1C}5";
    assert |s| == 2 && s[0] == '\U{1C}' && s[1] == '5';
    assert !IsIntSpace(s[0]);
    DigitNotSpace(s[1]);
    assert TrimLeft(s) == s;
    assert TrimRight(s) == s;
    assert !IsDigit(s[0]);
    assert ParseDigits(s) == None;
    assert ParseSigned(s) == None;
  }
}
