/**
 * The string operations of Python 2 that the webhook relies on: `str.lower()` (ASCII only),
 * `int(u)` on a `unicode` string, and `str(n)` / `'{}'.format(n)` on an integer.
 */
module Strings {
  import opened Wrappers

  /** The exceptions the modelled code can raise. */
  datatype PyError = ValueError | TypeError | KeyError(key: string) | UnicodeEncodeError

  /**
   * Every character is ASCII. Python 2 fills a byte-string template (`'...{}...'.format(u)`) with a
   * unicode argument by encoding it as ASCII, which raises `UnicodeEncodeError` on any other character.
   */
  predicate IsAscii(s: string) {
    forall i :: 0 <= i < |s| ==> s[i] as int < 128
  }

  function LowerChar(c: char): char {
    if 'A' <= c <= 'Z' then (c as int + 32) as char else c
  }

  /** `s.lower()`, restricted to ASCII letters. */
  function Lower(s: string): (r: string)
    ensures |r| == |s|
    ensures forall i :: 0 <= i < |s| ==> r[i] == LowerChar(s[i])
  {
    seq(|s|, i requires 0 <= i < |s| => LowerChar(s[i]))
  }

  /** No ASCII upper-case letter occurs in `s`. */
  predicate IsLowerCase(s: string) {
    forall i :: 0 <= i < |s| ==> !('A' <= s[i] <= 'Z')
  }

  /** `a` and `b` spell the same word in some mix of letter cases. */
  predicate SameIgnoringCase(a: string, b: string) {
    |a| == |b| && forall i :: 0 <= i < |a| ==> LowerChar(a[i]) == LowerChar(b[i])
  }

  lemma LowerIsLowerCase(s: string)
    ensures IsLowerCase(Lower(s))
  {
  }

  lemma LowerOfLowerCase(s: string)
    requires IsLowerCase(s)
    ensures Lower(s) == s
  {
  }

  /** Lower-casing twice is lower-casing once. */
  lemma LowerIdempotent(s: string)
    ensures Lower(Lower(s)) == Lower(s)
  {
    LowerIsLowerCase(s);
    LowerOfLowerCase(Lower(s));
  }

  /** Two strings lower-case alike exactly when they agree up to letter case. */
  lemma SameIgnoringCaseIffLowerEqual(a: string, b: string)
    ensures SameIgnoringCase(a, b) <==> Lower(a) == Lower(b)
  {
    if Lower(a) == Lower(b) {
      forall i | 0 <= i < |a|
        ensures LowerChar(a[i]) == LowerChar(b[i])
      {
        assert Lower(a)[i] == Lower(b)[i];
      }
    }
  }

  /** The bytes C's `isspace` accepts in the "C" locale: space, and tab through carriage return. */
  predicate IsSpace(c: char) {
    c == ' ' || '\t' <= c <= '\r'
  }

  predicate IsDigit(c: char) {
    '0' <= c <= '9'
  }

  predicate AllDigits(s: string) {
    forall i :: 0 <= i < |s| ==> IsDigit(s[i])
  }

  /** `s` without its leading white space. */
  function SkipSpaces(s: string): (r: string)
    ensures |r| <= |s|
    ensures r == [] || !IsSpace(r[0])
  {
    if |s| > 0 && IsSpace(s[0]) then SkipSpaces(s[1..]) else s
  }

  /** The number of decimal digits at the front of `s`. */
  function DigitRun(s: string): (n: nat)
    ensures n <= |s| && AllDigits(s[..n])
    ensures n < |s| ==> !IsDigit(s[n])
  {
    if |s| > 0 && IsDigit(s[0]) then 1 + DigitRun(s[1..]) else 0
  }

  function DigitValue(c: char): nat
    requires IsDigit(c)
  {
    c as int - '0' as int
  }

  function DigitChar(d: nat): (c: char)
    requires d < 10
    ensures IsDigit(c) && DigitValue(c) == d
  {
    ('0' as int + d) as char
  }

  /** The number a string of decimal digits denotes, most significant digit first. */
  function DigitsValue(ds: string): nat
    requires AllDigits(ds)
  {
    if ds == [] then 0 else 10 * DigitsValue(ds[..|ds| - 1]) + DigitValue(ds[|ds| - 1])
  }

  /**
   * White space as Python 2.7's `unicode` type knows it (Unicode 5.2): tab through carriage return,
   * the separators U+001C to U+001F, space, and the non-ASCII spaces and line separators.
   */
  predicate IsUnicodeSpace(c: char) {
    '\t' <= c <= '\r' || '\U{1C}' <= c <= ' ' || c == '\U{85}' || c == '\U{A0}' || c == '\U{1680}'
    || c == '\U{180E}' || '\U{2000}' <= c <= '\U{200A}' || c == '\U{2028}' || c == '\U{2029}'
    || c == '\U{202F}' || c == '\U{205F}' || c == '\U{3000}'
  }

  /** A character the decimal encoder behind `int(u)` accepts: white space, or U+0001 to U+00FF. */
  predicate DecimalEncodable(c: char) {
    IsUnicodeSpace(c) || 0 < c as int < 256
  }

  /** The byte the decimal encoder writes for an accepted character. */
  function EncodeDecimalChar(c: char): char {
    if IsUnicodeSpace(c) then ' ' else c
  }

  /**
   * The first step of `int(u)` on a `unicode` value: every white-space character becomes a space,
   * every other character from U+0001 to U+00FF stays as it is, and any other character (NUL, or a
   * code point above U+00FF) raises `UnicodeEncodeError`. The result holds bytes only, and it has a
   * C white-space byte exactly where the text has Unicode white space.
   */
  function EncodeDecimal(s: string): (r: Result<string, PyError>)
    ensures r.Success? <==> forall i :: 0 <= i < |s| ==> DecimalEncodable(s[i])
    ensures r.Failure? ==> r.error == UnicodeEncodeError
    ensures r.Success? ==> |r.value| == |s|
    ensures r.Success? ==>
              forall i :: 0 <= i < |s| ==>
                0 < r.value[i] as int < 256
                && (IsSpace(r.value[i]) <==> IsUnicodeSpace(s[i]))
                && (IsDigit(r.value[i]) <==> IsDigit(s[i]))
                && (!IsUnicodeSpace(s[i]) ==> r.value[i] == s[i])
  {
    if forall i :: 0 <= i < |s| ==> DecimalEncodable(s[i]) then
      Success(seq(|s|, i requires 0 <= i < |s| => EncodeDecimalChar(s[i])))
    else
      Failure(UnicodeEncodeError)
  }

  /**
   * Python 2's `int(u)` for a `unicode` string in base 10: the decimal encoder first, then `int` on
   * the bytes it wrote. It raises `UnicodeEncodeError` exactly when the text holds a character the
   * encoder refuses, and otherwise `ValueError` when the bytes are not a number.
   */
  function ParseInt(s: string): (r: Result<int, PyError>)
    ensures r.Failure? ==> r.error == ValueError || r.error == UnicodeEncodeError
    ensures r == Failure(UnicodeEncodeError) <==> exists i :: 0 <= i < |s| && !DecimalEncodable(s[i])
  {
    match EncodeDecimal(s)
    case Failure(e) => Failure(e)
    case Success(bytes) => IntFromBytes(bytes)
  }

  /**
   * `int(s)` for a base-10 byte string: white space around the number, an optional sign, white
   * space again after the sign (the C routine behind `int` skips it a second time), then one or
   * more digits. Anything else raises `ValueError`.
   */
  function IntFromBytes(s: string): (r: Result<int, PyError>)
    ensures r.Failure? ==> r.error == ValueError
  {
    var t := SkipSpaces(s);
    if |t| > 0 && (t[0] == '+' || t[0] == '-') then
      match ParseUnsigned(SkipSpaces(t[1..]))
      case Success(m) => Success(if t[0] == '-' then -(m as int) else m as int)
      case Failure(e) => Failure(e)
    else
      ParseUnsigned(t)
  }

  /** The digits-and-trailing-space part of `int(s)`, once the sign has been read. */
  function ParseUnsigned(u: string): (r: Result<nat, PyError>)
    ensures r.Failure? ==> r.error == ValueError
  {
    var n := DigitRun(u);
    if n == 0 || SkipSpaces(u[n..]) != [] then Failure(ValueError)
    else Success(DigitsValue(u[..n]))
  }

  /** `str(n)` for a non-negative integer: its decimal digits without leading zeros. */
  function ShowNat(n: nat): (s: string)
    ensures |s| > 0 && AllDigits(s)
  {
    if n < 10 then [DigitChar(n)] else ShowNat(n / 10) + [DigitChar(n % 10)]
  }

  /** `str(n)`: a minus sign for negative numbers, then the digits of the magnitude. */
  function ShowInt(n: int): string {
    if n < 0 then "-" + ShowNat(-n) else ShowNat(n)
  }

  lemma {:induction false} ShowNatValue(n: nat)
    ensures DigitsValue(ShowNat(n)) == n
  {
    if n >= 10 {
      var s := ShowNat(n);
      assert s[..|s| - 1] == ShowNat(n / 10);
      ShowNatValue(n / 10);
    }
  }

  lemma {:induction false} DigitRunOfDigits(s: string)
    requires AllDigits(s)
    ensures DigitRun(s) == |s|
  {
    if |s| > 0 {
      assert AllDigits(s[1..]);
      DigitRunOfDigits(s[1..]);
    }
  }

  /** Text of plain bytes with no white space passes the decimal encoder unchanged. */
  lemma EncodeDecimalOfPlainText(s: string)
    requires forall i :: 0 <= i < |s| ==> 0 < s[i] as int < 256 && !IsUnicodeSpace(s[i])
    ensures EncodeDecimal(s) == Success(s)
  {
    assert EncodeDecimal(s).Success?;
    assert EncodeDecimal(s).value == s;
  }

  /** The bytes `str(n)` prints are read back as `n`. */
  lemma IntFromBytesOfShowInt(n: int)
    ensures IntFromBytes(ShowInt(n)) == Success(n)
  {
    var m: nat := if n < 0 then -n else n;
    var digits := ShowNat(m);
    ShowNatValue(m);
    DigitRunOfDigits(digits);
    assert SkipSpaces(digits) == digits;
    assert digits[..|digits|] == digits;
    assert ParseUnsigned(digits) == Success(m);
    if n < 0 {
      var s := ShowInt(n);
      assert s == "-" + digits;
      assert SkipSpaces(s) == s;
      assert s[1..] == digits;
    }
  }

  /** `str(n)` prints a minus sign and digits only. */
  lemma ShowIntIsPlainText(n: int)
    ensures forall i :: 0 <= i < |ShowInt(n)| ==> 0 < ShowInt(n)[i] as int < 256 && !IsUnicodeSpace(ShowInt(n)[i])
  {
    var s := ShowInt(n);
    if n < 0 {
      var digits := ShowNat(-n);
      forall i | 0 <= i < |s| ensures s[i] == '-' || IsDigit(s[i]) {
        if i > 0 { assert s[i] == digits[i - 1]; }
      }
    }
  }

  /** Reading back what `str(n)` prints gives `n`: `int(str(n)) == n` for every integer. */
  lemma ParseShowInt(n: int)
    ensures ParseInt(ShowInt(n)) == Success(n)
  {
    ShowIntIsPlainText(n);
    EncodeDecimalOfPlainText(ShowInt(n));
    IntFromBytesOfShowInt(n);
  }

  /** Skipping white space gets past a run of white space at the front. */
  lemma {:induction false} SkipSpacesAfterSpaces(w: string, t: string)
    requires forall i :: 0 <= i < |w| ==> IsSpace(w[i])
    ensures SkipSpaces(w + t) == SkipSpaces(t)
  {
    if |w| > 0 {
      assert (w + t)[0] == w[0];
      assert (w + t)[1..] == w[1..] + t;
      SkipSpacesAfterSpaces(w[1..], t);
    } else {
      assert w + t == t;
    }
  }

  /** White space in front of encodable text encodes to C white space in front of its encoding. */
  lemma EncodeDecimalAfterSpaces(w: string, s: string)
    requires forall i :: 0 <= i < |w| ==> IsUnicodeSpace(w[i])
    requires EncodeDecimal(s).Success?
    ensures EncodeDecimal(w + s).Success?
    ensures var bytes := EncodeDecimal(w + s).value;
            bytes == bytes[..|w|] + EncodeDecimal(s).value
            && forall i :: 0 <= i < |w| ==> IsSpace(bytes[i])
  {
    var ws := w + s;
    forall i | 0 <= i < |ws| ensures DecimalEncodable(ws[i]) {
      if i >= |w| { assert ws[i] == s[i - |w|]; }
    }
    var bytes := EncodeDecimal(ws).value;
    var tail := EncodeDecimal(s).value;
    forall i | |w| <= i < |ws| ensures bytes[i] == tail[i - |w|] {
      assert ws[i] == s[i - |w|];
    }
    assert bytes == bytes[..|w|] + tail;
  }

  /**
   * Unicode white space in front of a number does not change what `int` reads, even where the C
   * routine would not skip it (U+001C to U+001F, U+00A0, U+3000 and the like): the decimal encoder
   * has turned it into spaces.
   */
  lemma LeadingUnicodeSpaceIgnored(w: string, s: string)
    requires forall i :: 0 <= i < |w| ==> IsUnicodeSpace(w[i])
    ensures ParseInt(w + s) == ParseInt(s)
  {
    if EncodeDecimal(s).Success? {
      EncodeDecimalAfterSpaces(w, s);
      var bytes := EncodeDecimal(w + s).value;
      var tail := EncodeDecimal(s).value;
      SkipSpacesAfterSpaces(bytes[..|w|], tail);
      assert SkipSpaces(bytes) == SkipSpaces(tail);
      IntFromBytesAfterSpaces(bytes, tail);
    } else {
      EncodeDecimalFailsAfterSpaces(w, s);
    }
  }

  /** `int` on bytes reads only what follows the leading white space. */
  lemma IntFromBytesAfterSpaces(u: string, v: string)
    requires SkipSpaces(u) == SkipSpaces(v)
    ensures IntFromBytes(u) == IntFromBytes(v)
  {
  }

  /** A character the encoder refuses is refused with white space in front, too. */
  lemma EncodeDecimalFailsAfterSpaces(w: string, s: string)
    requires EncodeDecimal(s).Failure?
    ensures EncodeDecimal(w + s) == Failure(UnicodeEncodeError)
  {
    var i :| 0 <= i < |s| && !DecimalEncodable(s[i]);
    assert (w + s)[|w| + i] == s[i];
  }

  /** A file separator or a no-break space in front of an age is white space to `int`. */
  lemma ParseIntSkipsSeparators()
    ensures ParseInt("\U{1C}16") == Success(16)
    ensures ParseInt("\U{A0}16") == Success(16)
  {
    ParseShowInt(16);
    assert ShowInt(16) == "16";
    LeadingUnicodeSpaceIgnored("\U{1C}", "16");
    assert "\U{1C}" + "16" == "\U{1C}16";
    LeadingUnicodeSpaceIgnored("\U{A0}", "16");
    assert "\U{A0}" + "16" == "\U{A0}16";
  }

  /**
   * A euro sign or a NUL in an age raises `UnicodeEncodeError`; a letter from U+0001 to U+00FF
   * gets through the encoder and makes `int` raise `ValueError`.
   */
  lemma ParseIntSamplesRaise()
    ensures ParseInt("\U{20AC}") == Failure(UnicodeEncodeError)
    ensures ParseInt("\U{0}7") == Failure(UnicodeEncodeError)
    ensures ParseInt("\U{E9}") == Failure(ValueError)
  {
    assert !DecimalEncodable("\U{20AC}"[0]);
    assert !DecimalEncodable("\U{0}7"[0]);
  }
}
