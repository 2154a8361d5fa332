/**
 * 64-bit signed integers as the sanitizer handles them: `long.TryParse` on a decimal string and
 * `long.ToString()`, both in base 10 with an optional leading sign.
 */
module Numbers {
  import opened Wrappers
  import opened Text

  const MinLong: int := -0x8000_0000_0000_0000
  const MaxLong: int := 0x7FFF_FFFF_FFFF_FFFF

  /** The values of a C# `long`. */
  type Long = x: int | MinLong <= x <= MaxLong

  predicate IsDigit(c: char) {
    '0' <= c <= '9'
  }

  predicate AllDigits(s: string) {
    forall i | 0 <= i < |s| :: IsDigit(s[i])
  }

  function DigitValue(c: char): nat
    requires IsDigit(c)
  {
    c as int - '0' as int
  }

  function DigitChar(d: nat): char
    requires d < 10
  {
    ('0' as int + d) as char
  }

  /** The number a string of decimal digits denotes, most significant digit first. */
  function DigitsValue(s: string): nat
    requires AllDigits(s)
  {
    if |s| == 0 then 0 else 10 * DigitsValue(s[..|s| - 1]) + DigitValue(s[|s| - 1])
  }

  /** Decimal digits of `n`, without leading zeros. */
  function NatToString(n: nat): (r: string)
    ensures |r| > 0 && AllDigits(r)
  {
    if n < 10 then [DigitChar(n)] else NatToString(n / 10) + [DigitChar(n % 10)]
  }

  /** `long.ToString()`: a minus sign for negative values, then the decimal digits. */
  function LongToString(n: int): string {
    if n < 0 then "-" + NatToString(-n) else NatToString(n)
  }

  /** The white space `NumberStyles.Integer` allows around a number: U+0009 to U+000D and
      U+0020. */
  predicate IsIntegerWhite(c: char) {
    c == ' ' || '\t' <= c <= '\r'
  }

  /** Drops the leading white space `long.TryParse` skips. */
  function SkipLeadingWhite(s: string): string {
    if |s| > 0 && IsIntegerWhite(s[0]) then SkipLeadingWhite(s[1..]) else s
  }

  /** Drops the trailing white space `long.TryParse` skips. */
  function SkipTrailingWhite(s: string): string {
    if |s| > 0 && IsIntegerWhite(s[|s| - 1]) then SkipTrailingWhite(s[..|s| - 1]) else s
  }

  /** Drops the NUL characters .NET's number parser accepts at the very end of its input. */
  function SkipTrailingNuls(s: string): string {
    if |s| > 0 && s[|s| - 1] == '\0' then SkipTrailingNuls(s[..|s| - 1]) else s
  }

  /** The text `long.TryParse` reads as the number itself. */
  function NumberText(s: string): string {
    SkipTrailingWhite(SkipTrailingNuls(SkipLeadingWhite(s)))
  }

  lemma {:induction false} SkipLeadingIsSuffix(s: string)
    ensures |SkipLeadingWhite(s)| <= |s| && SkipLeadingWhite(s) == s[|s| - |SkipLeadingWhite(s)|..]
  {
    if |s| > 0 && IsIntegerWhite(s[0]) {
      SkipLeadingIsSuffix(s[1..]);
    }
  }

  lemma {:induction false} SkipTrailingWhiteIsPrefix(s: string)
    ensures |SkipTrailingWhite(s)| <= |s| && SkipTrailingWhite(s) == s[..|SkipTrailingWhite(s)|]
  {
    if |s| > 0 && IsIntegerWhite(s[|s| - 1]) {
      SkipTrailingWhiteIsPrefix(s[..|s| - 1]);
    }
  }

  lemma {:induction false} SkipTrailingNulsIsPrefix(s: string)
    ensures |SkipTrailingNuls(s)| <= |s| && SkipTrailingNuls(s) == s[..|SkipTrailingNuls(s)|]
  {
    if |s| > 0 && s[|s| - 1] == '\0' {
      SkipTrailingNulsIsPrefix(s[..|s| - 1]);
    }
  }

  /** The number text is a piece of the input. */
  lemma NumberTextWithin(s: string)
    ensures |SkipLeadingWhite(s)| <= |s|
    ensures |NumberText(s)| <= |SkipLeadingWhite(s)|
    ensures NumberText(s) == s[|s| - |SkipLeadingWhite(s)|..|s| - |SkipLeadingWhite(s)| + |NumberText(s)|]
  {
    var a := SkipLeadingWhite(s);
    SkipLeadingIsSuffix(s);
    SkipTrailingNulsIsPrefix(a);
    SkipTrailingWhiteIsPrefix(SkipTrailingNuls(a));
  }

  /** An optional `+` or `-`, one or more decimal digits, and a value within the range of a
      `long`; otherwise no result. */
  function ParseSigned(t: string): (r: Option<Long>)
    ensures r.Some? ==> |t| > 0 && IsDigit(t[|t| - 1])
  {
    var signed := |t| > 0 && (t[0] == '-' || t[0] == '+');
    var digits := if signed then t[1..] else t;
    if |digits| == 0 || !AllDigits(digits) then None
    else
      assert t[|t| - 1] == digits[|digits| - 1];
      var v: int := if signed && t[0] == '-' then 0 - (DigitsValue(digits) as int) else DigitsValue(digits) as int;
      if MinLong <= v <= MaxLong then Some(v) else None
  }

  /** `long.TryParse(s, out v)` with `NumberStyles.Integer`: white space around the number and
      NUL characters after it are allowed, then a signed decimal integer. */
  function TryParseLong(s: string): Option<Long> {
    ParseSigned(NumberText(s))
  }

  /** Only a string that is not blank parses. */
  lemma ParsedIsNotBlank(s: string)
    ensures TryParseLong(s).Some? ==> |s| > 0 && !IsBlank(s)
  {
    var t := NumberText(s);
    if TryParseLong(s).Some? {
      NumberTextWithin(s);
      var k := |s| - |SkipLeadingWhite(s)|;
      assert s[k + |t| - 1] == t[|t| - 1];
    }
  }

  /** Surrounding white space, and NULs at the very end, do not change what is parsed. */
  lemma TryParseIgnoresPadding(lead: string, number: string, trail: string, nuls: string)
    requires forall i | 0 <= i < |lead| :: IsIntegerWhite(lead[i])
    requires forall i | 0 <= i < |trail| :: IsIntegerWhite(trail[i])
    requires forall i | 0 <= i < |nuls| :: nuls[i] == '\0'
    requires |number| > 0 && !IsIntegerWhite(number[0]) && !IsIntegerWhite(number[|number| - 1])
    requires number[|number| - 1] != '\0'
    ensures TryParseLong(lead + number + trail + nuls) == TryParseLong(number)
  {
    SkipLeadingPadding(lead, number + trail + nuls);
    assert lead + number + trail + nuls == lead + (number + trail + nuls);
    SkipTrailingNulPadding(number + trail, nuls);
    assert number + trail + nuls == (number + trail) + nuls;
    SkipTrailingWhitePadding(number, trail);
  }

  lemma {:induction false} SkipLeadingPadding(lead: string, rest: string)
    requires forall i | 0 <= i < |lead| :: IsIntegerWhite(lead[i])
    requires rest == [] || !IsIntegerWhite(rest[0])
    ensures SkipLeadingWhite(lead + rest) == rest
  {
    if lead != [] {
      assert (lead + rest)[1..] == lead[1..] + rest;
      SkipLeadingPadding(lead[1..], rest);
    } else {
      assert lead + rest == rest;
    }
  }

  lemma {:induction false} SkipTrailingNulPadding(rest: string, nuls: string)
    requires forall i | 0 <= i < |nuls| :: nuls[i] == '\0'
    requires rest == [] || rest[|rest| - 1] != '\0'
    ensures SkipTrailingNuls(rest + nuls) == rest
  {
    if nuls != [] {
      assert (rest + nuls)[..|rest + nuls| - 1] == rest + nuls[..|nuls| - 1];
      SkipTrailingNulPadding(rest, nuls[..|nuls| - 1]);
    } else {
      assert rest + nuls == rest;
    }
  }

  lemma {:induction false} SkipTrailingWhitePadding(rest: string, trail: string)
    requires forall i | 0 <= i < |trail| :: IsIntegerWhite(trail[i])
    requires rest == [] || !IsIntegerWhite(rest[|rest| - 1])
    ensures SkipTrailingWhite(rest + trail) == rest
  {
    if trail != [] {
      assert (rest + trail)[..|rest + trail| - 1] == rest + trail[..|trail| - 1];
      SkipTrailingWhitePadding(rest, trail[..|trail| - 1]);
    } else {
      assert rest + trail == rest;
    }
  }

  lemma {:induction false} DigitsOfNat(n: nat)
    ensures DigitsValue(NatToString(n)) == n
  {
    if n >= 10 {
      DigitsOfNat(n / 10);
      var s := NatToString(n / 10) + [DigitChar(n % 10)];
      assert s[..|s| - 1] == NatToString(n / 10);
    }
  }

  /** Parsing what `long.ToString()` wrote gives the number back. */
  lemma ParseOfLongToString(n: Long)
    ensures TryParseLong(LongToString(n)) == Some(n)
  {
    var a: int := n;
    var d := NatToString(if a < 0 then -a else a);
    assert IsDigit(d[|d| - 1]) && IsDigit(d[0]);
    ParseSignedOfLongToString(n);
  }

  lemma ParseSignedOfLongToString(n: Long)
    ensures ParseSigned(LongToString(n)) == Some(n)
  {
    var a: int := n;
    if a < 0 {
      var d := NatToString(-a);
      DigitsOfNat(-a);
      assert LongToString(a) == "-" + d;
      assert ("-" + d)[0] == '-' && ("-" + d)[1..] == d;
    } else {
      var d := NatToString(a);
      DigitsOfNat(a);
      assert IsDigit(d[0]);
    }
  }

  /** What `long.ToString()` writes is never empty and holds neither white space nor `=`. */
  lemma LongToStringPlain(n: int)
    ensures |LongToString(n)| > 0
    ensures forall i | 0 <= i < |LongToString(n)| ::
      !IsWhiteSpace(LongToString(n)[i]) && LongToString(n)[i] != '='
  {
    var d := NatToString(if n < 0 then -n else n);
    assert forall i | 0 <= i < |d| :: IsDigit(d[i]);
  }
}
