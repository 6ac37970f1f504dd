/** The decimal conversions the submission handler relies on: `strconv.Atoi`
    (parsing the `spaceId` form field) and the `%d` / `%v` verbs of `fmt`
    (rendering the claim count and the NFT-holder flag). Go's `int` is 64 bits
    wide on the platforms the service is built for, so it is modelled as Int64. */
module Strconv {
  import opened Wrappers

  const MIN_INT64: int := -0x8000_0000_0000_0000
  const MAX_INT64: int := 0x7fff_ffff_ffff_ffff
  const MAX_UINT64: int := 0xffff_ffff_ffff_ffff

  type Int64 = x: int | MIN_INT64 <= x <= MAX_INT64

  /** The two reasons `strconv` gives for rejecting a number. */
  datatype NumErrorKind = ErrSyntax | ErrRange

  /** `*strconv.NumError` as returned by `Atoi`: the rejected input and the reason. */
  datatype NumError = NumError(num: string, kind: NumErrorKind)

  /** `NumError.Error()`; the function name is always `Atoi` here, because
      `Atoi` rewrites the name in the errors of `ParseInt` it forwards. */
  function NumErrorText(e: NumError): string
  {
    "strconv.Atoi: parsing " + Quote(e.num) + ": "
      + (match e.kind case ErrSyntax => "invalid syntax" case ErrRange => "value out of range")
  }

  /** The text of an `Atoi` syntax error, written out around the input. */
  lemma SyntaxErrorText(num: string)
    ensures NumErrorText(NumError(num, ErrSyntax)) == "strconv.Atoi: parsing \"" + num + "\": invalid syntax"
  {
    QuotedText(num, "invalid syntax", "\": invalid syntax");
  }

  /** The text of an `Atoi` range error, written out around the input. */
  lemma RangeErrorText(num: string)
    ensures NumErrorText(NumError(num, ErrRange)) == "strconv.Atoi: parsing \"" + num + "\": value out of range"
  {
    QuotedText(num, "value out of range", "\": value out of range");
  }

  /** Regrouping the concatenation `NumErrorText` builds around the input. */
  lemma QuotedText(num: string, reason: string, tail: string)
    requires tail == "\"" + ": " + reason
    ensures "strconv.Atoi: parsing " + Quote(num) + ": " + reason == "strconv.Atoi: parsing \"" + num + tail
  {
    var head := "strconv.Atoi: parsing ";
    assert "strconv.Atoi: parsing \"" == head + "\"";
    calc {
      head + Quote(num) + ": " + reason;
      head + ("\"" + num + "\"") + ": " + reason;
      (head + "\"") + num + ("\"" + ": " + reason);
    }
  }

  /** `strconv.Quote`, without its escaping of special characters. */
  function Quote(s: string): string
  {
    "\"" + s + "\""
  }

  predicate IsDigit(c: char)
  {
    '0' <= c <= '9'
  }

  predicate AllDigits(s: string)
  {
    forall i | 0 <= i < |s| :: IsDigit(s[i])
  }

  function DigitValue(c: char): nat
    requires IsDigit(c)
  {
    c as int - '0' as int
  }

  function DigitChar(d: nat): (c: char)
    requires d < 10
    ensures IsDigit(c) && DigitValue(c) == d
  {
    ('0' as int + d) as char
  }

  /** The number a string of decimal digits denotes (leading zeros allowed). */
  function DigitsValue(s: string): nat
    requires AllDigits(s)
  {
    if s == [] then 0 else 10 * DigitsValue(s[..|s| - 1]) + DigitValue(s[|s| - 1])
  }

  /** The index of the first character of `s` that is not a decimal digit, or |s|. */
  function FirstNonDigit(s: string): (k: nat)
    ensures k <= |s|
    ensures AllDigits(s[..k])
    ensures k < |s| ==> !IsDigit(s[k])
  {
    if s == [] || !IsDigit(s[0]) then 0
    else
      var k' := FirstNonDigit(s[1..]);
      assert s[..1 + k'] == [s[0]] + s[1..][..k'];
      1 + k'
  }

  /** `strconv.Atoi(s)` for 64-bit `int`. An optional sign is followed by the
      digits. The digits are scanned left to right as an unsigned 64-bit
      number, and the scan stops at the first failure: a character that is not
      a digit gives a syntax error, a value past the unsigned 64-bit maximum a
      range error. A string with no digits is a syntax error, and a value
      outside the signed 64-bit range is a range error. */
  function Atoi(s: string): (r: Result<Int64, NumError>)
    ensures r.Failure? ==> r.error.num == s
  {
    if s == [] then Failure(NumError(s, ErrSyntax))
    else
      var digits := if s[0] == '-' || s[0] == '+' then s[1..] else s;
      var k := FirstNonDigit(digits);
      if DigitsValue(digits[..k]) > MAX_UINT64 then Failure(NumError(s, ErrRange))
      else if k < |digits| || digits == [] then Failure(NumError(s, ErrSyntax))
      else
        assert digits[..k] == digits;
        var v: int := if s[0] == '-' then 0 - DigitsValue(digits) else DigitsValue(digits);
        if v < MIN_INT64 || v > MAX_INT64 then Failure(NumError(s, ErrRange))
        else Success(v)
  }

  /** An optional sign followed by at least one decimal digit: the strings
      whose value `Atoi` can return. */
  predicate IsDecimalLiteral(s: string)
  {
    if |s| > 0 && (s[0] == '-' || s[0] == '+') then |s| > 1 && AllDigits(s[1..])
    else |s| > 0 && AllDigits(s)
  }

  /** The integer a decimal literal denotes. */
  function LiteralValue(s: string): int
    requires IsDecimalLiteral(s)
  {
    if s[0] == '-' then 0 - DigitsValue(s[1..])
    else if s[0] == '+' then DigitsValue(s[1..])
    else DigitsValue(s)
  }

  /** Atoi accepts exactly the decimal literals whose value fits in 64 bits,
      and returns that value. */
  lemma AtoiAcceptsDecimalLiterals(s: string)
    ensures Atoi(s).Success? <==> IsDecimalLiteral(s) && MIN_INT64 <= LiteralValue(s) <= MAX_INT64
    ensures Atoi(s).Success? ==> Atoi(s).value == LiteralValue(s)
  {
    if s != [] {
      var digits := if s[0] == '-' || s[0] == '+' then s[1..] else s;
      var k := FirstNonDigit(digits);
      if AllDigits(digits) {
        assert k == |digits|;
        assert digits[..k] == digits;
      } else {
        var i :| 0 <= i < |digits| && !IsDigit(digits[i]);
        assert k <= i;
      }
    }
  }

  /** A decimal literal whose value does not fit in 64 bits is a range error. */
  lemma AtoiRangeError(s: string)
    requires IsDecimalLiteral(s) && !(MIN_INT64 <= LiteralValue(s) <= MAX_INT64)
    ensures Atoi(s) == Failure(NumError(s, ErrRange))
  {
    var digits := if s[0] == '-' || s[0] == '+' then s[1..] else s;
    assert FirstNonDigit(digits) == |digits|;
    assert digits[..|digits|] == digits;
  }

  /** Every input that is not a decimal literal fails, and the kind follows
      `ParseUint`'s order: a range error when the digits before the first
      non-digit already exceed 64 unsigned bits, a syntax error otherwise. */
  lemma AtoiNonLiteralError(s: string)
    requires !IsDecimalLiteral(s)
    ensures var digits := if s != [] && (s[0] == '-' || s[0] == '+') then s[1..] else s;
            var k := FirstNonDigit(digits);
            Atoi(s) == Failure(NumError(s, if DigitsValue(digits[..k]) > MAX_UINT64 then ErrRange else ErrSyntax))
  {
    var digits := if s != [] && (s[0] == '-' || s[0] == '+') then s[1..] else s;
    var k := FirstNonDigit(digits);
    if k == |digits| {
      assert digits[..k] == digits;
    }
  }

  /** The decimal digits of a natural number, most significant first, without leading zeros. */
  function NatDigits(n: nat): (s: string)
    ensures |s| >= 1 && AllDigits(s)
    ensures |s| > 1 ==> s[0] != '0'
  {
    if n < 10 then [DigitChar(n)] else NatDigits(n / 10) + [DigitChar(n % 10)]
  }

  /** `fmt.Sprintf("%d", n)`. */
  function FormatInt(n: int): string
  {
    if n < 0 then "-" + NatDigits(-n) else NatDigits(n)
  }

  /** `fmt.Sprintf("%v", b)` on a boolean. */
  function FormatBool(b: bool): string
  {
    if b then "true" else "false"
  }

  lemma {:induction false} NatDigitsValue(n: nat)
    ensures DigitsValue(NatDigits(n)) == n
  {
    if n >= 10 {
      NatDigitsValue(n / 10);
      var s := NatDigits(n);
      assert s[..|s| - 1] == NatDigits(n / 10);
    }
  }

  /** Parsing what `%d` prints gives the number back. */
  lemma AtoiFormatInt(n: Int64)
    ensures IsDecimalLiteral(FormatInt(n))
    ensures Atoi(FormatInt(n)) == Success(n)
  {
    var m: nat := if n < 0 then 0 - n as int else n;
    NatDigitsValue(m);
    var d := NatDigits(m);
    assert IsDigit(d[0]);
    if n < 0 {
      assert FormatInt(n)[1..] == d;
    }
    AtoiAcceptsDecimalLiterals(FormatInt(n));
  }
}
