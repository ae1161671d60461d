/**
 * Base-10 text for 64-bit order numbers, as Go's `strconv` package produces
 * and reads it: `strconv.ParseInt(s, 10, 64)` and `strconv.Itoa` /
 * `strconv.FormatInt(n, 10)` on a 64-bit platform.
 */
module Decimal {
  import opened Wrappers

  const MinInt64: int := -0x8000_0000_0000_0000
  const MaxInt64: int := 0x7FFF_FFFF_FFFF_FFFF
  const MaxUint64: int := 0xFFFF_FFFF_FFFF_FFFF

  /** Smallest value whose product with 10 exceeds the largest 64-bit unsigned value. */
  const UintCutoff: int := MaxUint64 / 10 + 1

  /** A Go `int64`. */
  newtype int64 = x: int | MinInt64 <= x <= MaxInt64

  /** The two failures `strconv` reports: text that is not a number, and a number out of range. */
  datatype NumError = ErrSyntax | ErrRange

  /** Go's `(int64, error)` pair: the value is set even when the error is (0 for syntax, the clipped bound for range). */
  datatype Parsed = Parsed(value: int64, err: Option<NumError>)

  predicate IsDecimalDigit(c: char) {
    '0' <= c <= '9'
  }

  predicate AllDecimalDigits(s: string) {
    forall i :: 0 <= i < |s| ==> IsDecimalDigit(s[i])
  }

  function DigitOf(c: char): (d: nat)
    requires IsDecimalDigit(c)
    ensures d <= 9
  {
    c as int - '0' as int
  }

  function DigitChar(d: nat): (c: char)
    requires d <= 9
    ensures IsDecimalDigit(c) && DigitOf(c) == d
  {
    ('0' as int + d) as char
  }

  /** The value of the digit string `s` appended to the already-read value `acc`. */
  function DecimalFrom(s: string, acc: int): int
    requires AllDecimalDigits(s)
    decreases |s|
  {
    if s == [] then acc else DecimalFrom(s[1..], acc * 10 + DigitOf(s[0]))
  }

  /** Appending one digit multiplies the value by ten and adds the digit. */
  lemma {:induction false} DecimalFromSnoc(s: string, c: char, acc: int)
    requires AllDecimalDigits(s) && IsDecimalDigit(c)
    ensures AllDecimalDigits(s + [c])
    ensures DecimalFrom(s + [c], acc) == DecimalFrom(s, acc) * 10 + DigitOf(c)
  {
    if s == [] {
      assert s + [c] == [c];
    } else {
      assert (s + [c])[1..] == s[1..] + [c];
      DecimalFromSnoc(s[1..], c, acc * 10 + DigitOf(s[0]));
    }
  }

  /** Reading more digits never lowers the value. */
  lemma {:induction false} DecimalFromAtLeast(s: string, acc: nat)
    requires AllDecimalDigits(s)
    ensures DecimalFrom(s, acc) >= acc
  {
    if s != [] {
      DecimalFromAtLeast(s[1..], acc * 10 + DigitOf(s[0]));
    }
  }

  /**
   * The digit loop of `strconv.ParseUint(s, 10, 64)`: a byte that is not a
   * digit is a syntax error; a value that would pass the 64-bit unsigned
   * maximum stops the scan at once with a range error and that maximum.
   */
  function ParseUintDigits(s: string, acc: nat): (r: (nat, Option<NumError>))
    requires acc <= MaxUint64
    ensures r.0 <= MaxUint64
    decreases |s|
  {
    if s == [] then (acc, None)
    else if !IsDecimalDigit(s[0]) then (0, Some(ErrSyntax))
    else if acc >= UintCutoff then (MaxUint64, Some(ErrRange))
    else if acc * 10 + DigitOf(s[0]) > MaxUint64 then (MaxUint64, Some(ErrRange))
    else ParseUintDigits(s[1..], acc * 10 + DigitOf(s[0]))
  }

  /** The digit loop succeeds exactly on digit strings whose value fits in 64 unsigned bits, and then returns that value. */
  lemma {:induction false} ParseUintDigitsCorrect(s: string, acc: nat)
    requires acc <= MaxUint64
    ensures ParseUintDigits(s, acc).1.None? <==> AllDecimalDigits(s) && DecimalFrom(s, acc) <= MaxUint64
    ensures ParseUintDigits(s, acc).1.None? ==> ParseUintDigits(s, acc).0 == DecimalFrom(s, acc)
    ensures ParseUintDigits(s, acc).1 == Some(ErrSyntax) ==> ParseUintDigits(s, acc).0 == 0 && !AllDecimalDigits(s)
    ensures ParseUintDigits(s, acc).1 == Some(ErrRange) ==> ParseUintDigits(s, acc).0 == MaxUint64
  {
    if s != [] && IsDecimalDigit(s[0]) {
      var next := acc * 10 + DigitOf(s[0]);
      if AllDecimalDigits(s) {
        assert AllDecimalDigits(s[1..]);
        DecimalFromAtLeast(s[1..], next);
      }
      if acc < UintCutoff && next <= MaxUint64 {
        ParseUintDigitsCorrect(s[1..], next);
        assert AllDecimalDigits(s) <==> AllDecimalDigits(s[1..]);
      }
    }
  }

  /** `strconv.ParseUint(s, 10, 64)`: the empty text is a syntax error. */
  function ParseUint(s: string): (r: (nat, Option<NumError>))
    ensures r.0 <= MaxUint64
  {
    if s == "" then (0, Some(ErrSyntax)) else ParseUintDigits(s, 0)
  }

  /** The text after one optional leading sign. */
  function Magnitude(s: string): string {
    if |s| > 0 && (s[0] == '+' || s[0] == '-') then s[1..] else s
  }

  /** A base-10 integer: an optional sign followed by at least one digit. */
  predicate IsDecimal(s: string) {
    |Magnitude(s)| > 0 && AllDecimalDigits(Magnitude(s))
  }

  /** The integer a base-10 text denotes. */
  function DecimalValue(s: string): int
    requires IsDecimal(s)
  {
    var m := DecimalFrom(Magnitude(s), 0);
    if s[0] == '-' then -m else m
  }

  /** `ParseUint` succeeds exactly on non-empty digit strings whose value fits in 64 unsigned bits. */
  lemma ParseUintCorrect(s: string)
    ensures ParseUint(s).1.None? <==> |s| > 0 && AllDecimalDigits(s) && DecimalFrom(s, 0) <= MaxUint64
    ensures ParseUint(s).1.None? ==> ParseUint(s).0 == DecimalFrom(s, 0)
    ensures ParseUint(s).1 == Some(ErrSyntax) ==> ParseUint(s).0 == 0 && !(|s| > 0 && AllDecimalDigits(s))
    ensures ParseUint(s).1 == Some(ErrRange) ==> ParseUint(s).0 == MaxUint64
  {
    if s != "" {
      ParseUintDigitsCorrect(s, 0);
    }
  }

  /**
   * `strconv.ParseInt(s, 10, 64)`.  It succeeds exactly on base-10 text whose
   * value fits in an `int64`; any other text is an error.
   */
  function ParseInt(s: string): (r: Parsed)
    ensures r.err.None? <==> IsDecimal(s) && MinInt64 <= DecimalValue(s) <= MaxInt64
    ensures r.err.None? ==> r.value as int == DecimalValue(s)
    ensures !IsDecimal(s) ==> r.err.Some?
    ensures r.err == Some(ErrSyntax) ==> r.value == 0 && !IsDecimal(s)
    ensures r.err == Some(ErrRange) ==> r.value as int == MaxInt64 || r.value as int == MinInt64
    ensures r.err == Some(ErrRange) ==> |s| > 0 && (r.value as int == MinInt64 <==> s[0] == '-')
  {
    if s == "" then Parsed(0, Some(ErrSyntax))
    else
      var neg := s[0] == '-';
      var digits := if s[0] == '+' || s[0] == '-' then s[1..] else s;
      var (un, uerr) := ParseUint(digits);
      ParseUintCorrect(digits);
      if uerr.Some? && uerr.value != ErrRange then Parsed(0, uerr)
      else if !neg && un >= MaxInt64 + 1 then Parsed(MaxInt64 as int64, Some(ErrRange))
      else if neg && un > MaxInt64 + 1 then Parsed(MinInt64 as int64, Some(ErrRange))
      else Parsed((if neg then -(un as int) else un) as int64, None)
  }

  /** `strconv.FormatUint(n, 10)`: the digits of `n`, most significant first, without leading zeros. */
  function FormatUint(n: nat): (s: string)
    ensures |s| > 0 && AllDecimalDigits(s)
    ensures DecimalFrom(s, 0) == n
    ensures s[0] == '0' <==> n == 0
    ensures |s| > 1 ==> s[0] != '0'
    decreases n
  {
    if n < 10 then
      [DigitChar(n)]
    else
      var prefix := FormatUint(n / 10);
      assert (prefix + [DigitChar(n % 10)])[0] == prefix[0];
      DecimalFromSnoc(prefix, DigitChar(n % 10), 0);
      prefix + [DigitChar(n % 10)]
  }

  /** `strconv.Itoa(int(n))` on a 64-bit platform: a minus sign for negative numbers, then the digits. */
  function FormatInt(n: int64): (s: string)
    ensures IsDecimal(s) && DecimalValue(s) == n as int
    ensures s[0] == '-' <==> n < 0
    ensures s[0] != '+'
    ensures |Magnitude(s)| > 1 ==> Magnitude(s)[0] != '0'
  {
    if n < 0 then
      var m := FormatUint(-(n as int));
      assert ("-" + m)[1..] == m;
      "-" + m
    else
      FormatUint(n as int)
  }

  /** Printing then parsing gives the number back, with no error: the decimal round trip. */
  lemma FormatParseRoundTrip(n: int64)
    ensures ParseInt(FormatInt(n)) == Parsed(n, None)
  {
    var s := FormatInt(n);
    assert IsDecimal(s) && MinInt64 <= DecimalValue(s) <= MaxInt64;
  }
}
