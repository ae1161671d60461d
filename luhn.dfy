/**
 * The order-number check: the Luhn mod-10 formula (ISO/IEC 7812-1, Annex B)
 * over the raw bytes of a request body.
 *
 * The reference definition `LuhnSum` walks the number from the right, as the
 * standard states it: the check digit is taken as is, the digit left of it is
 * doubled, and so on alternately; a doubled digit contributes the sum of the
 * digits of its double.  `CheckNumber` is the service's loop, which walks from
 * the left and decides doubling from the parity of the length.
 */
module Luhn {
  import opened Wrappers
  import opened Io

  const Zero: byte := 48

  /** `strconv.Atoi(string(b))` succeeds exactly on the ASCII digits '0'..'9'. */
  predicate IsDigit(b: byte) {
    48 <= b <= 57
  }

  predicate AllDigits(s: seq<byte>) {
    forall i :: 0 <= i < |s| ==> IsDigit(s[i])
  }

  function DigitValue(b: byte): (d: int)
    requires IsDigit(b)
    ensures 0 <= d <= 9
  {
    b as int - 48
  }

  /** What one digit adds to the sum: itself, or, when doubled, the sum of the digits of its double. */
  function Contribution(d: int, doubled: bool): (r: int)
    requires 0 <= d <= 9
    ensures 0 <= r <= 9
    ensures !doubled ==> r == d
    ensures doubled ==> r == (2 * d) / 10 + (2 * d) % 10
  {
    if doubled then (if 2 * d > 9 then 2 * d - 9 else 2 * d) else d
  }

  /** Two different digits never contribute the same amount, doubled or not. */
  lemma ContributionInjective(d1: int, d2: int, doubled: bool)
    requires 0 <= d1 <= 9 && 0 <= d2 <= 9
    requires d1 != d2
    ensures Contribution(d1, doubled) != Contribution(d2, doubled)
  {
    if doubled {
      if 2 * d1 > 9 && 2 * d2 <= 9 {
        assert Contribution(d1, doubled) % 2 == 1;
        assert Contribution(d2, doubled) % 2 == 0;
      } else if 2 * d1 <= 9 && 2 * d2 > 9 {
        assert Contribution(d1, doubled) % 2 == 0;
        assert Contribution(d2, doubled) % 2 == 1;
      }
    }
  }

  /** The first `n` bytes of `s` are digits. */
  predicate DigitsUpTo(s: seq<byte>, n: nat)
    requires n <= |s|
  {
    forall i :: 0 <= i < n ==> IsDigit(s[i])
  }

  /**
   * The weighted digit sum of the first `n` bytes of `s`, read from the
   * right; `doubleLast` says whether the byte at index `n - 1` is doubled.
   */
  function SumFromRight(s: seq<byte>, n: nat, doubleLast: bool): int
    requires n <= |s| && DigitsUpTo(s, n)
    decreases n
  {
    if n == 0 then 0
    else SumFromRight(s, n - 1, !doubleLast) + Contribution(DigitValue(s[n - 1]), doubleLast)
  }

  /** The Luhn sum: the check digit (rightmost) is not doubled. */
  function LuhnSum(s: seq<byte>): int
    requires AllDigits(s)
  {
    SumFromRight(s, |s|, false)
  }

  /** A number passes the check: digits only, and a Luhn sum divisible by ten. */
  predicate IsLuhnValid(s: seq<byte>) {
    AllDigits(s) && LuhnSum(s) % 10 == 0
  }

  /** Whether the digit at index `i` of an `n`-digit number is doubled: its distance from the right end is odd. */
  predicate DoubledAt(n: nat, i: nat)
    requires i < n
  {
    (n - 1 - i) % 2 == 1
  }

  /**
   * The service's loop.  The byte at index `idx` is doubled when
   * `idx % 2 == len % 2`; any byte that is not an ASCII digit rejects the
   * number at once.
   */
  method CheckNumber(number: seq<byte>) returns (valid: bool)
    ensures valid <==> IsLuhnValid(number)
    ensures !AllDigits(number) ==> !valid
  {
    var sum := 0;
    var parity := |number| % 2;
    for idx := 0 to |number|
      invariant DigitsUpTo(number, idx)
      invariant sum == SumFromRight(number, idx, (idx + 1) % 2 == parity)
    {
      var val := number[idx];
      if !IsDigit(val) {
        return false;
      }
      var a := DigitValue(val);
      if idx % 2 == parity {
        a := a * 2;
        if a > 9 {
          a := a - 9;
        }
      }
      sum := sum + a;
    }
    valid := sum % 10 == 0;
  }

  /** The loop's doubling rule, "index parity equals length parity", is the standard's "odd distance from the right". */
  lemma LoopParityIsRightParity(n: nat, idx: nat)
    requires idx < n
    ensures (idx % 2 == n % 2) <==> DoubledAt(n, idx)
  {
  }

  /** The digit at index `i` adds its own contribution to the sum: changing it changes the sum by exactly the difference. */
  lemma {:induction false} SumUpdate(s: seq<byte>, n: nat, doubleLast: bool, i: nat, b: byte)
    requires n <= |s| && DigitsUpTo(s, n) && i < n && IsDigit(b)
    ensures DigitsUpTo(s[i := b], n)
    ensures SumFromRight(s[i := b], n, doubleLast)
         == SumFromRight(s, n, doubleLast)
          - Contribution(DigitValue(s[i]), doubleLast != DoubledAt(n, i))
          + Contribution(DigitValue(b), doubleLast != DoubledAt(n, i))
  {
    var t := s[i := b];
    if i < n - 1 {
      SumUpdate(s, n - 1, !doubleLast, i, b);
      assert t[n - 1] == s[n - 1];
    } else {
      SumUnchangedBeyond(s, t, n - 1, !doubleLast);
    }
  }

  /** The sum of a prefix depends only on the bytes in that prefix. */
  lemma {:induction false} SumUnchangedBeyond(s: seq<byte>, t: seq<byte>, n: nat, doubleLast: bool)
    requires n <= |s| && n <= |t| && DigitsUpTo(s, n)
    requires forall i :: 0 <= i < n ==> s[i] == t[i]
    ensures DigitsUpTo(t, n)
    ensures SumFromRight(t, n, doubleLast) == SumFromRight(s, n, doubleLast)
  {
    if n > 0 {
      SumUnchangedBeyond(s, t, n - 1, !doubleLast);
    }
  }

  /** A multiple of ten moved by a nonzero amount of at most nine is no longer a multiple of ten. */
  lemma NonzeroShiftBreaksDivisibility(x: int, delta: int)
    requires x % 10 == 0 && -9 <= delta <= 9 && delta != 0
    ensures (x + delta) % 10 != 0
  {
  }

  /** Every single mistyped digit is detected: a valid number with one digit changed is invalid. */
  lemma SingleDigitErrorDetected(s: seq<byte>, i: nat, b: byte)
    requires IsLuhnValid(s) && i < |s|
    requires IsDigit(b) && b != s[i]
    ensures !IsLuhnValid(s[i := b])
  {
    var f := false != DoubledAt(|s|, i);
    SumUpdate(s, |s|, false, i, b);
    ContributionInjective(DigitValue(s[i]), DigitValue(b), f);
    NonzeroShiftBreaksDivisibility(LuhnSum(s), Contribution(DigitValue(b), f) - Contribution(DigitValue(s[i]), f));
  }

  /** A leading '0' adds nothing and shifts no doubling: positions count from the right. */
  lemma {:induction false} PrependZeroSum(s: seq<byte>, n: nat, doubleLast: bool)
    requires n <= |s| && DigitsUpTo(s, n)
    ensures DigitsUpTo([Zero] + s, n + 1)
    ensures SumFromRight([Zero] + s, n + 1, doubleLast) == SumFromRight(s, n, doubleLast)
  {
    var t := [Zero] + s;
    if n == 0 {
      assert t[0] == Zero;
    } else {
      PrependZeroSum(s, n - 1, !doubleLast);
      assert t[n] == s[n - 1];
    }
  }

  /** Prepending '0' never changes the verdict. */
  lemma LeadingZeroIrrelevant(s: seq<byte>)
    ensures IsLuhnValid([Zero] + s) <==> IsLuhnValid(s)
  {
    if AllDigits(s) {
      PrependZeroSum(s, |s|, false);
    } else {
      var i :| 0 <= i < |s| && !IsDigit(s[i]);
      assert ([Zero] + s)[i + 1] == s[i];
    }
  }

  /** The decimal text of `n`, as bytes, most significant digit first. */
  function DecimalBytes(n: nat): (s: seq<byte>)
    ensures |s| > 0 && AllDigits(s)
    decreases n
  {
    if n < 10 then [(48 + n) as byte] else DecimalBytes(n / 10) + [(48 + n % 10) as byte]
  }

  /** The number a string of decimal digits stands for. */
  function DigitsValue(s: seq<byte>): nat
    requires AllDigits(s)
    decreases |s|
  {
    if s == [] then 0 else DigitsValue(s[..|s| - 1]) * 10 + DigitValue(s[|s| - 1])
  }

  /** `DecimalBytes(n)` is the decimal text of `n`: it reads back as `n` and has no leading zero. */
  lemma {:induction false} DecimalBytesIsDecimal(n: nat)
    ensures DigitsValue(DecimalBytes(n)) == n
    ensures DecimalBytes(n)[0] == Zero ==> n == 0
    decreases n
  {
    var s := DecimalBytes(n);
    if n >= 10 {
      var p := DecimalBytes(n / 10);
      DecimalBytesIsDecimal(n / 10);
      assert s[..|s| - 1] == p;
      assert s[0] == p[0];
    }
  }

  /** The Luhn sum of a number, computed on the number itself from its last digit. */
  function NatSum(n: nat, doubleLast: bool): int
    decreases n
  {
    if n < 10 then Contribution(n, doubleLast) else NatSum(n / 10, !doubleLast) + Contribution(n % 10, doubleLast)
  }

  /** Summing the decimal text of `n` is summing its digits. */
  lemma {:induction false} DecimalBytesSum(n: nat, doubleLast: bool)
    ensures SumFromRight(DecimalBytes(n), |DecimalBytes(n)|, doubleLast) == NatSum(n, doubleLast)
    decreases n
  {
    var s := DecimalBytes(n);
    if n < 10 {
      assert SumFromRight(s, 0, !doubleLast) == 0;
    } else {
      var p := DecimalBytes(n / 10);
      DecimalBytesSum(n / 10, !doubleLast);
      SumUnchangedBeyond(p, s, |p|, !doubleLast);
      assert s[|p|] as int == 48 + n % 10;
    }
  }

  // The service's reference vectors, given as numbers as the service's test
  // passes them: three valid order numbers, and each of them with its check
  // digit altered or dropped.  Each proof adds up the sum digit by digit.

  lemma VectorAccepted4561261212345467()
    ensures IsLuhnValid(DecimalBytes(4561261212345467))
  {
    assert NatSum(4, true) == 8;
    assert NatSum(45, false) == 13;
    assert NatSum(456, true) == 16;
    assert NatSum(4561, false) == 17;
    assert NatSum(45612, true) == 21;
    assert NatSum(456126, false) == 27;
    assert NatSum(4561261, true) == 29;
    assert NatSum(45612612, false) == 31;
    assert NatSum(456126121, true) == 33;
    assert NatSum(4561261212, false) == 35;
    assert NatSum(45612612123, true) == 41;
    assert NatSum(456126121234, false) == 45;
    assert NatSum(4561261212345, true) == 46;
    assert NatSum(45612612123454, false) == 50;
    assert NatSum(456126121234546, true) == 53;
    assert NatSum(4561261212345467, false) == 60;
    DecimalBytesSum(4561261212345467, false);
    assert LuhnSum(DecimalBytes(4561261212345467)) == 60;
  }

  lemma VectorAccepted3465502494()
    ensures IsLuhnValid(DecimalBytes(3465502494))
  {
    assert NatSum(3, true) == 6;
    assert NatSum(34, false) == 10;
    assert NatSum(346, true) == 13;
    assert NatSum(3465, false) == 18;
    assert NatSum(34655, true) == 19;
    assert NatSum(346550, false) == 19;
    assert NatSum(3465502, true) == 23;
    assert NatSum(34655024, false) == 27;
    assert NatSum(346550249, true) == 36;
    assert NatSum(3465502494, false) == 40;
    DecimalBytesSum(3465502494, false);
    assert LuhnSum(DecimalBytes(3465502494)) == 40;
  }

  lemma VectorAccepted7000166989766106378()
    ensures IsLuhnValid(DecimalBytes(7000166989766106378))
  {
    assert NatSum(7, false) == 7;
    assert NatSum(70, true) == 7;
    assert NatSum(700, false) == 7;
    assert NatSum(7000, true) == 7;
    assert NatSum(70001, false) == 8;
    assert NatSum(700016, true) == 11;
    assert NatSum(7000166, false) == 17;
    assert NatSum(70001669, true) == 26;
    assert NatSum(700016698, false) == 34;
    assert NatSum(7000166989, true) == 43;
    assert NatSum(70001669897, false) == 50;
    assert NatSum(700016698976, true) == 53;
    assert NatSum(7000166989766, false) == 59;
    assert NatSum(70001669897661, true) == 61;
    assert NatSum(700016698976610, false) == 61;
    assert NatSum(7000166989766106, true) == 64;
    assert NatSum(70001669897661063, false) == 67;
    assert NatSum(700016698976610637, true) == 72;
    assert NatSum(7000166989766106378, false) == 80;
    DecimalBytesSum(7000166989766106378, false);
    assert LuhnSum(DecimalBytes(7000166989766106378)) == 80;
  }

  lemma VectorRejected4561261212345464()
    ensures !IsLuhnValid(DecimalBytes(4561261212345464))
  {
    assert NatSum(4, true) == 8;
    assert NatSum(45, false) == 13;
    assert NatSum(456, true) == 16;
    assert NatSum(4561, false) == 17;
    assert NatSum(45612, true) == 21;
    assert NatSum(456126, false) == 27;
    assert NatSum(4561261, true) == 29;
    assert NatSum(45612612, false) == 31;
    assert NatSum(456126121, true) == 33;
    assert NatSum(4561261212, false) == 35;
    assert NatSum(45612612123, true) == 41;
    assert NatSum(456126121234, false) == 45;
    assert NatSum(4561261212345, true) == 46;
    assert NatSum(45612612123454, false) == 50;
    assert NatSum(456126121234546, true) == 53;
    assert NatSum(4561261212345464, false) == 57;
    DecimalBytesSum(4561261212345464, false);
    assert LuhnSum(DecimalBytes(4561261212345464)) == 57;
  }

  lemma VectorRejected346550249()
    ensures !IsLuhnValid(DecimalBytes(346550249))
  {
    assert NatSum(3, false) == 3;
    assert NatSum(34, true) == 11;
    assert NatSum(346, false) == 17;
    assert NatSum(3465, true) == 18;
    assert NatSum(34655, false) == 23;
    assert NatSum(346550, true) == 23;
    assert NatSum(3465502, false) == 25;
    assert NatSum(34655024, true) == 33;
    assert NatSum(346550249, false) == 42;
    DecimalBytesSum(346550249, false);
    assert LuhnSum(DecimalBytes(346550249)) == 42;
  }

  lemma VectorRejected700016698976610637()
    ensures !IsLuhnValid(DecimalBytes(700016698976610637))
  {
    assert NatSum(7, true) == 5;
    assert NatSum(70, false) == 5;
    assert NatSum(700, true) == 5;
    assert NatSum(7000, false) == 5;
    assert NatSum(70001, true) == 7;
    assert NatSum(700016, false) == 13;
    assert NatSum(7000166, true) == 16;
    assert NatSum(70001669, false) == 25;
    assert NatSum(700016698, true) == 32;
    assert NatSum(7000166989, false) == 41;
    assert NatSum(70001669897, true) == 46;
    assert NatSum(700016698976, false) == 52;
    assert NatSum(7000166989766, true) == 55;
    assert NatSum(70001669897661, false) == 56;
    assert NatSum(700016698976610, true) == 56;
    assert NatSum(7000166989766106, false) == 62;
    assert NatSum(70001669897661063, true) == 68;
    assert NatSum(700016698976610637, false) == 75;
    DecimalBytesSum(700016698976610637, false);
    assert LuhnSum(DecimalBytes(700016698976610637)) == 75;
  }

  /** The empty body has sum 0 and so passes the check. */
  lemma EmptyNumberPasses()
    ensures IsLuhnValid([])
  {
  }

  /** Why a body was refused. */
  datatype NumberError = InvalidBody(cause: IoError) | ErrInvalidNumber

  /** Reads the body and returns its text unchanged when it is a valid order number. */
  method GetNumberFromBody(body: Result<seq<byte>, IoError>) returns (r: Result<seq<byte>, NumberError>)
    ensures body.Failure? ==> r == Failure(InvalidBody(body.error))
    ensures body.Success? ==> (r.Success? <==> IsLuhnValid(body.value))
    ensures r.Success? ==> r.value == body.value
    ensures body.Success? && !IsLuhnValid(body.value) ==> r == Failure(ErrInvalidNumber)
  {
    if body.Failure? {
      return Failure(InvalidBody(body.error));
    }
    var validID := CheckNumber(body.value);
    if !validID {
      return Failure(ErrInvalidNumber);
    }
    return Success(body.value);
  }
}
