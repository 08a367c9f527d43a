/**
 * The decimal and boolean parsers of Go's `strconv` package that the binder
 * calls: ParseUint(s, 10, 64), ParseInt(s, 10, 64) and ParseBool(s).
 * The scan follows Go's own: digits are read left to right and an overflow is
 * reported as soon as it happens, so "99999999999999999999x" is a range error
 * while "9x" is a syntax error.
 */
module Strconv {
  import opened Wrappers

  /** The `Err` of a *strconv.NumError. */
  datatype NumError = ErrSyntax | ErrRange

  const MaxUint64: nat := 0xFFFF_FFFF_FFFF_FFFF
  const MaxInt64: int := 0x7FFF_FFFF_FFFF_FFFF
  const MinInt64: int := -0x8000_0000_0000_0000

  predicate IsDigit(c: char) { '0' <= c <= '9' }

  predicate AllDigits(s: string) { forall i :: 0 <= i < |s| ==> IsDigit(s[i]) }

  function DigitValue(c: char): (d: nat)
    requires IsDigit(c)
    ensures d < 10
  {
    c as int - '0' as int
  }

  function DigitChar(d: nat): (c: char)
    requires d < 10
    ensures IsDigit(c) && DigitValue(c) == d
  {
    ('0' as int + d) as char
  }

  /** Value of a digit string read left to right, starting from `acc`. */
  function Horner(acc: nat, s: string): nat
    requires AllDigits(s)
    decreases |s|
  {
    if s == [] then acc else Horner(acc * 10 + DigitValue(s[0]), s[1..])
  }

  function DecimalValue(s: string): nat
    requires AllDigits(s)
  {
    Horner(0, s)
  }

  /** The loop of Go's ParseUint for base 10 and bit size 64. */
  function ScanUint(s: string, acc: nat): Result<nat, NumError>
    requires acc <= MaxUint64
  {
    if s == [] then Success(acc)
    else if !IsDigit(s[0]) then Failure(ErrSyntax)
    else
      var n := acc * 10 + DigitValue(s[0]);
      if n > MaxUint64 then Failure(ErrRange) else ScanUint(s[1..], n)
  }

  /** strconv.ParseUint(s, 10, 64): no sign, decimal digits only, at most 2^64-1. */
  function ParseUint(s: string): Result<nat, NumError> {
    if s == [] then Failure(ErrSyntax) else ScanUint(s, 0)
  }

  /**
   * strconv.ParseInt(s, 10, 64): an optional '+' or '-' and then what
   * ParseUint accepts, within [-2^63, 2^63-1]. A range error of the unsigned
   * scan makes the magnitude 2^64-1, which is then out of range either way.
   */
  function ParseInt(s: string): Result<int, NumError> {
    if s == [] then Failure(ErrSyntax)
    else
      var neg := s[0] == '-';
      var body := if s[0] == '+' || s[0] == '-' then s[1..] else s;
      var u := ParseUint(body);
      if u == Failure(ErrSyntax) then Failure(ErrSyntax)
      else
        var un := if u.Success? then u.value else MaxUint64;
        if !neg && un > MaxInt64 then Failure(ErrRange)
        else if neg && un > -MinInt64 then Failure(ErrRange)
        else Success(if neg then -un else un)
  }

  const TrueSpellings: set<string> := {"1", "t", "T", "TRUE", "true", "True"}
  const FalseSpellings: set<string> := {"0", "f", "F", "FALSE", "false", "False"}

  /** strconv.ParseBool. */
  function ParseBool(s: string): (r: Result<bool, NumError>)
    ensures r.Success? <==> s in TrueSpellings + FalseSpellings
    ensures r == Success(true) <==> s in TrueSpellings
    ensures r == Success(false) <==> s in FalseSpellings
  {
    match s
    case "1" => Success(true)
    case "t" => Success(true)
    case "T" => Success(true)
    case "TRUE" => Success(true)
    case "true" => Success(true)
    case "True" => Success(true)
    case "0" => Success(false)
    case "f" => Success(false)
    case "F" => Success(false)
    case "FALSE" => Success(false)
    case "false" => Success(false)
    case "False" => Success(false)
    case _ => Failure(ErrSyntax)
  }

  /** strconv.FormatBool. */
  function FormatBool(b: bool): string {
    if b then "true" else "false"
  }

  /** strconv.FormatUint(n, 10): decimal digits without leading zeros. */
  function FormatUint(n: nat): (s: string)
    ensures s != [] && AllDigits(s)
  {
    if n < 10 then [DigitChar(n)] else FormatUint(n / 10) + [DigitChar(n % 10)]
  }

  /** strconv.FormatInt(i, 10). */
  function FormatInt(i: int): string {
    if i < 0 then "-" + FormatUint(-i) else FormatUint(i)
  }

  // ---------------------------------------------------------------------
  // Properties

  /** ParseBool inverts FormatBool. */
  lemma BoolRoundTrip(b: bool)
    ensures ParseBool(FormatBool(b)) == Success(b)
  {
  }

  lemma {:induction false} HornerSnoc(acc: nat, s: string, c: char)
    requires AllDigits(s) && IsDigit(c)
    ensures AllDigits(s + [c])
    ensures Horner(acc, s + [c]) == Horner(acc, s) * 10 + DigitValue(c)
    decreases |s|
  {
    if s != [] {
      assert (s + [c])[1..] == s[1..] + [c];
      HornerSnoc(acc * 10 + DigitValue(s[0]), s[1..], c);
    }
  }

  lemma {:induction false} HornerAtLeast(acc: nat, s: string)
    requires AllDigits(s)
    ensures Horner(acc, s) >= acc
    ensures s != [] ==> Horner(acc, s) >= acc * 10 + DigitValue(s[0])
    decreases |s|
  {
    if s != [] {
      HornerAtLeast(acc * 10 + DigitValue(s[0]), s[1..]);
    }
  }

  /** Reading back the digits FormatUint writes gives the number. */
  lemma {:induction false} FormatUintValue(n: nat)
    ensures DecimalValue(FormatUint(n)) == n
  {
    if n < 10 {
      assert Horner(0, FormatUint(n)) == Horner(n, []);
    } else {
      FormatUintValue(n / 10);
      HornerSnoc(0, FormatUint(n / 10), DigitChar(n % 10));
    }
  }

  /** The scan succeeds exactly on digit strings whose value fits, and then yields that value. */
  lemma {:induction false} ScanUintSpec(s: string, acc: nat)
    requires acc <= MaxUint64
    ensures ScanUint(s, acc).Success? <==> AllDigits(s) && Horner(acc, s) <= MaxUint64
    ensures ScanUint(s, acc).Success? ==> ScanUint(s, acc).value == Horner(acc, s)
  {
    if s != [] && IsDigit(s[0]) {
      var n := acc * 10 + DigitValue(s[0]);
      if n <= MaxUint64 {
        ScanUintSpec(s[1..], n);
      } else if AllDigits(s) {
        HornerAtLeast(acc, s);
      }
    }
  }

  /** ParseUint accepts exactly the non-empty digit strings whose value is below 2^64. */
  lemma ParseUintSpec(s: string)
    ensures ParseUint(s).Success? <==> s != [] && AllDigits(s) && DecimalValue(s) <= MaxUint64
    ensures ParseUint(s).Success? ==> ParseUint(s).value == DecimalValue(s)
  {
    if s != [] {
      ScanUintSpec(s, 0);
    }
  }

  /** ParseUint inverts FormatUint on the uint64 range. */
  lemma UintRoundTrip(n: nat)
    requires n <= MaxUint64
    ensures ParseUint(FormatUint(n)) == Success(n)
  {
    FormatUintValue(n);
    ParseUintSpec(FormatUint(n));
  }

  /** ParseInt inverts FormatInt on the int64 range. */
  lemma IntRoundTrip(i: int)
    requires MinInt64 <= i <= MaxInt64
    ensures ParseInt(FormatInt(i)) == Success(i)
  {
    var s := FormatInt(i);
    if i < 0 {
      UintRoundTrip(-i);
      assert s[1..] == FormatUint(-i);
    } else {
      UintRoundTrip(i);
      assert s[0] != '-' && s[0] != '+';
    }
  }

  /** An explicit '+' sign is accepted and changes nothing. */
  lemma PlusSign(n: nat)
    requires n <= MaxInt64
    ensures ParseInt("+" + FormatUint(n)) == Success(n)
  {
    UintRoundTrip(n);
    assert ("+" + FormatUint(n))[1..] == FormatUint(n);
  }

  /**
   * ParseInt succeeds only on an optional sign followed by a non-empty
   * decimal digit string, and the value is within the int64 range.
   */
  lemma ParseIntShape(s: string)
    requires ParseInt(s).Success?
    ensures s != []
    ensures var body := if s[0] == '+' || s[0] == '-' then s[1..] else s;
      body != [] && AllDigits(body)
      && ParseInt(s).value == (if s[0] == '-' then -(DecimalValue(body) as int) else DecimalValue(body))
    ensures MinInt64 <= ParseInt(s).value <= MaxInt64
  {
    var body := if s[0] == '+' || s[0] == '-' then s[1..] else s;
    ParseUintSpec(body);
  }

  /** ParseUint rejects every sign, including '+'. */
  lemma UintRejectsSign(s: string)
    requires s != [] && (s[0] == '+' || s[0] == '-')
    ensures ParseUint(s) == Failure(ErrSyntax)
  {
  }
}
