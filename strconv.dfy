/**
 * The two token grammars of Go's strconv package that the typed setters use:
 * Atoi (for SetInt) and ParseBool (for SetBool), on a platform whose `int`
 * is 64 bits wide.
 */
module Strconv {
  import opened Wrappers

  const MaxUint64: int := 0xFFFF_FFFF_FFFF_FFFF
  const MaxInt64: int := 0x7FFF_FFFF_FFFF_FFFF
  const MinInt64: int := -0x8000_0000_0000_0000

  /** The strconv entry point named in a NumError (its Func field). */
  datatype ParseFunc = FnAtoi | FnParseBool

  /** The reason in a NumError (its Err field): strconv.ErrSyntax or strconv.ErrRange. */
  datatype NumErrKind = ErrSyntax | ErrRange

  /** strconv.NumError: which function failed, on which input, and why. */
  datatype NumError = NumError(fn: ParseFunc, num: string, err: NumErrKind)

  // ---------------------------------------------------------------------------
  // Decimal digits

  predicate IsDigit(c: char) { '0' <= c <= '9' }

  predicate AllDigits(s: string) { forall i :: 0 <= i < |s| ==> IsDigit(s[i]) }

  function DigitVal(c: char): nat
    requires IsDigit(c)
  {
    c as int - '0' as int
  }

  function DigitChar(d: nat): char
    requires d < 10
  {
    ('0' as int + d) as char
  }

  /** The number a string of decimal digits denotes, most significant digit first. */
  function DecimalValue(s: string): nat
    requires AllDigits(s)
  {
    if s == [] then 0 else DecimalValue(s[..|s| - 1]) * 10 + DigitVal(s[|s| - 1])
  }

  /** The length of the run of digits that starts the string. */
  function DigitRun(s: string): (k: nat)
    ensures k <= |s| && AllDigits(s[..k])
    ensures k < |s| ==> !IsDigit(s[k])
  {
    if s == [] || !IsDigit(s[0]) then 0
    else
      var k := 1 + DigitRun(s[1..]);
      assert s[..k] == [s[0]] + s[1..][..k - 1];
      k
  }

  // ---------------------------------------------------------------------------
  // The grammar Atoi accepts: an optional sign, then one or more decimal digits

  predicate HasSign(s: string) { |s| > 0 && (s[0] == '+' || s[0] == '-') }

  predicate IsNegative(s: string) { |s| > 0 && s[0] == '-' }

  /** The input without its leading sign, if it has one. */
  function Unsigned(s: string): string { if HasSign(s) then s[1..] else s }

  predicate IsDecimalLiteral(s: string) { |Unsigned(s)| > 0 && AllDigits(Unsigned(s)) }

  function LiteralValue(s: string): int
    requires IsDecimalLiteral(s)
  {
    if IsNegative(s) then -(DecimalValue(Unsigned(s)) as int) else DecimalValue(Unsigned(s))
  }

  predicate InInt64(x: int) { MinInt64 <= x <= MaxInt64 }

  // ---------------------------------------------------------------------------
  // The code: ParseUint's digit loop, ParseInt's sign and range handling, Atoi

  /** Where ParseUint's loop stops: with the accumulated value, or with an error. */
  datatype Scan = Scanned(n: nat) | Stopped(kind: NumErrKind)

  /**
   * ParseUint's loop over the digits from position i with accumulator n, base
   * 10 and bit size 64. A non-digit stops it with a syntax error. A digit d that
   * would take n * 10 + d past 2^64 - 1 stops it with a range error, possibly
   * before a later non-digit is seen; Go detects this with the test
   * `n >= cutoff` followed by the wrap-around test on `n * 10 + d`, which
   * together hold exactly when the exact value exceeds 2^64 - 1.
   */
  function ScanUint(s: string, i: nat, n: nat): Scan
    requires i <= |s| && n <= MaxUint64
    decreases |s| - i
  {
    if i == |s| then Scanned(n)
    else if !IsDigit(s[i]) then Stopped(ErrSyntax)
    else if n * 10 + DigitVal(s[i]) > MaxUint64 then Stopped(ErrRange)
    else ScanUint(s, i + 1, n * 10 + DigitVal(s[i]))
  }

  /** ParseUint(s, 10, 64): the empty string is a syntax error. */
  function ParseUint(s: string): Scan
  {
    if s == [] then Stopped(ErrSyntax) else ScanUint(s, 0, 0)
  }

  /**
   * strconv.Atoi(s) with a 64-bit int: ParseInt(s, 10, 0), whose NumError
   * carries the name Atoi and the whole input. The empty string is a syntax
   * error; one leading '+' or '-' is stripped; a magnitude of 2^63 or more
   * (more than 2^63 when negative) is a range error.
   */
  function Atoi(s: string): Result<int, NumError>
  {
    if s == [] then Err(NumError(FnAtoi, s, ErrSyntax))
    else
      match ParseUint(Unsigned(s))
      case Stopped(kind) => Err(NumError(FnAtoi, s, kind))
      case Scanned(un) =>
        if !IsNegative(s) && un > MaxInt64 then Err(NumError(FnAtoi, s, ErrRange))
        else if IsNegative(s) && un > -MinInt64 then Err(NumError(FnAtoi, s, ErrRange))
        else Ok(if IsNegative(s) then -(un as int) else un)
  }

  // ---------------------------------------------------------------------------
  // Atoi against its grammar

  /** The value of a prefix of a digit string never exceeds the value of the whole. */
  lemma {:induction false} DecimalValuePrefix(t: string, j: nat)
    requires AllDigits(t) && j <= |t|
    ensures AllDigits(t[..j]) && DecimalValue(t[..j]) <= DecimalValue(t)
  {
    if j < |t| {
      var t' := t[..|t| - 1];
      assert t[..j] == t'[..j];
      DecimalValuePrefix(t', j);
      assert DecimalValue(t) == DecimalValue(t') * 10 + DigitVal(t[|t| - 1]);
    } else {
      assert t[..j] == t;
    }
  }

  /**
   * From position i, having consumed the digits s[..i], the loop ends in a
   * range error when the leading digits of s already exceed 2^64 - 1, in a
   * syntax error when a non-digit follows them, and with the value of s otherwise.
   */
  lemma {:induction false} ScanUintSpec(s: string, i: nat)
    requires i <= |s| && AllDigits(s[..i]) && DecimalValue(s[..i]) <= MaxUint64
    ensures var k := DigitRun(s);
      ScanUint(s, i, DecimalValue(s[..i])) ==
        if DecimalValue(s[..k]) > MaxUint64 then Stopped(ErrRange)
        else if k < |s| then Stopped(ErrSyntax)
        else Scanned(DecimalValue(s))
    decreases |s| - i
  {
    var k := DigitRun(s);
    var n := DecimalValue(s[..i]);
    assert i <= k;
    if i == |s| {
      assert s[..i] == s;
    } else if !IsDigit(s[i]) {
      assert k == i;
    } else {
      assert s[..i + 1][..i] == s[..i];
      assert DecimalValue(s[..i + 1]) == n * 10 + DigitVal(s[i]);
      if n * 10 + DigitVal(s[i]) > MaxUint64 {
        assert k >= i + 1;
        assert s[..k][..i + 1] == s[..i + 1];
        DecimalValuePrefix(s[..k], i + 1);
      } else {
        ScanUintSpec(s, i + 1);
      }
    }
  }

  /** ParseUint succeeds exactly on a non-empty digit string within 64 unsigned bits. */
  lemma ParseUintSpec(s: string)
    ensures ParseUint(s).Scanned? <==> |s| > 0 && AllDigits(s) && DecimalValue(s) <= MaxUint64
    ensures ParseUint(s).Scanned? ==> ParseUint(s).n == DecimalValue(s)
    ensures ParseUint(s) == Stopped(ErrRange) <==> DecimalValue(s[..DigitRun(s)]) > MaxUint64
  {
    var k := DigitRun(s);
    if s != [] {
      assert s[..0] == [];
      ScanUintSpec(s, 0);
      if k == |s| { assert s[..k] == s; }
    }
  }

  /**
   * Atoi succeeds exactly on an optional sign followed by one or more digits
   * whose value lies in the 64-bit range, and then returns that value. Every
   * error names Atoi and carries the whole input.
   */
  lemma AtoiSpec(s: string)
    ensures Atoi(s).Ok? <==> IsDecimalLiteral(s) && InInt64(LiteralValue(s))
    ensures Atoi(s).Ok? ==> Atoi(s).value == LiteralValue(s)
    ensures Atoi(s).Err? ==> Atoi(s).error.fn == FnAtoi && Atoi(s).error.num == s
  {
    ParseUintSpec(Unsigned(s));
  }

  /**
   * The reason Atoi gives for a rejection: a range error when the input is a
   * well-formed literal (then out of range) or when its leading digits already
   * exceed 2^64 - 1; a syntax error otherwise.
   */
  lemma AtoiErrorKind(s: string)
    requires Atoi(s).Err?
    ensures var u := Unsigned(s);
      Atoi(s).error.err == ErrRange <==>
        IsDecimalLiteral(s) || DecimalValue(u[..DigitRun(u)]) > MaxUint64
  {
    var u := Unsigned(s);
    ParseUintSpec(u);
    if IsDecimalLiteral(s) { assert u[..DigitRun(u)] == u; }
  }

  // ---------------------------------------------------------------------------
  // The partner of Atoi: decimal formatting as strconv.Itoa writes it

  /** The decimal digits of n, without leading zeros. */
  function Digits(n: nat): string
    decreases n
  {
    if n < 10 then [DigitChar(n)] else Digits(n / 10) + [DigitChar(n % 10)]
  }

  /** strconv.Itoa: a '-' for negative numbers, then the digits of the magnitude. */
  function Itoa(n: int): string
  {
    if n < 0 then "-" + Digits(-n) else Digits(n)
  }

  lemma {:induction false} DigitsValue(n: nat)
    ensures |Digits(n)| > 0 && AllDigits(Digits(n)) && DecimalValue(Digits(n)) == n
    decreases n
  {
    if n >= 10 {
      DigitsValue(n / 10);
      var d := Digits(n);
      assert d[..|d| - 1] == Digits(n / 10);
    }
  }

  /** Every 64-bit integer survives formatting followed by Atoi. */
  lemma AtoiItoa(n: int)
    requires InInt64(n)
    ensures Atoi(Itoa(n)) == Ok(n)
  {
    var s := Itoa(n);
    if n < 0 {
      DigitsValue(-n);
      assert Unsigned(s) == Digits(-n);
    } else {
      DigitsValue(n);
      assert !HasSign(s) by { assert IsDigit(s[0]); }
    }
    AtoiSpec(s);
  }

  // ---------------------------------------------------------------------------
  // ParseBool

  /** The tokens ParseBool reads as true and as false; no other spelling is accepted. */
  const TrueTokens: set<string> := {"1", "t", "T", "TRUE", "true", "True"}
  const FalseTokens: set<string> := {"0", "f", "F", "FALSE", "false", "False"}

  /** strconv.ParseBool: a switch over twelve exact spellings. */
  function ParseBool(s: string): (r: Result<bool, NumError>)
    ensures r.Ok? <==> s in TrueTokens || s in FalseTokens
    ensures r.Ok? ==> (r.value <==> s in TrueTokens)
    ensures r.Err? ==> r.error == NumError(FnParseBool, s, ErrSyntax)
  {
    if s == "1" || s == "t" || s == "T" || s == "true" || s == "TRUE" || s == "True" then Ok(true)
    else if s == "0" || s == "f" || s == "F" || s == "false" || s == "FALSE" || s == "False" then Ok(false)
    else Err(NumError(FnParseBool, s, ErrSyntax))
  }

  /** strconv.FormatBool, the partner of ParseBool. */
  function FormatBool(b: bool): string { if b then "true" else "false" }

  lemma ParseBoolFormatBool(b: bool)
    ensures ParseBool(FormatBool(b)) == Ok(b)
  {
  }

  /**
   * An example, implied by ParseBool's contract: ParseBool is not case-insensitive,
   * so mixed-case spellings and words such as "yes" are rejected.
   */
  lemma ParseBoolMixedCase()
    ensures ParseBool("tRUE").Err? && ParseBool("fALSE").Err? && ParseBool("TrUe").Err?
    ensures ParseBool("yes").Err? && ParseBool("").Err?
  {
  }
}
