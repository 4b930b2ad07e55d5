/**
 * Go's strconv.Atoi and strconv.Itoa for a 64-bit `int`.
 *
 * Atoi accepts an optional '+' or '-' followed by decimal digits. It reports
 * a syntax error (value 0) for anything else, and a range error, with the
 * value clamped to MinInt for a '-' numeral and to MaxInt otherwise, for a
 * numeral that does not fit. Like Go's ParseUint, it reports the range error as soon as the
 * digits read so far exceed 2^64 - 1, even when a non-digit follows later.
 */
module Strconv {
  import opened Wrappers

  const MaxInt: int := 0x7fff_ffff_ffff_ffff
  const MinInt: int := -0x8000_0000_0000_0000
  const MaxUint64: int := 0xffff_ffff_ffff_ffff

  /** The two kinds of *strconv.NumError. */
  datatype NumError = ErrSyntax | ErrRange

  /** Atoi's two results: the value (meaningful even with an error) and the error. */
  datatype Parsed = Parsed(value: int, err: Option<NumError>)

  predicate IsDigit(c: char) { '0' <= c <= '9' }

  predicate AllDigits(s: string) { forall i :: 0 <= i < |s| ==> IsDigit(s[i]) }

  function DigitValue(c: char): (d: nat)
    requires IsDigit(c)
    ensures d < 10
  {
    (c as int) - ('0' as int)
  }

  function DigitChar(d: nat): (c: char)
    requires d < 10
    ensures IsDigit(c) && DigitValue(c) == d
  {
    (('0' as int) + d) as char
  }

  /** The number the decimal digits denote, read most significant first. */
  function Value(digits: string): nat
    requires AllDigits(digits)
    decreases |digits|
  {
    if digits == [] then 0
    else Value(digits[..|digits| - 1]) * 10 + DigitValue(digits[|digits| - 1])
  }

  /** The longest prefix of s made of digits only. */
  function DigitPrefix(s: string): (p: string)
    ensures p <= s && AllDigits(p)
    ensures |p| < |s| ==> !IsDigit(s[|p|])
    decreases |s|
  {
    if s == [] || !IsDigit(s[0]) then ""
    else [s[0]] + DigitPrefix(s[1..])
  }

  /** s without its one optional leading sign. */
  function Unsigned(s: string): string
  {
    if s != "" && (s[0] == '-' || s[0] == '+') then s[1..] else s
  }

  predicate Negative(s: string)
  {
    s != "" && s[0] == '-'
  }

  /**
   * strconv.Atoi on a 64-bit platform: it succeeds exactly on a sign and a
   * non-empty run of digits whose value fits, and then gives that value.
   */
  function Atoi(s: string): (r: Parsed)
    ensures r.err.None? <==>
      Unsigned(s) != "" && AllDigits(Unsigned(s)) &&
      Value(Unsigned(s)) <= (if Negative(s) then -MinInt else MaxInt)
    ensures r.err.None? ==>
      AllDigits(Unsigned(s)) && r.value == (if Negative(s) then -(Value(Unsigned(s)) as int) else Value(Unsigned(s)))
    ensures r.err.None? ==> MinInt <= r.value <= MaxInt
    ensures r.err == Some(ErrSyntax) ==> r.value == 0
    ensures r.err == Some(ErrRange) <==>
      Value(DigitPrefix(Unsigned(s))) > MaxUint64 ||
      (Unsigned(s) != "" && AllDigits(Unsigned(s)) &&
       Value(Unsigned(s)) > (if Negative(s) then -MinInt else MaxInt))
    ensures r.err == Some(ErrRange) ==> r.value == (if Negative(s) then MinInt else MaxInt)
  {
    DigitPrefixOfUnsigned(s);
    if s == "" then Parsed(0, Some(ErrSyntax))
    else
      var neg := s[0] == '-';
      var body := if s[0] == '-' || s[0] == '+' then s[1..] else s;
      if body == "" then Parsed(0, Some(ErrSyntax))
      else if Value(DigitPrefix(body)) > MaxUint64 then
        Parsed(if neg then MinInt else MaxInt, Some(ErrRange))
      else if DigitPrefix(body) != body then Parsed(0, Some(ErrSyntax))
      else
        var magnitude: int := Value(body);
        if !neg && magnitude > MaxInt then Parsed(MaxInt, Some(ErrRange))
        else if neg && magnitude > -MinInt then Parsed(MinInt, Some(ErrRange))
        else Parsed(if neg then -magnitude else magnitude, None)
  }

  /** The decimal digits of n, without leading zeros. */
  function Decimal(n: nat): (digits: string)
    ensures |digits| >= 1 && AllDigits(digits)
    ensures Value(digits) == n
    ensures |digits| > 1 ==> digits[0] != '0'
    decreases n
  {
    if n < 10 then [DigitChar(n)]
    else
      var init := Decimal(n / 10);
      assert (init + [DigitChar(n % 10)])[..|init|] == init;
      init + [DigitChar(n % 10)]
  }

  /** strconv.Itoa: decimal, with a leading '-' for negative numbers. */
  function Itoa(n: int): (s: string)
    ensures |s| >= 1 && (s[0] == '-' <==> n < 0)
    ensures n >= 0 ==> AllDigits(s) && Value(s) == n
    ensures n < 0 ==> AllDigits(s[1..]) && Value(s[1..]) == -n
    ensures n >= 0 && |s| > 1 ==> s[0] != '0'
    ensures n < 0 ==> s[1] != '0'
  {
    if n < 0 then "-" + Decimal(-n) else Decimal(n)
  }

  /** After its optional sign, s does not start with a digit: nothing there is a numeral. */
  predicate NoLeadingDigit(s: string)
  {
    Unsigned(s) == "" || !IsDigit(Unsigned(s)[0])
  }

  /** A string that does not start with a digit after its sign is a syntax error with value 0. */
  lemma NotNumeral(s: string)
    requires NoLeadingDigit(s)
    ensures Atoi(s) == Parsed(0, Some(ErrSyntax))
  {
    assert DigitPrefix(Unsigned(s)) == "";
  }

  /** A string of digits is its own longest digit prefix. */
  lemma {:induction false} DigitPrefixOfDigits(s: string)
    requires AllDigits(s)
    ensures DigitPrefix(s) == s
    decreases |s|
  {
    if s != [] {
      assert AllDigits(s[1..]);
      DigitPrefixOfDigits(s[1..]);
      assert [s[0]] + s[1..] == s;
    }
  }

  lemma DigitPrefixOfUnsigned(s: string)
    ensures AllDigits(Unsigned(s)) ==> DigitPrefix(Unsigned(s)) == Unsigned(s)
  {
    if AllDigits(Unsigned(s)) {
      DigitPrefixOfDigits(Unsigned(s));
    }
  }

  /** Atoi reads back what Itoa writes, for every value of a 64-bit int. */
  lemma AtoiItoa(n: int)
    requires MinInt <= n <= MaxInt
    ensures Atoi(Itoa(n)) == Parsed(n, None)
  {
    var s := Itoa(n);
    var digits := Decimal(if n < 0 then -n else n);
    if n < 0 {
      assert s[0] == '-' && s[1..] == digits;
    } else {
      assert IsDigit(s[0]);
    }
    DigitPrefixOfDigits(digits);
  }

  /** Itoa writes only digits and a leading minus sign. */
  lemma ItoaCharacters(n: int)
    ensures forall i :: 0 <= i < |Itoa(n)| ==> IsDigit(Itoa(n)[i]) || (i == 0 && Itoa(n)[i] == '-')
  {
    if n < 0 {
      var d := Decimal(-n);
      assert forall i :: 1 <= i < |Itoa(n)| ==> Itoa(n)[i] == d[i - 1];
    }
  }
}
