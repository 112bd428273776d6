/** Decimal formatting (`fmt.Sprintf("%d", n)`) and parsing (`strconv.Atoi`)
    of integers, as the challenge scorer uses them on code points. */
module Strconv {
  import opened Wrappers
  import opened Sdk

  const MaxInt64: int := 0x7FFF_FFFF_FFFF_FFFF

  predicate IsDigit(c: char) {
    '0' <= c <= '9'
  }

  predicate AllDigits(s: string) {
    forall i :: 0 <= i < |s| ==> IsDigit(s[i])
  }

  function DigitChar(d: nat): (c: char)
    requires d < 10
    ensures IsDigit(c) && c as int - '0' as int == d
  {
    (d + '0' as int) as char
  }

  /** The value of a string of decimal digits, most significant first. */
  function DigitsValue(s: string): nat
    requires AllDigits(s)
  {
    if s == [] then 0 else DigitsValue(s[..|s| - 1]) * 10 + (s[|s| - 1] as int - '0' as int)
  }

  /** `fmt.Sprintf("%d", n)` for a non-negative `n`: the shortest decimal
      numeral, without a sign. */
  function FormatDecimal(n: nat): (s: string)
    ensures |s| >= 1 && AllDigits(s)
    ensures |s| > 1 ==> s[0] != '0'
  {
    if n < 10 then [DigitChar(n)] else FormatDecimal(n / 10) + [DigitChar(n % 10)]
  }

  /** `strconv.Atoi` on a 64-bit platform: an optional sign followed by at
      least one decimal digit, whose value must fit in an `int64`. */
  function Atoi(s: string): (r: Result<int, Error>)
    ensures r.Ok? ==> -MaxInt64 - 1 <= r.value <= MaxInt64
    ensures r.Ok? <==> s != [] && var body := if s[0] == '+' || s[0] == '-' then s[1..] else s;
                       body != [] && AllDigits(body)
                       && (if s[0] == '-' then DigitsValue(body) <= MaxInt64 + 1 else DigitsValue(body) <= MaxInt64)
    ensures r.Ok? ==> var body := if s[0] == '+' || s[0] == '-' then s[1..] else s;
                      r.value == (if s[0] == '-' then 0 - DigitsValue(body) as int else DigitsValue(body))
  {
    if s == [] then Err(ErrSyntax(s))
    else
      var negative := s[0] == '-';
      var body := if s[0] == '+' || s[0] == '-' then s[1..] else s;
      if body == [] || !AllDigits(body) then Err(ErrSyntax(s))
      else
        var v: int := if negative then 0 - (DigitsValue(body) as int) else DigitsValue(body);
        if v < -MaxInt64 - 1 || v > MaxInt64 then Err(ErrRange(s)) else Ok(v)
  }

  lemma {:induction false} FormatDecimalValue(n: nat)
    ensures DigitsValue(FormatDecimal(n)) == n
  {
    if n >= 10 {
      var s := FormatDecimal(n);
      FormatDecimalValue(n / 10);
      assert s[..|s| - 1] == FormatDecimal(n / 10);
    }
  }

  /** Parsing what `%d` printed gives back the number: the conversion in the
      challenge scorer never fails on a code point. */
  lemma AtoiFormatDecimal(n: nat)
    requires n <= MaxInt64
    ensures Atoi(FormatDecimal(n)) == Ok(n)
  {
    FormatDecimalValue(n);
    var s := FormatDecimal(n);
    assert IsDigit(s[0]);
  }
}
