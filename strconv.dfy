/**
 * Go's `strconv.Atoi` and `strconv.Itoa` on the platform's 64-bit `int`,
 * and the decimal notation both rely on.
 */
module Strconv {
  import opened Wrappers

  /** Bounds of Go's 64-bit `int`. */
  const MinInt: int := -0x8000_0000_0000_0000
  const MaxInt: int := 0x7FFF_FFFF_FFFF_FFFF

  predicate InIntRange(n: int) {
    MinInt <= n <= MaxInt
  }

  predicate IsDigit(c: char) {
    '0' <= c <= '9'
  }

  predicate AllDigits(s: string) {
    forall i :: 0 <= i < |s| ==> IsDigit(s[i])
  }

  function DigitValue(c: char): (d: nat)
    requires IsDigit(c)
    ensures d < 10
  {
    (c as int) - ('0' as int)
  }

  function DigitChar(d: nat): (c: char)
    requires d < 10
    ensures IsDigit(c) && DigitValue(c) == d
  {
    (('0' as int) + d) as char
  }

  /** The value of a string of decimal digits, most significant first. */
  function DecimalValue(s: string): nat
    requires AllDigits(s)
    decreases |s|
  {
    if s == [] then 0 else DecimalValue(s[..|s| - 1]) * 10 + DigitValue(s[|s| - 1])
  }

  /** The shortest decimal notation of `n`: digits only, no leading zero. */
  function NatToDecimal(n: nat): (s: string)
    ensures s != [] && AllDigits(s)
    ensures DecimalValue(s) == n
    ensures |s| == 1 || s[0] != '0'
    decreases n
  {
    if n < 10 then [DigitChar(n)]
    else
      var high := NatToDecimal(n / 10);
      var s := high + [DigitChar(n % 10)];
      assert s[..|s| - 1] == high;
      s
  }

  /** Why `Atoi` rejected its input (`strconv.ErrSyntax`, `strconv.ErrRange`). */
  datatype ErrorKind = ErrSyntax | ErrRange

  /** `*strconv.NumError` raised by `Atoi`: the input and the reason. */
  datatype NumError = NumError(num: string, kind: ErrorKind) {
    /** The text of `err.Error()`: the input quoted, then the reason. */
    function Message(): (m: string)
      ensures |m| >= 23 + |num| + 3
      ensures m[..22] == "strconv.Atoi: parsing " && m[23..23 + |num|] == num
      ensures kind == ErrSyntax ==> m[|m| - 14..] == "invalid syntax"
      ensures kind == ErrRange ==> m[|m| - 18..] == "value out of range"
    {
      var head := "strconv.Atoi: parsing \"" + num + "\": ";
      var reason := if kind == ErrSyntax then "invalid syntax" else "value out of range";
      assert (head + reason)[..22] == head[..22];
      assert (head + reason)[23..23 + |num|] == head[23..23 + |num|];
      assert (head + reason)[|head|..] == reason;
      head + reason
    }
  }

  /** The digits `Atoi` reads after an optional leading sign. */
  function Unsigned(s: string): string {
    if s != [] && (s[0] == '+' || s[0] == '-') then s[1..] else s
  }

  /** The grammar `Atoi` accepts: an optional sign, then at least one ASCII digit. */
  predicate IsIntLiteral(s: string) {
    Unsigned(s) != [] && AllDigits(Unsigned(s))
  }

  /** The mathematical value of an integer literal. */
  function LiteralValue(s: string): int
    requires IsIntLiteral(s)
  {
    if s[0] == '-' then -(DecimalValue(Unsigned(s)) as int) else DecimalValue(Unsigned(s))
  }

  /**
   * `strconv.Atoi(s)`: an optional `+` or `-`, then one or more ASCII digits,
   * whose value must fit in a 64-bit `int`.
   */
  function Atoi(s: string): (r: Result<int, NumError>)
    ensures r.Success? <==> IsIntLiteral(s) && InIntRange(LiteralValue(s))
    ensures r.Success? ==> r.value == LiteralValue(s)
    ensures r.Failure? ==> r.error.num == s
    ensures r.Failure? ==> (r.error.kind == ErrRange <==> IsIntLiteral(s))
  {
    var digits := Unsigned(s);
    if digits == [] || !AllDigits(digits) then Failure(NumError(s, ErrSyntax))
    else
      var v := if s[0] == '-' then -(DecimalValue(digits) as int) else DecimalValue(digits);
      if InIntRange(v) then Success(v) else Failure(NumError(s, ErrRange))
  }

  /** `strconv.Itoa(n)`: a minus sign for negative values, then the digits of |n|. */
  function Itoa(n: int): (s: string)
    ensures s != []
    ensures forall i :: 0 <= i < |s| ==> IsDigit(s[i]) || (i == 0 && s[i] == '-')
    ensures (s[0] == '-') <==> n < 0
    ensures n >= 0 ==> |s| == 1 || s[0] != '0'
    ensures n < 0 ==> |s| >= 2 && s[1] != '0'
  {
    if n < 0 then "-" + NatToDecimal(-n) else NatToDecimal(n)
  }

  /** A single digit reads as its value. */
  lemma AtoiDigit(c: char)
    requires IsDigit(c)
    ensures Atoi([c]) == Success(DigitValue(c))
  {
    assert Unsigned([c]) == [c];
    assert [c][..0] == [];
    assert DecimalValue([c]) == DigitValue(c);
  }

  /** A value below ten is written as one digit. */
  lemma ItoaDigit(d: nat)
    requires d < 10
    ensures Itoa(d) == [DigitChar(d)]
  {
  }

  /** `Atoi` reads back what `Itoa` writes, for every 64-bit value. */
  lemma AtoiItoa(n: int)
    requires InIntRange(n)
    ensures Atoi(Itoa(n)) == Success(n)
  {
    var s := Itoa(n);
    if n < 0 {
      assert Unsigned(s) == NatToDecimal(-n);
    } else {
      assert IsDigit(s[0]);
      assert Unsigned(s) == NatToDecimal(n);
    }
  }

  /** Every string `Itoa` produces is free of the given non-digit, non-sign character. */
  lemma ItoaAvoids(n: int, c: char)
    requires !IsDigit(c) && c != '-'
    ensures c !in Itoa(n)
  {
    var s := Itoa(n);
    forall i | 0 <= i < |s| ensures s[i] != c {
    }
  }
}
