/** Go's `strconv.Atoi` and the decimal rendering used by `%d` / `strconv.Itoa`,
    on the 64-bit `int` of the platforms the exporter runs on. */
module Strconv {
  import opened Wrappers

  const MinInt64: int := -0x8000_0000_0000_0000
  const MaxInt64: int :=  0x7fff_ffff_ffff_ffff

  predicate InInt64(n: int) {
    MinInt64 <= n <= MaxInt64
  }

  predicate IsDigit(c: char) {
    '0' <= c <= '9'
  }

  predicate AllDigits(s: string) {
    forall i :: 0 <= i < |s| ==> IsDigit(s[i])
  }

  function DigitValue(c: char): (d: nat)
    requires IsDigit(c)
    ensures d < 10
  {
    (c as int) - ('0' as int)
  }

  function DigitChar(d: nat): (c: char)
    requires d < 10
    ensures IsDigit(c) && DigitValue(c) == d
  {
    (('0' as int) + d) as char
  }

  /** The value of a run of decimal digits, most significant digit first. */
  function DigitsValue(s: string): nat
    requires AllDigits(s)
  {
    if |s| == 0 then 0 else DigitsValue(s[..|s| - 1]) * 10 + DigitValue(s[|s| - 1])
  }

  /** The syntax `strconv.Atoi` accepts in base 10: an optional sign followed by
      at least one ASCII digit; no spaces, no underscores, no base prefix. */
  predicate IsDecimalLiteral(s: string) {
    && |s| > 0
    && (IsDigit(s[0]) || ((s[0] == '+' || s[0] == '-') && |s| > 1))
    && AllDigits(s[1..])
  }

  /** The magnitude digits of a decimal literal (the literal without its sign). */
  function Magnitude(s: string): string
    requires IsDecimalLiteral(s)
  {
    if IsDigit(s[0]) then s else s[1..]
  }

  /** The mathematical value a decimal literal denotes, before any range check. */
  function LiteralValue(s: string): int
    requires IsDecimalLiteral(s)
  {
    if s[0] == '-' then 0 - DigitsValue(s[1..]) else DigitsValue(Magnitude(s))
  }

  /** `strconv.Atoi(s)`: `None` stands for the syntax error and the range error
      alike, since every caller in the exporter only tests `err != nil`. */
  function Atoi(s: string): (r: Option<int>)
    ensures r.Some? <==> IsDecimalLiteral(s) && InInt64(LiteralValue(s))
    ensures r.Some? ==> r.value == LiteralValue(s)
  {
    if |s| == 0 then None
    else
      var digits := if s[0] == '+' || s[0] == '-' then s[1..] else s;
      if |digits| == 0 || !AllDigits(digits) then None
      else
        var magnitude: int := DigitsValue(digits);
        var v := if s[0] == '-' then -magnitude else magnitude;
        if InInt64(v) then Some(v) else None
  }

  /** Decimal digits of a natural number, without leading zeros. */
  function NatToDecimal(n: nat): (s: string)
    ensures |s| > 0 && AllDigits(s)
    ensures s[0] == '0' ==> n == 0
  {
    if n < 10 then [DigitChar(n)] else NatToDecimal(n / 10) + [DigitChar(n % 10)]
  }

  /** `fmt.Sprintf("%d", n)`, equivalently `strconv.Itoa(n)`. */
  function Itoa(n: int): string {
    if n < 0 then "-" + NatToDecimal(-n) else NatToDecimal(n)
  }

  /** Reading back the digits `NatToDecimal` writes gives the number. */
  lemma {:induction false} DigitsValueOfNatToDecimal(n: nat)
    ensures DigitsValue(NatToDecimal(n)) == n
  {
    var s := NatToDecimal(n);
    if n >= 10 {
      var p := NatToDecimal(n / 10);
      assert s[..|s| - 1] == p;
      DigitsValueOfNatToDecimal(n / 10);
    }
  }

  /** A run of digits that does not start with '0' denotes a positive number. */
  lemma {:induction false} LeadingNonZeroIsPositive(s: string)
    requires |s| > 0 && AllDigits(s) && s[0] != '0'
    ensures DigitsValue(s) > 0
  {
    if |s| > 1 {
      var p := s[..|s| - 1];
      assert p[0] == s[0];
      LeadingNonZeroIsPositive(p);
    }
  }

  /** On canonical digit strings (no leading zero, or exactly "0") writing the
      value back reproduces the string: `NatToDecimal` inverts `DigitsValue`. */
  lemma {:induction false} NatToDecimalOfDigitsValue(s: string)
    requires |s| > 0 && AllDigits(s)
    requires s[0] == '0' ==> |s| == 1
    ensures NatToDecimal(DigitsValue(s)) == s
  {
    if |s| > 1 {
      var p := s[..|s| - 1];
      var c := s[|s| - 1];
      assert p[0] == s[0];
      LeadingNonZeroIsPositive(p);
      NatToDecimalOfDigitsValue(p);
      var v := DigitsValue(s);
      assert v == DigitsValue(p) * 10 + DigitValue(c);
      assert v / 10 == DigitsValue(p) && v % 10 == DigitValue(c);
      assert DigitChar(DigitValue(c)) == c;
      assert s == p + [c];
    } else {
      assert DigitChar(DigitValue(s[0])) == s[0];
    }
  }

  /** `%d` followed by `strconv.Atoi` is the identity on every 64-bit int. */
  lemma AtoiOfItoa(n: int)
    requires InInt64(n)
    ensures Atoi(Itoa(n)) == Some(n)
  {
    var m := if n < 0 then -n else n;
    var digits := NatToDecimal(m);
    DigitsValueOfNatToDecimal(m);
    var s := Itoa(n);
    if n < 0 {
      assert s == "-" + digits;
      assert s[0] == '-' && s[1..] == digits;
      assert IsDecimalLiteral(s);
      assert LiteralValue(s) == 0 - m;
    } else {
      assert s == digits;
      assert IsDigit(s[0]);
      assert AllDigits(s[1..]);
      assert LiteralValue(s) == m;
    }
  }

  /** Conversely, `Itoa` gives back every canonical literal `Atoi` accepts
      (no '+' sign, no leading zeros, no "-0"). */
  lemma ItoaOfAtoi(s: string)
    requires IsDecimalLiteral(s) && InInt64(LiteralValue(s))
    requires s[0] != '+'
    requires Magnitude(s)[0] == '0' ==> s == "0"
    ensures Itoa(Atoi(s).value) == s
  {
    var m := Magnitude(s);
    NatToDecimalOfDigitsValue(m);
    if s[0] == '-' {
      LeadingNonZeroIsPositive(m);
      assert s == "-" + m;
    }
  }
}
