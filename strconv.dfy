/** Go's `strconv.Atoi` and the `%d` verb of `fmt`, on Go's 64-bit `int`. */
module Strconv {

  const IntMin: int := -0x8000_0000_0000_0000
  const IntMax: int := 0x7fff_ffff_ffff_ffff

  predicate InIntRange(n: int) {
    IntMin <= n <= IntMax
  }

  predicate IsDigit(c: char) {
    '0' <= c <= '9'
  }

  predicate AllDigits(s: string) {
    forall i | 0 <= i < |s| :: IsDigit(s[i])
  }

  function DigitValue(c: char): (d: nat)
    requires IsDigit(c)
    ensures d < 10
  {
    c as int - '0' as int
  }

  function DigitChar(d: nat): (c: char)
    requires d < 10
    ensures IsDigit(c) && DigitValue(c) == d
  {
    ('0' as int + d) as char
  }

  /** The value of a string of decimal digits, read most significant first. */
  function DigitsValue(s: string): nat
    requires AllDigits(s)
    decreases |s|
  {
    if s == [] then 0 else DigitsValue(s[..|s| - 1]) * 10 + DigitValue(s[|s| - 1])
  }

  /** Saturation to the 64-bit range, which is what Go returns together with ErrRange. */
  function Clamp(n: int): (r: int)
    ensures InIntRange(r)
    ensures InIntRange(n) ==> r == n
    ensures n > IntMax ==> r == IntMax
    ensures n < IntMin ==> r == IntMin
  {
    if n > IntMax then IntMax else if n < IntMin then IntMin else n
  }

  /** The digits after an optional leading sign. */
  function Unsigned(s: string): string {
    if |s| > 0 && (s[0] == '-' || s[0] == '+') then s[1..] else s
  }

  /** `strconv.Atoi`: an optional sign followed by at least one decimal digit; the value
      saturates at the bounds of `int`, and any other string yields 0 (the error is dropped). */
  function Atoi(s: string): (n: int)
    ensures InIntRange(n)
  {
    var digits := Unsigned(s);
    if |digits| == 0 || !AllDigits(digits) then 0
    else if s[0] == '-' then Clamp(-(DigitsValue(digits) as int))
    else Clamp(DigitsValue(digits))
  }

  /** Shortest decimal digits of a natural number. */
  function NatDigits(n: nat): (s: string)
    ensures |s| > 0 && AllDigits(s)
    ensures s[0] == '0' ==> n == 0
    decreases n
  {
    if n < 10 then [DigitChar(n)] else NatDigits(n / 10) + [DigitChar(n % 10)]
  }

  /** `fmt.Sprintf("%d", n)`. */
  function FormatInt(n: int): (s: string)
    ensures |s| > 0
    ensures n < 0 <==> s[0] == '-'
    ensures |Unsigned(s)| > 0 && AllDigits(Unsigned(s))
    ensures s[0] != '+'
    ensures Unsigned(s)[0] == '0' ==> n == 0 && s == "0"
  {
    if n < 0 then "-" + NatDigits(-n) else NatDigits(n)
  }

  lemma {:induction false} NatDigitsValue(n: nat)
    ensures DigitsValue(NatDigits(n)) == n
    decreases n
  {
    if n >= 10 {
      var s := NatDigits(n);
      NatDigitsValue(n / 10);
      assert s[..|s| - 1] == NatDigits(n / 10);
    }
  }

  /** Rendering with `%d` and reading back with `Atoi` is the identity on `int`;
      in particular `FormatInt` is injective there. */
  lemma AtoiFormatInt(n: int)
    requires InIntRange(n)
    ensures Atoi(FormatInt(n)) == n
  {
    if n < 0 {
      AtoiNegative(NatDigits(-n), n);
    } else {
      AtoiNatural(NatDigits(n), n);
    }
  }

  /** The negative case of `AtoiFormatInt`. */
  lemma AtoiNegative(d: string, n: int)
    requires InIntRange(n) && n < 0 && d == NatDigits(-n)
    ensures Atoi("-" + d) == n
  {
    NatDigitsValue(-n);
    assert ("-" + d)[1..] == d;
    assert Unsigned("-" + d) == d;
  }

  /** The non-negative case of `AtoiFormatInt`. */
  lemma AtoiNatural(d: string, n: int)
    requires InIntRange(n) && n >= 0 && d == NatDigits(n)
    ensures Atoi(d) == n
  {
    NatDigitsValue(n);
    assert IsDigit(d[0]);
    assert Unsigned(d) == d;
  }

  /** A decimal numeral as `%d` writes one: an optional '-', then digits with no leading zero
      (a lone "0" aside), not "-0", and a value within `int`. */
  predicate Canonical(s: string) {
    var d := Unsigned(s);
    && |s| > 0 && s[0] != '+'
    && |d| > 0 && AllDigits(d)
    && (d[0] == '0' ==> s == "0")
    && InIntRange(if s[0] == '-' then -(DigitsValue(d) as int) else DigitsValue(d))
  }

  /** Digits without a leading zero have a value of at least 1. */
  lemma {:induction false} LeadingDigitPositive(d: string)
    requires |d| > 0 && AllDigits(d) && d[0] != '0'
    ensures DigitsValue(d) >= 1
    decreases |d|
  {
    if |d| > 1 {
      LeadingDigitPositive(d[..|d| - 1]);
    }
  }

  /** Digits without a leading zero are the shortest digits of their value. */
  lemma {:induction false} NatDigitsOfValue(d: string)
    requires |d| > 0 && AllDigits(d) && (d[0] == '0' ==> |d| == 1)
    ensures NatDigits(DigitsValue(d)) == d
    decreases |d|
  {
    if |d| > 1 {
      var front := d[..|d| - 1];
      NatDigitsOfValue(front);
      LeadingDigitPositive(front);
      var v := DigitsValue(d);
      assert v / 10 == DigitsValue(front) && v % 10 == DigitValue(d[|d| - 1]);
      assert DigitChar(DigitValue(d[|d| - 1])) == d[|d| - 1];
      assert d == front + [d[|d| - 1]];
    } else {
      assert DigitChar(DigitValue(d[0])) == d[0];
    }
  }

  /** Reading a canonical numeral with `Atoi` and writing it back with `%d` gives the numeral
      again: together with `AtoiFormatInt` the two are inverse bijections between `int` and the
      canonical numerals. */
  lemma FormatIntAtoi(s: string)
    requires Canonical(s)
    ensures FormatInt(Atoi(s)) == s
  {
    var d := Unsigned(s);
    NatDigitsOfValue(d);
    if s[0] == '-' {
      if d[0] == '0' {
        assert false;
      }
      LeadingDigitPositive(d);
      assert s == "-" + d;
    } else {
      assert s == d;
    }
  }
}
