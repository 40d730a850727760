/** Positional numerals with the digits 0-9 and a-z, most significant first: what
    `strconv.ParseUint` reads and `strconv.FormatUint` writes. */
module Numerals {

  /** `pickcodeAlphabetIndex` (internal/drive/pickcode.go): the value of a digit, or -1. */
  function DigitOf(c: char): int {
    if '0' <= c <= '9' then c as int - '0' as int
    else if 'a' <= c <= 'z' then c as int - 'a' as int + 10
    else -1
  }

  function DigitChar(d: nat): (c: char)
    requires d < 36
    ensures DigitOf(c) == d
  {
    if d < 10 then (d + '0' as int) as char else (d - 10 + 'a' as int) as char
  }

  lemma DigitInjective(c: char, d: char)
    requires 0 <= DigitOf(c) && DigitOf(c) == DigitOf(d)
    ensures c == d
  {}

  /** Digits only, possibly none. */
  predicate AllDigits(base: nat, s: string) {
    forall i :: 0 <= i < |s| ==> 0 <= DigitOf(s[i]) < base
  }

  function ValueOf(base: nat, s: string): nat
    requires AllDigits(base, s)
  {
    if s == "" then 0 else base * ValueOf(base, s[..|s| - 1]) + DigitOf(s[|s| - 1])
  }

  lemma Divides(base: nat, n: nat)
    requires 2 <= base <= n
    ensures 0 < n / base < n && 0 <= n % base < base
    ensures base * (n / base) + n % base == n
  {
    Grows(2, base, n / base);
  }

  lemma Grows(a: nat, b: nat, k: nat)
    requires a <= b
    ensures a * k <= b * k
  {
    assert b * k == a * k + (b - a) * k;
  }

  function Numeral(base: nat, n: nat): (s: string)
    requires 2 <= base <= 36
    ensures s != "" && AllDigits(base, s)
    decreases n
  {
    if n < base then [DigitChar(n)]
    else
      Divides(base, n);
      Numeral(base, n / base) + [DigitChar(n % base)]
  }

  lemma {:induction false} ValueOfNumeral(base: nat, n: nat)
    requires 2 <= base <= 36
    ensures ValueOf(base, Numeral(base, n)) == n
    decreases n
  {
    if n < base {
      assert [DigitChar(n)][..0] == "";
    } else {
      Divides(base, n);
      ValueOfNumeral(base, n / base);
    }
  }

  /** A numeral without a superfluous leading zero is the canonical one. */
  lemma {:induction false} NumeralOfValue(base: nat, s: string)
    requires 2 <= base <= 36 && s != "" && AllDigits(base, s)
    requires s[0] != '0' || |s| == 1
    ensures Numeral(base, ValueOf(base, s)) == s
    ensures s[0] != '0' ==> ValueOf(base, s) > 0
  {
    hide Numeral, ValueOf;
    var rest, d := s[..|s| - 1], DigitOf(s[|s| - 1]);
    ValueStep(base, s);
    DigitInjective(s[|s| - 1], DigitChar(d));
    if rest == "" {
      OneDigit(base, d);
      if d == 0 { DigitInjective(s[0], '0'); }
    } else {
      NumeralOfValue(base, rest);
      DivideBack(base, ValueOf(base, rest), d);
      NumeralStep(base, base * ValueOf(base, rest) + d);
    }
  }

  lemma ValueStep(base: nat, s: string)
    requires s != "" && AllDigits(base, s)
    ensures s == s[..|s| - 1] + [s[|s| - 1]]
    ensures ValueOf(base, s) == base * ValueOf(base, s[..|s| - 1]) + DigitOf(s[|s| - 1])
    ensures |s| == 1 ==> ValueOf(base, s) == DigitOf(s[0])
  {
    if |s| == 1 { assert ValueOf(base, s[..0]) == 0; }
  }

  lemma OneDigit(base: nat, d: nat)
    requires 2 <= base <= 36 && d < base
    ensures Numeral(base, d) == [DigitChar(d)]
  {}

  lemma NumeralStep(base: nat, n: nat)
    requires 2 <= base <= 36 && base <= n
    ensures n % base < base
    ensures Numeral(base, n) == Numeral(base, n / base) + [DigitChar(n % base)]
  {
    Divides(base, n);
  }

  lemma DivideBack(base: nat, q: nat, d: nat)
    requires d < base && q > 0
    ensures base * q + d >= base && (base * q + d) / base == q && (base * q + d) % base == d
  {
    assert base * q >= base;
    SameQuotient(base, q, d, (base * q + d) / base, (base * q + d) % base);
  }

  lemma Apart(base: nat, q: nat, r: nat)
    requires q < r
    ensures base * q + base <= base * r
  {
    Grows(q + 1, r, base);
    assert base * (q + 1) == base * q + base;
    Commute(base, r);
    Commute(base, q + 1);
  }

  lemma Commute(a: nat, b: nat)
    ensures a * b == b * a
  {}

  lemma SameQuotient(base: nat, q: nat, d: nat, q2: nat, d2: nat)
    requires d < base && d2 < base
    requires base * q + d == base * q2 + d2
    ensures q == q2 && d == d2
  {
    if q > q2 { Apart(base, q2, q); }
    if q < q2 { Apart(base, q, q2); }
  }

  /** Equally long numerals have the same value only if they are equal. */
  lemma {:induction false} ValueInjective(base: nat, a: string, b: string)
    requires AllDigits(base, a) && AllDigits(base, b) && |a| == |b|
    requires ValueOf(base, a) == ValueOf(base, b)
    ensures a == b
  {
    if a != "" {
      var x, y := a[..|a| - 1], b[..|b| - 1];
      SameQuotient(base, ValueOf(base, x), DigitOf(a[|a| - 1]), ValueOf(base, y), DigitOf(b[|b| - 1]));
      ValueInjective(base, x, y);
      DigitInjective(a[|a| - 1], b[|b| - 1]);
      assert a == x + [a[|a| - 1]] && b == y + [b[|b| - 1]];
    }
  }
}
