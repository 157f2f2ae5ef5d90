/** Signed decimal numerals, as `i32` and `i64` values are formatted and read. */
module Decimal {
  import opened Common

  predicate IsDigit(c: char) {
    '0' <= c <= '9'
  }

  function DigitChar(d: nat): (c: char)
    requires d < 10
    ensures IsDigit(c)
  {
    '0' + (d as char)
  }

  function DigitValue(c: char): (d: nat)
    requires IsDigit(c)
    ensures d < 10
  {
    (c - '0') as nat
  }

  function PrintNat(n: nat): string {
    if n < 10 then [DigitChar(n)] else PrintNat(n / 10) + [DigitChar(n % 10)]
  }

  function Print(n: int): string {
    if n < 0 then ['-'] + PrintNat(-n) else PrintNat(n)
  }

  predicate AllDigits(s: string) {
    forall i :: 0 <= i < |s| ==> IsDigit(s[i])
  }

  function NatValue(s: string): nat
    requires AllDigits(s)
  {
    if s == [] then 0 else 10 * NatValue(s[..|s| - 1]) + DigitValue(s[|s| - 1])
  }

  /** Reads an optional sign and at least one digit; fails when the value leaves [lo, hi].
      The accumulated magnitude never shrinks, so checking the final value is the same as
      checking every step. */
  function Parse(s: string, lo: int, hi: int): (r: Option<int>)
    ensures r.Some? ==> lo <= r.value <= hi
  {
    var negative := s != [] && s[0] == '-';
    var digits := if s != [] && (s[0] == '-' || s[0] == '+') then s[1..] else s;
    if digits == [] || !AllDigits(digits) then None
    else
      var magnitude: int := NatValue(digits);
      var n := if negative then -magnitude else magnitude;
      if lo <= n <= hi then Some(n) else None
  }

  function ParseI32(s: string): Option<i32> {
    match Parse(s, I32_MIN, I32_MAX)
    case None => None
    case Some(n) => Some(n)
  }

  function ParseI64(s: string): Option<i64> {
    match Parse(s, I64_MIN, I64_MAX)
    case None => None
    case Some(n) => Some(n)
  }

  lemma {:induction false} PrintNatValue(n: nat)
    ensures PrintNat(n) != [] && AllDigits(PrintNat(n))
    ensures NatValue(PrintNat(n)) == n
  {
    if n < 10 {
      var s := PrintNat(n);
      assert s == [DigitChar(n)] && s[..0] == [];
      assert NatValue(s) == 10 * NatValue(s[..0]) + DigitValue(s[0]);
    } else {
      var s := PrintNat(n);
      PrintNatValue(n / 10);
      assert s[..|s| - 1] == PrintNat(n / 10);
      assert NatValue(s) == 10 * NatValue(s[..|s| - 1]) + DigitValue(s[|s| - 1]);
    }
  }

  /** Every character of a numeral is a digit, except a leading minus sign. */
  lemma {:induction false} PrintShape(n: int)
    ensures Print(n) != []
    ensures forall i :: 0 <= i < |Print(n)| ==> IsDigit(Print(n)[i]) || Print(n)[i] == '-'
    ensures IsDigit(Print(n)[|Print(n)| - 1])
  {
    PrintNatValue(if n < 0 then -n else n);
  }

  /** A printed number is read back exactly when it lies in range. */
  lemma {:induction false} PrintThenParse(n: int, lo: int, hi: int)
    ensures Parse(Print(n), lo, hi) == if lo <= n <= hi then Some(n) else None
  {
    PrintNatValue(if n < 0 then -n else n);
    if n < 0 {
      assert Print(n)[1..] == PrintNat(-n);
    }
  }

  // ---------------------------------------------------------------- decimal notation

  function Pow10(k: nat): (p: nat)
    ensures p > 0
  {
    if k == 0 then 1 else 10 * Pow10(k - 1)
  }

  /** The digit of `n` that stands for `Pow10(k)`. */
  function DigitAt(n: nat, k: nat): (d: nat)
    ensures d < 10
  {
    (n / Pow10(k)) % 10
  }

  /** Every character of `s` is the digit of `n` for its place, most significant first. */
  predicate InPlaces(s: string, n: nat) {
    forall i :: 0 <= i < |s| ==> s[i] == '0' + DigitAt(n, |s| - 1 - i) as char
  }

  lemma MultipleFar(d: int, x: int)
    requires d > 0
    ensures x >= 1 ==> d * x >= d
    ensures x <= -1 ==> d * x <= -d
  {
    if x >= 1 {
      assert d * x == d + d * (x - 1);
    } else if x <= -1 {
      assert d * x == d * (x + 1) - d;
    }
  }

  lemma QuotientIs(n: int, d: int, q: int, rest: int)
    requires d > 0 && n == d * q + rest && 0 <= rest < d
    ensures n / d == q
  {
    assert d * (n / d - q) == rest - n % d;
    MultipleFar(d, n / d - q);
  }

  lemma DivideTwice(n: nat, d: nat)
    requires d > 0
    ensures (n / 10) / d == n / (10 * d)
  {
    var q, rest := (n / 10) / d, (n / 10) % d;
    assert n / 10 == d * q + rest;
    assert n == 10 * (d * q + rest) + n % 10;
    assert n == (10 * d) * q + (10 * rest + n % 10);
    assert 10 * rest + 9 < 10 * d;
    QuotientIs(n, 10 * d, q, 10 * rest + n % 10);
  }

  lemma OnePlace(n: nat)
    requires n < 10
    ensures InPlaces(PrintNat(n), n) && PrintNat(n) == ['0' + n as char] && n < Pow10(1)
  {
    assert Pow10(0) == 1 && Pow10(1) == 10;
    assert DigitAt(n, 0) == n;
  }

  lemma OneMorePlace(n: nat, front: string)
    requires n >= 10 && InPlaces(front, n / 10) && n / 10 < Pow10(|front|)
    ensures InPlaces(front + [DigitChar(n % 10)], n) && n < Pow10(|front| + 1)
  {
    var s := front + [DigitChar(n % 10)];
    forall i | 0 <= i < |s| ensures s[i] == '0' + DigitAt(n, |s| - 1 - i) as char {
      if i < |front| {
        DivideTwice(n, Pow10(|front| - 1 - i));
      } else {
        assert Pow10(0) == 1;
      }
    }
  }

  lemma {:induction false} PrintNatPlaces(n: nat)
    ensures var s := PrintNat(n); s != [] && n < Pow10(|s|) && (n > 0 ==> s[0] != '0') && InPlaces(s, n)
  {
    if n < 10 {
      OnePlace(n);
    } else {
      PrintNatPlaces(n / 10);
      OneMorePlace(n, PrintNat(n / 10));
    }
  }

  /** A number is printed in decimal: each character is the digit for its place, most significant
      first, with no leading zero, and a minus sign in front if it is negative. */
  lemma PrintsDecimal(n: int)
    ensures n >= 0 ==> var s := Print(n); s != [] && n < Pow10(|s|) && (n > 0 ==> s[0] != '0') && InPlaces(s, n)
    ensures n == 0 ==> Print(n) == "0"
    ensures n < 0 ==> Print(n) == "-" + Print(-n)
  {
    PrintNatPlaces(if n < 0 then -n else n);
    if n == 0 {
      OnePlace(0);
    }
  }

  /** The digits of `s` from position `i` on, each times the value of its place. */
  function Places(s: string, i: nat): int
    requires i <= |s|
    decreases |s| - i
  {
    if i == |s| then 0 else (s[i] as int - '0' as int) * Pow10(|s| - 1 - i) + Places(s, i + 1)
  }

  lemma {:induction false} PlacesSnoc(s: string, i: nat)
    requires i < |s|
    ensures Places(s, i) == 10 * Places(s[..|s| - 1], i) + (s[|s| - 1] as int - '0' as int)
    decreases |s| - i
  {
    var front := s[..|s| - 1];
    if i < |front| {
      PlacesSnoc(s, i + 1);
      var d := s[i] as int - '0' as int;
      assert Pow10(|s| - 1 - i) == 10 * Pow10(|front| - 1 - i);
      assert d * (10 * Pow10(|front| - 1 - i)) == 10 * (d * Pow10(|front| - 1 - i));
    } else {
      assert Pow10(0) == 1 && Places(s, i + 1) == 0;
    }
  }

  lemma {:induction false} NatValuePlaces(s: string)
    requires AllDigits(s)
    ensures NatValue(s) == Places(s, 0)
  {
    if s != [] {
      NatValuePlaces(s[..|s| - 1]);
      PlacesSnoc(s, 0);
    }
  }

  predicate IsDigits(s: string) {
    s != [] && forall i :: 0 <= i < |s| ==> '0' <= s[i] <= '9'
  }

  /** `s` is `v` in decimal, with an optional sign. */
  predicate Spells(s: string, v: int) {
    || (IsDigits(s) && v == Places(s, 0))
    || (s != [] && s[0] == '+' && IsDigits(s[1..]) && v == Places(s[1..], 0))
    || (s != [] && s[0] == '-' && IsDigits(s[1..]) && v == -Places(s[1..], 0))
  }

  /** What is read is the number the text spells, if it is in range; other texts are rejected. */
  lemma ParsesDecimal(s: string, lo: int, hi: int, v: int)
    ensures Parse(s, lo, hi) == Some(v) <==> Spells(s, v) && lo <= v <= hi
  {
    var digits := if s != [] && (s[0] == '-' || s[0] == '+') then s[1..] else s;
    assert IsDigits(digits) <==> digits != [] && AllDigits(digits);
    if IsDigits(digits) {
      NatValuePlaces(digits);
    }
  }
}
