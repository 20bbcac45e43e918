/** Fixed-point credit amounts: parsing and printing plain decimals. */
module CreditAmounts {
  import opened Basics
  import opened LedgerTables

  const SCALE := 1_000_000

  predicate IsDigit(c: char) { '0' <= c <= '9' }

  predicate AllDigits(s: string) { forall i :: 0 <= i < |s| ==> IsDigit(s[i]) }

  predicate AllZeros(s: string) { forall i :: 0 <= i < |s| ==> s[i] == '0' }

  function Digit(n: nat): (c: char)
    requires n < 10
    ensures IsDigit(c) && c as int - '0' as int == n
  {
    ('0' as int + n) as char
  }

  function Value(s: string): int {
    if |s| == 0 then 0 else Value(s[..|s| - 1]) * 10 + (s[|s| - 1] as int - '0' as int)
  }

  function Digits(n: nat): string {
    if n < 10 then [Digit(n)] else Digits(n / 10) + [Digit(n % 10)]
  }

  /** Exactly `k` digits, with leading zeros. */
  function Fixed(n: nat, k: nat): string {
    if k == 0 then "" else Fixed(n / 10, k - 1) + [Digit(n % 10)]
  }

  function StripZeros(s: string): string {
    if |s| > 0 && s[|s| - 1] == '0' then StripZeros(s[..|s| - 1]) else s
  }

  function Pad(s: string, k: nat): string
    decreases k - |s|
  {
    if |s| >= k then s else Pad(s + "0", k)
  }

  // ---- the accepted texts -----------------------------------------------------------------------

  /** Zero, or digits without a leading zero. */
  predicate PlainWhole(s: string) { |s| > 0 && AllDigits(s) && (s[0] == '0' ==> |s| == 1) }

  predicate PlainFraction(s: string) { 1 <= |s| <= 6 && AllDigits(s) }

  /** Position of the first point, or the length. */
  function Point(s: string): (i: nat)
    ensures i <= |s| && (i < |s| ==> s[i] == '.') && forall j :: 0 <= j < i ==> s[j] != '.'
  {
    if |s| == 0 || s[0] == '.' then 0 else Point(s[1..]) + 1
  }

  function Whole(s: string): string { s[..Point(s)] }

  function Fraction(s: string): string { if Point(s) == |s| then "" else s[Point(s) + 1..] }

  predicate PlainDecimal(s: string) {
    PlainWhole(Whole(s)) && (Point(s) == |s| || PlainFraction(Fraction(s)))
  }

  /** The exact value in millionths. */
  function Scaled(s: string): int { Value(Whole(s)) * SCALE + Value(Pad(Fraction(s), 6)) }

  function Parse(s: string): Option<nat> {
    if !PlainDecimal(s) then None
    else
      var whole := Value(Whole(s));
      if whole > MAX_ATOMS / SCALE then None
      else
        var atoms := Scaled(s);
        if 0 <= atoms <= MAX_ATOMS then Some(atoms) else None
  }

  function Print(atoms: nat): string {
    if atoms % SCALE == 0 then Digits(atoms / SCALE)
    else StripZeros(Digits(atoms / SCALE) + "." + Fixed(atoms % SCALE, 6))
  }

  // ---- digits ---------------------------------------------------------------------------------------

  lemma {:induction false} DigitsOk(n: nat)
    ensures Value(Digits(n)) == n && PlainWhole(Digits(n)) && (n > 0 ==> Digits(n)[0] != '0')
  {
    if n >= 10 {
      DigitsOk(n / 10);
      assert Digits(n)[..|Digits(n)| - 1] == Digits(n / 10);
      assert Digits(n)[0] == Digits(n / 10)[0];
    } else {
      assert Digits(n)[..0] == "";
    }
  }

  /** Only one canonical digit string has a given value. */
  lemma {:induction false} DigitsUnique(s: string)
    requires PlainWhole(s)
    ensures 0 <= Value(s) && Digits(Value(s)) == s && (s[0] != '0' ==> Value(s) > 0)
  {
    var t := s[..|s| - 1];
    if |s| > 1 {
      DigitsUnique(t);
      assert s == t + [s[|s| - 1]];
    } else {
      assert s == [s[0]];
    }
  }

  lemma {:induction false} FixedOk(n: nat, k: nat)
    ensures |Fixed(n, k)| == k && AllDigits(Fixed(n, k))
    ensures n < Pow10(k) ==> Value(Fixed(n, k)) == n
  {
    if k > 0 {
      FixedOk(n / 10, k - 1);
      assert Fixed(n, k)[..k - 1] == Fixed(n / 10, k - 1);
    }
  }

  function Pow10(k: nat): (p: nat)
    ensures p > 0
  {
    if k == 0 then 1 else 10 * Pow10(k - 1)
  }

  lemma {:induction false} FixedUnique(s: string)
    requires AllDigits(s)
    ensures 0 <= Value(s) < Pow10(|s|) && Fixed(Value(s), |s|) == s
  {
    if |s| > 0 {
      var t := s[..|s| - 1];
      FixedUnique(t);
      assert s == t + [s[|s| - 1]];
    }
  }

  lemma SixIsScale()
    ensures Pow10(6) == SCALE
  {
    assert Pow10(3) == 1000;
  }

  lemma {:induction false} StripThenPad(s: string, k: nat)
    requires |s| == k
    ensures Pad(StripZeros(s), k) == s
    ensures |StripZeros(s)| <= |s| && StripZeros(s) <= s
    decreases |s|
  {
    if |s| > 0 && s[|s| - 1] == '0' {
      var t := s[..|s| - 1];
      StripPadsTo(t, k);
      assert t + "0" == s;
    }
  }

  lemma {:induction false} StripPadsTo(s: string, k: nat)
    requires |s| <= k
    ensures Pad(StripZeros(s), k) == Pad(s, k) && StripZeros(s) <= s
  {
    if |s| > 0 && s[|s| - 1] == '0' {
      var t := s[..|s| - 1];
      StripPadsTo(t, k);
      assert t + "0" == s;
    }
  }

  lemma {:induction false} PadOk(s: string, k: nat)
    requires |s| <= k && AllDigits(s)
    ensures |Pad(s, k)| == k && AllDigits(Pad(s, k)) && StripZeros(Pad(s, k)) == StripZeros(s)
    decreases k - |s|
  {
    if |s| < k {
      PadOk(s + "0", k);
      assert (s + "0")[..|s|] == s;
    }
  }

  lemma {:induction false} ZeroValue(s: string)
    requires AllDigits(s)
    ensures Value(s) == 0 <==> AllZeros(s)
    ensures AllZeros(s) <==> StripZeros(s) == ""
    ensures 0 <= Value(s)
  {
    if |s| > 0 {
      var t := s[..|s| - 1];
      ZeroValue(t);
      assert s == t + [s[|s| - 1]];
      if s[|s| - 1] != '0' { assert StripZeros(s) == s; }
    }
  }

  /** Stripping zeros off the end of a text stops in a part that is not all zeros. */
  lemma {:induction false} StripTail(a: string, s: string)
    requires AllDigits(s) && !AllZeros(s)
    ensures StripZeros(a + s) == a + StripZeros(s)
  {
    var t := s[..|s| - 1];
    assert s == t + [s[|s| - 1]];
    assert (a + s)[|a + s| - 1] == s[|s| - 1];
    if s[|s| - 1] == '0' {
      StripTail(a, t);
      assert (a + s)[..|a + s| - 1] == a + t;
    }
  }

  // ---- the codec ----------------------------------------------------------------------------------------

  /** How a number is printed: its whole part, and its fraction without trailing zeros. */
  lemma PrintShape(atoms: nat)
    ensures var f := Fixed(atoms % SCALE, 6);
      && AllDigits(f) && |f| == 6 && Value(f) == atoms % SCALE
      && Print(atoms) == Digits(atoms / SCALE) + (if StripZeros(f) == "" then "" else "." + StripZeros(f))
  {
    var f := Fixed(atoms % SCALE, 6);
    SixIsScale();
    FixedOk(atoms % SCALE, 6);
    ZeroValue(f);
    if atoms % SCALE != 0 {
      StripTail(Digits(atoms / SCALE) + ".", f);
      assert Digits(atoms / SCALE) + "." + f == (Digits(atoms / SCALE) + ".") + f;
    }
  }

  lemma {:induction false} PointAfter(w: string, rest: string)
    requires AllDigits(w) && (rest == "" || rest[0] == '.')
    ensures Point(w + rest) == |w|
    ensures Whole(w + rest) == w && Fraction(w + rest) == if rest == "" then "" else rest[1..]
  {
    if |w| > 0 {
      assert (w + rest)[1..] == w[1..] + rest;
      PointAfter(w[1..], rest);
    } else {
      assert w + rest == rest;
    }
  }

  /** What is printed reads back as plain decimal text of the same value, for every count. */
  lemma PrintIsExact(atoms: nat)
    ensures PlainDecimal(Print(atoms)) && Scaled(Print(atoms)) == atoms
  {
    var f := Fixed(atoms % SCALE, 6);
    var w := Digits(atoms / SCALE);
    PrintShape(atoms);
    DigitsOk(atoms / SCALE);
    StripThenPad(f, 6);
    PointAfter(w, if StripZeros(f) == "" then "" else "." + StripZeros(f));
  }

  /** Parsing undoes printing, up to the bigint bound. */
  lemma ParseUndoesPrint(atoms: nat)
    requires atoms <= MAX_ATOMS
    ensures Parse(Print(atoms)) == Some(atoms)
  {
    PrintIsExact(atoms);
    WholeIsQuotient(Print(atoms));
  }

  /** Distinct counts print differently. */
  lemma PrintIsInjective(x: nat, y: nat)
    requires Print(x) == Print(y)
    ensures x == y
  {
    PrintIsExact(x);
    PrintIsExact(y);
  }

  /** The scaled value of a text splits into its whole part and its fraction. */
  lemma WholeIsQuotient(s: string)
    requires PlainDecimal(s)
    ensures 0 <= Value(Pad(Fraction(s), 6)) < SCALE && 0 <= Value(Whole(s))
    ensures Scaled(s) / SCALE == Value(Whole(s)) && Scaled(s) % SCALE == Value(Pad(Fraction(s), 6))
  {
    SixIsScale();
    PadOk(Fraction(s), 6);
    FixedUnique(Pad(Fraction(s), 6));
    DigitsUnique(Whole(s));
  }

  /** Parsing accepts exactly the plain decimals whose scaled value fits; checking the whole part
      first refuses nothing that fits. */
  lemma ParseAcceptsWhatFits(s: string)
    ensures Parse(s).Some? <==> PlainDecimal(s) && Scaled(s) <= MAX_ATOMS
    ensures Parse(s).Some? ==> Parse(s).value == Scaled(s)
  {
    if PlainDecimal(s) {
      WholeIsQuotient(s);
    }
  }

  /** The same text without trailing fractional zeros. */
  function Canonical(s: string): string {
    Whole(s) + (if StripZeros(Fraction(s)) == "" then "" else "." + StripZeros(Fraction(s)))
  }

  /** Printing undoes parsing up to canonical form. */
  lemma PrintUndoesParse(s: string)
    requires Parse(s).Some?
    ensures Print(Parse(s).value) == Canonical(s)
  {
    var n := Parse(s).value;
    WholeIsQuotient(s);
    DigitsUnique(Whole(s));
    PadOk(Fraction(s), 6);
    FixedUnique(Pad(Fraction(s), 6));
    PrintShape(n);
  }
}
