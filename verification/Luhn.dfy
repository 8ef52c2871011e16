/** The check digit of payment cards, as the redactor uses it to tell card numbers from other digits. */
module Luhn {
  import opened Common

  predicate Digits(s: seq<int>) {
    forall i :: 0 <= i < |s| ==> 0 <= s[i] <= 9
  }

  /** Doubling a digit and adding the digits of the result. */
  function Doubled(d: int): int {
    if d > 4 then d * 2 - 9 else d * 2
  }

  /** The sum over the digits from the right; every second one is doubled, the last one is not. */
  function Sum(s: seq<int>, alt: bool): int {
    if s == [] then 0
    else (if alt then Doubled(s[|s| - 1]) else s[|s| - 1]) + Sum(s[..|s| - 1], !alt)
  }

  predicate Valid(s: seq<int>) {
    Sum(s, false) % 10 == 0
  }

  /** The definition of Annex B of ISO/IEC 7812-1: counting from the right, every second digit is
      doubled and the digits of the products and the other digits are added up. */
  function Reference(s: seq<int>, alt: bool): int {
    if s == [] then 0
    else
      (if (|s| % 2 == 0) != alt then (2 * s[0]) / 10 + (2 * s[0]) % 10 else s[0]) + Reference(s[1..], alt)
  }

  lemma {:induction false} SumFromTheLeft(s: seq<int>, alt: bool)
    requires s != []
    ensures Sum(s, alt) == (if (|s| % 2 == 0) != alt then Doubled(s[0]) else s[0]) + Sum(s[1..], alt)
  {
    if |s| > 1 {
      var init := s[..|s| - 1];
      SumFromTheLeft(init, !alt);
      assert s[1..][..|s| - 2] == init[1..];
    }
  }

  /** The loop computes the sum of the standard, for digit strings of any length. */
  lemma {:induction false} SumIsTheStandardOne(s: seq<int>, alt: bool)
    requires Digits(s)
    ensures Sum(s, alt) == Reference(s, alt)
  {
    if s != [] {
      SumFromTheLeft(s, alt);
      SumIsTheStandardOne(s[1..], alt);
      DoubledAddsDigits(s[0]);
    }
  }

  lemma {:induction false} DoubledAddsDigits(d: int)
    requires 0 <= d <= 9
    ensures Doubled(d) == (2 * d) / 10 + (2 * d) % 10
  {
  }

  method LuhnOk(digits: seq<int>) returns (ok: bool)
    ensures ok == Valid(digits)
  {
    var total, alt := 0, false;
    var i := |digits|;
    assert digits[..i] == digits;
    while i > 0
      invariant 0 <= i <= |digits|
      invariant total + Sum(digits[..i], alt) == Sum(digits, false)
    {
      i := i - 1;
      assert digits[..i + 1][..i] == digits[..i];
      var d := digits[i];
      if alt {
        d := if d > 4 then d * 2 - 9 else d * 2;
      }
      total := total + d;
      alt := !alt;
    }
    ok := total % 10 == 0;
  }

  /** What the digit at `i` adds, by its distance from the right end. */
  function Weighted(s: seq<int>, alt: bool, i: nat): int
    requires i < |s|
  {
    if ((|s| - 1 - i) % 2 == 1) != alt then Doubled(s[i]) else s[i]
  }

  /** Changing one digit changes the sum by the change of what that digit adds. */
  lemma {:induction false} OneDigit(s: seq<int>, alt: bool, i: nat, d: int)
    requires i < |s|
    ensures Sum(s[i := d], alt) - Sum(s, alt) == Weighted(s[i := d], alt, i) - Weighted(s, alt, i)
  {
    var n := |s| - 1;
    if i == n {
      assert s[i := d][..n] == s[..n];
    } else {
      assert s[i := d][..n] == s[..n][i := d];
      OneDigit(s[..n], !alt, i, d);
    }
  }

  /** Exactly one digit at each place makes a number valid, whatever the others are; so every change
      of a single digit of a valid number is noticed. */
  lemma {:induction false} OneDigitDecides(s: seq<int>, i: nat, d: int, e: int)
    requires i < |s| && 0 <= d <= 9 && 0 <= e <= 9 && Valid(s[i := d])
    ensures Valid(s[i := e]) <==> d == e
  {
    var t := s[i := d];
    assert t[i := e] == s[i := e];
    OneDigit(t, false, i, e);
    assert Weighted(t, false, i) == if (|s| - 1 - i) % 2 == 1 then Doubled(d) else d;
    assert Weighted(s[i := e], false, i) == if (|s| - 1 - i) % 2 == 1 then Doubled(e) else e;
    SumsModulo(Sum(t, false), Sum(s[i := e], false) - Sum(t, false));
    DigitDifference(d, e);
  }

  lemma {:induction false} DigitDifference(d: int, e: int)
    requires 0 <= d <= 9 && 0 <= e <= 9
    ensures (e - d) % 10 == 0 <==> d == e
    ensures (Doubled(e) - Doubled(d)) % 10 == 0 <==> d == e
  {
  }

  /** For every number there is exactly one last digit that makes it valid. */
  lemma {:induction false} CheckDigitExists(s: seq<int>) returns (d: int)
    requires Digits(s)
    ensures 0 <= d <= 9 && Valid(s + [d]) && forall e :: 0 <= e <= 9 && Valid(s + [e]) ==> e == d
  {
    d := (-Sum(s, true)) % 10;
    forall e | 0 <= e <= 9
      ensures Sum(s + [e], false) == e + Sum(s, true)
    {
      assert (s + [e])[..|s|] == s;
    }
  }

  function Swapped(s: seq<int>, i: nat): seq<int>
    requires i + 1 < |s|
  {
    s[i := s[i + 1]][i + 1 := s[i]]
  }

  lemma {:induction false} SwapSum(s: seq<int>, i: nat)
    requires i + 1 < |s|
    ensures var a, b := s[i], s[i + 1];
            Sum(Swapped(s, i), false) - Sum(s, false)
            == if (|s| - 1 - i) % 2 == 1 then Doubled(b) + a - Doubled(a) - b else Doubled(a) + b - Doubled(b) - a
  {
    OneDigit(s, false, i, s[i + 1]);
    OneDigit(s[i := s[i + 1]], false, i + 1, s[i]);
  }

  /** Swapping two neighbours of a valid number is noticed unless they are equal or are 0 and 9. */
  lemma {:induction false} SwapIsNoticed(s: seq<int>, i: nat)
    requires Digits(s) && i + 1 < |s| && Valid(s)
    ensures Valid(Swapped(s, i)) <==> s[i] == s[i + 1] || (s[i] + s[i + 1] == 9 && s[i] * s[i + 1] == 0)
  {
    SwapSum(s, i);
    SwapDifference(s[i], s[i + 1]);
    SumsModulo(Sum(s, false), Sum(Swapped(s, i), false) - Sum(s, false));
  }

  lemma {:induction false} SumsModulo(a: int, d: int)
    requires a % 10 == 0
    ensures (a + d) % 10 == 0 <==> d % 10 == 0
  {
  }

  lemma {:induction false} SwapDifference(a: int, b: int)
    requires 0 <= a <= 9 && 0 <= b <= 9
    ensures (Doubled(b) + a - Doubled(a) - b) % 10 == 0 <==> a == b || (a + b == 9 && a * b == 0)
    ensures (Doubled(a) + b - Doubled(b) - a) % 10 == 0 <==> a == b || (a + b == 9 && a * b == 0)
  {
  }

  // ------------------------------------------------------------------ masking

  /** The values of the decimal digits of a text; `digit` says which characters are digits, and what all
      others are makes no difference. */
  function DigitsOf(digit: char -> Option<nat>, text: string): seq<int> {
    if text == "" then []
    else DigitsOf(digit, text[..|text| - 1]) +
         (if digit(text[|text| - 1]).Some? then [digit(text[|text| - 1]).value] else [])
  }

  predicate IsCard(digit: char -> Option<nat>, text: string) {
    13 <= |DigitsOf(digit, text)| <= 19 && Valid(DigitsOf(digit, text))
  }

  const CARD: string := "[CARD]"

  method MaskCard(digit: char -> Option<nat>, text: string) returns (masked: string)
    ensures masked == if IsCard(digit, text) then CARD else text
    ensures (forall c :: digit(c).Some? ==> digit(c).value <= 9) ==>
              masked == if 13 <= |DigitsOf(digit, text)| <= 19 && Reference(DigitsOf(digit, text), false) % 10 == 0
                        then "[CARD]" else text
  {
    var digits := DigitsOf(digit, text);
    if forall c :: digit(c).Some? ==> digit(c).value <= 9 {
      DigitsAreDigits(digit, text);
      SumIsTheStandardOne(digits, false);
    }
    var ok := LuhnOk(digits);
    masked := if 13 <= |digits| <= 19 && ok then CARD else text;
  }

  lemma {:induction false} DigitsAreDigits(digit: char -> Option<nat>, text: string)
    requires forall c :: digit(c).Some? ==> digit(c).value <= 9
    ensures Digits(DigitsOf(digit, text))
  {
    if text != "" {
      DigitsAreDigits(digit, text[..|text| - 1]);
    }
  }

  lemma {:induction false} DigitsAppend(digit: char -> Option<nat>, a: string, b: string)
    ensures DigitsOf(digit, a + b) == DigitsOf(digit, a) + DigitsOf(digit, b)
  {
    if b == "" {
      assert a + b == a;
    } else {
      assert (a + b)[..|a + b| - 1] == a + b[..|b| - 1];
      DigitsAppend(digit, a, b[..|b| - 1]);
    }
  }

  lemma {:induction false} DigitsAround(digit: char -> Option<nat>, a: string, c: char, b: string)
    ensures DigitsOf(digit, a + [c] + b)
         == DigitsOf(digit, a) + (if digit(c).Some? then [digit(c).value] else []) + DigitsOf(digit, b)
  {
    DigitsAppend(digit, a + [c], b);
    DigitsAppend(digit, a, [c]);
    assert [c][..0] == "";
    assert DigitsOf(digit, [c]) == DigitsOf(digit, "") + (if digit(c).Some? then [digit(c).value] else []);
  }

  /** A card number is masked however it is written: separators can be put in or left out anywhere. */
  lemma {:induction false} SeparatorsDoNotHide(digit: char -> Option<nat>, a: string, c: char, b: string)
    requires digit(c).None?
    ensures IsCard(digit, a + [c] + b) <==> IsCard(digit, a + b)
  {
    DigitsAround(digit, a, c, b);
    DigitsAppend(digit, a, b);
    assert DigitsOf(digit, a) + [] == DigitsOf(digit, a);
  }

  /** Of all texts that differ in one digit at most one is masked, so one wrong digit in a card number
      keeps it from being taken for one. */
  lemma {:induction false} OneWrongDigitIsKept(digit: char -> Option<nat>, a: string, c: char, e: char, b: string)
    requires forall d :: digit(d).Some? ==> digit(d).value <= 9
    requires digit(c).Some? && digit(e).Some? && IsCard(digit, a + [c] + b)
    ensures IsCard(digit, a + [e] + b) <==> digit(c) == digit(e)
  {
    DigitsAround(digit, a, c, b);
    DigitsAround(digit, a, e, b);
    var s, i := DigitsOf(digit, a + [c] + b), |DigitsOf(digit, a)|;
    assert DigitsOf(digit, a + [e] + b) == s[i := digit(e).value] && s[i := digit(c).value] == s;
    OneDigitDecides(s, i, digit(c).value, digit(e).value);
  }
}
