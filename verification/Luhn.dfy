/**
 * The Luhn check digit (Annex B of ISO/IEC 7812-1): src/inventory/imei.util.ts,
 * src/imports/row-validation.ts and the fixture helpers of scripts/staging-scan-sheet.ts.
 */
module Luhn {
  predicate IsDigit(c: char) {
    '0' <= c <= '9'
  }

  predicate AllDigits(s: string) {
    forall i :: 0 <= i < |s| ==> IsDigit(s[i])
  }

  function Digit(c: char): (d: nat)
    requires IsDigit(c)
    ensures d <= 9
  {
    c as int - '0' as int
  }

  function CharOf(d: nat): (c: char)
    requires d <= 9
    ensures IsDigit(c) && Digit(c) == d
  {
    ('0' as int + d) as char
  }

  /** A digit's contribution: doubled, less nine when that passes nine, in every second place. */
  function Term(d: nat, alt: bool): nat
    requires d <= 9
  {
    if alt then (if 2 * d > 9 then 2 * d - 9 else 2 * d) else d
  }

  /** The weighted sum, rightmost digit first. */
  function Sum(s: string, alt: bool): nat
    requires AllDigits(s)
  {
    if s == "" then 0 else Term(Digit(s[|s| - 1]), alt) + Sum(s[..|s| - 1], !alt)
  }

  predicate IsLuhn(s: string) {
    AllDigits(s) && Sum(s, false) % 10 == 0
  }

  // ---------------------------------------------------------------- the source's loops

  /** imei.util.ts: any length, right to left, a non-digit refuses. */
  method LuhnValid(digits: string) returns (valid: bool)
    ensures valid <==> IsLuhn(digits)
  {
    var sum, alt, i := 0, false, |digits|;
    assert digits[..i] == digits;
    while i > 0
      invariant 0 <= i <= |digits|
      invariant forall j :: i <= j < |digits| ==> IsDigit(digits[j])
      invariant AllDigits(digits) ==> Sum(digits, false) == sum + Sum(digits[..i], alt)
    {
      i := i - 1;
      if !IsDigit(digits[i]) {
        return false;
      }
      var d := Digit(digits[i]);
      if alt {
        d := d * 2;
        if d > 9 {
          d := d - 9;
        }
      }
      assert AllDigits(digits) ==> digits[..i + 1][..i] == digits[..i];
      sum := sum + d;
      alt := !alt;
    }
    return sum % 10 == 0;
  }

  method IsValidImei(imei: string) returns (valid: bool)
    ensures valid <==> |imei| == 15 && IsLuhn(imei)
  {
    var luhn := LuhnValid(imei);
    return |imei| == 15 && AllDigits(imei) && luhn;
  }

  /** row-validation.ts: fifteen digits only, indexed from the right. */
  method LuhnValid15(digits: string) returns (valid: bool)
    ensures valid <==> |digits| == 15 && IsLuhn(digits)
  {
    if |digits| != 15 || exists j :: 0 <= j < |digits| && !IsDigit(digits[j]) {
      return false;
    }
    var sum, i := 0, 0;
    assert digits[..15] == digits;
    while i < 15
      invariant 0 <= i <= 15
      invariant Sum(digits, false) == sum + Sum(digits[..15 - i], i % 2 == 1)
    {
      var d := Digit(digits[14 - i]);
      if i % 2 == 1 {
        d := d * 2;
        if d > 9 {
          d := d - 9;
        }
      }
      assert digits[..15 - i][..14 - i] == digits[..14 - i];
      sum := sum + d;
      i := i + 1;
    }
    return sum % 10 == 0;
  }

  /** The check digit of fourteen digits. */
  method LuhnCheckDigit(fourteen: string) returns (check: char)
    requires |fourteen| == 14 && AllDigits(fourteen)
    ensures IsDigit(check) && IsLuhn(fourteen + [check])
    ensures forall c :: IsLuhn(fourteen + [c]) <==> c == check
  {
    var sum, i := 0, 0;
    assert fourteen[..14] == fourteen;
    while i < 14
      invariant 0 <= i <= 14
      invariant Sum(fourteen, true) == sum + Sum(fourteen[..14 - i], i % 2 == 0)
    {
      var d := Digit(fourteen[13 - i]);
      if i % 2 == 0 {
        d := d * 2;
        if d > 9 {
          d := d - 9;
        }
      }
      assert fourteen[..14 - i][..13 - i] == fourteen[..13 - i];
      sum := sum + d;
      i := i + 1;
    }
    check := CharOf((10 - sum % 10) % 10);
    forall c: char
      ensures IsLuhn(fourteen + [c]) <==> c == check
    {
      CheckDigitIsUnique(fourteen, c);
    }
  }

  function BreakCheckDigit(imei: string): string
    requires |imei| == 15 && IsDigit(imei[14])
  {
    imei[..14] + [CharOf((Digit(imei[14]) + 1) % 10)]
  }

  // ---------------------------------------------------------------- what a check digit is for

  /** Exactly one digit completes any digits, whatever their number. */
  lemma CheckDigitIsUnique(digits: string, c: char)
    requires AllDigits(digits)
    ensures IsLuhn(digits + [c]) <==> IsDigit(c) && Digit(c) == (10 - Sum(digits, true) % 10) % 10
  {
    var all := digits + [c];
    assert all[..|all| - 1] == digits && all[|all| - 1] == c;
    if IsDigit(c) {
      assert AllDigits(all);
      assert Sum(all, false) == Digit(c) + Sum(digits, true);
      Complement(Sum(digits, true), Digit(c));
    }
  }

  lemma Complement(sum: nat, d: nat)
    requires d <= 9
    ensures (d + sum) % 10 == 0 <==> d == (10 - sum % 10) % 10
  {
    var q, r := sum / 10, sum % 10;
    assert d + sum == 10 * q + (d + r);
  }

  /** Whether place i of n, counted from the left, is doubled. */
  predicate IsDoubled(n: nat, i: nat, alt: bool)
    requires i < n
  {
    if i == n - 1 then alt else IsDoubled(n - 1, i, !alt)
  }

  lemma {:induction false} NeighboursAlternate(n: nat, i: nat, alt: bool)
    requires i + 1 < n
    ensures IsDoubled(n, i + 1, alt) == !IsDoubled(n, i, alt)
  {
    if i + 2 < n {
      NeighboursAlternate(n - 1, i, !alt);
    }
  }

  /** Replacing one digit changes the sum by the difference of the two contributions. */
  lemma {:induction false} SumReplace(s: string, i: nat, c: char, alt: bool)
    requires AllDigits(s) && i < |s| && IsDigit(c)
    ensures AllDigits(s[i := c])
    ensures var d := IsDoubled(|s|, i, alt);
            Sum(s[i := c], alt) + Term(Digit(s[i]), d) == Sum(s, alt) + Term(Digit(c), d)
  {
    var last := |s| - 1;
    if i == last {
      assert s[i := c][..last] == s[..last];
    } else {
      SumReplace(s[..last], i, c, !alt);
      assert s[i := c][..last] == s[..last][i := c];
    }
  }

  /** Mistyping one digit of a valid number, of any length, always shows. */
  lemma OneWrongDigitShows(s: string, i: nat, c: char)
    requires IsLuhn(s) && i < |s| && IsDigit(c) && c != s[i]
    ensures !IsLuhn(s[i := c])
  {
    SumReplace(s, i, c, false);
    var d := IsDoubled(|s|, i, false);
    TermsDiffer(s[i], c, d);
    TenStep(Sum(s, false), Term(Digit(c), d) - Term(Digit(s[i]), d), Sum(s[i := c], false));
  }

  /** Different digits contribute differently in the same place. */
  lemma TermsDiffer(x: char, y: char, alt: bool)
    requires IsDigit(x) && IsDigit(y) && x != y
    ensures Term(Digit(x), alt) != Term(Digit(y), alt)
    ensures Term(Digit(x), alt) <= 9 && Term(Digit(y), alt) <= 9
  {
    assert x == CharOf(Digit(x)) && y == CharOf(Digit(y));
  }

  /** The one pair of different digits whose swap the check cannot see. */
  predicate ZeroAndNine(x: char, y: char) {
    (x == '0' && y == '9') || (x == '9' && y == '0')
  }

  /** What the places of two neighbours contribute, before their digits are swapped and after. */
  lemma SwapMovesSum(s: string, i: nat)
    requires AllDigits(s) && i + 1 < |s|
    ensures AllDigits(s[i := s[i + 1]][i + 1 := s[i]])
    ensures var a, b, d := Digit(s[i]), Digit(s[i + 1]), IsDoubled(|s|, i, false);
            Sum(s[i := s[i + 1]][i + 1 := s[i]], false) + Term(a, d) + Term(b, !d) == Sum(s, false) + Term(b, d) + Term(a, !d)
  {
    var t := s[i := s[i + 1]];
    SumReplace(s, i, s[i + 1], false);
    SumReplace(t, i + 1, s[i], false);
    assert t[i + 1] == s[i + 1];
    NeighboursAlternate(|s|, i, false);
  }

  /** Swapping two neighbouring digits of a valid number goes unseen exactly when they are equal or 0 and 9. */
  lemma SwappedNeighboursShow(s: string, i: nat)
    requires IsLuhn(s) && i + 1 < |s|
    ensures IsLuhn(s[i := s[i + 1]][i + 1 := s[i]]) <==> s[i] == s[i + 1] || ZeroAndNine(s[i], s[i + 1])
  {
    SwapMovesSum(s, i);
    SwapGap(s[i], s[i + 1], IsDoubled(|s|, i, false), Sum(s, false), Sum(s[i := s[i + 1]][i + 1 := s[i]], false));
  }

  /** Doubling moves a digit by a different amount modulo ten for every digit but 0 and 9. */
  lemma SwapGap(x: char, y: char, d: bool, before: nat, after: nat)
    requires IsDigit(x) && IsDigit(y) && before % 10 == 0
    requires after + Term(Digit(x), d) + Term(Digit(y), !d) == before + Term(Digit(y), d) + Term(Digit(x), !d)
    ensures after % 10 == 0 <==> x == y || ZeroAndNine(x, y)
  {
    var gap := Gain(Digit(y)) - Gain(Digit(x));
    TenStep(before, if d then gap else -gap, after);
    SameGain(x, y);
  }

  /** A move of less than ten leaves a multiple of ten only when it is no move. */
  lemma TenStep(before: nat, step: int, after: nat)
    requires before % 10 == 0 && -9 <= step <= 9 && after == before + step
    ensures after % 10 == 0 <==> step == 0
  {
  }

  lemma SameGain(x: char, y: char)
    requires IsDigit(x) && IsDigit(y)
    ensures Gain(Digit(x)) == Gain(Digit(y)) <==> x == y || ZeroAndNine(x, y)
  {
    assert x == CharOf(Digit(x)) && y == CharOf(Digit(y));
  }

  /** What doubling adds to a digit: 0..4 for 0..4, -4..0 for 5..9. */
  function Gain(d: nat): (g: int)
    requires d <= 9
    ensures g == if d <= 4 then d else d - 9
  {
    Term(d, true) - Term(d, false)
  }

  /** Every second digit counts double, from the one before the last; here it is for an IMEI, digit by digit. */
  lemma FifteenDigitsAreWeighted(s: string)
    requires |s| == 15 && AllDigits(s)
    ensures Sum(s, false)
         == Twice(s[13]) + Twice(s[11]) + Twice(s[9]) + Twice(s[7]) + Twice(s[5]) + Twice(s[3]) + Twice(s[1])
            + Digit(s[14]) + Digit(s[12]) + Digit(s[10]) + Digit(s[8]) + Digit(s[6]) + Digit(s[4]) + Digit(s[2]) + Digit(s[0])
  {
    assert s[..15] == s;
    LastTwo(s, 15);
    LastTwo(s, 13);
    LastTwo(s, 11);
    LastTwo(s, 9);
    LastTwo(s, 7);
    LastTwo(s, 5);
    LastTwo(s, 3);
    FirstOne(s);
  }

  /** The digits of twice a digit, added up. */
  function Twice(c: char): nat
    requires IsDigit(c)
  {
    2 * Digit(c) / 10 + 2 * Digit(c) % 10
  }

  lemma LastTwo(s: string, n: nat)
    requires 2 <= n <= |s| && AllDigits(s)
    ensures Sum(s[..n], false) == Digit(s[n - 1]) + Twice(s[n - 2]) + Sum(s[..n - 2], false)
  {
    assert s[..n][..n - 1] == s[..n - 1] && s[..n - 1][..n - 2] == s[..n - 2];
  }

  lemma FirstOne(s: string)
    requires s != "" && AllDigits(s)
    ensures Sum(s[..1], false) == Digit(s[0])
  {
    assert s[..1][..0] == "";
  }

  /** The known good number, and the same with its last digit one higher. */
  lemma KnownImei()
    ensures IsLuhn("490154203237518") && !IsLuhn("490154203237519")
  {
    var s := "490154203237518";
    KnownSum(s);
    OneWrongDigitShows(s, 14, '9');
    assert s[14 := '9'] == "490154203237519";
  }

  lemma KnownSum(s: string)
    requires s == "490154203237518"
    ensures AllDigits(s) && Sum(s, false) == 60
  {
    KnownDigits(s);
    FifteenDigitsAreWeighted(s);
  }

  lemma KnownDigits(s: string)
    requires s == "490154203237518"
    ensures AllDigits(s)
    ensures Twice(s[13]) == 2 && Twice(s[11]) == 5 && Twice(s[9]) == 4 && Twice(s[7]) == 0 && Twice(s[5]) == 8
    ensures Twice(s[3]) == 2 && Twice(s[1]) == 9 && Digit(s[14]) == 8 && Digit(s[12]) == 5 && Digit(s[10]) == 3
    ensures Digit(s[8]) == 3 && Digit(s[6]) == 2 && Digit(s[4]) == 5 && Digit(s[2]) == 0 && Digit(s[0]) == 4
  {
    assert s[0] == '4' && s[1] == '9' && s[2] == '0' && s[3] == '1' && s[4] == '5' && s[5] == '4' && s[6] == '2' && s[7] == '0';
    assert s[8] == '3' && s[9] == '2' && s[10] == '3' && s[11] == '7' && s[12] == '5' && s[13] == '1' && s[14] == '8';
    assert Twice('9') == 9 && Twice('1') == 2 && Twice('4') == 8 && Twice('0') == 0 && Twice('2') == 4 && Twice('7') == 5;
  }

  /** The near-miss fixture is never a valid IMEI when the real one is. */
  lemma BrokenCheckDigitShows(imei: string)
    requires |imei| == 15 && IsLuhn(imei)
    ensures |BreakCheckDigit(imei)| == 15 && !IsLuhn(BreakCheckDigit(imei))
  {
    var c := CharOf((Digit(imei[14]) + 1) % 10);
    assert BreakCheckDigit(imei) == imei[14 := c];
    OneWrongDigitShows(imei, 14, c);
  }
}
