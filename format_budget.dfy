/**
 * `formatBudget` (client/lib/formatBudget.ts): a yen amount written in the
 * largest of the units 兆円 (10^12), 億円 (10^8) and 万円 (10^4) that its
 * absolute value reaches, or in plain 円, through `Number.prototype.toFixed`.
 *
 * Amounts are exact reals: `toFixed` is modelled as exact rounding to the
 * nearest numeral, the larger one on a tie, as the ECMAScript definition
 * states it for exact arithmetic.
 */
module BudgetFormat {
  import opened Decimal

  const Cho: real := 1_000_000_000_000.0
  const Oku: real := 100_000_000.0
  const Man: real := 10_000.0

  function Abs(x: real): real {
    if x < 0.0 then -x else x
  }

  /** The integer nearest to `x`, the larger one on a tie. */
  function RoundHalfUp(x: real): (n: nat)
    requires x >= 0.0
    ensures x - 0.5 < n as real <= x + 0.5
  {
    (x + 0.5).Floor
  }

  /** `n` written with `digits` (0 or 1) of its decimal digits after a point. */
  function FixedDigits(n: nat, digits: nat): string
    requires digits <= 1
  {
    if digits == 0 then NatToString(n) else NatToString(n / 10) + "." + [DigitChar(n % 10)]
  }

  /** `x.toFixed(digits)` for 0 or 1 digits: a sign when `x < 0`, then the rounded magnitude. */
  function ToFixed(x: real, digits: nat): string
    requires digits <= 1
  {
    var scale := if digits == 0 then 1.0 else 10.0;
    (if x < 0.0 then "-" else "") + FixedDigits(RoundHalfUp(Abs(x) * scale), digits)
  }

  function FormatBudget(amount: real): string {
    var absAmount := Abs(amount);
    if absAmount >= Cho then ToFixed(amount / Cho, 1) + "兆円"
    else if absAmount >= Oku then ToFixed(amount / Oku, 0) + "億円"
    else if absAmount >= Man then ToFixed(amount / Man, 0) + "万円"
    else ToFixed(amount, 0) + "円"
  }

  // ---- reading a numeral back ----

  /** Digits, optionally followed by a point and one digit. */
  predicate UnsignedFixed(t: string) {
    (|t| >= 1 && AllDigits(t))
    || (|t| >= 3 && t[|t| - 2] == '.' && AllDigits(t[..|t| - 2]) && IsDigit(t[|t| - 1]))
  }

  predicate IsFixedNumeral(s: string) {
    UnsignedFixed(s) || (|s| >= 1 && s[0] == '-' && UnsignedFixed(s[1..]))
  }

  function UnsignedValue(t: string): real
    requires UnsignedFixed(t)
  {
    if AllDigits(t) then ParseNat(t) as real
    else ParseNat(t[..|t| - 2]) as real + DigitValue(t[|t| - 1]) as real / 10.0
  }

  /** The number a numeral of `toFixed(0)` or `toFixed(1)` denotes. */
  function ParseFixed(s: string): real
    requires IsFixedNumeral(s)
  {
    if s[0] == '-' then
      assert !AllDigits(s);
      -UnsignedValue(s[1..])
    else UnsignedValue(s)
  }

  lemma FixedDigitsValue(n: nat, digits: nat)
    requires digits <= 1
    ensures UnsignedFixed(FixedDigits(n, digits)) && IsDigit(FixedDigits(n, digits)[0])
    ensures IsDigit(FixedDigits(n, digits)[|FixedDigits(n, digits)| - 1])
    ensures UnsignedValue(FixedDigits(n, digits)) * (if digits == 0 then 1.0 else 10.0) == n as real
  {
    var t := FixedDigits(n, digits);
    if digits == 0 {
      ParseNatToString(n);
    } else {
      var head := NatToString(n / 10);
      ParseNatToString(n / 10);
      assert t[..|t| - 2] == head;
      assert t[|t| - 2] == '.';
      assert !IsDigit(t[|t| - 2]);
      assert n == 10 * (n / 10) + n % 10;
      assert (n as real) == 10.0 * ((n / 10) as real) + (n % 10) as real;
    }
  }

  /** The magnitude `toFixed` writes, read back, is within half a unit of its last digit. */
  lemma MagnitudeReadsBack(m: real, digits: nat)
    requires m >= 0.0 && digits <= 1
    ensures var t := FixedDigits(RoundHalfUp(m * (if digits == 0 then 1.0 else 10.0)), digits);
      && UnsignedFixed(t) && IsDigit(t[0]) && IsDigit(t[|t| - 1])
      && m - (if digits == 0 then 0.5 else 0.05) < UnsignedValue(t) <= m + (if digits == 0 then 0.5 else 0.05)
  {
    if digits == 0 {
      var n := RoundHalfUp(m);
      FixedDigitsValue(n, 0);
    } else {
      var n := RoundHalfUp(m * 10.0);
      FixedDigitsValue(n, 1);
      var v := UnsignedValue(FixedDigits(n, 1));
      assert v * 10.0 == n as real;
      assert m * 10.0 - 0.5 < v * 10.0 <= m * 10.0 + 0.5;
    }
  }

  /**
   * `toFixed` output read back is within half a unit of the last digit of the
   * number; it starts with a sign exactly for negative numbers and ends in a digit.
   */
  lemma ToFixedReadsBack(x: real, digits: nat)
    requires digits <= 1
    ensures var s := ToFixed(x, digits);
      && IsFixedNumeral(s)
      && IsDigit(s[|s| - 1])
      && (s[0] == '-' <==> x < 0.0)
      && Abs(ParseFixed(s) - x) <= (if digits == 0 then 0.5 else 0.05)
  {
    var t := FixedDigits(RoundHalfUp(Abs(x) * (if digits == 0 then 1.0 else 10.0)), digits);
    MagnitudeReadsBack(Abs(x), digits);
    var s := ToFixed(x, digits);
    var h := if digits == 0 then 0.5 else 0.05;
    var v := UnsignedValue(t);
    assert Abs(x) - h < v <= Abs(x) + h;
    if x < 0.0 {
      assert s == "-" + t && s[1..] == t;
      assert ParseFixed(s) == -v;
    } else {
      assert s == t;
      assert ParseFixed(s) == v;
    }
  }

  // ---- the unit ----

  /** The scale a unit character stands for; a digit before 円 means plain yen. */
  function UnitScale(c: char): real {
    if c == '兆' then Cho else if c == '億' then Oku else if c == '万' then Man else 1.0
  }

  /** Half the step of the last digit shown in that unit. */
  function HalfStep(c: char): real {
    if c == '兆' then 0.05 * Cho else 0.5 * UnitScale(c)
  }

  /**
   * Exactly one unit applies, chosen by the absolute value: 兆 from 10^12,
   * 億 from 10^8, 万 from 10^4, and plain 円 below that; the output starts
   * with '-' exactly for negative amounts.
   */
  lemma FormatBudgetUnit(amount: real)
    ensures var s := FormatBudget(amount);
      && |s| >= 2 && s[|s| - 1] == '円'
      && (s[0] == '-' <==> amount < 0.0)
      && (s[|s| - 2] == '兆' <==> Abs(amount) >= Cho)
      && (s[|s| - 2] == '億' <==> Oku <= Abs(amount) < Cho)
      && (s[|s| - 2] == '万' <==> Man <= Abs(amount) < Oku)
      && (IsDigit(s[|s| - 2]) <==> Abs(amount) < Man)
  {
    FormatBudgetSign(amount);
    var a := Abs(amount);
    var s := FormatBudget(amount);
    if a >= Cho {
      assert s == ToFixed(amount / Cho, 1) + ['兆', '円'];
    } else if a >= Oku {
      assert s == ToFixed(amount / Oku, 0) + ['億', '円'];
    } else if a >= Man {
      assert s == ToFixed(amount / Man, 0) + ['万', '円'];
    } else {
      var t := ToFixed(amount, 0);
      ToFixedReadsBack(amount, 0);
      assert s == t + ['円'];
    }
  }

  /** The output ends in 円 and starts with '-' exactly for negative amounts. */
  lemma FormatBudgetSign(amount: real)
    ensures var s := FormatBudget(amount);
      && |s| >= 2 && s[|s| - 1] == '円' && (s[0] == '-' <==> amount < 0.0)
  {
    var a := Abs(amount);
    var s := FormatBudget(amount);
    if a >= Cho {
      var t := ToFixed(amount / Cho, 1);
      ToFixedReadsBack(amount / Cho, 1);
      assert s == t + ['兆', '円'];
      UnitShape(t, '兆', amount);
    } else if a >= Oku {
      var t := ToFixed(amount / Oku, 0);
      ToFixedReadsBack(amount / Oku, 0);
      assert s == t + ['億', '円'];
      UnitShape(t, '億', amount);
    } else if a >= Man {
      var t := ToFixed(amount / Man, 0);
      ToFixedReadsBack(amount / Man, 0);
      assert s == t + ['万', '円'];
      UnitShape(t, '万', amount);
    } else {
      var t := ToFixed(amount, 0);
      ToFixedReadsBack(amount, 0);
      assert s == t + ['円'];
    }
  }

  /** A signed numeral followed by a unit and 円: the unit sits before 円 and the sign comes first. */
  lemma UnitShape(t: string, unit: char, amount: real)
    requires |t| >= 1 && (t[0] == '-' <==> amount < 0.0)
    ensures var s := t + [unit, '円'];
      && s[|s| - 1] == '円' && s[|s| - 2] == unit && (s[0] == '-' <==> amount < 0.0)
  {
  }

  /**
   * Reading `s` back, the numeral before the unit times the unit's scale is
   * within half a shown step of `amount`: 0.05 兆, 0.5 億, 0.5 万 or 0.5 円.
   */
  predicate ReadsBackWithin(s: string, amount: real)
    requires |s| >= 2
  {
    var numeral := s[..|s| - (if IsDigit(s[|s| - 2]) then 1 else 2)];
    IsFixedNumeral(numeral) && Abs(ParseFixed(numeral) * UnitScale(s[|s| - 2]) - amount) <= HalfStep(s[|s| - 2])
  }

  /** An error of at most `h` in units of `c` is an error of at most `h * c`. */
  lemma ScaleError(p: real, x: real, c: real, h: real)
    requires c > 0.0 && Abs(p - x / c) <= h
    ensures Abs(p * c - x) <= h * c
  {
    var d := p - x / c;
    assert p * c - x == d * c;
    if d >= 0.0 {
      assert d * c <= h * c;
    } else {
      assert -d * c <= h * c;
    }
  }

  /**
   * A numeral within `h` of `amount / c`, followed by a unit of scale `c`
   * whose half step is `h * c` and then 円, reads back within that half step.
   */
  lemma UnitReadsBack(t: string, unit: char, amount: real, c: real, h: real)
    requires IsFixedNumeral(t) && !IsDigit(unit)
    requires c > 0.0 && UnitScale(unit) == c && HalfStep(unit) == h * c
    requires Abs(ParseFixed(t) - amount / c) <= h
    ensures var s := t + [unit, '円']; |s| >= 2 && ReadsBackWithin(s, amount)
  {
    ScaleError(ParseFixed(t), amount, c, h);
    var s := t + [unit, '円'];
    assert s[..|s| - 2] == t && s[|s| - 2] == unit;
  }

  lemma ChoReadsBack(amount: real)
    requires Abs(amount) >= Cho
    ensures |FormatBudget(amount)| >= 2 && ReadsBackWithin(FormatBudget(amount), amount)
  {
    var t := ToFixed(amount / Cho, 1);
    ToFixedReadsBack(amount / Cho, 1);
    UnitReadsBack(t, '兆', amount, Cho, 0.05);
    assert FormatBudget(amount) == t + ['兆', '円'];
  }

  lemma OkuReadsBack(amount: real)
    requires Oku <= Abs(amount) < Cho
    ensures |FormatBudget(amount)| >= 2 && ReadsBackWithin(FormatBudget(amount), amount)
  {
    var t := ToFixed(amount / Oku, 0);
    ToFixedReadsBack(amount / Oku, 0);
    UnitReadsBack(t, '億', amount, Oku, 0.5);
    assert FormatBudget(amount) == t + ['億', '円'];
  }

  lemma ManReadsBack(amount: real)
    requires Man <= Abs(amount) < Oku
    ensures |FormatBudget(amount)| >= 2 && ReadsBackWithin(FormatBudget(amount), amount)
  {
    var t := ToFixed(amount / Man, 0);
    ToFixedReadsBack(amount / Man, 0);
    UnitReadsBack(t, '万', amount, Man, 0.5);
    assert FormatBudget(amount) == t + ['万', '円'];
  }

  /** A numeral ending in a digit within 0.5 of `amount`, followed by 円, reads back within 0.5 円. */
  lemma PlainReadsBack(t: string, amount: real)
    requires IsFixedNumeral(t) && IsDigit(t[|t| - 1]) && Abs(ParseFixed(t) - amount) <= 0.5
    ensures var s := t + ['円']; |s| >= 2 && ReadsBackWithin(s, amount)
  {
    var s := t + ['円'];
    assert s[..|s| - 1] == t && s[|s| - 2] == t[|t| - 1];
  }

  lemma YenReadsBack(amount: real)
    requires Abs(amount) < Man
    ensures |FormatBudget(amount)| >= 2 && ReadsBackWithin(FormatBudget(amount), amount)
  {
    var t := ToFixed(amount, 0);
    ToFixedReadsBack(amount, 0);
    PlainReadsBack(t, amount);
    assert FormatBudget(amount) == t + ['円'];
  }

  lemma FormatBudgetReadsBack(amount: real)
    ensures |FormatBudget(amount)| >= 2 && ReadsBackWithin(FormatBudget(amount), amount)
  {
    var a := Abs(amount);
    if a >= Cho {
      ChoReadsBack(amount);
    } else if a >= Oku {
      OkuReadsBack(amount);
    } else if a >= Man {
      ManReadsBack(amount);
    } else {
      YenReadsBack(amount);
    }
  }
}
