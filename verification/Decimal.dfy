/** The kernel's exact arithmetic on monetary strings: comparison and addition digit by digit. */
module Decimal {
  import opened Prelude

  const MAX_LEN: nat := 32

  datatype Ordering = Less | Equal | Greater

  // ---- digits and what they denote ----

  predicate AllDigits(s: string) {
    forall i :: 0 <= i < |s| ==> IsDigit(s[i])
  }

  /** A number followed by `k` zeros. */
  function Place(n: nat, k: nat): nat {
    if k == 0 then n else 10 * Place(n, k - 1)
  }

  /** An amount with its point moved `k` digits to the right. */
  function Shift(x: real, k: nat): real {
    if k == 0 then x else 10.0 * Shift(x, k - 1)
  }

  lemma {:induction false} PlacesAdd(a: nat, b: nat, k: nat)
    ensures Place(a + b, k) == Place(a, k) + Place(b, k)
    ensures Place(10 * a, k) == Place(a, k + 1)
    ensures a > 0 ==> Place(a, k) >= Place(1, k) > 0
  {
    if k > 0 { PlacesAdd(a, b, k - 1); }
  }

  lemma {:induction false} ShiftsAdd(a: real, b: real, k: nat)
    ensures Shift(a + b, k) == Shift(a, k) + Shift(b, k)
    ensures Shift(10.0 * a, k) == Shift(a, k + 1)
    ensures Shift(a, k) == Shift(b, k) ==> a == b
  {
    if k > 0 { ShiftsAdd(a, b, k - 1); }
  }

  /** The number a digit string spells. */
  function NatOf(s: string): nat
  {
    if s == "" then 0 else 10 * NatOf(s[..|s| - 1]) + DigitOf(s[|s| - 1])
  }

  /** The fraction digits after a point spell. */
  function Fraction(s: string): real
  {
    if s == "" then 0.0 else (DigitOf(s[0]) as real + Fraction(s[1..])) / 10.0
  }

  function Zeros(n: nat): (s: string)
    ensures |s| == n && AllDigits(s)
    ensures forall i :: 0 <= i < n ==> s[i] == '0'
  {
    seq(n, _ => '0')
  }

  /** The digits of a number, with no leading zero. */
  function DigitsOf(n: nat): (s: string)
    ensures s != "" && AllDigits(s)
  {
    if n < 10 then [CharOf(n)] else DigitsOf(n / 10) + [CharOf(n % 10)]
  }

  /** Leading zeros stripped, but never the last digit. */
  function Trim(s: string): (r: string)
    ensures r != "" && (AllDigits(s) ==> AllDigits(r))
  {
    if s == "" then "0" else if s[0] == '0' then Trim(s[1..]) else s
  }

  lemma {:induction false} FractionBelowOne(s: string)
    ensures 0.0 <= Fraction(s) < 1.0
  {
    if s != "" { FractionBelowOne(s[1..]); }
  }

  lemma {:induction false} PaddingKeepsFraction(s: string, n: nat)
    ensures Fraction(s + Zeros(n)) == Fraction(s)
  {
    if s != "" {
      PaddingKeepsFraction(s[1..], n);
      assert (s + Zeros(n))[1..] == s[1..] + Zeros(n);
    } else if n > 0 {
      PaddingKeepsFraction(s, n - 1);
      assert (s + Zeros(n))[1..] == s + Zeros(n - 1);
    } else {
      assert s + Zeros(n) == s;
    }
  }

  /** Digits before and after a point, as one digit string at the scale of the fraction. */
  lemma {:induction false} ScaledUp(whole: string, fraction: string)
    ensures NatOf(whole + fraction) as real == Shift(NatOf(whole) as real + Fraction(fraction), |fraction|)
    decreases |fraction|
  {
    if fraction == "" {
      assert whole + fraction == whole;
    } else {
      var more := whole + [fraction[0]];
      assert more[..|more| - 1] == whole;
      ScaledUp(more, fraction[1..]);
      assert more + fraction[1..] == whole + fraction;
      ShiftsAdd(NatOf(whole) as real + Fraction(fraction), 0.0, |fraction| - 1);
    }
  }

  /** The leading digit counts by its place. */
  lemma {:induction false} HeadCounts(s: string)
    requires s != ""
    ensures NatOf(s) == Place(DigitOf(s[0]), |s| - 1) + NatOf(s[1..])
  {
    if |s| == 1 {
      assert s[..0] == "" && s[1..] == "";
    } else {
      var t := s[..|s| - 1];
      HeadCounts(t);
      assert s[1..][..|s| - 2] == t[1..];
    }
  }

  lemma {:induction false} NatBelow(s: string)
    ensures NatOf(s) < Place(1, |s|)
  {
    if s != "" { NatBelow(s[..|s| - 1]); }
  }

  lemma {:induction false} PlaceMonotone(m: nat, n: nat)
    requires m <= n
    ensures 0 < Place(1, m) <= Place(1, n)
  {
    PlacesAdd(1, 0, m);
    if m < n { PlaceMonotone(m, n - 1); }
  }

  lemma {:induction false} LeadingZerosSpellNothing(n: nat, s: string)
    ensures NatOf(Zeros(n) + s) == NatOf(s)
  {
    if s != "" {
      LeadingZerosSpellNothing(n, s[..|s| - 1]);
      assert (Zeros(n) + s)[..n + |s| - 1] == Zeros(n) + s[..|s| - 1];
    } else if n > 0 {
      LeadingZerosSpellNothing(n - 1, s);
      assert (Zeros(n) + s)[..n - 1] == Zeros(n - 1) + s;
    } else {
      assert Zeros(n) + s == s;
    }
  }

  lemma {:induction false} TrimOnlyZeros(s: string)
    requires s != ""
    ensures |Trim(s)| <= |s| && s == Zeros(|s| - |Trim(s)|) + Trim(s)
    ensures |Trim(s)| == 1 || Trim(s)[0] != '0'
  {
    if s[0] == '0' && |s| > 1 {
      TrimOnlyZeros(s[1..]);
      var n := |s| - |Trim(s)|;
      forall i | 0 <= i < |s| ensures s[i] == (Zeros(n) + Trim(s))[i] {
        if i > 0 { assert s[i] == s[1..][i - 1]; }
      }
    } else if s[0] == '0' {
      assert s == "0" && Trim(s[1..]) == "0";
    }
  }

  lemma TrimSpells(s: string)
    requires s != ""
    ensures NatOf(Trim(s)) == NatOf(s)
  {
    TrimOnlyZeros(s);
    LeadingZerosSpellNothing(|s| - |Trim(s)|, Trim(s));
  }

  /** A trimmed string is the digits of the number it spells. */
  lemma TrimIsDigits(s: string)
    requires AllDigits(s) && s != ""
    ensures Trim(s) == DigitsOf(NatOf(s))
  {
    TrimOnlyZeros(s);
    TrimSpells(s);
    TrimmedIsDigits(Trim(s));
  }

  lemma {:induction false} TrimmedIsDigits(s: string)
    requires AllDigits(s) && s != "" && (|s| == 1 || s[0] != '0')
    ensures s == DigitsOf(NatOf(s)) && (s[0] != '0' ==> NatOf(s) > 0)
  {
    if |s| > 1 {
      var t, d := s[..|s| - 1], s[|s| - 1];
      TrimmedIsDigits(t);
      assert t[0] == s[0];
      assert NatOf(s) / 10 == NatOf(t) && NatOf(s) % 10 == DigitOf(d);
      assert CharOf(DigitOf(d)) == d;
      assert s == t + [d];
    } else {
      assert s[..0] == "";
    }
  }

  /** Between digit strings with no leading zeros the longer spells more; between equal lengths the
      greater text does. */
  lemma {:induction false} SameLengthOrder(a: string, b: string)
    requires AllDigits(a) && AllDigits(b)
    requires |a| == |b|
    ensures LexLt(a, b) <==> NatOf(a) < NatOf(b)
  {
    if a != "" {
      HeadCounts(a);
      HeadCounts(b);
      NatBelow(a[1..]);
      NatBelow(b[1..]);
      SameLengthOrder(a[1..], b[1..]);
      PlacesOrder(DigitOf(a[0]), DigitOf(b[0]), |a| - 1);
      PlacesOrder(DigitOf(b[0]), DigitOf(a[0]), |a| - 1);
    }
  }

  lemma PlacesOrder(lo: nat, hi: nat, k: nat)
    ensures lo < hi ==> Place(lo, k) + Place(1, k) <= Place(hi, k)
  {
    if lo < hi {
      PlacesAdd(lo, hi - lo, k);
      PlacesAdd(hi - lo, 0, k);
    }
  }

  lemma LongerIsMore(a: string, b: string)
    requires AllDigits(a) && AllDigits(b)
    requires |a| < |b| && b[0] != '0'
    ensures NatOf(a) < NatOf(b)
  {
    NatBelow(a);
    HeadCounts(b);
    PlaceMonotone(|a|, |b| - 1);
    PlacesAdd(DigitOf(b[0]), 0, |b| - 1);
  }

  // ---- the grammar ----

  /** Where the first point stands, or the length when there is none. */
  function Point(s: string): (i: nat)
    ensures i <= |s| && forall j :: 0 <= j < i ==> s[j] != '.'
    ensures i < |s| ==> s[i] == '.'
  {
    if s == "" || s[0] == '.' then 0 else 1 + Point(s[1..])
  }

  /** The integer and fraction digits of a monetary string. */
  function Parts(value: string): Result<(string, string), string> {
    if value == "" || |value| > MAX_LEN then Err("schema-type-mismatch")
    else
      var i := Point(value);
      var whole, fraction := value[..i], if i < |value| then value[i + 1..] else "";
      if whole == "" || !AllDigits(whole) || (i < |value| && (fraction == "" || !AllDigits(fraction)))
      then Err("schema-type-mismatch")
      else Ok((whole, fraction))
  }

  /** `digits [ "." digits ]`, of at most 32 characters. */
  predicate Spells(value: string, whole: string, fraction: string) {
    && |value| <= 32 && whole != "" && AllDigits(whole) && AllDigits(fraction)
    && value == whole + if fraction == "" then "" else "." + fraction
  }

  /** The split reads exactly the grammar. */
  lemma PartsReadGrammar(value: string, whole: string, fraction: string)
    ensures Parts(value) == Ok((whole, fraction)) <==> Spells(value, whole, fraction)
  {
    var i := Point(value);
    assert value == value[..i] + if i < |value| then "." + value[i + 1..] else "";
    if Spells(value, whole, fraction) {
      assert forall j :: 0 <= j < |whole| ==> value[j] == whole[j];
      if fraction == "" { assert value == whole; } else { assert value[|whole|] == '.'; }
      assert i == |whole|;
      assert value[..i] == whole && (i < |value| ==> value[i + 1..] == fraction);
    }
  }

  predicate IsDecimal(value: string) {
    Parts(value).Ok?
  }

  /** The amount a monetary string stands for. */
  function Amount(value: string): real
    requires IsDecimal(value)
  {
    var (whole, fraction) := Parts(value).value;
    NatOf(whole) as real + Fraction(fraction)
  }

  // ---- comparison ----

  function Order(a: real, b: real): Ordering {
    if a < b then Less else if b < a then Greater else Equal
  }

  method CompareText(a: string, b: string) returns (r: Ordering)
    ensures r == if LexLt(a, b) then Less else if LexLt(b, a) then Greater else Equal
    ensures r.Equal? <==> a == b
  {
    LexTotal(a, b);
    r := if LexLt(a, b) then Less else if a == b then Equal else Greater;
  }

  /** Digit strings without leading zeros: longer wins, then digit by digit. */
  method CompareTrimmed(a: string, b: string) returns (r: Ordering)
    requires AllDigits(a) && AllDigits(b)
    requires a != "" && b != "" && (|a| == 1 || a[0] != '0') && (|b| == 1 || b[0] != '0')
    ensures r == Order(NatOf(a) as real, NatOf(b) as real)
  {
    if |a| < |b| {
      LongerIsMore(a, b);
      return Less;
    } else if |b| < |a| {
      LongerIsMore(b, a);
      return Greater;
    }
    SameLengthOrder(a, b);
    SameLengthOrder(b, a);
    r := CompareText(a, b);
  }

  /** Integer parts: strip leading zeros first. */
  method CompareWhole(left: string, right: string) returns (r: Ordering)
    requires AllDigits(left) && AllDigits(right) && left != "" && right != ""
    ensures r == Order(NatOf(left) as real, NatOf(right) as real)
  {
    TrimOnlyZeros(left);
    TrimOnlyZeros(right);
    TrimSpells(left);
    TrimSpells(right);
    r := CompareTrimmed(Trim(left), Trim(right));
  }

  /** Fractions: position by position, a missing digit counting as zero. */
  method CompareFractions(left: string, right: string) returns (r: Ordering)
    requires AllDigits(left) && AllDigits(right)
    ensures r == Order(Fraction(left), Fraction(right))
  {
    var i := 0;
    while i < |left| || i < |right|
      invariant 0 <= i
      invariant Order(Fraction(left), Fraction(right)) == Order(Fraction(From(left, i)), Fraction(From(right, i)))
      decreases |left| + |right| - i
    {
      var a, b := if i < |left| then left[i] else '0', if i < |right| then right[i] else '0';
      assert IsDigit(a) && IsDigit(b);
      StepIn(left, i);
      StepIn(right, i);
      if a < b { return Less; }
      if b < a { return Greater; }
      i := i + 1;
    }
    return Equal;
  }

  function From(s: string, i: nat): (r: string)
    ensures AllDigits(s) ==> AllDigits(r)
  {
    if i < |s| then s[i..] else ""
  }

  lemma StepIn(s: string, i: nat)
    ensures var d := if i < |s| then DigitOf(s[i]) else 0;
      Fraction(From(s, i)) == (d as real + Fraction(From(s, i + 1))) / 10.0
    ensures 0.0 <= Fraction(From(s, i + 1)) < 1.0
  {
    FractionBelowOne(From(s, i + 1));
    if i < |s| { assert s[i..][1..] == From(s, i + 1); }
  }

  /** Comparison digit by digit is comparison of the amounts. */
  method Compare(left: string, right: string) returns (r: Result<Ordering, string>)
    ensures r.Ok? <==> IsDecimal(left) && IsDecimal(right)
    ensures r.Ok? ==> r.value == Order(Amount(left), Amount(right))
  {
    var l, m := Parts(left), Parts(right);
    if l.Err? { return Err(l.error); }
    if m.Err? { return Err(m.error); }
    var ((leftInt, leftFrac), (rightInt, rightFrac)) := (l.value, m.value);
    var whole := CompareWhole(leftInt, rightInt);
    WholeDecides(NatOf(leftInt), leftFrac, NatOf(rightInt), rightFrac);
    if whole != Equal { return Ok(whole); }
    var fraction := CompareFractions(leftFrac, rightFrac);
    return Ok(fraction);
  }

  lemma WholeDecides(a: nat, left: string, b: nat, right: string)
    ensures Order(a as real + Fraction(left), b as real + Fraction(right))
         == if a != b then Order(a as real, b as real) else Order(Fraction(left), Fraction(right))
  {
    FractionBelowOne(left);
    FractionBelowOne(right);
  }

  method AtMost(left: string, right: string) returns (r: Result<bool, string>)
    ensures r.Ok? <==> IsDecimal(left) && IsDecimal(right)
    ensures r.Ok? ==> (r.value <==> Amount(left) <= Amount(right))
  {
    var order := Compare(left, right);
    r := match order case Ok(o) => Ok(o != Greater) case Err(e) => Err(e);
  }

  // ---- addition ----

  /** At least one digit before this many decimals. */
  function Pad(s: string, scale: nat): (r: string)
    ensures |r| > scale && (AllDigits(s) ==> AllDigits(r))
  {
    if |s| > scale then s else Zeros(scale + 1 - |s|) + s
  }

  /** The digits of a number at this scale. */
  function Digits(n: nat, scale: nat): string {
    Pad(DigitsOf(n), scale)
  }

  function Pointed(s: string, scale: nat): string
    requires |s| > scale
  {
    if scale == 0 then s else s[..|s| - scale] + "." + s[|s| - scale..]
  }

  /** A number of units at this scale, written out. */
  function Written(n: nat, scale: nat): string {
    Pointed(Digits(n, scale), scale)
  }

  lemma DigitsSpellTheNumber(n: nat, scale: nat)
    ensures NatOf(Digits(n, scale)) == n
  {
    DigitsSpell(n);
    if |DigitsOf(n)| <= scale { LeadingZerosSpellNothing(scale + 1 - |DigitsOf(n)|, DigitsOf(n)); }
  }

  lemma SpelledReads(value: string, whole: string, fraction: string)
    requires Spells(value, whole, fraction)
    ensures IsDecimal(value) && Scale(value) == |fraction|
    ensures Shift(Amount(value), |fraction|) == NatOf(whole + fraction) as real
  {
    PartsReadGrammar(value, whole, fraction);
    assert Parts(value) == Ok((whole, fraction));
    ScaledUp(whole, fraction);
  }

  lemma WrittenSpells(n: nat, scale: nat) returns (whole: string, fraction: string)
    requires |Written(n, scale)| <= MAX_LEN
    ensures Spells(Written(n, scale), whole, fraction) && |fraction| == scale && whole + fraction == Digits(n, scale)
  {
    var s := Digits(n, scale);
    whole, fraction := s[..|s| - scale], s[|s| - scale..];
    assert whole + fraction == s;
  }

  /** What is written reads back at the same scale as the same amount. */
  lemma WrittenReads(n: nat, scale: nat)
    requires |Written(n, scale)| <= MAX_LEN
    ensures IsDecimal(Written(n, scale)) && Scale(Written(n, scale)) == scale
    ensures Shift(Amount(Written(n, scale)), scale) == n as real
  {
    var whole, fraction := WrittenSpells(n, scale);
    SpelledReads(Written(n, scale), whole, fraction);
    DigitsSpellTheNumber(n, scale);
  }

  lemma {:induction false} DigitsSpell(n: nat)
    ensures NatOf(DigitsOf(n)) == n
    ensures n > 0 ==> DigitsOf(n)[0] != '0'
  {
    if n >= 10 {
      DigitsSpell(n / 10);
      assert DigitsOf(n)[..|DigitsOf(n)| - 1] == DigitsOf(n / 10);
    } else {
      assert DigitsOf(n)[..0] == "";
    }
  }

  /** The units of a monetary string at a scale no smaller than its own. */
  function Units(value: string, scale: nat): nat
    requires IsDecimal(value) && scale >= |Parts(value).value.1|
  {
    var (whole, fraction) := Parts(value).value;
    NatOf(whole + fraction + Zeros(scale - |fraction|))
  }

  lemma UnitsAreAmount(value: string, scale: nat)
    requires IsDecimal(value) && scale >= |Parts(value).value.1|
    ensures Units(value, scale) as real == Shift(Amount(value), scale)
  {
    var (whole, fraction) := Parts(value).value;
    PaddedUnits(whole, fraction, scale - |fraction|);
  }

  lemma PaddedUnits(whole: string, fraction: string, more: nat)
    ensures NatOf(whole + fraction + Zeros(more)) as real == Shift(NatOf(whole) as real + Fraction(fraction), |fraction| + more)
  {
    var padded := fraction + Zeros(more);
    assert whole + fraction + Zeros(more) == whole + padded;
    ScaledUp(whole, padded);
    PaddingKeepsFraction(fraction, more);
  }

  function Scale(value: string): nat
    requires IsDecimal(value)
  {
    |Parts(value).value.1|
  }

  function Max(a: nat, b: nat): nat {
    if a < b then b else a
  }

  /** The sum of two amounts, written at the wider of their scales. */
  function Sum(left: string, right: string): string
    requires IsDecimal(left) && IsDecimal(right)
  {
    var scale := Max(Scale(left), Scale(right));
    Written(Units(left, scale) + Units(right, scale), scale)
  }

  lemma ExactSum(x: real, l: real, r: real, ul: nat, ur: nat, scale: nat)
    requires ul as real == Shift(l, scale) && ur as real == Shift(r, scale) && Shift(x, scale) == (ul + ur) as real
    ensures x == l + r
  {
    ShiftsAdd(l, r, scale);
    ShiftsAdd(x, l + r, scale);
  }

  lemma WrittenSumIsExact(left: string, right: string, ul: nat, ur: nat, scale: nat, sum: string)
    requires IsDecimal(left) && IsDecimal(right) && sum == Written(ul + ur, scale) && |sum| <= MAX_LEN
    requires ul as real == Shift(Amount(left), scale) && ur as real == Shift(Amount(right), scale)
    ensures IsDecimal(sum) && Scale(sum) == scale && Amount(sum) == Amount(left) + Amount(right)
  {
    WrittenReads(ul + ur, scale);
    ExactSum(Amount(sum), Amount(left), Amount(right), ul, ur, scale);
  }

  /** The written sum, when it is short enough to be a monetary string, is exactly the sum. */
  lemma SumIsExact(left: string, right: string)
    requires IsDecimal(left) && IsDecimal(right) && |Sum(left, right)| <= MAX_LEN
    ensures IsDecimal(Sum(left, right)) && Scale(Sum(left, right)) == Max(Scale(left), Scale(right))
    ensures Amount(Sum(left, right)) == Amount(left) + Amount(right)
  {
    var scale := Max(Scale(left), Scale(right));
    var ul, ur := Units(left, scale), Units(right, scale);
    UnitsAreAmount(left, scale);
    UnitsAreAmount(right, scale);
    WrittenSumIsExact(left, right, ul, ur, scale, Sum(left, right));
  }

  // ---- addition digit by digit ----

  /** The number spelled least digit first. */
  function LowFirst(s: string): nat
  {
    if s == "" then 0 else LowFirst(s[..|s| - 1]) + Place(DigitOf(s[|s| - 1]), |s| - 1)
  }

  function Reverse(s: string): (r: string)
    ensures |r| == |s| && (AllDigits(s) ==> AllDigits(r))
  {
    if s == "" then "" else [s[|s| - 1]] + Reverse(s[..|s| - 1])
  }

  lemma {:induction false} ReversedSpells(s: string)
    ensures NatOf(Reverse(s)) == LowFirst(s)
  {
    if s != "" {
      ReversedSpells(s[..|s| - 1]);
      HeadCounts(Reverse(s));
      assert Reverse(s)[1..] == Reverse(s[..|s| - 1]);
    }
  }

  function DigitAt(s: string, index: nat): (d: nat)
    ensures d < 10
  {
    if index < |s| then DigitOf(s[|s| - 1 - index]) else 0
  }

  /** The number the last `n` digits spell. */
  function LastNat(s: string, n: nat): nat {
    if n == 0 then 0 else LastNat(s, n - 1) + Place(DigitAt(s, n - 1), n - 1)
  }

  lemma {:induction false} LastIsAll(s: string, n: nat)
    ensures n <= |s| ==> LastNat(s, n) == NatOf(s[|s| - n..])
    ensures n >= |s| ==> LastNat(s, n) == NatOf(s)
  {
    if n == 0 {
      assert s[|s|..] == "";
    } else {
      LastIsAll(s, n - 1);
      if n <= |s| {
        HeadCounts(s[|s| - n..]);
        assert s[|s| - n..][1..] == s[|s| - (n - 1)..];
        assert n == |s| ==> s[0..] == s;
      } else {
        NoPlace(n - 1);
      }
    }
  }

  lemma {:induction false} NoPlace(k: nat)
    ensures Place(0, k) == 0
  {
    if k > 0 { NoPlace(k - 1); }
  }

  /** One column of an addition: from what is done so far, one digit further. */
  lemma Column(x: nat, y: nat, low: nat, a: nat, b: nat, carry: nat, k: nat)
    requires x + y == low + Place(carry, k)
    ensures var total := a + b + carry;
      (x + Place(a, k)) + (y + Place(b, k)) == low + Place(total % 10, k) + Place(total / 10, k + 1)
  {
    var total := a + b + carry;
    PlacesAdd(a, b, k);
    PlacesAdd(a + b, carry, k);
    PlacesAdd(total % 10, 10 * (total / 10), k);
    PlacesAdd(total / 10, 0, k);
  }

  lemma LowPush(sum: string, d: nat)
    requires d < 10
    ensures LowFirst(sum + [CharOf(d)]) == LowFirst(sum) + Place(d, |sum|)
  {
    assert (sum + [CharOf(d)])[..|sum|] == sum;
  }

  /** The last digits of both, as far as they have been added. */
  ghost predicate Added(a: string, b: string, k: nat, low: nat, carry: nat) {
    LastNat(a, k) + LastNat(b, k) == low + Place(carry, k)
  }

  lemma AddedOneMore(a: string, b: string, k: nat, low: nat, carry: nat, next: nat)
    requires Added(a, b, k, low, carry)
    requires next == low + Place((DigitAt(a, k) + DigitAt(b, k) + carry) % 10, k)
    ensures Added(a, b, k + 1, next, (DigitAt(a, k) + DigitAt(b, k) + carry) / 10)
  {
    Column(LastNat(a, k), LastNat(b, k), low, DigitAt(a, k), DigitAt(b, k), carry, k);
  }

  /** Add two digit strings from their last digits, carrying. */
  method AddDigits(a: string, b: string) returns (digits: string)
    ensures AllDigits(digits) && NatOf(digits) == NatOf(a) + NatOf(b)
    ensures |digits| >= Max(|a|, |b|)
  {
    var sum, carry := AddColumns(a, b);
    LastIsAll(a, |sum|);
    LastIsAll(b, |sum|);
    digits := Finish(sum, carry);
  }

  method AddColumns(a: string, b: string) returns (sum: string, carry: nat)
    ensures |sum| == Max(|a|, |b|) && AllDigits(sum) && carry <= 1
    ensures Added(a, b, |sum|, LowFirst(sum), carry)
  {
    sum, carry := "", 0;
    for index := 0 to Max(|a|, |b|)
      invariant |sum| == index && AllDigits(sum) && carry <= 1
      invariant Added(a, b, index, LowFirst(sum), carry)
    {
      var total := DigitAt(a, index) + DigitAt(b, index) + carry;
      LowPush(sum, total % 10);
      AddedOneMore(a, b, index, LowFirst(sum), carry, LowFirst(sum + [CharOf(total % 10)]));
      sum, carry := sum + [CharOf(total % 10)], total / 10;
    }
  }

  /** Push the last carry, and turn the digits round. */
  method Finish(sum: string, carry: nat) returns (digits: string)
    requires AllDigits(sum) && carry <= 1
    ensures AllDigits(digits) && NatOf(digits) == LowFirst(sum) + Place(carry, |sum|) && |digits| >= |sum|
  {
    NoPlace(|sum|);
    var all := sum;
    if carry > 0 {
      LowPush(sum, carry);
      all := sum + [CharOf(carry)];
    }
    ReversedSpells(all);
    digits := Reverse(all);
  }

  lemma PaddedApart(n: nat, s: string, scale: nat)
    requires n + |s| > scale
    ensures |Pad(s, scale)| <= n + |s| && Zeros(n) + s == Zeros(n + |s| - |Pad(s, scale)|) + Pad(s, scale)
  {
    if |s| <= scale {
      var m := scale + 1 - |s|;
      assert Zeros(n) == Zeros(n - m) + Zeros(m);
    }
  }

  lemma SlicePast(n: nat, padded: string, scale: nat)
    requires |padded| > scale
    ensures var digits := Zeros(n) + padded;
      && digits[|digits| - scale..] == padded[|padded| - scale..]
      && digits[..|digits| - scale] == Zeros(n) + padded[..|padded| - scale]
  {
  }

  lemma SplitIsPointed(n: nat, padded: string, scale: nat)
    requires |padded| > scale && (|padded| == scale + 1 || padded[0] != '0')
    ensures var digits := Zeros(n) + padded;
      var whole := Trim(digits[..|digits| - scale]);
      (if scale == 0 then whole else whole + "." + digits[|digits| - scale..]) == Pointed(padded, scale)
  {
    var whole := padded[..|padded| - scale];
    SlicePast(n, padded, scale);
    TrimSkipsZeros(n, whole);
    TrimDone(whole);
  }

  lemma SplitOfShort(digits: string, n: nat, short: string, scale: nat)
    requires digits == Zeros(n) + short && |digits| > scale && (|short| == 1 || (short != "" && short[0] != '0'))
    ensures var whole := Trim(digits[..|digits| - scale]);
      (if scale == 0 then whole else whole + "." + digits[|digits| - scale..]) == Pointed(Pad(short, scale), scale)
  {
    var padded := Pad(short, scale);
    PaddedApart(n, short, scale);
    assert |padded| == scale + 1 || padded[0] != '0';
    SplitIsPointed(n + |short| - |padded|, padded, scale);
  }

  /** Splitting off the decimals and trimming the rest writes the number. */
  lemma SplitIsWritten(digits: string, scale: nat)
    requires AllDigits(digits) && |digits| > scale
    ensures var whole := Trim(digits[..|digits| - scale]);
      (if scale == 0 then whole else whole + "." + digits[|digits| - scale..]) == Written(NatOf(digits), scale)
  {
    TrimOnlyZeros(digits);
    TrimIsDigits(digits);
    SplitOfShort(digits, |digits| - |Trim(digits)|, Trim(digits), scale);
  }

  lemma {:induction false} TrimSkipsZeros(n: nat, s: string)
    requires s != ""
    ensures Trim(Zeros(n) + s) == Trim(s)
  {
    if n > 0 {
      TrimSkipsZeros(n - 1, s);
      assert (Zeros(n) + s)[1..] == Zeros(n - 1) + s;
    } else {
      assert Zeros(n) + s == s;
    }
  }

  lemma TrimDone(s: string)
    requires s != "" && (|s| == 1 || s[0] != '0')
    ensures Trim(s) == s
  {
    if s[0] == '0' { assert s == "0" && Trim(s[1..]) == "0"; }
  }

  method Assemble(digits: string, scale: nat) returns (total: string)
    requires AllDigits(digits) && |digits| > scale
    ensures total == Written(NatOf(digits), scale)
  {
    SplitIsWritten(digits, scale);
    var whole := Trim(digits[..|digits| - scale]);
    total := if scale == 0 then whole else whole + "." + digits[|digits| - scale..];
  }

  /** Addition digit by digit: the exact sum at the wider scale, refused exactly when it would be longer
      than 32 characters. */
  method Add(left: string, right: string) returns (r: Result<string, string>)
    ensures r.Ok? <==> IsDecimal(left) && IsDecimal(right) && |Sum(left, right)| <= 32
    ensures r.Ok? ==> r.value == Sum(left, right)
    ensures r.Err? ==> r.error == "schema-type-mismatch"
  {
    var l, m := Parts(left), Parts(right);
    if l.Err? { return Err(l.error); }
    if m.Err? { return Err(m.error); }
    var ((leftInt, leftFrac), (rightInt, rightFrac)) := (l.value, m.value);
    var scale := Max(|leftFrac|, |rightFrac|);
    var a := leftInt + leftFrac + Zeros(scale - |leftFrac|);
    var b := rightInt + rightFrac + Zeros(scale - |rightFrac|);
    var digits := AddDigits(a, b);
    var total := Assemble(digits, scale);
    if |total| > MAX_LEN { return Err("schema-type-mismatch"); }
    return Ok(total);
  }
}
