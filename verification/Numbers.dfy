/** ECMAScript Number::toString, as the gateway prints it and as the vector generator does, from the
    integer, fraction and exponent of the shortest text that denotes a binary64 value.
 */
module Numbers {
  import opened Prelude
  import opened Decimal

  /** A number text: `whole [ "." fraction ] [ "e" exponent ]`. */
  datatype Literal = Literal(whole: string, fraction: string, exponent: int)

  predicate IsLiteral(t: Literal) {
    AllDigits(t.whole) && AllDigits(t.fraction)
  }

  /** It denotes a positive number: some digit is not zero. */
  predicate Positive(t: Literal) {
    IsLiteral(t) && exists i :: 0 <= i < |t.whole + t.fraction| && (t.whole + t.fraction)[i] != '0'
  }

  /** Normal form: the number is the digits times a power of ten, and neither end digit is zero. */
  datatype Shortest = Shortest(digits: string, exponent: int)

  predicate Normal(n: Shortest) {
    n.digits != "" && AllDigits(n.digits) && n.digits[0] != '0' && n.digits[|n.digits| - 1] != '0'
  }

  function StripLeft(s: string): (r: string)
    ensures |r| <= |s| && s[|s| - |r|..] == r && (r != "" ==> r[0] != '0')
    ensures forall i :: 0 <= i < |s| - |r| ==> s[i] == '0'
  {
    if s != "" && s[0] == '0' then StripLeft(s[1..]) else s
  }

  function StripRight(s: string): (r: string)
    ensures |r| <= |s| && s[..|r|] == r && (r != "" ==> r[|r| - 1] != '0')
    ensures forall i :: |r| <= i < |s| ==> s[i] == '0'
  {
    if s != "" && s[|s| - 1] == '0' then StripRight(s[..|s| - 1]) else s
  }

  /** The gateway's reading: strip zeros at both ends, and account for those at the right. */
  function ShortestOf(t: Literal): Shortest {
    var digits := StripLeft(t.whole + t.fraction);
    var all := if digits == "" then "0" else digits;
    var stripped := StripRight(all);
    var place := t.exponent - |t.fraction| + |all| - |stripped|;
    Shortest(if stripped == "" then "0" else stripped, place)
  }

  /** A sign and the digits of a power of ten. */
  function PowerText(power: int): string {
    if power >= 0 then "+" + DigitsOf(power) else "-" + DigitsOf(-power)
  }

  /** The five layouts of the gateway's printer. */
  function Layout(n: Shortest): string
    requires n.digits != ""
  {
    var k := |n.digits|;
    var point := n.exponent + k;
    if k <= point <= 21 then n.digits + Zeros(point - k)
    else if 0 < point <= 21 then n.digits[..point] + "." + n.digits[point..]
    else if -6 < point <= 0 then "0." + Zeros(-point) + n.digits
    else
      var mantissa := if k == 1 then n.digits else [n.digits[0]] + "." + n.digits[1..];
      mantissa + "e" + PowerText(point - 1)
  }

  function GatewayText(t: Literal): string {
    Layout(ShortestOf(t))
  }

  /** The generator's printer: it counts leading zeros instead of trailing ones. */
  function GeneratorText(t: Literal): string {
    var all := t.whole + t.fraction;
    var stripped := StripLeft(all);
    var leadZeros := |all| - |stripped|;
    var point := |t.whole| + t.exponent - leadZeros;
    var right := StripRight(stripped);
    var digits := if right == "" then "0" else right;
    GeneratorLayout(digits, point)
  }

  function GeneratorLayout(digits: string, point: int): string
    requires digits != ""
  {
    var k := |digits|;
    if k <= point <= 21 then digits + Zeros(point - k)
    else if 0 < point <= 21 then digits[..point] + "." + digits[point..]
    else if -6 < point <= 0 then "0." + Zeros(-point) + digits
    else if k == 1 then digits + "e" + PowerText(point - 1)
    else [digits[0]] + "." + digits[1..] + "e" + PowerText(point - 1)
  }

  lemma StrippedBothSides(all: string)
    requires exists i :: 0 <= i < |all| && all[i] != '0'
    ensures StripLeft(all) != "" && StripRight(StripLeft(all)) != ""
    ensures StripRight(StripLeft(all))[0] != '0'
  {
    var i :| 0 <= i < |all| && all[i] != '0';
    var digits := StripLeft(all);
    var stripped := StripRight(digits);
    assert digits[0] != '0';
    assert stripped[0] == digits[0];
  }

  lemma ZerosLead(s: string, n: nat)
    requires n <= |s| && forall i :: 0 <= i < n ==> s[i] == '0'
    ensures s == Zeros(n) + s[n..]
  {
  }

  lemma ZerosTrail(s: string, n: nat)
    requires n <= |s| && forall i :: n <= i < |s| ==> s[i] == '0'
    ensures s == s[..n] + Zeros(|s| - n)
  {
  }

  lemma DigitsWithin(all: string, left: string, middle: string, right: string)
    requires AllDigits(all) && all == left + middle + right
    ensures AllDigits(middle)
  {
    forall j | 0 <= j < |middle| ensures IsDigit(middle[j]) { assert middle[j] == all[|left| + j]; }
  }

  lemma LeftStripped(s: string)
    ensures s == Zeros(|s| - |StripLeft(s)|) + StripLeft(s)
  {
    ZerosLead(s, |s| - |StripLeft(s)|);
  }

  lemma RightStripped(s: string)
    ensures s == StripRight(s) + Zeros(|s| - |StripRight(s)|)
  {
    ZerosTrail(s, |StripRight(s)|);
  }

  lemma Between(all: string, digits: string, stripped: string, left: string, right: string)
    requires all == left + digits && digits == stripped + right
    ensures all == left + stripped + right
  {
  }

  /** These digits, between zeros, are the literal's own, and the exponent accounts for every one. */
  predicate Denotes(t: Literal, n: Shortest, left: nat, right: nat) {
    && t.whole + t.fraction == Zeros(left) + n.digits + Zeros(right)
    && n.exponent == t.exponent - |t.fraction| + right
  }

  lemma ShortestIs(t: Literal, all: string, digits: string, stripped: string)
    requires all == t.whole + t.fraction && digits == StripLeft(all) && stripped == StripRight(digits)
    requires digits != "" && stripped != ""
    ensures ShortestOf(t) == Shortest(stripped, t.exponent - |t.fraction| + (|digits| - |stripped|))
  {
  }

  /** The normal form is the number the literal denotes. */
  lemma ShortestIsTheNumber(t: Literal)
    requires Positive(t)
    ensures Normal(ShortestOf(t)) && exists left: nat, right: nat :: Denotes(t, ShortestOf(t), left, right)
  {
    var left, right := NumberBetween(t, ShortestOf(t));
  }

  lemma NumberBetween(t: Literal, n: Shortest) returns (left: nat, right: nat)
    requires Positive(t) && n == ShortestOf(t)
    ensures Normal(n) && Denotes(t, n, left, right)
  {
    var all := t.whole + t.fraction;
    left, right := NormalBetween(all);
    StrippedBothSides(all);
    ShortestIs(t, all, StripLeft(all), StripRight(StripLeft(all)));
  }

  lemma BetweenZeros(all: string)
    ensures var digits, stripped := StripLeft(all), StripRight(StripLeft(all));
      all == Zeros(|all| - |digits|) + stripped + Zeros(|digits| - |stripped|)
  {
    var digits, stripped := StripLeft(all), StripRight(StripLeft(all));
    LeftStripped(all);
    RightStripped(digits);
    Between(all, digits, stripped, Zeros(|all| - |digits|), Zeros(|digits| - |stripped|));
  }

  lemma NormalBetween(all: string) returns (left: nat, right: nat)
    requires AllDigits(all) && exists i :: 0 <= i < |all| && all[i] != '0'
    ensures var digits, stripped := StripLeft(all), StripRight(StripLeft(all));
      && Normal(Shortest(stripped, 0)) && all == Zeros(left) + stripped + Zeros(right)
      && left == |all| - |digits| && right == |digits| - |stripped|
  {
    var digits, stripped := StripLeft(all), StripRight(StripLeft(all));
    left, right := |all| - |digits|, |digits| - |stripped|;
    BetweenZeros(all);
    StrippedBothSides(all);
    DigitsWithin(all, Zeros(left), stripped, Zeros(right));
  }

  /** The gateway's printer and the generator's give the same characters. */
  lemma PrintersAgree(t: Literal)
    requires Positive(t)
    ensures GatewayText(t) == GeneratorText(t)
  {
    var all := t.whole + t.fraction;
    StrippedBothSides(all);
    SameLayout(ShortestOf(t), |t.whole| + t.exponent - (|all| - |StripLeft(all)|));
  }

  /** Both lay the digits out alike when they place the point alike. */
  lemma SameLayout(n: Shortest, point: int)
    requires n.digits != "" && point == n.exponent + |n.digits|
    ensures Layout(n) == GeneratorLayout(n.digits, point)
  {
    if |n.digits| > 1 {
      assert [n.digits[0]] + "." + n.digits[1..] + "e" + PowerText(point - 1)
          == ([n.digits[0]] + "." + n.digits[1..]) + "e" + PowerText(point - 1);
    }
  }

  // ---- reading a number back ----

  /** Where this character first stands, or the length. */
  function Find(s: string, c: char): (i: nat)
    ensures i <= |s| && (forall j :: 0 <= j < i ==> s[j] != c) && (i < |s| ==> s[i] == c)
  {
    if s == "" || s[0] == c then 0 else 1 + Find(s[1..], c)
  }

  lemma FindAt(s: string, c: char, i: nat)
    requires i < |s| && s[i] == c && forall j :: 0 <= j < i ==> s[j] != c
    ensures Find(s, c) == i
  {
  }

  lemma FindNone(s: string, c: char)
    requires forall j :: 0 <= j < |s| ==> s[j] != c
    ensures Find(s, c) == |s|
  {
  }

  function ReadPower(s: string): int {
    if s == "" then 0
    else if s[0] == '-' then 0 - NatOf(s[1..]) as int
    else if s[0] == '+' then NatOf(s[1..])
    else NatOf(s)
  }

  /** What an unsigned JSON number spells. */
  function ReadLiteral(s: string): Literal {
    var e := Find(s, 'e');
    var mantissa, power := s[..e], if e < |s| then ReadPower(s[e + 1..]) else 0;
    var p := Find(mantissa, '.');
    Literal(mantissa[..p], if p < |mantissa| then mantissa[p + 1..] else "", power)
  }

  /** A power is written with its sign, also when that is a plus, and with no zero in front. */
  lemma PowerIsSigned(power: int)
    ensures var s := PowerText(power);
      && |s| >= 2 && s[0] == (if power < 0 then '-' else '+') && AllDigits(s[1..])
      && (s[1] == '0' ==> |s| == 2) && NatOf(s[1..]) == (if power < 0 then -power else power)
  {
    var n := if power < 0 then -power else power;
    DigitsSpell(n);
    DigitsLead(n);
    assert PowerText(power)[1..] == DigitsOf(n);
  }

  lemma {:induction false} DigitsLead(n: nat)
    ensures DigitsOf(n) != "" && (DigitsOf(n)[0] == '0' ==> n == 0)
  {
    if n >= 10 { DigitsLead(n / 10); }
  }

  /** Where the layouts of large numbers meet, */
  lemma LargeLayoutsMeet()
    ensures Layout(Shortest("1", 20)) == "1" + Zeros(20) && Layout(Shortest("1", 21)) == "1e+21"
  {
    assert DigitsOf(21) == "21";
    assert Layout(Shortest("1", 21)) == "1" + "e" + ("+" + DigitsOf(21));
  }

  /** and those of small ones. */
  lemma SmallLayoutsMeet()
    ensures Layout(Shortest("1", -6)) == "0.000001" && Layout(Shortest("1", -7)) == "1e-7"
    ensures Layout(Shortest("15", -1)) == "1.5"
  {
    assert DigitsOf(7) == "7" && Zeros(5) == "00000";
    assert Layout(Shortest("1", -6)) == "0." + Zeros(5) + "1";
    assert Layout(Shortest("1", -7)) == "1" + "e" + ("-" + DigitsOf(7));
  }

  lemma PowerReads(power: int)
    ensures ReadPower(PowerText(power)) == power
  {
    DigitsSpell(if power >= 0 then power else -power);
    assert PowerText(power)[1..] == DigitsOf(if power >= 0 then power else -power);
  }

  function Mantissa(whole: string, fraction: string): string {
    whole + if fraction == "" then "" else "." + fraction
  }

  /** A literal's own text. */
  function TextOf(t: Literal, powered: bool): string {
    Mantissa(t.whole, t.fraction) + if powered then "e" + PowerText(t.exponent) else ""
  }

  lemma MantissaReads(whole: string, fraction: string)
    requires AllDigits(whole) && AllDigits(fraction)
    ensures var m := Mantissa(whole, fraction);
      var p := Find(m, '.');
      m[..p] == whole && (if p < |m| then m[p + 1..] else "") == fraction
    ensures forall j :: 0 <= j < |Mantissa(whole, fraction)| ==> Mantissa(whole, fraction)[j] != 'e'
  {
    var m := Mantissa(whole, fraction);
    if fraction == "" {
      assert m == whole;
      FindNone(m, '.');
    } else {
      FindAt(m, '.', |whole|);
    }
  }

  lemma PowerSplits(mantissa: string, power: string)
    requires forall j :: 0 <= j < |mantissa| ==> mantissa[j] != 'e'
    ensures var s := mantissa + "e" + power; Find(s, 'e') == |mantissa| && s[..|mantissa|] == mantissa && s[|mantissa| + 1..] == power
    ensures Find(mantissa, 'e') == |mantissa|
  {
    var s := mantissa + "e" + power;
    assert forall j :: 0 <= j < |mantissa| ==> s[j] == mantissa[j];
    FindAt(s, 'e', |mantissa|);
    FindNone(mantissa, 'e');
  }

  lemma PoweredReads(t: Literal)
    requires IsLiteral(t)
    ensures ReadLiteral(Mantissa(t.whole, t.fraction) + "e" + PowerText(t.exponent)) == t
  {
    var mantissa, power := Mantissa(t.whole, t.fraction), PowerText(t.exponent);
    MantissaReads(t.whole, t.fraction);
    PowerSplits(mantissa, power);
    PowerReads(t.exponent);
    var s := mantissa + "e" + power;
    assert s[..Find(s, 'e')] == mantissa && s[Find(s, 'e') + 1..] == power;
  }

  lemma PlainReads(t: Literal)
    requires IsLiteral(t) && t.exponent == 0
    ensures ReadLiteral(Mantissa(t.whole, t.fraction)) == t
  {
    var mantissa := Mantissa(t.whole, t.fraction);
    MantissaReads(t.whole, t.fraction);
    FindNone(mantissa, 'e');
    assert mantissa[..|mantissa|] == mantissa;
  }

  lemma TextIs(t: Literal)
    ensures TextOf(t, true) == Mantissa(t.whole, t.fraction) + "e" + PowerText(t.exponent)
    ensures TextOf(t, false) == Mantissa(t.whole, t.fraction)
  {
  }

  lemma TextReads(t: Literal, powered: bool)
    requires IsLiteral(t) && (powered || t.exponent == 0)
    ensures ReadLiteral(TextOf(t, powered)) == t
  {
    TextIs(t);
    if powered { PoweredReads(t); } else { PlainReads(t); }
  }

  lemma StripLeftOf(zeros: nat, digits: string)
    requires digits != "" && digits[0] != '0'
    ensures StripLeft(Zeros(zeros) + digits) == digits
  {
    var s := Zeros(zeros) + digits;
    var r := StripLeft(s);
    assert s[zeros] == digits[0];
    assert r != "" ==> r[0] == s[|s| - |r|];
    assert |s| - |r| == zeros;
    assert s[zeros..] == digits;
  }

  lemma StripRightOf(digits: string, zeros: nat)
    requires digits != "" && digits[|digits| - 1] != '0'
    ensures StripRight(digits + Zeros(zeros)) == digits
  {
    var s := digits + Zeros(zeros);
    var r := StripRight(s);
    assert s[|digits| - 1] == digits[|digits| - 1];
    assert r != "" ==> r[|r| - 1] == s[|r| - 1];
    assert |r| == |digits|;
    assert s[..|digits|] == digits;
  }

  /** A literal whose digits are these, between zeros, has them as its normal form. */
  lemma NormalFormOf(t: Literal, n: Shortest, left: nat, right: nat)
    requires Normal(n) && Denotes(t, n, left, right)
    ensures ShortestOf(t) == n
  {
    var digits := n.digits + Zeros(right);
    assert Zeros(left) + n.digits + Zeros(right) == Zeros(left) + digits;
    StripLeftOf(left, digits);
    StripRightOf(n.digits, right);
    ShortestIs(t, t.whole + t.fraction, digits, n.digits);
  }

  /** The literal each layout writes. */
  function Laid(n: Shortest): Literal
    requires n.digits != ""
  {
    var k := |n.digits|;
    var point := n.exponent + k;
    if k <= point <= 21 then Literal(n.digits + Zeros(point - k), "", 0)
    else if 0 < point <= 21 then Literal(n.digits[..point], n.digits[point..], 0)
    else if -6 < point <= 0 then Literal("0", Zeros(-point) + n.digits, 0)
    else Literal([n.digits[0]], n.digits[1..], point - 1)
  }

  predicate Powered(n: Shortest) {
    var point := n.exponent + |n.digits|;
    point > 21 || point <= -6
  }

  lemma LaidIsLiteral(n: Shortest)
    requires Normal(n)
    ensures IsLiteral(Laid(n)) && (Powered(n) || Laid(n).exponent == 0)
  {
  }

  lemma PlainIsLaid(n: Shortest)
    requires Normal(n) && !Powered(n)
    ensures Layout(n) == Mantissa(Laid(n).whole, Laid(n).fraction)
  {
    var t := Laid(n);
    if |n.digits| <= n.exponent + |n.digits| { assert t.whole + "" == t.whole; }
    else if n.exponent + |n.digits| <= 0 { assert "0." == "0" + "."; }
  }

  lemma PoweredIsLaid(n: Shortest)
    requires Normal(n) && Powered(n)
    ensures Layout(n) == Mantissa(Laid(n).whole, Laid(n).fraction) + ("e" + PowerText(Laid(n).exponent))
  {
    if |n.digits| == 1 {
      assert n.digits == [n.digits[0]] && [n.digits[0]] + "" == n.digits;
      assert n.digits[1..] == "";
    } else {
      Regrouped([n.digits[0]], n.digits[1..], PowerText(Laid(n).exponent));
    }
  }

  lemma LayoutIsLaid(n: Shortest)
    requires Normal(n)
    ensures IsLiteral(Laid(n)) && (Powered(n) || Laid(n).exponent == 0)
    ensures Layout(n) == TextOf(Laid(n), Powered(n))
  {
    LaidIsLiteral(n);
    if Powered(n) {
      PoweredIsLaid(n);
    } else {
      PlainIsLaid(n);
      assert Mantissa(Laid(n).whole, Laid(n).fraction) + "" == Mantissa(Laid(n).whole, Laid(n).fraction);
    }
  }

  lemma Regrouped(a: string, b: string, c: string)
    ensures a + "." + b + "e" + c == (a + ("." + b)) + ("e" + c)
  {
  }

  /** Every layout reads back as the number it prints: same digits, same exponent. */
  lemma NumberReadsBack(n: Shortest)
    requires Normal(n)
    ensures ShortestOf(ReadLiteral(Layout(n))) == n
  {
    LayoutIsLaid(n);
    TextReads(Laid(n), Powered(n));
    var k := |n.digits|;
    var point := n.exponent + k;
    LaidDenotes(n, if -6 < point <= 0 then 1 - point else 0, if k <= point <= 21 then point - k else 0);
    NormalFormOf(Laid(n), n, if -6 < point <= 0 then 1 - point else 0, if k <= point <= 21 then point - k else 0);
  }

  lemma LaidDenotes(n: Shortest, left: nat, right: nat)
    requires Normal(n)
    requires var k, point := |n.digits|, n.exponent + |n.digits|;
      left == (if -6 < point <= 0 then 1 - point else 0) && right == (if k <= point <= 21 then point - k else 0)
    ensures Denotes(Laid(n), n, left, right)
  {
    var point := n.exponent + |n.digits|;
    var t := Laid(n);
    assert Zeros(0) == "";
    if |n.digits| <= point <= 21 {
      assert t.whole + t.fraction == t.whole;
    } else if 0 < point <= 21 {
      assert n.digits[..point] + n.digits[point..] == n.digits;
    } else if -6 < point <= 0 {
      assert "0" + (Zeros(-point) + n.digits) == Zeros(1 - point) + n.digits;
    } else {
      assert [n.digits[0]] + n.digits[1..] == n.digits;
    }
  }

  /** So the gateway reads its own output, and the generator's, as the number that was printed. */
  lemma PrintedReadsBack(t: Literal)
    requires Positive(t)
    ensures ShortestOf(ReadLiteral(GatewayText(t))) == ShortestOf(t)
    ensures ShortestOf(ReadLiteral(GeneratorText(t))) == ShortestOf(t)
  {
    ShortestIsTheNumber(t);
    NumberReadsBack(ShortestOf(t));
    PrintersAgree(t);
  }
}
