/** The gateway's exact arithmetic on monetary strings: a validated string becomes a decimal with a
    coefficient and a number of places, and sums are taken in a context of 64 digits.
 */
module Money {
  import opened Prelude
  import opened Decimal

  const PRECISION: nat := 2 * MAX_LEN

  /** A decimal number: `coefficient` units of the last of `places` decimal places. */
  datatype Number = Number(coefficient: nat, places: nat)

  function DigitRun(s: string): (n: nat)
    ensures n <= |s| && AllDigits(s[..n]) && (n < |s| ==> !IsDigit(s[n]))
  {
    if s == "" || !IsDigit(s[0]) then 0
    else
      var n := DigitRun(s[1..]);
      assert s[..1 + n] == [s[0]] + s[1..][..n];
      1 + n
  }

  /** The pattern `[0-9]+(\.[0-9]+)?`, anchored at both ends. */
  predicate MatchesPattern(s: string) {
    var n := DigitRun(s);
    n > 0 && (n == |s| || (s[n] == '.' && n + 1 < |s| && AllDigits(s[n + 1..])))
  }

  function Parse(value: string): Result<Number, string> {
    if value == "" || |value| > MAX_LEN || !MatchesPattern(value) then Err("money-format")
    else
      var n := DigitRun(value);
      if n == |value| then Ok(Number(NatOf(value), 0))
      else Ok(Number(NatOf(value[..n] + value[n + 1..]), |value| - n - 1))
  }

  /** A common number of places for two numbers, and the units of each there. */
  function UnitsAt(n: Number, places: nat): nat
    requires n.places <= places
  {
    Place(n.coefficient, places - n.places)
  }

  function Compare(left: string, right: string): Result<Ordering, string> {
    match (Parse(left), Parse(right))
    case (Ok(a), Ok(b)) =>
      var places := Max(a.places, b.places);
      var l, r := UnitsAt(a, places), UnitsAt(b, places);
      Ok(if l == r then Equal else if l < r then Less else Greater)
    case _ => Err("money-format")
  }

  function AtMost(left: string, right: string): Result<bool, string> {
    match Compare(left, right)
    case Ok(order) => Ok(order != Greater)
    case Err(e) => Err(e)
  }

  /** A number formatted with exactly this many decimals. */
  function Formatted(n: nat, scale: nat): string {
    var digits := DigitsOf(n);
    if scale == 0 then digits
    else if |digits| <= scale then "0." + Zeros(scale - |digits|) + digits
    else digits[..|digits| - scale] + "." + digits[|digits| - scale..]
  }

  /** The exact sum at the wider scale. */
  function Total(a: Number, b: Number): Number {
    var places := Max(a.places, b.places);
    Number(UnitsAt(a, places) + UnitsAt(b, places), places)
  }

  /** A sum the context holds without rounding. */
  predicate Fits(n: Number) {
    |DigitsOf(n.coefficient)| <= PRECISION
  }

  /** Add two monetary strings. A sum too long to write is refused; the context never rounds one, so
      what rounding would give is not modelled. */
  function Add(left: string, right: string): Result<string, string> {
    match (Parse(left), Parse(right))
    case (Ok(a), Ok(b)) =>
      NeverRounds(left, right);
      assert Fits(Total(a, b));
      var rendered := Formatted(Total(a, b).coefficient, Total(a, b).places);
      if |rendered| > MAX_LEN then Err("money-format") else Ok(rendered)
    case _ => Err("money-format")
  }

  // ---- one grammar, one meaning ----

  lemma PatternIsGrammar(value: string)
    ensures Parse(value).Ok? <==> IsDecimal(value)
    ensures Parse(value).Ok? ==>
      var (whole, fraction) := Parts(value).value;
      Parse(value).value == Number(NatOf(whole + fraction), |fraction|)
  {
    var n, i := DigitRun(value), Point(value);
    assert n < i ==> value[..i][n] == value[n];
    if IsDecimal(value) {
      assert AllDigits(value[..i]);
      assert n == i;
    }
    if n == i && n == |value| { assert value[..i] == value && value + "" == value; }
  }

  lemma PlacedZeros(s: string, k: nat)
    ensures NatOf(s + Zeros(k)) == Place(NatOf(s), k)
  {
    if k > 0 {
      PlacedZeros(s, k - 1);
      assert (s + Zeros(k))[..|s| + k - 1] == s + Zeros(k - 1);
    } else {
      assert s + Zeros(k) == s;
    }
  }

  lemma UnitsAgree(value: string, places: nat)
    requires IsDecimal(value) && places >= Scale(value)
    ensures Parse(value).Ok? && Parse(value).value.places == Scale(value)
    ensures UnitsAt(Parse(value).value, places) == Units(value, places)
  {
    PatternIsGrammar(value);
    var (whole, fraction) := Parts(value).value;
    PlacedZeros(whole + fraction, places - |fraction|);
  }

  /** Comparing decimals is comparing the amounts, so both implementations decide alike. */
  lemma ComparesAmounts(left: string, right: string)
    ensures Compare(left, right).Ok? <==> IsDecimal(left) && IsDecimal(right)
    ensures Compare(left, right).Ok? ==> Compare(left, right).value == Order(Amount(left), Amount(right))
  {
    PatternIsGrammar(left);
    PatternIsGrammar(right);
    if IsDecimal(left) && IsDecimal(right) {
      var places := Max(Scale(left), Scale(right));
      UnitsAgree(left, places);
      UnitsAgree(right, places);
      UnitsAreAmount(left, places);
      UnitsAreAmount(right, places);
      ShiftKeepsOrder(Amount(left), Amount(right), places);
    }
  }

  lemma {:induction false} ShiftKeepsOrder(a: real, b: real, k: nat)
    ensures a < b <==> Shift(a, k) < Shift(b, k)
    ensures a == b <==> Shift(a, k) == Shift(b, k)
  {
    if k > 0 { ShiftKeepsOrder(a, b, k - 1); }
  }

  lemma AtMostIsAtMost(left: string, right: string)
    ensures AtMost(left, right).Ok? <==> IsDecimal(left) && IsDecimal(right)
    ensures AtMost(left, right).Ok? ==> (AtMost(left, right).value <==> Amount(left) <= Amount(right))
  {
    ComparesAmounts(left, right);
  }

  /** No sum of two monetary strings needs more digits than the context has. */
  lemma NeverRounds(left: string, right: string)
    requires Parse(left).Ok? && Parse(right).Ok?
    ensures Fits(Total(Parse(left).value, Parse(right).value))
    ensures |DigitsOf(Total(Parse(left).value, Parse(right).value).coefficient)| <= 64
  {
    PatternIsGrammar(left);
    PatternIsGrammar(right);
    var places := Max(Scale(left), Scale(right));
    UnitsAgree(left, places);
    UnitsAgree(right, places);
    UnitsBelow(left, places);
    UnitsBelow(right, places);
    PlacesAdd(1, 1, 62);
    DigitsWithin(Units(left, places) + Units(right, places), 63);
  }

  lemma UnitsBelow(value: string, places: nat)
    requires IsDecimal(value) && Scale(value) <= places <= 30
    ensures Units(value, places) < Place(1, 62)
  {
    var (whole, fraction) := Parts(value).value;
    NatBelow(whole + fraction + Zeros(places - |fraction|));
    PlaceMonotone(|whole| + places, 62);
  }

  lemma {:induction false} DigitsWithin(n: nat, k: nat)
    requires n < Place(1, k) && k >= 1
    ensures |DigitsOf(n)| <= k
    decreases k
  {
    if n >= 10 { DigitsWithin(n / 10, k - 1); }
  }

  lemma FormattedIsWritten(n: nat, scale: nat)
    ensures Formatted(n, scale) == Written(n, scale)
  {
    var digits := DigitsOf(n);
    if 0 < scale && |digits| <= scale {
      var padded := Pad(digits, scale);
      assert padded[..1] == "0";
      assert padded[1..] == Zeros(scale - |digits|) + digits;
    }
  }

  lemma AddsDecimals(left: string, right: string)
    requires IsDecimal(left) && IsDecimal(right)
    ensures Parse(left).Ok? && Parse(right).Ok?
    ensures var total := Total(Parse(left).value, Parse(right).value); Formatted(total.coefficient, total.places) == Sum(left, right)
  {
    var places := Max(Scale(left), Scale(right));
    UnitsAgree(left, places);
    UnitsAgree(right, places);
    FormattedIsWritten(Units(left, places) + Units(right, places), places);
  }

  /** The gateway adds as the kernel does: the same string, or both refuse. */
  lemma AddsAlike(left: string, right: string)
    ensures Add(left, right).Ok? <==> IsDecimal(left) && IsDecimal(right) && |Sum(left, right)| <= 32
    ensures Add(left, right).Ok? ==> Add(left, right).value == Sum(left, right)
  {
    PatternIsGrammar(left);
    PatternIsGrammar(right);
    if IsDecimal(left) && IsDecimal(right) { AddsDecimals(left, right); }
  }
}
