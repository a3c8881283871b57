/** Timestamps: the one accepted spelling, the Gregorian calendar behind it, and why comparing two
    accepted strings is comparing the instants they denote.
 */
module Calendar {
  import opened Prelude

  predicate Digits(s: string, lo: nat, hi: nat)
    requires lo <= hi <= |s|
  {
    forall i :: lo <= i < hi ==> IsDigit(s[i])
  }

  function Two(s: string, i: nat): int
    requires i + 2 <= |s|
  {
    10 * DigitOf(s[i]) + DigitOf(s[i + 1])
  }

  function IsLeapYear(year: int): bool {
    year % 4 == 0 && (year % 100 != 0 || year % 400 == 0)
  }

  /** 0 for a month outside 1..=12, so such a month admits no day. */
  function DaysInMonth(year: int, month: int): nat {
    match month
    case 1 | 3 | 5 | 7 | 8 | 10 | 12 => 31
    case 4 | 6 | 9 | 11 => 30
    case 2 => if IsLeapYear(year) then 29 else 28
    case _ => 0
  }

  datatype Date = Date(year: int, month: int, day: int)

  datatype Moment = Moment(date: Date, hour: int, minute: int, second: int, milli: int)

  predicate ValidDate(d: Date) {
    1 <= d.year && 1 <= d.month <= 12 && 1 <= d.day <= DaysInMonth(d.year, d.month)
  }

  predicate ValidMoment(m: Moment) {
    && ValidDate(m.date) && m.date.year <= 9999
    && 0 <= m.hour <= 23 && 0 <= m.minute <= 59 && 0 <= m.second <= 59 && 0 <= m.milli <= 999
  }

  /** The form alone: 24 octets, digits and separators each in its place. */
  predicate HasForm(s: string) {
    && |s| == 24
    && Digits(s, 0, 4) && Digits(s, 5, 7) && Digits(s, 8, 10) && Digits(s, 11, 13)
    && Digits(s, 14, 16) && Digits(s, 17, 19) && Digits(s, 20, 23)
    && s[4] == '-' && s[7] == '-' && s[10] == 'T' && s[13] == ':' && s[16] == ':' && s[19] == '.' && s[23] == 'Z'
  }

  function Read(s: string): Moment
    requires HasForm(s)
  {
    Moment(Date(100 * Two(s, 0) + Two(s, 2), Two(s, 5), Two(s, 8)),
           Two(s, 11), Two(s, 14), Two(s, 17), 10 * Two(s, 20) + DigitOf(s[22]))
  }

  predicate IsTimestamp(s: string) {
    && HasForm(s)
    && var m := Read(s);
       && m.date.year >= 1
       && 1 <= m.date.month <= 12
       && m.date.day >= 1
       && m.date.day <= DaysInMonth(m.date.year, m.date.month)
       && m.hour <= 23
       && m.minute <= 59
       && m.second <= 59
  }

  // ---- the instant a string denotes, counted from the first millisecond of year 1 ----

  function YearLength(year: int): nat {
    if IsLeapYear(year) then 366 else 365
  }

  function DaysBeforeYear(year: int): nat
    decreases year
  {
    if year <= 1 then 0 else DaysBeforeYear(year - 1) + YearLength(year - 1)
  }

  function DaysBeforeMonth(year: int, month: int): nat
    decreases month
  {
    if month <= 1 then 0 else DaysBeforeMonth(year, month - 1) + DaysInMonth(year, month - 1)
  }

  function DayNumber(d: Date): int {
    DaysBeforeYear(d.year) + DaysBeforeMonth(d.year, d.month) + d.day - 1
  }

  function MilliOfDay(m: Moment): int {
    ((m.hour * 60 + m.minute) * 60 + m.second) * 1000 + m.milli
  }

  const MILLIS_PER_DAY: int := 86_400_000

  function InstantOf(m: Moment): int {
    DayNumber(m.date) * MILLIS_PER_DAY + MilliOfDay(m)
  }

  function Instant(s: string): int
    requires HasForm(s)
  {
    InstantOf(Read(s))
  }

  /** The day after, as a wall calendar turns it. */
  function NextDay(d: Date): Date {
    if d.day < DaysInMonth(d.year, d.month) then Date(d.year, d.month, d.day + 1)
    else if d.month < 12 then Date(d.year, d.month + 1, 1)
    else Date(d.year + 1, 1, 1)
  }

  lemma MonthsFillYear(year: int)
    ensures DaysBeforeMonth(year, 13) == YearLength(year)
  {
    assert DaysBeforeMonth(year, 4) == DaysInMonth(year, 2) + 62;
    assert DaysBeforeMonth(year, 7) == DaysBeforeMonth(year, 4) + 91;
    assert DaysBeforeMonth(year, 10) == DaysBeforeMonth(year, 7) + 92;
    assert DaysBeforeMonth(year, 13) == DaysBeforeMonth(year, 10) + 92;
  }

  /** Whether a year divides shows in the quotients. */
  lemma QuotientsStep(y: nat)
    requires y >= 1
    ensures y / 4 - (y - 1) / 4 == if y % 4 == 0 then 1 else 0
    ensures y / 100 - (y - 1) / 100 == if y % 100 == 0 then 1 else 0
    ensures y / 400 - (y - 1) / 400 == if y % 400 == 0 then 1 else 0
    ensures (y % 400 == 0 ==> y % 100 == 0) && (y % 100 == 0 ==> y % 4 == 0)
  {
  }

  /** The days before a year by the Gregorian rule: a leap day every fourth year, but not in three of four centuries. */
  lemma {:induction false} DaysByRule(year: nat)
    requires year >= 1
    ensures DaysBeforeYear(year) == 365 * (year - 1) + (year - 1) / 4 - (year - 1) / 100 + (year - 1) / 400
  {
    if year > 1 {
      DaysByRule(year - 1);
      QuotientsStep(year - 1);
    }
  }

  /** Day numbers count wall-calendar days: turning the page adds exactly one. */
  lemma NextDayIsNextNumber(d: Date)
    requires ValidDate(d)
    ensures ValidDate(NextDay(d)) && DayNumber(NextDay(d)) == DayNumber(d) + 1
  {
    if d.day == DaysInMonth(d.year, d.month) && d.month == 12 {
      MonthsFillYear(d.year);
      assert DaysBeforeMonth(d.year, 13) == DaysBeforeMonth(d.year, 12) + 31;
    }
  }

  lemma {:induction false} MonthsAscend(year: int, m: int, n: int)
    requires 1 <= m < n
    ensures DaysBeforeMonth(year, m) + DaysInMonth(year, m) <= DaysBeforeMonth(year, n)
    decreases n
  {
    if m < n - 1 { MonthsAscend(year, m, n - 1); }
  }

  lemma {:induction false} YearsAscend(y: int, z: int)
    requires 1 <= y < z
    ensures DaysBeforeYear(y) + YearLength(y) <= DaysBeforeYear(z)
    decreases z
  {
    if y < z - 1 { YearsAscend(y, z - 1); }
  }

  predicate DateLt(a: Date, b: Date) {
    a.year < b.year || (a.year == b.year && (a.month < b.month || (a.month == b.month && a.day < b.day)))
  }

  lemma DateOrderIsDayOrder(a: Date, b: Date)
    requires ValidDate(a) && ValidDate(b) && DateLt(a, b)
    ensures DayNumber(a) < DayNumber(b)
  {
    if a.year < b.year {
      YearsAscend(a.year, b.year);
      MonthsFillYear(a.year);
      MonthsAscend(a.year, a.month, 13);
    } else if a.month < b.month {
      MonthsAscend(a.year, a.month, b.month);
    }
  }

  /** Field-by-field order of two moments. */
  predicate MomentLt(a: Moment, b: Moment) {
    DateLt(a.date, b.date) || (a.date == b.date && MilliOfDay(a) < MilliOfDay(b))
  }

  lemma MomentOrderIsInstantOrder(a: Moment, b: Moment)
    requires ValidMoment(a) && ValidMoment(b) && MomentLt(a, b)
    ensures InstantOf(a) < InstantOf(b)
  {
    if DateLt(a.date, b.date) {
      DateOrderIsDayOrder(a.date, b.date);
    }
  }

  lemma {:induction false} LexAtFirstDifference(a: string, b: string, k: nat)
    requires k < |a| && k < |b| && a[..k] == b[..k] && a[k] != b[k]
    ensures LexLt(a, b) <==> a[k] < b[k]
  {
    if k > 0 {
      assert a[0] == a[..k][0] == b[..k][0] == b[0];
      assert a[1..][..k - 1] == a[..k][1..] == b[..k][1..] == b[1..][..k - 1];
      LexAtFirstDifference(a[1..], b[1..], k - 1);
    }
  }

  /** Where `a` first falls short of `b` within a two-digit field, its number does; before, they are one. */
  lemma FieldDecides(a: string, b: string, i: nat, k: nat)
    requires i + 2 <= |a| && i + 2 <= |b| && IsDigit(a[i]) && IsDigit(a[i + 1]) && IsDigit(b[i]) && IsDigit(b[i + 1])
    requires k < |a| && k < |b| && a[k] < b[k] && forall j :: 0 <= j < k ==> a[j] == b[j]
    ensures k >= i + 2 ==> Two(a, i) == Two(b, i)
    ensures i <= k < i + 2 ==> Two(a, i) < Two(b, i)
  {
  }

  lemma FieldBounds(s: string, i: nat)
    requires i + 2 <= |s|
    ensures 0 <= Two(s, i) <= 99
  {
  }

  lemma DateDecides(a: string, b: string, k: nat)
    requires HasForm(a) && HasForm(b) && k < 24 && a[k] < b[k] && forall j :: 0 <= j < k ==> a[j] == b[j]
    ensures if k < 11 then DateLt(Read(a).date, Read(b).date) else Read(a).date == Read(b).date
  {
    FieldDecides(a, b, 0, k);
    FieldDecides(a, b, 2, k);
    FieldDecides(a, b, 5, k);
    FieldDecides(a, b, 8, k);
    FieldBounds(a, 2);
    FieldBounds(b, 2);
  }

  lemma TimeDecides(a: string, b: string, k: nat)
    requires IsTimestamp(a) && IsTimestamp(b) && 11 <= k < 24 && a[k] < b[k] && forall j :: 0 <= j < k ==> a[j] == b[j]
    ensures MilliOfDay(Read(a)) < MilliOfDay(Read(b))
  {
    FieldDecides(a, b, 11, k);
    FieldDecides(a, b, 14, k);
    FieldDecides(a, b, 17, k);
    FieldDecides(a, b, 20, k);
    FieldBounds(a, 20);
    FieldBounds(b, 20);
    assert IsDigit(a[22]) && IsDigit(b[22]);
  }

  /** The first differing character decides the order of the moments. */
  lemma FirstDifferenceDecides(a: string, b: string, k: nat)
    requires IsTimestamp(a) && IsTimestamp(b) && k < 24
    requires forall i :: 0 <= i < k ==> a[i] == b[i]
    requires a[k] < b[k]
    ensures MomentLt(Read(a), Read(b))
  {
    DateDecides(a, b, k);
    if k >= 11 { TimeDecides(a, b, k); }
  }

  lemma {:induction false} FirstDifference(a: string, b: string) returns (k: nat)
    requires |a| == |b| && a != b
    ensures k < |a| && a[k] != b[k] && a[..k] == b[..k]
  {
    if a[0] != b[0] {
      k := 0;
    } else {
      assert a == [a[0]] + a[1..] && b == [b[0]] + b[1..];
      k := FirstDifference(a[1..], b[1..]);
      assert a[..k + 1] == [a[0]] + a[1..][..k] && b[..k + 1] == [b[0]] + b[1..][..k];
      k := k + 1;
    }
  }

  /** For accepted strings, string order is chronological order, and one instant has one spelling. */
  lemma LexOrderIsChronological(a: string, b: string)
    requires IsTimestamp(a) && IsTimestamp(b)
    ensures LexLt(a, b) <==> Instant(a) < Instant(b)
    ensures Instant(a) == Instant(b) <==> a == b
  {
    LexTotal(a, b);
    if a != b {
      var k := FirstDifference(a, b);
      forall i | 0 <= i < k ensures a[i] == b[i] { assert a[..k][i] == b[..k][i]; }
      LexAtFirstDifference(a, b, k);
      assert ValidMoment(Read(a)) && ValidMoment(Read(b));
      if a[k] < b[k] {
        FirstDifferenceDecides(a, b, k);
        MomentOrderIsInstantOrder(Read(a), Read(b));
      } else {
        FirstDifferenceDecides(b, a, k);
        MomentOrderIsInstantOrder(Read(b), Read(a));
      }
    }
  }

  function TwoChars(n: int): (s: string)
    requires 0 <= n <= 99
    ensures |s| == 2 && IsDigit(s[0]) && IsDigit(s[1]) && 10 * DigitOf(s[0]) + DigitOf(s[1]) == n
  {
    [CharOf(n / 10), CharOf(n % 10)]
  }

  function Punctuate(c: string, y: string, mo: string, d: string, h: string, mi: string, s: string, f: string): string
    requires |c| == |y| == |mo| == |d| == |h| == |mi| == |s| == 2 && |f| == 3
  {
    [c[0], c[1], y[0], y[1], '-', mo[0], mo[1], '-', d[0], d[1], 'T', h[0], h[1], ':',
     mi[0], mi[1], ':', s[0], s[1], '.', f[0], f[1], f[2], 'Z']
  }

  /** The spelling the clock renders. */
  function Render(m: Moment): string
    requires ValidMoment(m)
  {
    Punctuate(TwoChars(m.date.year / 100), TwoChars(m.date.year % 100), TwoChars(m.date.month), TwoChars(m.date.day),
              TwoChars(m.hour), TwoChars(m.minute), TwoChars(m.second),
              TwoChars(m.milli / 10) + [CharOf(m.milli % 10)])
  }

  lemma RenderedIsRead(m: Moment)
    requires ValidMoment(m)
    ensures IsTimestamp(Render(m)) && Read(Render(m)) == m
  {
    var s := Render(m);
    assert HasForm(s);
    assert Two(s, 0) == m.date.year / 100;
    assert Read(s) == m;
  }

  lemma {:induction false} DateOfNumber(n: nat) returns (d: Date)
    ensures ValidDate(d) && DayNumber(d) == n
  {
    if n == 0 {
      d := Date(1, 1, 1);
    } else {
      var p := DateOfNumber(n - 1);
      NextDayIsNextNumber(p);
      d := NextDay(p);
    }
  }

  lemma MomentOfDay(d: Date, r: int) returns (m: Moment)
    requires 0 <= r < MILLIS_PER_DAY && ValidDate(d) && d.year <= 9999
    ensures ValidMoment(m) && m.date == d && MilliOfDay(m) == r
  {
    var seconds, milli := r / 1000, r % 1000;
    var minutes, second := seconds / 60, seconds % 60;
    m := Moment(d, minutes / 60, minutes % 60, second, milli);
  }

  /** Every millisecond of the years 1 to 9999 has an accepted spelling; by
      `LexOrderIsChronological` it has only that one. */
  lemma EveryInstantIsSpelled(day: nat, r: nat)
    requires day < DaysBeforeYear(10000) && r < MILLIS_PER_DAY
    ensures exists s :: IsTimestamp(s) && Instant(s) == day * MILLIS_PER_DAY + r
  {
    var d := DateOfNumber(day);
    if d.year >= 10000 {
      if d.year > 10000 { YearsAscend(10000, d.year); }
      assert false;
    }
    var m := MomentOfDay(d, r);
    RenderedIsRead(m);
    assert Instant(Render(m)) == day * MILLIS_PER_DAY + r;
  }
}
