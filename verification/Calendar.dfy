/** Dates, month arithmetic with day clipping, and the "YYYY-MM" period strings. */
module Calendar {

  datatype Date = Date(year: int, month: int, day: int)

  predicate IsLeap(year: int) {
    year % 4 == 0 && (year % 100 != 0 || year % 400 == 0)
  }

  function DaysIn(year: int, month: int): (n: int)
    ensures 28 <= n <= 31
  {
    if month == 2 then (if IsLeap(year) then 29 else 28)
    else if month == 4 || month == 6 || month == 9 || month == 11 then 30
    else 31
  }

  predicate IsDate(d: Date) {
    1 <= d.month <= 12 && 1 <= d.day <= DaysIn(d.year, d.month)
  }

  /** Months since year 0. */
  function Month(d: Date): int {
    12 * d.year + d.month - 1
  }

  function DaysInMonth(month: int): int {
    DaysIn(month / 12, month % 12 + 1)
  }

  function Min(a: int, b: int): int {
    if a <= b then a else b
  }

  /** `d + relativedelta(months=1)`: the day is clipped to the next month's length. */
  function AddMonth(d: Date): (next: Date)
    requires IsDate(d)
    ensures IsDate(next) && Month(next) == Month(d) + 1
    ensures next.day == Min(d.day, DaysInMonth(Month(next)))
  {
    if d.month == 12 then Date(d.year + 1, 1, Min(d.day, DaysIn(d.year + 1, 1)))
    else Date(d.year, d.month + 1, Min(d.day, DaysIn(d.year, d.month + 1)))
  }

  /** The number of leap days up to a year. */
  function LeapDays(year: int): int {
    year / 4 - year / 100 + year / 400
  }

  /** Days from March on to the first of the i-th month, in years that begin in March so
      that the leap day comes last. */
  function DayNumber(year: int, i: int): int {
    365 * year + LeapDays(year) + (153 * i + 2) / 5
  }

  /** The day number of the first of a month in the Gregorian calendar, in closed form. */
  function FirstDay(month: int): int {
    DayNumber((month - 2) / 12, (month - 2) % 12)
  }

  lemma LeapDaysStep(year: int)
    ensures LeapDays(year) - LeapDays(year - 1) == if IsLeap(year) then 1 else 0
  {
    QuotientSteps(year, 4);
    QuotientSteps(year, 100);
    QuotientSteps(year, 400);
    LeapMultiples(year);
  }

  lemma QuotientSteps(n: int, k: int)
    requires k in {4, 100, 400}
    ensures n / k - (n - 1) / k == if n % k == 0 then 1 else 0
  {
  }

  lemma LeapMultiples(year: int)
    ensures year % 400 == 0 ==> year % 100 == 0
    ensures year % 100 == 0 ==> year % 4 == 0
  {
  }

  lemma WithinYear(year: int, i: int, y: int)
    requires 0 <= i < 11
    ensures DayNumber(year, i + 1) - DayNumber(year, i) == DaysIn(y, if i < 10 then i + 3 else i - 9)
  {
    assert (153 * i + 2) / 5 == 30 * i + (3 * i + 2) / 5;
    assert (153 * (i + 1) + 2) / 5 == 30 * i + 30 + (3 * i + 5) / 5;
  }

  lemma SplitMonth(month: int)
    ensures var q, i := (month - 2) / 12, (month - 2) % 12;
      && month / 12 == (if i < 10 then q else q + 1) && month % 12 + 1 == (if i < 10 then i + 3 else i - 9)
      && (month - 1) / 12 == (if i < 11 then q else q + 1) && (month - 1) % 12 == (if i < 11 then i + 1 else 0)
  {
  }

  /** The month lengths are those of the Gregorian calendar. */
  lemma MonthLengthIsExact(month: int)
    ensures DaysInMonth(month) == FirstDay(month + 1) - FirstDay(month)
  {
    var q, i := (month - 2) / 12, (month - 2) % 12;
    SplitMonth(month);
    assert month + 1 - 2 == month - 1;
    if i < 11 {
      WithinYear(q, i, month / 12);
    } else {
      LeapDaysStep(q + 1);
    }
  }

  function MonthsAfter(d: Date, n: nat): (r: Date)
    requires IsDate(d)
    ensures IsDate(r) && Month(r) == Month(d) + n
  {
    if n == 0 then d else AddMonth(MonthsAfter(d, n - 1))
  }

  /** The least of the first day and the lengths of the months in (from, upto]. */
  ghost predicate IsLeastVisited(day: int, first: int, from: int, upto: int) {
    && day <= first && (forall m | from < m <= upto :: day <= DaysInMonth(m))
    && (day == first || exists m :: from < m <= upto && day == DaysInMonth(m))
  }

  lemma VisitNext(day: int, first: int, from: int, upto: int)
    requires IsLeastVisited(day, first, from, upto) && from <= upto
    ensures IsLeastVisited(Min(day, DaysInMonth(upto + 1)), first, from, upto + 1)
  {
    var next := Min(day, DaysInMonth(upto + 1));
    if next == day && day != first {
      var m :| from < m <= upto && day == DaysInMonth(m);
      assert from < m <= upto + 1;
    }
  }

  /** The clipped day stays clipped: after n steps it is the least of the first day
      and the lengths of all months visited. */
  lemma {:induction false} DayIsLeastVisited(d: Date, n: nat)
    requires IsDate(d)
    ensures IsLeastVisited(MonthsAfter(d, n).day, d.day, Month(d), Month(d) + n)
  {
    if n > 0 {
      DayIsLeastVisited(d, n - 1);
      var before := MonthsAfter(d, n - 1);
      VisitNext(before.day, d.day, Month(d), Month(before));
      assert MonthsAfter(d, n) == AddMonth(before);
    }
  }

  /** Adding the n months at once would clip to the last month only.  Stepping
      agrees with it exactly when no month before is shorter. */
  lemma SteppingDriftsIff(d: Date, n: nat)
    requires IsDate(d)
    ensures var atOnce := Min(d.day, DaysInMonth(Month(d) + n));
      MonthsAfter(d, n).day == atOnce <==> forall m | Month(d) < m < Month(d) + n :: DaysInMonth(m) >= atOnce
  {
    DayIsLeastVisited(d, n);
    if n == 0 {
      assert Month(d) / 12 == d.year && Month(d) % 12 == d.month - 1;
    }
  }

  predicate Before(a: Date, b: Date) {
    a.year < b.year || (a.year == b.year && (a.month < b.month || (a.month == b.month && a.day < b.day)))
  }

  lemma StepsAreIncreasing(d: Date, i: nat, j: nat)
    requires IsDate(d) && i < j
    ensures Before(MonthsAfter(d, i), MonthsAfter(d, j))
  {
    assert Month(MonthsAfter(d, i)) < Month(MonthsAfter(d, j));
  }

  // ---- Period strings -----------------------------------------------------

  function Digit(n: int): char
    requires 0 <= n <= 9
  {
    ('0' as int + n) as char
  }

  /** `strftime("%Y-%m")`, for years of four digits. */
  function Period(d: Date): string {
    [Digit(d.year / 1000 % 10), Digit(d.year / 100 % 10), Digit(d.year / 10 % 10), Digit(d.year % 10), '-',
     Digit(d.month / 10 % 10), Digit(d.month % 10)]
  }

  /** The order in which the database sorts strings of digits. */
  predicate LexLess(a: string, b: string) {
    if b == "" then false
    else if a == "" then true
    else a[0] < b[0] || (a[0] == b[0] && LexLess(a[1..], b[1..]))
  }

  lemma {:induction false} LexIrreflexive(a: string)
    ensures !LexLess(a, a)
  {
    if a != "" {
      LexIrreflexive(a[1..]);
    }
  }

  /** A string read as a decimal number, with 0 for anything but a digit. */
  function Reading(c: char): int {
    if '0' <= c <= '9' then c as int - '0' as int else 0
  }

  function Scale(n: nat): int {
    if n == 0 then 1 else 10 * Scale(n - 1)
  }

  function Value(s: string): int {
    if s == "" then 0 else Reading(s[0]) * Scale(|s| - 1) + Value(s[1..])
  }

  lemma {:induction false} ValueBound(s: string)
    ensures 0 <= Value(s) < Scale(|s|)
  {
    if s != "" {
      ValueBound(s[1..]);
      var r, u := Reading(s[0]), Scale(|s| - 1);
      assert 0 <= r * u <= 9 * u by {
        ScaleTimes(r, u);
      }
    }
  }

  lemma ScaleTimes(r: int, u: int)
    requires 0 <= r <= 9 && u >= 0
    ensures 0 <= r * u <= 9 * u
  {
  }

  lemma HeadDecides(r: int, q: int, u: int, v: int, w: int)
    requires r < q && 0 <= v < u && 0 <= w < u
    ensures r * u + v < q * u + w
  {
    assert (r + 1) * u <= q * u;
  }

  /** Equally long strings that differ only in digits sort as their numbers do. */
  lemma {:induction false} LexIsNumeric(a: string, b: string)
    requires |a| == |b|
    requires forall i | 0 <= i < |a| :: a[i] == b[i] || ('0' <= a[i] <= '9' && '0' <= b[i] <= '9')
    ensures LexLess(a, b) <==> Value(a) < Value(b)
  {
    if a != "" {
      LexIsNumeric(a[1..], b[1..]);
      ValueBound(a[1..]);
      ValueBound(b[1..]);
      var r, q, u := Reading(a[0]), Reading(b[0]), Scale(|a| - 1);
      if a[0] < b[0] {
        HeadDecides(r, q, u, Value(a[1..]), Value(b[1..]));
      } else if b[0] < a[0] {
        HeadDecides(q, r, u, Value(b[1..]), Value(a[1..]));
      }
    }
  }

  lemma SevenDigits(s: string)
    requires |s| == 7
    ensures Value(s) == 1000000 * Reading(s[0]) + 100000 * Reading(s[1]) + 10000 * Reading(s[2])
      + 1000 * Reading(s[3]) + 100 * Reading(s[4]) + 10 * Reading(s[5]) + Reading(s[6])
  {
    Scales();
    assert s[0..] == s;
    ValueFrom(s, 0, 1000000);
    ValueFrom(s, 1, 100000);
    ValueFrom(s, 2, 10000);
    ValueFrom(s, 3, 1000);
    ValueFrom(s, 4, 100);
    ValueFrom(s, 5, 10);
    ValueFrom(s, 6, 1);
  }

  lemma Scales()
    ensures Scale(0) == 1 && Scale(1) == 10 && Scale(2) == 100 && Scale(3) == 1000
    ensures Scale(4) == 10000 && Scale(5) == 100000 && Scale(6) == 1000000
  {
    assert Scale(2) == 100;
    assert Scale(4) == 10000;
  }

  lemma ValueFrom(s: string, i: nat, unit: int)
    requires i < |s| && unit == Scale(|s| - i - 1)
    ensures Value(s[i..]) == Reading(s[i]) * unit + Value(s[i + 1..])
  {
    assert s[i..][1..] == s[i + 1..];
  }

  lemma PeriodShape(d: Date)
    requires IsDate(d) && 1000 <= d.year <= 9999
    ensures var p := Period(d);
      |p| == 7 && p[4] == '-' && forall i | 0 <= i < 7 && i != 4 :: '0' <= p[i] <= '9'
  {
  }

  lemma ReadDigit(n: int)
    requires 0 <= n <= 9
    ensures Reading(Digit(n)) == n
  {
  }

  lemma FourDigits(y: int)
    requires 1000 <= y <= 9999
    ensures 1000 * (y / 1000) + 100 * (y / 100 % 10) + 10 * (y / 10 % 10) + y % 10 == y
    ensures y / 1000 % 10 == y / 1000
  {
    assert y / 10 == 10 * (y / 100) + y / 10 % 10;
    assert y / 100 == 10 * (y / 1000) + y / 100 % 10;
  }

  lemma TwoDigits(m: int)
    requires 1 <= m <= 12
    ensures 10 * (m / 10 % 10) + m % 10 == m
  {
  }

  lemma PeriodDigits(d: Date)
    ensures var p, y, m := Period(d), d.year, d.month;
      && |p| == 7
      && Reading(p[0]) == y / 1000 % 10 && Reading(p[1]) == y / 100 % 10 && Reading(p[2]) == y / 10 % 10
      && Reading(p[3]) == y % 10 && Reading(p[4]) == 0 && Reading(p[5]) == m / 10 % 10 && Reading(p[6]) == m % 10
  {
    ReadDigit(d.year / 1000 % 10);
    ReadDigit(d.year / 100 % 10);
    ReadDigit(d.year / 10 % 10);
    ReadDigit(d.year % 10);
    ReadDigit(d.month / 10 % 10);
    ReadDigit(d.month % 10);
  }

  lemma PeriodValue(d: Date)
    requires IsDate(d) && 1000 <= d.year <= 9999
    ensures Value(Period(d)) == 1000 * d.year + d.month
  {
    FourDigits(d.year);
    TwoDigits(d.month);
    PeriodDigits(d);
    SevenDigits(Period(d));
  }

  lemma PeriodsCompare(p: string, q: string, a: Date, b: Date)
    requires 1 <= a.month <= 12 && 1 <= b.month <= 12
    requires |p| == |q|
    requires forall i | 0 <= i < |p| :: p[i] == q[i] || ('0' <= p[i] <= '9' && '0' <= q[i] <= '9')
    requires Value(p) == 1000 * a.year + a.month && Value(q) == 1000 * b.year + b.month
    ensures LexLess(p, q) <==> Month(a) < Month(b)
    ensures p == q ==> a.year == b.year && a.month == b.month
  {
    LexIsNumeric(p, q);
    MonthsCompare(a.year, a.month, b.year, b.month);
  }

  lemma MonthsCompare(y: int, m: int, z: int, n: int)
    requires 1 <= m <= 12 && 1 <= n <= 12
    ensures 1000 * y + m < 1000 * z + n <==> 12 * y + m < 12 * z + n
    ensures 1000 * y + m == 1000 * z + n ==> y == z && m == n
  {
    if y < z {
    } else if z < y {
    }
  }

  /** The strings of two dates sort as their months do; in particular distinct
      months have distinct strings. */
  lemma PeriodsSortAsMonths(a: Date, b: Date)
    requires IsDate(a) && IsDate(b) && 1000 <= a.year <= 9999 && 1000 <= b.year <= 9999
    ensures LexLess(Period(a), Period(b)) <==> Month(a) < Month(b)
    ensures Period(a) == Period(b) ==> Month(a) == Month(b)
  {
    PeriodValue(a);
    PeriodValue(b);
    PeriodShape(a);
    PeriodShape(b);
    PeriodsCompare(Period(a), Period(b), a, b);
  }
}
