/** The civil date of a Unix instant (jamodio-bench/src/campaign.rs, `utc_parts`), against a naive
    calendar that adds up years and months one by one (appendix C of RFC 3339 for leap years). */
module CivilDate {

  datatype Utc = Utc(year: nat, month: nat, day: nat, hour: nat, minute: nat, second: nat)

  const DAY: nat := 86_400
  const ERA: nat := 146_097

  function YearOfEra(doe: nat): int {
    (doe - doe / 1460 + doe / 36_524 - doe / 146_096) / 365
  }

  datatype Date = Date(year: nat, month: nat, day: nat)

  /** A day of an era, counted from its first of March. */
  function InMarchYear(era: nat, yoe: nat, doy: nat): Date
    requires doy <= 365
  {
    var mp := (5 * doy + 2) / 153;
    MonthIsRight(doy);
    var d := doy - (153 * mp + 2) / 5 + 1;
    var m := if mp < 10 then mp + 3 else mp - 9;
    Date(yoe + era * 400 + if m <= 2 then 1 else 0, m, d)
  }

  function CivilFromDays(days: nat): Date {
    var z := days + 719_468;
    var era := z / ERA;
    var doe := z % ERA;
    YearOfEraIsRight(doe);
    var yoe := YearOfEra(doe);
    InMarchYear(era, yoe, doe - (365 * yoe + yoe / 4 - yoe / 100))
  }

  function UtcParts(secs: nat): Utc
    ensures var u := UtcParts(secs); u.hour < 24 && u.minute < 60 && u.second < 60
    ensures var u := UtcParts(secs); 3600 * u.hour + 60 * u.minute + u.second == secs % DAY
  {
    TimeOfDay(secs);
    var date := CivilFromDays(secs / DAY);
    Utc(date.year, date.month, date.day, (secs % DAY) / 3600, (secs % 3600) / 60, secs % 60)
  }

  lemma {:induction false} TimeOfDay(secs: nat)
    ensures (secs % DAY) % 3600 == secs % 3600 && (secs % 3600) % 60 == secs % 60
  {
    var q := secs / DAY;
    assert secs == 3600 * (24 * q) + secs % DAY;
    var r := secs / 3600;
    assert secs == 60 * (60 * r) + secs % 3600;
  }

  // ------------------------------------------------------------------ the naive calendar

  predicate IsLeap(year: nat) {
    year % 4 == 0 && (year % 100 != 0 || year % 400 == 0)
  }

  function MonthLength(year: nat, month: nat): nat {
    if month == 2 then (if IsLeap(year) then 29 else 28)
    else if month == 4 || month == 6 || month == 9 || month == 11 then 30
    else 31
  }

  function YearLength(year: nat): nat {
    if IsLeap(year) then 366 else 365
  }

  /** Days from 1970-01-01 to the first of January of `year`. */
  function DaysBeforeYear(year: nat): nat {
    if year <= 1970 then 0 else DaysBeforeYear(year - 1) + YearLength(year - 1)
  }

  /** Days of `year` before the first of `month`. */
  function DaysBeforeMonth(year: nat, month: nat): nat {
    if month <= 1 then 0 else DaysBeforeMonth(year, month - 1) + MonthLength(year, month - 1)
  }

  predicate ValidDate(year: nat, month: nat, day: nat) {
    year >= 1970 && 1 <= month <= 12 && 1 <= day <= MonthLength(year, month)
  }

  function DayNumber(year: nat, month: nat, day: nat): int {
    DaysBeforeYear(year) + DaysBeforeMonth(year, month) + day - 1
  }

  // ------------------------------------------------------------------ years and months of the algorithm

  /** Days of an era before its year `yoe`, years starting in March. */
  function EraDays(yoe: nat): int {
    365 * yoe + yoe / 4 - yoe / 100
  }

  lemma {:induction false} YearInCentury(c: nat, r: nat)
    requires c <= 3 && r < 36_524
    ensures
      var y := (r - (r + 24 * c) / 1460) / 365;
      && 0 <= y <= 99
      && 365 * y + y / 4 <= r <= 365 * y + y / 4 + 365
      && (r == 365 * y + y / 4 + 365 ==> (y + 1) % 4 == 0 && y != 99)
  {
    var k := (r + 24 * c) / 1460;
    var y := (r - k) / 365;
    assert 1460 * k <= r + 24 * c < 1460 * k + 1460;
    assert k <= 25;
    assert 4 * k - 1 <= y < 4 * (k + 1);
  }

  lemma {:induction false} CenturySplit(doe: nat, c: nat, r: nat)
    requires doe == 36_524 * c + r && c <= 3 && r < 36_524
    ensures YearOfEra(doe) == 100 * c + (r - (r + 24 * c) / 1460) / 365
  {
    var k := (r + 24 * c) / 1460;
    assert doe / 36_524 == c && doe / 146_096 == 0;
    assert doe / 1460 == 25 * c + k;
    assert doe - doe / 1460 + c == 365 * (100 * c) + (r - k);
  }

  lemma {:induction false} CenturyDays(c: nat, y: nat)
    requires c <= 3 && y <= 99
    ensures EraDays(100 * c + y) == 36_524 * c + 365 * y + y / 4
    ensures (y + 1) % 4 == 0 && y != 99 ==> IsLeap(100 * c + y + 1)
  {
    assert (100 * c + y) / 4 == 25 * c + y / 4 && (100 * c + y) / 100 == c;
  }

  /** The year found holds the day, and a 366th day only comes before a leap year's March. */
  lemma {:induction false} YearOfEraIsRight(doe: nat)
    requires doe < ERA
    ensures
      var y := YearOfEra(doe);
      && 0 <= y <= 399
      && EraDays(y) <= doe <= EraDays(y) + 365
      && (doe == EraDays(y) + 365 ==> IsLeap(y + 1))
  {
    if doe < 146_096 {
      var c := doe / 36_524;
      var r := doe - 36_524 * c;
      CenturySplit(doe, c, r);
      YearInCentury(c, r);
      CenturyDays(c, (r - (r + 24 * c) / 1460) / 365);
    } else {
      assert doe == 146_096 && YearOfEra(146_096) == 399;
    }
  }

  /** Months of a year that starts in March. */
  lemma {:induction false} MonthIsRight(doy: int)
    requires 0 <= doy <= 365
    ensures
      var mp := (5 * doy + 2) / 153;
      && 0 <= mp <= 11
      && (153 * mp + 2) / 5 <= doy < (153 * (mp + 1) + 2) / 5
  {
  }

  // ------------------------------------------------------------------ closed form of the naive calendar

  function January(year: nat): int {
    365 * year + (year - 1) / 4 - (year - 1) / 100 + (year - 1) / 400
  }

  lemma {:induction false} YearsClosed(year: nat)
    requires year >= 1970
    ensures DaysBeforeYear(year) == January(year) - January(1970)
    decreases year
  {
    if year > 1970 {
      YearsClosed(year - 1);
      LeapStep(year - 1);
    }
  }

  lemma {:induction false} LeapStep(y: nat)
    requires y >= 1
    ensures January(y + 1) == January(y) + YearLength(y)
  {
    QuotientStep(y, 4);
    QuotientStep(y, 100);
    QuotientStep(y, 400);
    Divisors(y);
  }

  lemma {:induction false} Multiple(y: nat, a: nat, b: nat)
    requires a > 0 && b > 0
    requires (a, b) == (25, 4) || (a, b) == (4, 100)
    ensures y % (a * b) == 0 ==> y % b == 0
  {
    if y % (a * b) == 0 {
      var q := y / (a * b);
      if b == 4 {
        assert y == 4 * (25 * q);
      } else {
        assert y == 100 * (4 * q);
      }
    }
  }

  lemma {:induction false} Divisors(y: nat)
    ensures y % 100 == 0 ==> y % 4 == 0
    ensures y % 400 == 0 ==> y % 100 == 0
  {
    Multiple(y, 25, 4);
    Multiple(y, 4, 100);
  }

  lemma {:induction false} QuotientStep(y: nat, n: nat)
    requires y >= 1 && (n == 4 || n == 100 || n == 400)
    ensures y / n == (y - 1) / n + if y % n == 0 then 1 else 0
  {
  }

  lemma {:induction false} MonthsClosed(year: nat, month: nat)
    requires 1 <= month <= 12
    ensures
      var leap := if IsLeap(year) then 1 else 0;
      DaysBeforeMonth(year, month) ==
      if month <= 2 then 31 * (month - 1) else 59 + leap + (153 * (month - 3) + 2) / 5
  {
    if month > 1 {
      MonthsClosed(year, month - 1);
    }
  }

  // ------------------------------------------------------------------ the theorems

  /** Days from year 0 to the first of March of `y`. */
  function March(y: nat): int {
    365 * y + y / 4 - y / 100 + y / 400
  }

  lemma {:induction false} EraSplits(era: nat, yoe: nat)
    requires yoe <= 399
    ensures ERA * era + EraDays(yoe) == March(yoe + 400 * era)
  {
    var y := yoe + 400 * era;
    assert y / 4 == yoe / 4 + 100 * era;
    assert y / 100 == yoe / 100 + 4 * era;
    assert y / 400 == era;
  }

  lemma {:induction false} Remainder(y: nat, q: nat, r: nat, n: nat)
    requires n == 4 || n == 100 || n == 400
    requires y == n * q + r && r < n
    ensures y % n == r
  {
  }

  lemma {:induction false} EraLeap(era: nat, y: nat)
    ensures IsLeap(y + 400 * era) <==> IsLeap(y)
  {
    Remainder(y + 400 * era, y / 4 + 100 * era, y % 4, 4);
    Remainder(y + 400 * era, y / 100 + 4 * era, y % 100, 100);
    Remainder(y + 400 * era, y / 400 + era, y % 400, 400);
  }

  lemma {:induction false} MarchYearIsRight(y: nat, doy: nat)
    requires doy <= 365
    requires doy == 365 ==> IsLeap(y + 1)
    requires March(y) + doy >= 719_468
    ensures
      var mp := (5 * doy + 2) / 153;
      var d := doy - (153 * mp + 2) / 5 + 1;
      var m := if mp < 10 then mp + 3 else mp - 9;
      var year := if m <= 2 then y + 1 else y;
      && ValidDate(year, m, d)
      && DayNumber(year, m, d) == March(y) + doy - 719_468
  {
    LateEnough(y, doy);
    MonthIsRight(doy);
    var mp := (5 * doy + 2) / 153;
    var m := if mp < 10 then mp + 3 else mp - 9;
    var year := if m <= 2 then y + 1 else y;
    LeapStep(y);
    YearsClosed(year);
    MonthsClosed(year, m);
  }

  lemma {:induction false} MarchIsRight(era: nat, yoe: nat, doy: nat)
    requires doy <= 365 && yoe <= 399
    requires doy == 365 ==> IsLeap(yoe + 1)
    requires ERA * era + EraDays(yoe) + doy >= 719_468
    ensures
      var date := InMarchYear(era, yoe, doy);
      && ValidDate(date.year, date.month, date.day)
      && DayNumber(date.year, date.month, date.day) == ERA * era + EraDays(yoe) + doy - 719_468
  {
    hide ValidDate, DayNumber, IsLeap;
    EraSplits(era, yoe);
    EraLeap(era, yoe + 1);
    MarchYearIsRight(yoe + 400 * era, doy);
  }

  lemma {:induction false} DayIsRight(days: nat)
    ensures
      var date := CivilFromDays(days);
      ValidDate(date.year, date.month, date.day) && DayNumber(date.year, date.month, date.day) == days
  {
    hide ValidDate, DayNumber, InMarchYear, IsLeap, YearOfEra;
    var z := days + 719_468;
    var (era, doe) := (z / ERA, z % ERA);
    assert ERA * era + doe == z;
    YearOfEraIsRight(doe);
    var yoe := YearOfEra(doe);
    MarchIsRight(era, yoe, doe - EraDays(yoe));
  }

  /** The date is a date of the calendar, and its naive day count is the day of the instant. */
  lemma {:induction false} DateIsRight(secs: nat)
    ensures
      var u := UtcParts(secs);
      ValidDate(u.year, u.month, u.day) && DayNumber(u.year, u.month, u.day) == secs / DAY
  {
    DayIsRight(secs / DAY);
  }

  lemma {:induction false} LateEnough(y: nat, doy: nat)
    requires doy <= 365 && March(y) + doy >= 719_468
    ensures y >= 1969
  {
  }

  lemma {:induction false} YearsGrow(a: nat, b: nat)
    requires 1970 <= a <= b
    ensures DaysBeforeYear(a) <= DaysBeforeYear(b)
    decreases b
  {
    if a < b {
      YearsGrow(a, b - 1);
    }
  }

  lemma {:induction false} DayInYear(year: nat, month: nat, day: nat)
    requires ValidDate(year, month, day)
    ensures DaysBeforeYear(year) <= DayNumber(year, month, day) < DaysBeforeYear(year + 1)
  {
    MonthsClosed(year, month);
  }

  /** No two dates of the calendar have the same number. */
  lemma {:induction false} DatesAreDistinct(y1: nat, m1: nat, d1: nat, y2: nat, m2: nat, d2: nat)
    requires ValidDate(y1, m1, d1) && ValidDate(y2, m2, d2)
    requires DayNumber(y1, m1, d1) == DayNumber(y2, m2, d2)
    ensures y1 == y2 && m1 == m2 && d1 == d2
  {
    DayInYear(y1, m1, d1);
    DayInYear(y2, m2, d2);
    if y1 < y2 {
      YearsGrow(y1 + 1, y2);
    } else if y2 < y1 {
      YearsGrow(y2 + 1, y1);
    }
    MonthsGrow(y1, m1, d1, m2, d2);
  }

  lemma {:induction false} MonthsGrow(y: nat, m1: nat, d1: nat, m2: nat, d2: nat)
    requires ValidDate(y, m1, d1) && ValidDate(y, m2, d2)
    requires DayNumber(y, m1, d1) == DayNumber(y, m2, d2)
    ensures m1 == m2 && d1 == d2
  {
    MonthsClosed(y, m1);
    MonthsClosed(y, m2);
  }

  /** The function and the calendar undo each other: any second of the day a date numbers gives
      back that date. */
  lemma {:induction false} RoundTrip(year: nat, month: nat, day: nat, second: nat)
    requires ValidDate(year, month, day) && second < DAY
    ensures DayNumber(year, month, day) >= 0
    ensures
      var u := UtcParts(DayNumber(year, month, day) * DAY + second);
      (u.year, u.month, u.day) == (year, month, day)
  {
    DayInYear(year, month, day);
    var secs := DayNumber(year, month, day) * DAY + second;
    assert secs / DAY == DayNumber(year, month, day);
    DateIsRight(secs);
    var u := UtcParts(secs);
    DatesAreDistinct(u.year, u.month, u.day, year, month, day);
  }

  /** The day after, in the calendar. */
  function NextDate(d: Date): Date {
    if d.day < MonthLength(d.year, d.month) then Date(d.year, d.month, d.day + 1)
    else if d.month < 12 then Date(d.year, d.month + 1, 1)
    else Date(d.year + 1, 1, 1)
  }

  lemma {:induction false} NextDateCounts(d: Date)
    requires ValidDate(d.year, d.month, d.day)
    ensures ValidDate(NextDate(d).year, NextDate(d).month, NextDate(d).day)
    ensures DayNumber(NextDate(d).year, NextDate(d).month, NextDate(d).day) == DayNumber(d.year, d.month, d.day) + 1
  {
    MonthsClosed(d.year, 12);
  }

  /** The dates advance one calendar day at a time. */
  lemma {:induction false} DatesAdvance(days: nat)
    ensures CivilFromDays(days + 1) == NextDate(CivilFromDays(days))
  {
    hide CivilFromDays, NextDate, DayNumber, ValidDate;
    var next := NextDate(CivilFromDays(days));
    var date := CivilFromDays(days + 1);
    DayIsRight(days);
    NextDateCounts(CivilFromDays(days));
    DayIsRight(days + 1);
    DatesAreDistinct(date.year, date.month, date.day, next.year, next.month, next.day);
  }
}
