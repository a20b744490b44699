/**
  Dates as day numbers. A `Day` counts days from 1970-01-01 (the number
  `LocalDate.toEpochDay` gives), so `ChronoUnit.DAYS.between(a, b)` is
  `b - a` and `plusDays(n)` is `+ n`. The proleptic Gregorian calendar
  turns a day number into year, month and day for the two text forms of a
  date the receipts use: ISO 8601 extended (`YYYY-MM-DD`, what
  `ISO_LOCAL_DATE` and `LocalDate.toString()` print) and basic
  (`YYYYMMDD`, the `yyyyMMdd` pattern of the receipt's file name).
 */
module Calendar {
  import opened Seqs
  import opened Text

  type Day = int

  datatype Date = Date(year: int, month: int, day: int)

  predicate IsLeapYear(y: int)
  {
    y % 4 == 0 && (y % 100 != 0 || y % 400 == 0)
  }

  function DaysInYear(y: int): int
  {
    if IsLeapYear(y) then 366 else 365
  }

  function DaysInMonth(y: int, m: int): int
    requires 1 <= m <= 12
  {
    if m == 2 then (if IsLeapYear(y) then 29 else 28)
    else if m == 4 || m == 6 || m == 9 || m == 11 then 30
    else 31
  }

  predicate ValidDate(d: Date)
  {
    1 <= d.month <= 12 && 1 <= d.day <= DaysInMonth(d.year, d.month)
  }

  /** Days of year `y` before the first of month `m` (`m == 13`: the whole year). */
  function DaysBeforeMonth(y: int, m: int): int
    requires 1 <= m <= 13
  {
    [0, 31, 59, 90, 120, 151, 181, 212, 243, 273, 304, 334, 365][m - 1]
    + (if m > 2 && IsLeapYear(y) then 1 else 0)
  }

  lemma DaysBeforeNextMonth(y: int, m: int)
    requires 1 <= m <= 12
    ensures DaysBeforeMonth(y, m + 1) == DaysBeforeMonth(y, m) + DaysInMonth(y, m)
    ensures DaysBeforeMonth(y, 13) == DaysInYear(y)
  {
  }

  /** Leap years in the years before `y` (counted from an arbitrary origin). */
  function LeapYearsBefore(y: int): int
  {
    (y - 1) / 4 - (y - 1) / 100 + (y - 1) / 400
  }

  /** The day number of January 1st of year `y`. */
  function DaysBeforeYear(y: int): int
  {
    365 * (y - 1970) + LeapYearsBefore(y) - LeapYearsBefore(1970)
  }

  lemma DivStep(y: int)
    ensures y / 4 - (y - 1) / 4 == if y % 4 == 0 then 1 else 0
    ensures y / 100 - (y - 1) / 100 == if y % 100 == 0 then 1 else 0
    ensures y / 400 - (y - 1) / 400 == if y % 400 == 0 then 1 else 0
  {
  }

  lemma DaysBeforeNextYear(y: int)
    ensures DaysBeforeYear(y + 1) == DaysBeforeYear(y) + DaysInYear(y)
  {
    DivStep(y);
  }

  lemma {:induction false} DaysBeforeYearMonotone(a: int, b: int)
    requires a <= b
    ensures DaysBeforeYear(a) <= DaysBeforeYear(b)
    decreases b - a
  {
    if a < b {
      DaysBeforeNextYear(a);
      DaysBeforeYearMonotone(a + 1, b);
    }
  }

  /** The day number of a calendar date. */
  function DaysFromCivil(d: Date): Day
    requires 1 <= d.month <= 12
  {
    DaysBeforeYear(d.year) + DaysBeforeMonth(d.year, d.month) + d.day - 1
  }

  /** Walks forward from January 1st of `y` to the year holding day `offset`. */
  function YearUp(y: int, offset: int): (r: (int, int))
    requires offset >= 0
    ensures DaysBeforeYear(r.0) + r.1 == DaysBeforeYear(y) + offset
    ensures 0 <= r.1 < DaysInYear(r.0)
    decreases offset
  {
    if offset < DaysInYear(y) then (y, offset)
    else
      DaysBeforeNextYear(y);
      YearUp(y + 1, offset - DaysInYear(y))
  }

  /** Walks backward from January 1st of `y` to the year holding day `offset < 0`. */
  function YearDown(y: int, offset: int): (r: (int, int))
    requires offset < 0
    ensures DaysBeforeYear(r.0) + r.1 == DaysBeforeYear(y) + offset
    ensures 0 <= r.1 < DaysInYear(r.0)
    decreases -offset
  {
    DaysBeforeNextYear(y - 1);
    var o := offset + DaysInYear(y - 1);
    if o >= 0 then (y - 1, o) else YearDown(y - 1, o)
  }

  /** Walks forward from the first of month `m` to the month holding day `offset`. */
  function MonthOf(y: int, m: int, offset: int): (d: Date)
    requires 1 <= m <= 12
    requires 0 <= offset < DaysInYear(y) - DaysBeforeMonth(y, m)
    ensures ValidDate(d) && d.year == y
    ensures DaysBeforeMonth(y, d.month) + d.day - 1 == DaysBeforeMonth(y, m) + offset
    decreases 12 - m
  {
    DaysBeforeNextMonth(y, m);
    if offset < DaysInMonth(y, m) then Date(y, m, offset + 1)
    else MonthOf(y, m + 1, offset - DaysInMonth(y, m))
  }

  /** The calendar date of a day number (`LocalDate.ofEpochDay`). */
  function CivilFromDays(z: Day): (d: Date)
    ensures ValidDate(d) && DaysFromCivil(d) == z
  {
    var r := if z >= 0 then YearUp(1970, z) else YearDown(1970, z);
    MonthOf(r.0, 1, r.1)
  }

  /** A valid date's day number lies inside its own year. */
  lemma DaysFromCivilInYear(d: Date)
    requires ValidDate(d)
    ensures DaysBeforeYear(d.year) <= DaysFromCivil(d) < DaysBeforeYear(d.year + 1)
  {
    DaysBeforeNextMonth(d.year, d.month);
    DaysBeforeNextYear(d.year);
    assert DaysBeforeMonth(d.year, d.month + 1) <= DaysBeforeMonth(d.year, 13);
  }

  /** Distinct valid dates have distinct day numbers. */
  lemma DaysFromCivilInjective(d: Date, e: Date)
    requires ValidDate(d) && ValidDate(e)
    requires DaysFromCivil(d) == DaysFromCivil(e)
    ensures d == e
  {
    SameDayNumberSameYear(d, e);
    SameYearSameDate(d, e);
  }

  /** Valid dates with the same day number lie in the same year. */
  lemma SameDayNumberSameYear(d: Date, e: Date)
    requires ValidDate(d) && ValidDate(e)
    requires DaysFromCivil(d) == DaysFromCivil(e)
    ensures d.year == e.year
  {
    DaysFromCivilInYear(d);
    DaysFromCivilInYear(e);
    YearOfDayNumber(DaysFromCivil(d), d.year, e.year);
  }

  /** A day number lies inside one year only. */
  lemma YearOfDayNumber(z: Day, a: int, b: int)
    requires DaysBeforeYear(a) <= z < DaysBeforeYear(a + 1)
    requires DaysBeforeYear(b) <= z < DaysBeforeYear(b + 1)
    ensures a == b
  {
    if a < b {
      DaysBeforeYearMonotone(a + 1, b);
    } else if b < a {
      DaysBeforeYearMonotone(b + 1, a);
    }
  }

  /** Within one year, the day of the year determines month and day. */
  lemma SameYearSameDate(d: Date, e: Date)
    requires ValidDate(d) && ValidDate(e) && d.year == e.year
    requires DaysBeforeMonth(d.year, d.month) + d.day == DaysBeforeMonth(e.year, e.month) + e.day
    ensures d == e
  {
    DaysBeforeNextMonth(d.year, d.month);
    DaysBeforeNextMonth(e.year, e.month);
  }

  /** Converting a valid date to its day number and back gives the date again. */
  lemma CivilRoundTrip(d: Date)
    requires ValidDate(d)
    ensures CivilFromDays(DaysFromCivil(d)) == d
  {
    DaysFromCivilInjective(CivilFromDays(DaysFromCivil(d)), d);
  }

  /** The year as `ISO_LOCAL_DATE` prints it: at least four digits, '+' past 9999. */
  function IsoYear(y: int): string
  {
    if y > 9999 then "+" + DecimalDigits(y)
    else if y < 0 then "-" + ZeroPad(-y, 4)
    else ZeroPad(y, 4)
  }

  /** ISO 8601 extended form of a date, `YYYY-MM-DD`. */
  function IsoLocalDate(d: Date): string
    requires ValidDate(d)
  {
    IsoYear(d.year) + "-" + ZeroPad(d.month, 2) + "-" + ZeroPad(d.day, 2)
  }

  /** The day as `LocalDate.toString()` and `ISO_LOCAL_DATE` print it. */
  function IsoDate(z: Day): string
  {
    IsoLocalDate(CivilFromDays(z))
  }

  /** Java's year-of-era: years before year 1 count backwards from 1 BCE. */
  function YearOfEra(y: int): nat
  {
    if y >= 1 then y else 1 - y
  }

  /** The day in the `yyyyMMdd` pattern: ISO 8601 basic form for years 1 to 9999. */
  function BasicDate(z: Day): string
  {
    var d := CivilFromDays(z);
    var y := YearOfEra(d.year);
    (if y > 9999 then "+" + DecimalDigits(y) else ZeroPad(y, 4))
    + ZeroPad(d.month, 2) + ZeroPad(d.day, 2)
  }

  /** Reads back a `YYYY-MM-DD` text; `None` for anything else. */
  function ParseIsoDate(s: string): Option<Day>
  {
    if |s| == 10 && s[4] == '-' && s[7] == '-'
       && (forall i :: 0 <= i < 10 && i != 4 && i != 7 ==> IsDigit(s[i]))
    then
      var d := Date(DigitsValue(s[..4]), DigitsValue(s[5..7]), DigitsValue(s[8..]));
      if ValidDate(d) then Some(DaysFromCivil(d)) else None
    else None
  }

  lemma {:induction false} DigitsValueZeros(k: nat)
    ensures DigitsValue(seq(k, _ => '0')) == 0
  {
    if k > 0 {
      assert seq(k, _ => '0')[..k - 1] == seq(k - 1, _ => '0');
      DigitsValueZeros(k - 1);
    }
  }

  /** Leading zeros do not change the value of a digit string. */
  lemma {:induction false} DigitsValueLeadingZeros(k: nat, s: string)
    requires forall i :: 0 <= i < |s| ==> IsDigit(s[i])
    ensures var t := seq(k, _ => '0') + s;
      (forall i :: 0 <= i < |t| ==> IsDigit(t[i])) && DigitsValue(t) == DigitsValue(s)
  {
    var t := seq(k, _ => '0') + s;
    if s == [] {
      assert t == seq(k, _ => '0');
      DigitsValueZeros(k);
    } else {
      assert t[..|t| - 1] == seq(k, _ => '0') + s[..|s| - 1];
      DigitsValueLeadingZeros(k, s[..|s| - 1]);
    }
  }

  lemma ZeroPadValue(n: nat, width: nat)
    ensures DigitsValue(ZeroPad(n, width)) == n
  {
    var d := DecimalDigits(n);
    DecimalDigitsRoundTrip(n);
    if |d| < width {
      DigitsValueLeadingZeros(width - |d|, d);
    }
  }

  lemma ZeroPadWidth(n: nat, width: nat)
    requires n < 10000 && (width == 2 ==> n < 100) && (width == 4 || width == 2)
    ensures |ZeroPad(n, width)| == width
  {
    var d := DecimalDigits(n);
    if n >= 1000 {
      assert |DecimalDigits(n / 10 / 10 / 10)| == 1;
    } else if n >= 100 {
      assert |DecimalDigits(n / 10 / 10)| == 1;
    } else if n >= 10 {
      assert |DecimalDigits(n / 10)| == 1;
    }
  }

  /**
    For years 0 to 9999 the ISO text has the fixed `YYYY-MM-DD` shape and
    reading it back gives the same day: distinct days print differently.
   */
  lemma IsoDateRoundTrip(z: Day)
    requires 0 <= CivilFromDays(z).year <= 9999
    ensures |IsoDate(z)| == 10 && IsoDate(z)[4] == '-' && IsoDate(z)[7] == '-'
    ensures ParseIsoDate(IsoDate(z)) == Some(z)
  {
    var d := CivilFromDays(z);
    var s := IsoDate(z);
    var ys, ms, ds := ZeroPad(d.year, 4), ZeroPad(d.month, 2), ZeroPad(d.day, 2);
    ZeroPadWidth(d.year, 4);
    ZeroPadWidth(d.month, 2);
    ZeroPadWidth(d.day, 2);
    assert s == ys + "-" + ms + "-" + ds;
    assert s[..4] == ys && s[5..7] == ms && s[8..] == ds;
    ZeroPadValue(d.year, 4);
    ZeroPadValue(d.month, 2);
    ZeroPadValue(d.day, 2);
  }

  /** For years 1 to 9999 the basic form is the extended form without its dashes. */
  lemma BasicDateDropsDashes(z: Day)
    requires 1 <= CivilFromDays(z).year <= 9999
    ensures |BasicDate(z)| == 8
    ensures BasicDate(z) == IsoDate(z)[..4] + IsoDate(z)[5..7] + IsoDate(z)[8..]
  {
    var d := CivilFromDays(z);
    ZeroPadWidth(d.year, 4);
    ZeroPadWidth(d.month, 2);
    ZeroPadWidth(d.day, 2);
    var ys, ms, ds := ZeroPad(d.year, 4), ZeroPad(d.month, 2), ZeroPad(d.day, 2);
    assert IsoDate(z) == ys + "-" + ms + "-" + ds;
    assert BasicDate(z) == ys + ms + ds;
    DashedPieces(ys, ms, ds);
  }

  /** Cutting the two dashes out of `y-m-d` leaves `ymd`. */
  lemma DashedPieces(y: string, m: string, d: string)
    requires |y| == 4 && |m| == 2 && |d| == 2
    ensures var s := y + "-" + m + "-" + d;
      |s| == 10 && s[..4] + s[5..7] + s[8..] == y + m + d
  {
    var s := y + "-" + m + "-" + d;
    assert s[..4] == y && s[5..7] == m && s[8..] == d;
  }
}
