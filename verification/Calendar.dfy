/** Days to dates in the proleptic Gregorian calendar. */
module Calendar {
  datatype Civil = Civil(year: int, month: int, day: int)

  const EPOCH := Civil(1970, 1, 1)

  // --- the calendar itself ------------------------------------------------------------------

  predicate Leap(year: int) {
    year % 4 == 0 && (year % 100 != 0 || year % 400 == 0)
  }

  function DaysInMonth(year: int, month: int): int {
    if month == 2 then (if Leap(year) then 29 else 28)
    else if month == 4 || month == 6 || month == 9 || month == 11 then 30
    else 31
  }

  predicate ValidDate(c: Civil) {
    1 <= c.month <= 12 && 1 <= c.day <= DaysInMonth(c.year, c.month)
  }

  /** The next day of the calendar. */
  function Successor(c: Civil): Civil {
    if c.day < DaysInMonth(c.year, c.month) then c.(day := c.day + 1)
    else if c.month < 12 then Civil(c.year, c.month + 1, 1)
    else Civil(c.year + 1, 1, 1)
  }

  // --- the conversion -----------------------------------------------------------------------

  /** The year of a 400-year era in which its day lies, years counted from March. */
  function YearOfEra(dayOfEra: int): int {
    (dayOfEra - dayOfEra / 1_460 + dayOfEra / 36_524 - dayOfEra / 146_096) / 365
  }

  /** The date of a day of a year counted from March. */
  function CivilOf(year: int, dayOfYear: int): Civil {
    var mp := (5 * dayOfYear + 2) / 153;
    var day := dayOfYear - (153 * mp + 2) / 5 + 1;
    var month := if mp < 10 then mp + 3 else mp - 9;
    Civil(if month <= 2 then year + 1 else year, month, day)
  }

  /** Days of an era before one of its years. */
  function YearOfEraStart(yearOfEra: int): int {
    365 * yearOfEra + yearOfEra / 4 - yearOfEra / 100
  }

  /** Era and day of era divide towards negative infinity; everything after that is not negative. */
  function CivilFromDays(days: int): Civil {
    var z := days + 719_468;
    var era := z / 146_097;
    var dayOfEra := z % 146_097;
    var yearOfEra := YearOfEra(dayOfEra);
    CivilOf(yearOfEra + era * 400, dayOfEra - YearOfEraStart(yearOfEra))
  }

  // --- the day count of a date --------------------------------------------------------------

  /** Days before the first of March of a year, counted from the first of March of year 0. */
  function YearStart(year: int): int {
    365 * year + year / 4 - year / 100 + year / 400
  }

  /** Days before a month, counting months from March. */
  function MonthStart(mp: int): int {
    (153 * mp + 2) / 5
  }

  /** The year and the month counted from March. */
  function MarchYear(c: Civil): int { if c.month <= 2 then c.year - 1 else c.year }

  function MarchMonth(c: Civil): int { if c.month <= 2 then c.month + 9 else c.month - 3 }

  function DaysFromCivil(c: Civil): int {
    YearStart(MarchYear(c)) + MonthStart(MarchMonth(c)) + c.day - 1 - 719_468
  }

  /** A year that starts in March ends with February, so its length is up to the next year's leap day. */
  lemma YearLength(year: int)
    ensures YearStart(year + 1) - YearStart(year) == if Leap(year + 1) then 366 else 365
  {
    Quotient(year, 4);
    Quotient(year, 100);
    Quotient(year, 400);
    assert (year + 1) % 400 == 0 ==> (year + 1) % 100 == 0;
    assert (year + 1) % 100 == 0 ==> (year + 1) % 4 == 0;
  }

  lemma Quotient(n: int, k: int)
    requires k == 4 || k == 100 || k == 400
    ensures (n + 1) / k == n / k + if (n + 1) % k == 0 then 1 else 0
  {
  }

  /** Every month but the last has its calendar length. */
  lemma MonthLength(year: int, mp: int)
    requires 0 <= mp < 11
    ensures MonthStart(mp + 1) - MonthStart(mp) == DaysInMonth(year, if mp < 10 then mp + 3 else mp - 9)
  {
  }

  lemma NextInMonth(c: Civil)
    requires ValidDate(c) && c.day < DaysInMonth(c.year, c.month)
    ensures ValidDate(Successor(c)) && DaysFromCivil(Successor(c)) == DaysFromCivil(c) + 1
  {
    hide YearStart, MonthStart;
  }

  lemma NextMonth(c: Civil)
    requires ValidDate(c) && c.day == DaysInMonth(c.year, c.month) && c.month != 2
    ensures ValidDate(Successor(c)) && DaysFromCivil(Successor(c)) == DaysFromCivil(c) + 1
  {
    hide YearStart, MonthStart;
    MonthLength(c.year, MarchMonth(c));
  }

  lemma MarchFollows(c: Civil)
    requires ValidDate(c) && c.day == DaysInMonth(c.year, c.month) && c.month == 2
    ensures ValidDate(Successor(c)) && DaysFromCivil(Successor(c)) == DaysFromCivil(c) + 1
  {
    hide YearStart;
    YearLength(c.year - 1);
  }

  /** The day count goes up by one from each day to the next. */
  lemma DaysOfSuccessor(c: Civil)
    requires ValidDate(c)
    ensures ValidDate(Successor(c)) && DaysFromCivil(Successor(c)) == DaysFromCivil(c) + 1
  {
    hide DaysFromCivil, Successor;
    if c.day < DaysInMonth(c.year, c.month) {
      NextInMonth(c);
    } else if c.month == 2 {
      MarchFollows(c);
    } else {
      NextMonth(c);
    }
  }

  // --- from days to dates and back ----------------------------------------------------------

  /** Within one 400-year era, the corrected division finds the year the day lies in. */
  lemma YearOfEraFinds(dayOfEra: int)
    requires 0 <= dayOfEra < 146_097
    ensures var y := YearOfEra(dayOfEra);
            0 <= y < 400 && YearStart(y) <= dayOfEra < YearStart(y + 1)
  {
    var c, r := dayOfEra / 36_524, dayOfEra % 36_524;
    if dayOfEra < 146_096 {
      CenturyFinds(c, r);
    }
  }

  /** The year of a century in which its day `r` lies, as the era's corrections leave it. */
  function YearOfCentury(c: int, r: int): int {
    (r - (r + 24 * c) / 1_460) / 365
  }

  lemma CenturySplits(c: int, r: int)
    requires 0 <= c <= 3 && 0 <= r < 36_524
    ensures YearOfEra(36_524 * c + r) == 100 * c + YearOfCentury(c, r)
  {
    var d := 36_524 * c + r;
    assert d / 36_524 == c && d / 146_096 == 0;
    assert d / 1_460 == 25 * c + (r + 24 * c) / 1_460;
  }

  lemma CenturyBounds(c: int, r: int)
    requires 0 <= c <= 3 && 0 <= r < 36_524
    ensures var w := YearOfCentury(c, r);
            0 <= w <= 99 && 365 * w + w / 4 <= r < 365 * (w + 1) + (w + 1) / 4
  {
  }

  lemma CenturyStart(c: int, w: int)
    requires 0 <= c <= 3 && 0 <= w <= 99
    ensures YearStart(100 * c + w) == 36_524 * c + 365 * w + w / 4
  {
    var y := 100 * c + w;
    assert y / 4 == 25 * c + w / 4 && y / 100 == c && y / 400 == 0;
  }

  lemma CenturyEnd(c: int, w: int)
    requires 0 <= c <= 3 && 0 <= w <= 99
    ensures 36_524 * c + 365 * (w + 1) + (w + 1) / 4 - YearStart(100 * c + w + 1) <= if w == 99 then 1 else 0
  {
    var y := 100 * c + w + 1;
    assert y / 4 == 25 * c + (w + 1) / 4;
  }

  lemma CenturyFinds(c: int, r: int)
    requires 0 <= c <= 3 && 0 <= r < 36_524
    ensures var d := 36_524 * c + r;
            var y := YearOfEra(d);
            0 <= y < 400 && YearStart(y) <= d < YearStart(y + 1)
  {
    CenturySplits(c, r);
    CenturyBounds(c, r);
    CenturyStart(c, YearOfCentury(c, r));
    CenturyEnd(c, YearOfCentury(c, r));
  }

  lemma MonthOfYearFinds(dayOfYear: int)
    requires 0 <= dayOfYear < 366
    ensures var mp := (5 * dayOfYear + 2) / 153;
            0 <= mp < 12 && MonthStart(mp) <= dayOfYear < MonthStart(mp + 1)
  {
  }

  lemma EraStart(era: int, y: int)
    requires 0 <= y <= 400
    ensures YearStart(400 * era + y) == 146_097 * era + YearStart(y)
  {
    assert (400 * era + y) / 4 == 100 * era + y / 4;
    assert (400 * era + y) / 100 == 4 * era + y / 100;
    assert (400 * era + y) / 400 == era + y / 400;
  }

  /** The year found within an era is the year found on the whole count. */
  lemma YearOfCount(era: int, d: int, year: int)
    requires 0 <= d < 146_097 && year == YearOfEra(d) + era * 400
    ensures 146_097 * era + d - YearStart(year) == d - YearOfEraStart(YearOfEra(d))
    ensures 0 <= d - YearOfEraStart(YearOfEra(d)) < YearStart(year + 1) - YearStart(year)
  {
    var y := YearOfEra(d);
    YearOfEraFinds(d);
    EraStart(era, y);
    EraStart(era, y + 1);
    assert year == 400 * era + y && year + 1 == 400 * era + (y + 1);
  }

  /** The year from March and the day of it that the conversion goes through. */
  lemma YearOfDays(days: int) returns (year: int, dayOfYear: int)
    ensures dayOfYear == days + 719_468 - YearStart(year) && 0 <= dayOfYear < YearStart(year + 1) - YearStart(year)
    ensures CivilFromDays(days) == CivilOf(year, dayOfYear)
  {
    var era, d := (days + 719_468) / 146_097, (days + 719_468) % 146_097;
    year, dayOfYear := YearOfEra(d) + era * 400, d - YearOfEraStart(YearOfEra(d));
    assert CivilFromDays(days) == CivilOf(year, dayOfYear);
    YearOfCount(era, d, year);
  }

  lemma MonthOfDays(year: int, dayOfYear: int) returns (mp: int)
    requires 0 <= dayOfYear < 366
    ensures 0 <= mp < 12 && MonthStart(mp) <= dayOfYear < MonthStart(mp + 1)
    ensures var c := CivilOf(year, dayOfYear);
            MarchYear(c) == year && MarchMonth(c) == mp && c.day == dayOfYear - MonthStart(mp) + 1 && 1 <= c.month <= 12
  {
    mp := (5 * dayOfYear + 2) / 153;
    MonthOfYearFinds(dayOfYear);
  }

  /** Every day count is a date of the calendar, and the count of that date. */
  lemma CivilValid(days: int)
    ensures ValidDate(CivilFromDays(days)) && DaysFromCivil(CivilFromDays(days)) == days
  {
    var year, dayOfYear := YearOfDays(days);
    YearLength(year);
    var mp := MonthOfDays(year, dayOfYear);
    PartsValid(CivilFromDays(days), year, mp, dayOfYear);
  }

  lemma PartsValid(c: Civil, year: int, mp: int, dayOfYear: int)
    requires 0 <= dayOfYear < YearStart(year + 1) - YearStart(year)
    requires 0 <= mp < 12 && MonthStart(mp) <= dayOfYear < MonthStart(mp + 1) && 1 <= c.month <= 12
    requires MarchYear(c) == year && MarchMonth(c) == mp && c.day == dayOfYear - MonthStart(mp) + 1
    ensures ValidDate(c)
  {
    YearLength(year);
    if mp < 11 {
      MonthLength(c.year, mp);
    }
  }

  predicate Earlier(a: Civil, b: Civil) {
    a.year < b.year || (a.year == b.year && (a.month < b.month || (a.month == b.month && a.day < b.day)))
  }

  lemma {:induction false} YearStartMonotone(a: int, b: int)
    requires a <= b
    ensures YearStart(a) <= YearStart(b)
    decreases b - a
  {
    if a == b {
    } else {
      YearStartMonotone(a, b - 1);
      YearLength(b - 1);
    }
  }

  /** The day of a date within its year from March is within that year. */
  lemma WithinYear(c: Civil)
    requires ValidDate(c)
    ensures var day := MonthStart(MarchMonth(c)) + c.day - 1;
            0 <= day < YearStart(MarchYear(c) + 1) - YearStart(MarchYear(c))
  {
    YearLength(MarchYear(c));
  }

  /** Within one year from March, a later date is a later day of that year. */
  lemma LaterInYear(a: Civil, b: Civil)
    requires ValidDate(a) && ValidDate(b) && Earlier(a, b) && MarchYear(a) == MarchYear(b)
    ensures MonthStart(MarchMonth(a)) + a.day < MonthStart(MarchMonth(b)) + b.day
  {
    if MarchMonth(a) < MarchMonth(b) {
      MonthLength(a.year, MarchMonth(a));
      MonthStartMonotone(MarchMonth(a) + 1, MarchMonth(b));
    } else {
      assert a.month == b.month;
    }
  }

  lemma MonthStartMonotone(m: int, n: int)
    requires m <= n
    ensures MonthStart(m) <= MonthStart(n)
  {
  }

  /** Later dates have larger day counts. */
  lemma DaysMonotone(a: Civil, b: Civil)
    requires ValidDate(a) && ValidDate(b) && Earlier(a, b)
    ensures DaysFromCivil(a) < DaysFromCivil(b)
  {
    hide YearStart, MonthStart;
    WithinYear(a);
    WithinYear(b);
    if MarchYear(a) < MarchYear(b) {
      YearStartMonotone(MarchYear(a) + 1, MarchYear(b));
    } else {
      LaterInYear(a, b);
    }
  }

  /** Different dates have different day counts. */
  lemma SameCount(c: Civil, d: Civil)
    requires ValidDate(c) && ValidDate(d)
    ensures DaysFromCivil(c) == DaysFromCivil(d) <==> c == d
  {
    if Earlier(c, d) {
      DaysMonotone(c, d);
    } else if Earlier(d, c) {
      DaysMonotone(d, c);
    }
  }

  /** The conversion inverts the day count on every date of the calendar. */
  lemma CivilInverts(c: Civil)
    requires ValidDate(c)
    ensures CivilFromDays(DaysFromCivil(c)) == c
  {
    CivilValid(DaysFromCivil(c));
    SameCount(CivilFromDays(DaysFromCivil(c)), c);
  }

  /** Day 0 is the first of January 1970. */
  lemma EpochIsDayZero(days: int)
    ensures CivilFromDays(days) == EPOCH <==> days == 0
  {
    CivilValid(days);
    EpochCount(CivilFromDays(days));
  }

  lemma EpochCount(c: Civil)
    requires ValidDate(c)
    ensures DaysFromCivil(c) == 0 <==> c == EPOCH
  {
    assert ValidDate(EPOCH) && DaysFromCivil(EPOCH) == 0;
    SameCount(c, EPOCH);
  }

  lemma CivilUnique(days: int, c: Civil)
    requires ValidDate(c) && DaysFromCivil(c) == days
    ensures CivilFromDays(days) == c
  {
    CivilInverts(c);
  }

  /** Each day is followed by the next day of the calendar. */
  lemma NextDayIsSuccessor(days: int)
    ensures CivilFromDays(days + 1) == Successor(CivilFromDays(days))
  {
    CivilValid(days);
    SuccessorFollows(days, CivilFromDays(days));
  }

  lemma SuccessorFollows(days: int, c: Civil)
    requires ValidDate(c) && DaysFromCivil(c) == days
    ensures CivilFromDays(days + 1) == Successor(c)
  {
    DaysOfSuccessor(c);
    CivilUnique(days + 1, Successor(c));
  }

  /** Days and dates come in the same order. */
  lemma CivilMonotone(a: int, b: int)
    ensures a < b <==> Earlier(CivilFromDays(a), CivilFromDays(b))
  {
    hide CivilFromDays, DaysFromCivil, DaysInMonth;
    CivilValid(a);
    CivilValid(b);
    if Earlier(CivilFromDays(a), CivilFromDays(b)) {
      DaysMonotone(CivilFromDays(a), CivilFromDays(b));
    } else if Earlier(CivilFromDays(b), CivilFromDays(a)) {
      DaysMonotone(CivilFromDays(b), CivilFromDays(a));
    }
  }
}
