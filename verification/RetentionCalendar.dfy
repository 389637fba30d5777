/** Retention arithmetic of src/knowledge/personal-context-ingestion.ts over the proleptic Gregorian
  * calendar. Days, years and months follow the ECMAScript date operations the source calls: a date
  * that does not exist in its month runs over into the next one.
  */
module RetentionCalendar {
  import opened Wrappers

  const MS_PER_DAY: int := 86_400_000
  /** The largest magnitude of a valid ECMAScript time value. */
  const MAX_TIME: int := 8_640_000_000_000_000
  const MAX_SAFE_INTEGER: int := 9_007_199_254_740_991
  const RAW_STAGING_DAYS: int := 30

  datatype RetentionUnit = Days | Weeks | Months | Years
  datatype RetentionClass = RetentionClass(count: int, unit: RetentionUnit)
  datatype RetentionError = InvalidTimestamp | NotPositive | InvalidDate | ExceedsMaximum

  /** A calendar date; months count from zero. */
  datatype CivilDate = CivilDate(year: int, month: int, date: int) {
    predicate Valid() {
      0 <= month < 12 && 1 <= date <= DaysInMonth(year, month)
    }
  }

  predicate IsLeapYear(year: int) {
    year % 4 == 0 && (year % 100 != 0 || year % 400 == 0)
  }

  function DaysInMonth(year: int, month: int): (days: int)
    requires 0 <= month < 12
    ensures 28 <= days <= 31
  {
    if month == 1 then (if IsLeapYear(year) then 29 else 28)
    else if month == 3 || month == 5 || month == 8 || month == 10 then 30
    else 31
  }

  /** The day number of 1 January. */
  function DayFromYear(year: int): int {
    365 * (year - 1970) + (year - 1969) / 4 - (year - 1901) / 100 + (year - 1601) / 400
  }

  function DaysBeforeMonth(year: int, month: int): (days: int)
    requires 0 <= month < 12
  {
    if month == 0 then 0 else DaysBeforeMonth(year, month - 1) + DaysInMonth(year, month - 1)
  }

  /** The day number of a date whose month may lie outside its year and whose date may lie outside
    * its month. */
  function MakeDay(year: int, month: int, date: int): int {
    DayFromYear(year + month / 12) + DaysBeforeMonth(year + month / 12, month % 12) + date - 1
  }

  /** The last year that begins on or before a day, searched upwards from one that does. */
  function YearFrom(day: int, guess: int): (year: int)
    requires DayFromYear(guess) <= day
    ensures DayFromYear(year) <= day < DayFromYear(year + 1)
    decreases day - DayFromYear(guess)
  {
    YearLength(guess);
    if DayFromYear(guess + 1) <= day then YearFrom(day, guess + 1) else guess
  }

  /** The last month of a year that begins on or before a day of that year. */
  function MonthFrom(day: int, year: int, guess: int): (month: int)
    requires 0 <= guess < 12
    requires DayFromYear(year) + DaysBeforeMonth(year, guess) <= day < DayFromYear(year + 1)
    ensures 0 <= month < 12
    ensures 0 <= day - DayFromYear(year) - DaysBeforeMonth(year, month) < DaysInMonth(year, month)
    decreases 12 - guess
  {
    if day < DayFromYear(year) + DaysBeforeMonth(year, guess) + DaysInMonth(year, guess) then guess
    else
      YearLength(year);
      MonthLengths(year);
      MonthFrom(day, year, guess + 1)
  }

  /** The calendar date of a day number. */
  function CivilFromDay(day: int): (civil: CivilDate)
    ensures civil.Valid()
    ensures MakeDay(civil.year, civil.month, civil.date) == day
  {
    var guess := 1970 + (if day >= 0 then day / 366 else day / 365);
    FirstGuess(day);
    var year := YearFrom(day, guess);
    var month := MonthFrom(day, year, 0);
    MakeDayWithinYear(year, month, day - DayFromYear(year) - DaysBeforeMonth(year, month) + 1);
    CivilDate(year, month, day - DayFromYear(year) - DaysBeforeMonth(year, month) + 1)
  }

  /** A civil date, moved by a class. */
  function MovedCivil(civil: CivilDate, class_: RetentionClass): int {
    match class_.unit
    case Days => MakeDay(civil.year, civil.month, civil.date + class_.count)
    case Weeks => MakeDay(civil.year, civil.month, civil.date + class_.count * 7)
    case Months => MakeDay(civil.year, civil.month + class_.count, civil.date)
    case Years => MakeDay(civil.year + class_.count, civil.month, civil.date)
  }

  /** The day a class moves a capture day to, before any limit is applied. */
  function MovedDay(day: int, class_: RetentionClass): int {
    MovedCivil(CivilFromDay(day), class_)
  }

  /** Only the date moves; the time of day stays. */
  function Shifted(timestamp: int, class_: RetentionClass): int {
    MovedDay(timestamp / MS_PER_DAY, class_) * MS_PER_DAY + timestamp % MS_PER_DAY
  }

  /** An instant past the largest time value reads as invalid: the excess comparison is then false,
    * and rendering the date is what throws. */
  function AddRetention(timestamp: int, class_: RetentionClass): Result<int, RetentionError> {
    if !(-MAX_TIME <= timestamp <= MAX_TIME) then Err(InvalidTimestamp)
    else if !(0 < class_.count <= MAX_SAFE_INTEGER) then Err(NotPositive)
    else
      var moved := Shifted(timestamp, class_);
      if !(-MAX_TIME <= moved <= MAX_TIME) then Err(InvalidDate)
      else if moved - timestamp > RAW_STAGING_DAYS * MS_PER_DAY then Err(ExceedsMaximum)
      else Ok(moved)
  }

  lemma MakeDayWithinYear(year: int, month: int, date: int)
    requires 0 <= month < 12
    ensures MakeDay(year, month, date) == DayFromYear(year) + DaysBeforeMonth(year, month) + date - 1
  {
    assert month / 12 == 0 && month % 12 == month;
  }

  lemma FourYears(year: int)
    ensures (year - 1968) / 4 - (year - 1969) / 4 == if year % 4 == 0 then 1 else 0
  {
  }

  lemma HundredYears(year: int)
    ensures (year - 1900) / 100 - (year - 1901) / 100 == if year % 100 == 0 then 1 else 0
  {
  }

  lemma FourHundredYears(year: int)
    ensures (year - 1600) / 400 - (year - 1601) / 400 == if year % 400 == 0 then 1 else 0
  {
  }

  lemma MultiplesNest(year: int)
    ensures year % 400 == 0 ==> year % 100 == 0
    ensures year % 100 == 0 ==> year % 4 == 0
  {
    if year % 400 == 0 {
      var quotient := year / 400;
      assert year == 400 * quotient;
      assert year == 100 * (4 * quotient);
    }
    if year % 100 == 0 {
      var quotient := year / 100;
      assert year == 100 * quotient;
      assert year == 4 * (25 * quotient);
    }
  }

  lemma YearLength(year: int)
    ensures DayFromYear(year + 1) - DayFromYear(year) == if IsLeapYear(year) then 366 else 365
  {
    FourYears(year);
    HundredYears(year);
    FourHundredYears(year);
    MultiplesNest(year);
  }

  lemma MonthLengths(year: int)
    ensures DaysBeforeMonth(year, 11) + DaysInMonth(year, 11) == if IsLeapYear(year) then 366 else 365
  {
    var february := DaysInMonth(year, 1);
    assert DaysBeforeMonth(year, 1) == 31;
    assert DaysBeforeMonth(year, 2) == 31 + february;
    assert DaysBeforeMonth(year, 3) == 62 + february;
    assert DaysBeforeMonth(year, 4) == 92 + february;
    assert DaysBeforeMonth(year, 5) == 123 + february;
    assert DaysBeforeMonth(year, 6) == 153 + february;
    assert DaysBeforeMonth(year, 7) == 184 + february;
    assert DaysBeforeMonth(year, 8) == 215 + february;
    assert DaysBeforeMonth(year, 9) == 245 + february;
    assert DaysBeforeMonth(year, 10) == 276 + february;
    assert DaysBeforeMonth(year, 11) == 306 + february;
  }

  lemma FirstGuess(day: int)
    ensures DayFromYear(1970 + (if day >= 0 then day / 366 else day / 365)) <= day
  {
    if day >= 0 {
      assert 366 * (day / 366) <= day;
    } else {
      assert 365 * (day / 365) <= day;
    }
  }

  /** A step of one month crosses exactly the month it starts in, whatever the date in it. */
  lemma MonthStep(year: int, month: int, date: int)
    ensures MakeDay(year, month + 1, date) - MakeDay(year, month, date)
            == DaysInMonth(year + month / 12, month % 12)
  {
    var y, m := year + month / 12, month % 12;
    if m < 11 {
      assert (month + 1) / 12 == month / 12 && (month + 1) % 12 == m + 1;
    } else {
      assert (month + 1) / 12 == month / 12 + 1 && (month + 1) % 12 == 0;
      YearLength(y);
      MonthLengths(y);
    }
  }

  lemma {:induction false} MonthsAdvance(year: int, month: int, date: int, count: nat)
    ensures MakeDay(year, month + count, date) - MakeDay(year, month, date) >= 28 * count
  {
    if count > 0 {
      MonthsAdvance(year, month, date, count - 1);
      MonthStep(year, month + count - 1, date);
    }
  }

  lemma {:induction false} YearsAdvance(year: int, month: int, date: int, count: nat)
    requires 0 <= month < 12
    ensures MakeDay(year + count, month, date) - MakeDay(year, month, date) >= 365 * count - 1
  {
    YearStartsAdvance(year, count);
    LeapDayOnly(year, year + count, month);
  }

  lemma {:induction false} YearStartsAdvance(year: int, count: nat)
    ensures DayFromYear(year + count) - DayFromYear(year) >= 365 * count
  {
    if count > 0 {
      YearStartsAdvance(year, count - 1);
      YearLength(year + count - 1);
    }
  }

  lemma {:induction false} LeapDayOnly(left: int, right: int, month: int)
    requires 0 <= month < 12
    ensures DaysBeforeMonth(right, month) >= DaysBeforeMonth(left, month) - if month < 2 then 0 else 1
  {
    if month > 0 {
      LeapDayOnly(left, right, month - 1);
    }
  }

  /** No two calendar dates share a day number, so the calendar date of a day is the only one. */
  lemma CivilDatesAreDistinct(left: CivilDate, right: CivilDate)
    requires left.Valid() && right.Valid()
    requires MakeDay(left.year, left.month, left.date) == MakeDay(right.year, right.month, right.date)
    ensures left == right
  {
    if left.year * 12 + left.month < right.year * 12 + right.month {
      EarlierMonthEndsFirst(left, right);
    } else if right.year * 12 + right.month < left.year * 12 + left.month {
      EarlierMonthEndsFirst(right, left);
    } else {
      assert left.year == right.year;
    }
  }

  lemma EarlierMonthEndsFirst(early: CivilDate, late: CivilDate)
    requires early.Valid() && late.Valid()
    requires early.year * 12 + early.month < late.year * 12 + late.month
    ensures MakeDay(early.year, early.month, early.date) < MakeDay(late.year, late.month, late.date)
  {
    var months := (late.year - early.year) * 12 + late.month - early.month;
    calc {
      MakeDay(early.year, early.month, early.date);
    ==  { DateAdvances(early.year, early.month, 1, early.date - 1); }
      MakeDay(early.year, early.month, 1) + early.date - 1;
    <   { assert early.month / 12 == 0 && early.month % 12 == early.month; }
      MakeDay(early.year, early.month, 1) + DaysInMonth(early.year + early.month / 12, early.month % 12);
    ==  { MonthStep(early.year, early.month, 1); }
      MakeDay(early.year, early.month + 1, 1);
    <=  { MonthsAdvance(early.year, early.month + 1, 1, months - 1); }
      MakeDay(early.year, early.month + 1 + (months - 1), 1);
    ==  { SameMonth(early.year, early.month + 1 + (months - 1), late.year, late.month, 1); }
      MakeDay(late.year, late.month, 1);
    <=  { DateAdvances(late.year, late.month, 1, late.date - 1); }
      MakeDay(late.year, late.month, late.date);
    }
  }

  lemma DateAdvances(year: int, month: int, date: int, count: int)
    ensures MakeDay(year, month, date + count) == MakeDay(year, month, date) + count
  {
  }

  lemma SameMonth(year: int, month: int, otherYear: int, otherMonth: int, date: int)
    requires 0 <= otherMonth < 12
    requires year * 12 + month == otherYear * 12 + otherMonth
    ensures MakeDay(year, month, date) == MakeDay(otherYear, otherMonth, date)
  {
    assert month == (otherYear - year) * 12 + otherMonth;
    assert month / 12 == otherYear - year && month % 12 == otherMonth;
    MakeDayWithinYear(otherYear, otherMonth, date);
  }

  /** The days a class may grant a capture: at most thirty days or four weeks, one month when the
    * capture falls in a month of at most thirty days, and no number of years. */
  function GrantedDays(day: int, class_: RetentionClass): Option<int> {
    var civil := CivilFromDay(day);
    var monthDays := DaysInMonth(civil.year, civil.month);
    if class_.count < 1 then None
    else match class_.unit
      case Days => if class_.count <= 30 then Some(class_.count) else None
      case Weeks => if class_.count <= 4 then Some(7 * class_.count) else None
      case Months => if class_.count == 1 && monthDays <= 30 then Some(monthDays) else None
      case Years => None
  }

  /** A shift by months fits in thirty days only for one month of at most thirty days. */
  lemma MonthsSpan(civil: CivilDate, count: int)
    requires civil.Valid() && count >= 1
    ensures var span := MakeDay(civil.year, civil.month + count, civil.date)
                        - MakeDay(civil.year, civil.month, civil.date);
            if count == 1 then span == DaysInMonth(civil.year, civil.month) else span > 30
  {
    assert civil.month / 12 == 0 && civil.month % 12 == civil.month;
    MonthStep(civil.year, civil.month, civil.date);
    MonthsAdvance(civil.year, civil.month, civil.date, count);
  }

  lemma MovedCivilSpan(civil: CivilDate, class_: RetentionClass)
    requires civil.Valid() && class_.count >= 1
    ensures var span := MovedCivil(civil, class_) - MakeDay(civil.year, civil.month, civil.date);
            match class_.unit
            case Days => span == class_.count
            case Weeks => span == 7 * class_.count
            case Months => (if class_.count == 1 then span == DaysInMonth(civil.year, civil.month) else span > 30)
            case Years => span > 30
  {
    match class_.unit
    case Days => DateAdvances(civil.year, civil.month, civil.date, class_.count);
    case Weeks => DateAdvances(civil.year, civil.month, civil.date, class_.count * 7);
    case Months => MonthsSpan(civil, class_.count);
    case Years => YearsAdvance(civil.year, civil.month, civil.date, class_.count);
  }

  /** What every class does to the calendar, before the limit. */
  lemma MovedDaySpan(day: int, class_: RetentionClass)
    requires class_.count >= 1
    ensures match GrantedDays(day, class_)
            case Some(days) => days <= 30 && MovedDay(day, class_) == day + days
            case None => MovedDay(day, class_) > day + 30
  {
    MovedCivilSpan(CivilFromDay(day), class_);
  }

  lemma ShiftedByDays(timestamp: int, class_: RetentionClass, days: int)
    ensures MovedDay(timestamp / MS_PER_DAY, class_) == timestamp / MS_PER_DAY + days ==> Shifted(timestamp, class_) == timestamp + days * MS_PER_DAY
    ensures MovedDay(timestamp / MS_PER_DAY, class_) > timestamp / MS_PER_DAY + days ==> Shifted(timestamp, class_) > timestamp + days * MS_PER_DAY
  {
    assert timestamp == timestamp / MS_PER_DAY * MS_PER_DAY + timestamp % MS_PER_DAY;
  }

  /** `addRetention` succeeds exactly on the granted classes whose end is still a valid time, and
    * then ends exactly the granted days later: never more than thirty. */
  lemma RetentionIsExactlyTheGrantedDays(timestamp: int, class_: RetentionClass, end: int)
    requires -MAX_TIME <= timestamp <= MAX_TIME && class_.count <= MAX_SAFE_INTEGER
    ensures AddRetention(timestamp, class_) == Ok(end) <==>
            GrantedDays(timestamp / MS_PER_DAY, class_).Some? && end <= MAX_TIME &&
            end == timestamp + GrantedDays(timestamp / MS_PER_DAY, class_).value * MS_PER_DAY
    ensures AddRetention(timestamp, class_) == Ok(end) ==>
            timestamp < end <= timestamp + RAW_STAGING_DAYS * MS_PER_DAY
  {
    if class_.count >= 1 {
      var granted := GrantedDays(timestamp / MS_PER_DAY, class_);
      MovedDaySpan(timestamp / MS_PER_DAY, class_);
      ShiftedByDays(timestamp, class_, if granted.Some? then granted.value else RAW_STAGING_DAYS);
    }
  }
}
