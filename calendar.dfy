/**
 * Python `datetime` arithmetic on the proleptic Gregorian calendar. A point
 * in time is a count of seconds since 0001-01-01 00:00:00, the origin of
 * Python's date ordinals; `timedelta` arithmetic is integer arithmetic on
 * that count.
 */
module Calendar {

  const SecondsPerDay: int := 86400

  /** The smallest and largest year a Python `datetime` accepts. */
  const MinYear: int := 1
  const MaxYear: int := 9999

  predicate IsLeap(year: int) {
    year % 4 == 0 && (year % 100 != 0 || year % 400 == 0)
  }

  function DaysInYear(year: int): int {
    if IsLeap(year) then 366 else 365
  }

  function DaysInMonth(year: int, month: int): int
    requires 1 <= month <= 12
  {
    if month == 2 then (if IsLeap(year) then 29 else 28)
    else if month == 4 || month == 6 || month == 9 || month == 11 then 30
    else 31
  }

  /** Days in the years before `year`, counted from year 1. */
  function DaysBeforeYear(year: int): int
    requires year >= 1
  {
    var y := year - 1;
    y * 365 + y / 4 - y / 100 + y / 400
  }

  /** Days in the months of `year` before `month`. */
  function DaysBeforeMonth(year: int, month: int): int
    requires 1 <= month <= 12
  {
    [0, 31, 59, 90, 120, 151, 181, 212, 243, 273, 304, 334][month - 1]
      + (if month > 2 && IsLeap(year) then 1 else 0)
  }

  /** A naive Python `datetime` (no time zone), to the second. */
  datatype DateTime = DateTime(year: int, month: int, day: int, hour: int, minute: int, second: int)
  {
    /** The field ranges the `datetime` constructor enforces. */
    predicate Valid() {
      && MinYear <= year <= MaxYear
      && 1 <= month <= 12
      && 1 <= day <= DaysInMonth(year, month)
      && 0 <= hour < 24 && 0 <= minute < 60 && 0 <= second < 60
    }

    /** Seconds since 0001-01-01 00:00:00. */
    function Seconds(): int
      requires Valid()
    {
      (DaysBeforeYear(year) + DaysBeforeMonth(year, month) + day - 1) * SecondsPerDay
        + hour * 3600 + minute * 60 + second
    }
  }

  /** `datetime(year, 1, 1)`. */
  function NewYear(year: int): DateTime {
    DateTime(year, 1, 1, 0, 0, 0)
  }

  /** `datetime(year, 12, 31, 23, 59, 59)`. */
  function NewYearsEve(year: int): DateTime {
    DateTime(year, 12, 31, 23, 59, 59)
  }

  lemma DaysBeforeMonthBounds(year: int, month: int)
    requires 1 <= month <= 12
    ensures 0 <= DaysBeforeMonth(year, month)
    ensures DaysBeforeMonth(year, month) + DaysInMonth(year, month) <= DaysInYear(year)
    ensures month == 12 ==> DaysBeforeMonth(year, month) + DaysInMonth(year, month) == DaysInYear(year)
  {
  }

  /** Passing from `year - 1` to `year` adds one multiple of 4, 100 or 400 exactly when `year` is one. */
  lemma MultiplesStep(year: int)
    requires year >= 1
    ensures (year - 1) / 4 + (if year % 4 == 0 then 1 else 0) == year / 4
    ensures (year - 1) / 100 + (if year % 100 == 0 then 1 else 0) == year / 100
    ensures (year - 1) / 400 + (if year % 400 == 0 then 1 else 0) == year / 400
    ensures year % 100 == 0 ==> year % 4 == 0
    ensures year % 400 == 0 ==> year % 100 == 0
  {
  }

  lemma {:induction false} DaysBeforeYearStep(year: int)
    requires year >= 1
    ensures DaysBeforeYear(year + 1) == DaysBeforeYear(year) + DaysInYear(year)
  {
    MultiplesStep(year);
    assert DaysInYear(year) == 365 + (if year % 4 == 0 then 1 else 0) - (if year % 100 == 0 then 1 else 0) + (if year % 400 == 0 then 1 else 0);
  }

  /** The first second of a year sits at or before every moment of that year. */
  lemma NewYearIsFirst(d: DateTime)
    requires d.Valid()
    ensures NewYear(d.year).Valid() && NewYear(d.year).Seconds() <= d.Seconds()
  {
    DaysBeforeMonthBounds(d.year, d.month);
  }

  /** From `datetime(y, 1, 1)` to `datetime(y, 12, 31, 23, 59, 59)` is the whole year: 365 or 366 days. */
  lemma YearLength(year: int)
    requires MinYear <= year <= MaxYear
    ensures NewYear(year).Valid() && NewYearsEve(year).Valid()
    ensures NewYearsEve(year).Seconds() + 1 - NewYear(year).Seconds() == DaysInYear(year) * SecondsPerDay
  {
    DaysBeforeMonthBounds(year, 12);
  }

  /** One second after `datetime(y, 12, 31, 23, 59, 59)` is `datetime(y + 1, 1, 1)`: consecutive years tile the time line. */
  lemma YearsAdjoin(year: int)
    requires MinYear <= year < MaxYear
    ensures NewYearsEve(year).Valid() && NewYear(year + 1).Valid()
    ensures NewYearsEve(year).Seconds() + 1 == NewYear(year + 1).Seconds()
  {
    DaysBeforeMonthBounds(year, 12);
    DaysBeforeYearStep(year);
  }

  /**
   * An aware or naive Python `datetime`: `local` is the wall-clock time in
   * seconds since 0001-01-01 00:00:00, `zone` its UTC offset
   * (`None` for a naive value).
   */
  datatype Moment = Moment(local: int, zone: Zone)

  /** `tzinfo`: absent, or a fixed offset east of UTC in seconds. */
  datatype Zone = Naive | Offset(seconds: int)

  /** The instant an aware moment denotes, on the UTC scale. */
  function Instant(m: Moment): int
    requires m.zone.Offset?
  {
    m.local - m.zone.seconds
  }

  predicate IsUtc(m: Moment) {
    m.zone == Offset(0)
  }
}
