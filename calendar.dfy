/**
 * The proleptic Gregorian calendar behind DateTime: days counted from
 * 0001-01-01, their year/month/day form, the "yyyy-MM-dd" format and AddYears.
 */
module Calendar {
  import opened Text

  datatype CivilDate = CivilDate(year: int, month: int, day: int)

  /** The civil date of a day number (days since 0001-01-01), by eras of 400 years starting each March. */
  function CivilFromDays(days: int): CivilDate {
    var z := days + 306;
    var era := z / 146097;
    var doe := z - era * 146097;
    var yoe := (doe - doe / 1460 + doe / 36524 - doe / 146096) / 365;
    var doy := doe - (365 * yoe + yoe / 4 - yoe / 100);
    var mp := (5 * doy + 2) / 153;
    var d := doy - (153 * mp + 2) / 5 + 1;
    var m := if mp < 10 then mp + 3 else mp - 9;
    CivilDate(yoe + era * 400 + (if m <= 2 then 1 else 0), m, d)
  }

  /** The day number of a civil date; the inverse of CivilFromDays. */
  function DaysFromCivil(c: CivilDate): int {
    var y := if c.month <= 2 then c.year - 1 else c.year;
    var era := y / 400;
    var yoe := y - era * 400;
    var mp := if c.month > 2 then c.month - 3 else c.month + 9;
    var doy := (153 * mp + 2) / 5 + c.day - 1;
    era * 146097 + yoe * 365 + yoe / 4 - yoe / 100 + doy - 306
  }

  predicate IsLeapYear(year: int) {
    year % 4 == 0 && (year % 100 != 0 || year % 400 == 0)
  }

  /** The "yyyy-MM-dd" rendering of a day number. */
  function DateText(day: int): string {
    var c := CivilFromDays(day);
    PadDigits(if c.year < 0 then 0 else c.year, 4) + "-" + PadDigits(if c.month < 0 then 0 else c.month, 2)
      + "-" + PadDigits(if c.day < 0 then 0 else c.day, 2)
  }

  /**
   * DateTime.AddYears on a day number: the same month and day in the shifted year,
   * with 29 February becoming 28 February when the target year is not a leap year.
   */
  function AddYearsToDay(day: int, years: int): int {
    var c := CivilFromDays(day);
    var target := c.year + years;
    DaysFromCivil(CivilDate(target, c.month, if c.month == 2 && c.day == 29 && !IsLeapYear(target) then 28 else c.day))
  }
}
