/**
 * Date arithmetic on day numbers. Parsing and printing dates belong to a date library that is not
 * modelled; it is passed in as a `Calendar`, together with the current local date.
 */
module Dates {
  import opened Wrappers
  import opened Strings

  /**
   * The date collaborators: `today` is `datetime.date.today()` in the bot's time zone; `parse` is
   * `dateutil.parser.parse(s).date()` (`None` where it raises `ValueError`); `parseIso` is
   * `datetime.strptime(s, '%Y-%m-%d').date()` (`None` where it raises); `format` is
   * `strftime('%Y-%m-%d')` (`None` where it raises `ValueError`, as Python 2.7 does for a year
   * before 1900). Every date is a day number: consecutive days differ by one.
   */
  datatype Calendar = Calendar(
    today: int,
    parse: string -> Option<int>,
    parseIso: string -> Option<int>,
    format: int -> Option<string>)

  /** `day` can be printed, and parsing the text again gives back `day`. */
  predicate FormatParsesBack(cal: Calendar, day: int) {
    cal.format(day).Some? && cal.parse(cal.format(day).value) == Some(day)
  }

  /** `get_day_difference(later, earlier)`: the number of days between two dates, in either order. */
  function GetDayDifference(cal: Calendar, later: string, earlier: string): (r: Result<nat, PyError>)
    ensures r.Success? <==> cal.parse(later).Some? && cal.parse(earlier).Some?
    ensures r.Success? ==>
              (r.value == cal.parse(later).value - cal.parse(earlier).value ||
               r.value == cal.parse(earlier).value - cal.parse(later).value)
  {
    match (cal.parse(later), cal.parse(earlier))
    case (Some(a), Some(b)) => Success(if a >= b then a - b else b - a)
    case _ => Failure(ValueError)
  }

  /**
   * `add_days(date, n)`: the date `n` days after `date`, printed as `YYYY-MM-DD`. It raises
   * `ValueError` when the date cannot be read or the new date cannot be printed.
   */
  function AddDays(cal: Calendar, date: string, n: int): (r: Result<string, PyError>)
    ensures r.Success? <==> cal.parse(date).Some? && cal.format(cal.parse(date).value + n).Some?
    ensures r.Success? ==> Some(r.value) == cal.format(cal.parse(date).value + n)
    ensures r.Failure? ==> r.error == ValueError
  {
    match cal.parse(date)
    case None => Failure(ValueError)
    case Some(d) =>
      match cal.format(d + n)
      case None => Failure(ValueError)
      case Some(printed) => Success(printed)
  }

  /** The difference does not depend on which date is given first. */
  lemma DayDifferenceSymmetric(cal: Calendar, a: string, b: string)
    ensures GetDayDifference(cal, a, b) == GetDayDifference(cal, b, a)
  {
  }

  /** Two parseable dates are zero days apart exactly when they are the same day. */
  lemma DayDifferenceZeroIffSameDay(cal: Calendar, a: string, b: string)
    requires cal.parse(a).Some? && cal.parse(b).Some?
    ensures GetDayDifference(cal, a, b) == Success(0) <==> cal.parse(a) == cal.parse(b)
  {
  }

  /**
   * Adding `n >= 0` days reads back as the day `n` days later, and the distance back to the start
   * is `n`, provided the new date can be printed and the library reads its own output back.
   */
  lemma AddDaysThenDifference(cal: Calendar, date: string, n: nat)
    requires cal.parse(date).Some?
    requires FormatParsesBack(cal, cal.parse(date).value + n)
    ensures AddDays(cal, date, n).Success?
    ensures cal.parse(AddDays(cal, date, n).value) == Some(cal.parse(date).value + n)
    ensures GetDayDifference(cal, AddDays(cal, date, n).value, date) == Success(n)
  {
  }
}
