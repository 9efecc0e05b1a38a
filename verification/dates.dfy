/** Date search values: the Gregorian calendar, adding days and times of
    day with carry, and the helpers that read a date search string
    (`transform_date`) and compute the end of the period it names
    (`date_ceil`). ISO 8601 parsing itself is a collaborator. */
module Dates {
  import opened Values
  import opened Exceptions

  // ---------------------------------------------------------------- the calendar

  /** `calendar.isleap`. */
  predicate IsLeap(y: int)
  {
    y % 4 == 0 && (y % 100 != 0 || y % 400 == 0)
  }

  /** The second result of `calendar.monthrange(y, m)`. */
  function DaysInMonth(y: int, m: int): (n: int)
    requires 1 <= m <= 12
    ensures 28 <= n <= 31
    ensures m == 2 ==> (n == 29 <==> IsLeap(y))
  {
    if m == 2 then (if IsLeap(y) then 29 else 28)
    else if m == 4 || m == 6 || m == 9 || m == 11 then 30
    else 31
  }

  predicate ValidDate(d: Date)
  {
    1 <= d.month <= 12 && 1 <= d.day <= DaysInMonth(d.year, d.month)
  }

  predicate ValidDateTime(t: DateTime)
  {
    ValidDate(t.date) && 0 <= t.hour < 24 && 0 <= t.minute < 60 && 0 <= t.second < 60 &&
    0 <= t.microsecond < 1000000
  }

  predicate ValidTemporal(t: Temporal)
  {
    match t
    case OnDate(d) => ValidDate(d)
    case At(dt) => ValidDateTime(dt)
  }

  /** Chronological order of dates. */
  predicate DateBefore(a: Date, b: Date)
  {
    a.year < b.year || (a.year == b.year && (a.month < b.month || (a.month == b.month && a.day < b.day)))
  }

  /** Seconds since midnight. */
  function SecondOfDay(t: DateTime): int
  {
    t.hour * 3600 + t.minute * 60 + t.second
  }

  /** Chronological order of datetimes. */
  predicate Before(a: DateTime, b: DateTime)
  {
    DateBefore(a.date, b.date) ||
    (a.date == b.date && (SecondOfDay(a) < SecondOfDay(b) ||
      (SecondOfDay(a) == SecondOfDay(b) && a.microsecond < b.microsecond)))
  }

  predicate NotAfter(a: DateTime, b: DateTime)
  {
    Before(a, b) || (a.date == b.date && SecondOfDay(a) == SecondOfDay(b) && a.microsecond == b.microsecond)
  }

  function NextDay(d: Date): (n: Date)
    requires ValidDate(d)
    ensures ValidDate(n) && DateBefore(d, n)
  {
    if d.day < DaysInMonth(d.year, d.month) then Date(d.year, d.month, d.day + 1)
    else if d.month < 12 then Date(d.year, d.month + 1, 1)
    else Date(d.year + 1, 1, 1)
  }

  function PrevDay(d: Date): (p: Date)
    requires ValidDate(d)
    ensures ValidDate(p) && DateBefore(p, d)
  {
    if d.day > 1 then Date(d.year, d.month, d.day - 1)
    else if d.month > 1 then Date(d.year, d.month - 1, DaysInMonth(d.year, d.month - 1))
    else Date(d.year - 1, 12, 31)
  }

  /** Stepping a day forward and back (in either order) returns the same date. */
  lemma NextPrevInverse(d: Date)
    requires ValidDate(d)
    ensures PrevDay(NextDay(d)) == d
    ensures NextDay(PrevDay(d)) == d
  {
  }

  /** `d + timedelta(days=n)`. */
  function AddDays(d: Date, n: int): (r: Date)
    requires ValidDate(d)
    ensures ValidDate(r)
    decreases if n < 0 then -n else n
  {
    if n == 0 then d
    else if n > 0 then AddDays(NextDay(d), n - 1)
    else AddDays(PrevDay(d), n + 1)
  }

  lemma {:induction false} DateBeforeTransitive(a: Date, b: Date, c: Date)
    requires DateBefore(a, b) && DateBefore(b, c)
    ensures DateBefore(a, c)
  {
  }

  /** Adding a positive number of days moves a date forward, a negative
      number moves it back. */
  lemma {:induction false} AddDaysMoves(d: Date, n: int)
    requires ValidDate(d)
    ensures n > 0 ==> DateBefore(d, AddDays(d, n))
    ensures n < 0 ==> DateBefore(AddDays(d, n), d)
    decreases if n < 0 then -n else n
  {
    if n > 1 {
      AddDaysMoves(NextDay(d), n - 1);
      DateBeforeTransitive(d, NextDay(d), AddDays(d, n));
    } else if n < -1 {
      AddDaysMoves(PrevDay(d), n + 1);
      DateBeforeTransitive(AddDays(d, n), PrevDay(d), d);
    }
  }

  /** Within a month, adding days only moves the day of the month. */
  lemma {:induction false} AddDaysInMonth(y: int, m: int, day: int, n: nat)
    requires 1 <= m <= 12 && 1 <= day && day + n <= DaysInMonth(y, m)
    ensures AddDays(Date(y, m, day), n) == Date(y, m, day + n)
    decreases n
  {
    if n > 0 {
      AddDaysInMonth(y, m, day + 1, n - 1);
    }
  }

  /** Of two different valid dates, one is before the other. */
  lemma DateTotal(a: Date, b: Date)
    ensures !DateBefore(a, b) && !DateBefore(b, a) ==> a == b
  {
  }

  /** The dates from January 1 to December 31 of a year are those of that year. */
  lemma WithinYear(d: Date, y: int)
    requires ValidDate(d)
    ensures !DateBefore(d, Date(y, 1, 1)) && !DateBefore(Date(y, 12, 31), d) <==> d.year == y
  {
  }

  /** The dates from the first to the last day of a month are those of that month. */
  lemma WithinMonth(d: Date, y: int, m: int)
    requires ValidDate(d) && 1 <= m <= 12
    ensures !DateBefore(d, Date(y, m, 1)) && !DateBefore(Date(y, m, DaysInMonth(y, m)), d) <==>
            d.year == y && d.month == m
  {
  }

  /** No date lies strictly between a date and the next one. */
  lemma WithinTwoDays(d: Date, e: Date)
    requires ValidDate(d) && ValidDate(e)
    ensures !DateBefore(e, d) && !DateBefore(NextDay(d), e) <==> e == d || e == NextDay(d)
  {
    if !DateBefore(e, d) && !DateBefore(NextDay(d), e) && e != d {
      DateTotal(e, d);
      assert DateBefore(d, e);
      DateTotal(e, NextDay(d));
    }
  }

  /** The first of a month plus (days in month - 1) days is the month's last day. */
  lemma MonthEnd(y: int, m: int)
    requires 1 <= m <= 12
    ensures AddDays(Date(y, m, 1), DaysInMonth(y, m) - 1) == Date(y, m, DaysInMonth(y, m))
  {
    AddDaysInMonth(y, m, 1, DaysInMonth(y, m) - 1);
  }

  /** `dt + timedelta(days=days, seconds=seconds)` for `0 <= seconds < 86400`:
      the time of day wraps at midnight and carries one day. */
  function AddTime(dt: DateTime, days: int, seconds: int): (r: DateTime)
    requires ValidDateTime(dt) && 0 <= seconds < 86400
    ensures ValidDateTime(r) && r.microsecond == dt.microsecond
    ensures SecondOfDay(r) == (SecondOfDay(dt) + seconds) % 86400
    ensures r.date == AddDays(dt.date, days + (SecondOfDay(dt) + seconds) / 86400)
  {
    var total := SecondOfDay(dt) + seconds;
    var carry := total / 86400;
    var tod := total % 86400;
    DateTime(AddDays(dt.date, days + carry), tod / 3600, (tod % 3600) / 60, tod % 60, dt.microsecond)
  }

  /** Midnight of a date (`datetime.combine(d, datetime.min.time())`). */
  function Midnight(d: Date): (r: DateTime)
    ensures r.date == d && SecondOfDay(r) == 0 && r.microsecond == 0
  {
    DateTime(d, 0, 0, 0, 0)
  }

  /** A valid datetime is not before midnight of a date exactly when its
      own date is not before that date. */
  lemma NotBeforeMidnight(x: DateTime, d: Date)
    requires ValidDateTime(x)
    ensures !Before(x, Midnight(d)) <==> !DateBefore(x.date, d)
  {
  }

  /** A valid datetime is not after the last second of a day (at a given
      microsecond) exactly when its date is not after that day and it does
      not fall in that second past that microsecond. */
  lemma NotAfterLastSecond(x: DateTime, e: DateTime)
    requires ValidDateTime(x) && SecondOfDay(e) == 86399
    ensures !Before(e, x) <==>
            !DateBefore(e.date, x.date) && !(x.date == e.date && SecondOfDay(x) == 86399 && x.microsecond > e.microsecond)
  {
  }

  /** A date-only value seen as a datetime, for ordering against datetimes. */
  function AsDateTime(t: Temporal): DateTime
  {
    match t
    case OnDate(d) => Midnight(d)
    case At(dt) => dt
  }

  // ---------------------------------------------------------------- reading date search strings

  datatype RawIsoParser = IsoParser(parseDatetime: string -> Option<DateTime>, parseDate: string -> Option<Date>)

  /** `isodate.parse_datetime` and `isodate.parse_date`: what they return
      is a valid calendar value. */
  type IsoParser = p: RawIsoParser | Sound(p) witness IsoParser(_ => None, _ => None)

  ghost predicate Sound(p: RawIsoParser)
  {
    (forall s :: p.parseDatetime(s).Some? ==> ValidDateTime(p.parseDatetime(s).value)) &&
    (forall s :: p.parseDate(s).Some? ==> ValidDate(p.parseDate(s).value))
  }

  /** `value[2:]`, which is empty for shorter strings. */
  function DropPrefix(s: string): (r: string)
    ensures |s| >= 2 ==> s == s[..2] + r
    ensures |s| < 2 ==> r == ""
  {
    if |s| >= 2 then s[2..] else ""
  }

  /** `utils.transform_date(value, trim, to_datetime)`: drop the two-letter
      prefix when trimming, try a datetime and then a date (widened to
      midnight when `toDatetime`), else QueryValidationError. */
  function TransformDate(iso: IsoParser, value: string, trim: bool, toDatetime: bool): (r: Result<Temporal>)
    ensures r.Ok? ==> ValidTemporal(r.value)
    ensures r.Ok? <==> (var s := if trim then DropPrefix(value) else value;
                        iso.parseDatetime(s).Some? || iso.parseDate(s).Some?)
    ensures r.Err? ==> r.error.QueryValidation?
    ensures toDatetime && r.Ok? ==> r.value.At?
  {
    var s := if trim then DropPrefix(value) else value;
    match iso.parseDatetime(s)
    case Some(dt) => Ok(At(dt))
    case None =>
      match iso.parseDate(s)
      case Some(d) => Ok(if toDatetime then At(Midnight(d)) else OnDate(d))
      case None => Err(QueryValidation(s + " is not a valid ISO date"))
  }

  /** A datetime parse always wins over a date parse. */
  lemma DatetimeFirst(iso: IsoParser, value: string, trim: bool, toDatetime: bool)
    requires iso.parseDatetime(if trim then DropPrefix(value) else value).Some?
    ensures TransformDate(iso, value, trim, toDatetime) == Ok(At(iso.parseDatetime(if trim then DropPrefix(value) else value).value))
  {
  }

  function DateOf(t: Temporal): Date
  {
    match t
    case OnDate(d) => d
    case At(dt) => dt.date
  }

  /** The length `date_ceil` and `get_equality_date_range` dispatch on: the
      string's length, minus two when trimming. */
  function PrecisionLength(value: string, trim: bool): int
  {
    if trim then |value| - 2 else |value|
  }

  /** `utils.date_ceil(value, trim)`: the last moment (at microsecond 59) of
      the year, month, day, hour, minute or second the string names,
      according to its length; any other length gives the parsed value
      itself. Reading the hour of a date-only value is an AttributeError. */
  function DateCeil(iso: IsoParser, value: string, trim: bool): (r: Result<Temporal>)
    ensures r.Ok? ==> ValidTemporal(r.value)
    ensures r.Err? <==> TransformDate(iso, value, trim, false).Err? ||
                        (PrecisionLength(value, trim) in {13, 16, 19} && TransformDate(iso, value, trim, false).value.OnDate?)
  {
    var len := PrecisionLength(value, trim);
    var v :- TransformDate(iso, value, trim, false);
    var d := DateOf(v);
    if len == 4 then Ok(At(DateTime(Date(d.year, 12, 31), 23, 59, 59, 59)))
    else if len == 7 then Ok(At(DateTime(Date(d.year, d.month, DaysInMonth(d.year, d.month)), 23, 59, 59, 59)))
    else if len == 10 then Ok(At(DateTime(d, 23, 59, 59, 59)))
    else if len == 13 || len == 16 || len == 19 then
      match v
      case OnDate(_) => Err(Raised(AttributeError, "'datetime.date' object has no attribute 'hour'"))
      case At(dt) =>
        Ok(At(DateTime(d, dt.hour, if len == 13 then 59 else dt.minute, if len == 19 then dt.second else 59, 59)))
    else Ok(v)
  }

  /** The ceiling never precedes the value it was computed from (when that
      value carries no more than 59 microseconds, as the strings of these
      lengths do not), and it stays in the same year, and in the same
      month from length 7 on. */
  lemma DateCeilNotBefore(iso: IsoParser, value: string, trim: bool)
    requires DateCeil(iso, value, trim).Ok?
    requires AsDateTime(TransformDate(iso, value, trim, false).value).microsecond <= 59
    ensures var v := TransformDate(iso, value, trim, false).value;
            var c := DateCeil(iso, value, trim).value;
            NotAfter(AsDateTime(v), AsDateTime(c)) &&
            DateOf(c).year == DateOf(v).year &&
            (PrecisionLength(value, trim) != 4 ==> DateOf(c).month == DateOf(v).month)
  {
  }

  /** The ceiling of a year (length 4) is the last instant of the value's
      year: an instant of that year that no instant of the year, at
      microsecond 59 or below, comes after. The ceiling of a year and month
      (length 7) is the same for the value's month. Any other length that
      names no period gives the value itself. */
  lemma DateCeilPeriod(iso: IsoParser, value: string, trim: bool)
    requires DateCeil(iso, value, trim).Ok?
    ensures var d := DateOf(TransformDate(iso, value, trim, false).value);
            var c := DateCeil(iso, value, trim).value;
            PrecisionLength(value, trim) == 4 ==>
              c.At? && c.dt.date.year == d.year && c.dt.microsecond == 59 &&
              forall x :: ValidDateTime(x) && x.date.year == d.year && x.microsecond <= 59 ==> NotAfter(x, c.dt)
    ensures var d := DateOf(TransformDate(iso, value, trim, false).value);
            var c := DateCeil(iso, value, trim).value;
            PrecisionLength(value, trim) == 7 ==>
              c.At? && c.dt.date.year == d.year && c.dt.date.month == d.month && c.dt.microsecond == 59 &&
              forall x :: ValidDateTime(x) && x.date.year == d.year && x.date.month == d.month && x.microsecond <= 59 ==> NotAfter(x, c.dt)
    ensures PrecisionLength(value, trim) !in {4, 7, 10, 13, 16, 19} ==>
              DateCeil(iso, value, trim) == TransformDate(iso, value, trim, false)
  {
    var v := TransformDate(iso, value, trim, false).value;
    var d := DateOf(v);
    var c := DateCeil(iso, value, trim).value;
    var len := PrecisionLength(value, trim);
    if len == 4 {
      forall x | ValidDateTime(x) && x.date.year == d.year && x.microsecond <= 59
        ensures NotAfter(x, c.dt)
      {
        NotAfterDayEnd(x, Date(d.year, 12, 31));
      }
    } else if len == 7 {
      assert ValidDate(d);
      forall x | ValidDateTime(x) && x.date.year == d.year && x.date.month == d.month && x.microsecond <= 59
        ensures NotAfter(x, c.dt)
      {
        NotAfterDayEnd(x, Date(d.year, d.month, DaysInMonth(d.year, d.month)));
      }
    }
  }

  /** An instant at microsecond 59 or below on a day not after `e` is not
      after 23:59:59 (microsecond 59) of `e`. */
  lemma NotAfterDayEnd(x: DateTime, e: Date)
    requires ValidDateTime(x) && x.microsecond <= 59 && !DateBefore(e, x.date)
    ensures NotAfter(x, DateTime(e, 23, 59, 59, 59))
  {
    if x.date != e {
      assert DateBefore(x.date, e);
    }
  }

  /** Lengths 10 to 19 keep the day; 13 to 19 also keep the hour, 16 and 19
      the minute, 19 the second; the fields below are filled with their
      largest value (and microsecond 59). */
  lemma DateCeilKeepsGivenFields(iso: IsoParser, value: string, trim: bool)
    requires DateCeil(iso, value, trim).Ok?
    requires PrecisionLength(value, trim) in {10, 13, 16, 19}
    ensures var v := TransformDate(iso, value, trim, false).value;
            var c := DateCeil(iso, value, trim).value;
            var len := PrecisionLength(value, trim);
            c.At? && c.dt.date == DateOf(v) && c.dt.microsecond == 59 &&
            c.dt.hour == (if len == 10 then 23 else v.dt.hour) &&
            c.dt.minute == (if len <= 13 then 59 else v.dt.minute) &&
            c.dt.second == (if len <= 16 then 59 else v.dt.second)
  {
  }
}
