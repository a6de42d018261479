/**
 * Relative date labels for a chat list: a time of day for today, the word
 * "Yesterday", a weekday name, or a short date. A date is a calendar day
 * index and a second within that day; "now" is a parameter.
 */
module RelativeDate {

  const SecondsPerDay := 86400

  type SecondOfDay = s: int | 0 <= s < SecondsPerDay

  /** An instant: the day it falls on and how far into that day it is. */
  datatype Date = Date(day: int, second: SecondOfDay)

  /** Seconds since the epoch (`timeIntervalSince1970`), for a calendar whose days all last 86400 seconds. */
  function Interval(d: Date): (t: int)
    ensures d.day * SecondsPerDay <= t < (d.day + 1) * SecondsPerDay
  {
    d.day * SecondsPerDay + d.second
  }

  /** `isEqualToDate`: two dates are equal when they denote the same instant, which is when they are the same value. */
  function IsEqualToDate(a: Date, b: Date): (same: bool)
    ensures same <==> a == b
  {
    Interval(a) == Interval(b)
  }

  /** `reduced`: the start of the calendar day the date falls on. */
  function Reduced(d: Date): (r: Date)
    ensures Interval(r) % SecondsPerDay == 0
    ensures Interval(r) <= Interval(d) < Interval(r) + SecondsPerDay
  {
    Date(d.day, 0)
  }

  /** `dateByAdding`: the same time of day, `days` calendar days later (earlier when negative). */
  function DateByAdding(d: Date, days: int): (r: Date)
    ensures Interval(r) == Interval(d) + days * SecondsPerDay
  {
    Date(d.day + days, d.second)
  }

  lemma ReducedIsIdempotent(d: Date)
    ensures Reduced(Reduced(d)) == Reduced(d)
  {
  }

  /** Two instants reduce to the same date exactly when they fall on the same calendar day. */
  lemma ReducedEqualIffSameDay(a: Date, b: Date)
    ensures Reduced(a) == Reduced(b) <==> a.day == b.day
  {
  }

  /** `isToday`: the date falls on the same calendar day as now. */
  function IsToday(d: Date, now: Date): (today: bool)
    ensures today <==> Reduced(d) == Reduced(now)
    ensures today <==> d.day == now.day
  {
    IsEqualToDate(Reduced(d), Reduced(now))
  }

  /** `isYesterday`: the date falls on the calendar day before now's. */
  function IsYesterday(d: Date, now: Date): (yesterday: bool)
    ensures yesterday <==> DateByAdding(Reduced(now), -1) == Reduced(d)
    ensures yesterday <==> d.day == now.day - 1
  {
    IsEqualToDate(DateByAdding(Reduced(now), -1), Reduced(d))
  }

  /** The three cached formatters. */
  datatype FormatterStyle =
    | TimeOfDay  // the shared formatter
    | Weekday    // the day formatter
    | ShortDate  // the date formatter

  /** The date pattern each formatter is set up with. */
  function Pattern(style: FormatterStyle): (p: string)
    ensures p == "HH:mm" <==> style == TimeOfDay
    ensures p == "EEEE" <==> style == Weekday
    ensures p == "EE/MM/YY" <==> style == ShortDate
  {
    match style
    case TimeOfDay => "HH:mm"
    case Weekday => "EEEE"
    case ShortDate => "EE/MM/YY"
  }

  /** What `mdString` returns: a date rendered by one of the formatters, or a literal string. */
  datatype Label = Formatted(style: FormatterStyle, date: Date) | Literal(text: string)

  /**
   * `mdString` as written: today gives the time of day, yesterday the word
   * "Yesterday", a day 6 or more days back the short date, and every other
   * day (2 to 5 days back, or any later day) the weekday name.
   */
  function MdString(d: Date, now: Date): (shown: Label)
    ensures shown.Literal? ==> shown.text == "Yesterday"
    ensures shown.Formatted? ==> shown.date == d
    ensures shown == Formatted(TimeOfDay, d) <==> d.day == now.day
    ensures shown == Literal("Yesterday") <==> d.day == now.day - 1
    ensures shown == Formatted(ShortDate, d) <==> d.day <= now.day - 6
    ensures shown == Formatted(Weekday, d) <==> now.day - 6 < d.day < now.day - 1 || now.day < d.day
  {
    if !IsToday(d, now) then
      if IsYesterday(d, now) then
        Literal("Yesterday")
      else if Interval(Reduced(DateByAdding(now, -6))) >= Interval(Reduced(d)) then
        Formatted(ShortDate, d)
      else
        Formatted(Weekday, d)
    else
      Formatted(TimeOfDay, d)
  }

  /** The pattern of the formatter `mdString` picks, or the literal it returns. */
  function Choice(shown: Label): (c: string)
    ensures shown.Formatted? ==> c in {"HH:mm", "EEEE", "EE/MM/YY"}
    ensures shown.Formatted? ==> (c == "EEEE" <==> shown.style == Weekday)
    ensures shown.Literal? ==> c == shown.text
  {
    match shown
    case Formatted(style, _) => Pattern(style)
    case Literal(text) => text
  }

  /** The result depends only on the calendar days of the date and of now, not on the times of day. */
  lemma MdStringIgnoresTimeOfDay(d: Date, e: Date, now: Date, later: Date)
    requires d.day == e.day && now.day == later.day
    ensures Choice(MdString(d, now)) == Choice(MdString(e, later))
  {
  }

  /** A date on the same day as now is shown with the "HH:mm" pattern. */
  lemma TodayShowsTimeOfDay(d: Date, now: Date)
    requires d.day == now.day
    ensures Choice(MdString(d, now)) == "HH:mm"
  {
  }

  /** A date exactly 6 days back already gets the "EE/MM/YY" short date. */
  lemma SixDaysBackShowsShortDate(now: Date)
    ensures Choice(MdString(DateByAdding(now, -6), now)) == "EE/MM/YY"
  {
  }

  /** A date after today gets the "EEEE" weekday name, however far ahead it is. */
  lemma FutureShowsWeekday(d: Date, now: Date)
    requires now.day < d.day
    ensures Choice(MdString(d, now)) == "EEEE"
  {
  }

  /**
   * The result as the documentation of `mdString` describes it: the short
   * date only for a day more than 6 days back, so that 2 to 6 days back
   * get the weekday name.
   */
  function MdStringAsDocumented(d: Date, now: Date): (shown: Label)
    ensures shown == Formatted(TimeOfDay, d) <==> d.day == now.day
    ensures shown == Literal("Yesterday") <==> d.day == now.day - 1
    ensures shown == Formatted(ShortDate, d) <==> d.day < now.day - 6
    ensures shown == Formatted(Weekday, d) <==> now.day - 6 <= d.day < now.day - 1 || now.day < d.day
  {
    if !IsToday(d, now) then
      if IsYesterday(d, now) then
        Literal("Yesterday")
      else if Interval(Reduced(DateByAdding(now, -6))) > Interval(Reduced(d)) then
        Formatted(ShortDate, d)
      else
        Formatted(Weekday, d)
    else
      Formatted(TimeOfDay, d)
  }

  /** Under the documented boundary, a date exactly 6 days back gets its weekday name. */
  lemma SixDaysBackAsDocumented(now: Date)
    ensures Choice(MdStringAsDocumented(DateByAdding(now, -6), now)) == "EEEE"
  {
  }
}
