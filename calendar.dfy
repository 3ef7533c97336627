/*
 * Dates as the follow-up queries see them: a DATE is a day number, a
 * DATETIME (NOW(), obs values, encounter times) a day plus a second of that
 * day. Month arithmetic (ADDDATE ... INTERVAL n MONTH, the first day of a
 * month, LAST_DAY) is left abstract: a calendar is any triple of functions
 * obeying the laws the queries rely on.
 */
module Calendar {
  /** A DATE, as a number of days from a fixed origin. */
  type Day = int

  const SecondsPerDay: int := 86400

  /** A DATETIME: a day and the second within it. */
  datatype Moment = Moment(day: Day, second: int)

  predicate ValidMoment(m: Moment) {
    0 <= m.second < SecondsPerDay
  }

  /** A DATE compared with a DATETIME is taken at midnight of that day. */
  function AtMidnight(d: Day): Moment {
    Moment(d, 0)
  }

  /** DATETIME ordering: by day, then by second. */
  predicate Later(a: Moment, b: Moment) {
    a.day > b.day || (a.day == b.day && a.second > b.second)
  }

  predicate NotLater(a: Moment, b: Moment) {
    !Later(a, b)
  }

  /** ADDDATE(d, INTERVAL n MONTH), the first day of d's month, and LAST_DAY(d). */
  datatype MonthCalendar = MonthCalendar(
    addMonths: (Day, int) -> Day,
    firstOfMonth: Day -> Day,
    lastOfMonth: Day -> Day)

  /** The laws of month arithmetic the queries depend on. */
  ghost predicate Lawful(cal: MonthCalendar) {
    (forall d: Day :: cal.firstOfMonth(d) <= d <= cal.lastOfMonth(d)) &&
    (forall d: Day, e: Day, n: int :: d <= e ==> cal.addMonths(d, n) <= cal.addMonths(e, n)) &&
    (forall d: Day, n: int :: n > 0 ==> cal.addMonths(d, n) > d) &&
    (forall d: Day, n: int :: n < 0 ==> cal.addMonths(d, n) < d)
  }

  /**
   * The "passed" column: 0 when the appointment DATE is later than NOW(),
   * 1 when it is today's DATE, 2 otherwise.
   */
  function Passed(appointment: Day, now: Moment): int {
    if Later(AtMidnight(appointment), now) then 0
    else if appointment == now.day then 1
    else 2
  }

  /** Comparing the DATE with the DATETIME NOW() amounts to comparing days: future, today, past. */
  lemma PassedByDay(appointment: Day, now: Moment)
    requires ValidMoment(now)
    ensures Passed(appointment, now) == 0 <==> appointment > now.day
    ensures Passed(appointment, now) == 1 <==> appointment == now.day
    ensures Passed(appointment, now) == 2 <==> appointment < now.day
  {
    if appointment == now.day {
      assert !Later(AtMidnight(appointment), now);
    }
  }

  /** Within the current month: BETWEEN the first of the month and LAST_DAY(NOW()). */
  predicate InCurrentMonth(cal: MonthCalendar, d: Day, today: Day) {
    cal.firstOfMonth(today) <= d <= cal.lastOfMonth(today)
  }

  /** Before the current month, but no earlier than three months before its first day. */
  predicate InMissedWindow(cal: MonthCalendar, d: Day, today: Day) {
    var first := cal.firstOfMonth(today);
    cal.addMonths(first, -3) <= d < first
  }

  /** Whole units of `unit` days from `from` to `to`: FLOOR(DATEDIFF(to, from) / unit). */
  function WholeUnits(from: Day, to: Day, unit: int): (r: int)
    requires unit > 0
    ensures r * unit <= to - from < (r + 1) * unit
  {
    (to - from) / unit
  }
}
