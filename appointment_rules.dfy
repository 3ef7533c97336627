/*
 * The appointment lists: mothers and children whose next monthly visit falls
 * in the current month ("upcoming") or in the three months before it
 * ("missed"). The next visit is one month after the last visit; a child
 * never seen is expected one month after birth.
 */
module AppointmentRules {
  import opened Common
  import opened Calendar
  import opened Visits
  import opened ChildFollowupRules

  /** A ptme_mother_followup row with its visits and the mother's phone observations. */
  datatype MotherFollowup = MotherFollowup(
    voided: bool,
    pregnancyOutcome: Option<int>,
    visits: seq<Visit>,
    landline: Option<string>,
    mobile: Option<string>)

  /** A row of a mother appointment list (MotherFollowupAppointment). */
  datatype MotherAppointment = MotherAppointment(
    lastVisitDate: Day,
    numberOfVisit: Option<nat>,
    appointmentDate: Day,
    passed: Option<int>,
    contact: Option<string>)

  /** One month after a visit. */
  function NextVisit(cal: MonthCalendar, visit: Day): Day {
    cal.addMonths(visit, 1)
  }

  /**
   * getPregnantPatientsAppointment for one follow-up: an open, non-voided
   * pregnancy follow-up whose next visit after its last non-voided visit
   * falls in the current month.
   */
  function MotherUpcoming(cal: MonthCalendar, now: Moment, m: MotherFollowup): (r: Option<MotherAppointment>)
    ensures r.Some? ==>
      !m.voided && m.pregnancyOutcome.None? &&
      (forall v :: v in m.visits && !v.voided ==> v.date <= r.value.lastVisitDate) &&
      Visit(r.value.lastVisitDate, false) in m.visits &&
      r.value.appointmentDate == NextVisit(cal, r.value.lastVisitDate) &&
      InCurrentMonth(cal, r.value.appointmentDate, now.day) &&
      r.value.passed == Some(Passed(r.value.appointmentDate, now)) &&
      r.value.numberOfVisit == CountOrNull(Before(Kept(m.visits), cal.firstOfMonth(now.day))) &&
      r.value.contact == Contact(m.landline, m.mobile)
    ensures r.None? <==>
      m.voided || m.pregnancyOutcome.Some? || LastVisitDate(Kept(m.visits)).None? ||
      !InCurrentMonth(cal, NextVisit(cal, LastVisitDate(Kept(m.visits)).value), now.day)
  {
    var kept := Kept(m.visits);
    var last := LastVisitDate(kept);
    if m.voided || m.pregnancyOutcome.Some? || last.None? then None
    else
      var appointment := NextVisit(cal, last.value);
      if !InCurrentMonth(cal, appointment, now.day) then None
      else
        var i :| 0 <= i < |kept| && kept[i].date == last.value;
        assert kept[i] in kept;
        Some(MotherAppointment(
          last.value,
          CountOrNull(Before(kept, cal.firstOfMonth(now.day))),
          appointment,
          Some(Passed(appointment, now)),
          Contact(m.landline, m.mobile)))
  }

  /**
   * getPregnantPatientsAppointmentMissed for one follow-up: an open,
   * non-voided follow-up whose next visit after its last visit, voided or
   * not, fell in the three months before the current one.
   */
  function MotherMissed(cal: MonthCalendar, now: Moment, m: MotherFollowup): (r: Option<MotherAppointment>)
    ensures r.Some? ==>
      !m.voided && m.pregnancyOutcome.None? &&
      (forall v :: v in m.visits ==> v.date <= r.value.lastVisitDate) &&
      r.value.appointmentDate == NextVisit(cal, r.value.lastVisitDate) &&
      InMissedWindow(cal, r.value.appointmentDate, now.day) &&
      r.value.passed.None? &&
      r.value.numberOfVisit == CountOrNull(Before(m.visits, cal.firstOfMonth(now.day))) &&
      r.value.contact == Contact(m.landline, m.mobile)
    ensures r.None? <==>
      m.voided || m.pregnancyOutcome.Some? || LastVisitDate(m.visits).None? ||
      !InMissedWindow(cal, NextVisit(cal, LastVisitDate(m.visits).value), now.day)
  {
    var last := LastVisitDate(m.visits);
    if m.voided || m.pregnancyOutcome.Some? || last.None? then None
    else
      var appointment := NextVisit(cal, last.value);
      if !InMissedWindow(cal, appointment, now.day) then None
      else
        Some(MotherAppointment(
          last.value,
          CountOrNull(Before(m.visits, cal.firstOfMonth(now.day))),
          appointment,
          None,
          Contact(m.landline, m.mobile)))
  }

  /**
   * No follow-up is on both mother lists, although the two take their last
   * visit over different sets of visits.
   */
  lemma MotherListsDisjoint(cal: MonthCalendar, now: Moment, m: MotherFollowup)
    requires Lawful(cal)
    ensures !(MotherUpcoming(cal, now, m).Some? && MotherMissed(cal, now, m).Some?)
  {
    if MotherUpcoming(cal, now, m).Some? && MotherMissed(cal, now, m).Some? {
      LastKeptNotLater(m.visits);
      assert false;
    }
  }

  /** On the upcoming list, "passed" tells a future, today's or past appointment day apart. */
  lemma MotherUpcomingPassed(cal: MonthCalendar, now: Moment, m: MotherFollowup)
    requires ValidMoment(now)
    requires MotherUpcoming(cal, now, m).Some?
    ensures
      var row := MotherUpcoming(cal, now, m).value;
      (row.passed == Some(0) <==> row.appointmentDate > now.day) &&
      (row.passed == Some(1) <==> row.appointmentDate == now.day) &&
      (row.passed == Some(2) <==> row.appointmentDate < now.day)
  {
    PassedByDay(MotherUpcoming(cal, now, m).value.appointmentDate, now);
  }

  /**
   * getChildByAppointment for one child: an open follow-up (or none), not seen
   * this month, whose next visit (after the last visit, or after birth for a
   * child never seen) falls in the current month. The appointment date and
   * "passed" come from the last visit, so they are NULL for a child never seen.
   */
  function ChildUpcoming(cal: MonthCalendar, now: Moment, c: Child): (r: Option<ChildAppointment>)
    ensures r.Some? ==>
      !c.voided && JoinedFollowup(c).followupResult.None? &&
      r.value.lastVisitDate == LastVisitDate(c.visits) &&
      r.value.numberOfVisit == Some(|c.visits|) &&
      (r.value.lastVisitDate.None? ==>
         InCurrentMonth(cal, NextVisit(cal, c.birthDate), now.day) &&
         r.value.appointmentDate.None? && r.value.passed.None?) &&
      (r.value.lastVisitDate.Some? ==>
         !InCurrentMonth(cal, r.value.lastVisitDate.value, now.day) &&
         r.value.appointmentDate == Some(NextVisit(cal, r.value.lastVisitDate.value)) &&
         InCurrentMonth(cal, r.value.appointmentDate.value, now.day) &&
         r.value.passed == Some(Passed(r.value.appointmentDate.value, now))) &&
      r.value.motherContact == Contact(c.motherLandline, c.motherMobile)
    ensures
      var last := LastVisitDate(c.visits);
      r.None? <==>
        c.voided || JoinedFollowup(c).followupResult.Some? ||
        (last.Some? && (InCurrentMonth(cal, last.value, now.day) ||
                        !InCurrentMonth(cal, NextVisit(cal, last.value), now.day))) ||
        (last.None? && !InCurrentMonth(cal, NextVisit(cal, c.birthDate), now.day))
  {
    var last := LastVisitDate(c.visits);
    if c.voided || JoinedFollowup(c).followupResult.Some? then None
    else if last.Some? && InCurrentMonth(cal, last.value, now.day) then None
    else if last.Some? then
      var appointment := NextVisit(cal, last.value);
      if InCurrentMonth(cal, appointment, now.day) then
        Some(ChildAppointment(last, Some(appointment), Some(Passed(appointment, now)), Some(|c.visits|),
                              Contact(c.motherLandline, c.motherMobile)))
      else None
    else if InCurrentMonth(cal, NextVisit(cal, c.birthDate), now.day) then
      Some(ChildAppointment(None, None, None, Some(|c.visits|), Contact(c.motherLandline, c.motherMobile)))
    else None
  }

  /**
   * getChildByAppointmentMissed for one child: an open follow-up (or none)
   * with at least one visit, whose next visit fell in the three months before
   * the current one.
   */
  function ChildMissed(cal: MonthCalendar, now: Moment, c: Child): (r: Option<ChildAppointment>)
    ensures r.Some? ==>
      !c.voided && JoinedFollowup(c).followupResult.None? &&
      r.value.lastVisitDate == LastVisitDate(c.visits) && r.value.lastVisitDate.Some? &&
      r.value.appointmentDate == Some(NextVisit(cal, r.value.lastVisitDate.value)) &&
      InMissedWindow(cal, r.value.appointmentDate.value, now.day) &&
      r.value.passed.None? &&
      r.value.numberOfVisit == CountOrNull(Before(c.visits, cal.firstOfMonth(now.day))) &&
      r.value.motherContact == Contact(c.motherLandline, c.motherMobile)
    ensures r.None? <==>
      c.voided || JoinedFollowup(c).followupResult.Some? || LastVisitDate(c.visits).None? ||
      !InMissedWindow(cal, NextVisit(cal, LastVisitDate(c.visits).value), now.day)
  {
    var last := LastVisitDate(c.visits);
    if c.voided || JoinedFollowup(c).followupResult.Some? || last.None? then None
    else
      var appointment := NextVisit(cal, last.value);
      if InMissedWindow(cal, appointment, now.day) then
        Some(ChildAppointment(last, Some(appointment), None,
                              CountOrNull(Before(c.visits, cal.firstOfMonth(now.day))),
                              Contact(c.motherLandline, c.motherMobile)))
      else None
  }

  /** No child is on both child lists. */
  lemma ChildListsDisjoint(cal: MonthCalendar, now: Moment, c: Child)
    ensures !(ChildUpcoming(cal, now, c).Some? && ChildMissed(cal, now, c).Some?)
  {
  }

  /** A child on the upcoming list that has been seen was last seen before the current month. */
  lemma ChildUpcomingSeenBeforeThisMonth(cal: MonthCalendar, now: Moment, c: Child)
    requires Lawful(cal)
    requires ChildUpcoming(cal, now, c).Some?
    requires LastVisitDate(c.visits).Some?
    ensures LastVisitDate(c.visits).value < cal.firstOfMonth(now.day)
  {
    var last := LastVisitDate(c.visits).value;
    assert NextVisit(cal, last) > last;
    assert cal.firstOfMonth(now.day) <= now.day <= cal.lastOfMonth(now.day);
  }
}
