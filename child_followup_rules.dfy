/*
 * The per-row rules the child follow-up queries evaluate: the last PCR with a
 * result, the PCR still waiting for its result, and the five PCR schedules
 * (which children are due, with what appointment date and "passed" value).
 * A child row is a ptme_child record with its optional ptme_child_followup
 * record; SQL NULL is `None`.
 */
module ChildFollowupRules {
  import opened Common
  import opened Calendar
  import opened Visits

  /** One PCR test: when the sample was taken and its result code. */
  datatype Pcr = Pcr(samplingDate: Option<Day>, result: Option<int>)

  /** The ptme_child_followup columns the rules read. */
  datatype ChildFollowup = ChildFollowup(
    pcr1: Pcr, pcr2: Pcr, pcr3: Pcr,
    serology1Date: Option<Day>, serology1Result: Option<int>,
    serology2Date: Option<Day>,
    followupResult: Option<int>, followupResultDate: Option<Day>,
    voided: bool)

  /** A ptme_child row with what the queries join to it. */
  datatype Child = Child(
    birthDate: Day,
    voided: bool,
    followup: Option<ChildFollowup>,
    visits: seq<Visit>,
    motherLandline: Option<string>,
    motherMobile: Option<string>)

  /** The columns a LEFT JOIN yields for a child with no follow-up record: all NULL. */
  const NullFollowup: ChildFollowup := ChildFollowup(
    Pcr(None, None), Pcr(None, None), Pcr(None, None), None, None, None, None, None, false)

  function JoinedFollowup(c: Child): ChildFollowup {
    if c.followup.Some? then c.followup.value else NullFollowup
  }

  /** The k-th PCR, k in 1..3. */
  function PcrOf(f: ChildFollowup, k: int): Pcr
    requires 1 <= k <= 3
  {
    if k == 1 then f.pcr1 else if k == 2 then f.pcr2 else f.pcr3
  }

  function PcrLabel(k: int): string
    requires 1 <= k <= 3
  {
    if k == 1 then "PCR 1" else if k == 2 then "PCR 2" else "PCR 3"
  }

  /** A follow-up is 'Off' once it has a result, 'On' before. */
  function FollowupStatus(f: ChildFollowup): (status: string)
    ensures status == "Off" <==> f.followupResult.Some?
    ensures status == "On" <==> f.followupResult.None?
  {
    if f.followupResult.Some? then "Off" else "On"
  }

  // ---------------------------------------------------------------------------
  // Last PCR with a result

  /** PCR k has a result and no later PCR has one. */
  predicate IsLastWithResult(f: ChildFollowup, k: int) {
    1 <= k <= 3 && PcrOf(f, k).result.Some? &&
    forall j :: k < j <= 3 ==> PcrOf(f, j).result.None?
  }

  datatype LastPcrColumns = LastPcrColumns(lastPcr: Option<string>, date: Option<Day>, result: Option<int>)

  /** lastPCR, lastPCRDate, lastPCRResult: PCR 3, else PCR 2, else PCR 1, the first with a result. */
  function LastPcr(f: ChildFollowup): (r: LastPcrColumns)
    ensures r == LastPcrColumns(None, None, None) <==> forall k :: 1 <= k <= 3 ==> PcrOf(f, k).result.None?
    ensures forall k :: IsLastWithResult(f, k) ==>
      r == LastPcrColumns(Some(PcrLabel(k)), PcrOf(f, k).samplingDate, PcrOf(f, k).result)
    ensures r.result.None? ==> r.lastPcr.None? && r.date.None?
  {
    assert PcrOf(f, 1) == f.pcr1 && PcrOf(f, 2) == f.pcr2 && PcrOf(f, 3) == f.pcr3;
    if f.pcr3.result.Some? then LastPcrColumns(Some("PCR 3"), f.pcr3.samplingDate, f.pcr3.result)
    else if f.pcr2.result.Some? then LastPcrColumns(Some("PCR 2"), f.pcr2.samplingDate, f.pcr2.result)
    else if f.pcr1.result.Some? then LastPcrColumns(Some("PCR 1"), f.pcr1.samplingDate, f.pcr1.result)
    else LastPcrColumns(None, None, None)
  }

  // ---------------------------------------------------------------------------
  // PCR result waiting

  /** PCR k has been sampled and no later PCR has been. */
  predicate IsLastSampled(f: ChildFollowup, k: int) {
    1 <= k <= 3 && PcrOf(f, k).samplingDate.Some? &&
    forall j :: k < j <= 3 ==> PcrOf(f, j).samplingDate.None?
  }

  datatype PendingPcr = PendingPcr(pcrRank: string, samplingDate: Day, numDay: int)

  /**
   * A row of the PCR-results-waiting list for an open, non-voided follow-up:
   * the latest sampled PCR, kept only while its result is missing, with the
   * days since its sample was taken.
   */
  function PendingPcrResult(f: ChildFollowup, today: Day): (r: Option<PendingPcr>)
    ensures r.Some? <==>
      FollowupStatus(f) == "On" && !f.voided &&
      exists k :: IsLastSampled(f, k) && PcrOf(f, k).result.None?
    ensures forall k :: IsLastSampled(f, k) && r.Some? ==>
      r.value.pcrRank == PcrLabel(k) &&
      r.value.samplingDate == PcrOf(f, k).samplingDate.value &&
      r.value.samplingDate + r.value.numDay == today
  {
    if FollowupStatus(f) != "On" || f.voided then None
    else
      // the highest-numbered sampled PCR (PCR 1 when none is, whose date is then NULL)
      var k := if f.pcr3.samplingDate.Some? then 3 else if f.pcr2.samplingDate.Some? then 2 else 1;
      var pcr := PcrOf(f, k);
      if pcr.samplingDate.Some? && pcr.result.None? then
        assert IsLastSampled(f, k);
        Some(PendingPcr(PcrLabel(k), pcr.samplingDate.value, today - pcr.samplingDate.value))
      else
        None
  }

  // ---------------------------------------------------------------------------
  // PCR schedules

  function AgeInWeeks(c: Child, today: Day): int {
    WholeUnits(c.birthDate, today, 7)
  }

  /** Age in whole 30-day months. */
  function AgeInMonths(c: Child, today: Day): int {
    WholeUnits(c.birthDate, today, 30)
  }

  datatype PcrKind = Pcr1 | Pcr2 | Pcr3 | Pcr4 | Pcr5

  /** The schedule a pcrType selects; a type outside 1-5 selects none. */
  function PcrKindOf(pcrType: Option<int>): (r: Option<PcrKind>)
    ensures r.Some? <==> pcrType.Some? && 1 <= pcrType.value <= 5
    ensures r == Some(Pcr1) <==> pcrType == Some(1)
    ensures r == Some(Pcr2) <==> pcrType == Some(2)
    ensures r == Some(Pcr3) <==> pcrType == Some(3)
    ensures r == Some(Pcr4) <==> pcrType == Some(4)
    ensures r == Some(Pcr5) <==> pcrType == Some(5)
  {
    if pcrType == Some(1) then Some(Pcr1)
    else if pcrType == Some(2) then Some(Pcr2)
    else if pcrType == Some(3) then Some(Pcr3)
    else if pcrType == Some(4) then Some(Pcr4)
    else if pcrType == Some(5) then Some(Pcr5)
    else None
  }

  /** First PCR: not yet sampled, either at 6 weeks to 8 months without serology or from 9 months after a positive serology. */
  predicate Pcr1Due(c: Child, today: Day) {
    var f := JoinedFollowup(c);
    !c.voided && f.pcr1.samplingDate.None? &&
    ((AgeInWeeks(c, today) >= 6 && AgeInMonths(c, today) <= 8 &&
      f.serology1Date.None? && f.serology2Date.None?) ||
     (AgeInMonths(c, today) >= 9 && f.serology1Result == Some(1))) &&
    f.followupResult.None?
  }

  /** Second PCR: the first has a result and the second is not sampled. */
  predicate Pcr2Due(c: Child, today: Day) {
    var f := JoinedFollowup(c);
    !c.voided && f.pcr1.result.Some? && f.pcr2.samplingDate.None? &&
    ((f.pcr1.result == Some(1) && AgeInMonths(c, today) < 9) ||
     (f.pcr1.result == Some(0) && 6 <= AgeInMonths(c, today) < 9) ||
     (AgeInMonths(c, today) >= 9 && f.serology1Result == Some(1))) &&
    f.followupResult.None?
  }

  /** Third PCR: the first two disagree and the child is under 9 months. */
  predicate Pcr3Due(c: Child, today: Day) {
    var f := JoinedFollowup(c);
    !c.voided && f.pcr3.samplingDate.None? &&
    ((f.pcr2.result == Some(1) && f.pcr1.result == Some(0)) ||
     (f.pcr1.result == Some(1) && f.pcr2.result == Some(0))) &&
    f.followupResult.None? && AgeInMonths(c, today) < 9
  }

  /** Test at 9-18 months: no serology yet, and the 9-month date falls by the end of this month. */
  predicate Pcr4Due(cal: MonthCalendar, c: Child, today: Day) {
    var f := JoinedFollowup(c);
    !c.voided &&
    ((f.pcr1.samplingDate.None? && 9 <= AgeInMonths(c, today) < 18) ||
     (f.pcr1.samplingDate.Some? && f.pcr2.samplingDate.None? && 9 <= AgeInMonths(c, today) < 18)) &&
    f.serology1Date.None? && f.followupResult.None? &&
    cal.addMonths(c.birthDate, 9) <= cal.lastOfMonth(today)
  }

  /** Test from 18 months for a child without a second serology whose follow-up is not closed. */
  predicate Pcr5Due(c: Child, today: Day) {
    var f := JoinedFollowup(c);
    !c.voided && f.serology2Date.None? && AgeInMonths(c, today) >= 18 &&
    (f.followupResult.None? || f.followupResult.value !in {1, 2, 4, 5})
  }

  /**
   * The fifth schedule as its query is written: `followup_result NOT IN
   * (1, 2, 4, 5)` is unknown, so false, when the result is NULL.
   */
  predicate Pcr5DueAsWritten(c: Child, today: Day) {
    var f := JoinedFollowup(c);
    !c.voided && f.serology2Date.None? && AgeInMonths(c, today) >= 18 &&
    f.followupResult.Some? && f.followupResult.value !in {1, 2, 4, 5}
  }

  predicate PcrDue(cal: MonthCalendar, kind: PcrKind, c: Child, today: Day) {
    match kind
    case Pcr1 => Pcr1Due(c, today)
    case Pcr2 => Pcr2Due(c, today)
    case Pcr3 => Pcr3Due(c, today)
    case Pcr4 => Pcr4Due(cal, c, today)
    case Pcr5 => Pcr5Due(c, today)
  }

  /** A row of an appointment list (ChildFollowupAppointment). */
  datatype ChildAppointment = ChildAppointment(
    lastVisitDate: Option<Day>,
    appointmentDate: Option<Day>,
    passed: Option<int>,
    numberOfVisit: Option<int>,
    motherContact: Option<string>)

  /** Six weeks after birth. */
  function Pcr1Appointment(c: Child): Day {
    c.birthDate + 42
  }

  /** The columns each schedule reports for a due child; the birth date stands in for the last visit. */
  function PcrColumns(cal: MonthCalendar, now: Moment, kind: PcrKind, c: Child): ChildAppointment {
    var f := JoinedFollowup(c);
    var contact := Contact(c.motherLandline, c.motherMobile);
    match kind
    case Pcr1 =>
      ChildAppointment(Some(c.birthDate), Some(Pcr1Appointment(c)),
                       Some(Passed(Pcr1Appointment(c), now)), Some(0), contact)
    case Pcr2 =>
      var serologyKnown := f.serology1Result.Some?;
      ChildAppointment(Some(c.birthDate),
                       if serologyKnown then f.serology1Date else f.pcr1.samplingDate,
                       if serologyKnown then f.serology1Result else f.pcr1.result,
                       Some(if serologyKnown then 1 else 2), contact)
    case Pcr3 =>
      ChildAppointment(Some(c.birthDate),
                       if f.serology1Date.Some? then f.serology1Date else f.pcr2.samplingDate,
                       Some(2), Some(0), contact)
    case Pcr4 =>
      ChildAppointment(Some(c.birthDate), Some(cal.addMonths(c.birthDate, 9)), Some(0), Some(0), contact)
    case Pcr5 =>
      ChildAppointment(Some(c.birthDate), Some(cal.addMonths(c.birthDate, 18)), Some(0), Some(0), contact)
  }

  /** getChildByAppointmentPcr for one child: its row when it is due for the chosen test. */
  function PcrAppointment(cal: MonthCalendar, now: Moment, kind: PcrKind, c: Child): (r: Option<ChildAppointment>)
    ensures r.Some? <==> PcrDue(cal, kind, c, now.day)
    ensures r.Some? ==> r.value.lastVisitDate == Some(c.birthDate) &&
                        r.value.motherContact == Contact(c.motherLandline, c.motherMobile)
    // PCR 1: six weeks after birth, classified against now, never a visit number
    ensures r.Some? && kind == Pcr1 ==>
      r.value.appointmentDate == Some(c.birthDate + 42) &&
      r.value.passed == Some(Passed(c.birthDate + 42, now)) && r.value.numberOfVisit == Some(0)
    // PCR 2: the first serology when its result is known, otherwise the first PCR
    ensures r.Some? && kind == Pcr2 ==>
      var f := JoinedFollowup(c);
      if f.serology1Result.Some? then
        r.value.appointmentDate == f.serology1Date && r.value.passed == f.serology1Result &&
        r.value.numberOfVisit == Some(1)
      else
        r.value.appointmentDate == f.pcr1.samplingDate && r.value.passed == f.pcr1.result &&
        r.value.numberOfVisit == Some(2)
    // PCR 3: the first serology's date when there is one, otherwise the second PCR's sample
    ensures r.Some? && kind == Pcr3 ==>
      var f := JoinedFollowup(c);
      r.value.appointmentDate == (if f.serology1Date.Some? then f.serology1Date else f.pcr2.samplingDate) &&
      r.value.passed == Some(2) && r.value.numberOfVisit == Some(0)
    // PCR 4 and PCR 5: nine and eighteen calendar months after birth
    ensures r.Some? && kind == Pcr4 ==>
      r.value.appointmentDate == Some(cal.addMonths(c.birthDate, 9)) &&
      r.value.passed == Some(0) && r.value.numberOfVisit == Some(0)
    ensures r.Some? && kind == Pcr5 ==>
      r.value.appointmentDate == Some(cal.addMonths(c.birthDate, 18)) &&
      r.value.passed == Some(0) && r.value.numberOfVisit == Some(0)
  {
    if PcrDue(cal, kind, c, now.day) then Some(PcrColumns(cal, now, kind, c)) else None
  }

  // ---------------------------------------------------------------------------
  // Properties of the schedules

  /** Whole weeks and whole 30-day months, restated in days. */
  lemma AgeThresholds(c: Child, today: Day)
    ensures AgeInWeeks(c, today) >= 6 <==> today - c.birthDate >= 42
    ensures AgeInMonths(c, today) <= 8 <==> today - c.birthDate < 270
    ensures AgeInMonths(c, today) >= 9 <==> today - c.birthDate >= 270
    ensures AgeInMonths(c, today) >= 6 <==> today - c.birthDate >= 180
    ensures AgeInMonths(c, today) < 18 <==> today - c.birthDate < 540
  {
    var w, m := AgeInWeeks(c, today), AgeInMonths(c, today);
    assert w * 7 <= today - c.birthDate < (w + 1) * 7;
    assert m * 30 <= today - c.birthDate < (m + 1) * 30;
  }

  /**
   * The first PCR in days: an open follow-up without a first sample, either
   * 42-269 days old with no serology or 270 days or more with a positive
   * first serology.
   */
  lemma Pcr1DueInDays(c: Child, today: Day)
    ensures
      var f, age := JoinedFollowup(c), today - c.birthDate;
      Pcr1Due(c, today) <==>
        !c.voided && f.pcr1.samplingDate.None? && f.followupResult.None? &&
        ((42 <= age < 270 && f.serology1Date.None? && f.serology2Date.None?) ||
         (age >= 270 && f.serology1Result == Some(1)))
  {
    AgeThresholds(c, today);
  }

  /**
   * A child due for the first PCR is at least six weeks old, so its
   * appointment is never in the future: "passed" is 1 exactly on day 42
   * and 2 afterwards.
   */
  lemma Pcr1AppointmentReached(cal: MonthCalendar, now: Moment, c: Child)
    requires ValidMoment(now)
    requires Pcr1Due(c, now.day)
    ensures PcrAppointment(cal, now, Pcr1, c).value.passed != Some(0)
    ensures PcrAppointment(cal, now, Pcr1, c).value.passed == Some(1) <==> now.day - c.birthDate == 42
  {
    AgeThresholds(c, now.day);
    PassedByDay(Pcr1Appointment(c), now);
  }

  /** The second PCR always reports a "passed" value: the first serology's result, or else the first PCR's. */
  lemma Pcr2ReportsAResult(cal: MonthCalendar, now: Moment, c: Child)
    requires Pcr2Due(c, now.day)
    ensures
      var row, f := PcrAppointment(cal, now, Pcr2, c).value, JoinedFollowup(c);
      row.passed.Some? &&
      (row.numberOfVisit == Some(1) <==> f.serology1Result.Some?) &&
      (row.numberOfVisit == Some(2) <==> f.serology1Result.None?)
  {
  }

  /** A first-PCR-negative child waits for the second PCR until 6 months; a positive one does not. */
  lemma Pcr2AfterNegativeWaitsSixMonths(c: Child, today: Day)
    requires JoinedFollowup(c).pcr1.result == Some(0) && JoinedFollowup(c).serology1Result != Some(1)
    ensures Pcr2Due(c, today) ==> 180 <= today - c.birthDate < 270
  {
    AgeThresholds(c, today);
  }

  /** The third PCR is due only after discordant first and second results, before 270 days. */
  lemma Pcr3OnlyWhenDiscordant(cal: MonthCalendar, now: Moment, c: Child)
    requires Pcr3Due(c, now.day)
    ensures
      var f := JoinedFollowup(c);
      f.pcr1.result.Some? && f.pcr2.result.Some? &&
      {f.pcr1.result.value, f.pcr2.result.value} == {0, 1} &&
      now.day - c.birthDate < 270 &&
      PcrAppointment(cal, now, Pcr3, c).value.passed == Some(2)
  {
    AgeThresholds(c, now.day);
    var f := JoinedFollowup(c);
    assert {f.pcr1.result.value, f.pcr2.result.value} == {0, 1};
  }

  /**
   * The 9-month test is for a child 270-539 days old without a first serology
   * and with the first or the second PCR not sampled, whose 9-month date is no later than the end of
   * this month; that date is its appointment.
   */
  lemma Pcr4Window(cal: MonthCalendar, now: Moment, c: Child)
    requires Pcr4Due(cal, c, now.day)
    ensures
      var f, age := JoinedFollowup(c), now.day - c.birthDate;
      270 <= age < 540 && f.serology1Date.None? &&
      (f.pcr1.samplingDate.None? || f.pcr2.samplingDate.None?) &&
      PcrAppointment(cal, now, Pcr4, c).value.appointmentDate.value <= cal.lastOfMonth(now.day)
  {
    AgeThresholds(c, now.day);
  }

  /** As written, no open follow-up is ever listed for the fifth test. */
  lemma Pcr5AsWrittenSkipsOpenFollowups(c: Child, today: Day)
    requires JoinedFollowup(c).followupResult.None?
    ensures !Pcr5DueAsWritten(c, today)
  {
  }

  /** A concrete child, 600 days old with an open follow-up, that the written query drops. */
  lemma Pcr5AsWrittenCounterexample()
    ensures
      var c := Child(0, false, Some(NullFollowup), [], None, None);
      Pcr5Due(c, 600) && !Pcr5DueAsWritten(c, 600)
  {
    var c := Child(0, false, Some(NullFollowup), [], None, None);
    AgeThresholds(c, 600);
  }

  /**
   * The fifth test, as intended: from 540 days, without a second serology,
   * every open follow-up is listed and every follow-up closed with result 1, 2,
   * 4 or 5 is not.
   */
  lemma Pcr5Intended(c: Child, today: Day)
    requires !c.voided && JoinedFollowup(c).serology2Date.None? && today - c.birthDate >= 540
    ensures JoinedFollowup(c).followupResult.None? ==> Pcr5Due(c, today)
    ensures JoinedFollowup(c).followupResult.Some? ==>
      (Pcr5Due(c, today) <==> JoinedFollowup(c).followupResult.value !in {1, 2, 4, 5})
  {
    AgeThresholds(c, today);
  }
}
