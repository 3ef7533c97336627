/*
 * The mother follow-up list (getMotherFollowupList): which observations count
 * as a death, a transfer or a negative result, the On/Off status derived from
 * them, and the pregnancy-outcome code that overrides a missing outcome.
 */
module MotherFollowupRules {
  import opened Common
  import opened Calendar
  import opened Visits

  /**
   * A mother follow-up with what the list joins to it: its visits and the
   * value_datetime of the patient's non-voided death (concept 1543), transfer
   * (164595) and not-positive (163511) observations, and the latest
   * encounter_datetime among the patient's encounters of type 1.
   */
  datatype MotherRecord = MotherRecord(
    voided: bool,
    startDate: Option<Day>,
    endDate: Option<Day>,
    pregnancyOutcome: Option<int>,
    visits: seq<Visit>,
    death: Option<Moment>,
    transfer: Option<Moment>,
    lastInitialEncounter: Option<Moment>,
    notPositive: Option<Moment>)

  /** Outcome codes that stand in for a missing pregnancy outcome. */
  const DeceasedOutcome: int := 6
  const TransferredOutcome: int := 7
  const NotPositiveOutcome: int := 8

  /**
   * DateDeces as the query computes it: a death no later than the end date
   * when one is given, otherwise only a death recorded at exactly NOW().
   */
  function DeathDateAsWritten(death: Option<Moment>, endDate: Option<Day>, now: Moment): (r: Option<Moment>)
    ensures r.Some? ==> r == death
    ensures endDate.None? ==> (r.Some? <==> death == Some(now))
  {
    match endDate
    case Some(end) => if death.Some? && NotLater(death.value, AtMidnight(end)) then death else None
    case None => if death == Some(now) then death else None
  }

  /** DateDeces as intended: a death no later than the end date, or than now when there is none. */
  function DeathDate(death: Option<Moment>, endDate: Option<Day>, now: Moment): (r: Option<Moment>)
    ensures r.Some? ==> r == death
    ensures endDate.Some? ==> r == DeathDateAsWritten(death, endDate, now)
    ensures endDate.None? ==> (r.Some? <==> death.Some? && NotLater(death.value, now))
  {
    var bound := if endDate.Some? then AtMidnight(endDate.value) else now;
    if death.Some? && NotLater(death.value, bound) then death else None
  }

  /**
   * DateTransfert: a transfer recorded strictly after the patient's latest
   * initial encounter; with no such encounter the comparison is NULL and no
   * transfer is seen.
   */
  function TransferDate(transfer: Option<Moment>, lastInitialEncounter: Option<Moment>): (r: Option<Moment>)
    ensures r.Some? <==>
      transfer.Some? && lastInitialEncounter.Some? && Later(transfer.value, lastInitialEncounter.value)
    ensures r.Some? ==> r == transfer
  {
    if transfer.Some? && lastInitialEncounter.Some? && Later(transfer.value, lastInitialEncounter.value)
    then transfer else None
  }

  /** The dates the status and outcome columns are derived from. */
  datatype Exits = Exits(deceased: Option<Moment>, transferred: Option<Moment>, notPositive: Option<Moment>)

  function ExitsOf(rec: MotherRecord, endDate: Option<Day>, now: Moment): Exits {
    Exits(DeathDate(rec.death, endDate, now), TransferDate(rec.transfer, rec.lastInitialEncounter), rec.notPositive)
  }

  /** The status column: 'On' while nothing has ended the follow-up. */
  function Status(recorded: Option<int>, x: Exits): (status: string)
    ensures status == "On" || status == "Off"
  {
    if recorded.None? && x.deceased.None? && x.transferred.None? && x.notPositive.None? then "On" else "Off"
  }

  /**
   * The pregnancyOutcome column: the recorded outcome when there is one,
   * otherwise death, then transfer, then a negative result, each with its code.
   */
  function DerivedOutcome(recorded: Option<int>, x: Exits): (r: Option<int>)
    ensures recorded.Some? ==> r == recorded
    ensures recorded.None? && x.deceased.Some? ==> r == Some(DeceasedOutcome)
    ensures recorded.None? && x.deceased.None? && x.transferred.Some? ==> r == Some(TransferredOutcome)
    ensures recorded.None? && x.deceased.None? && x.transferred.None? && x.notPositive.Some? ==>
      r == Some(NotPositiveOutcome)
    ensures recorded.None? && x.deceased.None? && x.transferred.None? && x.notPositive.None? ==> r.None?
  {
    if x.deceased.Some? && recorded.None? then Some(DeceasedOutcome)
    else if x.transferred.Some? && recorded.None? then Some(TransferredOutcome)
    else if x.notPositive.Some? && recorded.None? then Some(NotPositiveOutcome)
    else recorded
  }

  /** The status is 'On' exactly when the reported outcome is NULL. */
  lemma StatusOnIffNoOutcome(recorded: Option<int>, x: Exits)
    ensures Status(recorded, x) == "On" <==> DerivedOutcome(recorded, x).None?
  {
  }

  /** A row of the mother follow-up list, before the optional filters. */
  datatype MotherListRow = MotherListRow(
    visitCount: nat,
    lastVisitDate: Day,
    startDate: Option<Day>,
    endDate: Option<Day>,
    recordedOutcome: Option<int>,
    status: string,
    pregnancyOutcome: Option<int>)

  /**
   * The row of a follow-up: only non-voided follow-ups with at least one
   * visit appear; visits are counted, and the last one taken, voided or not.
   */
  function MotherListRowOf(rec: MotherRecord, endDate: Option<Day>, now: Moment): (r: Option<MotherListRow>)
    ensures r.Some? <==> !rec.voided && |rec.visits| > 0
    ensures r.Some? ==>
      r.value.visitCount == |rec.visits| &&
      Some(r.value.lastVisitDate) == LastVisitDate(rec.visits) &&
      r.value.startDate == rec.startDate && r.value.endDate == rec.endDate &&
      r.value.recordedOutcome == rec.pregnancyOutcome
    ensures r.Some? ==>
      r.value.status == Status(rec.pregnancyOutcome, ExitsOf(rec, endDate, now)) &&
      r.value.pregnancyOutcome == DerivedOutcome(rec.pregnancyOutcome, ExitsOf(rec, endDate, now))
    ensures r.Some? ==>
      (r.value.status == "On" <==> r.value.pregnancyOutcome.None?) &&
      (r.value.status == "On" <==>
         rec.pregnancyOutcome.None? && rec.notPositive.None? && DeathDate(rec.death, endDate, now).None? &&
         TransferDate(rec.transfer, rec.lastInitialEncounter).None?)
  {
    if rec.voided || |rec.visits| == 0 then None
    else
      var x := ExitsOf(rec, endDate, now);
      StatusOnIffNoOutcome(rec.pregnancyOutcome, x);
      Some(MotherListRow(
        |rec.visits|, LastVisitDate(rec.visits).value, rec.startDate, rec.endDate, rec.pregnancyOutcome,
        Status(rec.pregnancyOutcome, x), DerivedOutcome(rec.pregnancyOutcome, x)))
  }

  /** With no end date, the query as written misses a death recorded before now. */
  lemma DeathAsWrittenCounterexample()
    ensures
      var died := Moment(10, 0);
      var now := Moment(20, 0);
      var x := Exits(DeathDateAsWritten(Some(died), None, now), None, None);
      Status(None, x) == "On" && DerivedOutcome(None, x).None?
  {
  }

  /**
   * As intended, a follow-up with no recorded outcome whose patient died on
   * or before the reference moment (the end date, or now) is closed as deceased.
   */
  lemma DeathClosesFollowup(rec: MotherRecord, endDate: Option<Day>, now: Moment)
    requires !rec.voided && |rec.visits| > 0 && rec.pregnancyOutcome.None?
    requires rec.death.Some? && NotLater(rec.death.value, if endDate.Some? then AtMidnight(endDate.value) else now)
    ensures MotherListRowOf(rec, endDate, now).Some?
    ensures MotherListRowOf(rec, endDate, now).value.status == "Off"
    ensures MotherListRowOf(rec, endDate, now).value.pregnancyOutcome == Some(DeceasedOutcome)
  {
  }
}
