/*
 * What the follow-up queries compute from a patient's visits and phone
 * observations: the last visit date (MAX(visit_date)), visit counts, and the
 * contact column built from the landline and mobile numbers.
 */
module Visits {
  import opened Common
  import opened Calendar

  /** A follow-up visit row: its date and whether it was voided. */
  datatype Visit = Visit(date: Day, voided: bool)

  /** MAX(visit_date) over the given visits; NULL when there is none. */
  function LastVisitDate(visits: seq<Visit>): (r: Option<Day>)
    ensures r.None? <==> |visits| == 0
    ensures r.Some? ==> (exists i :: 0 <= i < |visits| && visits[i].date == r.value)
    ensures r.Some? ==> forall i :: 0 <= i < |visits| ==> visits[i].date <= r.value
  {
    if |visits| == 0 then None
    else
      var rest := LastVisitDate(visits[1..]);
      if rest.None? || visits[0].date >= rest.value then Some(visits[0].date)
      else (assert visits[1..][0] == visits[1]; rest)
  }

  /** The visits that are not voided (WHERE voided = 0). */
  function Kept(visits: seq<Visit>): (r: seq<Visit>)
    ensures forall v :: v in r <==> v in visits && !v.voided
    ensures forall v :: multiset(r)[v] == if v.voided then 0 else multiset(visits)[v]
    ensures |r| <= |visits|
  {
    if |visits| == 0 then []
    else
      assert visits == [visits[0]] + visits[1..];
      (if visits[0].voided then [] else [visits[0]]) + Kept(visits[1..])
  }

  /** The visits dated strictly before `day` (WHERE visit_date < ...). */
  function Before(visits: seq<Visit>, day: Day): (r: seq<Visit>)
    ensures forall v :: v in r <==> v in visits && v.date < day
    ensures forall v :: multiset(r)[v] == if v.date < day then multiset(visits)[v] else 0
    ensures |r| <= |visits|
  {
    if |visits| == 0 then []
    else
      assert visits == [visits[0]] + visits[1..];
      (if visits[0].date < day then [visits[0]] else []) + Before(visits[1..], day)
  }

  /** A COUNT(...) ... GROUP BY reached through a LEFT JOIN: NULL when the group is empty. */
  function CountOrNull(visits: seq<Visit>): (r: Option<nat>)
    ensures r.None? <==> |visits| == 0
    ensures r.Some? ==> r.value == |visits| && r.value >= 1
  {
    if |visits| == 0 then None else Some(|visits|)
  }

  /** Keeping the non-voided visits never raises the last visit date. */
  lemma {:induction false} LastKeptNotLater(visits: seq<Visit>)
    ensures LastVisitDate(Kept(visits)).Some? ==>
      LastVisitDate(visits).Some? && LastVisitDate(Kept(visits)).value <= LastVisitDate(visits).value
  {
    var kept := Kept(visits);
    if LastVisitDate(kept).Some? {
      var i :| 0 <= i < |kept| && kept[i].date == LastVisitDate(kept).value;
      assert kept[i] in visits;
      var j :| 0 <= j < |visits| && visits[j] == kept[i];
    }
  }

  /**
   * The contact column: mobile and landline joined by " / " when both are
   * recorded, the one recorded otherwise, NULL when neither is.
   */
  function Contact(landline: Option<string>, mobile: Option<string>): (r: Option<string>)
    ensures r.None? <==> landline.None? && mobile.None?
    ensures landline.Some? && mobile.Some? ==> r == Some(mobile.value + " / " + landline.value)
    ensures landline.None? || mobile.None? ==> r == (if mobile.Some? then mobile else landline)
  {
    if landline.Some? && mobile.Some? then Some(mobile.value + " / " + landline.value)
    else if landline.None? && mobile.Some? then mobile
    else if landline.Some? && mobile.None? then landline
    else None
  }
}
