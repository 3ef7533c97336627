/**
 * The validator of the prenatal consultation form. Validation walks a fixed
 * list of rules over one form and appends a rejection for each rule that
 * fails; the form's answers are mostly small integer codes.
 */
module PrenatalFormValidator {
  import opened Common
  import opened JavaText
  import opened JavaRegex

  /** A java.util.Date, as milliseconds since the epoch. */
  type Instant = int

  /** The bound form. Integer, String and Date properties may be null. */
  datatype ConsultationForm = ConsultationForm(
    consultationDate: Option<Instant>,
    appointmentDate: Option<Instant>,
    pregnantPatientId: Option<int>,
    pregnantNumber: Option<string>,
    age: Option<int>,
    hivStatusAtReception: Option<int>,
    testProposal: Option<int>,
    testResult: Option<int>,
    resultAnnouncement: Option<int>,
    arvDiscount: Option<int>,
    arvStatus: Option<int>,
    prenatalRank: Option<int>,
    weekOfAmenorrhea: Option<int>,
    spousalScreening: Option<int>,
    spousalScreeningResult: Option<int>,
    hivCareNumber: string)

  /** The pregnant patient already registered under an HIV care number. */
  datatype PregnantHolder = PregnantHolder(pregnantPatientId: int, pregnantNumber: string)

  /** The platform patient whose preferred identifier is an HIV care number. */
  datatype PatientRecord = PatientRecord(gender: string)

  /** The form properties that rejections are attached to. */
  datatype Field =
    | ConsultationDate | PregnantNumber | Age | HivStatusAtReception | TestProposal
    | TestResult | ResultAnnouncement | ArvDiscount | ArvStatus | PrenatalRank
    | WeekOfAmenorrhea | SpousalScreeningResult | HivCareNumber | AppointmentDate

  /** The message codes the validator uses. */
  datatype Code =
    | FieldRequired | NonValidWeekAmenorrhea | NonScreeningResult | InvalidHivNumber
    | NumberNotForFemale | NonValidAge | HivPlusNoTest | NonTestResult | TestResultRequired
    | AnnouncementNotValid | NonHivDiscount | NonHivOnArv

  /** Why a field was rejected: a message code, or a default message with no code. */
  datatype Reason =
    | Coded(code: Code)
    | AlreadyAssigned(holderNumber: string)
    | AppointmentBeforeConsultation
    | AppointmentOnConsultationDay

  /** One entry of the Errors collector. */
  datatype Rejection =
    | GeneralError
    | Rejected(field: Field, reason: Reason)

  function PropertyName(f: Field): string {
    match f
    case ConsultationDate => "consultationDate"
    case PregnantNumber => "pregnantNumber"
    case Age => "age"
    case HivStatusAtReception => "hivStatusAtReception"
    case TestProposal => "testProposal"
    case TestResult => "testResult"
    case ResultAnnouncement => "resultAnnouncement"
    case ArvDiscount => "arvDiscount"
    case ArvStatus => "arvStatus"
    case PrenatalRank => "prenatalRank"
    case WeekOfAmenorrhea => "weekOfAmenorrhea"
    case SpousalScreeningResult => "spousalScreeningResult"
    case HivCareNumber => "hivCareNumber"
    case AppointmentDate => "appointmentDate"
  }

  function MessageKey(c: Code): string {
    match c
    case FieldRequired => "ptme.field.required"
    case NonValidWeekAmenorrhea => "ptme.non.valid.week.amenorrhea"
    case NonScreeningResult => "ptme.non.screening.result"
    case InvalidHivNumber => "ptme.invalid.hiv.number"
    case NumberNotForFemale => "ptme.number.not.for.female"
    case NonValidAge => "ptme.non.valid.age"
    case HivPlusNoTest => "ptme.hiv.plus.noTest"
    case NonTestResult => "ptme.non.test.result"
    case TestResultRequired => "ptme.test.result.required"
    case AnnouncementNotValid => "ptme.test.announcement.not.valid"
    case NonHivDiscount => "ptme.non.hiv.discount"
    case NonHivOnArv => "ptme.non.hiv.on.arv"
  }

  /** The error code a rejection carries (null for the three default-message rejections). */
  function ErrorCode(r: Rejection): Option<string> {
    match r
    case GeneralError => Some("ptme")
    case Rejected(_, Coded(c)) => Some(MessageKey(c))
    case Rejected(_, _) => None
  }

  /** The default message a rejection carries. */
  function DefaultMessage(r: Rejection): Option<string> {
    match r
    case GeneralError => Some("general.error")
    case Rejected(_, AlreadyAssigned(n)) => Some("Num\U{e9}ro d\U{e9}j\U{e0} attribu\U{e9} \U{e0} : " + n)
    case Rejected(_, AppointmentBeforeConsultation) =>
      Some("La date de rendez-vous est avant la date de consultation !")
    case Rejected(_, AppointmentOnConsultationDay) =>
      Some("La date de rendez-vous correspond \U{e0} la date de consultation !")
    case Rejected(_, Coded(_)) => None
  }

  /** supports: the validator applies to the consultation form class only. */
  const ConsultationFormClass: string := "org.openmrs.module.ptme.forms.ConsultationForm"

  function Supports(className: string): (r: bool)
    ensures r <==> className == ConsultationFormClass
  {
    className == ConsultationFormClass
  }

  /** The eleven properties that must not be empty. */
  const RequiredFields: set<Field> := {
    ConsultationDate, PregnantNumber, Age, HivStatusAtReception, TestProposal, TestResult,
    ResultAnnouncement, ArvDiscount, ArvStatus, PrenatalRank, WeekOfAmenorrhea }

  /** rejectIfEmpty's test: null, or a String of length zero. */
  predicate IsEmpty(form: ConsultationForm, f: Field) {
    match f
    case ConsultationDate => form.consultationDate.None?
    case PregnantNumber => form.pregnantNumber.None? || form.pregnantNumber == Some("")
    case Age => form.age.None?
    case HivStatusAtReception => form.hivStatusAtReception.None?
    case TestProposal => form.testProposal.None?
    case TestResult => form.testResult.None?
    case ResultAnnouncement => form.resultAnnouncement.None?
    case ArvDiscount => form.arvDiscount.None?
    case ArvStatus => form.arvStatus.None?
    case PrenatalRank => form.prenatalRank.None?
    case WeekOfAmenorrhea => form.weekOfAmenorrhea.None?
    case SpousalScreeningResult => form.spousalScreeningResult.None?
    case HivCareNumber => form.hivCareNumber == ""
    case AppointmentDate => form.appointmentDate.None?
  }

  predicate IsOneOf(o: Option<int>, a: int, b: int) {
    o == Some(a) || o == Some(b)
  }

  /**
   * The rules compare Integer properties with int constants, which unboxes
   * them; these are the properties that must be present whenever the rule
   * that reads them gets that far.
   */
  predicate NoNullUnboxing(form: ConsultationForm) {
    && (IsOneOf(form.spousalScreening, 0, 2) ==> form.spousalScreeningResult.Some?)
    && (IsOneOf(form.testProposal, 0, 2) ==>
          form.hivStatusAtReception.Some? &&
          (IsOneOf(form.hivStatusAtReception, 0, 2) ==> form.testResult.Some?))
    && (form.arvDiscount == Some(1) ==>
          form.hivStatusAtReception.Some? &&
          (form.hivStatusAtReception != Some(1) ==> form.testResult.Some?))
    && (form.arvStatus == Some(1) ==> form.hivStatusAtReception.Some?)
  }

  // ---------------------------------------------------------------------------
  // The three fixed patterns

  /** `^[1-5][0-9]?$` */
  const WeekPattern: seq<Piece> := [Piece(Range('1', '5'), 1, 1), Piece(Range('0', '9'), 0, 1)]

  /** `^([1-9])[0-9]{0,2}$` */
  const AgePattern: seq<Piece> := [Piece(Range('1', '9'), 1, 1), Piece(Range('0', '9'), 0, 2)]

  /** `^[0-9]{4}/.{2}/[0-9]{2}/[0-9]{5}E?[1-9]?$` */
  const HivCareNumberPattern: seq<Piece> := [
    Piece(Range('0', '9'), 4, 4), Piece(Literal('/'), 1, 1), Piece(AnyChar, 2, 2),
    Piece(Literal('/'), 1, 1), Piece(Range('0', '9'), 2, 2), Piece(Literal('/'), 1, 1),
    Piece(Range('0', '9'), 5, 5), Piece(Literal('E'), 0, 1), Piece(Range('1', '9'), 0, 1)]

  /**
   * The HIV care number layout written out by hand: four digits, '/', two
   * characters other than line terminators, '/', two digits, '/', five digits,
   * then an optional E (either case) and an optional digit 1-9.
   */
  predicate HivCareNumberShape(s: string) {
    && |s| >= 16
    && AllAsciiDigits(s[..4]) && s[4] == '/'
    && !IsLineTerminator(s[5]) && !IsLineTerminator(s[6]) && s[7] == '/'
    && AllAsciiDigits(s[8..10]) && s[10] == '/'
    && AllAsciiDigits(s[11..16])
    && HivCareNumberSuffix(s[16..])
  }

  predicate IsLetterE(c: char) {
    c == 'E' || c == 'e'
  }

  predicate HivCareNumberSuffix(t: string) {
    || t == []
    || (|t| == 1 && (IsLetterE(t[0]) || '1' <= t[0] <= '9'))
    || (|t| == 2 && IsLetterE(t[0]) && '1' <= t[1] <= '9')
  }

  lemma DigitsIgnoreCase(s: string)
    ensures AllIn(Range('0', '9'), s, true) <==> AllAsciiDigits(s)
  {
    forall i | 0 <= i < |s| {
      DigitRangeIgnoresCase('0', '9', s[i]);
    }
  }

  /** Matching an exactly-repeated piece at position `k` of `s`. */
  lemma ExactAt(p: seq<Piece>, i: nat, s: string, k: nat)
    requires i < |p| && p[i].min == p[i].max && k <= |s|
    ensures Matches(p[i..], s[k..], true) <==>
      k + p[i].max <= |s| && AllIn(p[i].cls, s[k..k + p[i].max], true) &&
      Matches(p[i + 1..], s[k + p[i].max..], true)
  {
    var n := p[i].max;
    assert p[i..][0] == p[i] && p[i..][1..] == p[i + 1..];
    RepeatExactly(p[i].cls, n, p[i + 1..], s[k..], true);
    if k + n <= |s| {
      assert s[k..][..n] == s[k..k + n];
      assert s[k..][n..] == s[k + n..];
    }
  }

  lemma SuffixMatches(t: string)
    ensures Matches(HivCareNumberPattern[7..], t, true) <==> HivCareNumberSuffix(t)
  {
    var p := HivCareNumberPattern[7..];
    assert p == [Piece(Literal('E'), 0, 1), Piece(Range('1', '9'), 0, 1)];
    var last := p[1..];
    Optional(Literal('E'), last, t, true);
    assert last[0] == Piece(Range('1', '9'), 0, 1) && last[1..] == [];
    Optional(Range('1', '9'), [], t, true);
    if |t| > 0 {
      Optional(Range('1', '9'), [], t[1..], true);
      DigitRangeIgnoresCase('1', '9', t[0]);
      if |t| > 1 { DigitRangeIgnoresCase('1', '9', t[1]); }
    }
  }

  /** The seven fixed-width pieces of the HIV care number pattern, as classes over slices. */
  predicate FixedPartMatches(s: string)
    requires |s| >= 16
  {
    && AllIn(Range('0', '9'), s[0..4], true) && AllIn(Literal('/'), s[4..5], true)
    && AllIn(AnyChar, s[5..7], true) && AllIn(Literal('/'), s[7..8], true)
    && AllIn(Range('0', '9'), s[8..10], true) && AllIn(Literal('/'), s[10..11], true)
    && AllIn(Range('0', '9'), s[11..16], true)
  }

  lemma FixedPart(s: string)
    ensures Matches(HivCareNumberPattern, s, true) <==>
      |s| >= 16 && FixedPartMatches(s) && Matches(HivCareNumberPattern[7..], s[16..], true)
  {
    FixedPartOf(HivCareNumberPattern, s);
  }

  /** FixedPart, stated for any pattern that starts with the same seven pieces. */
  lemma FixedPartOf(p: seq<Piece>, s: string)
    requires |p| == 9
    requires p[0] == Piece(Range('0', '9'), 4, 4) && p[1] == Piece(Literal('/'), 1, 1)
    requires p[2] == Piece(AnyChar, 2, 2) && p[3] == Piece(Literal('/'), 1, 1)
    requires p[4] == Piece(Range('0', '9'), 2, 2) && p[5] == Piece(Literal('/'), 1, 1)
    requires p[6] == Piece(Range('0', '9'), 5, 5)
    ensures Matches(p, s, true) <==>
      |s| >= 16 && FixedPartMatches(s) && Matches(p[7..], s[16..], true)
  {
    assert p[0..] == p;
    assert s[0..] == s;
    ExactAt(p, 0, s, 0);
    if |s| >= 4 { ExactAt(p, 1, s, 4); }
    if |s| >= 5 { ExactAt(p, 2, s, 5); }
    if |s| >= 7 { ExactAt(p, 3, s, 7); }
    if |s| >= 8 { ExactAt(p, 4, s, 8); }
    if |s| >= 10 { ExactAt(p, 5, s, 10); }
    if |s| >= 11 { ExactAt(p, 6, s, 11); }
  }

  lemma FixedPartIsLayout(s: string)
    requires |s| >= 16
    ensures FixedPartMatches(s) <==>
      && AllAsciiDigits(s[..4]) && s[4] == '/'
      && !IsLineTerminator(s[5]) && !IsLineTerminator(s[6]) && s[7] == '/'
      && AllAsciiDigits(s[8..10]) && s[10] == '/'
      && AllAsciiDigits(s[11..16])
  {
    DigitsIgnoreCase(s[0..4]);
    DigitsIgnoreCase(s[8..10]);
    DigitsIgnoreCase(s[11..16]);
    assert s[0..4] == s[..4];
    assert s[4..5] == [s[4]] && s[7..8] == [s[7]] && s[10..11] == [s[10]];
    assert s[5..7] == [s[5], s[6]];
  }

  /** The pattern and the hand-written layout accept the same strings. */
  lemma HivCareNumberPatternIsShape(s: string)
    ensures Matches(HivCareNumberPattern, s, true) <==> HivCareNumberShape(s)
  {
    FixedPart(s);
    if |s| >= 16 {
      FixedPartIsLayout(s);
      SuffixMatches(s[16..]);
    }
  }

  /** `^[1-5][0-9]?$` accepts the decimal text of 1-5 and 10-59, nothing else. */
  lemma WeekPatternAccepts(n: int)
    ensures Matches(WeekPattern, IntegerToString(n), true) <==> (1 <= n <= 5 || 10 <= n <= 59)
  {
    var s := IntegerToString(n);
    HeadThenUpTo(Range('1', '5'), Range('0', '9'), 1, s, true);
    DigitRangeIgnoresCase('1', '5', s[0]);
    if n >= 0 {
      DigitsOfSmall(n);
      if 10 <= n < 100 { DigitRangeIgnoresCase('0', '9', s[1]); }
    }
  }

  /** `^([1-9])[0-9]{0,2}$` accepts the decimal text of 1-999, nothing else. */
  lemma AgePatternAccepts(n: int)
    ensures Matches(AgePattern, IntegerToString(n), true) <==> 1 <= n <= 999
  {
    var s := IntegerToString(n);
    HeadThenUpTo(Range('1', '9'), Range('0', '9'), 2, s, true);
    DigitRangeIgnoresCase('1', '9', s[0]);
    if n >= 0 {
      DigitsOfSmall(n);
      if 10 <= n < 1000 { DigitsIgnoreCase(s[1..]); }
    }
  }

  /** Matching the week's decimal text against its pattern. */
  method MatchWeek(n: int) returns (matched: bool)
    ensures matched <==> (1 <= n <= 5 || 10 <= n <= 59)
  {
    matched := Matches(WeekPattern, IntegerToString(n), true);
    WeekPatternAccepts(n);
  }

  /** Matching the age's decimal text against its pattern. */
  method MatchAge(n: int) returns (matched: bool)
    ensures matched <==> 1 <= n <= 999
  {
    matched := Matches(AgePattern, IntegerToString(n), true);
    AgePatternAccepts(n);
  }

  /** Matching an HIV care number against its pattern. */
  method MatchHivCareNumber(s: string) returns (matched: bool)
    ensures matched <==> HivCareNumberShape(s)
  {
    matched := Matches(HivCareNumberPattern, s, true);
    HivCareNumberPatternIsShape(s);
  }

  // ---------------------------------------------------------------------------
  // Validation

  /** The eleven rejectIfEmpty calls, in the order the validator makes them. */
  const RequiredOrder: seq<Field> := [
    ConsultationDate, PregnantNumber, Age, HivStatusAtReception, TestProposal, TestResult,
    ResultAnnouncement, ArvDiscount, ArvStatus, PrenatalRank, WeekOfAmenorrhea]

  /** Spring's rejectIfEmpty, applied to each of `fields` in turn. */
  function RejectIfEmpty(form: ConsultationForm, fields: seq<Field>): seq<Rejection> {
    if fields == [] then []
    else
      (if IsEmpty(form, fields[0]) then [Rejected(fields[0], Coded(FieldRequired))] else []) +
      RejectIfEmpty(form, fields[1..])
  }

  predicate Distinct<T(==)>(xs: seq<T>) {
    forall i, j :: 0 <= i < j < |xs| ==> xs[i] != xs[j]
  }

  /** Each listed empty property is rejected exactly once, and nothing else is. */
  lemma {:induction false} RejectIfEmptyCount(form: ConsultationForm, fields: seq<Field>, e: Rejection)
    requires Distinct(fields)
    ensures multiset(RejectIfEmpty(form, fields))[e] ==
      if e.Rejected? && e.reason == Coded(FieldRequired) && e.field in fields && IsEmpty(form, e.field)
      then 1 else 0
  {
    if fields != [] {
      assert Distinct(fields[1..]) by {
        forall i, j | 0 <= i < j < |fields| - 1 ensures fields[1..][i] != fields[1..][j] {
          assert fields[1..][i] == fields[i + 1] && fields[1..][j] == fields[j + 1];
        }
      }
      RejectIfEmptyCount(form, fields[1..], e);
      assert e.Rejected? && e.field in fields ==> e.field == fields[0] || e.field in fields[1..];
      assert fields[0] !in fields[1..] by {
        forall i | 0 <= i < |fields| - 1 ensures fields[1..][i] != fields[0] {
          assert fields[1..][i] == fields[i + 1];
        }
      }
    }
  }

  /** A well-formed number already registered to a different pregnant patient. */
  predicate HeldByOther(form: ConsultationForm, holder: Option<PregnantHolder>) {
    holder.Some? && Some(holder.value.pregnantPatientId) != form.pregnantPatientId
  }

  // One predicate per rule: `e` is a rejection that rule produces for `form`.

  /** Each of the eleven required properties is rejected when it is empty. */
  predicate RequiredRejects(form: ConsultationForm, e: Rejection) {
    e.Rejected? && e.reason == Coded(FieldRequired) && e.field in RequiredFields && IsEmpty(form, e.field)
  }

  /** Only a negative week of amenorrhea is rejected. */
  predicate WeekRejects(form: ConsultationForm, e: Rejection) {
    e == Rejected(WeekOfAmenorrhea, Coded(NonValidWeekAmenorrhea)) &&
    form.weekOfAmenorrhea.Some? && form.weekOfAmenorrhea.value < 0
  }

  /** A screening not done (0) or refused (2) cannot have a result of 0 or 1. */
  predicate ScreeningRejects(form: ConsultationForm, e: Rejection) {
    e == Rejected(SpousalScreeningResult, Coded(NonScreeningResult)) &&
    IsOneOf(form.spousalScreening, 0, 2) && IsOneOf(form.spousalScreeningResult, 0, 1)
  }

  /**
   * A non-empty HIV care number is rejected when malformed; a well-formed one
   * when another pregnant patient holds it (naming that holder's number), and
   * otherwise when it identifies a male patient.
   */
  predicate NumberRejects(
    form: ConsultationForm, holder: Option<PregnantHolder>, patient: Option<PatientRecord>, e: Rejection)
  {
    var n := form.hivCareNumber;
    n != "" &&
    if !HivCareNumberShape(n) then e == Rejected(HivCareNumber, Coded(InvalidHivNumber))
    else if HeldByOther(form, holder) then e == Rejected(HivCareNumber, AlreadyAssigned(holder.value.pregnantNumber))
    else patient.Some? && patient.value.gender == "M" && e == Rejected(HivCareNumber, Coded(NumberNotForFemale))
  }

  /** An age outside 8-120 is rejected. */
  predicate AgeRejects(form: ConsultationForm, e: Rejection) {
    e == Rejected(Age, Coded(NonValidAge)) && form.age.Some? && (form.age.value < 8 || form.age.value > 120)
  }

  /** HIV status, test and announcement answers that contradict each other. */
  predicate TestAnswersReject(form: ConsultationForm, e: Rejection) {
    (e == Rejected(TestProposal, Coded(HivPlusNoTest)) &&
     form.hivStatusAtReception == Some(1) && form.testProposal == Some(1)) ||
    (e == Rejected(TestResult, Coded(NonTestResult)) &&
     IsOneOf(form.testProposal, 0, 2) && IsOneOf(form.hivStatusAtReception, 0, 2) && IsOneOf(form.testResult, 0, 1)) ||
    (e == Rejected(TestResult, Coded(TestResultRequired)) &&
     form.testResult == Some(1) && form.testProposal == Some(2)) ||
    (e == Rejected(ResultAnnouncement, Coded(AnnouncementNotValid)) &&
     form.resultAnnouncement == Some(1) && form.testProposal == Some(2))
  }

  /** Antiretroviral answers for a woman known neither positive at reception nor by her test. */
  predicate TreatmentAnswersReject(form: ConsultationForm, e: Rejection) {
    (e == Rejected(ArvDiscount, Coded(NonHivDiscount)) &&
     form.arvDiscount == Some(1) && form.hivStatusAtReception != Some(1) && form.testResult != Some(1)) ||
    (e == Rejected(ArvStatus, Coded(NonHivOnArv)) &&
     form.arvStatus == Some(1) && form.hivStatusAtReception != Some(1))
  }

  /** The appointment must fall strictly after the consultation. */
  predicate AppointmentRejects(form: ConsultationForm, e: Rejection) {
    var c, a := form.consultationDate, form.appointmentDate;
    c.Some? && a.Some? &&
    ((e == Rejected(AppointmentDate, AppointmentBeforeConsultation) && c.value > a.value) ||
     (e == Rejected(AppointmentDate, AppointmentOnConsultationDay) && c.value == a.value))
  }

  /** The rejections validation produces for a present form, given the two lookups' answers. */
  predicate Produced(
    form: ConsultationForm, holder: Option<PregnantHolder>, patient: Option<PatientRecord>, e: Rejection)
  {
    RequiredRejects(form, e) || WeekRejects(form, e) || ScreeningRejects(form, e) ||
    NumberRejects(form, holder, patient, e) || AgeRejects(form, e) ||
    TestAnswersReject(form, e) || TreatmentAnswersReject(form, e) || AppointmentRejects(form, e)
  }

  /** The eleven rejectIfEmpty calls. */
  method CheckRequired(form: ConsultationForm) returns (part: seq<Rejection>)
    ensures forall e :: e in part <==> RequiredRejects(form, e)
  {
    part := RejectIfEmpty(form, RequiredOrder);
    forall e: Rejection ensures e in part <==>
      e.Rejected? && e.reason == Coded(FieldRequired) && e.field in RequiredOrder && IsEmpty(form, e.field)
    {
      RejectIfEmptyCount(form, RequiredOrder, e);
    }
    assert forall f :: f in RequiredOrder <==> f in RequiredFields;
  }

  /** The week check: a week the pattern refuses is rejected only when negative. */
  method CheckWeek(form: ConsultationForm) returns (part: seq<Rejection>)
    ensures forall e :: e in part <==> WeekRejects(form, e)
  {
    part := [];
    if form.weekOfAmenorrhea.Some? {
      var w := form.weekOfAmenorrhea.value;
      var matched := MatchWeek(w);
      if !matched && w < 0 {
        part := [Rejected(WeekOfAmenorrhea, Coded(NonValidWeekAmenorrhea))];
      }
    }
  }

  method CheckScreening(form: ConsultationForm) returns (part: seq<Rejection>)
    requires NoNullUnboxing(form)
    ensures forall e :: e in part <==> ScreeningRejects(form, e)
  {
    part := [];
    if form.spousalScreening.Some? && (form.spousalScreening.value == 0 || form.spousalScreening.value == 2) {
      var r := form.spousalScreeningResult.value;
      if r == 0 || r == 1 {
        part := [Rejected(SpousalScreeningResult, Coded(NonScreeningResult))];
      }
    }
  }

  /** The HIV care number check: the pattern, then the holder lookup, then the patient lookup. */
  method CheckHivCareNumber(
    form: ConsultationForm,
    holderByHivCareNumber: string -> Option<PregnantHolder>,
    patientByIdentifier: string -> Option<PatientRecord>)
    returns (part: seq<Rejection>)
    ensures |part| <= 1
    ensures forall e :: e in part <==>
      NumberRejects(form, holderByHivCareNumber(form.hivCareNumber), patientByIdentifier(form.hivCareNumber), e)
  {
    part := [];
    var n := form.hivCareNumber;
    if n != "" {
      var matched := MatchHivCareNumber(n);
      if !matched {
        part := [Rejected(HivCareNumber, Coded(InvalidHivNumber))];
      } else {
        var holder := holderByHivCareNumber(n);
        if holder.Some? && Some(holder.value.pregnantPatientId) != form.pregnantPatientId {
          part := [Rejected(HivCareNumber, AlreadyAssigned(holder.value.pregnantNumber))];
        } else {
          var patient := patientByIdentifier(n);
          if patient.Some? && patient.value.gender == "M" {
            part := [Rejected(HivCareNumber, Coded(NumberNotForFemale))];
          }
        }
      }
    }
  }

  /** The age check: the pattern admits 1-999, so only the bounds 8-120 decide. */
  method CheckAge(form: ConsultationForm) returns (part: seq<Rejection>)
    ensures forall e :: e in part <==> AgeRejects(form, e)
  {
    part := [];
    if form.age.Some? {
      var a := form.age.value;
      var matched := MatchAge(a);
      if !matched || a < 8 || a > 120 {
        part := [Rejected(Age, Coded(NonValidAge))];
      }
    }
  }

  method CheckTestAnswers(form: ConsultationForm) returns (part: seq<Rejection>)
    requires NoNullUnboxing(form)
    ensures forall e :: e in part <==> TestAnswersReject(form, e)
  {
    part := [];
    if form.hivStatusAtReception.Some? && form.testProposal.Some? &&
       form.hivStatusAtReception.value == 1 && form.testProposal.value == 1 {
      part := part + [Rejected(TestProposal, Coded(HivPlusNoTest))];
    }
    if form.testProposal.Some? && (form.testProposal.value == 0 || form.testProposal.value == 2) {
      var status := form.hivStatusAtReception.value;
      if (status == 0 || status == 2) && (form.testResult.value == 0 || form.testResult.value == 1) {
        part := part + [Rejected(TestResult, Coded(NonTestResult))];
      }
    }
    if form.testResult.Some? && form.testProposal.Some? &&
       form.testResult.value == 1 && form.testProposal.value == 2 {
      part := part + [Rejected(TestResult, Coded(TestResultRequired))];
    }
    if form.resultAnnouncement.Some? && form.testProposal.Some? &&
       form.resultAnnouncement.value == 1 && form.testProposal.value == 2 {
      part := part + [Rejected(ResultAnnouncement, Coded(AnnouncementNotValid))];
    }
  }

  method CheckTreatmentAnswers(form: ConsultationForm) returns (part: seq<Rejection>)
    requires NoNullUnboxing(form)
    ensures forall e :: e in part <==> TreatmentAnswersReject(form, e)
  {
    part := [];
    if form.arvDiscount.Some? && form.arvDiscount.value == 1 {
      if form.hivStatusAtReception.value != 1 && form.testResult.value != 1 {
        part := part + [Rejected(ArvDiscount, Coded(NonHivDiscount))];
      }
    }
    if form.arvStatus.Some? && form.arvStatus.value == 1 {
      if form.hivStatusAtReception.value != 1 {
        part := part + [Rejected(ArvStatus, Coded(NonHivOnArv))];
      }
    }
  }

  method CheckAppointment(form: ConsultationForm) returns (part: seq<Rejection>)
    ensures forall e :: e in part <==> AppointmentRejects(form, e)
  {
    part := [];
    if form.appointmentDate.Some? && form.consultationDate.Some? {
      if form.consultationDate.value > form.appointmentDate.value {
        part := [Rejected(AppointmentDate, AppointmentBeforeConsultation)];
      } else if form.consultationDate.value == form.appointmentDate.value {
        part := [Rejected(AppointmentDate, AppointmentOnConsultationDay)];
      }
    }
  }

  /**
   * validate: a null form gets the single global error; for a present form
   * the errors hold exactly the rejections the rules produce, the two
   * lookups being made on the form's HIV care number.
   */
  method Validate(
    target: Option<ConsultationForm>,
    holderByHivCareNumber: string -> Option<PregnantHolder>,
    patientByIdentifier: string -> Option<PatientRecord>)
    returns (errors: seq<Rejection>)
    requires target.Some? ==> NoNullUnboxing(target.value)
    ensures target.None? ==> errors == [GeneralError]
    ensures target.Some? ==>
      var form := target.value;
      forall e :: e in errors <==>
        Produced(form, holderByHivCareNumber(form.hivCareNumber), patientByIdentifier(form.hivCareNumber), e)
  {
    if target.None? {
      errors := [GeneralError];
      return;
    }
    var form := target.value;
    var required := CheckRequired(form);
    var week := CheckWeek(form);
    var screening := CheckScreening(form);
    var number := CheckHivCareNumber(form, holderByHivCareNumber, patientByIdentifier);
    var age := CheckAge(form);
    var testAnswers := CheckTestAnswers(form);
    var treatmentAnswers := CheckTreatmentAnswers(form);
    var appointment := CheckAppointment(form);
    errors := required + week + screening + number + age + testAnswers + treatmentAnswers + appointment;
  }
}
