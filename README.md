# PTME follow-up module: a verified model

This project models the core of the OpenMRS PTME module (prevention of
mother-to-child transmission of HIV). The module covers three things:

- **Validation of the prenatal consultation form.** A fixed list of rules runs over one form. Each rule that fails adds a rejection (a field and a message code) to Spring's `Errors` collector.
- **Follow-up rules in the data-access layer.** These are written inside SQL text. They say which PCR was last, which PCR result is still pending, when each PCR test is due, which mothers and children have an appointment this month or missed one, and how a mother follow-up's On/Off status and outcome code are derived. The list queries also assemble optional filter clauses and bind named parameters for them.
- **Report generation.** One indicator script runs per indicator of each dataset of a report. The integer values are gathered into one run per dataset.

SQL `NULL` is `Option.None`. A comparison with `NULL` selects nothing. A `DATE` is a day number. A `DATETIME` is a `Moment` (a day plus a second), and a `DATE` compared with it is taken at midnight. The current time (`NOW()`, `new Date()`) is a parameter. Month arithmetic is an abstract `MonthCalendar`. The predicate `Calendar.Lawful` states the few laws the proofs use.

Modules:

- `Common`: `Option` and `Result`.
- `JavaText`: `Integer.toString`, `Integer.parseInt` and `String.contains`.
- `JavaRegex`: a whole-string matcher for sequences of quantified character classes. This is the subset the validator's three patterns use, with `CASE_INSENSITIVE`.
- `PrenatalFormValidator`: the validator.
- `Calendar`: days, moments, months and the "passed" classification.
- `Visits`: the last visit, visit counts and the contact column.
- `ChildFollowupRules`: last PCR, pending PCR result and the five PCR schedules.
- `AppointmentRules`: the upcoming and missed appointment lists.
- `MotherFollowupRules`: the status and outcome columns of the mother follow-up list.
- `QueryFilters`: the optional clauses and the parameter bindings of the list queries.
- `ReportGeneration`: the report run.

## Model

| member | source | states |
|---|---|---|
| PrenatalFormValidator.Validate | api/src/main/java/org/openmrs/module/ptme/forms/validators/PrenatalFormValidator.java:24-128 | A null form yields exactly one error, the global "general.error". For a present form, a rejection is recorded if and only if one of the eight rule groups produces it. The two lookups are made on the form's HIV care number. |
| PrenatalFormValidator.CheckRequired | api/src/main/java/org/openmrs/module/ptme/forms/validators/PrenatalFormValidator.java:30-43 | "ptme.field.required" is recorded on a field if and only if the field is one of the eleven required properties and is null (or an empty string). |
| PrenatalFormValidator.RejectIfEmptyCount | api/src/main/java/org/openmrs/module/ptme/forms/validators/PrenatalFormValidator.java:30-43 | Over distinct fields, the rejectIfEmpty calls record each empty field exactly once and record nothing else. |
| PrenatalFormValidator.WeekPatternAccepts | api/src/main/java/org/openmrs/module/ptme/forms/validators/PrenatalFormValidator.java:45-46 | `^[1-5][0-9]?$` accepts the decimal text of an integer if and only if the integer is 1-5 or 10-59. |
| PrenatalFormValidator.MatchWeek | api/src/main/java/org/openmrs/module/ptme/forms/validators/PrenatalFormValidator.java:45-46 | The week's match result is true exactly for 1-5 and 10-59. |
| PrenatalFormValidator.CheckWeek | api/src/main/java/org/openmrs/module/ptme/forms/validators/PrenatalFormValidator.java:45-48 | The week of amenorrhea is rejected if and only if it is present and negative. Values such as 0 or 99 fail the pattern but are never rejected. |
| PrenatalFormValidator.CheckScreening | api/src/main/java/org/openmrs/module/ptme/forms/validators/PrenatalFormValidator.java:50-56 | The screening result is rejected if and only if the screening is 0 or 2 and its result is 0 or 1. |
| PrenatalFormValidator.HivCareNumberPatternIsShape | api/src/main/java/org/openmrs/module/ptme/forms/validators/PrenatalFormValidator.java:59 | The pattern accepts exactly this layout: four digits, '/', two characters that are not line terminators, '/', two digits, '/', five digits, an optional E or e, and an optional digit 1-9. |
| PrenatalFormValidator.MatchHivCareNumber | api/src/main/java/org/openmrs/module/ptme/forms/validators/PrenatalFormValidator.java:59-60 | The match result is true exactly for numbers of that layout. |
| PrenatalFormValidator.CheckHivCareNumber | api/src/main/java/org/openmrs/module/ptme/forms/validators/PrenatalFormValidator.java:58-74 | At most one rejection. A non-empty number is rejected as invalid if and only if it is malformed. A well-formed number held by a different pregnant patient is rejected with that holder's number. Only when there is no such holder is a number owned by a male patient rejected. |
| PrenatalFormValidator.AgePatternAccepts | api/src/main/java/org/openmrs/module/ptme/forms/validators/PrenatalFormValidator.java:76-79 | `^([1-9])[0-9]{0,2}$` accepts the decimal text of an integer if and only if it is 1-999. |
| PrenatalFormValidator.MatchAge | api/src/main/java/org/openmrs/module/ptme/forms/validators/PrenatalFormValidator.java:76-79 | The age's match result is true exactly for 1-999. |
| PrenatalFormValidator.CheckAge | api/src/main/java/org/openmrs/module/ptme/forms/validators/PrenatalFormValidator.java:76-82 | A present age is rejected if and only if it is below 8 or above 120. |
| PrenatalFormValidator.CheckTestAnswers | api/src/main/java/org/openmrs/module/ptme/forms/validators/PrenatalFormValidator.java:84-104 | Each of the four test-answer rejections is recorded if and only if its own condition holds: status 1 with proposal 1; proposal and status in {0,2} with result in {0,1}; result 1 with proposal 2; announcement 1 with proposal 2. |
| PrenatalFormValidator.CheckTreatmentAnswers | api/src/main/java/org/openmrs/module/ptme/forms/validators/PrenatalFormValidator.java:106-118 | arvDiscount 1 is rejected if and only if neither the status nor the test result is 1. arvStatus 1 is rejected if and only if the status is not 1. |
| PrenatalFormValidator.CheckAppointment | api/src/main/java/org/openmrs/module/ptme/forms/validators/PrenatalFormValidator.java:120-126 | With both dates present, an appointment before the consultation gets one message and one on the same instant gets the other. A later appointment gets none. |
| JavaText.ParseIntOfIntegerToString | api/src/main/java/org/openmrs/module/ptme/api/db/hibernate/HibernatePreventTransmissionDAO.java:1644-1646 | Integer.parseInt reads back every 32-bit value that toString writes. |
| JavaText.ParseInt | api/src/main/java/org/openmrs/module/ptme/api/db/hibernate/HibernatePreventTransmissionDAO.java:1646 | A text is accepted exactly when it is an optional sign followed by one or more ASCII digits and the value it denotes lies within 32 bits. The result is that value, so "+07" gives 7 and "-0" gives 0. |
| Calendar.PassedByDay | api/src/main/java/org/openmrs/module/ptme/api/db/hibernate/HibernatePreventTransmissionDAO.java:845-846 | For a valid current moment, "passed" is 0 exactly when the appointment day is in the future, 1 exactly when it is today, and 2 exactly when it is past. |
| Calendar.WholeUnits | api/src/main/java/org/openmrs/module/ptme/api/db/hibernate/HibernatePreventTransmissionDAO.java:1109 | FLOOR(DATEDIFF / n) is the number of whole n-day units: r·n ≤ difference < (r+1)·n. |
| Visits.LastVisitDate | api/src/main/java/org/openmrs/module/ptme/api/db/hibernate/HibernatePreventTransmissionDAO.java:841 | MAX(visit_date) is NULL exactly for no visits. Otherwise it is the date of some visit and no visit is later. |
| Visits.Kept | api/src/main/java/org/openmrs/module/ptme/api/db/hibernate/HibernatePreventTransmissionDAO.java:841 | Exactly the non-voided visits are kept, each as many times as it occurs, and nothing else. |
| Visits.Before | api/src/main/java/org/openmrs/module/ptme/api/db/hibernate/HibernatePreventTransmissionDAO.java:848 | Exactly the visits dated before the given day are kept, each as many times as it occurs, and nothing else. |
| Visits.CountOrNull | api/src/main/java/org/openmrs/module/ptme/api/db/hibernate/HibernatePreventTransmissionDAO.java:848-849 | A count reached through a LEFT JOIN is NULL exactly when there is nothing to count. Otherwise it is the positive number of rows. |
| Visits.LastKeptNotLater | api/src/main/java/org/openmrs/module/ptme/api/db/hibernate/HibernatePreventTransmissionDAO.java:841-890 | The last non-voided visit is never later than the last visit of all. |
| Visits.Contact | api/src/main/java/org/openmrs/module/ptme/api/db/hibernate/HibernatePreventTransmissionDAO.java:836-838 | Mobile " / " landline when both exist, the one that exists otherwise, NULL when neither does. |
| ChildFollowupRules.FollowupStatus | api/src/main/java/org/openmrs/module/ptme/api/db/hibernate/HibernatePreventTransmissionDAO.java:708 | A child follow-up is "Off" exactly when it has a result and "On" exactly when it has none. |
| ChildFollowupRules.LastPcr | api/src/main/java/org/openmrs/module/ptme/api/db/hibernate/HibernatePreventTransmissionDAO.java:691-699 | The label, date and result all come from the highest-numbered PCR that has a result. All three are NULL exactly when no PCR has one. |
| ChildFollowupRules.PendingPcrResult | api/src/main/java/org/openmrs/module/ptme/api/db/hibernate/HibernatePreventTransmissionDAO.java:1266-1291 | An open, non-voided follow-up is listed exactly when its highest-numbered sampled PCR has no result. The rank and date are that PCR's, and numDay is the number of days from the sample to today. |
| ChildFollowupRules.PcrKindOf | api/src/main/java/org/openmrs/module/ptme/api/db/hibernate/HibernatePreventTransmissionDAO.java:1084-1238 | pcrType 1, 2, 3, 4 and 5 each choose their own schedule, and any other value, or NULL, chooses none. |
| ChildFollowupRules.PcrAppointment | api/src/main/java/org/openmrs/module/ptme/api/db/hibernate/HibernatePreventTransmissionDAO.java:1086-1237 | A child is listed for a schedule exactly when it is due for it, with the birth date as the last visit and the mother's contact. PCR 1 is due at birth + 42 days with "passed" classified against now. PCR 2 reports serology 1 (visit 1) when its result is known, else PCR 1 (visit 2). PCR 3 reports the serology 1 date, else the PCR 2 sample date, with "passed" 2. PCR 4 and PCR 5 are due at birth + 9 and + 18 months. The 18-month test uses the intended rule `Pcr5Due`; the rule as written is `Pcr5DueAsWritten` (see Findings). |
| ChildFollowupRules.AgeThresholds | api/src/main/java/org/openmrs/module/ptme/api/db/hibernate/HibernatePreventTransmissionDAO.java:1109-1111 | The week and 30-day-month thresholds in days: ≥ 6 weeks is ≥ 42 days; ≤ 8 months is < 270; ≥ 9 is ≥ 270; ≥ 6 is ≥ 180; < 18 is < 540. |
| ChildFollowupRules.Pcr1DueInDays | api/src/main/java/org/openmrs/module/ptme/api/db/hibernate/HibernatePreventTransmissionDAO.java:1100-1112 | PCR 1 is due exactly when the child is not voided, the follow-up is open and PCR 1 is not sampled, and either the child is 42-269 days old with no serology dates or 270+ days old with serology 1 positive. |
| ChildFollowupRules.Pcr1AppointmentReached | api/src/main/java/org/openmrs/module/ptme/api/db/hibernate/HibernatePreventTransmissionDAO.java:1100-1101 | For a child due for PCR 1, the appointment (birth + 6 weeks) is never in the future. "passed" is 1 exactly on day 42. |
| ChildFollowupRules.Pcr2ReportsAResult | api/src/main/java/org/openmrs/module/ptme/api/db/hibernate/HibernatePreventTransmissionDAO.java:1120-1125 | For a child due for PCR 2, "passed" is always present. numberOfVisit is 1 exactly when serology 1 has a result and 2 exactly when it has none. |
| ChildFollowupRules.Pcr2AfterNegativeWaitsSixMonths | api/src/main/java/org/openmrs/module/ptme/api/db/hibernate/HibernatePreventTransmissionDAO.java:1142-1150 | After a negative PCR 1 without a positive serology, PCR 2 is due only at 180-269 days. |
| ChildFollowupRules.Pcr3OnlyWhenDiscordant | api/src/main/java/org/openmrs/module/ptme/api/db/hibernate/HibernatePreventTransmissionDAO.java:1158-1174 | PCR 3 is due only when the results of PCR 1 and PCR 2 are {0, 1} and the child is under 270 days; its "passed" is 2. |
| ChildFollowupRules.Pcr4Window | api/src/main/java/org/openmrs/module/ptme/api/db/hibernate/HibernatePreventTransmissionDAO.java:1191-1208 | The 9-month test is due only at 270-539 days, without serology 1, with PCR 1 or PCR 2 unsampled. Its appointment (birth + 9 months) is no later than the end of this month. |
| ChildFollowupRules.Pcr5AsWrittenSkipsOpenFollowups | api/src/main/java/org/openmrs/module/ptme/api/db/hibernate/HibernatePreventTransmissionDAO.java:1233-1237 | As written, the 18-month test never lists a follow-up without a result. |
| ChildFollowupRules.Pcr5AsWrittenCounterexample | api/src/main/java/org/openmrs/module/ptme/api/db/hibernate/HibernatePreventTransmissionDAO.java:1237 | A 600-day-old child with an open follow-up is due as intended but dropped as written. |
| ChildFollowupRules.Pcr5Intended | api/src/main/java/org/openmrs/module/ptme/api/db/hibernate/HibernatePreventTransmissionDAO.java:1233-1237 | As intended, from 540 days without serology 2, every open follow-up is listed. A closed one is listed exactly when its result is not 1, 2, 4 or 5. |
| AppointmentRules.MotherUpcoming | api/src/main/java/org/openmrs/module/ptme/api/db/hibernate/HibernatePreventTransmissionDAO.java:824-857 | Listed exactly when an open, non-voided follow-up has a non-voided visit and the month after its last such visit is in the current month. The row carries that visit, the appointment, "passed", the count of kept visits before this month and the contact. |
| AppointmentRules.MotherMissed | api/src/main/java/org/openmrs/module/ptme/api/db/hibernate/HibernatePreventTransmissionDAO.java:875-904 | Listed exactly when an open, non-voided follow-up has a visit and the month after its last visit (voided or not) lies in the three months before this one. "passed" is absent. |
| AppointmentRules.MotherListsDisjoint | api/src/main/java/org/openmrs/module/ptme/api/db/hibernate/HibernatePreventTransmissionDAO.java:856-903 | Under the month laws, no follow-up is on both mother lists. This holds even though they take the last visit over different visits. |
| AppointmentRules.MotherUpcomingPassed | api/src/main/java/org/openmrs/module/ptme/api/db/hibernate/HibernatePreventTransmissionDAO.java:845-846 | On the upcoming list, "passed" is 0, 1 or 2 exactly for a future, today's or past appointment day. |
| AppointmentRules.ChildUpcoming | api/src/main/java/org/openmrs/module/ptme/api/db/hibernate/HibernatePreventTransmissionDAO.java:966-1000 | Listed exactly when the child is not voided, the follow-up is open, and either it was last seen before this month with the next visit due this month, or it was never seen and is one month old this month. The appointment and "passed" are NULL for a child never seen. |
| AppointmentRules.ChildMissed | api/src/main/java/org/openmrs/module/ptme/api/db/hibernate/HibernatePreventTransmissionDAO.java:1017-1045 | Listed exactly when a non-voided, open child with a visit had its next visit in the three months before this one. The row carries the count of visits before this month and the contact. |
| AppointmentRules.ChildListsDisjoint | api/src/main/java/org/openmrs/module/ptme/api/db/hibernate/HibernatePreventTransmissionDAO.java:996-1044 | No child is on both child lists. |
| AppointmentRules.ChildUpcomingSeenBeforeThisMonth | api/src/main/java/org/openmrs/module/ptme/api/db/hibernate/HibernatePreventTransmissionDAO.java:996 | Under the month laws, a listed child that has been seen was last seen before the first of this month. |
| MotherFollowupRules.DeathDateAsWritten | api/src/main/java/org/openmrs/module/ptme/api/db/hibernate/HibernatePreventTransmissionDAO.java:1724 | As written, without an end date a death is seen only if it is recorded at exactly the current moment. |
| MotherFollowupRules.DeathDate | api/src/main/java/org/openmrs/module/ptme/api/db/hibernate/HibernatePreventTransmissionDAO.java:1724 | As intended, a death is seen exactly when it is no later than the end date, or than now when there is no end date. It agrees with the written query whenever an end date is given. |
| MotherFollowupRules.TransferDate | api/src/main/java/org/openmrs/module/ptme/api/db/hibernate/HibernatePreventTransmissionDAO.java:1725-1728 | A transfer is seen exactly when it is strictly later than the patient's last initial encounter, and there is one. |
| MotherFollowupRules.Status | api/src/main/java/org/openmrs/module/ptme/api/db/hibernate/HibernatePreventTransmissionDAO.java:1711 | The status is always "On" or "Off". |
| MotherFollowupRules.DerivedOutcome | api/src/main/java/org/openmrs/module/ptme/api/db/hibernate/HibernatePreventTransmissionDAO.java:1713 | A recorded outcome is kept. Otherwise death gives 6, else a transfer gives 7, else a not-positive result gives 8, else NULL. |
| MotherFollowupRules.StatusOnIffNoOutcome | api/src/main/java/org/openmrs/module/ptme/api/db/hibernate/HibernatePreventTransmissionDAO.java:1711-1713 | The status is "On" exactly when the reported outcome is NULL. |
| MotherFollowupRules.MotherListRowOf | api/src/main/java/org/openmrs/module/ptme/api/db/hibernate/HibernatePreventTransmissionDAO.java:1708-1738 | A follow-up has a row exactly when it is not voided and has a visit. The row counts all visits, takes the last one, and carries the follow-up's start date, end date and recorded outcome. Its status and outcome are `Status` and `DerivedOutcome` of the death, transfer and not-positive dates seen, so the outcome is the recorded one or else 6, 7 or 8. A row is "On" exactly when it has no recorded outcome, no negative result, no transfer and no death seen, and exactly when its outcome is NULL. Deaths are seen by the intended rule `DeathDate`; the rule as written is `DeathDateAsWritten` (see Findings). |
| MotherFollowupRules.DeathAsWrittenCounterexample | api/src/main/java/org/openmrs/module/ptme/api/db/hibernate/HibernatePreventTransmissionDAO.java:1724 | A mother who died ten days before now, with no end date, is still reported "On" with no outcome. |
| MotherFollowupRules.DeathClosesFollowup | api/src/main/java/org/openmrs/module/ptme/api/db/hibernate/HibernatePreventTransmissionDAO.java:1711-1724 | As intended, a follow-up with no recorded outcome whose patient died by the reference moment is "Off" with outcome 6. |
| QueryFilters.ChildFollowupListQuery | api/src/main/java/org/openmrs/module/ptme/api/db/hibernate/HibernatePreventTransmissionDAO.java:716-754 | A null status fails, as the Java code does at its test for "Off". Otherwise the bound parameters are exactly the placeholders of the text. The clauses select a row exactly when its status matches and, for "Off", its result date is in the given range or equals the one date given. A date clause is appended only for "Off" with a date. |
| QueryFilters.ChildListOn | api/src/main/java/org/openmrs/module/ptme/api/db/hibernate/HibernatePreventTransmissionDAO.java:708-718 | Asking for "On", the status and date clauses select exactly the open follow-ups, whatever dates are given. |
| QueryFilters.ChildListOffBetween | api/src/main/java/org/openmrs/module/ptme/api/db/hibernate/HibernatePreventTransmissionDAO.java:718-720 | Asking for "Off" between two dates, the status and date clauses select exactly the closed follow-ups whose result date is in that range. |
| QueryFilters.CurrentlyOnBound | api/src/main/java/org/openmrs/module/ptme/api/db/hibernate/HibernatePreventTransmissionDAO.java:503-535 | The bindings of the currently-on list are exactly the placeholders its clauses name. |
| QueryFilters.CurrentlyOnSelects | api/src/main/java/org/openmrs/module/ptme/api/db/hibernate/HibernatePreventTransmissionDAO.java:503-510 | Its clauses select exactly the rows whose columns equal every filter given. |
| QueryFilters.MotherCurrentlyOnQuery | api/src/main/java/org/openmrs/module/ptme/api/db/hibernate/HibernatePreventTransmissionDAO.java:503-535 | The assembled query is fully and only bound and selects exactly the rows matching every filter given. |
| QueryFilters.MotherListPlaceholders | api/src/main/java/org/openmrs/module/ptme/api/db/hibernate/HibernatePreventTransmissionDAO.java:1724-1755 | The placeholders are :endDate in the death join when an end date is given, plus one or two per filter appended. |
| QueryFilters.MotherListSelects | api/src/main/java/org/openmrs/module/ptme/api/db/hibernate/HibernatePreventTransmissionDAO.java:1745-1755 | With the used parameters bound as given, the clauses select exactly the rows with the recorded outcome, the date in range on the chosen column, and the derived status. |
| QueryFilters.AppendMotherListClauses | api/src/main/java/org/openmrs/module/ptme/api/db/hibernate/HibernatePreventTransmissionDAO.java:1745-1755 | The clauses appended are the outcome, range and status clauses, each present exactly when its filter is given, in that order. |
| QueryFilters.BindMotherListParams | api/src/main/java/org/openmrs/module/ptme/api/db/hibernate/HibernatePreventTransmissionDAO.java:1773-1784 | The bound names are the end date, status, outcome and range names when given, plus the start date alone when so chosen. Each is bound to its own value. |
| QueryFilters.MotherListQueryAsWritten | api/src/main/java/org/openmrs/module/ptme/api/db/hibernate/HibernatePreventTransmissionDAO.java:1745-1784 | As written, the query is properly bound exactly when no start date is given or a range is asked for. It selects the rows the filters describe. |
| QueryFilters.MotherListQuery | api/src/main/java/org/openmrs/module/ptme/api/db/hibernate/HibernatePreventTransmissionDAO.java:1745-1784 | Binding the start date only with its range, the query is always properly bound and selects exactly the rows the filters describe. |
| QueryFilters.MotherListOnHasNoOutcome | api/src/main/java/org/openmrs/module/ptme/api/db/hibernate/HibernatePreventTransmissionDAO.java:1754-1755 | A follow-up listed when status "On" is asked for reports no outcome. |
| QueryFilters.OutcomeFilterIgnoresDerivedOutcome | api/src/main/java/org/openmrs/module/ptme/api/db/hibernate/HibernatePreventTransmissionDAO.java:1745-1746 | The outcome filter tests the recorded outcome. A follow-up reported as 6 only because of a death is not listed when outcome 6 is asked for. |
| ReportGeneration.ScriptBindings | api/src/main/java/org/openmrs/module/ptme/api/db/hibernate/HibernatePreventTransmissionDAO.java:1633-1642 | startDate, endDate and locationId are bound exactly when the script contains the matching placeholder, each to its own value. Nothing else is bound. |
| ReportGeneration.ValueCode | api/src/main/java/org/openmrs/module/ptme/api/db/hibernate/HibernatePreventTransmissionDAO.java:1648 | A value's code is the dataset code, then '.', then the template code. |
| ReportGeneration.IndicatorResult | api/src/main/java/org/openmrs/module/ptme/api/db/hibernate/HibernatePreventTransmissionDAO.java:1629-1650 | An indicator yields a value exactly when the parameters bound for its script are exactly the script's named parameters and the script returns text that parseInt accepts. A mismatch fails before the script runs. The value carries the indicator's uuid and its code. |
| ReportGeneration.IndicatorResultsInOrder | api/src/main/java/org/openmrs/module/ptme/api/db/hibernate/HibernatePreventTransmissionDAO.java:1628-1651 | A dataset's values exist exactly when every indicator yields one. There is one value per indicator, in order. |
| ReportGeneration.DatasetRunsInOrder | api/src/main/java/org/openmrs/module/ptme/api/db/hibernate/HibernatePreventTransmissionDAO.java:1621-1655 | The runs exist exactly when every dataset's values do. There is one run per dataset, in order, carrying its uuid. |
| ReportGeneration.IndicatorFailureStays | api/src/main/java/org/openmrs/module/ptme/api/db/hibernate/HibernatePreventTransmissionDAO.java:1644-1646 | Once an indicator fails, the whole dataset fails with that indicator's error. |
| ReportGeneration.DatasetFailureStays | api/src/main/java/org/openmrs/module/ptme/api/db/hibernate/HibernatePreventTransmissionDAO.java:1644-1646 | Once a dataset fails, the whole report fails with that error. |
| ReportGeneration.LocationIdOf | api/src/main/java/org/openmrs/module/ptme/api/db/hibernate/HibernatePreventTransmissionDAO.java:1611-1616 | The location id is NULL exactly when the location name is unknown. |
| ReportGeneration.DatasetValues | api/src/main/java/org/openmrs/module/ptme/api/db/hibernate/HibernatePreventTransmissionDAO.java:1626-1651 | The inner loop computes the dataset's values in indicator order, or the first indicator's failure. |
| ReportGeneration.GenerateReport | api/src/main/java/org/openmrs/module/ptme/api/db/hibernate/HibernatePreventTransmissionDAO.java:1599-1659 | With no report for the id the run fails. Otherwise it computes the report's values: the period, the generation moment, the location uuid when known, and the runs in dataset order, or the first failure. |
| ReportGeneration.ReportRunsInOrder | api/src/main/java/org/openmrs/module/ptme/api/db/hibernate/HibernatePreventTransmissionDAO.java:1608-1659 | A missing report fails. Otherwise the report succeeds exactly when every indicator binds its parameters and yields an integer. It then holds one run per dataset in report order, each with one value per indicator in dataset order. Each value carries the indicator's uuid and its composed code. The report carries the generation moment and the given period, and the location's uuid exactly when the location is known. |
| ReportGeneration.UnknownLocationBindsNull | api/src/main/java/org/openmrs/module/ptme/api/db/hibernate/HibernatePreventTransmissionDAO.java:1611-1641 | With an unknown location, a script that mentions :locationId gets NULL for it, and other scripts do not bind it. |
| ReportGeneration.ContainsPrefix | api/src/main/java/org/openmrs/module/ptme/api/db/hibernate/HibernatePreventTransmissionDAO.java:1634-1642 | A script that contains a text also contains every prefix of that text, so the substring test also fires on longer names. |
| ReportGeneration.LongerNameIsMismatch | api/src/main/java/org/openmrs/module/ptme/api/db/hibernate/HibernatePreventTransmissionDAO.java:1634-1635 | A script whose named parameter only starts with "startDate" (":startDateFrom") still gets "startDate" bound, and the indicator fails with a parameter mismatch. |

## Left out

- Create, read, update and delete operations, the Criteria lookups and the stub methods that return null (HibernatePreventTransmissionDAO.java:619-631, 795-820) are thin ORM wrappers and are not modelled. PreventTransmissionService.java declares these operations and has no behaviour.
- SQL execution, scalar mapping, the result transformer and the XStream serialisation are not modelled. A script's result is an evaluator function given as a parameter. GenerateReport stops at the assembled values instead of returning XML.
- The current time is a parameter. Month arithmetic (`ADDDATE ... INTERVAL n MONTH`, the first of the month, `LAST_DAY`) is an abstract calendar. MySQL's month-end clamping is not modelled; only the laws in `Calendar.Lawful` are assumed where a lemma requires them.
- The validator's two service lookups are function parameters.
- The validator's null-unboxing NullPointerException paths (lines 53, 91-92, 108, 115) are a precondition (`NoNullUnboxing`). The HIV care number is a non-null string (line 58). A patient found by that number has a non-null gender (`PatientRecord.gender` is a string), so the NullPointerException of `getGender().equals("M")` on a null gender (line 69) is not modelled.
- Java regular expressions are modelled only for the quantified character classes the three fixed patterns use.
- The misspelt columns `prengnancy_outcome` (line 493) and `pregnacy_outcome` (lines 510 and 1746) would fail at run time. The model reads `pregnancy_outcome` in their place.
- Of getMotherFollowupCurrentlyOnList, only the filter assembly is modelled. Its status column (line 493) is computed from the misspelt column and inverted ('Off' when the outcome is NULL). The status filter treats that column as data.
- For a pcrType that is null or outside 1-5, getChildByAppointmentPcr runs an empty query string (lines 1082-1084). The model chooses no schedule (`PcrKindOf` is None) and lists nothing.
- The child queries join `pc.child_id = pcf.child_followup_id` (for example line 713). The model pairs each child with its own follow-up record.
- GROUP BY is not modelled. The appointment lists group by `hiv_care_number` (lines 855 and 901) or `child_followup_number` (lines 997 and 1042). Different follow-ups that share a number, including mothers whose HIV care number is empty, are merged into one row. MySQL then evaluates the HAVING test and the ungrouped columns on an arbitrary row of the group. The model gives each follow-up its own row.
- ORDER BY, and the duplicate rows that several phone observations or several visits on the last date would produce, are not modelled. In getMotherFollowupList the death, transfer and not-positive LEFT JOINs (lines 1724-1729) give one row per qualifying observation of concept 1543, 164595 or 163511; a `MotherRecord` holds at most one observation of each kind, so the model gives one row. `uniqueResult` on a script returning several rows is not modelled.
- In getChildFollowupList the `pcf.voided = false` test and the joins on the visit counts (lines 710-716) are not modelled. `ChildListOn` and `ChildListOffBetween` state what the status and date clauses select, not that voided follow-ups or follow-ups without a visit are left out.
- The named parameters a script declares are a function given as a parameter (`Context.placeholders`); Hibernate's parser of the script text is not modelled.
- ChildFollowupRules.PcrAppointment: the 18-month schedule follows the intended rule `Pcr5Due`, not the rule as written (`Pcr5DueAsWritten`, which never lists an open follow-up; see Findings).
- MotherFollowupRules.MotherListRowOf: deaths are seen by the intended rule `DeathDate`, not by the rule as written (`DeathDateAsWritten`, which without an end date sees only a death recorded at the current moment; see Findings).
- Integer.parseInt is modelled for ASCII digits only. Java also accepts other Unicode decimal digits.
- PrenatalFormValidator.Validate: states which rejections are recorded, not their order or how many times each appears (each rule records a given rejection at most once).
- PrenatalFormValidator.Supports: is the class-name test itself and has no property of its own beyond it, so it has no row in the table.
- MotherFollowupRules.Status: states only the two possible values. `StatusOnIffNoOutcome` relates it to the outcome, and `MotherListRowOf` states it per row.

## Findings

| source | as written | input that shows it | evidently intended | confidence | as-written member | corrected member |
|---|---|---|---|---|---|---|
| api/src/main/java/org/openmrs/module/ptme/api/db/hibernate/HibernatePreventTransmissionDAO.java:1237 | `followup_result NOT IN (1, 2, 4, 5)` is unknown for a NULL result, so the 18-month test never lists an open follow-up | A child 600 days old, not voided, with a follow-up that has no result and no serology | Open follow-ups are listed; only results 1, 2, 4 and 5 are excluded | high; not executed | ChildFollowupRules.Pcr5AsWrittenCounterexample | ChildFollowupRules.Pcr5Intended |
| api/src/main/java/org/openmrs/module/ptme/api/db/hibernate/HibernatePreventTransmissionDAO.java:1773-1774 | `:startDate` is bound whenever a start date is given, but the text names it only when `startOrEnd` is given; Hibernate rejects a name the query lacks | startDate given, startOrEnd null | Bind the start date only together with the range clause | high; not executed | QueryFilters.MotherListQueryAsWritten | QueryFilters.MotherListQuery |
| api/src/main/java/org/openmrs/module/ptme/api/db/hibernate/HibernatePreventTransmissionDAO.java:1724 | Without an end date, the death join tests `value_datetime = NOW()`, so only a death recorded at the current second is seen | Death recorded on day 10, now day 20, no end date: the follow-up stays "On" with no outcome | A death no later than now closes the follow-up as deceased (6) | medium; not executed | MotherFollowupRules.DeathAsWrittenCounterexample | MotherFollowupRules.DeathClosesFollowup |
