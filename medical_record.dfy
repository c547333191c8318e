/** The medical-record form: the patient's age, the prescription rows, the
    validation and payload of a save, and prefilling the form from the
    patient's latest record. */
module MedicalRecord {
  import opened Common
  import Lists

  // ---------------------------------------------------------------- age

  /** A calendar date; `month` counts from 0 as `Date.prototype.getMonth`
      does. */
  datatype Date = Date(year: int, month: int, day: int)

  /** `a` is on or before `b` in the calendar. */
  predicate OnOrBefore(a: Date, b: Date) {
    a.year < b.year
    || (a.year == b.year && (a.month < b.month || (a.month == b.month && a.day <= b.day)))
  }

  /** The `n`-th birthday of someone born on `dob`. */
  function Birthday(dob: Date, n: int): Date {
    Date(dob.year + n, dob.month, dob.day)
  }

  /** The birthday of year `today.year` is still ahead of `today`. */
  predicate BirthdayAhead(dob: Date, today: Date) {
    today.month < dob.month || (today.month == dob.month && today.day < dob.day)
  }

  /** The number of completed years: the last birthday reached on `today`. */
  function CompletedYears(dob: Date, today: Date): (age: int)
    ensures OnOrBefore(Birthday(dob, age), today)
    ensures !OnOrBefore(Birthday(dob, age + 1), today)
  {
    if BirthdayAhead(dob, today) then today.year - dob.year - 1 else today.year - dob.year
  }

  /** `calculateAge(dob)` with the clock read as `today`: no date of birth
      gives no age (the empty string on screen); otherwise the year
      difference, less one while this year's birthday is still ahead. */
  method CalculateAge(dob: Option<Date>, today: Date) returns (age: Option<int>)
    ensures age.None? <==> dob.None?
    ensures age.Some? ==> OnOrBefore(Birthday(dob.value, age.value), today)
                          && !OnOrBefore(Birthday(dob.value, age.value + 1), today)
    ensures age.Some? ==> age.value == CompletedYears(dob.value, today)
  {
    if dob.None? {
      return None;
    }
    var birth := dob.value;
    var years := today.year - birth.year;
    var m := today.month - birth.month;
    if m < 0 || (m == 0 && today.day < birth.day) {
      years := years - 1;
    }
    age := Some(years);
  }

  /** Only one number of years satisfies the characterisation. */
  lemma {:induction false} CompletedYearsUnique(dob: Date, today: Date, n: int)
    requires OnOrBefore(Birthday(dob, n), today) && !OnOrBefore(Birthday(dob, n + 1), today)
    ensures n == CompletedYears(dob, today)
  {
  }

  /** Someone born on or before `today` has an age of at least zero. */
  lemma AgeNonNegative(dob: Date, today: Date)
    requires OnOrBefore(dob, today)
    ensures CompletedYears(dob, today) >= 0
  {
  }

  /** On the `n`-th birthday the age is exactly `n`. */
  lemma AgeOnBirthday(dob: Date, n: int)
    ensures CompletedYears(dob, Birthday(dob, n)) == n
  {
    CompletedYearsUnique(dob, Birthday(dob, n), n);
  }

  /** The same day one year later, the age is one more. */
  lemma AgeYearLater(dob: Date, today: Date)
    ensures CompletedYears(dob, today.(year := today.year + 1)) == CompletedYears(dob, today) + 1
  {
    var later := today.(year := today.year + 1);
    var age := CompletedYears(dob, today);
    CompletedYearsUnique(dob, later, age + 1);
  }

  /** Every birthday reached on `today` is at most the age on `today`. */
  lemma ReachedBirthdays(dob: Date, today: Date, n: int)
    requires OnOrBefore(Birthday(dob, n), today)
    ensures n <= CompletedYears(dob, today)
  {
  }

  /** The age never decreases as time passes. */
  lemma AgeMonotone(dob: Date, a: Date, b: Date)
    requires OnOrBefore(a, b)
    ensures CompletedYears(dob, a) <= CompletedYears(dob, b)
  {
    var age := CompletedYears(dob, a);
    assert OnOrBefore(Birthday(dob, age), b);
    ReachedBirthdays(dob, b, age);
  }

  // ------------------------------------------------------ prescription rows

  /** A prescription row; every field is text, "" when not filled in. */
  datatype Med = Med(
    name: string,
    strength: string,
    form: string,
    dosage: string,
    frequency: string,
    duration: string,
    instructions: string)

  const EmptyMed := Med("", "", "", "", "", "", "")

  datatype MedField = Name | Strength | Form | Dosage | Frequency | Duration | Instructions

  /** `{ ...m, [field]: val }`. */
  function SetField(m: Med, field: MedField, val: string): (r: Med)
    ensures field == Name ==> r == m.(name := val)
    ensures field == Strength ==> r == m.(strength := val)
    ensures field == Form ==> r == m.(form := val)
    ensures field == Dosage ==> r == m.(dosage := val)
    ensures field == Frequency ==> r == m.(frequency := val)
    ensures field == Duration ==> r == m.(duration := val)
    ensures field == Instructions ==> r == m.(instructions := val)
  {
    match field
    case Name => m.(name := val)
    case Strength => m.(strength := val)
    case Form => m.(form := val)
    case Dosage => m.(dosage := val)
    case Frequency => m.(frequency := val)
    case Duration => m.(duration := val)
    case Instructions => m.(instructions := val)
  }

  /** `addMed`: a blank row at the end. */
  function AddMed(meds: seq<Med>): (r: seq<Med>)
    ensures |r| == |meds| + 1 && r[..|meds|] == meds && r[|meds|] == EmptyMed
  {
    meds + [EmptyMed]
  }

  /** `removeMed(idx)`: the row at `idx` goes, the others keep their order. */
  function RemoveMed(meds: seq<Med>, idx: int): (r: seq<Med>)
    ensures 0 <= idx < |meds| ==> |r| == |meds| - 1
    ensures 0 <= idx < |meds| ==> forall i :: 0 <= i < idx ==> r[i] == meds[i]
    ensures 0 <= idx < |meds| ==> forall i :: idx <= i < |r| ==> r[i] == meds[i + 1]
    ensures !(0 <= idx < |meds|) ==> r == meds
  {
    Lists.RemoveAt(meds, idx)
  }

  /** `updateMed(idx, field, val)`: only the named field of the row at
      `idx` changes. */
  function UpdateMed(meds: seq<Med>, idx: int, field: MedField, val: string): (r: seq<Med>)
    ensures |r| == |meds|
    ensures forall i :: 0 <= i < |meds| && i != idx ==> r[i] == meds[i]
    ensures 0 <= idx < |meds| ==> r[idx] == SetField(meds[idx], field, val)
  {
    Lists.UpdateAt(meds, idx, (m: Med) => SetField(m, field, val))
  }

  /** Adding a row and removing it again restores the rows. */
  lemma AddThenRemove(meds: seq<Med>)
    ensures RemoveMed(AddMed(meds), |meds|) == meds
  {
    assert AddMed(meds)[..|meds|] == meds;
  }

  /** The medications of the prescription: the rows with a name, in order,
      each with its seven fields as entered. */
  function PrescriptionMeds(meds: seq<Med>): (r: seq<Med>)
    ensures |r| <= |meds|
    ensures forall i :: 0 <= i < |r| ==> r[i] in meds && r[i].name != ""
    ensures forall i :: 0 <= i < |meds| && meds[i].name != "" ==> meds[i] in r
  {
    Lists.Filter(meds, (m: Med) => m.name != "")
  }

  /** A list of rows all left blank gives no medication. */
  lemma BlankRowsGiveNothing(meds: seq<Med>)
    requires forall i :: 0 <= i < |meds| ==> meds[i].name == ""
    ensures PrescriptionMeds(meds) == []
  {
    Lists.FilterKeepsNone(meds, (m: Med) => m.name != "");
  }

  /** Appending a blank row does not change which rows are prescribed. */
  lemma AddMedKeepsPrescription(meds: seq<Med>)
    ensures PrescriptionMeds(AddMed(meds)) == PrescriptionMeds(meds)
  {
    Lists.FilterAppend(meds, [EmptyMed], (m: Med) => m.name != "");
  }

  /** The prescription keeps the order of the rows: the named rows of two
      blocks of rows are those of the first block followed by those of the
      second. */
  lemma PrescriptionKeepsOrder(a: seq<Med>, b: seq<Med>)
    ensures PrescriptionMeds(a + b) == PrescriptionMeds(a) + PrescriptionMeds(b)
  {
    Lists.FilterAppend(a, b, (m: Med) => m.name != "");
  }

  // ------------------------------------------------------------------- save

  /** The fields of the form a save reads; a text field left empty is "",
      a number field left empty is `Blank`. */
  datatype Draft = Draft(
    patient: string,
    doctor: string,
    appointment: string,
    chiefComplaint: string,
    primaryDx: string,
    secondaryDx: string,
    notes: string,
    weight: Entry,
    height: Entry,
    bpSystolic: Entry,
    bpDiastolic: Entry,
    nextVisitDate: string)

  datatype BloodPressure = BloodPressure(systolic: Option<int>, diastolic: Option<int>)

  datatype Vitals = Vitals(weight: Option<int>, height: Option<int>, bloodPressure: Option<BloodPressure>)

  /** The record sent to the server; `None` is a key sent as `undefined`. */
  datatype RecordPayload = RecordPayload(
    patient: string,
    doctor: string,
    appointment: Option<string>,
    chiefComplaint: string,
    primary: string,
    secondary: seq<string>,
    notes: string,
    vitals: Vitals,
    nextVisitDate: Option<string>)

  datatype PrescriptionRequest = PrescriptionRequest(medications: seq<Med>, prescribedBy: string)

  /** What a successful save sends: the record, then the prescription when
      there is one. */
  datatype SaveRequest = SaveRequest(record: RecordPayload, prescription: Option<PrescriptionRequest>)

  const RequiredMessage := "Patient, Doctor, Chief Complaint and Primary Diagnosis are required"

  /** `x ? Number(x) : undefined`. */
  function OptionalNumber(e: Entry): (r: Option<int>)
    ensures r.None? <==> e.Blank?
    ensures e.Num? ==> r == Some(e.n)
  {
    match e
    case Blank => None
    case Num(n) => Some(n)
  }

  /** The save handler: the validation, then the record and prescription it
      sends. */
  function BuildSave(d: Draft, meds: seq<Med>): (r: Result<SaveRequest, string>)
    ensures r.Err? <==> d.patient == "" || d.doctor == "" || d.chiefComplaint == "" || d.primaryDx == ""
    ensures r.Err? ==> r.error == RequiredMessage
    ensures r.Ok? ==> var rec := r.value.record;
      && rec.patient == d.patient && rec.doctor == d.doctor
      && rec.chiefComplaint == d.chiefComplaint && rec.primary == d.primaryDx && rec.notes == d.notes
      && rec.appointment == IfPresent(d.appointment)
      && rec.nextVisitDate == IfPresent(d.nextVisitDate)
      && rec.secondary == (if d.secondaryDx == "" then [] else [d.secondaryDx])
    ensures r.Ok? ==> var v := r.value.record.vitals;
      && v.weight == OptionalNumber(d.weight) && v.height == OptionalNumber(d.height)
      && (v.bloodPressure.Some? <==> d.bpSystolic.Num? || d.bpDiastolic.Num?)
      && (v.bloodPressure.Some? ==>
            v.bloodPressure.value == BloodPressure(OptionalNumber(d.bpSystolic), OptionalNumber(d.bpDiastolic)))
    ensures r.Ok? ==> (r.value.prescription.Some? <==> exists i :: 0 <= i < |meds| && meds[i].name != "")
    ensures r.Ok? && r.value.prescription.Some? ==>
      r.value.prescription.value == PrescriptionRequest(PrescriptionMeds(meds), d.doctor)
  {
    if d.patient == "" || d.doctor == "" || d.chiefComplaint == "" || d.primaryDx == "" then
      Err(RequiredMessage)
    else
      var bp := if d.bpSystolic.Num? || d.bpDiastolic.Num?
                then Some(BloodPressure(OptionalNumber(d.bpSystolic), OptionalNumber(d.bpDiastolic)))
                else None;
      var record := RecordPayload(
        d.patient, d.doctor, IfPresent(d.appointment), d.chiefComplaint, d.primaryDx,
        if d.secondaryDx == "" then [] else [d.secondaryDx],
        d.notes,
        Vitals(OptionalNumber(d.weight), OptionalNumber(d.height), bp),
        IfPresent(d.nextVisitDate));
      var medications := PrescriptionMeds(meds);
      assert |medications| > 0 ==> medications[0] in meds;
      Ok(SaveRequest(record, if |medications| > 0 then Some(PrescriptionRequest(medications, d.doctor)) else None))
  }

  // ----------------------------------------------------------------- prefill

  /** A past record of the patient as the prefill reads it; a missing text
      is "", a missing number `None`. */
  datatype PastVitals = PastVitals(
    weight: Option<int>,
    height: Option<int>,
    bloodPressure: Option<PastPressure>)

  datatype PastPressure = PastPressure(systolic: Option<int>, diastolic: Option<int>)

  datatype PastRecord = PastRecord(
    chiefComplaint: string,
    primary: string,
    secondary: seq<string>,
    notes: string,
    vitals: Option<PastVitals>,
    nextVisitDate: string,
    medications: seq<Med>)

  /** `value || ''`: a stored number back in an input; zero shows as empty. */
  function StoredEntry(v: Option<int>): (r: Entry)
    ensures r.Blank? <==> v.None? || v == Some(0)
    ensures r.Num? ==> v == Some(r.n)
  {
    if v.None? || v.value == 0 then Blank else Num(v.value)
  }

  /** The prefillable fields are all empty: complaint, diagnoses and notes. */
  predicate FormIsEmpty(d: Draft)
    ensures FormIsEmpty(d) <==> d.chiefComplaint + d.primaryDx + d.secondaryDx + d.notes == ""
  {
    d.chiefComplaint == "" && d.primaryDx == "" && d.secondaryDx == "" && d.notes == ""
  }

  /** The vitals of a past record copied into the draft: weight and height
      when the record has vitals, the blood pressure when it has one too. */
  function WithVitals(d: Draft, vitals: Option<PastVitals>): (r: Draft)
    ensures r.(weight := d.weight, height := d.height, bpSystolic := d.bpSystolic, bpDiastolic := d.bpDiastolic) == d
    ensures vitals.None? ==> r == d
    ensures vitals.Some? ==> r.weight == StoredEntry(vitals.value.weight)
                             && r.height == StoredEntry(vitals.value.height)
    ensures vitals.Some? && vitals.value.bloodPressure.Some? ==>
              r.bpSystolic == StoredEntry(vitals.value.bloodPressure.value.systolic)
              && r.bpDiastolic == StoredEntry(vitals.value.bloodPressure.value.diastolic)
    ensures (vitals.None? || vitals.value.bloodPressure.None?) ==>
              r.bpSystolic == d.bpSystolic && r.bpDiastolic == d.bpDiastolic
  {
    match vitals
    case None => d
    case Some(v) =>
      var withSize := d.(weight := StoredEntry(v.weight), height := StoredEntry(v.height));
      match v.bloodPressure
      case None => withSize
      case Some(bp) => withSize.(bpSystolic := StoredEntry(bp.systolic), bpDiastolic := StoredEntry(bp.diastolic))
  }

  /** The draft with what `record` has copied in and what it lacks kept;
      patient, doctor and appointment are never touched. */
  function Prefilled(d: Draft, rec: PastRecord): (r: Draft)
    ensures r.patient == d.patient && r.doctor == d.doctor && r.appointment == d.appointment
    ensures r.chiefComplaint == (if rec.chiefComplaint != "" then rec.chiefComplaint else d.chiefComplaint)
    ensures r.primaryDx == (if rec.primary != "" then rec.primary else d.primaryDx)
    ensures r.secondaryDx == (if |rec.secondary| > 0 then rec.secondary[0] else d.secondaryDx)
    ensures r.notes == rec.notes
    ensures rec.vitals.None? ==> r.weight == d.weight && r.height == d.height
    ensures rec.vitals.Some? ==> r.weight == StoredEntry(rec.vitals.value.weight)
                                 && r.height == StoredEntry(rec.vitals.value.height)
    ensures rec.vitals.Some? && rec.vitals.value.bloodPressure.Some? ==>
              r.bpSystolic == StoredEntry(rec.vitals.value.bloodPressure.value.systolic)
              && r.bpDiastolic == StoredEntry(rec.vitals.value.bloodPressure.value.diastolic)
    ensures (rec.vitals.None? || rec.vitals.value.bloodPressure.None?) ==>
              r.bpSystolic == d.bpSystolic && r.bpDiastolic == d.bpDiastolic
    ensures r.nextVisitDate == (if rec.nextVisitDate != "" then rec.nextVisitDate else d.nextVisitDate)
  {
    var d1 := if rec.chiefComplaint != "" then d.(chiefComplaint := rec.chiefComplaint) else d;
    var d2 := if rec.primary != "" then d1.(primaryDx := rec.primary) else d1;
    var d3 := if |rec.secondary| > 0 then d2.(secondaryDx := rec.secondary[0]) else d2;
    var d4 := d3.(notes := rec.notes);
    var d5 := WithVitals(d4, rec.vitals);
    if rec.nextVisitDate != "" then d5.(nextVisitDate := rec.nextVisitDate) else d5
  }

  /** The draft after `clearPrefillData`: every prefillable field empty. */
  function Cleared(d: Draft): (r: Draft)
    ensures FormIsEmpty(r) && r.nextVisitDate == ""
    ensures r.weight == Blank && r.height == Blank && r.bpSystolic == Blank && r.bpDiastolic == Blank
    ensures r.patient == d.patient && r.doctor == d.doctor && r.appointment == d.appointment
  {
    d.(chiefComplaint := "", primaryDx := "", secondaryDx := "", notes := "",
       weight := Blank, height := Blank, bpSystolic := Blank, bpDiastolic := Blank,
       nextVisitDate := "")
  }

  /** The record form's state: the fields a save reads, the prescription
      rows and the prefill flags. */
  class RecordForm {
    var draft: Draft
    var meds: seq<Med>
    var prefilled: bool
    var showPrefillBanner: bool
    var userCleared: bool

    /** A fresh form: every field empty and one blank prescription row. */
    constructor ()
      ensures draft == Draft("", "", "", "", "", "", "", Blank, Blank, Blank, Blank, "")
      ensures meds == [EmptyMed]
      ensures !prefilled && !showPrefillBanner && !userCleared
    {
      draft := Draft("", "", "", "", "", "", "", Blank, Blank, Blank, Blank, "");
      meds := [EmptyMed];
      prefilled, showPrefillBanner, userCleared := false, false, false;
    }

    /** The guard of the automatic prefill. */
    predicate ShouldAutoPrefill(history: seq<PastRecord>)
      reads this
      ensures ShouldAutoPrefill(history) ==> |history| > 0 && FormIsEmpty(draft)
      ensures prefilled || userCleared ==> !ShouldAutoPrefill(history)
    {
      !prefilled && !userCleared && |history| > 0 && FormIsEmpty(draft)
    }

    /** `prefillFromRecord(record)`: copies what the record has into the
      form, takes its medications when it has any, and marks the form as
      prefilled. */
    method PrefillFromRecord(rec: PastRecord)
      modifies this
      ensures draft == Prefilled(old(draft), rec)
      ensures meds == (if |rec.medications| > 0 then rec.medications else old(meds))
      ensures prefilled && showPrefillBanner && !userCleared
    {
      var d := draft;
      if rec.chiefComplaint != "" {
        d := d.(chiefComplaint := rec.chiefComplaint);
      }
      if rec.primary != "" {
        d := d.(primaryDx := rec.primary);
      }
      if |rec.secondary| > 0 {
        d := d.(secondaryDx := rec.secondary[0]);
      }
      d := d.(notes := rec.notes);
      ghost var beforeVitals := d;
      if rec.vitals.Some? {
        var v := rec.vitals.value;
        d := d.(weight := StoredEntry(v.weight), height := StoredEntry(v.height));
        if v.bloodPressure.Some? {
          d := d.(bpSystolic := StoredEntry(v.bloodPressure.value.systolic),
                  bpDiastolic := StoredEntry(v.bloodPressure.value.diastolic));
        }
      }
      assert d == WithVitals(beforeVitals, rec.vitals);
      if rec.nextVisitDate != "" {
        d := d.(nextVisitDate := rec.nextVisitDate);
      }
      assert d == Prefilled(old(draft), rec);
      draft := d;
      if |rec.medications| > 0 {
        meds := rec.medications;
      }
      prefilled := true;
      showPrefillBanner := true;
      userCleared := false;
    }

    /** The automatic prefill from the latest record (`history[0]`): it runs
      only while the guard holds, and once it ran the guard is off. */
    method AutoPrefill(history: seq<PastRecord>)
      modifies this
      ensures !old(ShouldAutoPrefill(history)) ==> unchanged(this)
      ensures old(ShouldAutoPrefill(history)) ==>
                draft == Prefilled(old(draft), history[0])
                && meds == (if |history[0].medications| > 0 then history[0].medications else old(meds))
                && prefilled && showPrefillBanner && !userCleared
      ensures !ShouldAutoPrefill(history)
    {
      if prefilled || userCleared || |history| == 0 {
        return;
      }
      var latest := history[0];
      var formIsEmpty := draft.chiefComplaint == "" && draft.primaryDx == ""
                         && draft.secondaryDx == "" && draft.notes == "";
      if !formIsEmpty {
        return;
      }
      PrefillFromRecord(latest);
    }

    /** `clearPrefillData`: every prefilled field emptied, one blank row,
      and the automatic prefill switched off for good. */
    method ClearPrefillData()
      modifies this
      ensures draft == Cleared(old(draft))
      ensures meds == [EmptyMed]
      ensures !prefilled && !showPrefillBanner && userCleared
      ensures forall history :: !ShouldAutoPrefill(history)
    {
      draft := draft.(chiefComplaint := "", primaryDx := "", secondaryDx := "", notes := "");
      draft := draft.(weight := Blank, height := Blank, bpSystolic := Blank, bpDiastolic := Blank);
      draft := draft.(nextVisitDate := "");
      meds := [EmptyMed];
      showPrefillBanner := false;
      prefilled := false;
      userCleared := true;
    }

    /** `addMed`, `removeMed` and `updateMed` on the form's rows. */
    method EditMeds(edit: MedEdit)
      modifies this`meds
      ensures meds == ApplyMedEdit(old(meds), edit)
    {
      meds := ApplyMedEdit(meds, edit);
    }

    /** `onSave` up to the server calls. It only hands the current fields
        to `BuildSave`, where the validation and the payload are stated. */
    method Save() returns (r: Result<SaveRequest, string>)
      ensures r == BuildSave(draft, meds)
    {
      r := BuildSave(draft, meds);
    }
  }

  /** One edit of the prescription rows. */
  datatype MedEdit = AddRow | RemoveRow(idx: int) | UpdateRow(idx: int, field: MedField, val: string)

  /** Dispatches an edit to `addMed`, `removeMed` or `updateMed`; the
      properties of the edits are stated on those. */
  function ApplyMedEdit(meds: seq<Med>, edit: MedEdit): (r: seq<Med>)
    ensures edit.AddRow? ==> r == AddMed(meds)
    ensures edit.RemoveRow? ==> r == RemoveMed(meds, edit.idx)
    ensures edit.UpdateRow? ==> r == UpdateMed(meds, edit.idx, edit.field, edit.val)
  {
    match edit
    case AddRow => AddMed(meds)
    case RemoveRow(idx) => RemoveMed(meds, idx)
    case UpdateRow(idx, field, val) => UpdateMed(meds, idx, field, val)
  }
}
