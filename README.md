# Clinic front-end rules, modelled in Dafny

This project models the small, self-contained rules buried in the pages of a
React front-end for a clinic, and proves properties about them:

- **Dispensary** (`dispensary.dfy`). This is the line-item editor of a bill:
  - adding, removing and editing rows, and quantity as days × doses;
  - the subtotal, the total shown on screen, the balance and the
    amount-due / refund-due panel;
  - the refund prefilled after an edit is saved;
  - the guards on saving a dispense and on posting a payment, and the
    target the save goes to.
- **Appointment form** (`appointments.dfy`):
  - the consultation-fee fallback, the default desk payment of a new booking
    and the numeric coercions;
  - the pending / partial / paid status written on submit, and the amount
    due shown under the form;
  - the case-insensitive patient search.
- **Application state** (`app_state.dfy`). This is the reducer over sidebar,
  current page, notifications and theme.
- **Sidebar** (`navigation.dfy`). These are the menu of each role and the
  rule that highlights the active entry.
- **Patient form** (`patient_payload.dfy`):
  - the comma-separated lists of allergies, medications and history, and
    their display form;
  - the payload built on submit, with optional keys and the deletion of
    empty nested objects.
- **Medical-record form** (`medical_record.dfy`):
  - the patient's age;
  - the medication rows and the prescription taken from them;
  - the validation and payload of a save;
  - prefilling the form from the latest record, the auto-prefill guard and
    clearing the prefill.

Three shared modules support these:
- `common.dfy`: optional values, results, and form values coerced with `Number(x || 0)`.
- `lists.dfy`: filter, remove-at and update-at over sequences.
- `strings.dfy`: lower-casing, substring search, trimming, splitting on commas and joining.

Conventions:
- Money and quantities are exact integers, with money in paise.
- A numeric form field is an `Entry`:
  - `Blank` stands for a field left undefined, null or as the empty string;
  - `Num(n)` is a value that was entered or received; `Num(0)` stands for a numeric 0 or a typed "0".
    No numeric 0 reaches a field where `||` or `?:` would tell the two apart (days, doses, vitals).
- The pages are modelled in their own form:
  - State the pages replace through setters becomes a class with mutating
    methods. These are `Dispensary.BillForm` (the rows of the bill, tax,
    discount, pay box) and `MedicalRecord.RecordForm` (the form fields,
    medication rows and prefill flags).
  - Handlers that update a record field by field become methods. Each is
    proved equal to a declarative function:
    - `Appointments.PrepareSubmission` against `Appointments.Submitted`;
    - `PatientPayload.BuildPayload` against `PatientPayload.Formatted`;
    - `MedicalRecord.CalculateAge` against `MedicalRecord.CompletedYears`.
  - Pure expressions, the reducer, the menu and the list pipelines become functions.

Two facts about the code that a reader might not expect:
- The total shown under the bill editor (`src/pages/Dispensary.js:691`) has no
  lower bound. It is negative when the discount exceeds subtotal plus tax
  (`Dispensary.DisplayedTotal`).
- The messages of the guards are the ones the page shows. For example, "No
  items to dispense" is shown for a bill without rows.

## Model

| member | source | states |
|---|---|---|
| Common.Coerce | src/pages/AppointmentForm.js:200-203 | `Number(x \|\| 0)`: a blank field counts as 0, an entered value as itself |
| Common.CoerceOrOne | src/pages/Dispensary.js:232 | `Number(x \|\| 0 \|\| 1)`: a blank field counts as 1, an entered value as itself |
| Common.IfPresent | src/pages/PatientForm.js:84-86 | an optional key is absent exactly when its text is empty, and otherwise carries the text |
| Lists.RemoveAt | src/pages/Dispensary.js:223 | filtering out index `idx` is the list without position `idx`; an index outside the list changes nothing |
| Lists.UpdateAt | src/pages/Dispensary.js:152 | the map that changes the row at `idx` keeps the length and every other row, and applies the change to that row |
| Lists.Filter | src/contexts/AppContext.js:37 | the kept elements come from the list and pass the test, every passing element is kept, and the result is no longer than the list |
| Lists.FilterAppend | src/contexts/AppContext.js:37 | filtering keeps order: filtering a concatenation is concatenating the filtered parts |
| Lists.FilterIdempotent | src/contexts/AppContext.js:37 | filtering twice with the same test is filtering once |
| Lists.FilterKeepsAll | src/contexts/AppContext.js:37 | when every element passes, the filter returns the list unchanged |
| Lists.FilterKeepsNone | src/pages/MedicalRecordForm.js:348-349 | when no element passes, the filter returns the empty list |
| Lists.FilterSameTest | src/pages/AppointmentForm.js:134-138 | two tests that agree on every element select the same sub-list |
| Strings.LowerChar | src/pages/AppointmentForm.js:136-137 | an upper-case ASCII letter becomes its own lower-case letter ('B' to 'b'); every other character is unchanged |
| Strings.Lower | src/pages/AppointmentForm.js:136-137 | `toLowerCase` keeps the length and lowers each character |
| Strings.Includes | src/pages/AppointmentForm.js:137 | `includes` holds exactly when the text occurs at some position |
| Strings.LeadingSpaces | src/pages/PatientForm.js:90 | the count of leading white-space characters: all of them are white space, and the next character is not |
| Strings.TrailingSpaces | src/pages/PatientForm.js:90 | the same for trailing white space |
| Strings.Trim | src/pages/PatientForm.js:79-80 | `trim` gives a string with no surrounding white space: the middle of the input, unchanged when already trimmed |
| Strings.TrimPadded | src/pages/PatientForm.js:90 | trimming a trimmed non-empty text padded with white space gives back the text |
| Strings.Split | src/pages/PatientForm.js:90 | `split(',')` gives at least one piece, and no piece holds a comma |
| Strings.Join | src/pages/PatientForm.js:52-54 | `join(', ')`: no items give the empty string, one item gives itself, and the text starts with the first item |
| Strings.SplitCommaFree | src/pages/PatientForm.js:90 | a string without a comma splits into itself alone |
| Strings.SplitAtFirstComma | src/pages/PatientForm.js:90 | splitting at the first comma gives the text before it followed by the pieces of the rest |
| AppState.InitialState | src/contexts/AppContext.js:5-10 | the sidebar is open, the page is Dashboard, there are no notifications and the theme is light |
| AppState.WithoutId | src/contexts/AppContext.js:37 | removing an id keeps exactly the notifications with another id |
| AppState.Reduce | src/contexts/AppContext.js:12-47 | each action changes only its own field: toggle negates the sidebar flag, the setters set theirs, add appends at the end, remove drops the id, an unknown action returns the state unchanged |
| AppState.ToggleTwice | src/contexts/AppContext.js:14-18 | toggling the sidebar twice restores the state |
| AppState.SettersIdempotent | src/contexts/AppContext.js:19-43 | setting the sidebar, page or theme twice to the same value is setting it once |
| AppState.RemoveIdempotent | src/contexts/AppContext.js:34-38 | removing an id twice is removing it once |
| AppState.RemoveAbsent | src/contexts/AppContext.js:34-38 | removing an id no notification carries leaves the state unchanged |
| AppState.AddThenRemove | src/contexts/AppContext.js:29-38 | adding a notification with a fresh id and then removing that id restores the state |
| AppState.RemoveKeepsOrder | src/contexts/AppContext.js:29-38 | removing an id commutes with appending a notification of another id, so the others keep their order |
| Navigation.EffectiveRole | src/components/Sidebar.js:21 | no user, or a user without a role, is a receptionist; otherwise the role is the user's |
| Navigation.Menu | src/components/Sidebar.js:23-62 | every menu starts with Dashboard and ends with Profile; the admin menu is the nine entries in the listed order; Dispensary is listed exactly for admin and chemist; an unknown role gets Dashboard and Profile only |
| Navigation.IsActive | src/components/Sidebar.js:90-91 | an entry is highlighted on its own link, and only on paths that start with its link |
| Navigation.ActiveRule | src/components/Sidebar.js:90-91 | the dashboard entry is active only on its own path; any other entry is active exactly on the paths that start with its link |
| Navigation.PrefixesComparable | src/components/Sidebar.js:90-91 | two prefixes of one path are prefixes of each other |
| Navigation.LinksPrefixFree | src/components/Sidebar.js:23-62 | no sidebar link is a prefix of a different one |
| Navigation.MenusArePrefixFree | src/components/Sidebar.js:23-62 | within every role's menu, no link is a prefix of another |
| Navigation.AtMostOneActive | src/components/Sidebar.js:89-91 | for every role and path, at most one menu entry is highlighted |
| Dispensary.Apply | src/pages/Dispensary.js:151-153 | editing a field other than quantity or unit price leaves the row's amount unchanged |
| Dispensary.LineAmount | src/pages/Dispensary.js:225 | a row's amount is quantity × unit price, and 0 when either is blank |
| Dispensary.Subtotal | src/pages/Dispensary.js:225 | the `reduce` from 0: an empty bill has subtotal 0 and a bill of one row has that row's amount |
| Dispensary.SubtotalAppend | src/pages/Dispensary.js:225 | the subtotal of two blocks of rows is the sum of their subtotals |
| Dispensary.SubtotalNonNegative | src/pages/Dispensary.js:225 | with no negative quantity or price, the subtotal is not negative |
| Dispensary.AddItemKeepsSubtotal | src/pages/Dispensary.js:222-225 | appending the template row leaves the subtotal unchanged (1 × 0) |
| Dispensary.SubtotalAround | src/pages/Dispensary.js:225 | the subtotal of a list with one row singled out is the sum of the parts and that row's amount |
| Dispensary.SubtotalWithout | src/pages/Dispensary.js:223-225 | leaving a row out takes exactly its amount off the subtotal |
| Dispensary.RemoveItemSubtotal | src/pages/Dispensary.js:223-225 | removing a row takes exactly its amount off the subtotal; an index outside the list changes nothing |
| Dispensary.UpdateItemSubtotal | src/pages/Dispensary.js:151-153 | an edit changes the subtotal only by the change in the edited row's amount, and not at all unless it edits quantity or price |
| Dispensary.DisplayedTotal | src/pages/Dispensary.js:691 | the total shown is subtotal + tax − discount, with no clamp: it is negative exactly when the discount exceeds subtotal + tax |
| Dispensary.Balance | src/pages/Dispensary.js:974 | the balance is never negative; it is 0 exactly when paid ≥ total, and otherwise it is total − paid |
| Dispensary.DueOf | src/pages/Dispensary.js:875-880 | the panel shows a refund exactly when paid > total, for paid − total; otherwise it shows the amount due, which equals the balance |
| Dispensary.RefundAfterUpdate | src/pages/Dispensary.js:293-298 | a prompt appears exactly when paid > new total; its prefilled payment is negative and is the exact negation of the refund, which is paid − new total |
| Dispensary.PayCheck | src/pages/Dispensary.js:346-348 | the payment is refused with no dispense selected, and refused when the amount is empty or 0; otherwise it is accepted, negative amounts included |
| Dispensary.PrefilledRefundSettles | src/pages/Dispensary.js:293-298 | posting the prefilled refund passes the payment guard; if the server adds the posted amount to what was paid, nothing is due and no refund is due |
| Dispensary.ToPayloadItem | src/pages/Dispensary.js:271-279 | each row is sent with its name, quantity, unit price, strength, form, duration and notes |
| Dispensary.SaveTarget | src/pages/Dispensary.js:286-313 | in priority order: an edited dispense on the direct screen is updated; else a picked appointment on the Today screen gets a new dispense with its day and daily token; else the selected patient; else, in token mode, the date and the number of the token; the two error messages are shown exactly in their cases |
| Dispensary.PrepareSave | src/pages/Dispensary.js:267-313 | a bill without rows is refused first; otherwise the save succeeds exactly when a target is found, sending every row and tax and discount as numbers, and fails with the target's own message when none is found |
| Dispensary.BillForm.constructor | src/pages/Dispensary.js:13-15 | a fresh bill holds one template row, tax 0 and no discount, and its subtotal is 0 |
| Dispensary.BillForm.AddItem | src/pages/Dispensary.js:222 | the template row is appended, and the subtotal is unchanged |
| Dispensary.BillForm.RemoveItem | src/pages/Dispensary.js:223 | exactly the row at `idx` goes and the rest keep their order; an index outside the list changes nothing; the subtotal drops by that row's amount |
| Dispensary.BillForm.UpdateItem | src/pages/Dispensary.js:151-153 | only the named field of the row at `idx` changes; the length and every other row stay |
| Dispensary.BillForm.SetDays | src/pages/Dispensary.js:230-234 | the days are recorded and the quantity becomes days × doses, with blank doses counting as 1; other rows stay |
| Dispensary.BillForm.SetDoses | src/pages/Dispensary.js:235-239 | the doses are recorded and the quantity becomes doses × days, with blank days counting as 1; other rows stay |
| Dispensary.BillForm.ResetAfterCreate | src/pages/Dispensary.js:325-327 | after a create, the form returns to one template row, tax 0 and no discount |
| Dispensary.BillForm.ApplyUpdateResponse | src/pages/Dispensary.js:293-298 | on overpayment, the pay box holds the negative refund and the refund is announced; otherwise the pay box keeps its value |
| Appointments.Payable | src/pages/AppointmentForm.js:207 | what is payable is never negative, and is either 0 or amount − discount |
| Appointments.Classify | src/pages/AppointmentForm.js:209-215 | pending exactly when nothing is paid, paid exactly when something is paid and it covers the payable, partial exactly in between |
| Appointments.WithFee | src/pages/AppointmentForm.js:183-187 | a missing or non-positive amount becomes the doctor's fee when one is defined; otherwise the amount is kept |
| Appointments.DefaultOffline | src/pages/AppointmentForm.js:188-198 | on create, with both payments ≤ 0 and a positive amount, the offline payment becomes the payable amount; an edit or any entered payment leaves it untouched |
| Appointments.Submitted | src/pages/AppointmentForm.js:179-215 | the submitted fields are the coerced numbers after the fee fallback and the default payment, and the status is the classification of their sum against the payable amount |
| Appointments.PrepareSubmission | src/pages/AppointmentForm.js:179-215 | the handler's field-by-field updates produce exactly that submission |
| Appointments.NewBookingStatus | src/pages/AppointmentForm.js:188-215 | a new booking with a positive amount and no payment is saved as paid exactly when amount > discount, and as pending exactly when the discount covers the amount; the payable amount is taken offline |
| Appointments.EditKeepsPayments | src/pages/AppointmentForm.js:188-203 | an edit sends the payments exactly as entered |
| Appointments.AmountDue | src/pages/AppointmentForm.js:496 | the amount due is never negative; it is 0 exactly when the payments cover amount − discount, and otherwise it is amount − discount − (online + offline) |
| Appointments.PaidMeansNothingDue | src/pages/AppointmentForm.js:206-215 | a booking saved as paid shows nothing due |
| Appointments.SearchText | src/pages/AppointmentForm.js:135 | the search text holds the first name at its start, the last name after one blank, and the registration number at its end |
| Appointments.Matches | src/pages/AppointmentForm.js:135-137 | a patient matches when the lower-cased search text contains the lower-cased query; every patient matches the empty query |
| Appointments.FilterPatients | src/pages/AppointmentForm.js:134-139 | the search keeps exactly the patients whose lower-cased "first last phone regNo" contains the lower-cased query |
| Appointments.EmptyQueryKeepsAll | src/pages/AppointmentForm.js:134-139 | an empty query lists every patient, in order |
| Appointments.FilterKeepsOrder | src/pages/AppointmentForm.js:134-139 | the search keeps the order of the list |
| Appointments.QueryCaseIgnored | src/pages/AppointmentForm.js:136-137 | a query and its lower-case form find the same patients |
| PatientPayload.TrimAll | src/pages/PatientForm.js:90 | `map(item => item.trim())` trims each piece and keeps their number |
| PatientPayload.ParseList | src/pages/PatientForm.js:90-92 | an empty field gives the empty list; every item parsed is non-empty, trimmed and comma-free |
| PatientPayload.ShowList | src/pages/PatientForm.js:52-54 | a missing or empty list is shown as the empty field |
| PatientPayload.SplitJoined | src/pages/PatientForm.js:52-54 | splitting items joined with ", " gives the items back, each after the first with one leading space |
| PatientPayload.TrimPieces | src/pages/PatientForm.js:90 | trimming those pieces gives the original items |
| PatientPayload.TrimJoined | src/pages/PatientForm.js:52-54 | joining clean items with ", ", splitting and trimming gives the items back |
| PatientPayload.ListRoundTrip | src/pages/PatientForm.js:52-92 | parsing the displayed form of a list of non-empty, trimmed, comma-free items gives the list back |
| PatientPayload.AddressKeys | src/pages/PatientForm.js:119 | the address has no key exactly when all five sub-fields are absent |
| PatientPayload.ContactKeys | src/pages/PatientForm.js:120 | the emergency contact has no key exactly when all three sub-fields are absent |
| PatientPayload.PruneAddress | src/pages/PatientForm.js:119 | the address is deleted exactly when it has no key, and is otherwise kept as it is |
| PatientPayload.PruneContact | src/pages/PatientForm.js:120 | the emergency contact is deleted exactly when it has no key, and is otherwise kept as it is |
| PatientPayload.Formatted | src/pages/PatientForm.js:67-120 | the payload: the five required fields verbatim; the email, trimmed, only when non-blank; the notes and each medical key only when filled; the three lists parsed; the address and emergency contact holding only their filled sub-fields, and absent when none is filled |
| PatientPayload.BuildPayload | src/pages/PatientForm.js:67-120 | the handler's conditional assignments and deletions produce exactly that payload |
| PatientPayload.CollectMedicalInfo | src/pages/PatientForm.js:89-102 | the medical information holds the three parsed lists and each optional key exactly when its field is filled |
| PatientPayload.CollectAddress | src/pages/PatientForm.js:105-110 | the address holds one key per filled-in address field |
| PatientPayload.CollectContact | src/pages/PatientForm.js:113-116 | the emergency contact holds one key per filled-in contact field |
| PatientPayload.NoEmptyNestedObject | src/pages/PatientForm.js:118-120 | an address or emergency contact that is sent has at least one key |
| PatientPayload.ListsSurviveReload | src/pages/PatientForm.js:52-54 | loading a saved patient into the form and saving it again gives the same lists |
| PatientPayload.ReadOnCreate | src/pages/PatientForm.js:89-116 | on a new patient, the fourteen inputs with dotted names read as empty under the flat keys the handler uses; the other fields read as entered |
| PatientPayload.FormattedOnCreate | src/pages/PatientForm.js:67-120 | the payload sent for a new patient as written: top fields as intended, but empty lists, no medical key, no address and no emergency contact |
| PatientPayload.CreateLosesNestedFields | src/pages/PatientForm.js:89-120 | a filled street, contact name, blood type or allergy reaches the intended payload but not the one sent on create |
| MedicalRecord.CompletedYears | src/pages/MedicalRecordForm.js:214-224 | the age is the number of birthdays reached: the age-th birthday is on or before today, and the next one is after it |
| MedicalRecord.CalculateAge | src/pages/MedicalRecordForm.js:214-224 | no date of birth gives no age; otherwise the year difference, less one while this year's birthday is ahead, is the number of completed years |
| MedicalRecord.CompletedYearsUnique | src/pages/MedicalRecordForm.js:214-224 | only one number satisfies that characterisation |
| MedicalRecord.AgeNonNegative | src/pages/MedicalRecordForm.js:214-224 | for a date of birth on or before today, the age is not negative |
| MedicalRecord.AgeOnBirthday | src/pages/MedicalRecordForm.js:214-224 | on the n-th birthday, the age is n |
| MedicalRecord.AgeYearLater | src/pages/MedicalRecordForm.js:214-224 | a year later, the age is one more |
| MedicalRecord.ReachedBirthdays | src/pages/MedicalRecordForm.js:214-224 | a birthday already reached is never beyond the age |
| MedicalRecord.AgeMonotone | src/pages/MedicalRecordForm.js:214-224 | the age never decreases as time passes |
| MedicalRecord.SetField | src/pages/MedicalRecordForm.js:139 | `{ ...m, [field]: val }` changes exactly the named field |
| MedicalRecord.AddMed | src/pages/MedicalRecordForm.js:137 | a blank row is appended and the earlier rows are untouched |
| MedicalRecord.RemoveMed | src/pages/MedicalRecordForm.js:138 | exactly the row at `idx` goes and the rest keep their order; an index outside the list changes nothing |
| MedicalRecord.UpdateMed | src/pages/MedicalRecordForm.js:139 | only the named field of the row at `idx` changes; the length and every other row stay |
| MedicalRecord.AddThenRemove | src/pages/MedicalRecordForm.js:137-138 | removing the row just added restores the list |
| MedicalRecord.PrescriptionMeds | src/pages/MedicalRecordForm.js:348-358 | the prescription holds exactly the rows with a name, with their seven fields as entered |
| MedicalRecord.BlankRowsGiveNothing | src/pages/MedicalRecordForm.js:348-358 | rows that all lack a name give no medication |
| MedicalRecord.AddMedKeepsPrescription | src/pages/MedicalRecordForm.js:137 | appending a blank row does not change what is prescribed |
| MedicalRecord.PrescriptionKeepsOrder | src/pages/MedicalRecordForm.js:348-358 | the prescription keeps the order of the rows |
| MedicalRecord.OptionalNumber | src/pages/MedicalRecordForm.js:332-337 | `x ? Number(x) : undefined`: a blank field is sent as undefined, and an entered one as its number |
| MedicalRecord.BuildSave | src/pages/MedicalRecordForm.js:318-364 | the save is refused exactly when patient, doctor, chief complaint or primary diagnosis is empty. Otherwise the record copies the form: a secondary diagnosis list of one item or none, vitals only where entered, blood pressure when either reading is. A prescription is sent exactly when a row has a name, and it holds those rows and the doctor |
| MedicalRecord.StoredEntry | src/pages/MedicalRecordForm.js:158-162 | `v \|\| ''`: a missing or zero reading becomes a blank field, any other reading stays |
| MedicalRecord.FormIsEmpty | src/pages/MedicalRecordForm.js:106 | the form counts as empty exactly when complaint, diagnoses and notes together are the empty text |
| MedicalRecord.WithVitals | src/pages/MedicalRecordForm.js:157-164 | the past vitals replace weight and height when present, and the pressure readings only when a pressure was stored; nothing else changes |
| MedicalRecord.Prefilled | src/pages/MedicalRecordForm.js:142-167 | prefilling keeps patient, doctor and appointment. It copies each non-empty complaint, diagnosis and next visit, always copies the notes, and copies the stored vitals |
| MedicalRecord.Cleared | src/pages/MedicalRecordForm.js:188-197 | clearing empties the complaint, diagnoses, notes, vitals and next visit, and keeps patient, doctor and appointment |
| MedicalRecord.ApplyMedEdit | src/pages/MedicalRecordForm.js:137-139 | dispatch only: each row edit is the add, remove or update above, whose properties are stated there |
| MedicalRecord.RecordForm.constructor | src/pages/MedicalRecordForm.js:15-45 | a fresh form is empty, has one blank row and all flags off |
| MedicalRecord.RecordForm.PrefillFromRecord | src/pages/MedicalRecordForm.js:142-186 | the form becomes the prefilled draft; the stored medications replace the rows when there are any; the form is marked prefilled, the banner is shown and the cleared flag is reset |
| MedicalRecord.RecordForm.ShouldAutoPrefill | src/pages/MedicalRecordForm.js:100-107 | the guard holds only with history and an empty form, and never once the form was prefilled or cleared by the user |
| MedicalRecord.RecordForm.AutoPrefill | src/pages/MedicalRecordForm.js:99-111 | nothing changes unless the form is not yet prefilled, not cleared by the user, has history, and has empty complaint, diagnoses and notes; then it is prefilled from the latest record; afterwards the guard is off for that history |
| MedicalRecord.RecordForm.ClearPrefillData | src/pages/MedicalRecordForm.js:188-202 | the draft is cleared, exactly one blank row is left, prefilled and the banner are off and the cleared flag is on, so no later auto-prefill happens |
| MedicalRecord.RecordForm.EditMeds | src/pages/MedicalRecordForm.js:137-139 | the medication rows change by the edit and nothing else does |
| MedicalRecord.RecordForm.Save | src/pages/MedicalRecordForm.js:318-364 | dispatch only: saving hands the current fields to `BuildSave`, where the validation and request are stated |

## Left out

- Network calls are not modelled: the API client, authentication and the server calls for create, update, cancel, pay, stock, reports and history. The model stops at the request a handler would send. The server's answer to an update is a parameter (`newTotal`, `paidAmount`).
- The dispensary ledger (cancellation, payment posting, bill numbers, report statistics) lives on the server, so it is not modelled.
- Printing, toasts, icons, markup, data loading in effects and debounced search timers are not modelled, because they are presentation or I/O.
- Dispensary.BillForm.SetDays: the handler reads the row from the state of the current render. The model reads the row before the update, which is the same row, because the first update only changes the days.
- Dispensary.BillForm.ApplyUpdateResponse: `toFixed(2)` is not modelled. Amounts are exact integers.
- The unused `total` at `src/pages/Dispensary.js:227` (subtotal plus tax, without the discount) is not modelled, because nothing reads it.
- Dispensary.SaveTarget: the `token` mode is modelled as written, although no control of the screen selects it.
- Selecting a medicine from the search (`onPickSearch`) is not modelled; it only fills a row from fetched results.
- The doctor search of the appointment form (`selectDoctor`) is not modelled. On a new booking, picking a doctor also resets the amount to the doctor's fee and the offline payment to `fee ?? 0`, so in practice `Appointments.DefaultOffline` only fires when that fee is missing or 0, or when the user clears the payment fields.
- Dispensary.BillForm.SetDays and Dispensary.BillForm.SetDoses model `setDays` and `setDoses` as written. Nothing on the page calls them, and no days or doses input is shown, so they are not a working feature of the screen.
- PatientPayload.Formatted: the intended payload assumes the handler reads each address, contact and medical input's text. The handler reads them under flat keys such as `data['address.street']`. How the form library fills those keys is not modelled. The create path, where they hold nothing, is `PatientPayload.FormattedOnCreate` (see Findings). On the edit path, `reset` writes the same flat names, so what they hold there depends on the library.
- BMI is not modelled, because it is floating-point division formatted with `toFixed`.
- All `toFixed` and locale date formatting, and the ISO slicing of the next visit date, are not modelled. The date is carried as the stored string.
- `Number()` of a non-numeric string (NaN) is not modelled. An entered value is always a number, and quantities and amounts are integers (paise for money).
- MedicalRecord.CalculateAge: parsing the date string and the time zone are not modelled, and the clock is the parameter `today`.
- Strings.LowerChar: only the letters A–Z are lowered, so Unicode case mapping beyond ASCII is not modelled.
- The white space removed by `trim` is the ECMAScript white-space and line-terminator set; no other Unicode property is modelled.
- Appointments.WithFee: a doctor whose `consultationFee` is `null` is taken as a fee of 0, because `Number(null)` is 0. `fee` is `None` only when no doctor is selected or the fee is undefined.
- MedicalRecord.Prefilled: a record without notes is taken as empty notes; the form's input shows `undefined` as empty. The stored medications are taken with their missing fields already as empty strings.
- Notifications are stored as given. The id stamping of the notification helpers around the reducer is not modelled.
- Routing (`src/App.js`) is not modelled, nor are the other pages (profile, doctors, dashboard, medicines, users, details pages), because they only fetch and display.

## Findings

| source | as written | input that shows it | evidently intended | confidence | as-written member | corrected member |
|---|---|---|---|---|---|---|
| src/pages/PatientForm.js:89-116 | the submit handler reads the address, emergency contact and medical inputs as `data['address.street']` etc., but registers them with dotted names, which the form library submits as nested objects | a new patient with street "1 Main St", blood type "O+" and allergies "Peanuts" | the payload carries the address, the blood type and `["Peanuts"]` | medium, not executed (it rests on the form library nesting dotted names) | PatientPayload.FormattedOnCreate, PatientPayload.CreateLosesNestedFields | PatientPayload.Formatted, PatientPayload.NoEmptyNestedObject |
