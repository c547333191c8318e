/** The appointment form: the fee fallback, the default payment of a new
    booking, the numeric coercions and the payment status written on
    submit; the amount due shown while editing; and the patient search. */
module Appointments {
  import opened Common
  import Lists
  import Strings

  /** The payment fields of the form as submitted. */
  datatype PaymentInput = PaymentInput(
    amount: Entry,
    discount: Entry,
    paymentOnline: Entry,
    paymentOffline: Entry)

  datatype Status = Pending | Partial | Paid

  /** The payment fields as sent to the server: all numbers, plus the
      derived status. */
  datatype Submission = Submission(
    amount: int,
    discount: int,
    paymentOnline: int,
    paymentOffline: int,
    paymentStatus: Status)

  /** What the patient has to pay: the amount less the discount, never below 0. */
  function Payable(amount: int, discount: int): (r: int)
    ensures r >= 0 && r >= amount - discount
    ensures r == 0 || r == amount - discount
  {
    Max(0, amount - discount)
  }

  /** The status of a payment split: pending when nothing was paid, paid
      once the payable amount is covered, partial in between. */
  function Classify(totalPaid: int, payable: int): (r: Status)
    ensures r == Pending <==> totalPaid <= 0
    ensures r == Paid <==> totalPaid > 0 && totalPaid >= payable
    ensures r == Partial <==> 0 < totalPaid < payable
  {
    if totalPaid <= 0 then Pending
    else if totalPaid >= payable then Paid
    else Partial
  }

  /** A missing or non-positive amount is replaced by the selected doctor's
      fee when that fee is defined; `fee` is `None` when no doctor is
      selected or the doctor has no fee. */
  function WithFee(amount: Entry, fee: Option<int>): (r: Entry)
    ensures Coerce(amount) > 0 ==> r == amount
    ensures Coerce(amount) <= 0 && fee.Some? ==> r == Num(fee.value)
    ensures fee.None? ==> r == amount
  {
    if Coerce(amount) <= 0 && fee.Some? then Num(fee.value) else amount
  }

  /** A new booking with an amount and no payment entered is taken as paid
      at the desk: the offline payment becomes the payable amount. */
  function DefaultOffline(input: PaymentInput, isEdit: bool): (r: Entry)
    ensures isEdit ==> r == input.paymentOffline
    ensures !isEdit && Coerce(input.paymentOnline) <= 0 && Coerce(input.paymentOffline) <= 0
            && Coerce(input.amount) > 0
            ==> r == Num(Payable(Coerce(input.amount), Coerce(input.discount)))
    ensures (Coerce(input.paymentOnline) > 0 || Coerce(input.paymentOffline) > 0
             || Coerce(input.amount) <= 0) ==> r == input.paymentOffline
  {
    var online := Coerce(input.paymentOnline);
    var offline := Coerce(input.paymentOffline);
    var amount := Coerce(input.amount);
    if !isEdit && online <= 0 && offline <= 0 && amount > 0 then
      Num(Payable(amount, Coerce(input.discount)))
    else input.paymentOffline
  }

  /** What `onSubmit` sends, stated field by field. */
  function Submitted(input: PaymentInput, isEdit: bool, fee: Option<int>): (r: Submission)
    ensures r.amount == Coerce(WithFee(input.amount, fee))
    ensures r.discount == Coerce(input.discount)
    ensures r.paymentOnline == Coerce(input.paymentOnline)
    ensures r.paymentOffline == Coerce(DefaultOffline(input.(amount := WithFee(input.amount, fee)), isEdit))
    ensures r.paymentStatus == Classify(r.paymentOnline + r.paymentOffline, Payable(r.amount, r.discount))
  {
    var withFee := input.(amount := WithFee(input.amount, fee));
    var amount := Coerce(withFee.amount);
    var discount := Coerce(withFee.discount);
    var online := Coerce(withFee.paymentOnline);
    var offline := Coerce(DefaultOffline(withFee, isEdit));
    Submission(amount, discount, online, offline, Classify(online + offline, Payable(amount, discount)))
  }

  /** `onSubmit` up to the server call, as the handler does it: the form
      record is updated one field at a time. */
  method PrepareSubmission(input: PaymentInput, isEdit: bool, fee: Option<int>) returns (data: Submission)
    ensures data == Submitted(input, isEdit, fee)
  {
    var form := input;
    if Coerce(form.amount) <= 0 {
      if fee.Some? {
        form := form.(amount := Num(fee.value));
      }
    }
    if !isEdit {
      var online := Coerce(form.paymentOnline);
      var offline := Coerce(form.paymentOffline);
      var discount := Coerce(form.discount);
      var amount := Coerce(form.amount);
      var payable := Max(0, amount - discount);
      if online <= 0 && offline <= 0 && amount > 0 {
        form := form.(paymentOffline := Num(payable));
      }
    }
    var amount := Coerce(form.amount);
    var discount := Coerce(form.discount);
    var online := Coerce(form.paymentOnline);
    var offline := Coerce(form.paymentOffline);
    var totalPaid := online + offline;
    var payable := Max(0, amount - discount);
    var status;
    if totalPaid <= 0 {
      status := Pending;
    } else if totalPaid >= payable {
      status := Paid;
    } else {
      status := Partial;
    }
    data := Submission(amount, discount, online, offline, status);
  }

  /** A new booking with a positive amount and no payment entered is saved
      as paid when the discount is below the amount, and as pending when the
      discount covers it. */
  lemma NewBookingStatus(input: PaymentInput, fee: Option<int>)
    requires Coerce(WithFee(input.amount, fee)) > 0
    requires Coerce(input.paymentOnline) == 0 && Coerce(input.paymentOffline) == 0
    ensures var r := Submitted(input, false, fee);
      && (r.paymentStatus == Paid <==> r.amount > r.discount)
      && (r.paymentStatus == Pending <==> r.discount >= r.amount)
      && r.paymentOffline == Payable(r.amount, r.discount)
  {
  }

  /** An edit never invents a payment: the payments sent are the ones on
      the form. */
  lemma EditKeepsPayments(input: PaymentInput, fee: Option<int>)
    ensures Submitted(input, true, fee).paymentOnline == Coerce(input.paymentOnline)
    ensures Submitted(input, true, fee).paymentOffline == Coerce(input.paymentOffline)
  {
  }

  /** The amount due shown under the payment fields. */
  function AmountDue(input: PaymentInput): (r: int)
    ensures r >= 0
    ensures r > 0 ==> r == (Coerce(input.amount) - Coerce(input.discount))
                           - (Coerce(input.paymentOnline) + Coerce(input.paymentOffline))
    ensures r == 0 <==> Coerce(input.paymentOnline) + Coerce(input.paymentOffline)
                        >= Coerce(input.amount) - Coerce(input.discount)
  {
    Max(0, (Coerce(input.amount) - Coerce(input.discount))
           - (Coerce(input.paymentOnline) + Coerce(input.paymentOffline)))
  }

  /** A booking saved as paid shows nothing due. */
  lemma PaidMeansNothingDue(input: PaymentInput, isEdit: bool, fee: Option<int>)
    requires Submitted(input, isEdit, fee).paymentStatus == Paid
    ensures var r := Submitted(input, isEdit, fee);
      AmountDue(PaymentInput(Num(r.amount), Num(r.discount), Num(r.paymentOnline), Num(r.paymentOffline))) == 0
  {
  }

  /** A patient as the search sees it; a missing phone or registration
      number is the empty string. */
  datatype Patient = Patient(firstName: string, lastName: string, phone: string, regNo: string)

  /** `${firstName} ${lastName} ${phone} ${regNo}`. */
  function SearchText(p: Patient): (r: string)
    ensures Strings.OccursAt(r, p.firstName, 0)
    ensures Strings.OccursAt(r, p.lastName, |p.firstName| + 1)
    ensures Strings.OccursAt(r, p.regNo, |r| - |p.regNo|)
  {
    var r := p.firstName + " " + p.lastName + " " + p.phone + " " + p.regNo;
    assert r[..|p.firstName|] == p.firstName;
    assert r[|p.firstName| + 1..|p.firstName| + 1 + |p.lastName|] == p.lastName;
    assert r[|r| - |p.regNo|..] == p.regNo;
    r
  }

  /** The patient is listed for the query: its search text contains the
      query, both lower-cased. The empty query lists everyone. */
  predicate Matches(p: Patient, query: string)
    ensures query == "" ==> Matches(p, query)
  {
    var text := Strings.Lower(SearchText(p));
    assert query == "" ==> Strings.OccursAt(text, Strings.Lower(query), 0);
    Strings.Includes(text, Strings.Lower(query))
  }

  /** The patients whose search text contains the query, ignoring case, in
      their original order. */
  function FilterPatients(patients: seq<Patient>, query: string): (r: seq<Patient>)
    ensures |r| <= |patients|
    ensures forall i :: 0 <= i < |r| ==> r[i] in patients && Matches(r[i], query)
    ensures forall i :: 0 <= i < |patients| && Matches(patients[i], query) ==> patients[i] in r
  {
    Lists.Filter(patients, (p: Patient) => Matches(p, query))
  }

  /** An empty query lists every patient. */
  lemma EmptyQueryKeepsAll(patients: seq<Patient>)
    ensures FilterPatients(patients, "") == patients
  {
    forall i | 0 <= i < |patients| ensures Matches(patients[i], "") {
      assert Strings.OccursAt(Strings.Lower(SearchText(patients[i])), "", 0);
    }
    Lists.FilterKeepsAll(patients, (p: Patient) => Matches(p, ""));
  }

  /** The search keeps the order of the list: filtering two halves and
      joining the results is filtering the whole. */
  lemma FilterKeepsOrder(a: seq<Patient>, b: seq<Patient>, query: string)
    ensures FilterPatients(a + b, query) == FilterPatients(a, query) + FilterPatients(b, query)
  {
    Lists.FilterAppend(a, b, (p: Patient) => Matches(p, query));
  }

  /** The search ignores case: a query and its lower-case form find the same
      patients. */
  lemma QueryCaseIgnored(patients: seq<Patient>, query: string)
    ensures FilterPatients(patients, Strings.Lower(query)) == FilterPatients(patients, query)
  {
    var q := Strings.Lower(query);
    assert Strings.Lower(q) == q by {
      forall i | 0 <= i < |q| ensures Strings.Lower(q)[i] == q[i] {
        assert Strings.LowerChar(Strings.LowerChar(query[i])) == Strings.LowerChar(query[i]);
      }
    }
    forall i | 0 <= i < |patients| ensures Matches(patients[i], q) == Matches(patients[i], query) {
    }
    Lists.FilterSameTest(patients, (p: Patient) => Matches(p, q), (p: Patient) => Matches(p, query));
  }
}
