/** The dispensary screen: the line-item editor of a bill, the bill
    arithmetic shown on screen, the refund prompt after an edit and the
    guards on saving a dispense and on posting a payment. */
module Dispensary {
  import opened Common
  import Lists

  /** One row of the bill editor. Text fields a row has never been given
      are `None`; money is in paise. */
  datatype Item = Item(
    name: string,
    strength: Option<string>,
    form: Option<string>,
    duration: Option<string>,
    notes: Option<string>,
    quantity: Entry,
    unitPrice: Entry,
    days: Entry,
    doses: Entry)

  /** The row a new bill starts with and `Add Item` appends: no name,
      quantity 1, unit price 0. */
  const EmptyItem := Item("", None, None, None, None, Num(1), Num(0), Blank, Blank)

  /** `updateItem(idx, field, value)`: the field and its new value. */
  datatype Edit =
    | Name(text: string)
    | Strength(text: string)
    | Form(text: string)
    | Duration(text: string)
    | Notes(text: string)
    | Quantity(value: Entry)
    | UnitPrice(value: Entry)
    | Days(value: Entry)
    | Doses(value: Entry)

  /** `{ ...it, [field]: value }`. */
  function Apply(it: Item, e: Edit): (r: Item)
    ensures !e.Quantity? && !e.UnitPrice? ==> LineAmount(r) == LineAmount(it)
  {
    match e
    case Name(t) => it.(name := t)
    case Strength(t) => it.(strength := Some(t))
    case Form(t) => it.(form := Some(t))
    case Duration(t) => it.(duration := Some(t))
    case Notes(t) => it.(notes := Some(t))
    case Quantity(v) => it.(quantity := v)
    case UnitPrice(v) => it.(unitPrice := v)
    case Days(v) => it.(days := v)
    case Doses(v) => it.(doses := v)
  }

  /** The amount of one row: quantity times unit price, a blank counting as 0. */
  function LineAmount(it: Item): (r: int)
    ensures it.quantity.Blank? || it.unitPrice.Blank? ==> r == 0
    ensures it.quantity.Num? && it.unitPrice.Num? ==> r == it.quantity.n * it.unitPrice.n
  {
    Coerce(it.quantity) * Coerce(it.unitPrice)
  }

  /** `items.reduce((sum, it) => sum + amount(it), 0)`, folded from the left. */
  function Subtotal(items: seq<Item>): (r: int)
    ensures items == [] ==> r == 0
    ensures |items| == 1 ==> r == LineAmount(items[0])
  {
    if items == [] then 0
    else Subtotal(items[..|items| - 1]) + LineAmount(items[|items| - 1])
  }

  /** The subtotal of a bill is the sum of the subtotals of its parts. */
  lemma {:induction false} SubtotalAppend(a: seq<Item>, b: seq<Item>)
    ensures Subtotal(a + b) == Subtotal(a) + Subtotal(b)
  {
    if b == [] {
      assert a + b == a;
    } else {
      assert (a + b)[..|a + b| - 1] == a + b[..|b| - 1];
      SubtotalAppend(a, b[..|b| - 1]);
    }
  }

  /** With no negative quantity or price the subtotal is not negative. */
  lemma {:induction false} SubtotalNonNegative(items: seq<Item>)
    requires forall i :: 0 <= i < |items| ==> Coerce(items[i].quantity) >= 0 && Coerce(items[i].unitPrice) >= 0
    ensures Subtotal(items) >= 0
  {
    if items != [] {
      SubtotalNonNegative(items[..|items| - 1]);
    }
  }

  /** Appending the empty row leaves the subtotal as it was: it contributes
      1 times 0. */
  lemma AddItemKeepsSubtotal(items: seq<Item>)
    ensures Subtotal(items + [EmptyItem]) == Subtotal(items)
  {
    SubtotalAppend(items, [EmptyItem]);
    assert Subtotal([EmptyItem]) == Subtotal([]) + LineAmount(EmptyItem);
  }

  /** The subtotal of a list with one row singled out. */
  lemma SubtotalAround(pre: seq<Item>, row: Item, post: seq<Item>)
    ensures Subtotal(pre + [row] + post) == Subtotal(pre) + LineAmount(row) + Subtotal(post)
  {
    SubtotalAppend(pre + [row], post);
    SubtotalAppend(pre, [row]);
    assert [row][..0] == [];
  }

  /** Leaving the row at `idx` out takes its amount off the subtotal. */
  lemma SubtotalWithout(items: seq<Item>, idx: int, rest: seq<Item>)
    requires 0 <= idx < |items| && rest == items[..idx] + items[idx + 1..]
    ensures Subtotal(rest) == Subtotal(items) - LineAmount(items[idx])
  {
    assert items == items[..idx] + [items[idx]] + items[idx + 1..];
    SubtotalAround(items[..idx], items[idx], items[idx + 1..]);
    SubtotalAppend(items[..idx], items[idx + 1..]);
  }

  /** Removing a row takes exactly its amount off the subtotal; removing
      at an index outside the list changes nothing. */
  lemma RemoveItemSubtotal(items: seq<Item>, idx: int)
    ensures 0 <= idx < |items| ==> Subtotal(Lists.RemoveAt(items, idx)) == Subtotal(items) - LineAmount(items[idx])
    ensures !(0 <= idx < |items|) ==> Subtotal(Lists.RemoveAt(items, idx)) == Subtotal(items)
  {
    if 0 <= idx < |items| {
      SubtotalWithout(items, idx, Lists.RemoveAt(items, idx));
    }
  }

  /** Editing a row changes the subtotal by the change in that row's amount
      only, and not at all for an edit of a field other than quantity and
      price. */
  lemma UpdateItemSubtotal(items: seq<Item>, idx: int, e: Edit)
    requires 0 <= idx < |items|
    ensures Subtotal(Lists.UpdateAt(items, idx, (it: Item) => Apply(it, e)))
         == Subtotal(items) - LineAmount(items[idx]) + LineAmount(Apply(items[idx], e))
    ensures !e.Quantity? && !e.UnitPrice? ==>
         Subtotal(Lists.UpdateAt(items, idx, (it: Item) => Apply(it, e))) == Subtotal(items)
  {
    var updated := Lists.UpdateAt(items, idx, (it: Item) => Apply(it, e));
    var row := Apply(items[idx], e);
    var pre, post := items[..idx], items[idx + 1..];
    assert items == pre + [items[idx]] + post;
    assert updated == pre + [row] + post;
    SubtotalAround(pre, items[idx], post);
    SubtotalAround(pre, row, post);
  }

  /** The total shown under the editor: subtotal plus tax minus discount,
      with no lower bound. */
  function DisplayedTotal(items: seq<Item>, tax: Entry, discount: Entry): (r: int)
    ensures r + Coerce(discount) == Subtotal(items) + Coerce(tax)
    ensures r < 0 <==> Coerce(discount) > Subtotal(items) + Coerce(tax)
  {
    Subtotal(items) + Coerce(tax) - Coerce(discount)
  }

  /** The balance printed on a bill: what is still owed, never negative. */
  function Balance(total: int, paidAmount: Entry): (r: int)
    ensures r >= 0
    ensures r == 0 <==> Coerce(paidAmount) >= total
    ensures r > 0 ==> r + Coerce(paidAmount) == total
  {
    Max(0, total - Coerce(paidAmount))
  }

  /** The settlement panel of a selected dispense: the amount still due, or
      the refund due when more was paid than the bill's total. */
  datatype Due = AmountDue(amount: int) | RefundDue(amount: int)

  function DueOf(total: int, paidAmount: Entry): (r: Due)
    ensures r.RefundDue? <==> Coerce(paidAmount) > total
    ensures r.amount >= 0
    ensures r.AmountDue? ==> r.amount == Balance(total, paidAmount)
    ensures r.RefundDue? ==> Balance(total, paidAmount) == 0 && r.amount > 0
                             && total + r.amount == Coerce(paidAmount)
  {
    var paid := Coerce(paidAmount);
    var diff := total - paid;
    var shown := if diff < 0 then -diff else diff;
    if paid > total then RefundDue(shown) else AmountDue(shown)
  }

  /** After a saved edit: the payment prefilled into the pay box and the
      refund announced. */
  datatype RefundPrompt = RefundPrompt(payAmount: int, refund: int)

  /** The refund branch after an update: when the patient has paid more than
      the new total, a negative payment is prefilled and the refund is
      announced; otherwise nothing happens. */
  function RefundAfterUpdate(newTotal: int, paidAmount: Entry): (r: Option<RefundPrompt>)
    ensures r.Some? <==> Coerce(paidAmount) > newTotal
    ensures r.Some? ==> r.value.payAmount < 0 && r.value.refund > 0
    ensures r.Some? ==> r.value.payAmount == -r.value.refund
    ensures r.Some? ==> newTotal + r.value.refund == Coerce(paidAmount)
  {
    var paid := Coerce(paidAmount);
    if paid > newTotal then Some(RefundPrompt(newTotal - paid, paid - newTotal)) else None
  }

  /** The guards of `onPay`: a dispense must be selected and the amount must
      be present and non-zero. Negative amounts (refunds) pass. */
  function PayCheck(hasSelection: bool, payAmount: Entry): (r: Result<int, string>)
    ensures !hasSelection ==> r == Err("Select a dispense first")
    ensures hasSelection && (payAmount.Blank? || payAmount.n == 0) ==> r == Err("Enter valid amount")
    ensures r.Ok? <==> hasSelection && payAmount.Num? && payAmount.n != 0
    ensures r.Ok? ==> r.value == payAmount.n
  {
    if !hasSelection then Err("Select a dispense first")
    else if payAmount.Blank? || payAmount.n == 0 then Err("Enter valid amount")
    else Ok(payAmount.n)
  }

  /** Posting the prefilled refund passes the payment guard; and if the
      server adds the posted amount to what was paid (the ledger is not part
      of this model), what was paid comes down to the new total, so that
      nothing is due and no refund is due. */
  lemma PrefilledRefundSettles(newTotal: int, paidAmount: Entry)
    requires RefundAfterUpdate(newTotal, paidAmount).Some?
    ensures var p := RefundAfterUpdate(newTotal, paidAmount).value.payAmount;
      && PayCheck(true, Num(p)) == Ok(p)
      && DueOf(newTotal, Num(Coerce(paidAmount) + p)) == AmountDue(0)
  {
  }

  /** The screens of the dispensary. `Token` is the legacy mode the save
      handler still tests for. */
  datatype Mode = Today | History | Direct | Past | Reports | Token

  /** An appointment picked from today's list. */
  datatype Appointment = Appointment(appointmentDay: string, dailyToken: int)

  /** What the save handler reads besides the bill. */
  datatype SaveContext = SaveContext(
    mode: Mode,
    selectedId: Option<string>,
    selectedAppointment: Option<Appointment>,
    selectedPatientId: Option<string>,
    date: string,
    token: Entry)

  /** The fields of a row sent to the server (days and doses stay behind). */
  datatype PayloadItem = PayloadItem(
    name: string,
    quantity: Entry,
    unitPrice: Entry,
    strength: Option<string>,
    form: Option<string>,
    duration: Option<string>,
    notes: Option<string>)

  datatype Payload = Payload(items: seq<PayloadItem>, tax: int, discount: int)

  /** Where the save goes: an update of the dispense being edited, or a new
      dispense for an appointment, a patient or a date and token. */
  datatype Target =
    | UpdateExisting(id: string)
    | ForAppointment(appointmentDay: string, dailyToken: int)
    | ForPatient(patientId: string)
    | ForToken(date: string, token: int)

  datatype SaveRequest = SaveRequest(target: Target, payload: Payload)

  function ToPayloadItem(it: Item): (r: PayloadItem)
    ensures r.name == it.name && r.quantity == it.quantity && r.unitPrice == it.unitPrice
    ensures r.strength == it.strength && r.form == it.form
    ensures r.duration == it.duration && r.notes == it.notes
  {
    PayloadItem(it.name, it.quantity, it.unitPrice, it.strength, it.form, it.duration, it.notes)
  }

  /** The target chosen by `onSaveDispense`, or the message it shows. */
  function SaveTarget(ctx: SaveContext): (r: Result<Target, string>)
    ensures r.Ok? && r.value.UpdateExisting? <==> ctx.mode == Direct && ctx.selectedId.Some?
    ensures r == Err("No patient selected") <==>
      && !(ctx.mode == Direct && ctx.selectedId.Some?)
      && !(ctx.mode == Today && ctx.selectedAppointment.Some?)
      && ctx.selectedPatientId.None?
      && ctx.mode != Token
    ensures r == Err("Provide date and token") <==>
      && ctx.mode == Token && ctx.selectedPatientId.None?
      && (ctx.date == "" || ctx.token.Blank?)
    ensures r.Ok? && r.value.ForPatient? ==> ctx.selectedPatientId == Some(r.value.patientId)
    ensures ctx.mode == Direct && ctx.selectedId.Some? ==> r == Ok(UpdateExisting(ctx.selectedId.value))
    ensures ctx.mode == Today && ctx.selectedAppointment.Some? ==>
      r == Ok(ForAppointment(ctx.selectedAppointment.value.appointmentDay, ctx.selectedAppointment.value.dailyToken))
    ensures (!(ctx.mode == Direct && ctx.selectedId.Some?) && !(ctx.mode == Today && ctx.selectedAppointment.Some?)
             && ctx.selectedPatientId.Some?) ==> r == Ok(ForPatient(ctx.selectedPatientId.value))
    ensures ctx.mode == Token && ctx.selectedPatientId.None? && ctx.date != "" && ctx.token.Num? ==>
      r == Ok(ForToken(ctx.date, Coerce(ctx.token)))
  {
    if ctx.selectedId.Some? && ctx.mode == Direct then Ok(UpdateExisting(ctx.selectedId.value))
    else if ctx.mode == Today && ctx.selectedAppointment.Some? then
      Ok(ForAppointment(ctx.selectedAppointment.value.appointmentDay, ctx.selectedAppointment.value.dailyToken))
    else if ctx.selectedPatientId.Some? then Ok(ForPatient(ctx.selectedPatientId.value))
    else if ctx.mode == Token then
      if ctx.date == "" || ctx.token.Blank? then Err("Provide date and token")
      else Ok(ForToken(ctx.date, Coerce(ctx.token)))
    else Err("No patient selected")
  }

  /** `onSaveDispense` up to the server call: a bill without rows is
      refused before anything else; otherwise every row is sent with its
      seven fields, tax and discount as numbers. */
  function PrepareSave(items: seq<Item>, tax: Entry, discount: Entry, ctx: SaveContext): (r: Result<SaveRequest, string>)
    ensures items == [] ==> r == Err("No items to dispense")
    ensures items != [] ==> (r.Ok? <==> SaveTarget(ctx).Ok?)
    ensures items != [] && SaveTarget(ctx).Err? ==> r == Err(SaveTarget(ctx).error)
    ensures r.Ok? ==> r.value.target == SaveTarget(ctx).value
    ensures r.Ok? ==> |r.value.payload.items| == |items|
    ensures r.Ok? ==> forall i :: 0 <= i < |items| ==> r.value.payload.items[i] == ToPayloadItem(items[i])
    ensures r.Ok? ==> r.value.payload.tax == Coerce(tax) && r.value.payload.discount == Coerce(discount)
  {
    if items == [] then Err("No items to dispense")
    else
      var payload := Payload(seq(|items|, i requires 0 <= i < |items| => ToPayloadItem(items[i])),
                             Coerce(tax), Coerce(discount));
      match SaveTarget(ctx)
      case Ok(target) => Ok(SaveRequest(target, payload))
      case Err(message) => Err(message)
  }

  /** The editor's state: the rows of the bill, the tax and discount inputs
      and the amount in the pay box. */
  class BillForm {
    var items: seq<Item>
    var tax: Entry
    var discount: Entry
    var payAmount: Entry

    /** A fresh screen: one empty row, tax "0", no discount, no payment. */
    constructor ()
      ensures items == [EmptyItem] && tax == Num(0) && discount == Blank && payAmount == Blank
      ensures Subtotal(items) == 0
    {
      items := [EmptyItem];
      tax := Num(0);
      discount := Blank;
      payAmount := Blank;
      new;
      assert Subtotal(items) == Subtotal([]) + LineAmount(EmptyItem);
    }

    /** `addItem`: one empty row at the end; the subtotal is unchanged. */
    method AddItem()
      modifies this`items
      ensures items == old(items) + [EmptyItem]
      ensures Subtotal(items) == Subtotal(old(items))
    {
      AddItemKeepsSubtotal(items);
      items := items + [EmptyItem];
    }

    /** `removeItem(idx)`: the row at `idx` goes, the others keep their order;
        an index outside the list changes nothing. */
    method RemoveItem(idx: int)
      modifies this`items
      ensures 0 <= idx < |old(items)| ==> items == old(items)[..idx] + old(items)[idx + 1..]
      ensures !(0 <= idx < |old(items)|) ==> items == old(items)
      ensures 0 <= idx < |old(items)| ==> Subtotal(items) == Subtotal(old(items)) - LineAmount(old(items)[idx])
    {
      RemoveItemSubtotal(items, idx);
      items := Lists.RemoveAt(items, idx);
    }

    /** `updateItem(idx, field, value)`: only the named field of the row at
        `idx` changes; length, order and every other row stay. */
    method UpdateItem(idx: int, e: Edit)
      modifies this`items
      ensures |items| == |old(items)|
      ensures forall i :: 0 <= i < |items| && i != idx ==> items[i] == old(items)[i]
      ensures 0 <= idx < |items| ==> items[idx] == Apply(old(items)[idx], e)
    {
      items := Lists.UpdateAt(items, idx, (it: Item) => Apply(it, e));
    }

    /** `setDays(idx, days)`: records the days and sets the quantity to days
        times doses, blank doses counting as one. */
    method SetDays(idx: int, days: Entry)
      requires 0 <= idx < |items|
      modifies this`items
      ensures |items| == |old(items)|
      ensures forall i :: 0 <= i < |items| && i != idx ==> items[i] == old(items)[i]
      ensures items[idx] == old(items)[idx].(days := days,
                quantity := Num(Coerce(days) * CoerceOrOne(old(items)[idx].doses)))
    {
      var doses := items[idx].doses;
      UpdateItem(idx, Days(days));
      UpdateItem(idx, Quantity(Num(Coerce(days) * CoerceOrOne(doses))));
    }

    /** `setDoses(idx, doses)`: the same with the roles of days and doses
        exchanged. */
    method SetDoses(idx: int, doses: Entry)
      requires 0 <= idx < |items|
      modifies this`items
      ensures |items| == |old(items)|
      ensures forall i :: 0 <= i < |items| && i != idx ==> items[i] == old(items)[i]
      ensures items[idx] == old(items)[idx].(doses := doses,
                quantity := Num(Coerce(doses) * CoerceOrOne(old(items)[idx].days)))
    {
      var days := items[idx].days;
      UpdateItem(idx, Doses(doses));
      UpdateItem(idx, Quantity(Num(Coerce(doses) * CoerceOrOne(days))));
    }

    /** The form reset after a dispense has been created. */
    method ResetAfterCreate()
      modifies this`items, this`tax, this`discount
      ensures items == [EmptyItem] && tax == Num(0) && discount == Blank
    {
      items := [EmptyItem];
      tax := Num(0);
      discount := Blank;
    }

    /** The server's answer to an update: on an overpayment the pay box is
        prefilled with the negative difference and the refund returned for
        the announcement; otherwise the pay box keeps its value. */
    method ApplyUpdateResponse(newTotal: int, paidAmount: Entry) returns (refund: Option<int>)
      modifies this`payAmount
      ensures refund.Some? <==> Coerce(paidAmount) > newTotal
      ensures refund.Some? ==> payAmount == Num(-refund.value) && newTotal + refund.value == Coerce(paidAmount)
      ensures refund.None? ==> payAmount == old(payAmount)
    {
      match RefundAfterUpdate(newTotal, paidAmount)
      case Some(prompt) =>
        payAmount := Num(prompt.payAmount);
        refund := Some(prompt.refund);
      case None =>
        refund := None;
    }
  }
}
