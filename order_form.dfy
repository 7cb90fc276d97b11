/** The checkout form (`OrderForm` in src/components/OrderForm.tsx): its state, edited one field at
    a time, the validity rule that enables the submit button, the Kaspi phone warning and the five
    delivery slots. Rendering is left out; today's date is a parameter. */
module OrderFormState {
  import opened Wrappers
  import opened Types

  /** The values of the delivery-time `select`: the starts of the five two-hour slots. */
  const Slots: seq<string> := ["10:00", "12:00", "14:00", "16:00", "18:00"]

  /** One `handleInputChange(field, value)`: the field and the value its control emits. The time
      `select` emits one of the slots and the payment radios one of the two methods. */
  datatype Edit =
    | PhoneEdit(phone: string)
    | AddressEdit(address: string)
    | DateEdit(date: string)
    | TimeEdit(slot: nat)
    | PaymentEdit(payment: PaymentMethod)
    | CommentEdit(comment: string)

  /** An edit a control of the form can emit. */
  predicate Emittable(e: Edit) {
    e.TimeEdit? ==> e.slot < |Slots|
  }

  /** The form on mount; `today` is the date part of the current ISO timestamp. */
  function InitialForm(today: string): (f: OrderForm)
    ensures f.phone == "" && f.address == "" && f.comment == Some("")
    ensures f.deliveryDate == today && f.deliveryTime == Slots[2] && f.paymentMethod == Kaspi
  {
    OrderForm("", "", today, "14:00", Kaspi, Some(""))
  }

  /** `{ ...prev, [field]: value }`. */
  function Apply(form: OrderForm, e: Edit): (r: OrderForm)
    requires Emittable(e)
    ensures r.phone == (if e.PhoneEdit? then e.phone else form.phone)
    ensures r.address == (if e.AddressEdit? then e.address else form.address)
    ensures r.deliveryDate == (if e.DateEdit? then e.date else form.deliveryDate)
    ensures r.deliveryTime == (if e.TimeEdit? then Slots[e.slot] else form.deliveryTime)
    ensures r.paymentMethod == (if e.PaymentEdit? then e.payment else form.paymentMethod)
    ensures r.comment == (if e.CommentEdit? then Some(e.comment) else form.comment)
  {
    match e
    case PhoneEdit(v) => form.(phone := v)
    case AddressEdit(v) => form.(address := v)
    case DateEdit(v) => form.(deliveryDate := v)
    case TimeEdit(i) => form.(deliveryTime := Slots[i])
    case PaymentEdit(p) => form.(paymentMethod := p)
    case CommentEdit(v) => form.(comment := Some(v))
  }

  /** `isValid`: both phone and address are non-empty strings. Nothing is trimmed. */
  predicate IsValid(form: OrderForm) {
    form.phone != "" && form.address != ""
  }

  /** The submit button's `disabled`. */
  predicate SubmitDisabled(form: OrderForm, loading: bool) {
    !IsValid(form) || loading
  }

  /** The red notice under the Kaspi block. */
  predicate PhoneWarning(form: OrderForm) {
    form.paymentMethod == Kaspi && form.phone == ""
  }

  class OrderFormModel {
    var formData: OrderForm

    /** The delivery time always names one of the slots. */
    predicate Valid()
      reads this
    {
      formData.deliveryTime in Slots
    }

    constructor(today: string)
      ensures Valid()
      ensures formData == InitialForm(today)
    {
      formData := OrderForm("", "", today, "14:00", Kaspi, Some(""));
    }

    /** `handleInputChange`. */
    method HandleInputChange(e: Edit)
      requires Valid() && Emittable(e)
      modifies this
      ensures Valid()
      ensures formData == Apply(old(formData), e)
    {
      formData := Apply(formData, e);
    }

    /** Pressing the submit button: it hands the form over unchanged, and does nothing while it is
        disabled. */
    method Submit(loading: bool) returns (submitted: Option<OrderForm>)
      ensures submitted.Some? <==> IsValid(formData) && !loading
      ensures submitted.Some? ==> submitted.value == formData
    {
      if !IsValid(formData) || loading {
        return None;
      }
      submitted := Some(formData);
    }
  }

  /** The form starts with its submit button disabled and the phone warning shown. */
  lemma InitialFormBlocked(today: string, loading: bool)
    ensures SubmitDisabled(InitialForm(today), loading) && PhoneWarning(InitialForm(today))
  {
  }

  /** Only editing the phone or the address can change validity. */
  lemma ValidityFromPhoneAndAddress(form: OrderForm, e: Edit)
    requires Emittable(e) && !e.PhoneEdit? && !e.AddressEdit?
    ensures IsValid(Apply(form, e)) == IsValid(form)
  {
  }

  /** Whitespace counts as content: a blank phone and a blank address make the form valid. */
  lemma WhitespaceIsValid(form: OrderForm)
    ensures IsValid(form.(phone := " ", address := " "))
  {
  }

  /** While the warning shows, the form cannot be submitted. */
  lemma WarningBlocksSubmit(form: OrderForm, loading: bool)
    requires PhoneWarning(form)
    ensures SubmitDisabled(form, loading)
  {
  }

  /** Editing the phone to a non-empty value clears the warning; paying cash never shows it. */
  lemma WarningCleared(form: OrderForm, phone: string)
    ensures phone != "" ==> !PhoneWarning(Apply(form, PhoneEdit(phone)))
    ensures !PhoneWarning(Apply(form, PaymentEdit(Cash)))
  {
  }

  /** Five distinct slots, from 10:00 to 18:00, the initial one among them. */
  lemma SlotsShape()
    ensures |Slots| == 5 && Slots[0] == "10:00" && Slots[4] == "18:00"
    ensures forall i, j :: 0 <= i < j < |Slots| ==> Slots[i] != Slots[j]
    ensures "14:00" in Slots
  {
  }
}
