/**
 * The checkout form: its fields, the validation run on submit (name, an
 * Iranian mobile number, an e-mail address, and an address for
 * deliveries), the per-field error messages, and submitting the order to
 * the store.
 */
module Checkout {
  import opened Base
  import opened Strings
  import opened OrderTypes
  import opened CartLogic
  import opened OrderLogic
  import opened Store

  datatype Field = NameField | PhoneField | EmailField | AddressField | OrderTypeField | SpecialRequestsField

  /** The form state; the text fields start empty and the order type at dine-in. */
  datatype FormData = FormData(
    name: string,
    phone: string,
    email: string,
    address: string,
    orderType: OrderType,
    specialRequests: string)

  const InitialForm: FormData := FormData("", "", "", "", DineIn, "")

  /** The error shown under a field; `Cleared` is the empty string a field edit leaves. */
  datatype Message = NameRequired | PhoneRequired | PhoneInvalid | EmailRequired | EmailInvalid | AddressRequired | Cleared

  function MessageText(m: Message): string {
    match m
    case NameRequired => "نام الزامی است"
    case PhoneRequired => "شماره تماس الزامی است"
    case PhoneInvalid => "شماره تماس معتبر نیست"
    case EmailRequired => "ایمیل الزامی است"
    case EmailInvalid => "ایمیل معتبر نیست"
    case AddressRequired => "آدرس برای ارسال الزامی است"
    case Cleared => ""
  }

  /** `/^09\d{9}$/`: exactly eleven ASCII digits, the first two `0` and `9`. */
  predicate IsMobilePhone(s: string) {
    && |s| == 11
    && s[0] == '0' && s[1] == '9'
    && forall i :: 2 <= i < 11 ==> IsDigit(s[i])
  }

  /** `[^\s@]+` without the length: no whitespace and no `@`. */
  predicate NoSpaceOrAt(s: string) {
    forall i :: 0 <= i < |s| ==> !IsWhitespace(s[i]) && s[i] != '@'
  }

  /** A dot at position `k` of `d` with at least one character on each side. */
  predicate DotAt(d: string, k: int) {
    1 <= k < |d| - 1 && d[k] == '.'
  }

  /** `[^\s@]+\.[^\s@]+`: no whitespace or `@`, and an inner dot. */
  predicate IsDomain(d: string) {
    NoSpaceOrAt(d) && exists k | 0 <= k < |d| :: DotAt(d, k)
  }

  /** Position `i` of `s` is an `@` between a non-empty local part and a domain. */
  predicate AtSplit(s: string, i: int) {
    0 < i < |s| && s[i] == '@' && NoSpaceOrAt(s[..i]) && IsDomain(s[i + 1..])
  }

  /** `/^[^\s@]+@[^\s@]+\.[^\s@]+$/`: a non-empty local part, one `@`, a dotted domain. */
  predicate IsEmailShape(s: string) {
    exists i | 0 <= i < |s| :: AtSplit(s, i)
  }

  /**
   * `!name.trim()`. A text is blank once trimmed exactly when all of it is
   * whitespace (`Strings.BlankIffAllWhitespace`), so the validation below
   * tests `AllWhitespace` directly.
   */
  function NameError(name: string): (m: Option<Message>)
    ensures m.Some? <==> AllWhitespace(name)
    ensures m.Some? ==> m.value == NameRequired
  {
    if AllWhitespace(name) then Some(NameRequired) else None
  }

  /** Blank text is "required"; other text that is not a mobile number is "invalid". */
  function PhoneError(phone: string): (m: Option<Message>)
    ensures m.None? <==> IsMobilePhone(phone)
    ensures m.Some? ==> m.value == if AllWhitespace(phone) then PhoneRequired else PhoneInvalid
  {
    BlankMobilePhone(phone);
    if AllWhitespace(phone) then Some(PhoneRequired)
    else if !IsMobilePhone(phone) then Some(PhoneInvalid)
    else None
  }

  /** Blank text is "required"; other text not shaped like an address is "invalid". */
  function EmailError(email: string): (m: Option<Message>)
    ensures m.None? <==> IsEmailShape(email)
    ensures m.Some? ==> m.value == if AllWhitespace(email) then EmailRequired else EmailInvalid
  {
    BlankEmail(email);
    if AllWhitespace(email) then Some(EmailRequired)
    else if !IsEmailShape(email) then Some(EmailInvalid)
    else None
  }

  /** Only a delivery needs an address. */
  function AddressError(orderType: OrderType, address: string): (m: Option<Message>)
    ensures m.Some? <==> orderType == Delivery && AllWhitespace(address)
    ensures m.Some? ==> m.value == AddressRequired
  {
    if orderType == Delivery && AllWhitespace(address) then Some(AddressRequired) else None
  }

  /** The message validation gives one field, if any. */
  function FieldError(f: FormData, k: Field): Option<Message> {
    match k
    case NameField => NameError(f.name)
    case PhoneField => PhoneError(f.phone)
    case EmailField => EmailError(f.email)
    case AddressField => AddressError(f.orderType, f.address)
    case _ => None
  }

  function Put(e: map<Field, Message>, k: Field, m: Option<Message>): map<Field, Message> {
    if m.Some? then e[k := m.value] else e
  }

  /**
   * `validateForm()`'s error record, filled field by field: exactly the
   * fields with a message, each with its message.
   */
  function FormErrors(f: FormData): map<Field, Message>
  {
    var e1 := Put(map[], NameField, NameError(f.name));
    var e2 := Put(e1, PhoneField, PhoneError(f.phone));
    var e3 := Put(e2, EmailField, EmailError(f.email));
    Put(e3, AddressField, AddressError(f.orderType, f.address))
  }

  /** Exactly the fields with a message are in the record, each with its message. */
  lemma FormErrorsSpec(f: FormData, k: Field)
    ensures k in FormErrors(f) <==> FieldError(f, k).Some?
    ensures k in FormErrors(f) ==> FormErrors(f)[k] == FieldError(f, k).value
  {
  }

  /** A blank text is never a mobile number. */
  lemma BlankMobilePhone(s: string)
    ensures AllWhitespace(s) ==> !IsMobilePhone(s)
  {
    if IsMobilePhone(s) {
      assert !IsWhitespace(s[0]);
    }
  }

  /** A blank text is never an e-mail address. */
  lemma BlankEmail(s: string)
    ensures AllWhitespace(s) ==> !IsEmailShape(s)
  {
    if IsEmailShape(s) {
      var i :| 0 <= i < |s| && AtSplit(s, i);
      assert s[..i][0] == s[0];
      assert !IsWhitespace(s[0]);
    }
  }

  /** The form passes validation exactly when every field is acceptable. */
  predicate IsValid(f: FormData) {
    |FormErrors(f)| == 0
  }

  lemma ValidIff(f: FormData)
    ensures IsValid(f) <==>
      && !AllWhitespace(f.name)
      && IsMobilePhone(f.phone)
      && IsEmailShape(f.email)
      && (f.orderType == Delivery ==> !AllWhitespace(f.address))
  {
    var e := FormErrors(f);
    if |e| == 0 {
      assert e == map[];
      assert FieldError(f, NameField).None? && FieldError(f, PhoneField).None?;
      assert FieldError(f, EmailField).None? && FieldError(f, AddressField).None?;
    } else {
      var k :| k in e;
    }
  }

  lemma PhoneExamples()
    ensures IsMobilePhone("09123456789")
    ensures !IsMobilePhone("9123456789") && !IsMobilePhone("091234567890") && !IsMobilePhone(" 09123456789")
  {
  }

  lemma EmailAccepted()
    ensures IsEmailShape("ali@cafe.ir")
  {
    var good := "ali@cafe.ir";
    assert good[..3] == "ali" && good[4..] == "cafe.ir";
    assert DotAt("cafe.ir", 4);
    assert AtSplit(good, 3);
  }

  lemma EmailWithoutDotRejected()
    ensures !IsEmailShape("ali@cafe")
  {
  }

  lemma EmailWithEmptyDomainLabelRejected()
    ensures !IsEmailShape("ali@.ir")
  {
  }

  /** `formData.address || undefined` and `formData.specialRequests || undefined`. */
  function OrUndefined(s: string): (r: Option<string>)
    ensures r.None? <==> s == []
    ensures r.Some? ==> r.value == s
  {
    if s == [] then None else Some(s)
  }

  function CustomerOf(f: FormData): CustomerInfo {
    CustomerInfo(f.name, f.phone, f.email, OrUndefined(f.address))
  }

  /** The delivery fee the summary panel shows. */
  function DisplayedDeliveryFee(t: OrderType): int {
    if t == Delivery then DeliveryFee else 0
  }

  /** The total the summary panel shows: the cart total plus the displayed fee. */
  function DisplayedTotal(cart: seq<CartItem>, t: OrderType): int {
    CartSummary(cart).total + DisplayedDeliveryFee(t)
  }

  /**
   * What `handleSubmit` leaves behind: the store after `createOrder` (or
   * untouched when validation fails) and the order handed to `onSuccess`,
   * which is the last order in the store when there is one.
   */
  function SubmitOutcome(s: StoreState, f: FormData, now: nat): (StoreState, Option<Order>)
  {
    if !IsValid(f) then (s, None)
    else
      var t := CreateOrderStep(s, CustomerOf(f), f.orderType, OrUndefined(f.specialRequests), now);
      (t, if |t.orders| > 0 then Some(t.orders[|t.orders| - 1]) else None)
  }

  /**
   * A valid submission with a non-empty cart hands `onSuccess` the order
   * just placed, whose total is the total the form displayed.
   */
  lemma SubmitChargesDisplayedTotal(s: StoreState, f: FormData, now: nat)
    requires IsValid(f) && |s.cart| > 0
    ensures var (t, shown) := SubmitOutcome(s, f, now);
      && shown.Some?
      && shown == t.currentOrder
      && shown.value.totalAmount == DisplayedTotal(s.cart, f.orderType)
      && shown.value.items == s.cart
      && shown.value.customerInfo.address == OrUndefined(f.address)
  {
    CreateOrderSpec(s, CustomerOf(f), f.orderType, OrUndefined(f.specialRequests), now);
  }

  /**
   * With an empty cart `createOrder` places nothing, yet `handleSubmit`
   * still hands `onSuccess` the last order already in the store.
   */
  lemma SubmitWithEmptyCartShowsOldOrder(s: StoreState, f: FormData, now: nat)
    requires IsValid(f) && |s.cart| == 0 && |s.orders| > 0
    ensures var (t, shown) := SubmitOutcome(s, f, now);
      && t.orders == s.orders
      && t.error == Some("Cart is empty")
      && shown == Some(s.orders[|s.orders| - 1])
  {
    CreateOrderSpec(s, CustomerOf(f), f.orderType, OrUndefined(f.specialRequests), now);
  }

  /** An invalid form changes nothing in the store and shows no order. */
  lemma InvalidSubmitChangesNothing(s: StoreState, f: FormData, now: nat)
    requires !IsValid(f)
    ensures SubmitOutcome(s, f, now) == (s, None)
  {
  }

  /** `handleInputChange(field, value)`: an error already shown for the field is blanked. */
  function ClearedError(errors: map<Field, Message>, field: Field): (r: map<Field, Message>)
    ensures r.Keys == errors.Keys
    ensures field in errors ==> r[field] == Cleared
    ensures forall k :: k in errors && k != field ==> r[k] == errors[k]
  {
    if field in errors && errors[field] != Cleared then errors[field := Cleared] else errors
  }

  function WithField(f: FormData, field: Field, value: string): FormData {
    match field
    case NameField => f.(name := value)
    case PhoneField => f.(phone := value)
    case EmailField => f.(email := value)
    case AddressField => f.(address := value)
    case SpecialRequestsField => f.(specialRequests := value)
    case OrderTypeField => f
  }

  /** The checkout component's state. */
  class CheckoutForm {
    var form: FormData
    var errors: map<Field, Message>

    constructor()
      ensures form == InitialForm && errors == map[]
    {
      form := InitialForm;
      errors := map[];
    }

    /** `handleInputChange` for a text field. */
    method HandleInputChange(field: Field, value: string)
      requires field != OrderTypeField
      modifies this
      ensures form == WithField(old(form), field, value)
      ensures errors == ClearedError(old(errors), field)
    {
      form := WithField(form, field, value);
      if field in errors && errors[field] != Cleared {
        errors := errors[field := Cleared];
      }
    }

    /** `handleInputChange('orderType', value)` from the three order-type buttons. */
    method SelectOrderType(t: OrderType)
      modifies this
      ensures form == old(form).(orderType := t)
      ensures errors == ClearedError(old(errors), OrderTypeField)
    {
      form := form.(orderType := t);
      if OrderTypeField in errors && errors[OrderTypeField] != Cleared {
        errors := errors[OrderTypeField := Cleared];
      }
    }

    /** `validateForm()`: records the error messages and reports whether there are none. */
    method ValidateForm() returns (ok: bool)
      modifies this
      ensures errors == FormErrors(form) && form == old(form)
      ensures ok <==> IsValid(form)
    {
      errors := FormErrors(form);
      ok := |errors| == 0;
    }

    /** `handleSubmit` at clock reading `now`: the order passed to `onSuccess`, if any. */
    method HandleSubmit(store: OrderStore, now: nat) returns (shown: Option<Order>)
      modifies this, store
      ensures errors == FormErrors(old(form)) && form == old(form)
      ensures (store.State(), shown) == SubmitOutcome(old(store.State()), form, now)
    {
      var ok := ValidateForm();
      if !ok {
        return None;
      }
      store.CreateOrder(CustomerOf(form), form.orderType, OrUndefined(form.specialRequests), now);
      var orders := store.orders;
      shown := if |orders| > 0 then Some(orders[|orders| - 1]) else None;
    }
  }
}
