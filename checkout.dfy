/** The checkout page (`src/pages/Checkout.tsx`): the form state, the input
    handlers that mask what is typed and hide the error of the edited field,
    and the submission status that runs from idle through processing to
    success, emptying the cart on the way. */
module Checkout {
  import opened Text
  import opened Cart
  import opened Masks
  import opened Validation

  datatype Status = Idle | Processing | Success

  /** How far a submission has gone. */
  function Stage(status: Status): nat {
    match status
    case Idle => 0
    case Processing => 1
    case Success => 2
  }

  /** The status after a click on the pay button: the button is disabled
      unless the status is idle and the cart holds something, and a form
      that fails validation leaves the status as it is. */
  function AfterSubmit(status: Status, cartEmpty: bool, valid: bool): (next: Status)
    ensures Stage(status) <= Stage(next)
    ensures status == Idle ==> (next == Processing <==> !cartEmpty && valid)
    ensures next != Processing || status != Idle ==> next == status
  {
    if status == Idle && !cartEmpty && valid then Processing else status
  }

  // ---------------------------------------------------------------------
  // Delivery fields
  // ---------------------------------------------------------------------

  /** The inputs wired to `handleInputChange`. */
  predicate IsShipping(field: Field) {
    field in {FirstName, LastName, Address, Zip, City, Phone}
  }

  /** `formData[name]`. */
  function ShippingValue(form: ShippingData, field: Field): string
    requires IsShipping(field)
  {
    match field
    case FirstName => form.firstName
    case LastName => form.lastName
    case Address => form.address
    case Zip => form.zip
    case City => form.city
    case Phone => form.phone
  }

  /** `{ ...prev, [name]: value }`: one field replaced, the others kept. */
  function WithShippingValue(form: ShippingData, field: Field, value: string): (r: ShippingData)
    requires IsShipping(field)
    ensures ShippingValue(r, field) == value
    ensures forall f :: IsShipping(f) && f != field ==> ShippingValue(r, f) == ShippingValue(form, f)
  {
    match field
    case FirstName => form.(firstName := value)
    case LastName => form.(lastName := value)
    case Address => form.(address := value)
    case Zip => form.(zip := value)
    case City => form.(city := value)
    case Phone => form.(phone := value)
  }

  /** The mask `handleInputChange` applies: postal code and phone are
      masked, the other fields are kept as typed. */
  function ShippingMask(field: Field, value: string): string {
    if field == Zip then FormatZip(value)
    else if field == Phone then FormatPhone(value)
    else value
  }

  /** Feeding a masked value back through its input changes nothing. */
  lemma ShippingMaskIdempotent(field: Field, value: string)
    ensures ShippingMask(field, ShippingMask(field, value)) == ShippingMask(field, value)
  {
    if field == Zip {
      FormatZipIdempotent(value);
    } else if field == Phone {
      FormatPhoneIdempotent(value);
    }
  }

  /** Editing one delivery field leaves the verdict of every other field's
      test as it was. */
  lemma EditTouchesOneTest(form: ShippingData, field: Field, value: string, other: Field,
                           payment: PaymentMethod, blik: string, card: CardData)
    requires IsShipping(field) && other != field
    ensures Fails(other, WithShippingValue(form, field, value), payment, blik, card)
        == Fails(other, form, payment, blik, card)
  {
    var form' := WithShippingValue(form, field, value);
    if IsShipping(other) {
      assert ShippingValue(form', other) == ShippingValue(form, other);
    }
  }

  /** `errors[field]` is displayed: the key holds a non-empty message. */
  predicate Shown(errors: map<Field, string>, field: Field) {
    field in errors && errors[field] != ""
  }

  /** `if (errors[name]) setErrors(prev => ({ ...prev, [name]: '' }))`: the
      message of the edited field is blanked, the key stays. */
  function ClearError(errors: map<Field, string>, field: Field): (r: map<Field, string>)
    ensures r.Keys == errors.Keys
    ensures !Shown(r, field)
    ensures forall f :: f in r && f != field ==> r[f] == errors[f]
    ensures !Shown(errors, field) ==> r == errors
  {
    if Shown(errors, field) then errors[field := ""] else errors
  }

  // ---------------------------------------------------------------------
  // Payment fields
  // ---------------------------------------------------------------------

  /** The inputs wired to `handleCardChange`, by their `name`. */
  datatype CardInput = NumberInput | ExpiryInput | CvcInput

  /** The mask `handleCardChange` applies to each input. */
  function CardInputMask(input: CardInput, value: string): string {
    match input
    case NumberInput => CardMask(value)
    case ExpiryInput => FormatExpiry(value)
    case CvcInput => CvcMask(value)
  }

  /** Feeding a masked card field back through its input changes nothing. */
  lemma CardInputMaskIdempotent(input: CardInput, value: string)
    ensures CardInputMask(input, CardInputMask(input, value)) == CardInputMask(input, value)
  {
    match input
    case NumberInput => CardMaskIdempotent(value);
    case ExpiryInput => FormatExpiryIdempotent(value);
    case CvcInput => CodeMasksIdempotent(value);
  }

  /** `{ ...prev, [name]: value }` on `cardData`. */
  function WithCardValue(card: CardData, input: CardInput, value: string): (r: CardData)
    ensures r.number == (if input == NumberInput then value else card.number)
    ensures r.expiry == (if input == ExpiryInput then value else card.expiry)
    ensures r.cvc == (if input == CvcInput then value else card.cvc)
  {
    match input
    case NumberInput => card.(number := value)
    case ExpiryInput => card.(expiry := value)
    case CvcInput => card.(cvc := value)
  }

  // ---------------------------------------------------------------------
  // The page
  // ---------------------------------------------------------------------

  /** The state of the `Checkout` component. `cartClears` counts the calls
      of `clearCart` made by this checkout. */
  class CheckoutForm {
    var status: Status
    var paymentMethod: PaymentMethod
    var formData: ShippingData
    var blikCode: string
    var cardData: CardData
    var errors: map<Field, string>
    ghost var cartClears: nat

    /** The cart is emptied once, exactly when the order has succeeded. */
    ghost predicate Valid()
      reads this
    {
      cartClears <= 1 && (cartClears == 1 <==> status == Success)
    }

    /** The initial state: idle, card payment, the phone pre-filled with
        its prefix, everything else empty. */
    constructor ()
      ensures status == Idle && paymentMethod == Card
      ensures formData == ShippingData("", "", "", "", "", PhonePrefix)
      ensures blikCode == "" && cardData == CardData("", "", "") && errors == map[]
      ensures Valid()
    {
      status := Idle;
      paymentMethod := Card;
      formData := ShippingData("", "", "", "", "", PhonePrefix);
      blikCode := "";
      cardData := CardData("", "", "");
      errors := map[];
      cartClears := 0;
    }

    /** `handleInputChange`: the typed text, masked for the postal code and
        the phone, replaces the field; a displayed error of that field is
        blanked. */
    method HandleInputChange(field: Field, value: string)
      requires IsShipping(field)
      modifies this`formData, this`errors
      ensures formData == WithShippingValue(old(formData), field, ShippingMask(field, value))
      ensures errors == ClearError(old(errors), field)
    {
      var formatted := value;
      if field == Zip {
        formatted := FormatZip(value);
      }
      if field == Phone {
        formatted := FormatPhone(value);
      }
      formData := WithShippingValue(formData, field, formatted);
      if Shown(errors, field) {
        errors := errors[field := ""];
      }
    }

    /** `handleCardChange`: the typed text, masked, replaces the card field;
        errors are left as they are. */
    method HandleCardChange(input: CardInput, value: string)
      modifies this`cardData
      ensures cardData == WithCardValue(old(cardData), input, CardInputMask(input, value))
    {
      var formatted := value;
      if input == NumberInput {
        formatted := FormatCardNumber(value);
      }
      if input == ExpiryInput {
        formatted := FormatExpiry(value);
      }
      if input == CvcInput {
        formatted := CvcMask(value);
      }
      cardData := WithCardValue(cardData, input, formatted);
    }

    /** `handleBlikChange`: at most six digits are kept. */
    method HandleBlikChange(value: string)
      modifies this`blikCode
      ensures blikCode == BlikMask(value)
    {
      blikCode := BlikMask(value);
    }

    /** One of the three payment buttons. */
    method SelectPaymentMethod(payment: PaymentMethod)
      modifies this`paymentMethod
      ensures paymentMethod == payment
    {
      paymentMethod := payment;
    }

    /** `handlePayment`, reached through the pay button: nothing happens
        while the button is disabled; otherwise the form is validated, its
        errors replace the old ones, and a valid form starts processing. */
    method HandlePayment(cart: CartStore)
      requires Valid()
      modifies this`errors, this`status
      ensures Valid()
      ensures status == AfterSubmit(old(status), |cart.items| == 0, FormValid(formData, paymentMethod, blikCode, cardData))
      ensures old(status) == Idle && |cart.items| > 0 ==> errors == Errors(formData, paymentMethod, blikCode, cardData)
      ensures !(old(status) == Idle && |cart.items| > 0) ==> errors == old(errors)
    {
      if status != Idle || |cart.items| == 0 {
        return;
      }
      var newErrors, ok := Validate(formData, paymentMethod, blikCode, cardData);
      errors := newErrors;
      if !ok {
        return;
      }
      status := Processing;
    }

    /** The delayed callback of `handlePayment`: the order succeeds and the
        cart is emptied. */
    method PaymentTimerFires(cart: CartStore)
      requires Valid() && status == Processing
      modifies this`status, this`cartClears, cart
      ensures Valid()
      ensures status == Success && Stage(old(status)) < Stage(status)
      ensures cartClears == old(cartClears) + 1 == 1
      ensures cart.items == [] && cart.isCartOpen == old(cart.isCartOpen) && cart.Synced()
    {
      status := Success;
      cart.ClearCart();
      cartClears := cartClears + 1;
    }
  }
}
