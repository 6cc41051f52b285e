/**
 * CheckoutModal of app/components/CheckoutModal.tsx: the checkout form, its
 * validation chain, and the submit handler that routes to the cash route, the
 * PayPal route, or the embedded card widget. The handler is split at its
 * `await`: `Submit` runs up to the request, `CashReply` and `PayPalReply`
 * resume with the answer. The modal dispatches into the cart provider it
 * reads, so clearing the cart is a change of the provider's state.
 */
module CheckoutModal {
  import opened Wrappers
  import opened Js
  import opened Text
  import opened CartReducer
  import opened CartTotals
  import opened CartContext
  import opened CheckoutRequest
  import CashRoute
  import PayPalRoute

  datatype PaymentMethod = Cash | Card
  datatype CardType = Visa | Mastercard | Amex | PayPal

  datatype FormData = FormData(
    fullName: string,
    address: string,
    contactNumber: string,
    paymentMethod: PaymentMethod,
    cardType: Option<CardType>)

  const InitialForm := FormData("", "", "", Cash, Some(Visa))

  const FullNameRequired := "Full name is required"
  const AddressRequired := "Address is required"
  const ContactRequired := "Contact number is required"
  const CardTypeRequired := "Please select a card type"
  const CashFailedMessage := "Failed to process cash order"
  const PayPalFailedMessage := "PayPal payment failed"
  const ProcessingFailedMessage := "Payment processing failed"

  /** One edit of a form control. */
  datatype FormEdit =
    | EditFullName(fullName: string)
    | EditAddress(address: string)
    | EditContactNumber(contactNumber: string)
    | EditPaymentMethod(paymentMethod: PaymentMethod)
    | EditCardType(cardType: CardType)

  function ApplyEdit(form: FormData, edit: FormEdit): FormData
  {
    match edit
    case EditFullName(v) => form.(fullName := v)
    case EditAddress(v) => form.(address := v)
    case EditContactNumber(v) => form.(contactNumber := v)
    case EditPaymentMethod(m) => form.(paymentMethod := m)
    case EditCardType(t) => form.(cardType := Some(t))
  }

  /** `validateForm`'s chain: the first failing check's message, or nothing. */
  function FormError(form: FormData): (e: Option<string>)
    ensures e.Some? ==> e.value in [FullNameRequired, AddressRequired, ContactRequired, CardTypeRequired]
    ensures e.None? ==> Trim(form.fullName) != "" && Trim(form.address) != "" && Trim(form.contactNumber) != ""
  {
    if Trim(form.fullName) == "" then Some(FullNameRequired)
    else if Trim(form.address) == "" then Some(AddressRequired)
    else if Trim(form.contactNumber) == "" then Some(ContactRequired)
    else if form.paymentMethod == Card && form.cardType.None? then Some(CardTypeRequired)
    else None
  }

  /** The three ways a valid form is paid: PayPal is a card subtype that leaves the card widget out. */
  datatype Route = PayCash | PayWithPayPal | PayByCardWidget

  function RouteOf(form: FormData): (r: Route)
    ensures r == PayCash <==> form.paymentMethod == Cash
    ensures r == PayWithPayPal <==> form.paymentMethod != Cash && form.cardType == Some(PayPal)
  {
    if form.paymentMethod == Cash then PayCash
    else if form.cardType == Some(PayPal) then PayWithPayPal
    else PayByCardWidget
  }

  datatype Endpoint = CashEndpoint | PayPalEndpoint

  /** A request the modal sends: `orderData` with its route, payment method and card type. */
  datatype OrderRequest = OrderRequest(endpoint: Endpoint, body: CheckoutBody, paymentMethod: PaymentMethod, cardType: Option<CardType>)

  /** Where `handleSubmit` is suspended, if anywhere. */
  datatype Pending = Idle | AwaitingCash | AwaitingPayPal

  function Fields(form: FormData): CustomerFields
  {
    CustomerFields(form.fullName, form.address, form.contactNumber)
  }

  // ---------------------------------------------------------------------
  // Properties of the validation chain and the routing

  /** The checks run in order, and each message names the first field that fails. */
  lemma ValidationOrder(form: FormData)
    ensures Trim(form.fullName) == "" ==> FormError(form) == Some(FullNameRequired)
    ensures Trim(form.fullName) != "" && Trim(form.address) == "" ==> FormError(form) == Some(AddressRequired)
    ensures Trim(form.fullName) != "" && Trim(form.address) != "" && Trim(form.contactNumber) == "" ==>
      FormError(form) == Some(ContactRequired)
    ensures Trim(form.fullName) != "" && Trim(form.address) != "" && Trim(form.contactNumber) != "" ==>
      FormError(form) == if form.paymentMethod == Card && form.cardType.None? then Some(CardTypeRequired) else None
  {
  }

  /** A form that passes has three non-blank text fields, so each is non-empty, and a card type whenever the method is card. */
  lemma {:induction false} ValidFormFields(form: FormData)
    requires FormError(form) == None
    ensures form.fullName != "" && form.address != "" && form.contactNumber != ""
    ensures exists i :: 0 <= i < |form.fullName| && !IsJsWhitespace(form.fullName[i])
    ensures form.paymentMethod == Card ==> form.cardType.Some?
  {
    NotBlankIsNonEmpty(form.fullName);
    NotBlankIsNonEmpty(form.address);
    NotBlankIsNonEmpty(form.contactNumber);
    BlankIff(form.fullName);
  }

  /** A name of spaces only is rejected, even though it is not empty. */
  lemma BlankNameRejected(form: FormData)
    requires form.fullName == "   "
    ensures FormError(form) == Some(FullNameRequired)
  {
    BlankIff(form.fullName);
  }

  /** Cash goes to the cash route; card with PayPal to the PayPal route; any other card type to the widget. */
  lemma Routing(form: FormData)
    ensures RouteOf(form) == PayCash <==> form.paymentMethod == Cash
    ensures RouteOf(form) == PayWithPayPal <==> form.paymentMethod == Card && form.cardType == Some(PayPal)
    ensures RouteOf(form) == PayByCardWidget <==> form.paymentMethod == Card && form.cardType != Some(PayPal)
  {
  }

  class CheckoutModal {
    const cart: CartProvider
    var form: FormData
    var isProcessing: bool
    var error: Option<string>
    var isOpen: bool
    var pending: Pending

    /** Processing exactly while a request is outstanding; the provider keeps the store in step. */
    ghost predicate Valid()
      reads this, cart
    {
      (isProcessing <==> pending != Idle) && cart.Mirrored()
    }

    /** Mounted with the initial form, opened or not by the page. */
    constructor (cart: CartProvider, isOpen: bool)
      requires cart.Mirrored()
      ensures Valid()
      ensures this.cart == cart && this.isOpen == isOpen
      ensures form == InitialForm && !isProcessing && error == None && pending == Idle
    {
      this.cart := cart;
      this.isOpen := isOpen;
      form := InitialForm;
      isProcessing := false;
      error := None;
      pending := Idle;
    }

    /** `totalPrice`: the cart's price total, the amount every route is sent. */
    function Total(): int
      reads this, cart
    {
      TotalPrice(cart.state.items)
    }

    /** The card widget is embedded for card payments other than PayPal. */
    function CardWidgetShown(): bool
      reads this
    {
      RouteOf(form) == PayByCardWidget
    }

    /** The modal's own submit button is rendered except when the card widget takes over. */
    function SubmitShown(): (shown: bool)
      reads this
      ensures shown <==> !CardWidgetShown()
    {
      !(form.paymentMethod == Card && form.cardType != Some(PayPal))
    }

    /** Both Cancel and the submit button carry `disabled={isProcessing}`. */
    function ButtonsDisabled(): (disabled: bool)
      reads this, cart
      ensures isProcessing ==> disabled
      ensures !isProcessing ==> !disabled
      ensures Valid() && pending != Idle ==> disabled
    {
      isProcessing
    }

    /**
     * An input's change handler. Inputs and selects clear the error; the
     * address textarea has its own handler, which does not.
     */
    method Edit(edit: FormEdit)
      modifies this`form, this`error
      ensures form == ApplyEdit(old(form), edit)
      ensures error == if edit.EditAddress? then old(error) else None
    {
      form := ApplyEdit(form, edit);
      if !edit.EditAddress? {
        error := None;
      }
    }

    /** `onClose`: the page closes the modal (the × button, Cancel, or a completed payment). */
    method Close()
      modifies this`isOpen
      ensures !isOpen
    {
      isOpen := false;
    }

    /** `validateForm`: the first failing check sets its message and answers false. */
    method ValidateForm() returns (ok: bool)
      modifies this`error
      ensures ok <==> FormError(form) == None
      ensures error == if ok then old(error) else FormError(form)
    {
      if Trim(form.fullName) == "" {
        error := Some(FullNameRequired);
        return false;
      }
      if Trim(form.address) == "" {
        error := Some(AddressRequired);
        return false;
      }
      if Trim(form.contactNumber) == "" {
        error := Some(ContactRequired);
        return false;
      }
      if form.paymentMethod == Card && form.cardType.None? {
        error := Some(CardTypeRequired);
        return false;
      }
      return true;
    }

    /**
     * `handleSubmit` up to its `await`. An invalid form sets its message and
     * sends nothing. A valid one clears the error, raises `isProcessing` and
     * posts `orderData` to the cash or PayPal route; for the card widget
     * nothing is sent and `isProcessing` drops back at once. The submit button
     * is disabled while processing, so a submission never overlaps another.
     */
    method Submit() returns (request: Option<OrderRequest>)
      requires Valid() && isOpen && !isProcessing
      modifies this`error, this`isProcessing, this`pending
      ensures Valid()
      ensures FormError(form) != None ==>
        request == None && error == FormError(form) && !isProcessing && pending == Idle
      ensures FormError(form) == None ==> error == None
      ensures FormError(form) == None && RouteOf(form) == PayCash ==>
        && request == Some(OrderRequest(CashEndpoint, OrderBody(cart.state.items, Fields(form), Total()), Cash, form.cardType))
        && isProcessing && pending == AwaitingCash
      ensures FormError(form) == None && RouteOf(form) == PayWithPayPal ==>
        && request == Some(OrderRequest(PayPalEndpoint, OrderBody(cart.state.items, Fields(form), Total()), Card, Some(PayPal)))
        && isProcessing && pending == AwaitingPayPal
      ensures FormError(form) == None && RouteOf(form) == PayByCardWidget ==>
        request == None && !isProcessing && pending == Idle
    {
      var ok := ValidateForm();
      if !ok {
        return None;
      }
      isProcessing := true;
      error := None;
      var body := OrderBody(cart.state.items, Fields(form), Total());
      if form.paymentMethod == Cash {
        request := Some(OrderRequest(CashEndpoint, body, form.paymentMethod, form.cardType));
        pending := AwaitingCash;
      } else if form.cardType == Some(PayPal) {
        request := Some(OrderRequest(PayPalEndpoint, body, form.paymentMethod, form.cardType));
        pending := AwaitingPayPal;
      } else {
        request := None;
        isProcessing := false;
      }
    }

    /** The page's `dispatch({ type: 'CLEAR_CART' })` followed by `onClose()`. */
    method ClearAndClose()
      requires cart.Mirrored()
      modifies this`isOpen, cart
      ensures cart.Mirrored() && !isOpen
      ensures cart.state == Reduce(old(cart.state), ClearCart)
      ensures cart.isHydrated == old(cart.isHydrated)
      ensures cart.store == if cart.isHydrated then old(cart.store)[StorageKey := Json(cart.state)] else old(cart.store)
    {
      cart.Dispatch(ClearCart);
      Close();
    }

    /**
     * Resumes the cash path. A confirmation clears the cart and closes the
     * modal; a non-OK response reports "Failed to process cash order" and a
     * rejection its own message, with the cart untouched. `finally` clears
     * `isProcessing` on every path.
     */
    method CashReply(reply: Fetched<CashRoute.CashConfirmation>)
      requires Valid() && pending == AwaitingCash
      modifies this`isOpen, this`error, this`isProcessing, this`pending, cart
      ensures Valid() && !isProcessing && pending == Idle
      ensures reply.Ok? ==>
        && cart.state == Reduce(old(cart.state), ClearCart)
        && cart.isHydrated == old(cart.isHydrated)
        && cart.store == (if cart.isHydrated then old(cart.store)[StorageKey := Json(cart.state)] else old(cart.store))
        && !isOpen && error == old(error)
      ensures reply.NotOk? ==> unchanged(cart) && isOpen == old(isOpen) && error == Some(CashFailedMessage)
      ensures reply.Rejected? ==>
        unchanged(cart) && isOpen == old(isOpen) && error == Some(CaughtMessage(reply.thrown, ProcessingFailedMessage))
    {
      match reply {
        case Ok(_) =>
          ClearAndClose();
        case NotOk =>
          error := Some(CashFailedMessage);
        case Rejected(thrown) =>
          error := Some(CaughtMessage(thrown, ProcessingFailedMessage));
      }
      isProcessing := false;
      pending := Idle;
    }

    /**
     * Resumes the PayPal path. Any failure is rethrown as "PayPal payment
     * failed", replacing the inner message. A created order is put to the
     * user; `confirmed` is their answer. Confirming clears the cart and closes
     * the modal; declining leaves everything as it was, with no error.
     */
    method PayPalReply(reply: Fetched<PayPalRoute.PayPalCreated>, confirmed: bool)
      requires Valid() && pending == AwaitingPayPal
      modifies this`isOpen, this`error, this`isProcessing, this`pending, cart
      ensures Valid() && !isProcessing && pending == Idle
      ensures reply.Ok? && confirmed ==>
        && cart.state == Reduce(old(cart.state), ClearCart)
        && cart.isHydrated == old(cart.isHydrated)
        && cart.store == (if cart.isHydrated then old(cart.store)[StorageKey := Json(cart.state)] else old(cart.store))
        && !isOpen && error == old(error)
      ensures reply.Ok? && !confirmed ==> unchanged(cart) && isOpen == old(isOpen) && error == old(error)
      ensures !reply.Ok? ==> unchanged(cart) && isOpen == old(isOpen) && error == Some(PayPalFailedMessage)
    {
      if reply.Ok? {
        if confirmed {
          ClearAndClose();
        }
      } else {
        error := Some(PayPalFailedMessage);
      }
      isProcessing := false;
      pending := Idle;
    }

    /** `handleStripePaymentSuccess`: clear the cart and close; `isProcessing` is the widget's own. */
    method StripeSucceeded(paymentIntentId: string)
      requires Valid()
      modifies this`isOpen, cart
      ensures Valid()
      ensures cart.state == Reduce(old(cart.state), ClearCart)
      ensures cart.isHydrated == old(cart.isHydrated)
      ensures cart.store == if cart.isHydrated then old(cart.store)[StorageKey := Json(cart.state)] else old(cart.store)
      ensures !isOpen
    {
      ClearAndClose();
    }

    /** `handleStripePaymentError`: the widget's message, verbatim; the cart is not touched. */
    method StripeFailed(message: string)
      modifies this`error
      ensures error == Some(message)
    {
      error := Some(message);
    }
  }
}
