/**
 * How the pieces fit: the three checkout routes answer every refused body the
 * same way, what the modal sends for a valid form and a priced cart passes
 * their guard, and whole checkouts (cart provider, modal, card widget, route)
 * end with the cart cleared exactly when the payment completed.
 */
module CheckoutFlow {
  import opened Wrappers
  import opened Js
  import opened Text
  import opened CartReducer
  import opened CartTotals
  import opened CartContext
  import opened CheckoutRequest
  import opened CashRoute
  import opened PayPalRoute
  import opened StripeRoute
  import StripeCardForm
  import CheckoutModal

  /** The three checkout routes refuse the same bodies, with the same status and text, before any outbound call. */
  lemma RoutesRefuseAlike(body: CheckoutBody, now: nat, suffix: string, env: PayPalEnv, token: Option<string>,
                          order: Option<PayPalOrder>, intent: Option<PaymentIntent>)
    requires Guard(body).Some?
    ensures var (status, text) := Guard(body).value;
      && CashPost(Some(body), now, suffix) == Refused(status, text)
      && PayPalPost(Some(body), env, token, order) == Exchange([], Refused(status, text))
      && StripePost(Some(body), intent) == Exchange([], Refused(status, text))
  {
  }

  /** And they let the same bodies through: the cash route confirms, the other two go on to their gateway. */
  lemma RoutesAcceptAlike(body: CheckoutBody, now: nat, suffix: string, env: PayPalEnv, token: Option<string>,
                          order: Option<PayPalOrder>, intent: Option<PaymentIntent>)
    requires Present(env.clientId) && Present(env.clientSecret)
    ensures CashPost(Some(body), now, suffix).Accepted? <==> Admissible(body)
    ensures PayPalPost(Some(body), env, token, order).calls != [] <==> Admissible(body)
    ensures StripePost(Some(body), intent).calls != [] <==> Admissible(body)
  {
  }

  /**
   * A form that passes the modal's validation, sent with a non-empty cart whose
   * total is positive, passes the routes' guard.
   */
  lemma ValidOrderAdmissible(form: CheckoutModal.FormData, items: seq<CartItem>)
    requires CheckoutModal.FormError(form) == None
    requires items != [] && TotalPrice(items) > 0
    ensures Admissible(OrderBody(items, CheckoutModal.Fields(form), TotalPrice(items)))
  {
    CheckoutModal.ValidFormFields(form);
  }

  /** The modal itself does not check the cart: an empty cart is sent, and refused by the routes as "No items in cart". */
  lemma EmptyCartRefused(form: CheckoutModal.FormData)
    ensures Guard(OrderBody([], CheckoutModal.Fields(form), TotalPrice([]))) == Some((400, NoItemsMessage))
  {
  }

  /** A cart of free items totals 0, which the routes refuse as "Invalid total amount" once the customer passes. */
  lemma {:induction false} FreeCartRefused(form: CheckoutModal.FormData, items: seq<CartItem>)
    requires CheckoutModal.FormError(form) == None
    requires items != [] && forall i :: 0 <= i < |items| ==> items[i].price == 0
    ensures Guard(OrderBody(items, CheckoutModal.Fields(form), TotalPrice(items))) == Some((400, InvalidTotalMessage))
  {
    CheckoutModal.ValidFormFields(form);
    FreeTotal(items);
  }

  lemma {:induction false} FreeTotal(items: seq<CartItem>)
    requires forall i :: 0 <= i < |items| ==> items[i].price == 0
    ensures TotalPrice(items) == 0
  {
    if items != [] {
      FreeTotal(items[..|items| - 1]);
    }
  }

  // ---------------------------------------------------------------------
  // Whole checkouts

  /** Contact details that survive `trim()`: what the modal's first three checks ask for. */
  predicate Filled(customer: CustomerFields)
  {
    Trim(customer.fullName) != "" && Trim(customer.address) != "" && Trim(customer.contactNumber) != ""
  }

  /** A hydrated provider holding one product at price 10.00 (1000 cents), quantity 2. */
  method SampleCart() returns (cart: CartProvider)
    ensures fresh(cart) && cart.isHydrated && cart.Mirrored()
    ensures cart.state == CartState([CartItem("1", "Gizmo", 1000, "g.png", 2)], None)
    ensures TotalPrice(cart.state.items) == 2000
  {
    cart := new CartProvider(map[]);
    cart.Hydrate(None);
    cart.Dispatch(AddItem(Product(Some("1"), Some("Gizmo"), Some(1000), Some("g.png"))));
    cart.Dispatch(IncreaseQuantity("1"));
    TotalsOfOne(cart.state.items[0]);
  }

  /** A mounted, open modal over `cart`, with the customer's details typed in and the given payment choice. */
  method FilledModal(cart: CartProvider, customer: CustomerFields, paymentMethod: CheckoutModal.PaymentMethod,
                     cardType: CheckoutModal.CardType)
    returns (modal: CheckoutModal.CheckoutModal)
    requires cart.Mirrored() && Filled(customer)
    ensures fresh(modal) && modal.Valid() && modal.cart == cart && modal.isOpen
    ensures !modal.isProcessing && modal.error == None && modal.pending == CheckoutModal.Idle
    ensures modal.form == CheckoutModal.FormData(customer.fullName, customer.address, customer.contactNumber,
                                                 paymentMethod, Some(cardType))
    ensures CheckoutModal.Fields(modal.form) == customer
    ensures CheckoutModal.FormError(modal.form) == None
  {
    modal := new CheckoutModal.CheckoutModal(cart, true);
    modal.Edit(CheckoutModal.EditFullName(customer.fullName));
    modal.Edit(CheckoutModal.EditAddress(customer.address));
    modal.Edit(CheckoutModal.EditContactNumber(customer.contactNumber));
    modal.Edit(CheckoutModal.EditPaymentMethod(paymentMethod));
    modal.Edit(CheckoutModal.EditCardType(cardType));
    assert modal.form == CheckoutModal.FormData(customer.fullName, customer.address, customer.contactNumber,
                                                paymentMethod, Some(cardType));
  }

  /**
   * Cash on delivery for 2 × 10.00 by any customer whose details pass the form: the cash route is sent a total of 20.00,
   * confirms with a "CASH-" id, and the cart ends empty with the cleared message.
   */
  method CashCheckout(customer: CustomerFields, now: nat, suffix: string)
    returns (sent: CheckoutBody, reply: Reply<CashConfirmation>, after: CartState)
    requires Filled(customer)
    ensures sent.totalAmount == Some(2000)
    ensures reply.Accepted? && StartsWith(reply.body.orderId, "CASH-") && reply.body.order.totalAmount == 2000
    ensures after == CartState([], Some(ClearedMessage))
  {
    var cart := SampleCart();
    var modal := FilledModal(cart, customer, CheckoutModal.Cash, CheckoutModal.Visa);
    var request := modal.Submit();
    sent := request.value.body;
    reply := CashPost(Some(sent), now, suffix);
    modal.CashReply(Ok(reply.body));
    after := cart.state;
  }

  /**
   * PayPal for the same cart: the cart is cleared only when the order was
   * created and the user confirmed; otherwise it is left as it was, and any
   * failure shows exactly "PayPal payment failed".
   */
  method PayPalCheckout(customer: CustomerFields, reply: Fetched<PayPalCreated>, confirmed: bool)
    returns (before: CartState, after: CartState, error: Option<string>)
    requires Filled(customer)
    ensures reply.Ok? && confirmed ==> after == CartState([], Some(ClearedMessage))
    ensures !(reply.Ok? && confirmed) ==> after == before && before.items != []
    ensures !reply.Ok? ==> error == Some(CheckoutModal.PayPalFailedMessage)
    ensures reply.Ok? ==> error == None
  {
    var cart := SampleCart();
    before := cart.state;
    var modal := FilledModal(cart, customer, CheckoutModal.Card, CheckoutModal.PayPal);
    assert CheckoutModal.RouteOf(modal.form) == CheckoutModal.PayWithPayPal;
    var request := modal.Submit();
    assert modal.pending == CheckoutModal.AwaitingPayPal && cart.state == before;
    modal.PayPalReply(reply, confirmed);
    after := cart.state;
    error := modal.error;
  }

  /** The modal's reaction to the widget's callbacks: `onSuccess` and `onError`. */
  method Deliver(modal: CheckoutModal.CheckoutModal, effects: seq<StripeCardForm.CardEffect>)
    requires modal.Valid() && |effects| <= 1
    modifies modal`isOpen, modal`error, modal.cart
    ensures modal.Valid()
    ensures effects != [] && effects[0].OnSuccess? ==> modal.cart.state == Reduce(old(modal.cart.state), ClearCart)
    ensures !(effects != [] && effects[0].OnSuccess?) ==> modal.cart.state == old(modal.cart.state)
    ensures modal.error == if effects != [] && effects[0].OnError? then Some(effects[0].message) else old(modal.error)
  {
    if effects != [] {
      match effects[0] {
        case OnSuccess(id) => modal.StripeSucceeded(id);
        case OnError(message) => modal.StripeFailed(message);
        case PostIntent(_) =>
        case ConfirmCardPayment(_, _) =>
      }
    }
  }

  /**
   * The card widget mounted with Stripe loaded and the card field filled in:
   * it posts its props to the Stripe route, and once given a client secret it
   * reports the confirmation's callbacks.
   */
  method CardWidget(total: int, customer: CustomerFields, items: seq<CartItem>, clientSecret: string,
                    outcome: StripeCardForm.ConfirmOutcome)
    returns (posted: CheckoutBody, effects: seq<StripeCardForm.CardEffect>)
    ensures posted == OrderBody(items, customer, total)
    ensures effects == StripeCardForm.ConfirmCallbacks(outcome)
  {
    var widget := new StripeCardForm.CheckoutForm(total, customer, items);
    var sent := widget.Submit(true, true, true);
    posted := sent[0].body;
    var _ := widget.IntentReply(Ok(clientSecret));
    effects := widget.ConfirmReply(outcome);
  }

  /**
   * A Visa payment for the same cart through the card widget: the modal sends
   * nothing itself, the widget posts the cart's total, and the cart is cleared
   * exactly when the intent settles as "succeeded"; a decline shows the
   * processor's message in the modal and leaves the cart as it was.
   */
  method CardCheckout(customer: CustomerFields, clientSecret: string, outcome: StripeCardForm.ConfirmOutcome)
    returns (modalRequest: Option<CheckoutModal.OrderRequest>, posted: CheckoutBody, before: CartState, after: CartState,
             error: Option<string>)
    requires Filled(customer)
    ensures modalRequest == None
    ensures posted.totalAmount == Some(2000)
    ensures outcome.Settled? && outcome.status == "succeeded" ==> after == CartState([], Some(ClearedMessage))
    ensures !(outcome.Settled? && outcome.status == "succeeded") ==> after == before && before.items != []
    ensures outcome.Declined? ==> error == Some(StripeCardForm.DeclineText(outcome.message))
    ensures outcome.Settled? ==> error == None
  {
    var cart := SampleCart();
    before := cart.state;
    var modal := FilledModal(cart, customer, CheckoutModal.Card, CheckoutModal.Visa);
    modalRequest := modal.Submit();
    var effects;
    posted, effects := CardWidget(modal.Total(), CheckoutModal.Fields(modal.form), cart.state.items, clientSecret, outcome);
    StripeCardForm.SuccessOnlyWhenSucceeded(outcome, if outcome.Settled? then outcome.id else "");
    Deliver(modal, effects);
    after := cart.state;
    error := modal.error;
  }
}
