/**
 * `POST` of app/api/checkout/stripe/route.ts: the shared guard chain, the
 * `lineItems` mapping, and one PaymentIntent creation whose outcome is an
 * input. Amounts are already cents, so `Math.round(x * 100)` is the identity.
 */
module StripeRoute {
  import opened Wrappers
  import opened Js
  import opened CartReducer
  import opened CheckoutRequest

  const IntentFailedMessage := "Failed to create payment intent"

  /** `lineItems[i]`: `price_data` (currency, product name and image, unit amount) and the quantity. */
  datatype LineItem = LineItem(currency: string, name: string, images: seq<string>, unitAmount: int, quantity: int)

  /** The PaymentIntent metadata; `items` is the cart serialised with `JSON.stringify`. */
  datatype IntentMetadata = IntentMetadata(customerName: string, customerAddress: string, customerPhone: string, items: seq<CartItem>)

  /** The parameters of `stripe.paymentIntents.create`. */
  datatype IntentParams = IntentParams(
    amount: int,
    currency: string,
    metadata: IntentMetadata,
    paymentMethodTypes: seq<string>,
    captureMethod: string)

  /** What Stripe returns for a created PaymentIntent. */
  datatype PaymentIntent = PaymentIntent(id: string, clientSecret: string)

  /** The JSON of a successful reply. */
  datatype IntentCreated = IntentCreated(clientSecret: string, paymentIntentId: string)

  /** `items.map(...)`: one line item per cart item, in order. */
  function LineItems(items: seq<CartItem>): (r: seq<LineItem>)
    ensures |r| == |items|
    ensures forall i :: 0 <= i < |items| ==>
      r[i] == LineItem("usd", items[i].name, [items[i].imageUrl], items[i].price, items[i].quantity)
  {
    if items == [] then []
    else [LineItem("usd", items[0].name, [items[0].imageUrl], items[0].price, items[0].quantity)] + LineItems(items[1..])
  }

  /** `customerInfo.contactNumber || ''`. */
  function Phone(contactNumber: Option<string>): (p: string)
    ensures p == contactNumber.GetOr("")
  {
    if Present(contactNumber) then contactNumber.value else ""
  }

  /** The PaymentIntent parameters: the submitted total in cents and the customer's name, address and phone. */
  function IntentFor(body: CheckoutBody): (p: IntentParams)
    requires Admissible(body)
    ensures p.amount == body.totalAmount.value && p.amount > 0 && p.currency == "usd"
    ensures p.metadata.customerName == body.customerInfo.value.fullName.value
    ensures p.metadata.customerAddress == body.customerInfo.value.address.value
    ensures p.metadata.customerPhone == body.customerInfo.value.contactNumber.GetOr("")
    ensures p.metadata.items == body.items.value
  {
    IntentParams(
      body.totalAmount.value,
      "usd",
      IntentMetadata(FullName(body), Address(body), Phone(body.customerInfo.value.contactNumber), body.items.value),
      ["card"],
      "automatic")
  }

  /**
   * The route. `created` is the PaymentIntent Stripe returns, or `None` when the
   * SDK call throws. The line items are computed and then dropped: nothing
   * in the outbound call carries them.
   */
  function StripePost(request: Option<CheckoutBody>, created: Option<PaymentIntent>): (r: Exchange<IntentParams, IntentCreated>)
    ensures r.reply.Accepted? <==> request.Some? && Admissible(request.value) && created.Some?
    ensures r.reply.Accepted? ==>
      r.reply == Accepted(200, IntentCreated(created.value.clientSecret, created.value.id))
    ensures |r.calls| <= 1
    ensures r.calls != [] <==> request.Some? && Admissible(request.value)
  {
    match request
    case None => Exchange([], Refused(500, IntentFailedMessage))
    case Some(body) =>
      match Guard(body)
      case Some(refusal) => Exchange([], Refused(refusal.0, refusal.1))
      case None =>
        var lineItems := LineItems(body.items.value);
        var params := IntentFor(body);
        match created
        case None => Exchange([params], Refused(500, IntentFailedMessage))
        case Some(intent) => Exchange([params], Accepted(200, IntentCreated(intent.clientSecret, intent.id)))
  }

  /** A failed PaymentIntent creation, or an unreadable request, is one 500 with a fixed message. */
  lemma IntentFailure(request: Option<CheckoutBody>)
    requires request.None? || Admissible(request.value)
    ensures StripePost(request, None).reply == Refused(500, IntentFailedMessage)
  {
  }

  /**
   * The intent Stripe is asked for depends on the cart only through the
   * serialised metadata: two carts with the same total and customer yield the
   * same amount, whatever their line items.
   */
  lemma AmountIgnoresItems(body: CheckoutBody, items: seq<CartItem>)
    requires Admissible(body) && items != []
    ensures var other := body.(items := Some(items));
      && Admissible(other)
      && IntentFor(other).amount == IntentFor(body).amount
      && IntentFor(other).(metadata := IntentFor(body).metadata) == IntentFor(body)
  {
  }
}
