/**
 * `POST` of app/api/checkout/paypal/route.ts: the shared guard chain, the
 * configuration check, then two calls to PayPal (an OAuth token, then an
 * order) and the reply built from the created order. What PayPal answers is
 * an input; every failure after the guard collapses into one 500.
 */
module PayPalRoute {
  import opened Wrappers
  import opened Js
  import opened CartReducer
  import opened CheckoutRequest
  import opened Text

  const ConfigMissingMessage := "PayPal configuration missing"
  const PayPalFailedMessage := "Failed to create PayPal order"
  const LiveBase := "https://api-m.paypal.com"
  const SandboxBase := "https://api-m.sandbox.paypal.com"

  /** The environment the route reads: PAYPAL_CLIENT_ID, PAYPAL_CLIENT_SECRET, NODE_ENV and NEXT_PUBLIC_BASE_URL. */
  datatype PayPalEnv = PayPalEnv(clientId: Option<string>, clientSecret: Option<string>, production: bool, publicBaseUrl: Option<string>)

  /** A USD amount in cents; `toFixed(2)` renders it with two decimals. */
  datatype Money = Money(currencyCode: string, cents: int)

  datatype PayPalItem = PayPalItem(name: string, unitAmount: Money, quantity: string, category: string)

  datatype PurchaseUnit = PurchaseUnit(
    amount: Money,
    itemTotal: Money,
    items: seq<PayPalItem>,
    shippingName: string,
    shippingAddress: string,
    countryCode: string)

  datatype OrderRequest = OrderRequest(
    intent: string,
    purchaseUnits: seq<PurchaseUnit>,
    brandName: string,
    landingPage: string,
    userAction: string,
    returnUrl: string,
    cancelUrl: string)

  /** The outbound calls: the token exchange (with the `id:secret` pair before base64) and the order creation. */
  datatype PayPalCall = TokenRequest(url: string, credentials: string) | OrderCreate(url: string, order: OrderRequest)

  datatype Link = Link(rel: string, href: string)

  /** A created PayPal order: its id and its HATEOAS links. */
  datatype PayPalOrder = PayPalOrder(id: string, links: seq<Link>)

  /** The JSON of a successful reply: `{ orderId, approvalUrl }`; `approvalUrl` is dropped when undefined. */
  datatype PayPalCreated = PayPalCreated(orderId: string, approvalUrl: Option<string>)

  function BaseUrl(env: PayPalEnv): string
  {
    if env.production then LiveBase else SandboxBase
  }

  /** A template literal renders a missing value as "undefined". */
  function Interpolate(v: Option<string>): string
  {
    v.GetOr("undefined")
  }

  /** `items.map(...)`: one PayPal item per cart item, in order. */
  function PayPalItems(items: seq<CartItem>): (r: seq<PayPalItem>)
    ensures |r| == |items|
    ensures forall i :: 0 <= i < |items| ==>
      r[i] == PayPalItem(items[i].name, Money("USD", items[i].price), IntToDecimal(items[i].quantity), "PHYSICAL_GOODS")
  {
    if items == [] then []
    else [PayPalItem(items[0].name, Money("USD", items[0].price), IntToDecimal(items[0].quantity), "PHYSICAL_GOODS")]
         + PayPalItems(items[1..])
  }

  /** `orderData`: one purchase unit carrying the submitted total (twice) and the mapped items. */
  function BuildOrder(body: CheckoutBody, env: PayPalEnv): (o: OrderRequest)
    requires Admissible(body)
    ensures o.intent == "CAPTURE" && |o.purchaseUnits| == 1
    ensures o.purchaseUnits[0].amount == Money("USD", body.totalAmount.value)
    ensures o.purchaseUnits[0].itemTotal == o.purchaseUnits[0].amount
    ensures |o.purchaseUnits[0].items| == |body.items.value|
    ensures o.purchaseUnits[0].items == PayPalItems(body.items.value)
  {
    var total := Money("USD", body.totalAmount.value);
    OrderRequest(
      "CAPTURE",
      [PurchaseUnit(total, total, PayPalItems(body.items.value), FullName(body), Address(body), "US")],
      "GizmoTech",
      "NO_PREFERENCE",
      "PAY_NOW",
      Interpolate(env.publicBaseUrl) + "/checkout/success",
      Interpolate(env.publicBaseUrl) + "/cart")
  }

  /** The position of the first link whose `rel` is "approve", or the number of links when there is none. */
  function FirstApprove(links: seq<Link>): (k: nat)
    ensures k <= |links|
    ensures forall i :: 0 <= i < k ==> links[i].rel != "approve"
    ensures k < |links| ==> links[k].rel == "approve"
  {
    if links == [] || links[0].rel == "approve" then 0 else 1 + FirstApprove(links[1..])
  }

  /** `order.links.find(link => link.rel === 'approve')?.href`. */
  function ApprovalUrl(links: seq<Link>): (r: Option<string>)
    ensures r.None? <==> forall i :: 0 <= i < |links| ==> links[i].rel != "approve"
    ensures r.Some? ==> exists k :: (0 <= k < |links| && links[k].rel == "approve" && links[k].href == r.value
      && forall i :: 0 <= i < k ==> links[i].rel != "approve")
  {
    var k := FirstApprove(links);
    if k < |links| then Some(links[k].href) else None
  }

  /**
   * The route. `token` is the access token when the token exchange answers OK
   * (None when it fails or throws); `created` is the created order when the
   * order call answers OK (None when it fails or throws).
   */
  function PayPalPost(request: Option<CheckoutBody>, env: PayPalEnv, token: Option<string>, created: Option<PayPalOrder>)
    : (r: Exchange<PayPalCall, PayPalCreated>)
    ensures r.reply.Accepted? <==>
      request.Some? && Admissible(request.value) && Present(env.clientId) && Present(env.clientSecret)
      && token.Some? && created.Some?
    ensures r.reply.Refused? ==> r.reply.status in {400, 500}
  {
    match request
    case None => Exchange([], Refused(500, PayPalFailedMessage))
    case Some(body) =>
      match Guard(body)
      case Some(refusal) => Exchange([], Refused(refusal.0, refusal.1))
      case None =>
        if !Present(env.clientId) || !Present(env.clientSecret) then Exchange([], Refused(500, ConfigMissingMessage))
        else
          var tokenCall := TokenRequest(BaseUrl(env) + "/v1/oauth2/token", env.clientId.value + ":" + env.clientSecret.value);
          if token.None? then Exchange([tokenCall], Refused(500, PayPalFailedMessage))
          else
            var orderCall := OrderCreate(BaseUrl(env) + "/v2/checkout/orders", BuildOrder(body, env));
            match created
            case None => Exchange([tokenCall, orderCall], Refused(500, PayPalFailedMessage))
            case Some(order) =>
              Exchange([tokenCall, orderCall], Accepted(200, PayPalCreated(order.id, ApprovalUrl(order.links))))
  }

  // ---------------------------------------------------------------------

  /** A refused body, or missing credentials, is answered before any call to PayPal. */
  lemma NoCallBeforeChecks(request: Option<CheckoutBody>, env: PayPalEnv, token: Option<string>, created: Option<PayPalOrder>)
    requires request.Some? && Admissible(request.value)
    requires !Present(env.clientId) || !Present(env.clientSecret)
    ensures PayPalPost(request, env, token, created) == Exchange([], Refused(500, ConfigMissingMessage))
  {
  }

  /** A token failure, an order failure or an unreadable request all give the same 500. */
  lemma FailuresCollapse(request: Option<CheckoutBody>, env: PayPalEnv, token: Option<string>, created: Option<PayPalOrder>)
    requires request.None? || (Admissible(request.value) && Present(env.clientId) && Present(env.clientSecret))
    requires request.None? || token.None? || created.None?
    ensures PayPalPost(request, env, token, created).reply == Refused(500, PayPalFailedMessage)
  {
  }

  /**
   * On success the reply carries PayPal's order id and the first approve link,
   * and the order sent to PayPal states the submitted total as both amount and
   * item total, with one entry per cart item in order.
   */
  lemma Created(body: CheckoutBody, env: PayPalEnv, token: string, order: PayPalOrder)
    requires Admissible(body) && Present(env.clientId) && Present(env.clientSecret)
    ensures var r := PayPalPost(Some(body), env, Some(token), Some(order));
      && r.reply == Accepted(200, PayPalCreated(order.id, ApprovalUrl(order.links)))
      && |r.calls| == 2 && r.calls[0].TokenRequest? && r.calls[1].OrderCreate?
      && var unit := r.calls[1].order.purchaseUnits[0];
         && unit.amount.cents == body.totalAmount.value
         && unit.itemTotal.cents == body.totalAmount.value
         && |unit.items| == |body.items.value|
         && forall i :: 0 <= i < |body.items.value| ==>
              unit.items[i].name == body.items.value[i].name
              && unit.items[i].unitAmount.cents == body.items.value[i].price
              && unit.items[i].quantity == IntToDecimal(body.items.value[i].quantity)
              && unit.items[i].category == "PHYSICAL_GOODS"
  {
  }

  /** The stringified quantity reads back as the cart quantity (quantities are never negative in a well-formed cart). */
  lemma QuantityRoundTrip(item: CartItem)
    requires item.quantity >= 0
    ensures var s := PayPalItems([item])[0].quantity; IsDigits(s) && DecimalValue(s) == item.quantity
  {
    DecimalRoundTrip(item.quantity);
  }

  /** The total PayPal receives is the submitted one, not a sum recomputed from the items: a body whose total disagrees with its items is passed through. */
  lemma TotalNotRecomputed(env: PayPalEnv)
    ensures var body := CheckoutBody(Some([CartItem("1", "Gizmo", 1000, "g.png", 2)]),
                                     Some(CustomerInfo(Some("Ada"), Some("1 Main St"), None)), Some(1));
      BuildOrder(body, env).purchaseUnits[0].amount.cents == 1
  {
  }
}
