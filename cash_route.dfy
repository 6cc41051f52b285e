/**
 * `POST` of app/api/checkout/cash/route.ts: the shared guard chain, then a
 * confirmed cash-on-delivery order built from the request. The clock reading
 * and the random suffix of the order id are inputs.
 */
module CashRoute {
  import opened Wrappers
  import opened CartReducer
  import opened CheckoutRequest
  import opened Text

  const CashFailedMessage := "Failed to process cash order"
  const ConfirmedMessage := "Order confirmed successfully"

  datatype CashOrder = CashOrder(
    orderId: string,
    customerInfo: CustomerInfo,
    items: seq<CartItem>,
    totalAmount: int,
    paymentMethod: string,
    status: string)

  /** The JSON of a successful reply: `{ orderId, message, order }`. */
  datatype CashConfirmation = CashConfirmation(orderId: string, message: string, order: CashOrder)

  /**
   * `CASH-${Date.now()}-${suffix}`: the millisecond clock in decimal, then the
   * upper-cased base-36 fragment of `Math.random()`, which holds no '-'.
   */
  function CashOrderId(now: nat, suffix: string): (id: string)
    ensures StartsWith(id, "CASH-")
  {
    "CASH-" + NatToDecimal(now) + "-" + suffix
  }

  /**
   * The route. `request` is `None` when `request.json()` throws (or the body
   * cannot be destructured), which the `catch` turns into a 500.
   */
  function CashPost(request: Option<CheckoutBody>, now: nat, suffix: string): (r: Reply<CashConfirmation>)
    ensures request.None? ==> r == Refused(500, CashFailedMessage)
    ensures request.Some? && Guard(request.value).Some? ==>
      r == Refused(Guard(request.value).value.0, Guard(request.value).value.1)
    ensures r.Accepted? <==> request.Some? && Admissible(request.value)
    ensures r.Accepted? ==>
      && r.status == 200
      && r.body.orderId == r.body.order.orderId
      && StartsWith(r.body.orderId, "CASH-")
      && r.body.order.items == request.value.items.value
      && r.body.order.customerInfo == request.value.customerInfo.value
      && r.body.order.totalAmount == request.value.totalAmount.value
      && r.body.order.paymentMethod == "cash"
      && r.body.order.status == "confirmed"
  {
    match request
    case None => Refused(500, CashFailedMessage)
    case Some(body) =>
      match Guard(body)
      case Some(refusal) => Refused(refusal.0, refusal.1)
      case None =>
        var order := CashOrder(CashOrderId(now, suffix), body.customerInfo.value, body.items.value,
                               body.totalAmount.value, "cash", "confirmed");
        Accepted(200, CashConfirmation(order.orderId, ConfirmedMessage, order))
  }

  lemma NatToDecimalHasNoDash(n: nat)
    ensures '-' !in NatToDecimal(n)
  {
  }

  /**
   * Order ids from different clock readings, or different random suffixes,
   * never coincide: the id determines both.
   */
  lemma CashOrderIdInjective(now1: nat, suffix1: string, now2: nat, suffix2: string)
    requires CashOrderId(now1, suffix1) == CashOrderId(now2, suffix2)
    ensures now1 == now2 && suffix1 == suffix2
  {
    var a, c := NatToDecimal(now1), NatToDecimal(now2);
    var x, y := CashOrderId(now1, suffix1), CashOrderId(now2, suffix2);
    assert x[5..] == a + "-" + suffix1;
    assert y[5..] == c + "-" + suffix2;
    NatToDecimalHasNoDash(now1);
    NatToDecimalHasNoDash(now2);
    SplitAtSeparator(a, suffix1, c, suffix2, '-');
    NatToDecimalInjective(now1, now2);
  }
}
