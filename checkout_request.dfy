/**
 * What the three checkout routes (app/api/checkout/{cash,paypal,stripe}/route.ts)
 * have in common: the decoded request body, the reply shape, and the guard
 * chain each `POST` runs before doing anything else. The three files carry the
 * same three checks, in the same order, with the same messages; the model
 * defines that chain once and each route calls it.
 */
module CheckoutRequest {
  import opened Wrappers
  import opened Js
  import opened CartReducer

  /** `customerInfo` as sent by the checkout modal; each field may be missing at run time. */
  datatype CustomerInfo = CustomerInfo(fullName: Option<string>, address: Option<string>, contactNumber: Option<string>)

  /**
   * The destructured `{ items, customerInfo, totalAmount }`. `items` is `None`
   * when it is missing or not an array; `totalAmount` is in cents.
   */
  datatype CheckoutBody = CheckoutBody(items: Option<seq<CartItem>>, customerInfo: Option<CustomerInfo>, totalAmount: Option<int>)

  /**
   * A route's reply: `NextResponse.json(body)` with the given status, or an
   * error reply whose JSON is `{ error: text }` (checkout routes) or
   * `{ message: text }` (product routes).
   */
  datatype Reply<B> = Accepted(status: int, body: B) | Refused(status: int, text: string)

  /** A route's outbound calls, in the order it makes them, and its reply. */
  datatype Exchange<C, B> = Exchange(calls: seq<C>, reply: Reply<B>)

  /** The three text fields the checkout form collects, as the client holds them. */
  datatype CustomerFields = CustomerFields(fullName: string, address: string, contactNumber: string)

  /** The body the client posts: the cart's items, the three form fields and the client-computed total. */
  function OrderBody(items: seq<CartItem>, customer: CustomerFields, totalAmount: int): (b: CheckoutBody)
    ensures Admissible(b) <==> items != [] && customer.fullName != "" && customer.address != "" && totalAmount > 0
  {
    CheckoutBody(Some(items), Some(CustomerInfo(Some(customer.fullName), Some(customer.address), Some(customer.contactNumber))), Some(totalAmount))
  }

  const NoItemsMessage := "No items in cart"
  const CustomerRequiredMessage := "Customer information is required"
  const InvalidTotalMessage := "Invalid total amount"

  /** `!items || !Array.isArray(items) || items.length === 0`. */
  predicate ItemsMissing(body: CheckoutBody)
  {
    body.items.None? || |body.items.value| == 0
  }

  /** `!customerInfo || !customerInfo.fullName || !customerInfo.address`; `contactNumber` plays no part. */
  predicate CustomerMissing(body: CheckoutBody)
  {
    body.customerInfo.None? || !Present(body.customerInfo.value.fullName) || !Present(body.customerInfo.value.address)
  }

  /** `!totalAmount || totalAmount <= 0`: missing, zero or negative. */
  predicate TotalInvalid(body: CheckoutBody)
  {
    body.totalAmount.None? || body.totalAmount.value <= 0
  }

  /** A body every route accepts, stated field by field. */
  predicate Admissible(body: CheckoutBody)
  {
    && body.items.Some? && body.items.value != []
    && body.customerInfo.Some?
    && body.customerInfo.value.fullName.Some? && body.customerInfo.value.fullName.value != ""
    && body.customerInfo.value.address.Some? && body.customerInfo.value.address.value != ""
    && body.totalAmount.Some? && body.totalAmount.value > 0
  }

  /** The shared guard chain: the first failing check's 400 reply, or nothing when the body passes. */
  function Guard(body: CheckoutBody): (r: Option<(int, string)>)
    ensures r.None? <==> Admissible(body)
    ensures r.Some? ==> r.value.0 == 400
  {
    if ItemsMissing(body) then Some((400, NoItemsMessage))
    else if CustomerMissing(body) then Some((400, CustomerRequiredMessage))
    else if TotalInvalid(body) then Some((400, InvalidTotalMessage))
    else None
  }

  /** The customer name of an admissible body. */
  function FullName(body: CheckoutBody): string
    requires Admissible(body)
  {
    body.customerInfo.value.fullName.value
  }

  function Address(body: CheckoutBody): string
    requires Admissible(body)
  {
    body.customerInfo.value.address.value
  }

  /** The items check runs first: a missing, non-array or empty `items` wins over every other fault. */
  lemma ItemsCheckedFirst(body: CheckoutBody)
    requires body.items.None? || body.items.value == []
    ensures Guard(body) == Some((400, NoItemsMessage))
  {
  }

  /** With items present, a missing customer or a falsy name or address gives the customer message, whatever the total. */
  lemma CustomerCheckedSecond(body: CheckoutBody)
    requires body.items.Some? && body.items.value != []
    requires body.customerInfo.None? || !Present(body.customerInfo.value.fullName) || !Present(body.customerInfo.value.address)
    ensures Guard(body) == Some((400, CustomerRequiredMessage))
  {
  }

  /** Only after items and customer pass does a missing, zero or negative total give its message. */
  lemma TotalCheckedLast(body: CheckoutBody)
    requires body.items.Some? && body.items.value != []
    requires body.customerInfo.Some? && Present(body.customerInfo.value.fullName) && Present(body.customerInfo.value.address)
    requires body.totalAmount.None? || body.totalAmount.value <= 0
    ensures Guard(body) == Some((400, InvalidTotalMessage))
  {
  }

  /** `contactNumber` is not required: the guard's verdict does not depend on it. */
  lemma ContactNumberNotRequired(body: CheckoutBody, phone: Option<string>)
    requires body.customerInfo.Some?
    ensures Guard(body.(customerInfo := Some(body.customerInfo.value.(contactNumber := phone)))) == Guard(body)
  {
  }
}
