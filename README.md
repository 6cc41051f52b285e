# GizmoTech storefront: cart and checkout, modelled in Dafny

This project models the cart and checkout of the GizmoTech storefront, a
Next.js shop. It covers:

- the cart reducer, and the `CartProvider` that hydrates it from
  `localStorage` and saves it back;
- the cart page and the nav badge built on the cart's totals;
- the checkout modal, with its validation chain and its three payment paths;
- the embedded Stripe card form;
- the three checkout API routes: cash on delivery, PayPal and Stripe;
- the admin product-creation route;
- the admin middleware.

Modelling conventions:

- Money is held in integer cents throughout. The source's `toFixed(2)` and
  `Math.round(x * 100)` are then the identity.
- A string field that may be missing is an `Option<string>`. Its JavaScript
  truthiness is `Js.Present` (present and non-empty).
- The body of the product route is a small `JsValue`, because that route
  tests `typeof`.
- The network, Stripe and PayPal, `confirm()`, `JSON.parse`, the clock and
  `Math.random` are never called. Their outcomes are parameters.
- Each API route is a pure function. It returns the outbound calls it makes,
  in order, together with its reply. This makes "nothing is called before the
  checks pass" a statement about the result.
- Components whose state React updates in place are classes with that state
  as fields:
  - `CartContext.CartProvider` holds the state, the hydration flag and the
    storage map.
  - `CheckoutModal.CheckoutModal` holds the form, `isProcessing`, `error` and
    `isOpen`.
  - `StripeCardForm.CheckoutForm` holds `isProcessing` and `cardError`.
- Async handlers are split at each `await` into one method per resumption.
  An explicit `pending`/`phase` field records which answer is awaited, and the
  classes' `Valid()` invariant ties `isProcessing` to it.
- The module `CheckoutFlow` puts the pieces together. It proves that the three
  routes agree on what they refuse. It also states whole checkouts as scenario
  methods (provider, modal, card widget and route), from a hydrated cart to the
  cleared cart, and proves what each one ends with.

## Model

| member | source | states |
|---|---|---|
| CartReducer.Reduce | app/cart/CartContext.tsx:32-84 | the reducer, one arm per action; only ADD_ITEM and CLEAR_CART leave a message, ADD_ITEM keeps the old items as a prefix and adds at most one entry, and no action other than ADD_ITEM and LOAD_CART grows the cart |
| CartReducer.AddIncomplete | app/cart/CartContext.tsx:37-42 | ADD_ITEM with a missing id, name, imageUrl or undefined price keeps the items and sets the fixed "incomplete" message |
| CartReducer.AddZeroPrice | app/cart/CartContext.tsx:39 | the price test is `=== undefined`, so a product priced 0 is appended at quantity 1 |
| CartReducer.AddExisting | app/cart/CartContext.tsx:44-48 | adding an id already in the cart leaves the items identical and only sets "… is already in your cart." |
| CartReducer.AddNew | app/cart/CartContext.tsx:49-52 | adding a new id appends exactly one entry at quantity 1 after the old items, sets "… added to cart!", and keeps ids unique |
| CartReducer.AddTwice | app/cart/CartContext.tsx:37-53 | adding the same product twice leaves exactly one entry for it; the second add changes only the message |
| CartReducer.Remove | app/cart/CartContext.tsx:54-58 | REMOVE_ITEM keeps exactly the entries with another id (a no-op for an absent id) and drops the message |
| CartReducer.AdjustPointwise | app/cart/CartContext.tsx:61-63 | `map` changes the entries with the given id by delta, and leaves every other entry as it was, position by position |
| CartReducer.Increase | app/cart/CartContext.tsx:59-65 | INCREASE_QUANTITY adds one to the matching entries only, keeping length and order, and drops the message |
| CartReducer.Decrease | app/cart/CartContext.tsx:66-74 | after DECREASE_QUANTITY every remaining entry has a positive quantity; untargeted entries stay exactly when positive |
| CartReducer.DecreaseFromOne | app/cart/CartContext.tsx:66-74 | in a cart with unique ids, decreasing an entry at quantity 1 removes every entry with that id |
| CartReducer.Replacements | app/cart/CartContext.tsx:34-80 | LOAD_CART installs the given items, CLEAR_MESSAGE drops only the message, CLEAR_CART empties the cart with "Cart cleared successfully!" |
| CartReducer.MessageAfter | app/cart/CartContext.tsx:32-84 | only ADD_ITEM and CLEAR_CART can leave a message behind |
| CartReducer.ReducePreservesUniqueIds | app/cart/CartContext.tsx:32-84 | every action except LOAD_CART keeps the cart's ids unique |
| CartReducer.ReducePreservesWellFormed | app/cart/CartContext.tsx:32-84 | every action except LOAD_CART keeps ids unique and quantities at least 1 |
| CartReducer.LoadCartUnchecked | app/cart/CartContext.tsx:34-36 | LOAD_CART validates nothing: it can install duplicate ids and a zero quantity |
| CartReducer.FilterMembers | app/cart/CartContext.tsx:56 | `filter` keeps exactly the entries that pass (membership; order is stated by FilterAppend and FilterKeepsAll) |
| CartReducer.FilterAppend | app/cart/CartContext.tsx:56 | `filter` of a concatenation is the filter of the first part followed by the filter of the second, so kept entries stay in their order |
| CartReducer.FilterKeepsAll | app/cart/CartContext.tsx:72 | a filter every entry passes returns the list unchanged, order included |
| CartReducer.FilterDropsOne | app/cart/CartContext.tsx:54-74 | a filter that keeps everything around one rejected entry returns exactly the entries before and after it |
| CartTotals.TotalItems | app/cart/page.tsx:9 | the unit count, the left fold of `reduce` adding each quantity from 0 (definition; its laws are the rows below) |
| CartTotals.TotalPrice | app/cart/page.tsx:10 | the price total in cents, the left fold of `reduce` adding price × quantity from 0 (definition; its laws are the rows below) |
| CartTotals.TotalsAppend | app/cart/page.tsx:9-10 | both totals (unit count, price) of a concatenation are the sums of the parts |
| CartTotals.TotalsOfOne | app/cart/page.tsx:9-10 | one line totals its quantity and its price × quantity |
| CartTotals.TotalsEmpty | app/cart/page.tsx:9-10 | both totals of an empty cart are 0 |
| CartTotals.TotalItemsBound | app/cart/page.tsx:9 | with every quantity at least 1, the unit count is at least the number of lines, and is 0 exactly for an empty cart |
| CartTotals.TotalPriceNonNegative | app/cart/page.tsx:10 | non-negative prices and positive quantities give a non-negative price total |
| CartTotals.LineStep | app/cart/page.tsx:91 | one unit more or fewer moves a line's subtotal by one unit price |
| CartTotals.ReplaceLine | app/cart/page.tsx:9-10 | replacing one line changes both totals by the difference of the two lines |
| CartTotals.ShiftLine | app/cart/page.tsx:9-10 | one unit more or fewer on a line moves the unit count by one and the price total by one unit price |
| CartTotals.DropLine | app/cart/page.tsx:9-10 | dropping a line takes away its units and its subtotal |
| CartTotals.LowerLine | app/cart/CartContext.tsx:66-74 | one unit fewer on a line, dropping it when it reaches 0, takes away one unit and one unit price |
| CartTotals.InStockAround | app/cart/CartContext.tsx:66-74 | in a well-formed cart the stock filter keeps every line before and after line k |
| CartTotals.FilterAround | app/cart/CartContext.tsx:66-74 | filtering around one line whose neighbours all pass keeps the neighbours and keeps the line exactly when it is in stock |
| CartTotals.AddNewTotals | app/cart/CartContext.tsx:49-52 | adding a new product adds one unit and its price to the totals |
| CartTotals.IncreaseTotals | app/cart/CartContext.tsx:59-65 | "+" on line k adds one unit and that line's unit price |
| CartTotals.DecreaseAt | app/cart/CartContext.tsx:66-74 | in a well-formed cart, "-" on line k lowers that line only, or drops it when it was at 1 |
| CartTotals.DecreaseTotals | app/cart/CartContext.tsx:66-74 | in a well-formed cart, "-" on line k takes away one unit and its price, whether the line stays or goes |
| CartTotals.RemoveTotals | app/cart/CartContext.tsx:54-58 | removing line k takes away exactly its line from both totals |
| CartTotals.UnchangedTotals | app/cart/CartContext.tsx:37-80 | CLEAR_CART brings both totals to 0; CLEAR_MESSAGE and refused adds leave the items as they were, so refused adds leave the price total too |
| CartContext.StoredItems | app/cart/CartContext.tsx:92-99 | no stored entry, or an empty one, loads nothing; an entry this provider wrote loads back its items; any other non-empty entry loads whatever parsing yields |
| CartContext.UseCart | app/cart/CartContext.tsx:118-122 | outside a provider `useCart` throws "useCart must be used within CartProvider"; inside, it returns the context |
| CartContext.CartProvider.constructor | app/cart/CartContext.tsx:86-88 | the first render starts with an empty cart, not hydrated, and does not write to storage |
| CartContext.CartProvider.Hydrate | app/cart/CartContext.tsx:91-109 | mounting loads the stored items when they parse as an array, then sets hydrated and saves the state under "gizmos_cart" |
| CartContext.CartProvider.Dispatch | app/cart/CartContext.tsx:87-109 | a dispatch moves the state by the reducer and, once hydrated, writes the new state to storage, keeping the store mirrored |
| CartContext.Reload | app/cart/CartContext.tsx:91-109 | a new provider over the same storage restores the items and drops the message |
| CartContext.NothingStored | app/cart/CartContext.tsx:92-100 | mounting over an absent or unparsable entry loads nothing |
| CartNav.BadgeCount | app/cart/CartNav.tsx:6-11 | the badge, `isHydrated ? totalItems : 0` (definition; stated by BadgeGate and BadgeZeroIffEmpty) |
| CartNav.BadgeGate | app/cart/CartNav.tsx:6-11 | the badge reads 0 before hydration and the unit count afterwards |
| CartNav.BadgeZeroIffEmpty | app/cart/CartNav.tsx:7-11 | for a hydrated well-formed cart the badge is 0 exactly when the cart is empty |
| CartNav.BadgeFollowsActions | app/cart/CartNav.tsx:7-11 | "+" raises the badge by one; CLEAR_CART brings it to 0 |
| CartPage.View | app/cart/page.tsx:13-125 | the page: loading until hydrated, then the empty view or the listing with its totals and checkout button (definition; stated by ViewGates and ListingContents) |
| CartPage.Lines | app/cart/page.tsx:44-99 | one rendered line per cart item, in order |
| CartPage.ViewGates | app/cart/page.tsx:13-121 | the loading view shows exactly before hydration; the empty view exactly for a hydrated empty cart; a listing's checkout button is enabled |
| CartPage.ListingContents | app/cart/page.tsx:44-113 | the listing shows each item with subtotal price × quantity, and the cart's two totals |
| CartPage.ControlsTargetOwnLine | app/cart/page.tsx:65-86 | a line's "+" and "Remove" act on that line's own item only |
| CheckoutRequest.OrderBody | app/components/CheckoutModal.tsx:83-94 | the body the client posts is admissible exactly when the cart is non-empty, name and address are non-empty, and the total is positive |
| CheckoutRequest.Admissible | app/api/checkout/cash/route.ts:9-28 | a body all three routes' guards let through, field by field (definition; tied both ways to Guard) |
| CheckoutRequest.Guard | app/api/checkout/cash/route.ts:9-28 | the guard lets a body through exactly when items are a non-empty array, name and address are present, and the total is positive; any refusal is a 400 |
| CheckoutRequest.ItemsCheckedFirst | app/api/checkout/cash/route.ts:9-14 | missing or empty items give "No items in cart" whatever else is wrong |
| CheckoutRequest.CustomerCheckedSecond | app/api/checkout/cash/route.ts:16-21 | with items present, a missing customer, name or address gives "Customer information is required" whatever the total |
| CheckoutRequest.TotalCheckedLast | app/api/checkout/cash/route.ts:23-28 | only then does a missing, zero or negative total give "Invalid total amount" |
| CheckoutRequest.ContactNumberNotRequired | app/api/checkout/cash/route.ts:16 | the contact number plays no part in the guard's verdict |
| CashRoute.CashOrderId | app/api/checkout/cash/route.ts:31 | every cash order id starts with "CASH-" |
| CashRoute.CashPost | app/api/checkout/cash/route.ts:3-66 | an unreadable body is a 500; a guarded body gets the guard's reply; otherwise a 200 whose order echoes the customer, items and total, is "cash"/"confirmed", and whose id is the order's id |
| CashRoute.CashOrderIdInjective | app/api/checkout/cash/route.ts:31 | two order ids coincide only for the same clock reading and the same random suffix |
| PayPalRoute.BaseUrl | app/api/checkout/paypal/route.ts:33-35 | the live host in production, the sandbox host otherwise (definition) |
| PayPalRoute.PayPalItems | app/api/checkout/paypal/route.ts:78-86 | one PayPal item per cart item, in order, with its name, USD unit price, stringified quantity and "PHYSICAL_GOODS" |
| PayPalRoute.BuildOrder | app/api/checkout/paypal/route.ts:64-105 | a CAPTURE order with one purchase unit whose amount and item total are both the submitted total, and whose items are exactly PayPalItems of the cart items |
| PayPalRoute.FirstApprove | app/api/checkout/paypal/route.ts:127 | the position of the first link whose rel is "approve", or past the end when there is none |
| PayPalRoute.ApprovalUrl | app/api/checkout/paypal/route.ts:127 | the approval URL is missing exactly when no link has rel "approve"; otherwise it is the href of the first such link |
| PayPalRoute.PayPalPost | app/api/checkout/paypal/route.ts:3-137 | the route answers 200 exactly for an admissible body, configured credentials, a token and a created order; every refusal is a 400 or a 500 |
| PayPalRoute.NoCallBeforeChecks | app/api/checkout/paypal/route.ts:37-42 | missing credentials give "PayPal configuration missing" with no call to PayPal |
| PayPalRoute.FailuresCollapse | app/api/checkout/paypal/route.ts:56-136 | a token failure, an order failure and an unreadable body all give the same 500 "Failed to create PayPal order" |
| PayPalRoute.Created | app/api/checkout/paypal/route.ts:45-128 | on success exactly two calls go out, token then order; the order states the submitted total twice and mirrors each item (name, unit price, stringified quantity, category); the reply carries PayPal's id and approval link |
| PayPalRoute.QuantityRoundTrip | app/api/checkout/paypal/route.ts:84 | the stringified quantity is all digits and reads back as the cart quantity |
| PayPalRoute.TotalNotRecomputed | app/api/checkout/paypal/route.ts:68-76 | PayPal is sent the submitted total, not a sum recomputed from the items, even when the two disagree |
| StripeRoute.LineItems | app/api/checkout/stripe/route.ts:36-46 | one line item per cart item, in order, with currency "usd", name, image, unit price and quantity |
| StripeRoute.Phone | app/api/checkout/stripe/route.ts:55 | a missing contact number is sent as "" |
| StripeRoute.IntentFor | app/api/checkout/stripe/route.ts:49-60 | the intent asks for the submitted total in "usd" and carries the customer's name, address, phone and the items as metadata |
| StripeRoute.StripePost | app/api/checkout/stripe/route.ts:8-74 | a 200 exactly for an admissible body and a created intent, carrying its client secret and id; at most one call, made exactly for an admissible body |
| StripeRoute.IntentFailure | app/api/checkout/stripe/route.ts:67-73 | a failed intent creation or an unreadable body gives the 500 "Failed to create payment intent" |
| StripeRoute.AmountIgnoresItems | app/api/checkout/stripe/route.ts:36-60 | the computed line items are not sent: swapping the items changes only the metadata of the intent |
| ProductsAdd.FieldMissing | app/api/products/add/route.ts:12 | any of the four fields is falsy in the JavaScript sense (definition) |
| ProductsAdd.PriceInvalid | app/api/products/add/route.ts:20 | the price is not a number, or is at most 0 (definition) |
| ProductsAdd.AddProductPost | app/api/products/add/route.ts:6-44 | an unreadable body is a 500 "Failed to create product"; a falsy field is a 400 "All fields are required"; otherwise a non-number or non-positive price is a 400 "Price must be a positive number"; a create call is made exactly when both checks pass, and carries the body's fields; 201 exactly when that create succeeds, else a 500 "Failed to create product" |
| ProductsAdd.StoredAsGiven | app/api/products/add/route.ts:27-36 | a created product carries exactly the submitted fields and a positive numeric price |
| ProductsAdd.ZeroPriceIsMissingField | app/api/products/add/route.ts:12-17 | a falsy price (0, "", missing, null) is refused as "All fields are required" |
| ProductsAdd.FieldCheckFirst | app/api/products/add/route.ts:12-25 | "" reports a missing field, while "5" and -3 report "Price must be a positive number" |
| ProductsAdd.RefusalWritesNothing | app/api/products/add/route.ts:12-25 | a 400 reply leaves the database untouched |
| AdminGate.Gate | middleware.ts:6-32 | the gate redirects to "/admin/login" exactly for a path starting with "/admin", other than the login page, without a truthy admin_token cookie |
| AdminGate.OutsideAdminPasses | middleware.ts:10-13 | paths outside "/admin" pass, token or not |
| AdminGate.PrefixNotSegment | middleware.ts:10 | the test is a plain prefix: "/administrator" without a token is redirected, "/admi" passes |
| AdminGate.AnyTokenPasses | middleware.ts:21-31 | any non-empty token passes; it is not verified |
| AdminGate.RedirectTargetPasses | middleware.ts:16-28 | the redirect target itself always passes, so redirects cannot loop |
| CheckoutModal.ApplyEdit | app/components/CheckoutModal.tsx:45-52 | an edit replaces the one field it names (definition; used by CheckoutModal.CheckoutModal.Edit) |
| CheckoutModal.FormError | app/components/CheckoutModal.tsx:54-72 | `validateForm`: the result is one of the four fixed messages, and no error means the three text fields are non-blank after `trim()` |
| CheckoutModal.RouteOf | app/components/CheckoutModal.tsx:95-120 | cash exactly for the cash method; PayPal exactly for a card payment whose card type is PayPal; the card widget otherwise |
| CheckoutModal.ValidationOrder | app/components/CheckoutModal.tsx:54-72 | the first blank field after `trim()` — name, then address, then contact number — names the error; with all three filled, a card payment without a card type gives "Please select a card type" and anything else passes |
| CheckoutModal.ValidFormFields | app/components/CheckoutModal.tsx:54-72 | a form that passes has three non-empty fields, a name with a non-whitespace character, and a card type when paying by card |
| CheckoutModal.BlankNameRejected | app/components/CheckoutModal.tsx:55-58 | a name of spaces only is rejected as "Full name is required" |
| CheckoutModal.Routing | app/components/CheckoutModal.tsx:95-126 | cash goes to the cash route, card with PayPal to the PayPal route, any other card type to the card widget |
| CheckoutModal.CheckoutModal.constructor | app/components/CheckoutModal.tsx:21-29 | the modal mounts with the empty form, cash and Visa preselected, not processing and no error |
| CheckoutModal.CheckoutModal.Total | app/components/CheckoutModal.tsx:31 | the modal's total is the cart's price total (definition) |
| CheckoutModal.CheckoutModal.CardWidgetShown | app/components/CheckoutModal.tsx:282 | the card widget is embedded for card payments other than PayPal (definition) |
| CheckoutModal.CheckoutModal.ButtonsDisabled | app/components/CheckoutModal.tsx:318-326 | Cancel and submit are disabled exactly while processing, so in particular while a cash or PayPal request is awaited |
| CheckoutModal.CheckoutModal.SubmitShown | app/components/CheckoutModal.tsx:282-330 | the modal's own submit button is shown exactly when the card widget is not |
| CheckoutModal.CheckoutModal.Edit | app/components/CheckoutModal.tsx:45-228 | an edit sets one field; inputs and selects clear the error, the address textarea does not |
| CheckoutModal.CheckoutModal.Close | app/components/CheckoutModal.tsx:198-320 | closing leaves the modal closed |
| CheckoutModal.CheckoutModal.ValidateForm | app/components/CheckoutModal.tsx:54-72 | the answer is true exactly when the form passes the chain; otherwise the error is the first failing check's message |
| CheckoutModal.CheckoutModal.Submit | app/components/CheckoutModal.tsx:74-126 | an invalid form sends nothing; a valid one clears the error and posts the cart's items, the customer and the cart total to the cash or PayPal route; the card widget path sends nothing and stops processing |
| CheckoutModal.CheckoutModal.ClearAndClose | app/components/CheckoutModal.tsx:113-114 | the cart is cleared through the reducer and saved, and the modal is closed |
| CheckoutModal.CheckoutModal.CashReply | app/components/CheckoutModal.tsx:105-132 | a confirmation clears the cart and closes; a non-OK reply shows "Failed to process cash order" and a rejection its own message, with the cart untouched; processing ends on every path |
| CheckoutModal.CheckoutModal.PayPalReply | app/components/CheckoutModal.tsx:116-186 | any failure shows "PayPal payment failed"; a created order clears the cart only when the user confirms; declining changes nothing |
| CheckoutModal.CheckoutModal.StripeSucceeded | app/components/CheckoutModal.tsx:135-141 | a card success clears the cart and closes the modal |
| CheckoutModal.CheckoutModal.StripeFailed | app/components/CheckoutModal.tsx:143-145 | a card failure shows the widget's message verbatim |
| StripeCardForm.ConfirmCallbacks | app/components/StripeCardForm.tsx:103-114 | the callbacks of the confirmation step, per outcome (definition; stated by SuccessOnlyWhenSucceeded, OtherStatusSilent and DeclineReportsSomething) |
| StripeCardForm.DeclineText | app/components/StripeCardForm.tsx:104-105 | a decline reports the processor's message, or "Payment failed" when it is missing or empty; never "" |
| StripeCardForm.SuccessOnlyWhenSucceeded | app/components/StripeCardForm.tsx:103-113 | `onSuccess(id)` is invoked exactly for an intent settled with status "succeeded"; at most one callback fires |
| StripeCardForm.OtherStatusSilent | app/components/StripeCardForm.tsx:106-108 | any other status invokes neither callback |
| StripeCardForm.DeclineReportsSomething | app/components/StripeCardForm.tsx:103-105 | a decline invokes `onError` once with a non-empty message |
| StripeCardForm.CheckoutForm.constructor | app/components/StripeCardForm.tsx:45-49 | the form mounts with its props, not processing and with no card error |
| StripeCardForm.CheckoutForm.IntentRequestBody | app/components/StripeCardForm.tsx:76-80 | the intent request carries the props' items, customer and total (definition; admissibility by OrderBody) |
| StripeCardForm.CheckoutForm.BillingDetails | app/components/StripeCardForm.tsx:93-99 | name, address line 1 and phone from the customer fields (definition) |
| StripeCardForm.CheckoutForm.PayDisabled | app/components/StripeCardForm.tsx:144 | the Pay button is disabled while Stripe has not loaded and while processing (so while the intent or confirmation is awaited), and enabled otherwise |
| StripeCardForm.CheckoutForm.Submit | app/components/StripeCardForm.tsx:51-81 | nothing happens without Stripe and Elements; a missing card element sets "Card element not found"; otherwise the intent request goes out with processing on |
| StripeCardForm.CheckoutForm.Fail | app/components/StripeCardForm.tsx:109-116 | a failure records its message, reports it through `onError`, and ends processing |
| StripeCardForm.CheckoutForm.IntentReply | app/components/StripeCardForm.tsx:83-101 | a non-OK reply fails with "Failed to create payment intent"; a rejection with its message; a client secret starts the card confirmation with the customer's billing details |
| StripeCardForm.CheckoutForm.ConfirmReply | app/components/StripeCardForm.tsx:103-116 | the callbacks are those of the outcome; on an error the card error is set to the same message; processing ends on every path |
| Js.CaughtMessage | app/components/CheckoutModal.tsx:129 | a caught `Error` yields its own message, anything else the fallback |
| Text.Trim | app/components/CheckoutModal.tsx:55-63 | `String.prototype.trim`: leading then trailing JavaScript whitespace removed (definition; stated by TrimStartDropsBlanks, TrimEndDropsBlanks and BlankIff) |
| Text.BlankIff | app/components/CheckoutModal.tsx:55 | `trim()` leaves "" exactly when every character is JavaScript whitespace |
| Text.TrimStartDropsBlanks | app/components/CheckoutModal.tsx:55 | trimming the front drops only whitespace and stops at a non-blank |
| Text.TrimEndDropsBlanks | app/components/CheckoutModal.tsx:55 | trimming the end drops only whitespace and stops at a non-blank |
| Text.DecimalRoundTrip | app/api/checkout/paypal/route.ts:84 | the decimal rendering of a natural number reads back as that number |
| Text.NatToDecimalInjective | app/api/checkout/cash/route.ts:31 | distinct numbers render as distinct decimal strings |
| CheckoutFlow.RoutesRefuseAlike | app/api/checkout/stripe/route.ts:14-33 | the cash, PayPal and Stripe routes refuse the same bodies with the same status and text, before any outbound call |
| CheckoutFlow.RoutesAcceptAlike | app/api/checkout/paypal/route.ts:9-28 | the three routes let the same bodies through |
| CheckoutFlow.ValidOrderAdmissible | app/components/CheckoutModal.tsx:83-93 | a body the modal sends for a valid form and a non-empty cart with a positive total passes the routes' guard |
| CheckoutFlow.EmptyCartRefused | app/components/CheckoutModal.tsx:83-93 | the modal does not check the cart; an empty one is refused by the routes as "No items in cart" |
| CheckoutFlow.FreeCartRefused | app/components/CheckoutModal.tsx:31 | a cart of free items totals 0, which the routes refuse as "Invalid total amount" |
| CheckoutFlow.FreeTotal | app/components/CheckoutModal.tsx:31 | items all priced 0 total 0 |
| CheckoutFlow.SampleCart | app/cart/CartContext.tsx:37-65 | a hydrated provider after adding one product and pressing "+" holds it at quantity 2 |
| CheckoutFlow.FilledModal | app/components/CheckoutModal.tsx:45-72 | typing non-blank details and a payment choice into a fresh modal gives a form that passes validation |
| CheckoutFlow.CashCheckout | app/components/CheckoutModal.tsx:95-114 | a cash checkout sends the cart total, is confirmed with a "CASH-" id, and ends with an empty cart and "Cart cleared successfully!" |
| CheckoutFlow.PayPalCheckout | app/components/CheckoutModal.tsx:116-186 | a PayPal checkout clears the cart only for a created and confirmed order, and otherwise leaves it as it was |
| CheckoutFlow.Deliver | app/components/CheckoutModal.tsx:292-293 | the widget's `onSuccess` clears the cart and its `onError` sets the modal's error; nothing else does either |
| CheckoutFlow.CardWidget | app/components/StripeCardForm.tsx:51-117 | a mounted widget with Stripe loaded posts its props as the order body and, given a client secret, reports exactly the confirmation's callbacks |
| CheckoutFlow.CardCheckout | app/components/CheckoutModal.tsx:120-296 | a card checkout sends nothing from the modal, the widget posts the cart total, and the cart is cleared exactly when the intent succeeds; a decline shows its message |

## Left out

- Rendering (markup, classes, `alert` text, the `Loading cart...` copy) and the `document.body` overflow effect of the modal are not modelled; the views are reduced to what they show and which controls they offer.
- `fetch`, the Stripe and PayPal SDKs, `confirm()` and `response.json()` are never called: their outcomes are parameters (`Fetched`, `Option`, `ConfirmOutcome`, `confirmed`). The PayPal bearer and request-id headers and the base64 encoding of the credentials are not modelled; the token call records the `id:secret` pair.
- `localStorage` is a map from key to blob; `JSON.parse` of a blob this provider did not write is a parameter, and `JSON.stringify` round-trips the saved state.
- Floating point is not modelled: prices and totals are integer cents, so `toFixed(2)` and `Math.round(x * 100)` are the identity and the rounding of fractional cents is out of scope.
- `Date.now()` and `Math.random()` are parameters of the cash route; `createdAt` and `estimatedDelivery` of the cash order are not modelled.
- The routes' `items` are checked only for being a non-empty array; the model types them as cart items, so elements of another shape are not represented.
- CashRoute.CashPost, PayPalRoute.PayPalPost, StripeRoute.StripePost: `totalAmount` is a number or missing in all three routes. A non-numeric total is not represented. A string such as "12" passes `!totalAmount || totalAmount <= 0` in every route. The cash route then echoes it. The PayPal route fetches a token and then throws at `totalAmount.toFixed(2)`, which gives its 500. The Stripe route coerces it in `Math.round(totalAmount * 100)`.
- The client reads `approvalUrl` from the PayPal reply but never uses it; the model likewise ignores it.
- `config.matcher` is empty, so Next.js never runs the middleware; AdminGate.Gate models the decision the function would make if it ran.
- The modal does not refuse an empty cart or a non-positive total before posting (only the routes do), and the model sends such bodies (see CheckoutFlow.EmptyCartRefused).
- CheckoutModal.CheckoutModal.Submit and StripeCardForm.CheckoutForm.Submit require that no request is in flight, because their submit buttons are disabled while processing; a second submission through another route (the Enter key) is not modelled.
- The card widget is a `<form>` nested inside the modal's `<form>`; how the browser dispatches submit between the two is not modelled.
- React's batching and scheduling of state updates and effects is not modelled: each handler's updates, and the save effect after a dispatch, take effect at once.
- A confirmation that settles with neither an error nor a PaymentIntent makes the source read a property of `undefined`; that `TypeError` is an `Error`, so the model covers it as `ConfirmThrew` with an error object rather than as a case of its own.
