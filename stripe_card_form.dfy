/**
 * `CheckoutForm` of app/components/StripeCardForm.tsx: the card widget's
 * submit handler, split at its two `await`s. `Submit` runs up to the intent
 * request, `IntentReply` resumes with the route's answer and starts the card
 * confirmation, `ConfirmReply` resumes with the processor's answer. Each step
 * returns what it did outside the component, in order: requests it sent and
 * callbacks (`onSuccess`, `onError`) it invoked.
 */
module StripeCardForm {
  import opened Wrappers
  import opened Js
  import opened CartReducer
  import opened CheckoutRequest

  const IntentRequestFailedMessage := "Failed to create payment intent"
  const CardElementMissingMessage := "Card element not found"
  const PaymentFailedMessage := "Payment failed"
  const ProcessingFailedMessage := "Payment processing failed"

  /** The billing details sent with the card. */
  datatype Billing = Billing(name: string, line1: string, phone: string)

  datatype CardEffect =
    | PostIntent(body: CheckoutBody)
    | ConfirmCardPayment(clientSecret: string, billing: Billing)
    | OnSuccess(paymentIntentId: string)
    | OnError(message: string)

  /** Where the handler is suspended, if anywhere. */
  datatype Phase = Idle | AwaitingIntent | AwaitingConfirmation

  /**
   * What `stripe.confirmCardPayment` settles with: an `error` (whose message may
   * be missing or empty), a PaymentIntent with its status, or a rejection.
   */
  datatype ConfirmOutcome =
    | Declined(message: Option<string>)
    | Settled(id: string, status: string)
    | ConfirmThrew(thrown: Thrown)

  /** `error.message || 'Payment failed'`. */
  function DeclineText(message: Option<string>): (m: string)
    ensures m != ""
    ensures Present(message) ==> m == message.value
  {
    if Present(message) then message.value else PaymentFailedMessage
  }

  /** The callbacks the confirmation step invokes: an error, a success for status "succeeded", or nothing. */
  function ConfirmCallbacks(outcome: ConfirmOutcome): seq<CardEffect>
  {
    match outcome
    case Declined(message) => [OnError(DeclineText(message))]
    case Settled(id, status) => if status == "succeeded" then [OnSuccess(id)] else []
    case ConfirmThrew(thrown) => [OnError(CaughtMessage(thrown, ProcessingFailedMessage))]
  }

  /** `onSuccess` is invoked exactly for a settled intent whose status is "succeeded", and then never with `onError`. */
  lemma SuccessOnlyWhenSucceeded(outcome: ConfirmOutcome, id: string)
    ensures OnSuccess(id) in ConfirmCallbacks(outcome) <==> outcome == Settled(id, "succeeded")
    ensures |ConfirmCallbacks(outcome)| <= 1
  {
  }

  /** A status other than "succeeded" with no error invokes neither callback. */
  lemma OtherStatusSilent(id: string, status: string)
    requires status != "succeeded"
    ensures ConfirmCallbacks(Settled(id, status)) == []
  {
  }

  /** A decline always reports a non-empty message: the processor's, or "Payment failed". */
  lemma DeclineReportsSomething(message: Option<string>)
    ensures ConfirmCallbacks(Declined(message)) == [OnError(DeclineText(message))]
    ensures DeclineText(message) != ""
    ensures message == Some("") ==> DeclineText(message) == PaymentFailedMessage
  {
  }

  class CheckoutForm {
    const totalAmount: int
    const customer: CustomerFields
    const items: seq<CartItem>
    var isProcessing: bool
    var cardError: Option<string>
    var phase: Phase

    /** The component is processing exactly while a request is outstanding. */
    ghost predicate Valid()
      reads this
    {
      isProcessing <==> phase != Idle
    }

    /** The props `{ totalAmount, customerInfo, items }` and the initial state. */
    constructor (totalAmount: int, customer: CustomerFields, items: seq<CartItem>)
      ensures Valid()
      ensures this.totalAmount == totalAmount && this.customer == customer && this.items == items
      ensures !isProcessing && cardError == None && phase == Idle
    {
      this.totalAmount := totalAmount;
      this.customer := customer;
      this.items := items;
      isProcessing := false;
      cardError := None;
      phase := Idle;
    }

    /** `disabled={!stripe || isProcessing}` on the Pay button. */
    function PayDisabled(stripeReady: bool): (disabled: bool)
      reads this
      ensures !stripeReady ==> disabled
      ensures isProcessing ==> disabled
      ensures stripeReady && !isProcessing ==> !disabled
      ensures Valid() && phase != Idle ==> disabled
    {
      !stripeReady || isProcessing
    }

    /** The body posted to /api/checkout/stripe. */
    function IntentRequestBody(): (b: CheckoutBody)
      reads this
    {
      OrderBody(items, customer, totalAmount)
    }

    function BillingDetails(): Billing
      reads this
    {
      Billing(customer.fullName, customer.address, customer.contactNumber)
    }

    /**
     * The handler up to its first `await`: nothing without Stripe and Elements
     * loaded; "Card element not found" when the card field is not mounted;
     * otherwise the intent request goes out with `isProcessing` set.
     * Submitting needs the Pay button, which is disabled while processing.
     */
    method Submit(stripeReady: bool, elementsReady: bool, cardMounted: bool) returns (effects: seq<CardEffect>)
      requires Valid() && !isProcessing
      modifies this`isProcessing, this`cardError, this`phase
      ensures Valid()
      ensures !stripeReady || !elementsReady ==>
        effects == [] && isProcessing == old(isProcessing) && cardError == old(cardError) && phase == old(phase)
      ensures stripeReady && elementsReady && !cardMounted ==>
        effects == [] && !isProcessing && cardError == Some(CardElementMissingMessage) && phase == Idle
      ensures stripeReady && elementsReady && cardMounted ==>
        effects == [PostIntent(IntentRequestBody())] && isProcessing && cardError == None && phase == AwaitingIntent
    {
      effects := [];
      if !stripeReady || !elementsReady {
        return;
      }
      isProcessing := true;
      cardError := None;
      if !cardMounted {
        cardError := Some(CardElementMissingMessage);
        isProcessing := false;
        return;
      }
      effects := [PostIntent(IntentRequestBody())];
      phase := AwaitingIntent;
    }

    /** The `catch` and `finally` clauses: record the message, report it, stop processing. */
    method Fail(message: string) returns (effects: seq<CardEffect>)
      modifies this`isProcessing, this`cardError, this`phase
      ensures effects == [OnError(message)]
      ensures cardError == Some(message) && !isProcessing && phase == Idle
      ensures Valid()
    {
      cardError := Some(message);
      effects := [OnError(message)];
      isProcessing := false;
      phase := Idle;
    }

    /**
     * Resumes after the intent request. A non-OK response throws
     * "Failed to create payment intent"; a rejection reports its own message;
     * a client secret moves on to the card confirmation.
     */
    method IntentReply(reply: Fetched<string>) returns (effects: seq<CardEffect>)
      requires Valid() && phase == AwaitingIntent
      modifies this`isProcessing, this`cardError, this`phase
      ensures Valid()
      ensures reply.Ok? ==>
        && effects == [ConfirmCardPayment(reply.body, BillingDetails())]
        && isProcessing && phase == AwaitingConfirmation && cardError == old(cardError)
      ensures reply.NotOk? ==>
        effects == [OnError(IntentRequestFailedMessage)] && cardError == Some(IntentRequestFailedMessage) && !isProcessing && phase == Idle
      ensures reply.Rejected? ==>
        var m := CaughtMessage(reply.thrown, ProcessingFailedMessage);
        effects == [OnError(m)] && cardError == Some(m) && !isProcessing && phase == Idle
    {
      match reply
      case Ok(clientSecret) =>
        effects := [ConfirmCardPayment(clientSecret, BillingDetails())];
        phase := AwaitingConfirmation;
      case NotOk =>
        effects := Fail(IntentRequestFailedMessage);
      case Rejected(thrown) =>
        effects := Fail(CaughtMessage(thrown, ProcessingFailedMessage));
    }

    /**
     * Resumes after the card confirmation: the callbacks of ConfirmCallbacks,
     * `cardError` set to the same message on an error, and `isProcessing`
     * cleared on every path.
     */
    method ConfirmReply(outcome: ConfirmOutcome) returns (effects: seq<CardEffect>)
      requires Valid() && phase == AwaitingConfirmation
      modifies this`isProcessing, this`cardError, this`phase
      ensures Valid() && !isProcessing && phase == Idle
      ensures effects == ConfirmCallbacks(outcome)
      ensures cardError == if effects != [] && effects[0].OnError? then Some(effects[0].message) else old(cardError)
    {
      match outcome {
        case Declined(message) =>
          var m := DeclineText(message);
          cardError := Some(m);
          effects := [OnError(m)];
        case Settled(id, status) =>
          effects := if status == "succeeded" then [OnSuccess(id)] else [];
        case ConfirmThrew(thrown) =>
          var m := CaughtMessage(thrown, ProcessingFailedMessage);
          cardError := Some(m);
          effects := [OnError(m)];
      }
      isProcessing := false;
      phase := Idle;
    }
  }
}
