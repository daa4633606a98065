/**
 * The checkout page (`CustomCashfreeCheckout`): a step machine driven by
 * button clicks, form submits, replies to its requests and timer firings.
 *
 * The page's React state cells, together with the browser-side state the
 * handlers depend on (the request a suspended handler waits for, the live
 * polling intervals, the scheduled timeouts), form a PageState. `Next`
 * gives the state an event leads to and `Enabled` says when the page lets
 * the event happen. The class CashfreeCheckout keeps the same cells as
 * fields and runs each handler as the source does, setter call by setter
 * call; every method is proved to reach exactly the state `Next` gives, so
 * later writes to a cell win over earlier ones as with React's batching.
 *
 * An async handler is two events: the part up to its `await` runs when the
 * user submits, the rest when the reply arrives.
 */
module PaymentPage {
  import opened JsValues
  import opened Validation

  const OrderFailedMessage := "Failed to create order. Please try again."

  datatype Step = Initial | CustomerDetails | Checkout | Processing | Success | Failed | ThreeDsPending

  /** The render branches: one view per step that has one, nothing otherwise. */
  datatype View = LandingView | DetailsView | CheckoutView | ProcessingView | SuccessView | FailedView | NoView

  function Render(step: Step): (v: View)
    ensures v == NoView <==> step == ThreeDsPending
  {
    match step
    case Initial => LandingView
    case CustomerDetails => DetailsView
    case Checkout => CheckoutView
    case Processing => ProcessingView
    case Success => SuccessView
    case Failed => FailedView
    case ThreeDsPending => NoView
  }

  /** The created order, as far as the page keeps it. */
  datatype OrderData = OrderData(orderId: string, paymentSessionId: string)

  /** The reply to the create-order request; a rejected request is one case. */
  datatype OrderReply = OrderCreated(data: OrderData) | OrderRequestFailed

  /**
   * The fields of the process-payment reply the page branches on. The two
   * flags stand for the truthiness of `requires_redirect` and
   * `requires_polling`.
   */
  datatype PaymentReply = PaymentReply(requiresRedirect: bool, redirectUrl: string, requiresPolling: bool, paymentStatus: string)

  datatype PaymentOutcome = PaymentReplied(reply: PaymentReply) | PaymentRequestFailed

  /** One tick of a polling interval: the status it read, or a failed request. */
  datatype PollReply = PollStatus(paymentStatus: string) | PollRequestFailed

  /** The request a suspended submit handler waits for. */
  datatype Pending = NoRequest | OrderRequest | PaymentRequest

  datatype PageState = PageState(
    // React state cells
    step: Step,
    loading: bool,
    selectedMethod: Option<string>,
    orderData: Option<OrderData>,
    paymentResponse: Option<PaymentReply>,
    pollingInterval: Option<nat>,
    customerDetails: map<string, JsValue>,
    paymentData: map<string, JsValue>,
    // browser side: the awaited request, live intervals, scheduled timeouts
    // (each holding the interval id it captured, in firing order) and the
    // next timer handle
    pending: Pending,
    liveIntervals: set<nat>,
    pendingTimeouts: seq<nat>,
    nextTimerId: nat)

  const CustomerFields: set<string> := {"customerName", "customerEmail", "customerPhone"}
  const PaymentFields: set<string> :=
    {"upiId", "cardNumber", "cardHolderName", "expiryMonth", "expiryYear", "cvv", "bankCode", "walletProvider"}

  function InitialState(): PageState
  {
    PageState(
      Initial, false, None, None, None, None,
      map["customerName" := Text(""), "customerEmail" := Text(""), "customerPhone" := Text("")],
      map["upiId" := Text(""), "cardNumber" := Text(""), "cardHolderName" := Text(""),
          "expiryMonth" := Text(""), "expiryYear" := Text(""), "cvv" := Text(""),
          "bankCode" := Text(""), "walletProvider" := Text("")],
      NoRequest, {}, [], 1)
  }

  datatype Event =
    | PayNowClicked
    | BackClicked
    | DoneClicked
    | TryAgainClicked
    | InputChanged(field: string, value: JsValue)
    | DetailsSubmitted
    | OrderAnswered(order: OrderReply)
    | MethodClicked(methodId: string)
    | PaymentSubmitted
    | PaymentAnswered(payment: PaymentOutcome)
    | PollTicked(interval: nat, poll: PollReply)
    | TimeoutFired

  /**
   * When the page lets an event happen: a button only in the view that
   * renders it (the submit buttons are disabled while loading, and the pay
   * button sits in the panel of the selected method), a reply only to the
   * request being awaited, a tick only of a live interval, a timeout only
   * when one is scheduled.
   */
  predicate Enabled(s: PageState, e: Event)
  {
    match e
    case PayNowClicked => Render(s.step) == LandingView
    case BackClicked => Render(s.step) == DetailsView || Render(s.step) == CheckoutView
    case DoneClicked => Render(s.step) == SuccessView
    case TryAgainClicked => Render(s.step) == FailedView
    case InputChanged(_, _) => Render(s.step) == DetailsView || Render(s.step) == CheckoutView
    case DetailsSubmitted => Render(s.step) == DetailsView && !s.loading
    case OrderAnswered(_) => s.pending == OrderRequest
    case MethodClicked(id) => Render(s.step) == CheckoutView && id in MethodIds
    case PaymentSubmitted => Render(s.step) == CheckoutView && !s.loading && s.selectedMethod.Some?
    case PaymentAnswered(_) => s.pending == PaymentRequest
    case PollTicked(id, _) => id in s.liveIntervals
    case TimeoutFired => s.pendingTimeouts != []
  }

  /**
   * `setPollingInterval(v)` followed by the effect that depends on the cell:
   * when its value changes, the cleanup registered for the old value runs
   * and clears that interval.
   */
  function WithPollingInterval(s: PageState, v: Option<nat>): PageState
  {
    var cleared := if s.pollingInterval.Some? && s.pollingInterval != v then {s.pollingInterval.value} else {};
    s.(pollingInterval := v, liveIntervals := s.liveIntervals - cleared)
  }

  /** `startPaymentStatusPolling`: show processing, start an interval and schedule a timeout that captures it. */
  function StartPolling(s: PageState): PageState
  {
    var id := s.nextTimerId;
    var t := s.(step := Processing, liveIntervals := s.liveIntervals + {id},
                pendingTimeouts := s.pendingTimeouts + [id], nextTimerId := id + 1);
    WithPollingInterval(t, Some(id))
  }

  /** `clearInterval(id); setPollingInterval(null); setStep(step)`. */
  function StopPolling(s: PageState, id: nat, step: Step): PageState
  {
    WithPollingInterval(s.(liveIntervals := s.liveIntervals - {id}, step := step), None)
  }

  /** The net effect of an event on the page. */
  function Next(s: PageState, e: Event): PageState
    requires Enabled(s, e)
  {
    match e
    case PayNowClicked => s.(step := CustomerDetails)
    case BackClicked => s.(step := if s.step == CustomerDetails then Initial else CustomerDetails)
    case DoneClicked => s.(step := Initial)
    case TryAgainClicked => s.(step := Checkout)
    case InputChanged(f, v) =>
      if StartsWith(f, "customer") then s.(customerDetails := s.customerDetails[f := v])
      else s.(paymentData := s.paymentData[f := v])
    case DetailsSubmitted =>
      if CustomerDetailsError(s.customerDetails).Some? then s
      else s.(loading := true, pending := OrderRequest)
    case OrderAnswered(OrderCreated(d)) =>
      s.(orderData := Some(d), step := Checkout, loading := false, pending := NoRequest)
    case OrderAnswered(OrderRequestFailed) =>
      s.(loading := false, pending := NoRequest)
    case MethodClicked(id) => s.(selectedMethod := Some(id))
    case PaymentSubmitted =>
      if PaymentMethodError(s.selectedMethod, s.paymentData).Some? then s
      // reading the order id of a missing order throws before any request is sent
      else if s.orderData.None? then s.(step := Failed)
      else s.(loading := true, step := Processing, pending := PaymentRequest)
    case PaymentAnswered(PaymentRequestFailed) =>
      s.(step := Failed, loading := false, pending := NoRequest)
    case PaymentAnswered(PaymentReplied(r)) =>
      var t := s.(paymentResponse := Some(r), loading := false, pending := NoRequest);
      if r.requiresPolling then StartPolling(t)
      else t.(step := if r.paymentStatus == "SUCCESS" then Success else Failed)
    case PollTicked(id, PollStatus(status)) =>
      if status == "SUCCESS" then StopPolling(s, id, Success)
      else if status == "FAILED" then StopPolling(s, id, Failed)
      else s
    case PollTicked(_, PollRequestFailed) => s
    case TimeoutFired =>
      // the guard checks the interval id the timeout captured
      var id := s.pendingTimeouts[0];
      var t := s.(pendingTimeouts := s.pendingTimeouts[1..]);
      if id != 0 then StopPolling(t, id, Failed) else t
  }

  /** The alert an event raises. */
  function Alert(s: PageState, e: Event): Option<string>
  {
    match e
    case DetailsSubmitted => CustomerDetailsError(s.customerDetails)
    case OrderAnswered(OrderRequestFailed) => Some(OrderFailedMessage)
    case PaymentSubmitted => PaymentMethodError(s.selectedMethod, s.paymentData)
    case _ => None
  }

  /**
   * What every handler keeps: loading is on exactly while a submit handler
   * waits for its reply; the selected method is one the view offers; timer
   * handles are positive and fresh; timeouts are scheduled in increasing
   * handle order; the only live interval is the one the polling cell holds,
   * and while it lives the page shows processing, waits for no reply and
   * still has that interval's timeout to come; the form records hold their
   * initial keys.
   */
  predicate Inv(s: PageState)
  {
    && (s.loading <==> s.pending != NoRequest)
    && (s.selectedMethod.Some? ==> s.selectedMethod.value in MethodIds)
    && 0 < s.nextTimerId
    && s.liveIntervals == (if s.pollingInterval.Some? then {s.pollingInterval.value} else {})
    && (s.pollingInterval.Some? ==>
          s.step == Processing && s.pending == NoRequest && s.pollingInterval.value in s.pendingTimeouts)
    && (forall k :: 0 <= k < |s.pendingTimeouts| ==> 0 < s.pendingTimeouts[k] < s.nextTimerId)
    && (forall j, k :: 0 <= j < k < |s.pendingTimeouts| ==> s.pendingTimeouts[j] < s.pendingTimeouts[k])
    && CustomerFields <= s.customerDetails.Keys
    && PaymentFields <= s.paymentData.Keys
  }

  /**
   * What holds of every state reachable from the initial one, beyond Inv:
   * the step always has a view, and until an order exists the page stays on
   * the first two steps with no payment request or timer.
   */
  predicate Sound(s: PageState)
  {
    && Inv(s)
    && s.step != ThreeDsPending
    && (s.orderData.None? ==>
          && (s.step == Initial || s.step == CustomerDetails)
          && s.pending != PaymentRequest && s.liveIntervals == {} && s.pendingTimeouts == [])
  }

  lemma InitialIsSound()
    ensures Sound(InitialState())
  {
  }

  lemma NextKeepsInv(s: PageState, e: Event)
    requires Inv(s) && Enabled(s, e)
    ensures Inv(Next(s, e))
  {
    match e {
      case PaymentAnswered(PaymentReplied(r)) =>
        if r.requiresPolling {
          StartPollingKeepsInv(s.(paymentResponse := Some(r), loading := false, pending := NoRequest));
        }
      case TimeoutFired =>
        TimeoutKeepsInv(s);
      case _ =>
    }
  }

  lemma StartPollingKeepsInv(s: PageState)
    requires Inv(s) && s.pending == NoRequest
    ensures Inv(StartPolling(s))
  {
    var t := StartPolling(s);
    assert t.pendingTimeouts[|s.pendingTimeouts|] == s.nextTimerId;
    assert forall k :: 0 <= k < |s.pendingTimeouts| ==> t.pendingTimeouts[k] == s.pendingTimeouts[k];
  }

  lemma TimeoutKeepsInv(s: PageState)
    requires Inv(s) && s.pendingTimeouts != []
    ensures Inv(Next(s, TimeoutFired))
  {
    var p := s.pendingTimeouts;
    assert forall k :: 0 <= k < |p| - 1 ==> p[1..][k] == p[k + 1];
  }

  lemma NextKeepsSound(s: PageState, e: Event)
    requires Sound(s) && Enabled(s, e)
    ensures Sound(Next(s, e))
  {
    NextKeepsInv(s, e);
  }

  /** Whether every event of a sequence is enabled when it happens. */
  predicate Admissible(s: PageState, es: seq<Event>)
    decreases |es|
  {
    es == [] || (Enabled(s, es[0]) && Admissible(Next(s, es[0]), es[1..]))
  }

  function Run(s: PageState, es: seq<Event>): PageState
    requires Admissible(s, es)
    decreases |es|
  {
    if es == [] then s else Run(Next(s, es[0]), es[1..])
  }

  lemma {:induction false} RunKeepsSound(s: PageState, es: seq<Event>)
    requires Sound(s) && Admissible(s, es)
    ensures Sound(Run(s, es))
    decreases |es|
  {
    if es != [] {
      NextKeepsSound(s, es[0]);
      RunKeepsSound(Next(s, es[0]), es[1..]);
    }
  }

  /**
   * From the initial state, whatever the user, the server and the timers
   * do: the page always renders a view (the 3-D Secure step is never left
   * standing), and the checkout, success and failure steps only come once an
   * order exists.
   */
  lemma ReachableStates(es: seq<Event>)
    requires Admissible(InitialState(), es)
    ensures var s := Run(InitialState(), es);
      && Inv(s)
      && Render(s.step) != NoView
      && |s.liveIntervals| <= 1
      && (s.liveIntervals != {} ==> s.step == Processing)
      && (s.step == Checkout || s.step == Processing || s.step == Success || s.step == Failed ==> s.orderData.Some?)
  {
    InitialIsSound();
    RunKeepsSound(InitialState(), es);
  }

  // ----- properties of single events -----

  /** The navigation buttons move between steps and change nothing else. */
  lemma NavigationTransitions(s: PageState, e: Event)
    requires e == PayNowClicked || e == BackClicked || e == DoneClicked || e == TryAgainClicked
    requires Enabled(s, e)
    ensures Next(s, e) == s.(step := Next(s, e).step)
    ensures e == PayNowClicked ==> s.step == Initial && Next(s, e).step == CustomerDetails
    ensures e == BackClicked && s.step == CustomerDetails ==> Next(s, e).step == Initial
    ensures e == BackClicked && s.step == Checkout ==> Next(s, e).step == CustomerDetails
    ensures e == BackClicked ==> s.step == CustomerDetails || s.step == Checkout
    ensures e == DoneClicked ==> s.step == Success && Next(s, e).step == Initial
    ensures e == TryAgainClicked ==> s.step == Failed && Next(s, e).step == Checkout
  {
  }

  /**
   * `handleInputChange(field, value)` writes exactly that key, of the
   * customer record when the field name starts with "customer" and of the
   * payment record otherwise.
   */
  lemma InputChangeSetsOneKey(s: PageState, field: string, value: JsValue)
    requires Enabled(s, InputChanged(field, value))
    ensures var t := Next(s, InputChanged(field, value));
      var toCustomer := StartsWith(field, "customer");
      && Lookup(if toCustomer then t.customerDetails else t.paymentData, field) == value
      && (toCustomer ==> t.paymentData == s.paymentData)
      && (!toCustomer ==> t.customerDetails == s.customerDetails)
      && (forall k :: k != field ==> Lookup(t.customerDetails, k) == Lookup(s.customerDetails, k))
      && (forall k :: k != field ==> Lookup(t.paymentData, k) == Lookup(s.paymentData, k))
      && t == s.(customerDetails := t.customerDetails, paymentData := t.paymentData)
  {
  }

  /** A rejected submit, and only a rejected one, leaves the page as it was. */
  lemma RejectedSubmitsChangeNothing(s: PageState, e: Event)
    requires e == DetailsSubmitted || e == PaymentSubmitted
    requires Enabled(s, e)
    ensures Alert(s, e).Some? <==> Next(s, e) == s
  {
  }

  /**
   * Submitting valid customer details sets loading and sends the order
   * request; when the reply comes the step becomes checkout if the order
   * was created and stays where it was otherwise (with an alert), and
   * loading ends false.
   */
  lemma DetailsSubmitRound(s: PageState, reply: OrderReply)
    requires Inv(s) && Enabled(s, DetailsSubmitted) && Alert(s, DetailsSubmitted) == None
    ensures var t := Next(s, DetailsSubmitted);
      && t.loading && t.step == s.step && Enabled(t, OrderAnswered(reply))
      && var u := Next(t, OrderAnswered(reply));
      && !u.loading && Inv(u)
      && u.step == (if reply.OrderCreated? then Checkout else s.step)
      && u.orderData == (if reply.OrderCreated? then Some(reply.data) else s.orderData)
      && Alert(t, OrderAnswered(reply)) == (if reply.OrderCreated? then None else Some(OrderFailedMessage))
  {
    NextKeepsInv(s, DetailsSubmitted);
    NextKeepsInv(Next(s, DetailsSubmitted), OrderAnswered(reply));
  }

  /**
   * A valid payment submit shows processing; the reply then decides: a
   * reply that asks for polling stays at processing and starts one new
   * interval, otherwise SUCCESS gives success and anything else failed, a
   * failed request gives failed. The 3-D Secure step is never the result,
   * and loading always ends false.
   */
  lemma PaymentSubmitRound(s: PageState, outcome: PaymentOutcome)
    requires Inv(s) && Enabled(s, PaymentSubmitted) && Alert(s, PaymentSubmitted) == None
    requires s.orderData.Some?
    ensures var t := Next(s, PaymentSubmitted);
      && t.loading && t.step == Processing && Enabled(t, PaymentAnswered(outcome))
      && var u := Next(t, PaymentAnswered(outcome));
      && var polls := outcome.PaymentReplied? && outcome.reply.requiresPolling;
      && !u.loading && Inv(u)
      && u.step == (if outcome.PaymentRequestFailed? then Failed
                    else if polls then Processing
                    else if outcome.reply.paymentStatus == "SUCCESS" then Success
                    else Failed)
      && u.step != ThreeDsPending
      && u.liveIntervals == (if polls then t.liveIntervals + {t.nextTimerId} else t.liveIntervals)
      && t.nextTimerId !in t.liveIntervals
  {
    NextKeepsInv(s, PaymentSubmitted);
    NextKeepsInv(Next(s, PaymentSubmitted), PaymentAnswered(outcome));
  }

  /**
   * A poll reading SUCCESS or FAILED settles the step and stops that
   * interval; any other status, or a failed poll, changes nothing.
   */
  lemma PollOutcome(s: PageState, id: nat, reply: PollReply)
    requires Enabled(s, PollTicked(id, reply))
    ensures var t := Next(s, PollTicked(id, reply));
      && (reply == PollStatus("SUCCESS") ==> t.step == Success && id !in t.liveIntervals && t.pollingInterval == None)
      && (reply == PollStatus("FAILED") ==> t.step == Failed && id !in t.liveIntervals && t.pollingInterval == None)
      && (reply != PollStatus("SUCCESS") && reply != PollStatus("FAILED") ==> t == s)
      && t.pendingTimeouts == s.pendingTimeouts
  {
  }

  /**
   * The timeout always sets failed, whatever the step: the id it checks is
   * a timer handle, never 0. It also ends whatever polling is live, even
   * when it was scheduled by an earlier, already settled polling: the
   * cell's cleanup clears the current interval.
   */
  lemma TimeoutAlwaysFails(s: PageState)
    requires Inv(s) && Enabled(s, TimeoutFired)
    ensures Next(s, TimeoutFired).step == Failed
    ensures Next(s, TimeoutFired).liveIntervals == {}
    ensures Next(s, TimeoutFired).pollingInterval == None
  {
  }

  /**
   * A payment the poll has already reported as successful is still turned
   * into a failure: the timeout scheduled with the interval is never
   * cancelled and fires later.
   */
  lemma SettledPaymentStillTimesOut(s: PageState, id: nat)
    requires Inv(s) && id in s.liveIntervals
    ensures var t := Next(s, PollTicked(id, PollStatus("SUCCESS")));
      && t.step == Success
      && Enabled(t, TimeoutFired)
      && Next(t, TimeoutFired).step == Failed
  {
    var t := Next(s, PollTicked(id, PollStatus("SUCCESS")));
    assert id in t.pendingTimeouts;
    NextKeepsInv(s, PollTicked(id, PollStatus("SUCCESS")));
  }

  // ----- the component -----

  class CashfreeCheckout {
    var step: Step
    var loading: bool
    var selectedMethod: Option<string>
    var orderData: Option<OrderData>
    var paymentResponse: Option<PaymentReply>
    var pollingInterval: Option<nat>
    var customerDetails: map<string, JsValue>
    var paymentData: map<string, JsValue>
    var pending: Pending
    var liveIntervals: set<nat>
    var pendingTimeouts: seq<nat>
    var nextTimerId: nat

    function State(): PageState
      reads this
    {
      PageState(step, loading, selectedMethod, orderData, paymentResponse, pollingInterval,
                customerDetails, paymentData, pending, liveIntervals, pendingTimeouts, nextTimerId)
    }

    predicate Valid()
      reads this
    {
      Inv(State())
    }

    constructor ()
      ensures Valid() && State() == InitialState()
    {
      step := Initial;
      loading := false;
      selectedMethod := None;
      orderData := None;
      paymentResponse := None;
      pollingInterval := None;
      customerDetails := map["customerName" := Text(""), "customerEmail" := Text(""), "customerPhone" := Text("")];
      paymentData := map["upiId" := Text(""), "cardNumber" := Text(""), "cardHolderName" := Text(""),
                         "expiryMonth" := Text(""), "expiryYear" := Text(""), "cvv" := Text(""),
                         "bankCode" := Text(""), "walletProvider" := Text("")];
      pending := NoRequest;
      liveIntervals := {};
      pendingTimeouts := [];
      nextTimerId := 1;
    }

    /** `handlePayNowClick`. */
    method HandlePayNowClick()
      requires Valid() && Enabled(State(), PayNowClicked)
      modifies this
      ensures Valid() && State() == Next(old(State()), PayNowClicked)
    {
      step := CustomerDetails;
      NextKeepsInv(old(State()), PayNowClicked);
    }

    /** The back buttons of the details and checkout views. */
    method ClickBack()
      requires Valid() && Enabled(State(), BackClicked)
      modifies this
      ensures Valid() && State() == Next(old(State()), BackClicked)
    {
      if step == CustomerDetails {
        step := Initial;
      } else {
        step := CustomerDetails;
      }
      NextKeepsInv(old(State()), BackClicked);
    }

    /** The Done button of the success view. */
    method ClickDone()
      requires Valid() && Enabled(State(), DoneClicked)
      modifies this
      ensures Valid() && State() == Next(old(State()), DoneClicked)
    {
      step := Initial;
      NextKeepsInv(old(State()), DoneClicked);
    }

    /** The Try Again button of the failure view. */
    method ClickTryAgain()
      requires Valid() && Enabled(State(), TryAgainClicked)
      modifies this
      ensures Valid() && State() == Next(old(State()), TryAgainClicked)
    {
      step := Checkout;
      NextKeepsInv(old(State()), TryAgainClicked);
    }

    /** `handleInputChange(field, value)`. */
    method HandleInputChange(field: string, value: JsValue)
      requires Valid() && Enabled(State(), InputChanged(field, value))
      modifies this
      ensures Valid() && State() == Next(old(State()), InputChanged(field, value))
    {
      if StartsWith(field, "customer") {
        customerDetails := customerDetails[field := value];
      } else {
        paymentData := paymentData[field := value];
      }
      NextKeepsInv(old(State()), InputChanged(field, value));
    }

    /** `handleCustomerDetailsSubmit` up to its request: the checks, then loading. */
    method HandleCustomerDetailsSubmit() returns (alert: Option<string>)
      requires Valid() && Enabled(State(), DetailsSubmitted)
      modifies this
      ensures Valid() && State() == Next(old(State()), DetailsSubmitted)
      ensures alert == Alert(old(State()), DetailsSubmitted)
    {
      if !AllCustomerFieldsFilled(customerDetails) {
        return Some(FillAllMessage);
      }
      if !IsValidEmail(ToText(Lookup(customerDetails, "customerEmail"))) {
        return Some(InvalidEmailMessage);
      }
      if !IsValidPhone(ToText(Lookup(customerDetails, "customerPhone"))) {
        return Some(InvalidPhoneMessage);
      }
      alert := None;
      loading := true;
      pending := OrderRequest;
      NextKeepsInv(old(State()), DetailsSubmitted);
    }

    /** `handleCustomerDetailsSubmit` after its request: the try, catch and finally blocks. */
    method ReceiveOrderReply(reply: OrderReply) returns (alert: Option<string>)
      requires Valid() && Enabled(State(), OrderAnswered(reply))
      modifies this
      ensures Valid() && State() == Next(old(State()), OrderAnswered(reply))
      ensures alert == Alert(old(State()), OrderAnswered(reply))
    {
      pending := NoRequest;
      alert := None;
      match reply {
        case OrderCreated(d) =>
          orderData := Some(d);
          step := Checkout;
        case OrderRequestFailed =>
          alert := Some(OrderFailedMessage);
      }
      loading := false;
      NextKeepsInv(old(State()), OrderAnswered(reply));
    }

    /** `handlePaymentMethodClick(methodId)`. */
    method HandlePaymentMethodClick(methodId: string)
      requires Valid() && Enabled(State(), MethodClicked(methodId))
      modifies this
      ensures Valid() && State() == Next(old(State()), MethodClicked(methodId))
    {
      selectedMethod := Some(methodId);
      NextKeepsInv(old(State()), MethodClicked(methodId));
    }

    /**
     * `handlePaymentSubmit` up to its request: the switch over the selected
     * method, then loading and processing.
     */
    method HandlePaymentSubmit() returns (alert: Option<string>)
      requires Valid() && Enabled(State(), PaymentSubmitted)
      modifies this
      ensures Valid() && State() == Next(old(State()), PaymentSubmitted)
      ensures alert == Alert(old(State()), PaymentSubmitted)
    {
      var isValid := true;
      var errorMsg := "";
      var upi := Lookup(paymentData, "upiId");
      if selectedMethod == Some("upi") {
        UpiCheckMatchesPattern(ToText(upi));
        UpiPatternImpliesTruthy(upi);
        if !Truthy(upi) || !IsValidUpi(ToText(upi)) {
          isValid, errorMsg := false, InvalidUpiMessage;
        }
      } else if selectedMethod == Some("card") {
        if !AllCardFieldsFilled(paymentData) {
          isValid, errorMsg := false, IncompleteCardMessage;
        }
      } else if selectedMethod == Some("netbanking") {
        if !Truthy(Lookup(paymentData, "bankCode")) {
          isValid, errorMsg := false, NoBankMessage;
        }
      } else if selectedMethod == Some("wallet") {
        if !Truthy(Lookup(paymentData, "walletProvider")) {
          isValid, errorMsg := false, NoWalletMessage;
        }
      }
      if !isValid {
        return Some(errorMsg);
      }
      alert := None;
      loading := true;
      step := Processing;
      if orderData.None? {
        // the request body reads the id of a missing order: caught, then finally
        step := Failed;
        loading := false;
      } else {
        pending := PaymentRequest;
      }
      NextKeepsInv(old(State()), PaymentSubmitted);
    }

    /** `handlePaymentSubmit` after its request: the try, catch and finally blocks. */
    method ReceivePaymentReply(outcome: PaymentOutcome)
      requires Valid() && Enabled(State(), PaymentAnswered(outcome))
      modifies this
      ensures Valid() && State() == Next(old(State()), PaymentAnswered(outcome))
    {
      pending := NoRequest;
      match outcome {
        case PaymentRequestFailed =>
          step := Failed;
          loading := false;
        case PaymentReplied(r) =>
          ApplyPaymentReply(r);
      }
      NextKeepsInv(old(State()), PaymentAnswered(outcome));
    }

    /**
     * The try block once the reply is in, with the `finally` that follows.
     * The 3-D Secure branch does not return, so the steps written after it
     * replace its write.
     */
    method ApplyPaymentReply(r: PaymentReply)
      modifies this
      ensures var t := old(State()).(paymentResponse := Some(r), loading := false);
        State() == if r.requiresPolling then StartPolling(t)
                   else t.(step := if r.paymentStatus == "SUCCESS" then Success else Failed)
    {
      paymentResponse := Some(r);
      if r.requiresRedirect && r.redirectUrl != "" {
        // the page starts navigating away; the value of that assignment is
        // the non-empty URL, so the popup warning branch is not taken
        step := ThreeDsPending;
        loading := false;
      }
      if r.requiresPolling {
        loading := false;
        StartPaymentStatusPolling();
        // `return` inside `try` still runs `finally`
        loading := false;
        return;
      }
      if r.paymentStatus == "SUCCESS" {
        step := Success;
      } else {
        step := Failed;
      }
      loading := false;
    }

    /** `setPollingInterval(v)` and the cleanup of the effect on that cell. */
    method SetPollingInterval(v: Option<nat>)
      modifies this
      ensures State() == WithPollingInterval(old(State()), v)
    {
      if pollingInterval.Some? && pollingInterval != v {
        liveIntervals := liveIntervals - {pollingInterval.value};
      }
      pollingInterval := v;
    }

    /** `startPaymentStatusPolling`: a new interval and a timeout that captures it. */
    method StartPaymentStatusPolling()
      modifies this
      ensures State() == StartPolling(old(State()))
    {
      step := Processing;
      var interval := nextTimerId;
      nextTimerId := nextTimerId + 1;
      liveIntervals := liveIntervals + {interval};
      SetPollingInterval(Some(interval));
      pendingTimeouts := pendingTimeouts + [interval];
    }

    /** One call of the interval callback with the status it read. */
    method PollTick(interval: nat, reply: PollReply)
      requires Valid() && Enabled(State(), PollTicked(interval, reply))
      modifies this
      ensures Valid() && State() == Next(old(State()), PollTicked(interval, reply))
    {
      if reply.PollStatus? && reply.paymentStatus == "SUCCESS" {
        liveIntervals := liveIntervals - {interval};
        SetPollingInterval(None);
        step := Success;
      } else if reply.PollStatus? && reply.paymentStatus == "FAILED" {
        liveIntervals := liveIntervals - {interval};
        SetPollingInterval(None);
        step := Failed;
      }
      NextKeepsInv(old(State()), PollTicked(interval, reply));
    }

    /** The earliest scheduled timeout fires. */
    method FireTimeout()
      requires Valid() && Enabled(State(), TimeoutFired)
      modifies this
      ensures Valid() && State() == Next(old(State()), TimeoutFired)
    {
      var interval := pendingTimeouts[0];
      pendingTimeouts := pendingTimeouts[1..];
      if interval != 0 {
        liveIntervals := liveIntervals - {interval};
        SetPollingInterval(None);
        step := Failed;
      }
      NextKeepsInv(old(State()), TimeoutFired);
    }
  }
}
