/**
 * The page the payment gateway sends the customer back to
 * (`PaymentResponse`): on mount it reads `order_id` from the query string,
 * asks the backend for the order's status, classifies the answer and shows
 * one of four screens.
 *
 * The three state cells form a ReturnState. The request is an output of
 * Mount and its answer an input of VerifyPayment.
 */
module PaymentResponse {
  import opened JsValues

  const NoOrderIdMessage := "No order ID found"
  const VerifyFailedMessage := "Failed to verify payment"
  const VerifyStatusFailedMessage := "Failed to verify payment status"
  const DefaultFailureMessage := "Your payment could not be processed"

  datatype PaymentStatus = Loading | Success | Pending | Failed | Unknown | Error

  /** The order record of a successful answer, as far as the page reads it. */
  datatype OrderDetails = OrderDetails(orderId: JsValue, orderAmount: JsValue, orderStatus: JsValue)

  /**
   * The outcome of the status request: an answer whose body carries a
   * `status` and possibly a `data` record, or a rejected request with the
   * `message` of its error body (undefined when there is none).
   */
  datatype VerifyReply =
    | Answered(status: JsValue, data: Option<OrderDetails>)
    | RequestFailed(message: JsValue)

  /** The state cells; `null` in `error` reads as Undefined (both are falsy). */
  datatype ReturnState = ReturnState(paymentStatus: PaymentStatus, orderDetails: Option<OrderDetails>, error: JsValue)

  function InitialReturnState(): ReturnState
  {
    ReturnState(Loading, None, Undefined)
  }

  /**
   * The order id the mount effect verifies, or None when `order_id` is
   * absent or empty (a falsy string).
   */
  function OrderIdToVerify(orderIdParam: Option<string>): (r: Option<string>)
    ensures r.None? <==> (orderIdParam.None? || orderIdParam == Some(""))
    ensures r.Some? ==> r == orderIdParam && r.value != ""
  {
    if orderIdParam.Some? && orderIdParam.value != "" then orderIdParam else None
  }

  /** The payment status a successful answer's `order_status` selects. */
  function Classify(orderStatus: JsValue): (r: PaymentStatus)
    ensures r == Success <==> orderStatus == Text("PAID")
    ensures r == Pending <==> orderStatus == Text("ACTIVE")
    ensures r == Failed <==> (orderStatus == Text("EXPIRED") || orderStatus == Text("TERMINATED"))
    ensures r == Unknown <==>
      !(orderStatus in {Text("PAID"), Text("ACTIVE"), Text("EXPIRED"), Text("TERMINATED")})
    ensures r != Loading && r != Error
  {
    if orderStatus == Text("PAID") then Success
    else if orderStatus == Text("ACTIVE") then Pending
    else if orderStatus == Text("EXPIRED") || orderStatus == Text("TERMINATED") then Failed
    else Unknown
  }

  /** Whether an answer is a `status === 'success'` envelope. */
  predicate IsSuccessEnvelope(reply: VerifyReply)
  {
    reply.Answered? && reply.status == Text("success")
  }

  /**
   * The state `verifyPayment` leaves. A success envelope without `data`
   * stores the missing record and then fails reading its `order_status`;
   * the TypeError has no `response`, so the generic message is shown.
   */
  function AfterVerify(s: ReturnState, reply: VerifyReply): ReturnState
  {
    match reply
    case Answered(status, data) =>
      if status == Text("success") then
        if data.Some? then s.(orderDetails := data, paymentStatus := Classify(data.value.orderStatus))
        else s.(orderDetails := None, paymentStatus := Error, error := Text(VerifyStatusFailedMessage))
      else s.(paymentStatus := Error, error := Text(VerifyFailedMessage))
    case RequestFailed(message) =>
      s.(paymentStatus := Error, error := if Truthy(message) then message else Text(VerifyStatusFailedMessage))
  }

  /** What each verification outcome leaves in the three cells. */
  lemma VerifyOutcome(s: ReturnState, reply: VerifyReply)
    ensures var t := AfterVerify(s, reply);
      && t.paymentStatus != Loading
      && (IsSuccessEnvelope(reply) && reply.data.Some? ==>
            t.orderDetails == reply.data && t.paymentStatus == Classify(reply.data.value.orderStatus) && t.error == s.error)
      && (t.paymentStatus == Error <==> !(IsSuccessEnvelope(reply) && reply.data.Some?))
      && (s.orderDetails.None? && t.orderDetails.Some? ==> IsSuccessEnvelope(reply) && t.orderDetails == reply.data)
      && (!IsSuccessEnvelope(reply) ==> t.orderDetails == s.orderDetails)
      && (reply.Answered? && !IsSuccessEnvelope(reply) ==> t.error == Text(VerifyFailedMessage))
      && (reply.RequestFailed? ==>
            t.error == (if Truthy(reply.message) then reply.message else Text(VerifyStatusFailedMessage)))
      && (t.paymentStatus == Error ==> Truthy(t.error))
  {
  }

  /** The four screens; the failure screen carries the message it shows. */
  datatype Screen = VerifyingScreen | SuccessScreen | PendingScreen | FailureScreen(message: string)

  /**
   * The render branches: loading, success and pending have their own
   * screen, every other status falls through to the failure screen, which
   * shows `error` or, when that is falsy, a fixed message.
   */
  function ScreenFor(s: ReturnState): (sc: Screen)
    ensures s.paymentStatus == Loading <==> sc == VerifyingScreen
    ensures s.paymentStatus == Success <==> sc == SuccessScreen
    ensures s.paymentStatus == Pending <==> sc == PendingScreen
    ensures sc.FailureScreen? <==> s.paymentStatus in {Failed, Unknown, Error}
    ensures sc.FailureScreen? ==> sc.message == (if Truthy(s.error) then ToText(s.error) else DefaultFailureMessage)
    ensures sc.FailureScreen? ==> sc.message != ""
  {
    match s.paymentStatus
    case Loading => VerifyingScreen
    case Success => SuccessScreen
    case Pending => PendingScreen
    case _ => FailureScreen(if Truthy(s.error) then ToText(s.error) else DefaultFailureMessage)
  }

  /** `useEffect` on mount: the state it leaves and the order id it verifies, if any. */
  function AfterMount(s: ReturnState, orderIdParam: Option<string>): ReturnState
  {
    if OrderIdToVerify(orderIdParam).None? then s.(paymentStatus := Error, error := Text(NoOrderIdMessage)) else s
  }

  /** The screen the page settles on for a query parameter and, when one is sent, the answer to the request. */
  function FinalScreen(orderIdParam: Option<string>, reply: VerifyReply): Screen
  {
    var mounted := AfterMount(InitialReturnState(), orderIdParam);
    ScreenFor(if OrderIdToVerify(orderIdParam).None? then mounted else AfterVerify(mounted, reply))
  }

  /**
   * The whole return flow as one total mapping from the query parameter and
   * the answer to the screen shown.
   */
  lemma ReturnFlow(orderIdParam: Option<string>, reply: VerifyReply)
    ensures var sc := FinalScreen(orderIdParam, reply);
      var requested := orderIdParam.Some? && orderIdParam.value != "";
      && (!requested ==> sc == FailureScreen(NoOrderIdMessage))
      && (requested && IsSuccessEnvelope(reply) && reply.data.Some? ==>
            sc == match Classify(reply.data.value.orderStatus)
                  case Success => SuccessScreen
                  case Pending => PendingScreen
                  case _ => FailureScreen(DefaultFailureMessage))
      && (requested && IsSuccessEnvelope(reply) && reply.data.None? ==> sc == FailureScreen(VerifyStatusFailedMessage))
      && (requested && reply.Answered? && !IsSuccessEnvelope(reply) ==> sc == FailureScreen(VerifyFailedMessage))
      && (requested && reply.RequestFailed? ==>
            sc == FailureScreen(if Truthy(reply.message) then ToText(reply.message) else VerifyStatusFailedMessage))
      && sc != VerifyingScreen
  {
    var mounted := AfterMount(InitialReturnState(), orderIdParam);
    if OrderIdToVerify(orderIdParam).Some? {
      VerifyOutcome(mounted, reply);
    }
  }

  class PaymentReturnPage {
    var paymentStatus: PaymentStatus
    var orderDetails: Option<OrderDetails>
    var error: JsValue

    function State(): ReturnState
      reads this
    {
      ReturnState(paymentStatus, orderDetails, error)
    }

    constructor ()
      ensures State() == InitialReturnState()
    {
      paymentStatus := Loading;
      orderDetails := None;
      error := Undefined;
    }

    /** The mount effect; `request` is the order id sent to the status endpoint. */
    method Mount(orderIdParam: Option<string>) returns (request: Option<string>)
      modifies this
      ensures request == OrderIdToVerify(orderIdParam)
      ensures State() == AfterMount(old(State()), orderIdParam)
    {
      if orderIdParam.None? || orderIdParam.value == "" {
        paymentStatus := Error;
        error := Text(NoOrderIdMessage);
        return None;
      }
      request := orderIdParam;
    }

    /** `verifyPayment` once the request has settled. */
    method VerifyPayment(reply: VerifyReply)
      modifies this
      ensures State() == AfterVerify(old(State()), reply)
    {
      match reply {
        case Answered(status, data) =>
          if status == Text("success") {
            orderDetails := data;
            if data.None? {
              // reading `order_status` of the missing record throws
              paymentStatus := Error;
              error := Text(VerifyStatusFailedMessage);
              return;
            }
            var orderStatus := data.value.orderStatus;
            if orderStatus == Text("PAID") {
              paymentStatus := Success;
            } else if orderStatus == Text("ACTIVE") {
              paymentStatus := Pending;
            } else if orderStatus == Text("EXPIRED") || orderStatus == Text("TERMINATED") {
              paymentStatus := Failed;
            } else {
              paymentStatus := Unknown;
            }
          } else {
            paymentStatus := Error;
            error := Text(VerifyFailedMessage);
          }
        case RequestFailed(message) =>
          paymentStatus := Error;
          error := if Truthy(message) then message else Text(VerifyStatusFailedMessage);
      }
    }
  }
}
