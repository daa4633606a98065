# Cashfree custom checkout: a Dafny model of the two checkout components

The repository is a demo checkout built on the Cashfree payment gateway.
Its logic sits in two React components.

- **`PaymentPage.jsx`** (`CustomCashfreeCheckout`) walks the customer through several steps:
  - a landing page;
  - a customer-details form;
  - a checkout view with four payment methods (UPI, net banking, card, wallet);
  - a processing screen, which may poll the payment's status;
  - a success or failure screen.
- **`PaymentResponse.jsx`** is the page the gateway sends the customer back to. It reads `order_id` from the query string, asks the backend for the order's status, classifies the answer and shows one of four screens.

The model has five modules, one per file.

- **`JsValues`** (`js_values.dfy`): the JavaScript semantics the components rely on.
  - Truthiness of `undefined`, strings and numbers.
  - `ToString`.
  - The `\s` class of ECMA-262 section 12.2 (white space) and the line terminators of section 12.3, which `.` does not match.
  - `startsWith` and `indexOf`.
- **`CardFormat`** (`card_format.dfy`): `formatCardNumber`, written step by step as the source does it. This is `replace(/\s/g, '')`, then `match(/.{1,4}/g)`, the optional-chained `join(' ')` and the `|| cleaned` fallback. It is proved equal to a reference layout, `Grouped` (blocks of four joined by single spaces), and the proofs cover:
  - the round trip through removing the spaces;
  - the exact length and the position of every space and character;
  - the blank cases;
  - idempotence.
- **`Validation`** (`validation.dfy`): the input checks.
  - The email and UPI expressions appear twice: as a predicate describing the pattern as written, and as a direct string check. A lemma proves the two agree on every string. The phone expression is read directly as `IsValidPhone`: exactly ten ASCII digits.
  - On top of these sit the ordered customer-details checks and the per-method payment checks, with their exact alert texts.
- **`PaymentPage`** (`payment_page.dfy`): the checkout step machine.
  - **State and events.** The component's state cells, plus the browser state the handlers depend on, form a `PageState`. That browser state is: the request a suspended `async` handler waits for, the live polling intervals, the scheduled timeouts and the next timer handle. `Next` gives the effect of an event and `Enabled` says when the page lets it happen.
  - **Async handlers.** Each one is two events: the part up to its `await`, and the continuation when the reply arrives.
  - **Replies and timers** are event parameters, given in sequence.
  - **The class.** `CashfreeCheckout` holds the same cells as fields. Its methods run each handler setter by setter, in the source's order. Each is proved to reach exactly the state `Next` gives, so later writes replace earlier ones as with React's batching; the `3ds-pending` write overwritten by the later steps is one case.
  - **Invariant.** `Inv` is preserved by every event. `ReachableStates` shows what holds after any admissible sequence of events from the initial state.
- **`PaymentResponse`** (`payment_response.dfy`): the return page.
  - The classifier of `order_status`.
  - The state `verifyPayment` leaves, and the screen a state selects.
  - `ReturnFlow`: one total mapping from the query parameter and the backend's answer to the screen shown.
  - The class `PaymentReturnPage` whose `Mount` and `VerifyPayment` follow the source's setter calls.

Behaviour of the source that the model makes explicit:

- **The pop-up warning is dead code.** In `handlePaymentSubmit` the branch at `PaymentPage.jsx:219-224` is never taken: `const authWindow = window.location.href = url` evaluates to the non-empty URL, which is truthy. The model leaves that branch out.
- **The timeout always fails the payment.** The timeout in `startPaymentStatusPolling` checks the captured interval handle, which is never 0, and it is never cancelled.
  - It sets the `failed` step even after a poll has reported `SUCCESS`, whatever screen the customer is on by then (`SettledPaymentStillTimesOut`).
  - It also stops a newer polling started after that success, through the effect cleanup below (`TimeoutAlwaysFails`).
- **The effect cleanup has a visible role.** The `useEffect` on `pollingInterval` clears the previous interval whenever that cell changes. The model includes it (`WithPollingInterval`), and with it proves that at most one interval is ever live, and only while the processing screen shows.
- **The `orderData.order_id` exception is modelled but never raised.** In `handlePaymentSubmit`, reading `orderData.order_id` with no order would throw a TypeError, which the `catch` turns into `failed`. The model keeps that path. `ReachableStates` proves it never happens: the checkout view is only reached once an order exists.

## Model

| member | source | states |
|---|---|---|
| CardFormat.FormatCardNumber | frontend/src/components/PaymentPage.jsx:371-375 | the strip, the `/.{1,4}/g` match, the optional-chained join and the fallback to the cleaned string, step by step; its meaning is given by FormatIsGrouped: the cleaned input in blocks of four separated by single spaces |
| CardFormat.FormatIsGrouped | frontend/src/components/PaymentPage.jsx:371-375 | the whitespace strip, the `/.{1,4}/g` match, the join and the fallback to the cleaned string together give the cleaned input in blocks of four separated by single spaces |
| CardFormat.FormatRoundTrip | frontend/src/components/PaymentPage.jsx:371-375 | removing the spaces (or all whitespace) from the formatted value gives back the input with all its whitespace removed |
| CardFormat.FormatShape | frontend/src/components/PaymentPage.jsx:371-375 | the formatted length is `n + (n-1)/4` for `n` non-white characters, and it is never a multiple of 5, so the last block has one to four characters |
| CardFormat.FormatChars | frontend/src/components/PaymentPage.jsx:371-375 | a position holds a space exactly when it is the fifth of its block; every other position holds the next cleaned input character, in order |
| CardFormat.FormatBlank | frontend/src/components/PaymentPage.jsx:371-375 | the result is `""` exactly for empty or all-whitespace input |
| CardFormat.FormatIdempotent | frontend/src/components/PaymentPage.jsx:371-375 | formatting a formatted value leaves it unchanged |
| CardFormat.MatchGroupsJoined | frontend/src/components/PaymentPage.jsx:373 | on a non-empty string without whitespace, the global match is non-null and its join is the grouped layout |
| CardFormat.StripWhitespace | frontend/src/components/PaymentPage.jsx:372 | the result holds no `\s` character and is no longer than its input |
| CardFormat.LeadingRun | frontend/src/components/PaymentPage.jsx:373 | one match of `.{1,4}` is the longest prefix of at most four characters without a line terminator |
| Validation.EmailCheckMatchesPattern | frontend/src/components/PaymentPage.jsx:78-79 | the email check accepts a string exactly when `^[^\s@]+@[^\s@]+\.[^\s@]+$` matches it: one `@`, a non-empty local part, a domain with an inner `.`, no whitespace |
| Validation.EmailCheckSound | frontend/src/components/PaymentPage.jsx:78-79 | every string the email check accepts matches the pattern |
| Validation.EmailCheckComplete | frontend/src/components/PaymentPage.jsx:78-79 | every string the pattern matches passes the email check |
| Validation.UpiCheckMatchesPattern | frontend/src/components/PaymentPage.jsx:156 | the UPI check accepts a string exactly when `^[a-zA-Z0-9._-]+@[a-zA-Z]{3,}$` matches it |
| Validation.UpiPatternImpliesTruthy | frontend/src/components/PaymentPage.jsx:156 | a value whose string form matches the UPI pattern is a non-empty string, so the `!paymentData.upiId` guard never decides alone |
| Validation.IsValidPhone | frontend/src/components/PaymentPage.jsx:84-85 | `/^[0-9]{10}$/` read directly: exactly ten characters, each an ASCII digit |
| Validation.CustomerDetailsError | frontend/src/components/PaymentPage.jsx:73-88 | any empty field gives "fill all"; otherwise a failed email pattern gives the email alert, then a failed 10-digit phone check the phone alert; no alert exactly when all three pass |
| Validation.PaymentMethodError | frontend/src/components/PaymentPage.jsx:154-185 | upi needs the UPI pattern, card all five card fields, netbanking a truthy bank code, wallet a truthy wallet; any other method, `null` included, passes |
| PaymentPage.Enabled | frontend/src/components/PaymentPage.jsx:386-789 | when the page lets an event happen: each button only in the view that renders it (Pay Now 405, Back 421 and 485, the method buttons 514, Done 756, Try Again 779), the two submit buttons also only while not loading (465-466, 641-642), the pay button only inside the selected method's panel, inputs only in the details and checkout views, a reply only to the awaited request, a tick only of a live interval, a timeout only when one is scheduled |
| PaymentPage.Next | frontend/src/components/PaymentPage.jsx:68-258 | the net effect of each handler on the cells, the last write to a cell winning; its meaning is given by NextKeepsInv, RunKeepsSound, ReachableStates and the per-event lemmas below, and every class method is proved to reach exactly this state |
| PaymentPage.WithPollingInterval | frontend/src/components/PaymentPage.jsx:377-383 | `setPollingInterval(v)` together with the cleanup of the effect on that cell: a change of value clears the interval the cell held before; with it NextKeepsInv proves that the only live interval is the one the cell holds |
| PaymentPage.Render | frontend/src/components/PaymentPage.jsx:386-789 | a step renders nothing exactly when it is `3ds-pending` |
| PaymentPage.NextKeepsInv | frontend/src/components/PaymentPage.jsx:14-258 | every enabled event keeps the invariant: loading exactly while a request is awaited, a selectable method, fresh positive timer handles, at most the one live interval held in `pollingInterval`, and its timeout still to come |
| PaymentPage.StartPollingKeepsInv | frontend/src/components/PaymentPage.jsx:115-148 | starting a poll keeps the invariant: the new handle is fresh and its timeout is scheduled last |
| PaymentPage.TimeoutKeepsInv | frontend/src/components/PaymentPage.jsx:141-147 | a firing timeout keeps the invariant |
| PaymentPage.NextKeepsSound | frontend/src/components/PaymentPage.jsx:14-258 | every enabled event keeps `3ds-pending` away and keeps the page on its first two steps until an order exists |
| PaymentPage.InitialIsSound | frontend/src/components/PaymentPage.jsx:14-38 | the initial cells meet the invariant |
| PaymentPage.RunKeepsSound | frontend/src/components/PaymentPage.jsx:14-258 | any admissible sequence of events keeps the invariant |
| PaymentPage.ReachableStates | frontend/src/components/PaymentPage.jsx:14-789 | from the initial state the page always renders a view; at most one interval is live, only on the processing screen; checkout, processing, success and failure are only reached with an order |
| PaymentPage.NavigationTransitions | frontend/src/components/PaymentPage.jsx:386-789 | Pay Now goes from initial to customer-details; Back goes from customer-details to initial and from checkout to customer-details; Done goes from success to initial; Try Again goes from failed to checkout; no other cell changes |
| PaymentPage.InputChangeSetsOneKey | frontend/src/components/PaymentPage.jsx:363-369 | exactly the given key changes, in `customerDetails` when the field name starts with `customer` and in `paymentData` otherwise; every other key of both records and every other cell is unchanged |
| PaymentPage.RejectedSubmitsChangeNothing | frontend/src/components/PaymentPage.jsx:72-188 | a details or payment submit leaves the page unchanged exactly when it raises an alert |
| PaymentPage.DetailsSubmitRound | frontend/src/components/PaymentPage.jsx:72-109 | a valid details submit sets loading; the reply then makes the step `checkout` and stores the order if one was created, or leaves the step with the order-failed alert; loading ends false |
| PaymentPage.PaymentSubmitRound | frontend/src/components/PaymentPage.jsx:150-258 | a valid payment submit shows processing; a polling reply stays at processing and starts exactly one new interval; otherwise `SUCCESS` gives success and anything else, or a thrown request, gives failed; never `3ds-pending`; loading ends false |
| PaymentPage.PollOutcome | frontend/src/components/PaymentPage.jsx:117-137 | a `SUCCESS` poll gives success and stops the interval, a `FAILED` poll gives failed and stops it, any other status or a poll error changes nothing |
| PaymentPage.TimeoutAlwaysFails | frontend/src/components/PaymentPage.jsx:141-147 | the timeout always sets failed and leaves no live interval, because the handle it checks is never 0 |
| PaymentPage.SettledPaymentStillTimesOut | frontend/src/components/PaymentPage.jsx:115-147 | after a poll reports success, the uncancelled timeout is still scheduled and turns the step into failed |
| PaymentPage.CashfreeCheckout.constructor | frontend/src/components/PaymentPage.jsx:14-38 | the initial cells: step initial, not loading, nothing selected, empty form records |
| PaymentPage.CashfreeCheckout.HandlePayNowClick | frontend/src/components/PaymentPage.jsx:68-70 | the new state is the Pay Now transition |
| PaymentPage.CashfreeCheckout.ClickBack | frontend/src/components/PaymentPage.jsx:416-486 | the new state is the Back transition of the current view |
| PaymentPage.CashfreeCheckout.ClickDone | frontend/src/components/PaymentPage.jsx:756 | the new state is the Done transition |
| PaymentPage.CashfreeCheckout.ClickTryAgain | frontend/src/components/PaymentPage.jsx:779 | the new state is the Try Again transition |
| PaymentPage.CashfreeCheckout.HandleInputChange | frontend/src/components/PaymentPage.jsx:363-369 | the new state is the input transition, keeping the invariant |
| PaymentPage.CashfreeCheckout.HandleCustomerDetailsSubmit | frontend/src/components/PaymentPage.jsx:72-90 | returns the alert of the ordered checks and reaches the submit transition |
| PaymentPage.CashfreeCheckout.ReceiveOrderReply | frontend/src/components/PaymentPage.jsx:92-108 | the try, catch and finally blocks reach the order-reply transition, with its alert |
| PaymentPage.CashfreeCheckout.HandlePaymentMethodClick | frontend/src/components/PaymentPage.jsx:111-113 | the new state is the method-selection transition |
| PaymentPage.CashfreeCheckout.HandlePaymentSubmit | frontend/src/components/PaymentPage.jsx:150-199 | the switch over the selected method returns its alert, then the state is the submit transition |
| PaymentPage.CashfreeCheckout.ReceivePaymentReply | frontend/src/components/PaymentPage.jsx:190-257 | the try, catch and finally blocks reach the payment-reply transition |
| PaymentPage.CashfreeCheckout.ApplyPaymentReply | frontend/src/components/PaymentPage.jsx:205-251 | the 3DS write is replaced by the polling or the status step; loading ends false |
| PaymentPage.CashfreeCheckout.SetPollingInterval | frontend/src/components/PaymentPage.jsx:377-383 | storing a new interval handle clears the previous one through the effect cleanup |
| PaymentPage.CashfreeCheckout.StartPaymentStatusPolling | frontend/src/components/PaymentPage.jsx:115-148 | processing, one new interval, and a timeout that captures it |
| PaymentPage.CashfreeCheckout.PollTick | frontend/src/components/PaymentPage.jsx:117-137 | the new state is the poll transition |
| PaymentPage.CashfreeCheckout.FireTimeout | frontend/src/components/PaymentPage.jsx:141-147 | the new state is the timeout transition |
| PaymentResponse.OrderIdToVerify | frontend/src/components/PaymentResponse.jsx:13-20 | a request is made exactly when `order_id` is present and non-empty, and it carries that id |
| PaymentResponse.Classify | frontend/src/components/PaymentResponse.jsx:34-43 | `PAID` gives success, `ACTIVE` pending, `EXPIRED` or `TERMINATED` failed, anything else unknown; never loading or error |
| PaymentResponse.VerifyOutcome | frontend/src/components/PaymentResponse.jsx:26-53 | a success envelope with data stores it and classifies it; every other answer gives error with a truthy message (`Failed to verify payment` for another envelope, the upstream message or `Failed to verify payment status` for a thrown request); order details are only ever set from a success envelope |
| PaymentResponse.AfterVerify | frontend/src/components/PaymentResponse.jsx:26-53 | the cells `verifyPayment` leaves for each answer; its meaning is given by VerifyOutcome: a success envelope with data stores and classifies it, every other answer gives error with a truthy message |
| PaymentResponse.AfterMount | frontend/src/components/PaymentResponse.jsx:11-20 | a missing or empty `order_id` sets error with `No order ID found`, otherwise the cells stay as they are; ReturnFlow shows no request follows in the first case |
| PaymentResponse.ScreenFor | frontend/src/components/PaymentResponse.jsx:65-209 | loading, success and pending have their own screens; failed, unknown and error fall through to the failure screen, which shows `error` or `Your payment could not be processed`, never an empty message |
| PaymentResponse.ReturnFlow | frontend/src/components/PaymentResponse.jsx:11-209 | the total mapping from the query parameter and the answer to the final screen, message included; the page never stays on the verifying screen |
| PaymentResponse.PaymentReturnPage.constructor | frontend/src/components/PaymentResponse.jsx:6-8 | status loading, no order details, no error |
| PaymentResponse.PaymentReturnPage.Mount | frontend/src/components/PaymentResponse.jsx:11-24 | a missing order id sets error with `No order ID found` and sends no request; otherwise the id is sent and nothing changes |
| PaymentResponse.PaymentReturnPage.VerifyPayment | frontend/src/components/PaymentResponse.jsx:26-53 | the new cells are those the verification outcome gives |

## Left out

- Network requests (axios): the order, payment and status replies are event parameters. A created order is taken to be an object; the model keeps its id and session id.
- `alert` and `console`: alerts are returned values; logging is not modelled.
- The JSX markup and styling. Two pieces of render wiring are also left out:
  - the `maxLength` limits of the inputs;
  - the `toUpperCase` applied to the card holder's name before it reaches `handleInputChange`.
  
  The value an input event carries is what the handler receives. For the card number, that value is what `formatCardNumber` returns.
- Real time: interval ticks and the 30-second timeout are discrete events in firing order. A poll tick and its reply are one atomic event, enabled only while its interval is live. The source's interval callback awaits its request, so a reply that arrives after its interval was cleared still runs the status branches. The model does not capture two consequences of that:
  - a `SUCCESS` reply arriving after the timeout turns `failed` back into `success`;
  - a reply of an old interval arriving after a new payment started polling stops the new interval through the cleanup.
- The `useEffect` cleanup on unmount; only its run on a change of `pollingInterval` is modelled.
- `window.location` navigation: the 3-D Secure redirect and the home and retry buttons of the return page. The unreachable pop-up warning branch after the redirect assignment is not written.
- The commented-out OTP handlers and view.
- The request URLs and bodies, including the status URL built from the captured `orderData` and `cfPaymentId`.
- Strings are sequences of Unicode code points; JavaScript's UTF-16 indexing differs only outside the Basic Multilingual Plane.
- `backend/server.js`, `backend/utils/ccavenueCrypto.js` and `frontend/src/App.js` are not part of this model. They hold HTTP relaying, foreign cryptographic calls and routing.
- PaymentResponse.VerifyOutcome: its statement that order details come only from a success envelope assumes they were empty before, as they are on mount.
