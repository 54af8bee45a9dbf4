/** The order routes: the eligibility rules the order page shows, the
    amounts the capture and refund actions request, and the create, capture,
    refund and cancel pipelines over the local store.

    Every gateway call is abstracted: a pipeline receives, as parameters, the
    results the provider would give to each call it may issue (`None` for a
    failed call) and returns the list of calls it actually issued, so that
    what is called, with what, and in what order is part of its contract. */
module OrderRoutes {
  import opened Wrappers
  import opened Records
  import opened Services

  /** The body of the order-creation request. */
  datatype OrderRequest = OrderRequest(
    locale: string,
    purchase_country: string,
    purchase_currency: string,
    merchant_reference1: Option<string>,
    order_amount: int,
    order_tax_amount: int,
    order_lines: seq<OrderLine>)

  /** What a capture, refund or cancel call answers: only an HTTP status,
      never the order's new state. */
  datatype Acknowledgement = Acknowledgement(httpStatus: int)

  /** A call to the payment provider, with the arguments that matter. An
      amount is `None` when the subtraction that computes it is NaN in the
      source (an operand absent). */
  datatype Call =
    | GetSessionDetail(sessionId: string)
    | CreateOrderCall(authorizationToken: string, request: OrderRequest)
    | GetOrderDetail(orderId: string)
    | CaptureOrder(orderId: string, capturedAmount: Option<int>)
    | RefundOrder(orderId: string, refundedAmount: Option<int>)
    | CancelOrder(orderId: string)

  /** How a handler ends: a redirect with its HTTP status, or an exception
      thrown out of the handler (a re-fetch that came back absent is
      dereferenced), after which no reply is sent. */
  datatype Reply = Redirect(location: string, code: int) | Unhandled

  /** The status code of a plain `res.redirect(url)`. */
  const Found := 302

  /** The provider's status for a cancelled order. */
  const Cancelled := "CANCELLED"

  /** A capture is offered while part of the order amount is uncaptured and
      the order is not cancelled. */
  predicate CanCapture(o: Order) {
    && o.order_amount.Some? && o.captured_amount.Some?
    && o.order_amount.value > o.captured_amount.value
    && o.status != Some(Cancelled)
  }

  /** A cancel is offered while nothing has been captured and the order is
      not cancelled. */
  predicate CanCancel(o: Order) {
    o.captured_amount == Some(0) && o.status != Some(Cancelled)
  }

  /** A refund is offered while part of the captured amount is unrefunded and
      the order is not cancelled. */
  predicate CanRefund(o: Order) {
    && o.captured_amount.Some? && o.refunded_amount.Some?
    && o.captured_amount.value > o.refunded_amount.value
    && o.status != Some(Cancelled)
  }

  /** The amounts the provider promises: all present, and
      0 <= refunded <= captured <= ordered. */
  predicate ProviderConsistent(o: Order) {
    && o.order_amount.Some? && o.captured_amount.Some? && o.refunded_amount.Some?
    && 0 <= o.refunded_amount.value <= o.captured_amount.value <= o.order_amount.value
  }

  /** The amount the capture action requests: the whole uncaptured balance. */
  function CaptureAmount(o: Order): (r: Option<int>)
    ensures r.Some? <==> o.order_amount.Some? && o.captured_amount.Some?
    ensures r.Some? ==> o.captured_amount.value + r.value == o.order_amount.value
    ensures CanCapture(o) ==> r.Some? && r.value > 0
  {
    if o.order_amount.Some? && o.captured_amount.Some? then
      Some(o.order_amount.value - o.captured_amount.value)
    else
      None
  }

  /** The amount the refund action requests: the whole unrefunded captured balance. */
  function RefundAmount(o: Order): (r: Option<int>)
    ensures r.Some? <==> o.captured_amount.Some? && o.refunded_amount.Some?
    ensures r.Some? ==> o.refunded_amount.value + r.value == o.captured_amount.value
    ensures CanRefund(o) ==> r.Some? && r.value > 0
  {
    if o.captured_amount.Some? && o.refunded_amount.Some? then
      Some(o.captured_amount.value - o.refunded_amount.value)
    else
      None
  }

  /** The update a pipeline derives from a re-fetched order. */
  function OrderUpdateFrom(d: Order): OrderUpdate {
    OrderUpdate(d.status, d.order_amount, d.captured_amount, d.refunded_amount)
  }

  /** The update a pipeline derives from a re-fetched session. */
  function SessionUpdateFrom(d: Session): SessionUpdate {
    SessionUpdate(d.status, d.authorization_token)
  }

  /** A cancelled order is offered no action at all. */
  lemma CancelledOffersNothing(o: Order)
    requires o.status == Some(Cancelled)
    ensures !CanCapture(o) && !CanCancel(o) && !CanRefund(o)
  {
  }

  /** For an order in a state the provider can produce, cancel and refund
      are never offered together, and capture is offered exactly when the
      order is live and not fully captured. */
  lemma OffersOnProviderState(o: Order)
    requires ProviderConsistent(o)
    ensures !(CanCancel(o) && CanRefund(o))
    ensures CanCapture(o) <==> o.status != Some(Cancelled) && CaptureAmount(o).value > 0
    ensures CanRefund(o) <==> o.status != Some(Cancelled) && RefundAmount(o).value > 0
  {
  }

  /** The common tail of the capture, refund and cancel handlers: re-fetch
      the order and copy its fields into the store; an absent re-fetch is
      dereferenced and throws before the store is touched. */
  method ReloadOrder(svc: KlarnaService, orderId: string, detail: Option<Order>) returns (reply: Reply)
    modifies svc
    ensures detail.None? ==> reply == Unhandled && svc.orders == old(svc.orders)
    ensures detail.Some? ==>
      && reply == Redirect("/order/" + orderId, Found)
      && svc.orders == UpdateOrders(old(svc.orders), orderId, OrderUpdateFrom(detail.value))
    ensures svc.sessions == old(svc.sessions)
  {
    if detail.None? {
      return Unhandled;
    }
    svc.UpdateOrder(orderId, OrderUpdateFrom(detail.value));
    reply := Redirect("/order/" + orderId, Found);
  }

  /** POST /order/:id/capture. `before` is the pre-capture fetch, `ack` the
      capture call's own result, which the handler awaits and ignores (no clause
      below mentions it), and `after` the re-fetch. */
  method PostCapture(svc: KlarnaService, orderId: string, before: Option<Order>, ack: Option<Acknowledgement>, after: Option<Order>)
    returns (calls: seq<Call>, reply: Reply)
    modifies svc
    ensures before.None? ==>
      calls == [GetOrderDetail(orderId)] && reply == Redirect("/", 404) && svc.orders == old(svc.orders)
    ensures before.Some? ==>
      calls == [GetOrderDetail(orderId), CaptureOrder(orderId, CaptureAmount(before.value)), GetOrderDetail(orderId)]
    ensures before.Some? && after.None? ==> reply == Unhandled && svc.orders == old(svc.orders)
    ensures before.Some? && after.Some? ==>
      && reply == Redirect("/order/" + orderId, Found)
      && svc.orders == UpdateOrders(old(svc.orders), orderId, OrderUpdateFrom(after.value))
    ensures svc.sessions == old(svc.sessions)
  {
    calls := [GetOrderDetail(orderId)];
    if before.None? {
      return calls, Redirect("/", 404);
    }
    calls := calls + [CaptureOrder(orderId, CaptureAmount(before.value))];
    calls := calls + [GetOrderDetail(orderId)];
    reply := ReloadOrder(svc, orderId, after);
  }

  /** POST /order/:id/refund. `before` is the pre-refund fetch, `ack` the
      refund call's own result, which the handler awaits and ignores (no clause
      below mentions it), and `after` the re-fetch. */
  method PostRefund(svc: KlarnaService, orderId: string, before: Option<Order>, ack: Option<Acknowledgement>, after: Option<Order>)
    returns (calls: seq<Call>, reply: Reply)
    modifies svc
    ensures before.None? ==>
      calls == [GetOrderDetail(orderId)] && reply == Redirect("/", 404) && svc.orders == old(svc.orders)
    ensures before.Some? ==>
      calls == [GetOrderDetail(orderId), RefundOrder(orderId, RefundAmount(before.value)), GetOrderDetail(orderId)]
    ensures before.Some? && after.None? ==> reply == Unhandled && svc.orders == old(svc.orders)
    ensures before.Some? && after.Some? ==>
      && reply == Redirect("/order/" + orderId, Found)
      && svc.orders == UpdateOrders(old(svc.orders), orderId, OrderUpdateFrom(after.value))
    ensures svc.sessions == old(svc.sessions)
  {
    calls := [GetOrderDetail(orderId)];
    if before.None? {
      return calls, Redirect("/", 404);
    }
    calls := calls + [RefundOrder(orderId, RefundAmount(before.value))];
    calls := calls + [GetOrderDetail(orderId)];
    reply := ReloadOrder(svc, orderId, after);
  }

  /** POST /order/:id/cancel. `before` is the existence check, `ack` the
      cancel call's own result, which the handler awaits and ignores (no clause
      below mentions it), and `after` the re-fetch. */
  method PostCancel(svc: KlarnaService, orderId: string, before: Option<Order>, ack: Option<Acknowledgement>, after: Option<Order>)
    returns (calls: seq<Call>, reply: Reply)
    modifies svc
    ensures before.None? ==>
      calls == [GetOrderDetail(orderId)] && reply == Redirect("/", 404) && svc.orders == old(svc.orders)
    ensures before.Some? ==>
      calls == [GetOrderDetail(orderId), CancelOrder(orderId), GetOrderDetail(orderId)]
    ensures before.Some? && after.None? ==> reply == Unhandled && svc.orders == old(svc.orders)
    ensures before.Some? && after.Some? ==>
      && reply == Redirect("/order/" + orderId, Found)
      && svc.orders == UpdateOrders(old(svc.orders), orderId, OrderUpdateFrom(after.value))
    ensures svc.sessions == old(svc.sessions)
  {
    calls := [GetOrderDetail(orderId)];
    if before.None? {
      return calls, Redirect("/", 404);
    }
    calls := calls + [CancelOrder(orderId)];
    calls := calls + [GetOrderDetail(orderId)];
    reply := ReloadOrder(svc, orderId, after);
  }

  /** Both form fields are present and non-empty. */
  predicate HasOrderInputs(sessionId: Option<string>, authorizationToken: Option<string>) {
    TruthyText(sessionId) && TruthyText(authorizationToken)
  }

  /** POST /order/new. `sessionDetail` is the session fetch, `created` the
      order-creation result, `sessionRefetch` the second session fetch and
      `orderDetail` the fetch of the new order. */
  method PostNewOrder(svc: KlarnaService, sessionId: Option<string>, authorizationToken: Option<string>,
                      sessionDetail: Option<Session>, created: Option<Order>,
                      sessionRefetch: Option<Session>, orderDetail: Option<Order>)
    returns (calls: seq<Call>, reply: Reply)
    modifies svc
    // missing form fields: nothing is called and nothing changes
    ensures !HasOrderInputs(sessionId, authorizationToken) ==>
      calls == [] && reply == Redirect("/", Found) &&
      svc.sessions == old(svc.sessions) && svc.orders == old(svc.orders)
    // the session fetch failed: no order is requested and nothing changes
    ensures HasOrderInputs(sessionId, authorizationToken) && sessionDetail.None? ==>
      calls == [GetSessionDetail(sessionId.value)] && reply == Redirect("/", 404) &&
      svc.sessions == old(svc.sessions) && svc.orders == old(svc.orders)
    // the order request copies the seven cart fields of the fetched session
    ensures HasOrderInputs(sessionId, authorizationToken) && sessionDetail.Some? ==>
      var d := sessionDetail.value;
      |calls| >= 2 &&
      calls[..2] == [GetSessionDetail(sessionId.value),
                     CreateOrderCall(authorizationToken.value,
                       OrderRequest(d.locale, d.purchase_country, d.purchase_currency, d.merchant_reference1,
                                    d.order_amount, d.order_tax_amount, d.order_lines))]
    // order creation failed: no further call, nothing changes
    ensures HasOrderInputs(sessionId, authorizationToken) && sessionDetail.Some? && created.None? ==>
      |calls| == 2 && reply == Redirect("/", 500) &&
      svc.sessions == old(svc.sessions) && svc.orders == old(svc.orders)
    // order created: it is inserted, then the session is re-fetched
    ensures HasOrderInputs(sessionId, authorizationToken) && sessionDetail.Some? && created.Some? ==>
      |calls| >= 3 && calls[2] == GetSessionDetail(sessionId.value)
    ensures HasOrderInputs(sessionId, authorizationToken) && sessionDetail.Some? && created.Some? && sessionRefetch.None? ==>
      |calls| == 3 && reply == Unhandled &&
      svc.sessions == old(svc.sessions) && svc.orders == old(svc.orders) + [created.value]
    // session re-fetched: the session is updated from it, then the new order is fetched
    ensures HasOrderInputs(sessionId, authorizationToken) && sessionDetail.Some? && created.Some? && sessionRefetch.Some? ==>
      |calls| == 4 && calls[3] == GetOrderDetail(created.value.order_id) &&
      svc.sessions == UpdateSessions(old(svc.sessions), sessionId.value, SessionUpdateFrom(sessionRefetch.value))
    ensures HasOrderInputs(sessionId, authorizationToken) && sessionDetail.Some? && created.Some? && sessionRefetch.Some? && orderDetail.None? ==>
      reply == Unhandled && svc.orders == old(svc.orders) + [created.value]
    ensures HasOrderInputs(sessionId, authorizationToken) && sessionDetail.Some? && created.Some? && sessionRefetch.Some? && orderDetail.Some? ==>
      reply == Redirect("/", Found) &&
      svc.orders == UpdateOrders(old(svc.orders) + [created.value], created.value.order_id, OrderUpdateFrom(orderDetail.value))
  {
    if !TruthyText(sessionId) || !TruthyText(authorizationToken) {
      return [], Redirect("/", Found);
    }
    calls := [GetSessionDetail(sessionId.value)];
    if sessionDetail.None? {
      return calls, Redirect("/", 404);
    }
    var d := sessionDetail.value;
    var request := OrderRequest(d.locale, d.purchase_country, d.purchase_currency, d.merchant_reference1,
                                d.order_amount, d.order_tax_amount, d.order_lines);
    calls := calls + [CreateOrderCall(authorizationToken.value, request)];
    var response := svc.CreateOrder(created);
    if response.None? {
      return calls, Redirect("/", 500);
    }
    calls := calls + [GetSessionDetail(sessionId.value)];
    if sessionRefetch.None? {
      return calls, Unhandled;
    }
    svc.UpdateSession(sessionId.value, SessionUpdateFrom(sessionRefetch.value));
    var orderId := response.value.order_id;
    calls := calls + [GetOrderDetail(orderId)];
    if orderDetail.None? {
      return calls, Unhandled;
    }
    svc.UpdateOrder(orderId, OrderUpdateFrom(orderDetail.value));
    reply := Redirect("/", Found);
  }

  /** After a promotion, the session record carries the status last fetched
      from the provider (when non-empty) and `payment` mirrors it. */
  lemma PromotedSessionFollowsProvider(sessions: seq<Session>, sessionId: string, refetch: Session, i: int)
    requires 0 <= i < |sessions| && sessions[i].session_id == sessionId
    requires TruthyText(refetch.status)
    ensures var r := UpdateSessions(sessions, sessionId, SessionUpdateFrom(refetch));
      |r| == |sessions| && r[i].status == refetch.status && PaymentMirrorsStatus(r[i])
  {
    UpdateSessionsFrame(sessions, sessionId, SessionUpdateFrom(refetch), i);
    PatchSessionStatusRule(sessions[i], SessionUpdateFrom(refetch));
  }

  /** Capturing a fully captured order requests a capture of 0 rather than
      failing locally. */
  lemma FullyCapturedRequestsZero(o: Order)
    requires o.order_amount.Some? && o.captured_amount == o.order_amount
    ensures CaptureAmount(o) == Some(0) && !CanCapture(o)
  {
  }

  /** The full life of one order: a session of 18000 is created, promoted,
      captured, refunded and cancelled, with the provider answers this
      scenario assumes (including a cancel accepted on a captured order). After promotion the stored captured and
      refunded amounts stay absent, since the provider's 0 is falsy; the
      later non-zero values are copied. A capture attempted after the cancel
      is still sent, for 0. */
  method LifecycleScenario() returns (svc: KlarnaService, lastCalls: seq<Call>)
    ensures svc.orders == [Order("o1", Some(Cancelled), Some(18000), Some(18000), Some(18000))]
    ensures |svc.sessions| == 1 && svc.sessions[0].status == Some("complete")
    ensures svc.sessions[0].payment == Some(false) && svc.sessions[0].authorization_token == Some("auth")
    ensures lastCalls == [GetOrderDetail("o1"), CaptureOrder("o1", Some(0)), GetOrderDetail("o1")]
  {
    svc := new KlarnaService(None, None);
    var cart := Session("s1", Some("client"), None, None, None, "en-US", "US", "USD", Some("ref"), 18000, 2000, []);
    var session := svc.CreateSession(Some(cart));
    assert svc.sessions == [Stamp(cart)];

    var authorized := Order("o1", Some("AUTHORIZED"), Some(18000), Some(0), Some(0));
    var calls, reply := PostNewOrder(svc, Some("s1"), Some("auth"), Some(cart), Some(Order("o1", None, None, None, None)),
                                     Some(cart.(status := Some("complete"), authorization_token := Some("auth"))),
                                     Some(authorized));
    assert svc.orders == [Order("o1", Some("AUTHORIZED"), Some(18000), None, None)];

    var captured := Order("o1", Some("CAPTURED"), Some(18000), Some(18000), Some(0));
    calls, reply := PostCapture(svc, "o1", Some(authorized), None, Some(captured));
    assert calls[1] == CaptureOrder("o1", Some(18000));
    assert svc.orders == [Order("o1", Some("CAPTURED"), Some(18000), Some(18000), None)];

    var refunded := captured.(refunded_amount := Some(18000));
    calls, reply := PostRefund(svc, "o1", Some(captured), None, Some(refunded));
    assert calls[1] == RefundOrder("o1", Some(18000));

    var cancelled := refunded.(status := Some(Cancelled));
    calls, reply := PostCancel(svc, "o1", Some(refunded), None, Some(cancelled));
    CancelledOffersNothing(cancelled);

    lastCalls, reply := PostCapture(svc, "o1", Some(cancelled), None, Some(cancelled));
  }
}
