/** The local mirror store of the payment service: the `session` and `order`
    collections and the operations that insert, list and update them. The
    HTTP calls to the provider are not modelled; each operation that follows
    one receives its outcome (`None` for a failed call) as a parameter. */
module Services {
  import opened Wrappers
  import opened Records
  import opened Collection

  /** The `findAndUpdate` filter `{ session_id: sessionId }`. */
  function SessionKey(sessionId: string): Session -> bool {
    (s: Session) => s.session_id == sessionId
  }

  /** The `findAndUpdate` filter `{ order_id: orderId }`. */
  function OrderKey(orderId: string): Order -> bool {
    (o: Order) => o.order_id == orderId
  }

  /** The session collection after `updateSession(sessionId, update)`. */
  function UpdateSessions(sessions: seq<Session>, sessionId: string, update: SessionUpdate): seq<Session> {
    FindAndUpdate(sessions, SessionKey(sessionId), (s: Session) => PatchSession(s, update))
  }

  /** The order collection after `updateOrder(orderId, update)`. */
  function UpdateOrders(orders: seq<Order>, orderId: string, update: OrderUpdate): seq<Order> {
    FindAndUpdate(orders, OrderKey(orderId), (o: Order) => PatchOrder(o, update))
  }

  class KlarnaService {
    var sessions: seq<Session>
    var orders: seq<Order>

    /** Hydrates both collections from the saved snapshot; a collection the
        snapshot does not hold starts out empty. */
    constructor (savedSessions: Option<seq<Session>>, savedOrders: Option<seq<Order>>)
      ensures sessions == savedSessions.GetOr([])
      ensures orders == savedOrders.GetOr([])
    {
      sessions := if savedSessions.Some? then savedSessions.value else [];
      orders := if savedOrders.Some? then savedOrders.value else [];
    }

    /** `createSession` after the provider call: on success the response,
        stamped `payment = true` and `status = 'incomplete'`, is appended and
        returned; on failure nothing changes and the result is absent. */
    method CreateSession(response: Option<Session>) returns (r: Option<Session>)
      modifies this
      ensures response.None? ==> r.None? && sessions == old(sessions)
      ensures response.Some? ==> r == Some(Stamp(response.value)) && sessions == old(sessions) + [Stamp(response.value)]
      ensures orders == old(orders)
    {
      if response.None? {
        return None;
      }
      var data := response.value;
      data := data.(payment := Some(true));
      data := data.(status := Some("incomplete"));
      sessions := sessions + [data];
      r := Some(data);
    }

    /** `createOrder` after the provider call: on success the response is
        appended unchanged and returned; on failure nothing changes. */
    method CreateOrder(response: Option<Order>) returns (r: Option<Order>)
      modifies this
      ensures r == response
      ensures response.None? ==> orders == old(orders)
      ensures response.Some? ==> orders == old(orders) + [response.value]
      ensures sessions == old(sessions)
    {
      if response.None? {
        return None;
      }
      orders := orders + [response.value];
      r := response;
    }

    /** `getSessions`: every stored session, in insertion order. */
    method GetSessions() returns (s: seq<Session>)
      ensures s == sessions
    {
      s := sessions;
    }

    /** `getOrders`: every stored order, in insertion order. */
    method GetOrders() returns (s: seq<Order>)
      ensures s == orders
    {
      s := orders;
    }

    /** `updateSession`: patches, in place, every session whose `session_id`
        is `sessionId`; the order collection is not touched. */
    method UpdateSession(sessionId: string, update: SessionUpdate)
      modifies this
      ensures sessions == UpdateSessions(old(sessions), sessionId, update)
      ensures orders == old(orders)
    {
      var i := 0;
      while i < |sessions|
        invariant 0 <= i <= |sessions| == |old(sessions)|
        invariant forall j :: 0 <= j < i && old(sessions)[j].session_id == sessionId ==>
          sessions[j] == PatchSession(old(sessions)[j], update)
        invariant forall j :: 0 <= j < i && old(sessions)[j].session_id != sessionId ==>
          sessions[j] == old(sessions)[j]
        invariant forall j :: i <= j < |sessions| ==> sessions[j] == old(sessions)[j]
        invariant orders == old(orders)
      {
        if sessions[i].session_id == sessionId {
          sessions := sessions[i := PatchSession(sessions[i], update)];
        }
        i := i + 1;
      }
    }

    /** `updateOrder`: patches, in place, every order whose `order_id` is
        `orderId`; the session collection is not touched. */
    method UpdateOrder(orderId: string, update: OrderUpdate)
      modifies this
      ensures orders == UpdateOrders(old(orders), orderId, update)
      ensures sessions == old(sessions)
    {
      var i := 0;
      while i < |orders|
        invariant 0 <= i <= |orders| == |old(orders)|
        invariant forall j :: 0 <= j < i && old(orders)[j].order_id == orderId ==>
          orders[j] == PatchOrder(old(orders)[j], update)
        invariant forall j :: 0 <= j < i && old(orders)[j].order_id != orderId ==>
          orders[j] == old(orders)[j]
        invariant forall j :: i <= j < |orders| ==> orders[j] == old(orders)[j]
        invariant sessions == old(sessions)
      {
        if orders[i].order_id == orderId {
          orders := orders[i := PatchOrder(orders[i], update)];
        }
        i := i + 1;
      }
    }
  }

  /** `updateSession` changes exactly the records with the given key: the
      count is kept, matching records are patched, the rest are untouched. */
  lemma UpdateSessionsFrame(sessions: seq<Session>, sessionId: string, update: SessionUpdate, i: int)
    requires 0 <= i < |sessions|
    ensures |UpdateSessions(sessions, sessionId, update)| == |sessions|
    ensures sessions[i].session_id == sessionId ==>
      UpdateSessions(sessions, sessionId, update)[i] == PatchSession(sessions[i], update)
    ensures sessions[i].session_id != sessionId ==>
      UpdateSessions(sessions, sessionId, update)[i] == sessions[i]
  {
  }

  /** `updateOrder` changes exactly the records with the given key. */
  lemma UpdateOrdersFrame(orders: seq<Order>, orderId: string, update: OrderUpdate, i: int)
    requires 0 <= i < |orders|
    ensures |UpdateOrders(orders, orderId, update)| == |orders|
    ensures orders[i].order_id == orderId ==>
      UpdateOrders(orders, orderId, update)[i] == PatchOrder(orders[i], update)
    ensures orders[i].order_id != orderId ==>
      UpdateOrders(orders, orderId, update)[i] == orders[i]
  {
  }

  /** Applying the same `updateSession` twice gives the store of applying it once. */
  lemma UpdateSessionsIdempotent(sessions: seq<Session>, sessionId: string, update: SessionUpdate)
    ensures UpdateSessions(UpdateSessions(sessions, sessionId, update), sessionId, update)
         == UpdateSessions(sessions, sessionId, update)
  {
    forall s: Session ensures PatchSession(PatchSession(s, update), update) == PatchSession(s, update) {
      PatchSessionIdempotent(s, update);
    }
    FindAndUpdateTwice(sessions, SessionKey(sessionId), (s: Session) => PatchSession(s, update));
  }

  /** Applying the same `updateOrder` twice gives the store of applying it once. */
  lemma UpdateOrdersIdempotent(orders: seq<Order>, orderId: string, update: OrderUpdate)
    ensures UpdateOrders(UpdateOrders(orders, orderId, update), orderId, update)
         == UpdateOrders(orders, orderId, update)
  {
    FindAndUpdateTwice(orders, OrderKey(orderId), (o: Order) => PatchOrder(o, update));
  }

  /** An `updateSession` carrying no truthy field changes nothing. */
  lemma UpdateSessionsNoop(sessions: seq<Session>, sessionId: string, update: SessionUpdate)
    requires !TruthyText(update.status) && !TruthyText(update.authorization_token)
    ensures UpdateSessions(sessions, sessionId, update) == sessions
  {
    FindAndUpdateNoop(sessions, SessionKey(sessionId), (s: Session) => PatchSession(s, update));
  }

  /** An `updateOrder` carrying no truthy field (for instance all amounts 0
      and an empty status) changes nothing. */
  lemma UpdateOrdersNoop(orders: seq<Order>, orderId: string, update: OrderUpdate)
    requires !TruthyText(update.status)
    requires !TruthyAmount(update.order_amount) && !TruthyAmount(update.captured_amount)
    requires !TruthyAmount(update.refunded_amount)
    ensures UpdateOrders(orders, orderId, update) == orders
  {
    FindAndUpdateNoop(orders, OrderKey(orderId), (o: Order) => PatchOrder(o, update));
  }

  /** If every stored session has `payment` mirroring its status, that stays
      so after any `updateSession`. */
  lemma UpdateSessionsKeepsMirror(sessions: seq<Session>, sessionId: string, update: SessionUpdate)
    requires forall i :: 0 <= i < |sessions| ==> PaymentMirrorsStatus(sessions[i])
    ensures forall i :: 0 <= i < |UpdateSessions(sessions, sessionId, update)| ==>
      PaymentMirrorsStatus(UpdateSessions(sessions, sessionId, update)[i])
  {
    forall s | PaymentMirrorsStatus(s) ensures PaymentMirrorsStatus(PatchSession(s, update)) {
      PatchSessionKeepsMirror(s, update);
    }
    FindAndUpdatePreserves(sessions, SessionKey(sessionId), (s: Session) => PatchSession(s, update),
                           (s: Session) => PaymentMirrorsStatus(s));
  }
}
