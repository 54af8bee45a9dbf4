/** The two kinds of record mirrored in the local store, the partial updates
    the workflow applies to them, and the field-copy rules of those updates.

    A field the provider may omit is an `Option`: `None` stands for an absent
    (`undefined`) JSON field. The copy rules test JavaScript truthiness: a
    string is truthy when it is non-empty, a number when it is non-zero. */
module Records {
  import opened Wrappers

  /** One line of the shopping cart, forwarded verbatim to the provider. */
  datatype OrderLine = OrderLine(
    reference: Option<string>,
    name: string,
    kind: string,
    quantity: int,
    unit_price: int,
    total_amount: int)

  /** A provider-side checkout session: what the provider returns on creation
      and on a detail fetch, and also what the session collection stores
      (the stored object is the provider's object with `payment` and
      `status` stamped on it). */
  datatype Session = Session(
    session_id: string,
    client_token: Option<string>,
    status: Option<string>,
    payment: Option<bool>,
    authorization_token: Option<string>,
    locale: string,
    purchase_country: string,
    purchase_currency: string,
    merchant_reference1: Option<string>,
    order_amount: int,
    order_tax_amount: int,
    order_lines: seq<OrderLine>)

  /** A provider-side order, as returned by order creation or an order detail
      fetch, and as stored in the order collection. The creation response
      carries no status or amounts, so those start out absent. */
  datatype Order = Order(
    order_id: string,
    status: Option<string>,
    order_amount: Option<int>,
    captured_amount: Option<int>,
    refunded_amount: Option<int>)

  /** The object passed to `updateSession`. */
  datatype SessionUpdate = SessionUpdate(status: Option<string>, authorization_token: Option<string>)

  /** The object passed to `updateOrder`. */
  datatype OrderUpdate = OrderUpdate(
    status: Option<string>,
    order_amount: Option<int>,
    captured_amount: Option<int>,
    refunded_amount: Option<int>)

  /** JavaScript truthiness of a possibly absent string. */
  predicate TruthyText(v: Option<string>) {
    v.Some? && v.value != ""
  }

  /** JavaScript truthiness of a possibly absent number. */
  predicate TruthyAmount(v: Option<int>) {
    v.Some? && v.value != 0
  }

  /** The local-only fields `createSession` stamps onto a fresh provider session. */
  function Stamp(s: Session): Session {
    s.(payment := Some(true), status := Some("incomplete"))
  }

  /** The `updateSession` callback: copies a truthy status (and re-derives
      `payment` from it) and a truthy authorization token. */
  function PatchSession(s: Session, u: SessionUpdate): Session {
    var s1 := if TruthyText(u.status) then s.(status := u.status, payment := Some(u.status.value != "complete")) else s;
    if TruthyText(u.authorization_token) then s1.(authorization_token := u.authorization_token) else s1
  }

  /** The `updateOrder` callback: copies each of the four fields only when its
      new value is truthy. */
  function PatchOrder(o: Order, u: OrderUpdate): Order {
    o.(status := if TruthyText(u.status) then u.status else o.status,
       order_amount := if TruthyAmount(u.order_amount) then u.order_amount else o.order_amount,
       captured_amount := if TruthyAmount(u.captured_amount) then u.captured_amount else o.captured_amount,
       refunded_amount := if TruthyAmount(u.refunded_amount) then u.refunded_amount else o.refunded_amount)
  }

  /** The session-record invariant the workflow keeps: `payment` is present and
      is the negation of "status is complete". */
  predicate PaymentMirrorsStatus(s: Session) {
    s.payment == Some(s.status != Some("complete"))
  }

  /** A stamped session is `incomplete`, awaiting payment, whatever the provider sent. */
  lemma StampedSessionAwaitsPayment(s: Session)
    ensures Stamp(s).status == Some("incomplete") && Stamp(s).payment == Some(true)
    ensures PaymentMirrorsStatus(Stamp(s))
    ensures Stamp(s).session_id == s.session_id && Stamp(s).authorization_token == s.authorization_token
  {
  }

  /** The status rule of `updateSession`, in both directions. */
  lemma PatchSessionStatusRule(s: Session, u: SessionUpdate)
    ensures TruthyText(u.status) ==>
      PatchSession(s, u).status == u.status && PatchSession(s, u).payment == Some(u.status.value != "complete")
    ensures !TruthyText(u.status) ==>
      PatchSession(s, u).status == s.status && PatchSession(s, u).payment == s.payment
  {
  }

  /** The token rule of `updateSession`: a stored token is replaced only by a non-empty one. */
  lemma PatchSessionTokenRule(s: Session, u: SessionUpdate)
    ensures PatchSession(s, u).authorization_token ==
      (if TruthyText(u.authorization_token) then u.authorization_token else s.authorization_token)
  {
  }

  /** `updateSession` touches only status, payment and the token; the key and
      the cart are kept. */
  lemma PatchSessionKeepsRest(s: Session, u: SessionUpdate)
    ensures var r := PatchSession(s, u);
      r.session_id == s.session_id && r.client_token == s.client_token &&
      r.locale == s.locale && r.purchase_country == s.purchase_country &&
      r.purchase_currency == s.purchase_currency && r.merchant_reference1 == s.merchant_reference1 &&
      r.order_amount == s.order_amount && r.order_tax_amount == s.order_tax_amount &&
      r.order_lines == s.order_lines
  {
  }

  /** Patching preserves the payment/status invariant. */
  lemma PatchSessionKeepsMirror(s: Session, u: SessionUpdate)
    requires PaymentMirrorsStatus(s)
    ensures PaymentMirrorsStatus(PatchSession(s, u))
  {
  }

  /** A zero amount (or an absent one) never overwrites a stored amount; an
      empty or absent status never overwrites the stored status. */
  lemma PatchOrderFalsyKeeps(o: Order, u: OrderUpdate)
    ensures !TruthyText(u.status) ==> PatchOrder(o, u).status == o.status
    ensures !TruthyAmount(u.order_amount) ==> PatchOrder(o, u).order_amount == o.order_amount
    ensures !TruthyAmount(u.captured_amount) ==> PatchOrder(o, u).captured_amount == o.captured_amount
    ensures !TruthyAmount(u.refunded_amount) ==> PatchOrder(o, u).refunded_amount == o.refunded_amount
    ensures PatchOrder(o, u).order_id == o.order_id
  {
  }

  /** Each truthy field of the update is copied. */
  lemma PatchOrderTruthyCopies(o: Order, u: OrderUpdate)
    ensures TruthyText(u.status) ==> PatchOrder(o, u).status == u.status
    ensures TruthyAmount(u.order_amount) ==> PatchOrder(o, u).order_amount == u.order_amount
    ensures TruthyAmount(u.captured_amount) ==> PatchOrder(o, u).captured_amount == u.captured_amount
    ensures TruthyAmount(u.refunded_amount) ==> PatchOrder(o, u).refunded_amount == u.refunded_amount
  {
  }

  /** The zero-amount quirk: an update reporting that 0 has been captured
      or refunded leaves the stored amount as it was, so an amount absent
      since order creation stays absent rather than becoming 0. */
  lemma ZeroCaptureIsNotRecorded(o: Order, u: OrderUpdate)
    ensures u.captured_amount == Some(0) ==> PatchOrder(o, u).captured_amount == o.captured_amount
    ensures u.refunded_amount == Some(0) ==> PatchOrder(o, u).refunded_amount == o.refunded_amount
    ensures o.captured_amount.None? && u.captured_amount == Some(0) ==> PatchOrder(o, u).captured_amount.None?
  {
  }

  /** Applying the same session callback twice is applying it once. */
  lemma PatchSessionIdempotent(s: Session, u: SessionUpdate)
    ensures PatchSession(PatchSession(s, u), u) == PatchSession(s, u)
  {
  }

  /** Applying the same order callback twice is applying it once. */
  lemma PatchOrderIdempotent(o: Order, u: OrderUpdate)
    ensures PatchOrder(PatchOrder(o, u), u) == PatchOrder(o, u)
  {
  }
}
