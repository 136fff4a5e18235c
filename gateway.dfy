/**
 * The payment gateway as seen by the handlers. The HTTP calls themselves are
 * not modelled: a handler states which call it would make (a GatewayCall) and
 * receives what the gateway answered (a GatewayReply) as an input.
 */
module Gateway {
  import opened Wrappers
  import opened JsValues

  /** The outcome of one HTTP call: a transport error or non-2xx answer, or a parsed body. */
  datatype GatewayReply =
    | Unreachable
    | Replied(data: JsValue)

  /** The request a handler sends, with the values it passes to the gateway. */
  datatype GatewayCall =
    | ChargeRequest(orderId: JsValue, amount: JsValue)
    | DetailRequest(routeId: string, storedAmount: JsValue)

  /** The parts of an accepted charge reply that the create handler uses. */
  datatype Charge = Charge(payment: JsValue, paymentNumber: JsValue, expiredAt: JsValue)

  /**
   * Validation of the charge reply: the call must have succeeded, its body
   * must have a truthy `payment` whose `payment_number` is truthy. Anything
   * else (including a TypeError on a null body) is a failed charge.
   */
  function AcceptCharge(reply: GatewayReply): (r: Option<Charge>)
    ensures r.Some? ==>
      && reply.Replied? && !Nullish(reply.data)
      && r.value.payment == Field(reply.data, "payment") && Truthy(r.value.payment)
      && r.value.paymentNumber == Field(r.value.payment, "payment_number") && Truthy(r.value.paymentNumber)
      && r.value.expiredAt == Field(r.value.payment, "expired_at")
    ensures r.None? <==>
      || reply.Unreachable? || Nullish(reply.data)
      || !Truthy(Field(reply.data, "payment"))
      || !Truthy(Field(Field(reply.data, "payment"), "payment_number"))
  {
    match reply
    case Unreachable => None
    case Replied(data) =>
      if Nullish(data) then None
      else
        var payment := Field(data, "payment");
        if !Truthy(payment) then None
        else
          var number := Field(payment, "payment_number");
          if !Truthy(number) then None
          else Some(Charge(payment, number, Field(payment, "expired_at")))
  }

  /**
   * The `transaction` payload of a detail reply, or None when the call failed
   * or the body was nullish (a TypeError). A present payload may still be falsy.
   */
  function DetailPayload(reply: GatewayReply): (r: Option<JsValue>)
    ensures r.None? <==> reply.Unreachable? || Nullish(reply.data)
    ensures r.Some? ==> r.value == Field(reply.data, "transaction")
  {
    match reply
    case Unreachable => None
    case Replied(data) => if Nullish(data) then None else Some(Field(data, "transaction"))
  }
}
