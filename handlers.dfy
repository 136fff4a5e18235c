/**
 * The three request handlers over the transaction table. Each handler is one
 * atomic step: load the table, maybe call the gateway, maybe change the
 * table and write it back whole, answer the request.
 */
module Handlers {
  import opened Wrappers
  import opened JsValues
  import opened Gateway
  import opened Table

  /** What a handler answers, before it is turned into HTTP. */
  datatype Response =
    | BadRequest                         // 400, missing amount or orderId
    | NotFound                           // 404, no record with that id
    | ServerError                        // 500, gateway failed or answered unusably
    | Created(payment: JsValue)          // 200, the gateway's payment object
    | StatusReport(transaction: JsValue) // 200, the gateway's transaction payload, as given
    | Found(record: Record)              // 200, the stored record, verbatim

  /** The HTTP status code each response is sent with. */
  function HttpStatus(r: Response): (code: int)
    ensures code == 200 <==> r.Created? || r.StatusReport? || r.Found?
    ensures code == 400 <==> r.BadRequest?
    ensures code == 404 <==> r.NotFound?
    ensures code == 500 <==> r.ServerError?
  {
    match r
    case BadRequest => 400
    case NotFound => 404
    case ServerError => 500
    case _ => 200
  }

  /** The transaction table, as persisted between requests. */
  class TransactionStore {
    var records: seq<Record>

    /** A store whose data file was just created, holding `[]`. */
    constructor ()
      ensures records == []
    {
      records := [];
    }

    /** A store whose data file holds the given table. */
    constructor Load(table: seq<Record>)
      ensures records == table
    {
      records := table;
    }

    /**
     * POST /api/create-qris with body fields `amount` and `orderId`, the
     * gateway answering `reply` and the clock reading `now`. Returns the
     * answer and the gateway call made, if any.
     */
    method Create(amount: JsValue, orderId: JsValue, reply: GatewayReply, now: string)
      returns (r: Response, call: Option<GatewayCall>)
      modifies this
      ensures !Truthy(amount) || !Truthy(orderId) ==>
        r == BadRequest && call == None && records == old(records)
      ensures Truthy(amount) && Truthy(orderId) ==>
        call == Some(ChargeRequest(orderId, amount))
      ensures Truthy(amount) && Truthy(orderId) && AcceptCharge(reply).None? ==>
        r == ServerError && records == old(records)
      ensures Truthy(amount) && Truthy(orderId) && AcceptCharge(reply).Some? ==>
        var charge := AcceptCharge(reply).value;
        && r == Created(charge.payment)
        && |records| == |old(records)| + 1
        && records[..|old(records)|] == old(records)
        && records[|old(records)|] ==
             Record(orderId, amount, charge.paymentNumber, Pending, now, charge.expiredAt)
      ensures Evolves(old(records), records)
    {
      if !Truthy(amount) || !Truthy(orderId) {
        return BadRequest, None;
      }
      call := Some(ChargeRequest(orderId, amount));
      var accepted := AcceptCharge(reply);
      if accepted.None? {
        return ServerError, call;
      }
      var charge := accepted.value;
      var rec := Record(orderId, amount, charge.paymentNumber, Pending, now, charge.expiredAt);
      records := records + [rec];
      r := Created(charge.payment);
    }

    /**
     * GET /api/check-status/:orderId, the gateway answering `reply`. The
     * local lookup comes first; the gateway is asked with the stored amount.
     */
    method CheckStatus(orderId: string, reply: GatewayReply)
      returns (r: Response, call: Option<GatewayCall>)
      modifies this
      ensures FindIndex(old(records), orderId).None? ==>
        r == NotFound && call == None && records == old(records)
      ensures FindIndex(old(records), orderId).Some? ==>
        var k := FindIndex(old(records), orderId).value;
        call == Some(DetailRequest(orderId, old(records)[k].amount))
      ensures FindIndex(old(records), orderId).Some? && DetailPayload(reply).None? ==>
        r == ServerError && records == old(records)
      ensures FindIndex(old(records), orderId).Some? && DetailPayload(reply).Some? ==>
        var k := FindIndex(old(records), orderId).value;
        var tx := DetailPayload(reply).value;
        && r == StatusReport(tx)
        && records == if Truthy(tx) then WithStatus(old(records), k, Field(tx, "status")) else old(records)
      ensures Evolves(old(records), records)
    {
      var found := FindIndex(records, orderId);
      if found.None? {
        return NotFound, None;
      }
      var k := found.value;
      call := Some(DetailRequest(orderId, records[k].amount));
      var payload := DetailPayload(reply);
      if payload.None? {
        return ServerError, call;
      }
      var tx := payload.value;
      if Truthy(tx) {
        records := records[k := records[k].(status := Field(tx, "status"))];
      }
      r := StatusReport(tx);
    }

    /** GET /api/transaction/:orderId: the first record with that id, unchanged. */
    method Get(orderId: string) returns (r: Response)
      ensures r.NotFound? <==> forall i :: 0 <= i < |records| ==> !Matches(records[i], orderId)
      ensures r.NotFound? || r.Found?
      ensures r.Found? ==>
        exists k :: 0 <= k < |records| && r.record == records[k] && Matches(r.record, orderId)
          && forall j :: 0 <= j < k ==> !Matches(records[j], orderId)
    {
      var found := FindIndex(records, orderId);
      if found.None? {
        r := NotFound;
      } else {
        r := Found(records[found.value]);
      }
    }
  }

  /**
   * An example run: create order "A1" for 10000, the gateway issuing payment
   * number "88123"; then check its status, the gateway reporting it completed.
   */
  method CreateThenCheckExample(now: string) {
    var store := new TransactionStore();
    var payment := Obj(map["payment_number" := Str("88123"), "expired_at" := Str("2025-01-01T00:10:00Z")]);
    var r, call := store.Create(Num(10000.0), Str("A1"),
      Replied(Obj(map["payment" := payment])), now);
    assert r == Created(payment);
    assert store.records ==
      [Record(Str("A1"), Num(10000.0), Str("88123"), Pending, now, Str("2025-01-01T00:10:00Z"))];
    var tx := Obj(map["status" := Str("completed")]);
    assert FindIndex(store.records, "A1") == Some(0);
    r, call := store.CheckStatus("A1", Replied(Obj(map["transaction" := tx])));
    assert call == Some(DetailRequest("A1", Num(10000.0)));
    assert r == StatusReport(tx);
    assert store.records[0].status == Str("completed");
  }

  /**
   * Two successful creates with the same order id: both records are stored,
   * in order, and a lookup answers with the first one.
   */
  method DuplicateIdExample(first: string, second: string) {
    var store := new TransactionStore();
    var reply := Replied(Obj(map["payment" := Obj(map["payment_number" := Str("1")])]));
    var r, call := store.Create(Num(5.0), Str("X"), reply, first);
    r, call := store.Create(Num(7.0), Str("X"), reply, second);
    assert |store.records| == 2 && store.records[1].amount == Num(7.0);
    assert Matches(store.records[0], "X");
    r := store.Get("X");
    assert r == Found(store.records[0]) && r.record.amount == Num(5.0);
  }
}
