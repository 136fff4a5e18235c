# Donation payment relay: the transaction table

This project models the core of a small Express server that relays donation
orders to the Pakasir QRIS payment gateway (`server.js`). The server keeps a
transaction table: a JSON array of records `{id, amount, payment_number,
status, created_at, expired_at}`. Each handler loads the array whole and
writes it back whole. The model covers the three handlers that use the table:

- **create** (`POST /api/create-qris`): checks that `amount` and `orderId` are
  truthy, asks the gateway for a charge, checks that the reply has a truthy
  `payment` with a truthy `payment_number`, and appends a `"pending"` record.
- **check-status** (`GET /api/check-status/:orderId`): finds the first record
  with that id, answering 404 before any gateway call when there is none. It
  then asks the gateway for details using the stored amount. If the reply
  carries a truthy `transaction`, it overwrites that record's status.
- **get** (`GET /api/transaction/:orderId`): answers with the first record
  with that id, unchanged, or 404.

Modules:

- `JsValues` (`js_values.dfy`): parsed JSON values, JavaScript truthiness
  (`!x`), and property reads, which throw on `null`/`undefined`.
- `Gateway` (`gateway.dfy`): the gateway's replies are inputs
  (`Unreachable` or `Replied(data)`). A handler reports the call it made as a
  `GatewayCall`, so "no gateway call" is part of a contract. The module also
  holds the validation of a charge reply and the extraction of a detail payload.
- `Table` (`table.dfy`): the record type, the first-match lookup
  (`Array.prototype.find` with `===`), the status update, and `Evolves`. That
  predicate is the table's lifecycle invariant: records are only appended,
  never removed or reordered, and only `status` ever changes. The lemmas
  about lookups are here too.
- `Handlers` (`handlers.dfy`): the response type, the HTTP status codes, and
  the class `TransactionStore` whose field `records` is the persisted table.
  Its methods `Create`, `CheckStatus` and `Get` are the three handlers. Two
  client methods are examples. One creates order "A1" and then checks its
  status. The other creates two orders with the same id.

Ids are not kept unique. `Create` appends blindly, and a lookup returns the
first match, so a later record with a repeated id is stored but never found
(`Table.LookupAfterAppend`, `Handlers.DuplicateIdExample`). A lookup key is
a route parameter, which is always a string. Under `===`, a record created
with a non-string `orderId` (a JSON number, say) can therefore never be found
(`Table.NonStringIdNeverFound`). The model keeps both behaviours as the code
has them.

Nothing in the code keeps ids unique, and the model does not assume they are.

## Model

| member | source | states |
|---|---|---|
| `JsValues.Truthy` | server.js:52 | what `!x` and `if (x)` test (also at lines 69, 100, 109); a truthy value is never `null` or `undefined`, so reading its properties cannot throw |
| `JsValues.Field` | server.js:68-81 | a property read (also at lines 108 and 110): a value other than `undefined` comes only from an object's own field, and an own field is read as it is |
| `Table.Matches` | server.js:99 | `t.id === orderId` against a route parameter (also at line 125) holds exactly when the id is a string with the same characters |
| `JsValues.FalsyValues` | server.js:52 | `!x` holds exactly for `undefined`, `null`, `false`, `0` and `""`, so a create request missing either field is refused |
| `Gateway.AcceptCharge` | server.js:68-71 | a charge reply is accepted exactly when the call succeeded, the body is not nullish, `payment` is truthy and `payment.payment_number` is truthy; an accepted charge carries the payment object, its number and its `expired_at` |
| `Gateway.DetailPayload` | server.js:104-108 | a detail reply gives a payload unless the call failed or the body was nullish (a TypeError, answered 500); the payload is the body's `transaction` field, possibly falsy |
| `Table.FindIndex` | server.js:99 | the lookup returns the index of the first record whose id strictly equals the order id, or none exactly when no record matches |
| `Table.WithStatus` | server.js:110 | overwriting a status changes that record's status and nothing else in the table |
| `Table.FirstMatchIsFound` | server.js:99 | any first matching index is what the lookup returns, so the lookup's result is determined |
| `Table.LookupSeesOnlyIds` | server.js:99 | two tables with the same ids in the same order give the same lookup result for every order id |
| `Table.StatusUpdateKeepsLookup` | server.js:108-111 | after a status update every order id is found at the same index as before |
| `Table.LookupAfterAppend` | server.js:83 | appending keeps every earlier match; a repeated id stays shadowed by the earlier record; a new string id is found at the end |
| `Table.LookupIsStable` | server.js:74-111 | once an order id is found, every table the handlers can produce from it finds it at the same index, with only the status possibly changed |
| `Table.EvolvesTransitive` | server.js:74-111 | the append-and-status-only invariant composes over any sequence of handler calls |
| `Table.NonStringIdNeverFound` | server.js:99 | a record whose id is not a string is never the result of a lookup by route parameter |
| `Handlers.HttpStatus` | server.js:52-129 | success answers are sent with 200; missing fields with 400; unknown ids with 404; gateway failures with 500 |
| `Handlers.TransactionStore.constructor` | server.js:19-31 | a store whose data file was just created holds the empty table |
| `Handlers.TransactionStore.Load` | server.js:34-37 | loading gives the persisted table unchanged |
| `Handlers.TransactionStore.Create` | server.js:50-91 | a falsy amount or order id gives 400, with no gateway call and no change. Otherwise the gateway is called with the order id and amount. A rejected reply gives 500 and no change. An accepted reply gives exactly one appended record `{id: orderId, amount, payment_number, status: "pending", created_at: now, expired_at}`, earlier records unchanged and in order, and the answer carries the payment object. Existing ids are not rejected |
| `Handlers.TransactionStore.CheckStatus` | server.js:94-119 | an unknown id gives 404, with no gateway call and no change. Otherwise the gateway is asked with the order id and the first match's stored amount. A failed call gives 500 and no change. A truthy payload sets only that record's status to the payload's `status`. A falsy payload changes nothing. The answer is the payload as given. The table always evolves by the lifecycle invariant |
| `Handlers.TransactionStore.Get` | server.js:122-130 | the answer is 404 exactly when no record matches; otherwise it is the first matching record, verbatim; the table is not modified |

## Left out

- HTTP plumbing: Express setup, CORS, JSON body parsing, `dotenv`, the liveness route `/` and `app.listen` (server.js:1-16, 45-47, 132-134).
- The gateway's HTTP calls (server.js:57-66, 104-106), including URL building and how the amount is put into the query string. The model takes the reply as an input and records which call was made with which values.
- File I/O and JSON (server.js:19-42). The table is the `records` field. A failed read or write is not modelled: create and check-status would answer 500 with the file unchanged, or partly written if the write failed midway. A failed read in get is a rejected promise that the handler does not catch: under Express 4 the request is never answered, under Express 5 the default error handler answers 500; which version runs is not part of this model. JSON serialisation is taken to round-trip the modelled values (except for the numbers and strings in the two `JsValues.JsValue` lines below); an `undefined` field is dropped on write and reads back as `undefined`.
- The clock and its ISO formatting (server.js:80): `now` is a parameter.
- The lost-update race between concurrent handlers that each load and save the whole file. Each handler is one atomic step.
- Error message texts and `console.error` logging.
- `JsValues.JsValue`: numbers are idealised as finite reals. An overflowing literal such as `1e400` parses to `Infinity`, which is truthy, so create accepts it; it is then sent to the gateway and written to the file as `null`, and later check-status and get see `amount: null`. The model cannot represent `Infinity` or that failure to round-trip.
- `JsValues.JsValue`: strings are sequences of Unicode scalar values. A JSON string with an unpaired surrogate cannot be represented.
- `JsValues.Field`: reading a property that a built-in prototype defines (`length` of a string or array) is not modelled. The handlers read only data keys.
