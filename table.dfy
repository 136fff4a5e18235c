/**
 * The transaction table: the whole JSON array that the handlers load, change
 * and write back. Nothing keeps ids unique; a lookup returns the first match.
 */
module Table {
  import opened Wrappers
  import opened JsValues

  /** One stored transaction, with the fields the create handler writes. */
  datatype Record = Record(
    id: JsValue,
    amount: JsValue,
    paymentNumber: JsValue,
    status: JsValue,
    createdAt: string,
    expiredAt: JsValue)

  /** The status every new record starts with. */
  const Pending: JsValue := Str("pending")

  /**
   * `t.id === orderId` where `orderId` is a route parameter, hence a string:
   * strict equality holds exactly for a string with the same characters.
   */
  predicate Matches(rec: Record, orderId: string)
    ensures Matches(rec, orderId) <==> rec.id.Str? && rec.id.s == orderId
  {
    rec.id == Str(orderId)
  }

  /** `transactions.find(t => t.id === orderId)`, as the index of the record found. */
  function FindIndex(t: seq<Record>, orderId: string): (r: Option<nat>)
    ensures r.Some? ==>
      && r.value < |t| && Matches(t[r.value], orderId)
      && forall j :: 0 <= j < r.value ==> !Matches(t[j], orderId)
    ensures r.None? <==> forall j :: 0 <= j < |t| ==> !Matches(t[j], orderId)
  {
    if |t| == 0 then None
    else if Matches(t[0], orderId) then Some(0)
    else match FindIndex(t[1..], orderId)
      case None => None
      case Some(k) => Some(k + 1)
  }

  /** Two records that differ at most in their status, the one field that may change. */
  predicate SameButStatus(a: Record, b: Record) {
    a.(status := b.status) == b
  }

  /**
   * How the table may change from one handler to the next: records are only
   * appended, never removed or reordered, and of an existing record only the
   * status is ever overwritten.
   */
  predicate Evolves(before: seq<Record>, after: seq<Record>) {
    && |before| <= |after|
    && forall i :: 0 <= i < |before| ==> SameButStatus(before[i], after[i])
  }

  /** The table after the status of record `k` is overwritten. */
  function WithStatus(t: seq<Record>, k: nat, status: JsValue): (u: seq<Record>)
    requires k < |t|
    ensures |u| == |t| && u[k].status == status && SameButStatus(t[k], u[k])
    ensures forall i :: 0 <= i < |t| && i != k ==> u[i] == t[i]
  {
    t[k := t[k].(status := status)]
  }

  /** A first match is the answer of the lookup: the lookup's result is determined. */
  lemma FirstMatchIsFound(t: seq<Record>, orderId: string, k: nat)
    requires k < |t| && Matches(t[k], orderId)
    requires forall j :: 0 <= j < k ==> !Matches(t[j], orderId)
    ensures FindIndex(t, orderId) == Some(k)
  {
  }

  /** The lookup depends only on the ids, in order, and not on any other field. */
  lemma LookupSeesOnlyIds(t: seq<Record>, u: seq<Record>, orderId: string)
    requires |t| == |u|
    requires forall i :: 0 <= i < |t| ==> t[i].id == u[i].id
    ensures FindIndex(t, orderId) == FindIndex(u, orderId)
  {
  }

  /** Overwriting a status leaves every lookup where it was. */
  lemma StatusUpdateKeepsLookup(t: seq<Record>, k: nat, status: JsValue, orderId: string)
    requires k < |t|
    ensures FindIndex(WithStatus(t, k, status), orderId) == FindIndex(t, orderId)
  {
    LookupSeesOnlyIds(t, WithStatus(t, k, status), orderId);
  }

  /**
   * Appending a record never hides an earlier match: a duplicate id is
   * stored but shadowed; a new id becomes findable at the end.
   */
  lemma {:induction false} LookupAfterAppend(t: seq<Record>, rec: Record, orderId: string)
    ensures FindIndex(t + [rec], orderId) ==
      if FindIndex(t, orderId).Some? then FindIndex(t, orderId)
      else if Matches(rec, orderId) then Some(|t|)
      else None
  {
    var u := t + [rec];
    match FindIndex(t, orderId)
    case Some(k) =>
      FirstMatchIsFound(u, orderId, k);
    case None =>
      if Matches(rec, orderId) {
        FirstMatchIsFound(u, orderId, |t|);
      } else {
        assert forall j :: 0 <= j < |u| ==> !Matches(u[j], orderId) by {
          forall j | 0 <= j < |u| ensures !Matches(u[j], orderId) {
            if j < |t| { assert u[j] == t[j]; }
          }
        }
      }
  }

  /**
   * Once an id is found, every later table still finds it at the same
   * position, with the same id, amount, payment number and timestamps.
   */
  lemma LookupIsStable(before: seq<Record>, after: seq<Record>, orderId: string)
    requires Evolves(before, after)
    requires FindIndex(before, orderId).Some?
    ensures FindIndex(after, orderId) == FindIndex(before, orderId)
    ensures SameButStatus(before[FindIndex(before, orderId).value], after[FindIndex(after, orderId).value])
  {
    var k := FindIndex(before, orderId).value;
    assert after[k].id == before[k].id by { assert SameButStatus(before[k], after[k]); }
    forall j | 0 <= j < k ensures !Matches(after[j], orderId) {
      assert SameButStatus(before[j], after[j]);
    }
    FirstMatchIsFound(after, orderId, k);
  }

  /** Evolves is a preorder: handlers may be run one after another. */
  lemma EvolvesTransitive(a: seq<Record>, b: seq<Record>, c: seq<Record>)
    requires Evolves(a, b) && Evolves(b, c)
    ensures Evolves(a, c)
  {
    forall i | 0 <= i < |a| ensures SameButStatus(a[i], c[i]) {
      assert SameButStatus(a[i], b[i]) && SameButStatus(b[i], c[i]);
    }
  }

  /** A record whose id is not a string (a JSON number, say) is never found. */
  lemma NonStringIdNeverFound(t: seq<Record>, k: nat, orderId: string)
    requires k < |t| && !t[k].id.Str?
    ensures FindIndex(t, orderId) != Some(k)
  {
  }
}
