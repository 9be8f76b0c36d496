/**
 * `POST /api/subscriptions/crypto/confirm`: the required fields, then the
 * hash format, then the activation of the user's row.
 */
module CryptoConfirmRoute {
  import opened Wrappers
  import opened Schema
  import CryptoSubscription
  import Premium

  /** The JSON body; `None` is a missing field. */
  datatype ConfirmBody = ConfirmBody(userId: Option<string>, txnHash: Option<string>, planId: Option<string>)

  datatype RouteResponse =
    | Rejected(status: int, error: string)
    | Confirmed(message: string)

  datatype RouteStep = RouteStep(response: RouteResponse, rows: map<string, UserSubscription>)

  const MISSING_FIELDS: string := "Missing required fields"
  const INVALID_FORMAT: string := "Invalid transaction hash format"
  const CONFIRMED: string := "Crypto payment confirmed and subscription activated"

  predicate HasAllFields(body: ConfirmBody) {
    Present(body.userId) && Present(body.txnHash) && Present(body.planId)
  }

  /** The handler as a function of the table. */
  function ConfirmRouteStep(rows: map<string, UserSubscription>, body: ConfirmBody, now: int): (s: RouteStep)
    ensures !HasAllFields(body) ==> s == RouteStep(Rejected(400, MISSING_FIELDS), rows)
    ensures HasAllFields(body) && !CryptoSubscription.IsValidTxHash(body.txnHash.value) ==>
              s == RouteStep(Rejected(400, INVALID_FORMAT), rows)
    ensures s.response.Confirmed? <==> HasAllFields(body) && CryptoSubscription.IsValidTxHash(body.txnHash.value)
    ensures s.response.Confirmed? ==>
              s.rows == if body.userId.value in rows
                        then rows[body.userId.value := CryptoSubscription.Activated(rows[body.userId.value], body.txnHash.value, now)]
                        else rows
  {
    if !HasAllFields(body) then RouteStep(Rejected(400, MISSING_FIELDS), rows)
    else if !CryptoSubscription.IsValidTxHash(body.txnHash.value) then RouteStep(Rejected(400, INVALID_FORMAT), rows)
    else
      var id := body.userId.value;
      var updated := if id in rows then rows[id := CryptoSubscription.Activated(rows[id], body.txnHash.value, now)] else rows;
      RouteStep(Confirmed(CONFIRMED), updated)
  }

  method Post(t: SubscriptionTable, body: ConfirmBody, now: int) returns (resp: RouteResponse)
    requires t.Valid()
    modifies t
    ensures t.Valid()
    ensures RouteStep(resp, t.rows) == ConfirmRouteStep(old(t.rows), body, now)
  {
    if !Present(body.userId) || !Present(body.txnHash) || !Present(body.planId) {
      return Rejected(400, MISSING_FIELDS);
    }
    var txnHash := body.txnHash.value;
    if !CryptoSubscription.IsValidTxHash(txnHash) {
      return Rejected(400, INVALID_FORMAT);
    }
    var id := body.userId.value;
    if id in t.rows {
      t.rows := t.rows[id := CryptoSubscription.Activated(t.rows[id], txnHash, now)];
    }
    resp := Confirmed(CONFIRMED);
  }

  /** The missing-field check comes first: a body without a hash or plan is
      "Missing required fields" even when what is there is malformed. */
  lemma MissingFieldsBeforeFormat(rows: map<string, UserSubscription>, userId: string, txnHash: string, now: int)
    requires !CryptoSubscription.IsValidTxHash(txnHash)
    ensures ConfirmRouteStep(rows, ConfirmBody(Some(userId), Some(txnHash), None), now).response ==
            Rejected(400, MISSING_FIELDS)
  {
  }

  /** The plan id is required but never written: the row keeps its plan, and
      two bodies that differ only in the plan id have the same effect. */
  lemma PlanIdIsNotWritten(rows: map<string, UserSubscription>, userId: string, txnHash: string,
                           planA: string, planB: string, now: int)
    requires planA != "" && planB != ""
    ensures ConfirmRouteStep(rows, ConfirmBody(Some(userId), Some(txnHash), Some(planA)), now) ==
            ConfirmRouteStep(rows, ConfirmBody(Some(userId), Some(txnHash), Some(planB)), now)
    ensures userId in rows ==>
              ConfirmRouteStep(rows, ConfirmBody(Some(userId), Some(txnHash), Some(planA)), now).rows[userId].planId ==
              rows[userId].planId
  {
  }

  /** The route writes exactly what the confirmation action writes. */
  lemma AgreesWithConfirmAction(rows: map<string, UserSubscription>, body: ConfirmBody, now: int)
    requires HasAllFields(body)
    ensures var r := ConfirmRouteStep(rows, body, now);
            var a := CryptoSubscription.ConfirmStep(rows, body.userId.value, body.txnHash.value, body.planId.value, now);
            r.rows == a.rows && (r.response.Confirmed? <==> a.result.Succeeded?)
  {
  }

  /** After a confirmation the user is premium for thirty days. */
  lemma ConfirmedUserIsPremium(rows: map<string, UserSubscription>, body: ConfirmBody, now: int, at: int)
    requires ConfirmRouteStep(rows, body, now).response.Confirmed?
    requires body.userId.value in rows
    requires now <= at < now + THIRTY_DAYS_MS
    ensures Premium.IsPremiumUser(Some(ConfirmRouteStep(rows, body, now).rows[body.userId.value]), at)
  {
  }
}
