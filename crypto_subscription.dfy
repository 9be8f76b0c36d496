/**
 * Crypto payments for subscriptions: a pending row is created (or an
 * existing row marked pending) when a payment is initiated, activated for
 * thirty days when the payment is confirmed, and extended by a renewal.
 * Wallet-address validation (`ethers.isAddress`), the random payment
 * reference and the chain-id environment variable are inputs.
 */
module CryptoSubscription {
  import opened Wrappers
  import opened Schema
  import opened Auth0
  import Premium

  const INVALID_WALLET: string := "Invalid wallet address"
  const INVALID_HASH: string := "Invalid transaction hash"
  const NO_SUBSCRIPTION: string := "No subscription found"
  const DEFAULT_CHAIN_ID: string := "11155111"

  // ---------------------------------------------------------------------
  // The transaction-hash pattern `^0x[a-fA-F0-9]{64}$`

  predicate IsHexDigit(c: char) {
    ('0' <= c <= '9') || ('a' <= c <= 'f') || ('A' <= c <= 'F')
  }

  /** `[a-fA-F0-9]{n}$`: exactly `n` hex digits and then the end. */
  function HexRun(s: string, n: nat): (b: bool)
    ensures b <==> |s| == n && forall i :: 0 <= i < |s| ==> IsHexDigit(s[i])
  {
    if n == 0 then s == ""
    else if s == [] || !IsHexDigit(s[0]) then false
    else
      var ok := HexRun(s[1..], n - 1);
      assert forall i :: 1 <= i < |s| ==> s[i] == s[1..][i - 1];
      ok
  }

  /** The whole pattern: a lower-case "0x" and then 64 hex digits of either
      case. */
  function IsValidTxHash(s: string): (b: bool)
    ensures b <==> |s| == 66 && s[0] == '0' && s[1] == 'x' &&
                   forall i :: 2 <= i < 66 ==> IsHexDigit(s[i])
  {
    var ok := |s| >= 2 && s[0] == '0' && s[1] == 'x' && HexRun(s[2..], 64);
    assert |s| >= 2 ==> forall i :: 2 <= i < |s| ==> s[i] == s[2..][i - 2];
    ok
  }

  // ---------------------------------------------------------------------
  // Row updates

  /** The row `initiateCryptoSubscriptionPayment` inserts for a user with
      no subscription yet: pending, inactive, for thirty days from now. */
  function PendingRow(userId: string, planId: string, walletAddress: string, now: int): UserSubscription {
    UserSubscription(
      userId := userId,
      stripeCustomerId := None, stripeSubscriptionId := None, stripePriceId := None,
      paymentMethod := "crypto", planId := planId,
      status := "pending", isActive := false,
      currentPeriodStart := now, currentPeriodEnd := now + THIRTY_DAYS_MS,
      cancelledAt := None, renewalDate := None,
      txnHash := None, walletAddress := Some(walletAddress),
      createdAt := now, updatedAt := now)
  }

  /** The `onConflictDoUpdate` set for a user who already has a row. */
  function MarkedPending(row: UserSubscription, planId: string, walletAddress: string, now: int): UserSubscription {
    row.(planId := planId, paymentMethod := "crypto", walletAddress := Some(walletAddress),
         status := "pending", updatedAt := now)
  }

  /** The activation both confirmation paths write. */
  function Activated(row: UserSubscription, txnHash: string, now: int): UserSubscription {
    row.(txnHash := Some(txnHash), status := "active", isActive := true,
         currentPeriodStart := now, currentPeriodEnd := now + THIRTY_DAYS_MS,
         renewalDate := Some(now + THIRTY_DAYS_MS), updatedAt := now)
  }

  /** The renewal: a new period of thirty days from now. */
  function Renewed(row: UserSubscription, txnHash: string, now: int): UserSubscription {
    row.(txnHash := Some(txnHash),
         currentPeriodStart := now, currentPeriodEnd := now + THIRTY_DAYS_MS,
         renewalDate := Some(now + THIRTY_DAYS_MS), updatedAt := now)
  }

  // ---------------------------------------------------------------------
  // The actions as functions of the table

  datatype InitiateResponse =
    | InitiateFailed(message: string)
    | PaymentRequested(paymentReference: string, walletAddress: string, amount: int, chainId: string)

  datatype Initiation = Initiation(response: InitiateResponse, rows: map<string, UserSubscription>)

  /** `initiateCryptoSubscriptionPayment`. */
  function InitiateStep(rows: map<string, UserSubscription>, user: Option<AuthUser>, planId: string,
                        walletAddress: string, walletIsValid: bool, amount: int,
                        paymentReference: string, chainIdEnv: Option<string>, now: int): (s: Initiation)
    ensures user.None? ==> s == Initiation(InitiateFailed(UNAUTHORIZED), rows)
    ensures user.Some? && !walletIsValid ==> s == Initiation(InitiateFailed(INVALID_WALLET), rows)
    ensures s.response.PaymentRequested? <==> user.Some? && walletIsValid
    ensures s.response.PaymentRequested? ==>
              && s.response.chainId == (if Present(chainIdEnv) then chainIdEnv.value else DEFAULT_CHAIN_ID)
              && s.response.paymentReference == paymentReference
              && s.response.walletAddress == walletAddress && s.response.amount == amount
              && s.rows.Keys == rows.Keys + {user.value.id}
              && (forall u :: u in rows && u != user.value.id ==> s.rows[u] == rows[u])
              && s.rows[user.value.id] ==
                   if user.value.id in rows then MarkedPending(rows[user.value.id], planId, walletAddress, now)
                   else PendingRow(user.value.id, planId, walletAddress, now)
  {
    if user.None? then Initiation(InitiateFailed(UNAUTHORIZED), rows)
    else if !walletIsValid then Initiation(InitiateFailed(INVALID_WALLET), rows)
    else
      var id := user.value.id;
      var row := if id in rows then MarkedPending(rows[id], planId, walletAddress, now)
                 else PendingRow(id, planId, walletAddress, now);
      var chainId := if Present(chainIdEnv) then chainIdEnv.value else DEFAULT_CHAIN_ID;
      Initiation(PaymentRequested(paymentReference, walletAddress, amount, chainId), rows[id := row])
  }

  /** `confirmCryptoSubscriptionPayment`: no authentication, and an update
      that matches no row changes nothing. */
  function ConfirmStep(rows: map<string, UserSubscription>, userId: string, txnHash: string,
                       planId: string, now: int): (s: Step)
    ensures s.result.Succeeded? <==> IsValidTxHash(txnHash)
    ensures s.result.Failed? ==> s == Step(Failed(INVALID_HASH), rows)
    ensures s.result.Succeeded? ==>
              s.rows == if userId in rows then rows[userId := Activated(rows[userId], txnHash, now)] else rows
  {
    if !IsValidTxHash(txnHash) then Step(Failed(INVALID_HASH), rows)
    else if userId in rows then Step(Succeeded, rows[userId := Activated(rows[userId], txnHash, now)])
    else Step(Succeeded, rows)
  }

  /** `renewCryptoSubscription`: authentication, then the hash, then the
      user's row. */
  function RenewStep(rows: map<string, UserSubscription>, user: Option<AuthUser>, txnHash: string, now: int): (s: Step)
    ensures user.None? ==> s.result == Failed(UNAUTHORIZED)
    ensures user.Some? && !IsValidTxHash(txnHash) ==> s.result == Failed(INVALID_HASH)
    ensures s.result.Succeeded? <==> user.Some? && IsValidTxHash(txnHash) && user.value.id in rows
    ensures s.result.Failed? ==> s.rows == rows
    ensures s.result.Succeeded? ==> s.rows == rows[user.value.id := Renewed(rows[user.value.id], txnHash, now)]
  {
    if user.None? then Step(Failed(UNAUTHORIZED), rows)
    else if !IsValidTxHash(txnHash) then Step(Failed(INVALID_HASH), rows)
    else if user.value.id !in rows then Step(Failed(NO_SUBSCRIPTION), rows)
    else Step(Succeeded, rows[user.value.id := Renewed(rows[user.value.id], txnHash, now)])
  }

  // ---------------------------------------------------------------------
  // The actions on the table

  method InitiateCryptoSubscriptionPayment(
    t: SubscriptionTable, user: Option<AuthUser>, planId: string, walletAddress: string,
    walletIsValid: bool, amount: int, paymentReference: string, chainIdEnv: Option<string>, now: int)
    returns (r: InitiateResponse)
    requires t.Valid()
    modifies t
    ensures t.Valid()
    ensures Initiation(r, t.rows) ==
            InitiateStep(old(t.rows), user, planId, walletAddress, walletIsValid, amount, paymentReference, chainIdEnv, now)
  {
    if user.None? {
      return InitiateFailed(UNAUTHORIZED);
    }
    if !walletIsValid {
      return InitiateFailed(INVALID_WALLET);
    }
    var id := user.value.id;
    if id in t.rows {
      t.rows := t.rows[id := MarkedPending(t.rows[id], planId, walletAddress, now)];
    } else {
      t.rows := t.rows[id := PendingRow(id, planId, walletAddress, now)];
    }
    var chainId := DEFAULT_CHAIN_ID;
    if Present(chainIdEnv) {
      chainId := chainIdEnv.value;
    }
    r := PaymentRequested(paymentReference, walletAddress, amount, chainId);
  }

  method ConfirmCryptoSubscriptionPayment(t: SubscriptionTable, userId: string, txnHash: string,
                                          planId: string, now: int) returns (r: ActionResult)
    requires t.Valid()
    modifies t
    ensures t.Valid()
    ensures Step(r, t.rows) == ConfirmStep(old(t.rows), userId, txnHash, planId, now)
  {
    if !IsValidTxHash(txnHash) {
      return Failed(INVALID_HASH);
    }
    if userId in t.rows {
      t.rows := t.rows[userId := Activated(t.rows[userId], txnHash, now)];
    }
    r := Succeeded;
  }

  method RenewCryptoSubscription(t: SubscriptionTable, user: Option<AuthUser>, txnHash: string, now: int)
    returns (r: ActionResult)
    requires t.Valid()
    modifies t
    ensures t.Valid()
    ensures Step(r, t.rows) == RenewStep(old(t.rows), user, txnHash, now)
  {
    if user.None? {
      return Failed(UNAUTHORIZED);
    }
    if !IsValidTxHash(txnHash) {
      return Failed(INVALID_HASH);
    }
    var id := user.value.id;
    if id !in t.rows {
      return Failed(NO_SUBSCRIPTION);
    }
    t.rows := t.rows[id := Renewed(t.rows[id], txnHash, now)];
    r := Succeeded;
  }

  // ---------------------------------------------------------------------
  // Properties

  /** A first crypto payment creates a row that grants nothing until it is
      confirmed. */
  lemma NewPendingRowIsNotPremium(userId: string, planId: string, walletAddress: string, now: int, at: int)
    ensures !Premium.IsPremiumUser(Some(PendingRow(userId, planId, walletAddress, now)), at)
    ensures PendingRow(userId, planId, walletAddress, now).currentPeriodEnd - now == THIRTY_DAYS_MS
  {
  }

  /** Initiating on an existing row changes neither its active flag nor its
      period, so it does not change whether the user is premium. */
  lemma InitiateKeepsExistingEntitlement(row: UserSubscription, planId: string, walletAddress: string, now: int, at: int)
    ensures var p := MarkedPending(row, planId, walletAddress, now);
            && p.isActive == row.isActive
            && p.currentPeriodStart == row.currentPeriodStart && p.currentPeriodEnd == row.currentPeriodEnd
            && p.status == "pending"
            && (Premium.IsPremiumUser(Some(p), at) <==> Premium.IsPremiumUser(Some(row), at))
  {
  }

  /** A confirmed payment makes the user premium for the thirty days that
      follow, and leaves the plan as it was. */
  lemma ConfirmGrantsThirtyDays(rows: map<string, UserSubscription>, userId: string, txnHash: string,
                                planId: string, now: int, at: int)
    requires IsValidTxHash(txnHash) && userId in rows
    requires now <= at < now + THIRTY_DAYS_MS
    ensures var s := ConfirmStep(rows, userId, txnHash, planId, now);
            && Premium.IsPremiumUser(Some(s.rows[userId]), at)
            && !Premium.IsPremiumUser(Some(s.rows[userId]), now + THIRTY_DAYS_MS)
            && s.rows[userId].planId == rows[userId].planId
  {
  }

  /** Initiating and then confirming activates the row on the plan chosen
      at initiation. */
  lemma InitiateThenConfirm(rows: map<string, UserSubscription>, user: AuthUser, planId: string,
                            walletAddress: string, amount: int, paymentReference: string,
                            chainIdEnv: Option<string>, txnHash: string, otherPlanId: string, now: int, later: int)
    requires IsValidTxHash(txnHash)
    ensures var i := InitiateStep(rows, Some(user), planId, walletAddress, true, amount, paymentReference, chainIdEnv, now);
            var c := ConfirmStep(i.rows, user.id, txnHash, otherPlanId, later);
            && c.rows[user.id].status == "active" && c.rows[user.id].isActive
            && c.rows[user.id].planId == planId
            && c.rows[user.id].walletAddress == Some(walletAddress)
  {
  }

  /** A renewal counts thirty days from now, not from the old end: it can
      shorten a period that still had more than thirty days left, and it
      leaves the status and the active flag alone. */
  lemma RenewCountsFromNow(rows: map<string, UserSubscription>, user: AuthUser, txnHash: string, now: int)
    requires IsValidTxHash(txnHash) && user.id in rows
    ensures var s := RenewStep(rows, Some(user), txnHash, now);
            var before := rows[user.id];
            var after := s.rows[user.id];
            && after.currentPeriodEnd == now + THIRTY_DAYS_MS
            && after.status == before.status && after.isActive == before.isActive
            && (before.currentPeriodEnd > now + THIRTY_DAYS_MS ==> after.currentPeriodEnd < before.currentPeriodEnd)
  {
  }

  /** Renewing a cancelled subscription does not reactivate it. */
  lemma RenewDoesNotReactivate(rows: map<string, UserSubscription>, user: AuthUser, txnHash: string, now: int, at: int)
    requires user.id in rows && !rows[user.id].isActive
    ensures !Premium.IsPremiumUser(Some(RenewStep(rows, Some(user), txnHash, now).rows[user.id]), at)
  {
  }
}
