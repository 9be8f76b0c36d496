/**
 * The card-payment subscription actions: starting a checkout, changing plan,
 * cancelling, pausing and resuming. Each action authenticates the user,
 * checks its guards in order, and then updates the user's row in place. The
 * calls to the payment provider are not modelled; the signed-in user (the
 * result of `getOptionalUser`) and the plan table are inputs.
 */
module PremiumSubscription {
  import opened Wrappers
  import opened Schema
  import opened Auth0
  import Premium

  const NO_ACTIVE: string := "No active subscription found"
  const ONLY_STRIPE: string := "Only Stripe subscriptions can be updated via this method"
  const NEW_PLAN_NOT_FOUND: string := "New subscription plan not found"
  const PRICE_NOT_CONFIGURED: string := "Price not configured for selected plan"
  const NO_PAUSED: string := "No paused subscription found"
  const EMAIL_REQUIRED: string := "User email is required to create a subscription"
  const PLAN_NOT_FOUND: string := "Subscription plan not found"

  /** The current user's subscription, as `getUserSubscription` returns it. */
  function Current(rows: map<string, UserSubscription>, userId: string): Option<UserSubscription> {
    if userId in rows then Some(rows[userId]) else None
  }

  // ---------------------------------------------------------------------
  // Checkout

  datatype CheckoutOutcome =
    | CheckoutFailed(message: string)
    | BillingPortal(customerId: string)
    | NewCheckout(priceId: string, customerEmail: string, userId: string, planId: string, billingCycle: string)

  /** The default `createStripeCheckout` uses when the cycle is omitted;
      here the caller passes it. */
  const DEFAULT_BILLING_CYCLE: string := "monthly"

  /** The price a checkout is opened with: the yearly price exactly for the
      "yearly" cycle, the monthly price for anything else. */
  function SelectPriceId(plan: Plan, billingCycle: string): Option<string> {
    if billingCycle == "yearly" then plan.stripePriceIdYearly else plan.stripePriceIdMonthly
  }

  /** `createStripeCheckout`: what the action returns or throws. It writes
      nothing. */
  function CreateStripeCheckout(
    user: Option<AuthUser>, planId: string, billingCycle: string,
    plans: map<string, Plan>, rows: map<string, UserSubscription>): (r: CheckoutOutcome)
    ensures user.None? ==> r == CheckoutFailed(UNAUTHORIZED)
    ensures user.Some? && !Present(user.value.email) ==> r == CheckoutFailed(EMAIL_REQUIRED)
    ensures user.Some? && Present(user.value.email) && planId !in plans ==> r == CheckoutFailed(PLAN_NOT_FOUND)
    ensures r.BillingPortal? <==>
              user.Some? && Present(user.value.email) && planId in plans &&
              user.value.id in rows && rows[user.value.id].isActive &&
              Present(rows[user.value.id].stripeCustomerId)
    ensures r.BillingPortal? ==> r.customerId == rows[user.value.id].stripeCustomerId.value
    ensures r.NewCheckout? ==>
              user.Some? && planId in plans &&
              Some(r.priceId) == SelectPriceId(plans[planId], billingCycle) && r.priceId != "" &&
              r.customerEmail == user.value.email.value && r.userId == user.value.id &&
              r.planId == planId && r.billingCycle == billingCycle
  {
    if user.None? then CheckoutFailed(UNAUTHORIZED)
    else if !Present(user.value.email) then CheckoutFailed(EMAIL_REQUIRED)
    else if planId !in plans then CheckoutFailed(PLAN_NOT_FOUND)
    else
      var current := Current(rows, user.value.id);
      if current.Some? && current.value.isActive && Present(current.value.stripeCustomerId) then
        BillingPortal(current.value.stripeCustomerId.value)
      else
        var plan := plans[planId];
        var priceId := SelectPriceId(plan, billingCycle);
        if !Present(priceId) then
          CheckoutFailed("Stripe price ID not configured for " + plan.name + " - " + billingCycle)
        else
          NewCheckout(priceId.value, user.value.email.value, user.value.id, planId, billingCycle)
  }

  /** Price selection: a checkout for "yearly" uses the yearly price and any
      other cycle the monthly one; with that price missing it fails. */
  lemma CheckoutPriceSelection(
    user: AuthUser, planId: string, billingCycle: string,
    plans: map<string, Plan>, rows: map<string, UserSubscription>)
    requires Present(user.email) && planId in plans
    requires !(user.id in rows && rows[user.id].isActive && Present(rows[user.id].stripeCustomerId))
    ensures var r := CreateStripeCheckout(Some(user), planId, billingCycle, plans, rows);
            var wanted := if billingCycle == "yearly" then plans[planId].stripePriceIdYearly
                          else plans[planId].stripePriceIdMonthly;
            (r.NewCheckout? <==> Present(wanted)) &&
            (r.NewCheckout? ==> r.priceId == wanted.value)
  {
  }

  // ---------------------------------------------------------------------
  // Row updates

  /** The `set` of `updateSubscriptionPlan`. */
  function WithPlan(row: UserSubscription, planId: string, priceId: string, now: int): UserSubscription {
    row.(planId := planId, stripePriceId := Some(priceId), updatedAt := now)
  }

  /** The `set` of `cancelSubscription`. */
  function Cancelled(row: UserSubscription, now: int): UserSubscription {
    row.(status := "cancelled", isActive := false, cancelledAt := Some(now), updatedAt := now)
  }

  /** The `set` of `pauseSubscription`: the status only; the row stays active. */
  function Paused(row: UserSubscription, now: int): UserSubscription {
    row.(status := "paused", updatedAt := now)
  }

  /** The `set` of `resumeSubscription`. */
  function Resumed(row: UserSubscription, now: int): UserSubscription {
    row.(status := "active", isActive := true, updatedAt := now)
  }

  // ---------------------------------------------------------------------
  // The actions as functions of the table

  /** `updateSubscriptionPlan`: an active Stripe subscription moves to an
      existing plan at that plan's monthly price. */
  function UpdatePlanStep(rows: map<string, UserSubscription>, user: Option<AuthUser>,
                          newPlanId: string, plans: map<string, Plan>, now: int): (s: Step)
    ensures s.result.Succeeded? <==>
              user.Some? && user.value.id in rows && rows[user.value.id].isActive &&
              rows[user.value.id].paymentMethod == "stripe" &&
              Present(rows[user.value.id].stripeSubscriptionId) &&
              newPlanId in plans && Present(plans[newPlanId].stripePriceIdMonthly)
    ensures s.result.Failed? ==> s.rows == rows
    ensures s.result.Succeeded? ==>
              s.rows == rows[user.value.id := WithPlan(rows[user.value.id], newPlanId,
                                                       plans[newPlanId].stripePriceIdMonthly.value, now)]
  {
    if user.None? then Step(Failed(UNAUTHORIZED), rows)
    else
      var current := Current(rows, user.value.id);
      if current.None? || !current.value.isActive then Step(Failed(NO_ACTIVE), rows)
      else if current.value.paymentMethod != "stripe" || !Present(current.value.stripeSubscriptionId) then
        Step(Failed(ONLY_STRIPE), rows)
      else if newPlanId !in plans then Step(Failed(NEW_PLAN_NOT_FOUND), rows)
      else if !Present(plans[newPlanId].stripePriceIdMonthly) then Step(Failed(PRICE_NOT_CONFIGURED), rows)
      else
        Step(Succeeded, rows[user.value.id := WithPlan(current.value, newPlanId,
                                                        plans[newPlanId].stripePriceIdMonthly.value, now)])
  }

  /** `cancelSubscription`: only an active subscription can be cancelled. */
  function CancelStep(rows: map<string, UserSubscription>, user: Option<AuthUser>, now: int): (s: Step)
    ensures s.result.Succeeded? <==> user.Some? && user.value.id in rows && rows[user.value.id].isActive
    ensures s.result.Failed? ==> s.rows == rows
    ensures s.result.Succeeded? ==> s.rows == rows[user.value.id := Cancelled(rows[user.value.id], now)]
  {
    if user.None? then Step(Failed(UNAUTHORIZED), rows)
    else
      var current := Current(rows, user.value.id);
      if current.None? || !current.value.isActive then Step(Failed(NO_ACTIVE), rows)
      else Step(Succeeded, rows[user.value.id := Cancelled(current.value, now)])
  }

  /** `pauseSubscription`: only an active subscription can be paused. */
  function PauseStep(rows: map<string, UserSubscription>, user: Option<AuthUser>, now: int): (s: Step)
    ensures s.result.Succeeded? <==> user.Some? && user.value.id in rows && rows[user.value.id].isActive
    ensures s.result.Failed? ==> s.rows == rows
    ensures s.result.Succeeded? ==> s.rows == rows[user.value.id := Paused(rows[user.value.id], now)]
  {
    if user.None? then Step(Failed(UNAUTHORIZED), rows)
    else
      var current := Current(rows, user.value.id);
      if current.None? || !current.value.isActive then Step(Failed(NO_ACTIVE), rows)
      else Step(Succeeded, rows[user.value.id := Paused(current.value, now)])
  }

  /** `resumeSubscription`: only a subscription whose status is "paused". */
  function ResumeStep(rows: map<string, UserSubscription>, user: Option<AuthUser>, now: int): (s: Step)
    ensures s.result.Succeeded? <==> user.Some? && user.value.id in rows && rows[user.value.id].status == "paused"
    ensures s.result.Failed? ==> s.rows == rows
    ensures s.result.Succeeded? ==> s.rows == rows[user.value.id := Resumed(rows[user.value.id], now)]
  {
    if user.None? then Step(Failed(UNAUTHORIZED), rows)
    else
      var current := Current(rows, user.value.id);
      if current.None? || current.value.status != "paused" then Step(Failed(NO_PAUSED), rows)
      else Step(Succeeded, rows[user.value.id := Resumed(current.value, now)])
  }

  // ---------------------------------------------------------------------
  // The actions on the table

  method UpdateSubscriptionPlan(t: SubscriptionTable, user: Option<AuthUser>, newPlanId: string,
                                plans: map<string, Plan>, now: int) returns (r: ActionResult)
    requires t.Valid()
    modifies t
    ensures t.Valid()
    ensures Step(r, t.rows) == UpdatePlanStep(old(t.rows), user, newPlanId, plans, now)
  {
    if user.None? {
      return Failed(UNAUTHORIZED);
    }
    var id := user.value.id;
    if id !in t.rows || !t.rows[id].isActive {
      return Failed(NO_ACTIVE);
    }
    var current := t.rows[id];
    if current.paymentMethod != "stripe" || !Present(current.stripeSubscriptionId) {
      return Failed(ONLY_STRIPE);
    }
    if newPlanId !in plans {
      return Failed(NEW_PLAN_NOT_FOUND);
    }
    var newPriceId := plans[newPlanId].stripePriceIdMonthly;
    if !Present(newPriceId) {
      return Failed(PRICE_NOT_CONFIGURED);
    }
    t.rows := t.rows[id := WithPlan(current, newPlanId, newPriceId.value, now)];
    r := Succeeded;
  }

  method CancelSubscription(t: SubscriptionTable, user: Option<AuthUser>, now: int) returns (r: ActionResult)
    requires t.Valid()
    modifies t
    ensures t.Valid()
    ensures Step(r, t.rows) == CancelStep(old(t.rows), user, now)
  {
    if user.None? {
      return Failed(UNAUTHORIZED);
    }
    var id := user.value.id;
    if id !in t.rows || !t.rows[id].isActive {
      return Failed(NO_ACTIVE);
    }
    t.rows := t.rows[id := Cancelled(t.rows[id], now)];
    r := Succeeded;
  }

  method PauseSubscription(t: SubscriptionTable, user: Option<AuthUser>, now: int) returns (r: ActionResult)
    requires t.Valid()
    modifies t
    ensures t.Valid()
    ensures Step(r, t.rows) == PauseStep(old(t.rows), user, now)
  {
    if user.None? {
      return Failed(UNAUTHORIZED);
    }
    var id := user.value.id;
    if id !in t.rows || !t.rows[id].isActive {
      return Failed(NO_ACTIVE);
    }
    t.rows := t.rows[id := Paused(t.rows[id], now)];
    r := Succeeded;
  }

  method ResumeSubscription(t: SubscriptionTable, user: Option<AuthUser>, now: int) returns (r: ActionResult)
    requires t.Valid()
    modifies t
    ensures t.Valid()
    ensures Step(r, t.rows) == ResumeStep(old(t.rows), user, now)
  {
    if user.None? {
      return Failed(UNAUTHORIZED);
    }
    var id := user.value.id;
    if id !in t.rows || t.rows[id].status != "paused" {
      return Failed(NO_PAUSED);
    }
    t.rows := t.rows[id := Resumed(t.rows[id], now)];
    r := Succeeded;
  }

  // ---------------------------------------------------------------------
  // The state machine

  /** A plan change touches the plan, the price and the update time only. */
  lemma PlanChangeTouchesOnlyPlanAndPrice(rows: map<string, UserSubscription>, user: Option<AuthUser>,
                                          newPlanId: string, plans: map<string, Plan>, now: int)
    requires UpdatePlanStep(rows, user, newPlanId, plans, now).result.Succeeded?
    ensures var s := UpdatePlanStep(rows, user, newPlanId, plans, now);
            var before := rows[user.value.id];
            var after := s.rows[user.value.id];
            && after.planId == newPlanId
            && after.stripePriceId == plans[newPlanId].stripePriceIdMonthly
            && after.(planId := before.planId, stripePriceId := before.stripePriceId,
                      updatedAt := before.updatedAt) == before
            && forall u :: u in rows && u != user.value.id ==> u in s.rows && s.rows[u] == rows[u]
  {
  }

  /** Pausing leaves the row active, so after a pause both a second pause
      and a cancel still succeed. */
  lemma PauseKeepsGuardsOpen(rows: map<string, UserSubscription>, user: Option<AuthUser>, now: int, later: int)
    requires PauseStep(rows, user, now).result.Succeeded?
    ensures var paused := PauseStep(rows, user, now).rows;
            && paused[user.value.id].isActive
            && PauseStep(paused, user, later).result.Succeeded?
            && CancelStep(paused, user, later).result.Succeeded?
  {
  }

  /** A paused subscription resumes to an active one. */
  lemma PauseThenResume(rows: map<string, UserSubscription>, user: Option<AuthUser>, now: int, later: int)
    requires PauseStep(rows, user, now).result.Succeeded?
    ensures var s := ResumeStep(PauseStep(rows, user, now).rows, user, later);
            s.result.Succeeded? && s.rows[user.value.id].status == "active" && s.rows[user.value.id].isActive
  {
  }

  /** A cancelled subscription can be neither cancelled nor paused again nor
      resumed, and it no longer makes its user premium. */
  lemma CancelIsFinal(rows: map<string, UserSubscription>, user: Option<AuthUser>, now: int, later: int)
    requires CancelStep(rows, user, now).result.Succeeded?
    ensures var c := CancelStep(rows, user, now).rows;
            && CancelStep(c, user, later).result == Failed(NO_ACTIVE)
            && PauseStep(c, user, later).result == Failed(NO_ACTIVE)
            && ResumeStep(c, user, later).result == Failed(NO_PAUSED)
            && !Premium.IsPremiumUser(Some(c[user.value.id]), later)
  {
  }

  /** Every action keeps each row under its own key. */
  lemma StepsKeepKeys(rows: map<string, UserSubscription>, user: Option<AuthUser>,
                      newPlanId: string, plans: map<string, Plan>, now: int)
    requires KeyedByUser(rows)
    ensures KeyedByUser(UpdatePlanStep(rows, user, newPlanId, plans, now).rows)
    ensures KeyedByUser(CancelStep(rows, user, now).rows)
    ensures KeyedByUser(PauseStep(rows, user, now).rows)
    ensures KeyedByUser(ResumeStep(rows, user, now).rows)
  {
  }
}
