/**
 * The decision of `POST /api/subscriptions/check-premium`: whether the user
 * is premium, whether a requested feature is available, and the defaults it
 * reports. The subscription lookup is an input map from user id to the row
 * with its plan and features.
 */
module CheckPremium {
  import opened Wrappers
  import opened Schema
  import Premium

  /** The parsed JSON body; `None` is a missing field. */
  datatype CheckRequest = CheckRequest(userId: Option<string>, feature: Option<string>)

  datatype CheckResponse =
    | BadRequest(status: int, error: string)
    | Checked(isPremium: bool, hasFeature: bool, subscriptionStatus: string, planName: string)

  function Lookup(subscriptions: map<string, SubscriptionWithPlan>, userId: string): Option<SubscriptionWithPlan> {
    if userId in subscriptions then Some(subscriptions[userId]) else None
  }

  /** The handler. A missing or empty `userId` is a 400; otherwise the
      answer comes from the user's subscription. The source's `isPremium`
      is `undefined` when there is no subscription, which is reported here as
      `false`; a missing plan makes `hasFeature` `false` likewise. */
  function HandleCheckPremium(req: CheckRequest, subscriptions: map<string, SubscriptionWithPlan>, now: int): (r: CheckResponse)
    ensures r.BadRequest? <==> !Present(req.userId)
    ensures r.BadRequest? ==> r.status == 400 && r.error == "User ID is required"
    ensures r.Checked? ==>
              var sub := Lookup(subscriptions, req.userId.value);
              && (r.isPremium <==> Premium.IsPremiumUser(if sub.Some? then Some(sub.value.row) else None, now))
              && (!r.isPremium || !Present(req.feature) ==> r.hasFeature)
              && (r.isPremium && Present(req.feature) ==>
                    (r.hasFeature <==> exists i :: 0 <= i < |Premium.PlanFeatures(sub.value)| &&
                                                   Premium.PlanFeatures(sub.value)[i].featureName == req.feature.value))
    // `subscription?.status || "none"`: the stored status unless there is no row or it is empty
    ensures r.Checked? ==>
              var sub := Lookup(subscriptions, req.userId.value);
              r.subscriptionStatus == (if sub.Some? && sub.value.row.status != "" then sub.value.row.status else "none")
    // `subscription?.plan?.name || "free"`: the plan's name unless there is no row, no plan or an empty name
    ensures r.Checked? ==>
              var sub := Lookup(subscriptions, req.userId.value);
              r.planName == (if sub.Some? && sub.value.plan.Some? && sub.value.plan.value.name != ""
                             then sub.value.plan.value.name else "free")
  {
    if !Present(req.userId) then BadRequest(400, "User ID is required")
    else
      var sub := Lookup(subscriptions, req.userId.value);
      var isPremium := sub.Some? && sub.value.row.isActive && sub.value.row.currentPeriodEnd > now;
      var hasFeature :=
        if isPremium && Present(req.feature) then
          sub.value.plan.Some? && Premium.SomeFeatureNamed(sub.value.plan.value.features, req.feature.value)
        else true;
      assert isPremium && Present(req.feature) ==>
        (hasFeature <==> Premium.SomeFeatureNamed(Premium.PlanFeatures(sub.value), req.feature.value));
      Checked(
        isPremium,
        hasFeature,
        if sub.Some? && sub.value.row.status != "" then sub.value.row.status else "none",
        if sub.Some? && sub.value.plan.Some? && sub.value.plan.value.name != "" then sub.value.plan.value.name else "free")
  }

  /** Users without a subscription are reported as status "none" on the
      "free" plan. */
  lemma DefaultsWithoutSubscription(req: CheckRequest, subscriptions: map<string, SubscriptionWithPlan>, now: int)
    requires Present(req.userId) && req.userId.value !in subscriptions
    ensures var r := HandleCheckPremium(req, subscriptions, now);
            r == Checked(false, true, "none", "free")
  {
  }

  /** A row whose plan is missing reports the "free" plan, whatever its
      status and whether or not it is premium. */
  lemma MissingPlanReportsFree(req: CheckRequest, subscriptions: map<string, SubscriptionWithPlan>, now: int)
    requires Present(req.userId) && req.userId.value in subscriptions
    requires subscriptions[req.userId.value].plan.None?
    ensures HandleCheckPremium(req, subscriptions, now).planName == "free"
  {
  }

  /** A row with an empty status reports "none", like a missing row. */
  lemma EmptyStatusReportsNone(req: CheckRequest, subscriptions: map<string, SubscriptionWithPlan>, now: int)
    requires Present(req.userId) && req.userId.value in subscriptions
    requires subscriptions[req.userId.value].row.status == ""
    ensures HandleCheckPremium(req, subscriptions, now).subscriptionStatus == "none"
  {
  }

  /** A row with a status and a named plan reports both as stored. */
  lemma StoredStatusAndPlanAreReported(req: CheckRequest, subscriptions: map<string, SubscriptionWithPlan>, now: int)
    requires Present(req.userId) && req.userId.value in subscriptions
    requires subscriptions[req.userId.value].row.status != ""
    requires subscriptions[req.userId.value].plan.Some? && subscriptions[req.userId.value].plan.value.name != ""
    ensures var r := HandleCheckPremium(req, subscriptions, now);
            r.subscriptionStatus == subscriptions[req.userId.value].row.status &&
            r.planName == subscriptions[req.userId.value].plan.value.name
  {
  }

  /** For a premium user who asks about a feature, the route and `hasFeature`
      of the premium library agree. */
  lemma AgreesWithLibraryHasFeature(req: CheckRequest, subscriptions: map<string, SubscriptionWithPlan>, now: int)
    requires Present(req.userId) && Present(req.feature)
    requires HandleCheckPremium(req, subscriptions, now).isPremium
    ensures HandleCheckPremium(req, subscriptions, now).hasFeature <==>
            Premium.HasFeature(Lookup(subscriptions, req.userId.value), req.feature.value, now)
  {
  }
}
