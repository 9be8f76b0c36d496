/**
 * Premium entitlement checks over a user's subscription record. The record
 * the source fetches from the database is an input here (`None` when the
 * user has none), and so is the current time `now`.
 */
module Premium {
  import opened Wrappers
  import opened Schema

  const SEVEN_DAYS_MS: int := 7 * DAY_MS

  /** `isPremiumUser`: an active subscription whose period has not ended. */
  predicate IsPremiumUser(sub: Option<UserSubscription>, now: int) {
    if sub.None? then false
    else sub.value.isActive && sub.value.currentPeriodEnd > now
  }

  /** `features.some(f => f.featureName === name)`. */
  predicate SomeFeatureNamed(features: seq<Feature>, name: string)
    ensures SomeFeatureNamed(features, name) <==>
            exists i :: 0 <= i < |features| && features[i].featureName == name
  {
    if features == [] then false
    else features[0].featureName == name || SomeFeatureNamed(features[1..], name)
  }

  /** `features.find(f => f.featureName === name)`: the first feature with
      that exact name. */
  function FindFeature(features: seq<Feature>, name: string): (r: Option<Feature>)
    ensures r.None? <==> forall i :: 0 <= i < |features| ==> features[i].featureName != name
    ensures r.Some? ==> exists i :: 0 <= i < |features| && features[i] == r.value &&
                          r.value.featureName == name &&
                          forall j :: 0 <= j < i ==> features[j].featureName != name
  {
    if features == [] then None
    else if features[0].featureName == name then Some(features[0])
    else
      var r := FindFeature(features[1..], name);
      assert forall j :: 1 <= j < |features| ==> features[j] == features[1..][j - 1];
      r
  }

  /** The features of the subscription's plan, none when the plan is absent. */
  function PlanFeatures(sub: SubscriptionWithPlan): seq<Feature> {
    if sub.plan.Some? then sub.plan.value.features else []
  }

  /** `hasFeature`: the subscription is active, its period end is not in the
      past, and its plan lists a feature with exactly this name. */
  predicate HasFeature(sub: Option<SubscriptionWithPlan>, featureName: string, now: int) {
    if sub.None? || !sub.value.row.isActive then false
    else if sub.value.row.currentPeriodEnd < now then false
    else SomeFeatureNamed(PlanFeatures(sub.value), featureName)
  }

  /** `getFeatureLimit`: `None` (the source's `null`) when the feature is not
      available, `-1` for an unlimited feature, otherwise its value. */
  function GetFeatureLimit(sub: Option<SubscriptionWithPlan>, featureName: string, now: int): Option<int> {
    if sub.None? || !sub.value.row.isActive then None
    else if sub.value.row.currentPeriodEnd < now then None
    else
      match FindFeature(PlanFeatures(sub.value), featureName)
      case None => None
      case Some(f) => if f.isUnlimited then Some(-1) else Some(f.value)
  }

  /** `isSubscriptionExpiringSoon`: the period ends within seven days (or has
      already ended); the active flag is not consulted. */
  predicate IsSubscriptionExpiringSoon(sub: Option<UserSubscription>, now: int) {
    if sub.None? then false else sub.value.currentPeriodEnd <= now + SEVEN_DAYS_MS
  }

  /** `getDaysRemaining`: whole days left, rounded up. */
  function GetDaysRemaining(sub: Option<UserSubscription>, now: int): (r: Option<int>)
    ensures r.None? <==> sub.None?
    ensures r.Some? ==> r.value >= 0
    ensures r.Some? && sub.value.currentPeriodEnd <= now ==> r.value == 0
    ensures r.Some? && sub.value.currentPeriodEnd > now ==>
              r.value >= 1 &&
              (r.value - 1) * DAY_MS < sub.value.currentPeriodEnd - now <= r.value * DAY_MS
  {
    if sub.None? then None
    else if sub.value.currentPeriodEnd < now then Some(0)
    else Some(CeilDiv(sub.value.currentPeriodEnd - now, DAY_MS))
  }

  /** `Math.ceil(n / d)` for a non-negative numerator and positive divisor. */
  function CeilDiv(n: nat, d: int): (q: nat)
    requires d > 0
    ensures (q - 1) * d < n <= q * d
  {
    (n + d - 1) / d
  }

  /** The labels of `formatSubscriptionStatus`. They are kept exactly as the
      source file stores them: each begins with the bytes of an emoji decoded
      in the wrong character set. */
  const STATUS_LABELS: map<string, string> := map[
    "active" := "\U{F8FF}\U{FC}\U{FC}\U{A2} Active",
    "cancelled" := "\U{F8FF}\U{FC}\U{EE}\U{A5} Cancelled",
    "paused" := "\U{201A}\U{E8}\U{220F}\U{D4}\U{220F}\U{E8} Paused",
    "expired" := "\U{201A}\U{E8}\U{B1}\U{D4}\U{220F}\U{E8} Expired",
    "pending" := "\U{201A}\U{E8}\U{2265} Pending"
  ]

  /** `formatSubscriptionStatus`: the label of one of the five known
      statuses; any other status unchanged. */
  function FormatSubscriptionStatus(status: string): (r: string)
    ensures status in STATUS_LABELS ==> r == STATUS_LABELS[status]
    ensures status !in STATUS_LABELS ==> r == status
    ensures r == status <==> status !in STATUS_LABELS
  {
    if status in STATUS_LABELS && STATUS_LABELS[status] != "" then STATUS_LABELS[status] else status
  }

  /** Both ways of looking a feature up agree: `some` finds a feature exactly
      when `find` does. */
  lemma SomeIffFind(features: seq<Feature>, name: string)
    ensures SomeFeatureNamed(features, name) <==> FindFeature(features, name).Some?
  {
  }

  /** A feature has a limit exactly when the user has the feature; the limit
      is `-1` exactly when the first feature of that name is unlimited. */
  lemma FeatureLimitIffHasFeature(sub: Option<SubscriptionWithPlan>, featureName: string, now: int)
    ensures GetFeatureLimit(sub, featureName, now).Some? <==> HasFeature(sub, featureName, now)
    ensures HasFeature(sub, featureName, now) ==>
              var f := FindFeature(PlanFeatures(sub.value), featureName).value;
              GetFeatureLimit(sub, featureName, now) == Some(if f.isUnlimited then -1 else f.value)
  {
    if sub.Some? {
      SomeIffFind(PlanFeatures(sub.value), featureName);
    }
  }

  /** A premium user passes the validity part of `hasFeature`: the features
      decide. */
  lemma PremiumUserFeatureDecidedByPlan(sub: SubscriptionWithPlan, featureName: string, now: int)
    requires IsPremiumUser(Some(sub.row), now)
    ensures HasFeature(Some(sub), featureName, now) <==>
            exists i :: 0 <= i < |PlanFeatures(sub)| && PlanFeatures(sub)[i].featureName == featureName
  {
  }

  /** `hasFeature` requires the subscription to be active and its end not
      to be in the past, whatever the plan lists. */
  lemma HasFeatureNeedsValidity(sub: Option<SubscriptionWithPlan>, featureName: string, now: int)
    requires HasFeature(sub, featureName, now)
    ensures sub.Some? && sub.value.row.isActive && sub.value.row.currentPeriodEnd >= now
  {
  }

  /** At the instant the period ends the two checks part: `hasFeature` still
      grants a listed feature while `isPremiumUser` already says no. */
  lemma BoundaryInstant(sub: SubscriptionWithPlan, featureName: string, now: int)
    requires sub.row.isActive && sub.row.currentPeriodEnd == now
    requires sub.plan.Some? && |sub.plan.value.features| > 0
    requires sub.plan.value.features[0].featureName == featureName
    ensures HasFeature(Some(sub), featureName, now)
    ensures !IsPremiumUser(Some(sub.row), now)
  {
  }

  /** An ended period is always flagged as expiring soon, and a subscription
      that is not flagged has more than seven days left. */
  lemma ExpiringSoonWhenEnded(sub: UserSubscription, now: int)
    ensures sub.currentPeriodEnd <= now ==> IsSubscriptionExpiringSoon(Some(sub), now)
    ensures !IsSubscriptionExpiringSoon(Some(sub), now) ==>
              GetDaysRemaining(Some(sub), now).value > 7
  {
    if !IsSubscriptionExpiringSoon(Some(sub), now) {
      var d := GetDaysRemaining(Some(sub), now).value;
      assert sub.currentPeriodEnd - now > 7 * DAY_MS;
      assert d * DAY_MS >= sub.currentPeriodEnd - now;
    }
  }
}
