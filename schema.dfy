/**
 * The subscription tables: plans, their features, and one subscription row
 * per user. Timestamps are integer milliseconds since the epoch; prices are
 * integer cents.
 */
module Schema {
  import opened Wrappers

  const SECOND_MS: int := 1000
  const DAY_MS: int := 24 * 60 * 60 * 1000
  const THIRTY_DAYS_MS: int := 30 * DAY_MS

  /** A row of `subscription_features`. */
  datatype Feature = Feature(
    id: string,
    planId: string,
    featureName: string,
    featureDescription: Option<string>,
    value: int,
    isUnlimited: bool)

  /** A row of `subscription_plans`, with the features loaded through the
      plan's `features` relation (empty when the query did not load them). */
  datatype Plan = Plan(
    id: string,
    name: string,
    description: string,
    monthlyPrice: int,
    yearlyPrice: int,
    stripePriceIdMonthly: Option<string>,
    stripePriceIdYearly: Option<string>,
    order: int,
    isPopular: bool,
    features: seq<Feature>)

  /** A row of `user_subscription`; `userId` is its primary key. */
  datatype UserSubscription = UserSubscription(
    userId: string,
    stripeCustomerId: Option<string>,
    stripeSubscriptionId: Option<string>,
    stripePriceId: Option<string>,
    paymentMethod: string,
    planId: string,
    status: string,
    isActive: bool,
    currentPeriodStart: int,
    currentPeriodEnd: int,
    cancelledAt: Option<int>,
    renewalDate: Option<int>,
    txnHash: Option<string>,
    walletAddress: Option<string>,
    createdAt: int,
    updatedAt: int)

  /** A subscription row fetched `with: { plan: ... }`: the plan it
      references, when that plan exists. */
  datatype SubscriptionWithPlan = SubscriptionWithPlan(row: UserSubscription, plan: Option<Plan>)

  /** How a server action ends: normally, or by throwing an error with this
      message. */
  datatype ActionResult = Succeeded | Failed(message: string)

  /** An action's outcome together with the table it leaves behind. */
  datatype Step = Step(result: ActionResult, rows: map<string, UserSubscription>)

  /** Every row is stored under its own primary key. */
  predicate KeyedByUser(rows: map<string, UserSubscription>) {
    forall u :: u in rows ==> rows[u].userId == u
  }

  /** The `user_subscription` table, updated in place by the subscription
      actions. */
  class SubscriptionTable {
    var rows: map<string, UserSubscription>

    ghost predicate Valid()
      reads this
    {
      KeyedByUser(rows)
    }

    constructor (initial: map<string, UserSubscription>)
      requires KeyedByUser(initial)
      ensures Valid() && rows == initial
    {
      rows := initial;
    }
  }
}
