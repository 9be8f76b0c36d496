/**
 * Subscription queries: the active test on one fetched subscription and the
 * revenue statistics over the list of all subscriptions with their plans.
 */
module SubscriptionQueries {
  import opened Wrappers
  import opened Schema
  import Premium

  /** `isSubscriptionActive`: `!!subscription && isActive && end > now`. */
  predicate IsSubscriptionActive(sub: Option<UserSubscription>, now: int) {
    sub.Some? && sub.value.isActive && sub.value.currentPeriodEnd > now
  }

  /** The query and `isPremiumUser` are the same test. */
  lemma ActiveIffPremium(sub: Option<UserSubscription>, now: int)
    ensures IsSubscriptionActive(sub, now) <==> Premium.IsPremiumUser(sub, now)
  {
  }

  /** The filter used for both the active count and the revenue. */
  predicate CountsAsActive(s: SubscriptionWithPlan, now: int) {
    s.row.isActive && s.row.currentPeriodEnd > now
  }

  /** `subscriptions.filter(s => s.isActive && s.currentPeriodEnd > now)`. */
  function ActiveSubscriptions(subs: seq<SubscriptionWithPlan>, now: int): (r: seq<SubscriptionWithPlan>)
    ensures |r| <= |subs|
    ensures forall i :: 0 <= i < |r| ==> r[i] in subs && CountsAsActive(r[i], now)
    ensures forall i :: 0 <= i < |subs| && CountsAsActive(subs[i], now) ==> subs[i] in r
  {
    if subs == [] then []
    else
      var rest := ActiveSubscriptions(subs[1..], now);
      assert forall i :: 1 <= i < |subs| ==> subs[i] == subs[1..][i - 1];
      if CountsAsActive(subs[0], now) then [subs[0]] + rest else rest
  }

  /** `subscriptions.filter(s => s.status === status).length`. */
  function CountWithStatus(subs: seq<SubscriptionWithPlan>, status: string): (n: nat)
    ensures n <= |subs|
  {
    if subs == [] then 0
    else (if subs[0].row.status == status then 1 else 0) + CountWithStatus(subs[1..], status)
  }

  /** `s.plan?.monthlyPrice || 0`. */
  function MonthlyPrice(s: SubscriptionWithPlan): int {
    if s.plan.Some? then s.plan.value.monthlyPrice else 0
  }

  /** `reduce((acc, s) => acc + (s.plan?.monthlyPrice || 0), 0)`. */
  function RevenueOf(subs: seq<SubscriptionWithPlan>): int {
    if subs == [] then 0 else RevenueOf(subs[..|subs| - 1]) + MonthlyPrice(subs[|subs| - 1])
  }

  datatype SubscriptionStats = SubscriptionStats(
    total: nat,
    active: nat,
    cancelled: nat,
    paused: nat,
    revenueCents: int,
    totalMonthlyRevenue: real)

  /** `getSubscriptionStats` over the fetched list. */
  function GetSubscriptionStats(subs: seq<SubscriptionWithPlan>, now: int): (r: SubscriptionStats)
    ensures r.total == |subs|
    ensures r.active <= r.total && r.cancelled <= r.total && r.paused <= r.total
    ensures r.cancelled + r.paused <= r.total
    ensures r.totalMonthlyRevenue * 100.0 == r.revenueCents as real
  {
    var active := ActiveSubscriptions(subs, now);
    StatusCountsDisjoint(subs);
    var revenue := RevenueOf(active);
    SubscriptionStats(
      |subs|,
      |active|,
      CountWithStatus(subs, "cancelled"),
      CountWithStatus(subs, "paused"),
      revenue,
      revenue as real / 100.0)
  }

  /** A subscription is counted as cancelled or as paused, never both. */
  lemma {:induction false} StatusCountsDisjoint(subs: seq<SubscriptionWithPlan>)
    ensures CountWithStatus(subs, "cancelled") + CountWithStatus(subs, "paused") <= |subs|
  {
    if subs != [] {
      StatusCountsDisjoint(subs[1..]);
    }
  }

  /** What a subscription adds to the revenue: its monthly price when it is
      active, nothing otherwise. */
  function Contribution(s: SubscriptionWithPlan, now: int): int {
    if CountsAsActive(s, now) then MonthlyPrice(s) else 0
  }

  function SumContributions(subs: seq<SubscriptionWithPlan>, now: int): int {
    if subs == [] then 0 else Contribution(subs[0], now) + SumContributions(subs[1..], now)
  }

  lemma {:induction false} RevenueOfPrepend(s: SubscriptionWithPlan, subs: seq<SubscriptionWithPlan>)
    ensures RevenueOf([s] + subs) == MonthlyPrice(s) + RevenueOf(subs)
    decreases |subs|
  {
    if subs != [] {
      var init := subs[..|subs| - 1];
      assert ([s] + subs)[..|[s] + subs| - 1] == [s] + init;
      RevenueOfPrepend(s, init);
    }
  }

  /** The revenue is the sum of the monthly prices of exactly the active
      subscriptions; an absent plan contributes nothing. */
  lemma {:induction false} RevenueIsSumOverActive(subs: seq<SubscriptionWithPlan>, now: int)
    ensures GetSubscriptionStats(subs, now).revenueCents == SumContributions(subs, now)
  {
    RevenueOfActive(subs, now);
  }

  lemma {:induction false} RevenueOfActive(subs: seq<SubscriptionWithPlan>, now: int)
    ensures RevenueOf(ActiveSubscriptions(subs, now)) == SumContributions(subs, now)
  {
    if subs != [] {
      RevenueOfActive(subs[1..], now);
      if CountsAsActive(subs[0], now) {
        RevenueOfPrepend(subs[0], ActiveSubscriptions(subs[1..], now));
      }
    }
  }

  lemma {:induction false} ActiveOfAppend(subs: seq<SubscriptionWithPlan>, x: SubscriptionWithPlan, now: int)
    ensures ActiveSubscriptions(subs + [x], now) ==
            ActiveSubscriptions(subs, now) + (if CountsAsActive(x, now) then [x] else [])
  {
    if subs != [] {
      assert (subs + [x])[1..] == subs[1..] + [x];
      ActiveOfAppend(subs[1..], x, now);
    }
  }

  /** Appending a subscription that is inactive or past its period changes
      neither the active count nor the revenue. */
  lemma AppendInactiveKeepsActiveAndRevenue(subs: seq<SubscriptionWithPlan>, x: SubscriptionWithPlan, now: int)
    requires !x.row.isActive || x.row.currentPeriodEnd <= now
    ensures GetSubscriptionStats(subs + [x], now).active == GetSubscriptionStats(subs, now).active
    ensures GetSubscriptionStats(subs + [x], now).revenueCents == GetSubscriptionStats(subs, now).revenueCents
  {
    ActiveOfAppend(subs, x, now);
    var a := ActiveSubscriptions(subs, now);
    assert a + [] == a;
  }

  /** Appending an active subscription adds one to the count and its monthly
      price to the revenue. */
  lemma AppendActiveAddsItsPrice(subs: seq<SubscriptionWithPlan>, x: SubscriptionWithPlan, now: int)
    requires x.row.isActive && x.row.currentPeriodEnd > now
    ensures GetSubscriptionStats(subs + [x], now).active == GetSubscriptionStats(subs, now).active + 1
    ensures GetSubscriptionStats(subs + [x], now).revenueCents ==
            GetSubscriptionStats(subs, now).revenueCents + MonthlyPrice(x)
  {
    ActiveOfAppend(subs, x, now);
    var a := ActiveSubscriptions(subs, now);
    assert (a + [x])[..|a + [x]| - 1] == a;
  }

  /** Appending a subscription adds one to the count of its own status and
      nothing to the count of any other. */
  lemma {:induction false} CountWithStatusAppend(subs: seq<SubscriptionWithPlan>, x: SubscriptionWithPlan, status: string)
    ensures CountWithStatus(subs + [x], status) ==
            CountWithStatus(subs, status) + (if x.row.status == status then 1 else 0)
  {
    if subs != [] {
      assert (subs + [x])[1..] == subs[1..] + [x];
      CountWithStatusAppend(subs[1..], x, status);
    } else {
      assert subs + [x] == [x];
    }
  }

  /** Appending a subscription adds one to the cancelled count exactly when
      its status is "cancelled", and one to the paused count exactly when it
      is "paused"; with `total == 0` for no subscriptions, these fix both
      counts as the number of rows with that status. */
  lemma AppendCountsItsStatus(subs: seq<SubscriptionWithPlan>, x: SubscriptionWithPlan, now: int)
    ensures GetSubscriptionStats(subs + [x], now).cancelled ==
            GetSubscriptionStats(subs, now).cancelled + (if x.row.status == "cancelled" then 1 else 0)
    ensures GetSubscriptionStats(subs + [x], now).paused ==
            GetSubscriptionStats(subs, now).paused + (if x.row.status == "paused" then 1 else 0)
  {
    CountWithStatusAppend(subs, x, "cancelled");
    CountWithStatusAppend(subs, x, "paused");
  }
}
