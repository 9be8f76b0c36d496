# BrainBytes core, modelled in Dafny

BrainBytes is a coding-practice web application. Its users earn points,
spend hearts and gems, buy premium subscriptions (through Stripe or a
crypto payment), and redeem BYTE tokens for shop items. This project models
the logic behind those features and proves what the code promises:

- **Rate limiter.** The per-user token-bucket limiter in front of the chat
  endpoint (`lib/rate-limiter.ts`). It is a class holding the map of
  buckets. `checkRateLimit` and `cleanupOldBuckets` are methods, each
  proved against a specification function.
- **Premium entitlement.** `isPremiumUser`, `hasFeature`, `getFeatureLimit`,
  the expiry helpers and the status labels.
- **Subscription queries.** The active test and the revenue statistics.
- **Subscription actions.** The premium-check route; the Stripe actions
  (checkout, plan change, cancel, pause, resume); the crypto actions
  (initiate, confirm, renew) and the confirmation route.
- **Game economy.** The shop purchase, the challenge actions, and BYTE
  voucher redemption with its log-matching loop and replay set.
- **Configuration.** The level table, quest progress, the seeding of the
  plan and feature tables, the admin checks, the Auth0 user mapping and the
  blockchain configuration.
- **BYTE token.** The ledger as its tests describe it: balances, total
  supply and `transfer` as in the Specification section of EIP-20
  (ERC-20 Token Standard), plus the role-gated mint capped at 10^9 tokens
  of 18 decimals. Its name is "BrainByte", its symbol "BYTE", and it has
  18 decimals (`ByteToken.NAME`, `SYMBOL`, `DECIMALS`).

Conventions:

- Each action that writes to the database is modelled twice:
  - a pure step function from the old rows to the reply and the new rows,
    whose contract states the guards and the writes;
  - a method over a class holding those rows, proved equal to the step
    function.
- The clock (`Date.now()`, `new Date()`) is the parameter `now`, in
  milliseconds.
- Database reads, the session, Stripe, the RPC node and environment
  variables are parameters.
- JavaScript's falsy empty string is modelled as "missing".
- Rate-limiter token counts are exact reals.

Where the code and its accompanying description disagree, the model
follows the code. In particular, a bucket's limit and refill rate are fixed
when the bucket is created. A later call with another tier does not change
them (`RateLimiter.LimitsAreFixedAtCreation`).

## Model

| member | source | states |
|---|---|---|
| RateLimiter.TierConfig | lib/rate-limiter.ts:36-49 | exactly "free", "premium" and "admin" have a configuration, each with a positive rate and a burst of at least one |
| RateLimiter.BurstSize | lib/rate-limiter.ts:114 | the burst is the configured one, or twice the per-minute rate when it is absent or zero |
| RateLimiter.GetUserTier | lib/rate-limiter.ts:78-83 | every user is on the free tier, which is configured |
| RateLimiter.FreshBucket | lib/rate-limiter.ts:121-127 | a new bucket is full (tokens = limit = burst), refilled now, and refills at requestsPerMinute/60 tokens per second |
| RateLimiter.Refilled | lib/rate-limiter.ts:133-135 | refilling never exceeds the limit and adds elapsed seconds times the rate otherwise |
| RateLimiter.Ceil | lib/rate-limiter.ts:153 | `Math.ceil`: the least integer not below the value |
| RateLimiter.CheckStep | lib/rate-limiter.ts:89-161 | keeps every bucket valid (tokens ≤ limit). An empty user id or unknown tier admits with remaining 0 and reset now+60000, and changes no bucket. Otherwise only the caller's bucket changes; it keeps its limit and rate and is refilled to now. It is admitted iff the refilled tokens are at least 1. When admitted, one token is spent, remaining is its floor (≥ 0) and reset is now+60000. When denied, remaining is 0, retryAfter is the ceiling of (1 − tokens)/rate and at least 1, and reset is now + retryAfter·1000 |
| RateLimiter.Limiter.CheckRateLimit | lib/rate-limiter.ts:89-161 | the in-place update of the bucket map gives exactly the reply and buckets of `CheckStep` |
| RateLimiter.Swept | lib/rate-limiter.ts:172-177 | the reference result of the sweep: a user keeps a bucket exactly when it had one idle for at most maxAge, and kept buckets are unchanged |
| RateLimiter.Limiter.CleanupOldBuckets | lib/rate-limiter.ts:167-182 | the loop deletes exactly the buckets idle for strictly more than maxAge, leaves the others unchanged, and counts the deletions |
| RateLimiter.Limiter.GetBucketStats | lib/rate-limiter.ts:187-188 | the caller's bucket as stored, or none |
| RateLimiter.Limiter.constructor | lib/rate-limiter.ts:52 | the limiter starts with no buckets |
| RateLimiter.FirstCallStartsFull | lib/rate-limiter.ts:113-148 | a user's first call creates a full bucket at the tier's burst and rate and is admitted with burst − 1 remaining |
| RateLimiter.LimitsAreFixedAtCreation | lib/rate-limiter.ts:118-130 | a later call with another tier keeps the bucket's limit and refill rate |
| RateLimiter.TokensStayNonNegative | lib/rate-limiter.ts:133-140 | with a clock that does not run backwards, the bucket's tokens stay non-negative |
| RateLimiter.RetryAfterIsEnough | lib/rate-limiter.ts:133-139 | after a denial at t, the call at t + retryAfter·1000 is admitted |
| RateLimiter.RefilledAfterWaiting | lib/rate-limiter.ts:133-135 | waiting at least (1 − tokens)/rate seconds refills at least one token |
| RateLimiter.Burst | lib/rate-limiter.ts:89-161 | n calls at one instant give n replies and valid buckets |
| RateLimiter.FreeBurst | lib/rate-limiter.ts:37-40 | a new free-tier user's first n ≤ 10 immediate calls are admitted with remaining 9, 8, …, 10 − n, leaving 10 − n tokens |
| RateLimiter.SameInstantSpend | lib/rate-limiter.ts:133-135 | a call at the instant of the last refill adds no tokens |
| RateLimiter.EleventhCallWaitsTwelveSeconds | lib/rate-limiter.ts:150-160 | the eleventh immediate free-tier call is denied with retryAfter 12 and reset now+12000 |
| Premium.IsPremiumUser | lib/premium.ts:8-19 | holds exactly for an existing row that is active and whose period ends strictly after now; `SubscriptionQueries.ActiveIffPremium` proves it is the same test as `isSubscriptionActive` |
| Premium.HasFeature | lib/premium.ts:24-45 | false without a row, for an inactive row, or once the period end is before now; otherwise whether the plan lists a feature with exactly that name, a missing plan listing none (`HasFeatureNeedsValidity`, `PremiumUserFeatureDecidedByPlan`, `BoundaryInstant`) |
| Premium.GetFeatureLimit | lib/premium.ts:50-74 | none in the same cases as `hasFeature`; otherwise -1 for an unlimited feature and the feature's value for a limited one (`FeatureLimitIffHasFeature`) |
| Premium.IsSubscriptionExpiringSoon | lib/premium.ts:80-89 | an existing row whose period ends at or before now plus seven days, whatever its active flag (`ExpiringSoonWhenEnded`) |
| Premium.SomeFeatureNamed | lib/premium.ts:42-44 | true iff some feature has exactly that name |
| Premium.FindFeature | lib/premium.ts:68-70 | the first feature with exactly that name, none iff no feature has it |
| Premium.SomeIffFind | lib/premium.ts:42-44 | `some` and `find` agree on whether the feature exists |
| Premium.FeatureLimitIffHasFeature | lib/premium.ts:65-74 | a limit exists exactly when `hasFeature` holds; then it is −1 for an unlimited feature and its value otherwise |
| Premium.PremiumUserFeatureDecidedByPlan | lib/premium.ts:13-18 | for a premium user, `hasFeature` is decided by the plan's feature names alone |
| Premium.HasFeatureNeedsValidity | lib/premium.ts:39-40 | `hasFeature` implies an active subscription whose end is not in the past |
| Premium.BoundaryInstant | lib/premium.ts:17 | when the period ends exactly now, `hasFeature` still grants a listed feature while `isPremiumUser` is false |
| Premium.ExpiringSoonWhenEnded | lib/premium.ts:85-88 | an ended period counts as expiring soon, and one not expiring soon has more than 7 days remaining |
| Premium.GetDaysRemaining | lib/premium.ts:99-110 | none iff no subscription; 0 when the end is not after now; otherwise the least number of whole days covering the time left, at least 1 |
| Premium.CeilDiv | lib/premium.ts:106-108 | the rounded-up quotient |
| Premium.FormatSubscriptionStatus | lib/premium.ts:116-126 | the label of each of the five known statuses, and any other status unchanged |
| SubscriptionQueries.IsSubscriptionActive | db/queries/subscriptions.ts:50-60 | an existing, active row whose period ends strictly after now (`ActiveIffPremium`) |
| SubscriptionQueries.RevenueOf | db/queries/subscriptions.ts:110-112 | the left fold adding each row's monthly price in cents, 0 for a row without a plan (`RevenueOfPrepend`, `RevenueIsSumOverActive`) |
| SubscriptionQueries.ActiveIffPremium | db/queries/subscriptions.ts:55-59 | `isSubscriptionActive` holds iff `isPremiumUser` does: a row exists, is active and ends after now |
| SubscriptionQueries.ActiveSubscriptions | db/queries/subscriptions.ts:104-106 | the filter keeps exactly the active, unexpired subscriptions |
| SubscriptionQueries.CountWithStatus | db/queries/subscriptions.ts:108 | a status count is at most the number of subscriptions; with CountWithStatusAppend it is the number of rows with that exact status |
| SubscriptionQueries.GetSubscriptionStats | db/queries/subscriptions.ts:97-121 | total is the list length; active, cancelled and paused are each at most total; cancelled + paused is at most total; revenue in dollars is cents/100; the append lemmas fix active, revenue, cancelled and paused as the source's filters compute them |
| SubscriptionQueries.CountWithStatusAppend | db/queries/subscriptions.ts:108 | an appended row adds one to the count of its own status and nothing to any other |
| SubscriptionQueries.AppendCountsItsStatus | db/queries/subscriptions.ts:108-118 | an appended row adds one to `cancelled` exactly when its status is "cancelled" and one to `paused` exactly when it is "paused"; with no rows both are 0, so each is the number of rows with that status |
| SubscriptionQueries.StatusCountsDisjoint | db/queries/subscriptions.ts:108-118 | the cancelled and paused counts together are at most the list length |
| SubscriptionQueries.RevenueOfPrepend | db/queries/subscriptions.ts:112 | the left fold of prices splits at the head |
| SubscriptionQueries.RevenueIsSumOverActive | db/queries/subscriptions.ts:110-112 | revenue is the sum of the monthly prices of exactly the active subscriptions, a missing plan adding 0 |
| SubscriptionQueries.RevenueOfActive | db/queries/subscriptions.ts:110-112 | folding the prices of the filtered list equals summing over the active members of the list |
| SubscriptionQueries.ActiveOfAppend | db/queries/subscriptions.ts:104-106 | filtering a list with one more element appends it exactly when it is active |
| SubscriptionQueries.AppendInactiveKeepsActiveAndRevenue | db/queries/subscriptions.ts:104-112 | an inactive or expired addition leaves the active count and revenue unchanged |
| SubscriptionQueries.AppendActiveAddsItsPrice | db/queries/subscriptions.ts:104-112 | an active addition adds one to the active count and its price to the revenue |
| CheckPremium.HandleCheckPremium | app/api/subscriptions/check-premium.ts:10-58 | a 400 "User ID is required" iff the user id is missing; otherwise isPremium iff active and unexpired; hasFeature true unless premium and a feature was asked for, then iff the plan lists a feature of that name; the status is the row's when it has a non-empty one, else "none"; the plan name is the plan's when there is a plan with a non-empty name, else "free" |
| CheckPremium.MissingPlanReportsFree | app/api/subscriptions/check-premium.ts:49 | a row without a plan reports the "free" plan |
| CheckPremium.EmptyStatusReportsNone | app/api/subscriptions/check-premium.ts:48 | a row with an empty status reports "none" |
| CheckPremium.StoredStatusAndPlanAreReported | app/api/subscriptions/check-premium.ts:48-49 | a row with a status and a named plan reports both as stored |
| CheckPremium.DefaultsWithoutSubscription | app/api/subscriptions/check-premium.ts:48-49 | a user without a subscription is not premium, has status "none" and plan name "free" |
| CheckPremium.AgreesWithLibraryHasFeature | app/api/subscriptions/check-premium.ts:37-42 | for a premium user asking about a feature, the route agrees with `hasFeature` |
| PremiumSubscription.CreateStripeCheckout | actions/premium-subscription.ts:17-81 | the guard order: unauthorised, email required, plan not found. An active row with a Stripe customer goes to the billing portal with that customer. A new checkout is opened only with the cycle's configured price, for the user's email and id, the plan and the cycle |
| PremiumSubscription.SelectPriceId | actions/premium-subscription.ts:47-49 | the yearly price id exactly for the "yearly" cycle, the monthly one otherwise (`CheckoutPriceSelection`) |
| PremiumSubscription.CheckoutPriceSelection | actions/premium-subscription.ts:47-53 | the yearly price id iff the cycle is "yearly", otherwise the monthly one; a missing id fails |
| PremiumSubscription.UpdatePlanStep | actions/premium-subscription.ts:120-181 | succeeds iff signed in, active, paid through Stripe with a subscription id, the new plan exists and has a monthly price; otherwise nothing changes; on success exactly the user's row gets the new plan and monthly price |
| PremiumSubscription.CancelStep | actions/premium-subscription.ts:186-211 | succeeds iff the user's row is active; then the row becomes "cancelled", inactive, with cancelledAt now; otherwise nothing changes |
| PremiumSubscription.PauseStep | actions/premium-subscription.ts:216-243 | succeeds iff the user's row is active; then only its status becomes "paused"; otherwise nothing changes |
| PremiumSubscription.ResumeStep | actions/premium-subscription.ts:248-274 | succeeds iff the user's row is "paused"; then it becomes "active" and active; otherwise nothing changes |
| PremiumSubscription.UpdateSubscriptionPlan | actions/premium-subscription.ts:120-181 | the table update gives exactly `UpdatePlanStep` |
| PremiumSubscription.CancelSubscription | actions/premium-subscription.ts:186-211 | the table update gives exactly `CancelStep` |
| PremiumSubscription.PauseSubscription | actions/premium-subscription.ts:216-243 | the table update gives exactly `PauseStep` |
| PremiumSubscription.ResumeSubscription | actions/premium-subscription.ts:248-274 | the table update gives exactly `ResumeStep` |
| PremiumSubscription.PlanChangeTouchesOnlyPlanAndPrice | actions/premium-subscription.ts:171-178 | a plan change alters only planId, stripePriceId and updatedAt |
| PremiumSubscription.PauseKeepsGuardsOpen | actions/premium-subscription.ts:190-240 | after a pause the row is still active, so cancel and a second pause still succeed |
| PremiumSubscription.PauseThenResume | actions/premium-subscription.ts:224-271 | a paused subscription resumes to an active one with status "active" |
| PremiumSubscription.CancelIsFinal | actions/premium-subscription.ts:190-208 | after a cancel, cancel and pause fail with "No active subscription found", resume fails with "No paused subscription found", and the user is no longer premium |
| PremiumSubscription.StepsKeepKeys | actions/premium-subscription.ts:171-271 | every action keeps each row under its own user id |
| CryptoSubscription.HexRun | actions/crypto-subscription.ts:70 | true iff the string is exactly n hex digits of either case |
| CryptoSubscription.IsValidTxHash | actions/crypto-subscription.ts:70-132 | true iff 66 characters: lower-case "0x" and 64 hex digits |
| CryptoSubscription.InitiateStep | actions/crypto-subscription.ts:14-59 | unauthorised, then invalid wallet, each with no write. Otherwise a new user gets a pending, inactive row whose period is now..now+30 days, and an existing row changes only plan, method, wallet, status "pending" and updatedAt. The reply carries the reference, wallet, amount and chain id (default 11155111) |
| CryptoSubscription.ConfirmStep | actions/crypto-subscription.ts:64-93 | succeeds iff the hash is valid; then the user's row, if any, gets the hash, status "active", active, start now and end = renewal = now+30 days; the plan argument is not written |
| CryptoSubscription.RenewStep | actions/crypto-subscription.ts:126-156 | unauthorised, then invalid hash, then no subscription; no write on failure; on success only the user's row changes: it records the hash and a period from now to now+30 days, which is also the renewal date |
| CryptoSubscription.InitiateCryptoSubscriptionPayment | actions/crypto-subscription.ts:14-59 | the table update gives exactly `InitiateStep` |
| CryptoSubscription.ConfirmCryptoSubscriptionPayment | actions/crypto-subscription.ts:64-93 | the table update gives exactly `ConfirmStep` |
| CryptoSubscription.RenewCryptoSubscription | actions/crypto-subscription.ts:126-156 | the table update gives exactly `RenewStep` |
| CryptoSubscription.NewPendingRowIsNotPremium | actions/crypto-subscription.ts:30-39 | a newly inserted pending row grants premium at no time, and its period is 30 days |
| CryptoSubscription.InitiateKeepsExistingEntitlement | actions/crypto-subscription.ts:41-50 | re-initiating keeps the row's active flag and period, so premium status is unchanged |
| CryptoSubscription.ConfirmGrantsThirtyDays | actions/crypto-subscription.ts:76-90 | after a confirmation the user is premium throughout the next 30 days |
| CryptoSubscription.InitiateThenConfirm | actions/crypto-subscription.ts:30-90 | initiating and then confirming activates the user on the plan chosen at initiation |
| CryptoSubscription.RenewCountsFromNow | actions/crypto-subscription.ts:140-150 | a renewal ends 30 days after now, whatever the old end, so it can shorten a longer period, and it keeps the status and active flag |
| CryptoSubscription.RenewDoesNotReactivate | actions/crypto-subscription.ts:142-150 | renewing an inactive subscription leaves the user without premium |
| CryptoConfirmRoute.ConfirmRouteStep | app/api/subscriptions/crypto/confirm/route.ts:10-56 | a missing field gives 400 first, then a malformed hash gives 400, each with no write; otherwise the row is activated for 30 days and the route confirms |
| CryptoConfirmRoute.Post | app/api/subscriptions/crypto/confirm/route.ts:10-56 | the table update gives exactly `ConfirmRouteStep` |
| CryptoConfirmRoute.MissingFieldsBeforeFormat | app/api/subscriptions/crypto/confirm/route.ts:14-27 | a body missing the plan id is rejected for the missing field even when its hash is malformed |
| CryptoConfirmRoute.PlanIdIsNotWritten | app/api/subscriptions/crypto/confirm/route.ts:29-43 | two bodies differing only in plan id give the same reply and rows, and the row keeps its plan |
| CryptoConfirmRoute.AgreesWithConfirmAction | app/api/subscriptions/crypto/confirm/route.ts:29-43 | the route writes exactly what the confirmation action writes |
| CryptoConfirmRoute.ConfirmedUserIsPremium | app/api/subscriptions/crypto/confirm/route.ts:33-42 | after a confirmation the user is premium for the next 30 days |
| GameStore.FindItem | actions/shop.ts:18 | the first item with that id, none iff there is none |
| Shop.PurchaseStep | actions/shop.ts:11-57 | in order: unauthorised, item not found, progress not found, "Not enough points", "Not enough gems" (only for a truthy gem price), each with no change. The purchase succeeds exactly when a signed-in caller with a row buys a listed item whose points, and truthy gem price, the row covers; then only that row changes, by `Purchased` |
| Shop.Purchased | actions/shop.ts:42-49 | the row after a purchase: hearts plus the item's hearts, points minus its points, gems minus a truthy gem price; its effect is stated by PurchaseMovesBalances and PurchaseKeepsBalancesNonNegative |
| Shop.PurchaseHearts | actions/shop.ts:11-57 | the store update gives exactly `PurchaseStep` and touches nothing else |
| Shop.PurchaseMovesBalances | actions/shop.ts:40-50 | a purchase adds the item's hearts and subtracts its points and (truthy) gem price from the buyer, keeping the buyer's wallet |
| Shop.PurchaseKeepsBalancesNonNegative | actions/shop.ts:32-48 | from non-negative balances, points and gems stay non-negative |
| Shop.NoGemPriceNoGemCheck | actions/shop.ts:36-38 | an item without a gem price never fails for lack of gems |
| Challenge.UpsertStep | frontend/actions/challenge.ts:10-46 | unauthorised with no change iff no user; otherwise the (user, challenge) record is completed and no other record changes |
| Challenge.UpsertChallengeProgress | frontend/actions/challenge.ts:10-46 | the store update gives exactly `UpsertStep` |
| Challenge.UpsertIsIdempotent | frontend/actions/challenge.ts:24-42 | two upserts give the same state as one |
| Challenge.ReduceStep | frontend/actions/challenge.ts:48-79 | unauthorised, then progress not found, then {error: "hearts"} iff hearts is 0, each with no change; success exactly when a signed-in caller's row has hearts other than 0, and then hearts becomes max(hearts − 1, 0) |
| Challenge.ReduceHearts | frontend/actions/challenge.ts:48-79 | the store update gives exactly `ReduceStep` |
| Challenge.ReduceTakesOneHeart | frontend/actions/challenge.ts:66-72 | with at least one heart, exactly one is taken |
| Challenge.ReduceClampsNegativeHearts | frontend/actions/challenge.ts:63-71 | a negative heart count is not the zero case: the call succeeds and the count becomes 0 |
| Challenge.ReduceKeepsHeartsNonNegative | frontend/actions/challenge.ts:66-72 | hearts never go negative |
| RedeemVoucher.StatusOk | actions/redeemVoucher.ts:49 | the receipt status is the string "0x1" or the number 1; a missing status fails |
| RedeemVoucher.Matches | actions/redeemVoucher.ts:70-83 | a log is the payment: emitted at the token address, decoded as a Transfer from the user's wallet to the shop wallet (addresses compared case-insensitively) of exactly the expected amount; an undecodable log never matches |
| RedeemVoucher.TransferValid | actions/redeemVoucher.ts:68-96 | some log of the receipt matches; `ScanLogs` is proved to compute it |
| RedeemVoucher.ExpectedAmount | actions/redeemVoucher.ts:66 | the item's cost in base units, byteCost · 10^18 (`WeiPerByte`) |
| RedeemVoucher.ScanLogs | actions/redeemVoucher.ts:66-96 | the loop finds a matching transfer iff some log is at the token address, decodes to Transfer from the wallet to the shop (case-insensitively), and carries byteCost·10^18 |
| RedeemVoucher.VerifyStep | actions/redeemVoucher.ts:30-126 | any failure changes nothing; no user gives unauthorised, an item that is not a voucher (or unknown) gives not redeemable, a recorded hash gives already redeemed; a success implies a signed-in user with progress and a known item, records the hash for that user and item, and grows the user's hearts by the item's hearts when positive |
| RedeemVoucher.VerifySucceedsIff | actions/redeemVoucher.ts:30-126 | the redemption succeeds exactly when every check passes: user, voucher item, fresh hash, successful receipt, wallet, sender (only when present) and a matching transfer of the item's cost in base units to the server wallet |
| RedeemVoucher.WeiPerByte | actions/redeemVoucher.ts:66 | the expected amount per token is ten to the token's decimals |
| RedeemVoucher.VerifyRedemption | actions/redeemVoucher.ts:30-126 | the store update, using the loop, gives exactly `VerifyStep` |
| RedeemVoucher.NoReplay | actions/redeemVoucher.ts:39-106 | the same hash string, once recorded, is rejected as already redeemed for any item; the record is keyed on the string as written |
| RedeemVoucher.RedemptionCreditsOnlyHearts | actions/redeemVoucher.ts:102-115 | a redemption changes only the buyer's hearts, by the item's hearts when positive |
| RedeemVoucher.MissingSenderIsNotChecked | actions/redeemVoucher.ts:61-64 | a receipt without a sender never fails the sender check |
| RedeemVoucher.RpcFailureIsGeneric | actions/redeemVoucher.ts:122-125 | a thrown RPC error gives the generic failure with no change |
| RedeemVoucher.Pow10 | actions/redeemVoucher.ts:66 | powers of ten are positive |
| Levels.TableIsWellFormed | config/levels.ts:1-11 | the milestones start at 0, have strictly increasing minPoints, and each level equals its index |
| Levels.Leading | config/levels.ts:18-24 | the number of leading milestones reached: all before it reached, the next not |
| Levels.LeadingUnique | config/levels.ts:18-24 | that count is the only one with this property |
| Levels.LevelIndex | config/levels.ts:15-26 | the index of the resulting milestone is in range |
| Levels.GetLevelFromPoints | config/levels.ts:15-26 | the loop returns the milestone at `LevelIndex` |
| Levels.LevelIsLastReached | config/levels.ts:18-24 | the result's level is its index; at or above the first threshold it is reached; below it, it is the first; the next milestone, if any, is not reached |
| Levels.ThresholdReachesItsMilestone | config/levels.ts:1-19 | exactly a milestone's minPoints yields that milestone |
| Levels.LeadingMonotone | config/levels.ts:18-24 | more points reach at least as many milestones |
| Levels.LevelMonotone | config/levels.ts:15-26 | the level is non-decreasing in points |
| Levels.TableEnds | config/levels.ts:10-24 | negative points give level 0, and 10000 or more gives "Legend", level 8 |
| Quests.CalculateProgress | config/quests.ts:105-107 | at most 100; 100 when current ≥ target; 0 when current is 0; non-negative for current ≥ 0; below 100 it is the exact rational 100·current/target rounded half-up (the source's doubles can round a half down, see Left out) |
| Quests.Round | config/quests.ts:106 | `Math.round`: the integer r with r − 0.5 ≤ x < r + 0.5, so halves round up |
| Quests.ProgressAsIntegerDivision | config/quests.ts:106 | the result equals min((200·current + target) div (2·target), 100) |
| Quests.QuestTargetsArePositive | config/quests.ts:8-92 | every quest target is at least 1 |
| Quests.QuestProgressInRange | config/quests.ts:8-106 | every quest's progress from a non-negative count lies in 0..100 |
| SeedSubscriptions.FeatureId | scripts/seed-subscriptions.ts:100 | an id starts with planId + "-", has no white space when the plan id has none, and is no longer than plan id, dash and name |
| SeedSubscriptions.SlugKeepsLength | scripts/seed-subscriptions.ts:100 | on single-spaced text the dash replacement keeps the length and the first character |
| SeedSubscriptions.LowerKeepsSpacing | scripts/seed-subscriptions.ts:100 | lower-casing keeps a name single-spaced |
| SeedSubscriptions.Slug | scripts/seed-subscriptions.ts:100 | `toLowerCase()` then `replace(/\s+/g, "-")`; its shape on the seeded names is stated by SlugShape and SlugKeepsLength |
| SeedSubscriptions.SlugShape | scripts/seed-subscriptions.ts:100 | the slug of a name is as long as the name and starts with its lower-cased first letter |
| SeedSubscriptions.DashAfterPlanId | scripts/seed-subscriptions.ts:100 | the first dash of an id ends a dash-free plan id |
| SeedSubscriptions.SplitAtDash | scripts/seed-subscriptions.ts:100 | equal ids over dash-free plan ids have equal plan ids and slugs |
| SeedSubscriptions.IdsFollowKeys | scripts/seed-subscriptions.ts:100 | features with different (plan, first letter, length) keys get different ids |
| SeedSubscriptions.KeysDistinctConcat | scripts/seed-subscriptions.ts:57-96 | feature lists of disjoint plans with distinct keys concatenate to one with distinct keys |
| SeedSubscriptions.FeatureNameKeys | scripts/seed-subscriptions.ts:57-96 | the twelve feature names differ in their lower-cased first letter or their length |
| SeedSubscriptions.PlanKeys | scripts/seed-subscriptions.ts:57-96 | a plan's features that carry the first names of the list in order have distinct keys and all belong to that plan |
| SeedSubscriptions.FreeKeys | scripts/seed-subscriptions.ts:57-96 | the free plan's features have distinct keys and belong to "free" |
| SeedSubscriptions.ProKeys | scripts/seed-subscriptions.ts:57-96 | the pro plan's features have distinct keys and belong to "pro" |
| SeedSubscriptions.PremiumKeys | scripts/seed-subscriptions.ts:57-96 | the premium plan's features have distinct keys and belong to "premium" |
| SeedSubscriptions.EliteKeys | scripts/seed-subscriptions.ts:57-96 | the elite plan's features have distinct keys and belong to "elite" |
| SeedSubscriptions.SeedKeysDistinct | scripts/seed-subscriptions.ts:57-96 | the whole feature table has distinct keys and only the four plan ids |
| SeedSubscriptions.NameSingleSpaced | scripts/seed-subscriptions.ts:57-96 | every listed feature name is single-spaced |
| SeedSubscriptions.SeedNamesAreListed | scripts/seed-subscriptions.ts:57-96 | every seeded feature name is one of the twelve names |
| SeedSubscriptions.PlanIdsHaveNoDash | scripts/seed-subscriptions.ts:9-52 | plan ids contain neither a dash nor white space |
| SeedSubscriptions.FeaturesBelongToSeededPlans | scripts/seed-subscriptions.ts:9-96 | every seeded feature's plan is one of the four seeded plans |
| SeedSubscriptions.SeededIdsDistinct | scripts/seed-subscriptions.ts:57-100 | the derived feature ids are pairwise distinct and contain no white space |
| SeedSubscriptions.SeedPlans | scripts/seed-subscriptions.ts:9-52 | the four plan rows with their names, descriptions, prices in cents and the Stripe price ids from the environment; SeededPlansShape states their order and popularity |
| SeedSubscriptions.SeededPlansShape | scripts/seed-subscriptions.ts:9-52 | four plans with order 0..3, in the listed id order, and only "pro" marked popular |
| SeedSubscriptions.FeatureRows | scripts/seed-subscriptions.ts:98-107 | every seeded feature's derived id is a key of the inserted rows |
| SeedSubscriptions.FeatureRowsKeys | scripts/seed-subscriptions.ts:98-107 | every key of the inserted rows is the derived id of some seeded feature |
| SeedSubscriptions.FeatureRowsLookupAt | scripts/seed-subscriptions.ts:98-107 | a feature whose id no later feature repeats is found under that id with its own row |
| SeedSubscriptions.FeatureRowsLookup | scripts/seed-subscriptions.ts:98-107 | with distinct ids, each id maps to its own feature's row |
| SeedSubscriptions.InsertFeatures | scripts/seed-subscriptions.ts:98-107 | the loop inserts exactly `FeatureRows` and leaves the plans alone |
| SeedSubscriptions.SeedSubscriptionPlans | scripts/seed-subscriptions.ts:4-110 | after seeding, the plans are the four seeded plans and the features the seeded feature rows |
| SeedSubscriptions.SeededFeatureTable | scripts/seed-subscriptions.ts:57-107 | every seeded feature is stored under its derived id with its plan, name and value |
| SeedSubscriptions.Catalog.constructor | scripts/seed-subscriptions.ts:4-8 | the catalogue starts with the given tables |
| Schema.SubscriptionTable.constructor | db/schema/userSubscription.ts:6-28 | the subscription table starts with the given rows, each under its own user id |
| GameStore.Store.constructor | actions/shop.ts:11-57 | the economy tables start with the given rows |
| Admin.MapStrings | lib/admin.ts:5 | `Array.prototype.map`: the result has the input's length and its k-th entry is the function applied to the k-th piece |
| Admin.TrimAll | lib/admin.ts:5 | each entry is trimmed, keeping order and count |
| Admin.DropEmpty | lib/admin.ts:5 | the result is no longer than the input and holds no empty entry |
| Admin.DropEmptyMembership | lib/admin.ts:5 | an entry is kept exactly when it is one of the pieces and is not empty |
| Admin.ParseAdminEmails | lib/admin.ts:3-6 | an unset variable gives no entries; every entry is non-empty and has no white space at either end |
| Admin.ParseMembership | lib/admin.ts:3-6 | the entries are exactly the non-empty trimmed comma-separated pieces |
| Admin.EntriesHaveNoComma | lib/admin.ts:4 | no entry contains a comma |
| Admin.PaddedListExample | lib/admin.ts:3-6 | " a@x , ,b@y" parses to ["a@x", "b@y"] |
| Admin.AdminEmail | lib/admin.ts:12-17 | the supplied user's email when present, otherwise the session user's |
| Admin.GetIsAdmin | lib/admin.ts:9-25 | no email gives false; otherwise true iff the email exactly equals a parsed entry |
| Admin.PaddedEmailIsNotListed | lib/admin.ts:5 | an email with white space at either end is never an entry |
| Admin.PaddedEmailIsNeverAdmin | lib/admin.ts:3-24 | such an email is never an admin |
| Admin.SingleEntry | lib/admin.ts:3-24 | with one comma-free entry, the admin is exactly its trimmed value |
| Admin.TrimIsSubstring | lib/admin.ts:5 | trimming keeps a contiguous part of the string |
| FrontendAdmin.GetIsAdmin | frontend/lib/admin.ts:3-12 | no user id gives false; an unset variable gives false; otherwise true iff the id is one of the comma-split entries |
| FrontendAdmin.EntriesRejoin | frontend/lib/admin.ts:10 | the entries joined by commas give the variable back |
| FrontendAdmin.NoTrimming | frontend/lib/admin.ts:10-11 | with one comma-free entry, exactly that entry, spaces included, is admin |
| FrontendAdmin.PaddedEntryDoesNotMatch | frontend/lib/admin.ts:10 | " u1" does not admit "u1" |
| Auth0.MapUser | lib/auth0.ts:15-23 | id is sub; email is the session email or none; name is the first present of name, nickname, email, else "User"; picture is the session's or "/logo.svg" |
| Auth0.NameIsAClaimOrFallback | lib/auth0.ts:19 | the name is one of the three claims or the fallback |
| Auth0.GetOptionalUser | lib/auth0.ts:25-33 | none iff there is no session user; otherwise the mapped user |
| Auth0.RequireUser | lib/auth0.ts:35-43 | throws "Unauthorized" iff there is no user, and otherwise returns it |
| Ethers.NormalizeKey | lib/ethers.ts:11-13 | the key always starts with "0x"; one that has it is unchanged, others get it prepended |
| Ethers.NormalizeIsIdempotent | lib/ethers.ts:11-13 | normalising twice is normalising once |
| Ethers.NormalizeAddsOnlyThePrefix | lib/ethers.ts:11-13 | dropping the added prefix gives the key back |
| Ethers.LoadConfig | lib/ethers.ts:3-13 | "Missing blockchain environment variables" iff one of the three variables is empty or unset; otherwise the values with the key normalised |
| Ethers.LoadedKeyShape | lib/ethers.ts:7-13 | a loaded key starts with "0x" and, when the prefix was added, has at least one more character |
| ByteToken.RevertMessage | test/ByteToken.test.js:70-104 | "Caller is not a minter" and "Exceeds maximum supply", the revert strings the token's test file expects; none for the other two reasons |
| ByteToken.Deployed | test/ByteToken.test.js:12-115 | a new token has no supply, and its deployer holds the minter and admin roles |
| ByteToken.MintStep | test/ByteToken.test.js:28-115 | keeps supply = sum of balances ≤ cap; succeeds iff the caller is a minter and the cap is not exceeded; the role is checked first; a revert changes nothing; success adds the amount to the recipient and the supply only |
| ByteToken.TransferStep | test/ByteToken.test.js:152-167 | keeps supply = sum of balances; succeeds iff the sender holds the amount; moves it from sender to receiver, leaving other balances and the supply alone |
| ByteToken.GrantRoleStep | test/ByteToken.test.js:117-124 | an admin adds the account to the role; nothing else changes |
| ByteToken.RevokeRoleStep | test/ByteToken.test.js:131-134 | an admin removes the account from the role; nothing else changes |
| ByteToken.Token.constructor | test/ByteToken.test.js:16-19 | the deployed contract is in the `Deployed` state |
| ByteToken.Token.BalanceOf | test/ByteToken.test.js:36-93 | the balance the ledger holds for the account, 0 if never credited |
| ByteToken.Token.Mint | test/ByteToken.test.js:28-115 | the contract update gives exactly `MintStep` |
| ByteToken.Token.Transfer | test/ByteToken.test.js:152-167 | the contract update gives exactly `TransferStep` |
| ByteToken.Token.GrantRole | test/ByteToken.test.js:117-124 | the contract update gives exactly `GrantRoleStep` |
| ByteToken.Token.RevokeRole | test/ByteToken.test.js:131-134 | the contract update gives exactly `RevokeRoleStep` |
| ByteToken.TotalUpdate | test/ByteToken.test.js:36-41 | setting one balance changes the sum of balances by the difference |
| ByteToken.MintingUpToTheCap | test/ByteToken.test.js:10-95 | two mints of 5·10^8 tokens reach the cap exactly, and one more base unit reverts "Exceeds maximum supply" |
| ByteToken.CapIsFinal | test/ByteToken.test.js:60-84 | at the cap every positive mint reverts and changes nothing |
| ByteToken.GrantThenRevoke | test/ByteToken.test.js:117-139 | a granted account can mint, and after revoking it reverts "Caller is not a minter" |
| ByteToken.TransferBack | test/ByteToken.test.js:152-167 | a transfer and the reverse transfer restore every balance |
| Text.Lower | scripts/seed-subscriptions.ts:100 | lower-casing keeps the length and maps each ASCII capital |
| Text.IsWhitespace | lib/admin.ts:5 | the characters `trim` and `\s` treat as white space: the WhiteSpace and LineTerminator characters of ECMA-262 |
| Text.EqualsIgnoreCase | actions/redeemVoucher.ts:62 | `a.toLowerCase() === b.toLowerCase()`, the address comparisons; used by Matches and VerifyStep |
| Text.StartsWith | lib/ethers.ts:11 | `s.startsWith(prefix)`; NormalizeIsIdempotent and NormalizeAddsOnlyThePrefix state what it decides |
| Text.Trim | lib/admin.ts:5 | the result has no white space at either end; with TrimRemovesOnlyWhitespace, it is exactly the slice of the input between its white space ends |
| Text.TrimRemovesOnlyWhitespace | lib/admin.ts:5 | trim removes white space and nothing else: the result is a slice of the input, and all the input before and after it is white space |
| Text.TrimStart | lib/admin.ts:5 | a suffix of the string that is empty or does not start with white space, where every character removed is white space |
| Text.TrimEnd | lib/admin.ts:5 | a prefix of the string that is empty or does not end with white space, where every character removed is white space |
| Text.Split | lib/admin.ts:4 | at least one piece, none containing the separator |
| Text.JoinSplit | lib/admin.ts:4 | joining the pieces of a split gives the string back |
| Text.SplitJoin | lib/admin.ts:4 | splitting a join of separator-free pieces gives the pieces back |
| Text.SplitWithoutSeparator | frontend/lib/admin.ts:10 | a string without the separator splits into itself |
| Text.ReplaceWhitespaceRuns | scripts/seed-subscriptions.ts:100 | the result has no white space and is no longer than the input; text without white space is kept as it is, and a run of white space alone becomes one dash |
| Text.ReplaceAtRunBoundary | scripts/seed-subscriptions.ts:100 | cut anywhere but inside a run of white space, the two halves are replaced independently; with the two clauses above, each maximal run becomes one dash and the other characters stay, in order |
| Text.SingleRun | scripts/seed-subscriptions.ts:100 | a word, one run of white space, a word: the run becomes one dash between the two words |

## Left out

- Database, Stripe, RPC-node and Auth0 calls are not modelled as I/O. Their results are parameters: the fetched rows, the receipt, the session and the environment. Failing database writes are not modelled.
- Concurrency is left out. This includes the find-then-insert races in the subscription and redemption actions, and limiters in separate processes.
- lib/rate-limiter.ts lines 55-72 and 254-259 (the `setInterval` cleanup schedule) and lines 189-252 (a duplicate of the main logic that does not parse) are not modelled.
- RateLimiter.CheckStep: token counts are exact reals, not IEEE doubles.
- RateLimiter.TokensStayNonNegative: this needs a clock that does not run backwards. The code does not clamp negative elapsed time.
- The `console.warn`/`console.debug` logging of the rate limiter is left out.
- The aliasing of the bucket object handed out by `getBucketStats` is left out.
- Quests.CalculateProgress: it requires target > 0. At 0 the source computes with NaN or Infinity. Every quest in the table has a positive target.
- Quests.CalculateProgress: the division and the product are exact rationals, not IEEE doubles. Where the exact value is a half the source can round differently: `(145 / 1000) * 100` is 14.499999999999998 as a double, so the source reports 14 for 145 of the 1000 points of "Points Collector" (config/quests.ts:80), where the model gives 15.
- SubscriptionQueries.GetSubscriptionStats: `totalRevenue / 100` is a double in the source and an exact real here.
- SubscriptionQueries.GetSubscriptionStats: the source reads `new Date()` afresh for every row in each of its two filters (db/queries/subscriptions.ts:105, 111), so a row can expire between them. The model uses one instant `now` for both.
- Text.Lower: this maps only the ASCII capitals. JavaScript's `toLowerCase` also maps other scripts; every seeded name is ASCII.
- Premium.FormatSubscriptionStatus: inherited keys of a JavaScript object, such as "constructor", are treated as unknown statuses.
- RateLimiter.TierConfig: inherited keys of a JavaScript object are likewise treated as unknown tiers.
- RedeemVoucher.VerifyStep: the receipt status check is modelled as written (`'0x1'` or `1`). Which values the RPC library actually returns is not part of this model.
- The shop catalogue `config/shop.ts` is not part of this model. The catalogue is a parameter.
- Decoding a log, including the ABI, is a parameter: each log comes with its decoded event or none.
- `getSubscriptionPlans` and `getCurrentSubscription` are plain database reads, and are not modelled.
- `getCryptoSubscriptionDetails` (a floating-point USD price) is not modelled.
- The Stripe subscription update and the `stripe.subscriptions.retrieve` call are left out. The model keeps only the row updates.
- The error paths that return HTTP 500 in both routes are left out.
- CheckPremium.HandleCheckPremium: `isPremium` is a boolean. In the source it can be `undefined` when no subscription exists.
- CheckPremium.HandleCheckPremium: when a premium user's row has no plan and a feature is asked for, the source's `hasFeature` is `undefined` (check-premium.ts:39) and drops out of the JSON; the model reports `false`.
- The cache invalidations (`revalidatePath`, `revalidateTag`) after a purchase (actions/shop.ts:52-54), a redemption (actions/redeemVoucher.ts:117-118) and the challenge actions (frontend/actions/challenge.ts:44-45, 74-76) are framework effects outside the data and are not modelled.
- RateLimiter.Limiter.CheckRateLimit: the default argument `userTier = 'free'` (lib/rate-limiter.ts:91) is not modelled as a default; callers pass the tier, `RateLimiter.DEFAULT_TIER` when they would omit it.
- PremiumSubscription.CreateStripeCheckout: the default argument `billingCycle = "monthly"` (actions/premium-subscription.ts:17) is a parameter; callers pass `PremiumSubscription.DEFAULT_BILLING_CYCLE` when they would omit it.
- RateLimiter.Limiter.CleanupOldBuckets: the default argument `maxAge = 3600000` (lib/rate-limiter.ts:167) is likewise a parameter, `RateLimiter.DEFAULT_MAX_AGE_MS` when omitted.
- SeedSubscriptions.SeedSubscriptionPlans: the cascading deletes always succeed here. A real database can refuse them while subscriptions still reference plans.
- The BYTE contract source (`ByteToken.sol`) is not part of this model. The ledger follows its tests and EIP-20.
- The zero-address checks, `approve`/`transferFrom`, events and the exact revert data of a non-minter or an insufficient balance are not modelled.
- ByteToken.GrantRoleStep and ByteToken.RevokeRoleStep: only an admin may change roles, as in the usual access-control contract. The token's test file does not exercise this.
- Building the blockchain RPC clients in lib/ethers.ts (lines 15-37) is not modelled. `B_DECIMALS` (line 25) is `Ethers.B_DECIMALS`.
- `app/api/webhooks/stripe/route.ts` is not modelled. It does not compile as written. Signature checking belongs to the payment library. The `stripeCurrentPeriodEnd` column, which only the webhook writes, is left out of `Schema.UserSubscription` for that reason.
- `app/api/chat/route.ts` is not modelled: it is authentication, model-provider and HTTP plumbing around `checkRateLimit`. Its `X-RateLimit-Limit` header reports remaining + 1, not the tier limit.
- `getPremiumUsers` and `getUpcomingRenewals` in `db/queries/subscriptions.ts` are not modelled: they are ORM queries only.
- `actions/selectCourse.ts` is not modelled (authentication and ORM only).
- `app/api/subscriptions/route.ts` is not modelled: its predicate is `SubscriptionQueries.IsSubscriptionActive`.
- `lib/token.ts`, `lib/viem.ts`, `lib/stripe.ts`, `lib/sounds.ts`, the middleware and all UI components are not modelled: they are RPC, client construction, browser APIs, routing and rendering.
