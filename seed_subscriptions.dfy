/**
 * The seeding script for the subscription catalogue: four plans and their
 * features, each feature stored under an id derived from its plan and its
 * name. The Stripe price ids come from the environment and are inputs.
 */
module SeedSubscriptions {
  import opened Wrappers
  import opened Text
  import opened Schema

  /** A feature as the script lists it, before it gets its id. */
  datatype SeedFeature = SeedFeature(
    planId: string,
    featureName: string,
    featureDescription: string,
    value: int,
    isUnlimited: bool)

  /** The six `STRIPE_PRICE_ID_*` variables. */
  datatype PriceEnv = PriceEnv(
    proMonthly: Option<string>, proYearly: Option<string>,
    premiumMonthly: Option<string>, premiumYearly: Option<string>,
    eliteMonthly: Option<string>, eliteYearly: Option<string>)

  const PLAN_IDS: seq<string> := ["free", "pro", "premium", "elite"]

  function SeedPlans(env: PriceEnv): seq<Plan> {
    [
      Plan("free", "Free", "Perfect for getting started", 0, 0, None, None, 0, false, []),
      Plan("pro", "Pro", "For serious learners", 999, 9999, env.proMonthly, env.proYearly, 1, true, []),
      Plan("premium", "Premium", "All features included", 1999, 19999, env.premiumMonthly, env.premiumYearly, 2, false, []),
      Plan("elite", "Elite", "VIP treatment & priority support", 4999, 49999, env.eliteMonthly, env.eliteYearly, 3, false, [])
    ]
  }

  const FREE_FEATURES: seq<SeedFeature> := [
    SeedFeature("free", "Courses", "Basic courses", 0, false),
    SeedFeature("free", "Hearts", "Daily hearts for practice", 5, false),
    SeedFeature("free", "Challenge Matches", "PvP coding challenges", 3, false),
    SeedFeature("free", "Forum Access", "Community forum", 0, false)
  ]

  const PRO_FEATURES: seq<SeedFeature> := [
    SeedFeature("pro", "Courses", "All courses unlocked", 0, true),
    SeedFeature("pro", "Hearts", "Unlimited hearts per day", 0, true),
    SeedFeature("pro", "Challenge Matches", "Unlimited PvP challenges", 0, true),
    SeedFeature("pro", "Forum Access", "Premium forum access", 0, true),
    SeedFeature("pro", "Ad-Free Experience", "No advertisements", 0, true),
    SeedFeature("pro", "Progress Analytics", "Detailed performance analytics", 0, true)
  ]

  const PREMIUM_FEATURES: seq<SeedFeature> := [
    SeedFeature("premium", "Courses", "All courses + advanced topics", 0, true),
    SeedFeature("premium", "Hearts", "Unlimited hearts", 0, true),
    SeedFeature("premium", "Challenge Matches", "Unlimited challenges with prizes", 0, true),
    SeedFeature("premium", "Forum Access", "Priority forum support", 0, true),
    SeedFeature("premium", "Ad-Free Experience", "No advertisements", 0, true),
    SeedFeature("premium", "Progress Analytics", "Advanced AI-powered analytics", 0, true),
    SeedFeature("premium", "Live Mentoring", "1 session per month", 1, false),
    SeedFeature("premium", "Code Review", "Monthly code reviews", 4, false),
    SeedFeature("premium", "Custom Learning Path", "Personalized curriculum", 0, true)
  ]

  const ELITE_FEATURES: seq<SeedFeature> := [
    SeedFeature("elite", "Courses", "All courses + exclusive content", 0, true),
    SeedFeature("elite", "Hearts", "Unlimited hearts", 0, true),
    SeedFeature("elite", "Challenge Matches", "Unlimited with special tournaments", 0, true),
    SeedFeature("elite", "Forum Access", "Direct mentor access", 0, true),
    SeedFeature("elite", "Ad-Free Experience", "No advertisements", 0, true),
    SeedFeature("elite", "Progress Analytics", "Premium AI analytics + predictions", 0, true),
    SeedFeature("elite", "Live Mentoring", "Unlimited sessions", 0, true),
    SeedFeature("elite", "Code Review", "Unlimited reviews", 0, true),
    SeedFeature("elite", "Custom Learning Path", "100% personalized curriculum", 0, true),
    SeedFeature("elite", "Priority Support", "24/7 dedicated support", 0, true),
    SeedFeature("elite", "Exclusive Events", "VIP coding competitions", 0, true),
    SeedFeature("elite", "Crypto Rewards", "Extra BYTE token rewards", 0, true)
  ]

  const SEED_FEATURES: seq<SeedFeature> := FREE_FEATURES + PRO_FEATURES + PREMIUM_FEATURES + ELITE_FEATURES

  const FEATURE_NAMES: seq<string> := [
    "Courses", "Hearts", "Challenge Matches", "Forum Access", "Ad-Free Experience", "Progress Analytics",
    "Live Mentoring", "Code Review", "Custom Learning Path", "Priority Support", "Exclusive Events", "Crypto Rewards"
  ]

  // ---------------------------------------------------------------------
  // Feature ids

  /** The slug of a feature name: lower-cased, each run of white space
      replaced by one "-". */
  function Slug(featureName: string): string {
    ReplaceWhitespaceRuns(Lower(featureName), '-')
  }

  /** The id a seeded feature is stored under: plan id, "-", slug. */
  function FeatureId(planId: string, featureName: string): (id: string)
    ensures StartsWith(id, planId + "-")
    ensures NoWhitespace(planId) ==> NoWhitespace(id)
    ensures |id| <= |planId| + 1 + |featureName|
  {
    var slug := Slug(featureName);
    assert (planId + "-" + slug)[..|planId + "-"|] == planId + "-";
    assert NoWhitespace(planId) ==> NoWhitespace(planId + "-" + slug) by {
      if NoWhitespace(planId) {
        assert !IsWhitespace('-');
        NoWhitespaceAppend(planId, "-");
        NoWhitespaceAppend(planId + "-", slug);
      }
    }
    planId + "-" + slug
  }

  function IdOf(f: SeedFeature): string {
    FeatureId(f.planId, f.featureName)
  }

  /** The characters the seeded names are written with. */
  predicate NameChar(c: char) {
    ('A' <= c <= 'Z') || ('a' <= c <= 'z') || c == '-' || c == ' '
  }

  /** Letters, hyphens and spaces, never two spaces in a row. */
  predicate Spaced(s: string) {
    && (forall k :: 0 <= k < |s| ==> NameChar(s[k]))
    && (forall k :: 0 <= k < |s| - 1 ==> !(s[k] == ' ' && s[k + 1] == ' '))
  }

  /** A name the slug maps character for character: spaced, and starting
      with a letter or hyphen. */
  predicate SingleSpaced(name: string) {
    Spaced(name) && name != [] && name[0] != ' '
  }

  /** On spaced text the slug only renames each space to "-". */
  lemma {:induction false} SlugKeepsLength(s: string)
    requires Spaced(s)
    ensures |ReplaceWhitespaceRuns(s, '-')| == |s|
    ensures s != [] && s[0] != ' ' ==> ReplaceWhitespaceRuns(s, '-')[0] == s[0]
    decreases |s|
  {
    if s != [] {
      assert forall k :: 0 <= k < |s| ==> (IsWhitespace(s[k]) <==> s[k] == ' ');
      assert Spaced(s[1..]);
      if s[0] == ' ' {
        assert s[1..] == [] || s[1] != ' ';
        assert TrimStart(s[1..]) == s[1..];
        assert TrimStart(s) == s[1..];
      }
      SlugKeepsLength(s[1..]);
    }
  }

  /** Lower-casing keeps a name spaced. */
  lemma LowerKeepsSpacing(name: string)
    requires SingleSpaced(name)
    ensures SingleSpaced(Lower(name))
  {
    var l := Lower(name);
    assert forall k :: 0 <= k < |name| ==> (l[k] == ' ' <==> name[k] == ' ');
  }

  /** What of a name survives in its slug: the lower-cased first character
      and the length. */
  function NameKey(f: SeedFeature): (string, char, int) {
    (f.planId, if f.featureName == [] then ' ' else LowerChar(f.featureName[0]), |f.featureName|)
  }

  lemma SlugShape(name: string)
    requires SingleSpaced(name)
    ensures |Slug(name)| == |name| && Slug(name)[0] == LowerChar(name[0])
  {
    LowerKeepsSpacing(name);
    SlugKeepsLength(Lower(name));
  }

  /** The position of the first `c` in `s`, or `|s|` when there is none. */
  function IndexOf(s: string, c: char): nat {
    if s == [] || s[0] == c then 0 else 1 + IndexOf(s[1..], c)
  }

  lemma {:induction false} DashAfterPlanId(p: string, s: string)
    requires '-' !in p
    ensures IndexOf(p + "-" + s, '-') == |p|
  {
    if p != [] {
      assert (p + "-" + s)[1..] == p[1..] + "-" + s;
      assert p[0] != '-';
      DashAfterPlanId(p[1..], s);
    }
  }

  /** Splitting an id at its first "-" gives back the plan id and the slug. */
  lemma SplitAtDash(p1: string, s1: string, p2: string, s2: string)
    requires '-' !in p1 && '-' !in p2
    requires p1 + "-" + s1 == p2 + "-" + s2
    ensures p1 == p2 && s1 == s2
  {
    DashAfterPlanId(p1, s1);
    DashAfterPlanId(p2, s2);
    var a := p1 + "-" + s1;
    assert a[..|p1|] == p1 && (p2 + "-" + s2)[..|p2|] == p2;
    assert a[|p1| + 1..] == s1 && (p2 + "-" + s2)[|p2| + 1..] == s2;
  }

  /** Two features with different keys get different ids. */
  lemma IdsFollowKeys(f: SeedFeature, g: SeedFeature)
    requires '-' !in f.planId && '-' !in g.planId
    requires SingleSpaced(f.featureName) && SingleSpaced(g.featureName)
    requires NameKey(f) != NameKey(g)
    ensures IdOf(f) != IdOf(g)
  {
    if IdOf(f) == IdOf(g) {
      SplitAtDash(f.planId, Slug(f.featureName), g.planId, Slug(g.featureName));
      SlugShape(f.featureName);
      SlugShape(g.featureName);
      assert false;
    }
  }

  // ---------------------------------------------------------------------
  // The seeded table

  predicate KeysDistinct(fs: seq<SeedFeature>) {
    forall i, j :: 0 <= i < j < |fs| ==> NameKey(fs[i]) != NameKey(fs[j])
  }

  predicate PlansIn(fs: seq<SeedFeature>, ps: set<string>) {
    forall i :: 0 <= i < |fs| ==> fs[i].planId in ps
  }

  lemma KeysDistinctConcat(a: seq<SeedFeature>, b: seq<SeedFeature>, pa: set<string>, pb: set<string>)
    requires KeysDistinct(a) && KeysDistinct(b)
    requires PlansIn(a, pa) && PlansIn(b, pb) && pa !! pb
    ensures KeysDistinct(a + b) && PlansIn(a + b, pa + pb)
  {
    var c := a + b;
    forall i, j | 0 <= i < j < |c|
      ensures NameKey(c[i]) != NameKey(c[j])
    {
      if j < |a| {
        assert c[i] == a[i] && c[j] == a[j];
      } else if i >= |a| {
        assert c[i] == b[i - |a|] && c[j] == b[j - |a|];
      } else {
        assert c[i] == a[i] && c[j] == b[j - |a|];
        assert c[i].planId in pa && c[j].planId in pb;
      }
    }
  }

  /** The first lower-cased character and the length of each name. */
  lemma FeatureNameKeys()
    ensures forall i, j :: 0 <= i < j < |FEATURE_NAMES| ==>
              (LowerChar(FEATURE_NAMES[i][0]), |FEATURE_NAMES[i]|) != (LowerChar(FEATURE_NAMES[j][0]), |FEATURE_NAMES[j]|)
  {
    var keys := [('c', 7), ('h', 6), ('c', 17), ('f', 12), ('a', 18), ('p', 18),
                 ('l', 14), ('c', 11), ('c', 20), ('p', 16), ('e', 16), ('c', 14)];
    forall k | 0 <= k < |FEATURE_NAMES|
      ensures (LowerChar(FEATURE_NAMES[k][0]), |FEATURE_NAMES[k]|) == keys[k]
    {
    }
  }

  /** A plan whose features carry the first names of the list, in order,
      has distinct keys. */
  lemma PlanKeys(fs: seq<SeedFeature>, p: string)
    requires |fs| <= |FEATURE_NAMES|
    requires forall i :: 0 <= i < |fs| ==> fs[i].planId == p && fs[i].featureName == FEATURE_NAMES[i]
    ensures KeysDistinct(fs) && PlansIn(fs, {p})
  {
    FeatureNameKeys();
    forall i, j | 0 <= i < j < |fs|
      ensures NameKey(fs[i]) != NameKey(fs[j])
    {
      assert FEATURE_NAMES[i] != [] && FEATURE_NAMES[j] != [];
    }
  }

  lemma FreeKeys()
    ensures KeysDistinct(FREE_FEATURES) && PlansIn(FREE_FEATURES, {"free"})
  {
    PlanKeys(FREE_FEATURES, "free");
  }

  lemma ProKeys()
    ensures KeysDistinct(PRO_FEATURES) && PlansIn(PRO_FEATURES, {"pro"})
  {
    PlanKeys(PRO_FEATURES, "pro");
  }

  lemma PremiumKeys()
    ensures KeysDistinct(PREMIUM_FEATURES) && PlansIn(PREMIUM_FEATURES, {"premium"})
  {
    PlanKeys(PREMIUM_FEATURES, "premium");
  }

  lemma EliteKeys()
    ensures KeysDistinct(ELITE_FEATURES) && PlansIn(ELITE_FEATURES, {"elite"})
  {
    PlanKeys(ELITE_FEATURES, "elite");
  }

  lemma SeedKeysDistinct()
    ensures KeysDistinct(SEED_FEATURES)
    ensures PlansIn(SEED_FEATURES, {"free", "pro", "premium", "elite"})
  {
    FreeKeys();
    ProKeys();
    PremiumKeys();
    EliteKeys();
    KeysDistinctConcat(FREE_FEATURES, PRO_FEATURES, {"free"}, {"pro"});
    KeysDistinctConcat(FREE_FEATURES + PRO_FEATURES, PREMIUM_FEATURES, {"free", "pro"}, {"premium"});
    KeysDistinctConcat(FREE_FEATURES + PRO_FEATURES + PREMIUM_FEATURES, ELITE_FEATURES,
                       {"free", "pro", "premium"}, {"elite"});
  }

  lemma NameSingleSpaced(k: nat)
    requires k < |FEATURE_NAMES|
    ensures SingleSpaced(FEATURE_NAMES[k])
  {
    if k < 4 {
      NameSingleSpacedA(k);
    } else if k < 8 {
      NameSingleSpacedB(k);
    } else {
      NameSingleSpacedC(k);
    }
  }

  lemma NameSingleSpacedA(k: nat)
    requires k < 4
    ensures SingleSpaced(FEATURE_NAMES[k])
  {
  }

  lemma NameSingleSpacedB(k: nat)
    requires 4 <= k < 8
    ensures SingleSpaced(FEATURE_NAMES[k])
  {
  }

  lemma NameSingleSpacedC(k: nat)
    requires 8 <= k < 12
    ensures SingleSpaced(FEATURE_NAMES[k])
  {
  }

  lemma SeedNamesAreListed()
    ensures forall i :: 0 <= i < |SEED_FEATURES| ==> SEED_FEATURES[i].featureName in FEATURE_NAMES
  {
  }

  lemma PlanIdsHaveNoDash()
    ensures forall p :: p in PLAN_IDS ==> '-' !in p && NoWhitespace(p)
  {
    assert '-' !in "free" && '-' !in "pro" && '-' !in "premium" && '-' !in "elite";
  }

  /** Every seeded feature belongs to one of the seeded plans. */
  lemma FeaturesBelongToSeededPlans(env: PriceEnv)
    ensures forall i :: 0 <= i < |SEED_FEATURES| ==> SEED_FEATURES[i].planId in PLAN_IDS
    ensures forall k :: 0 <= k < |PLAN_IDS| ==> SeedPlans(env)[k].id == PLAN_IDS[k]
  {
    SeedKeysDistinct();
  }

  /** The 31 derived ids are pairwise distinct and free of white space. */
  lemma SeededIdsDistinct()
    ensures forall i, j :: 0 <= i < j < |SEED_FEATURES| ==> IdOf(SEED_FEATURES[i]) != IdOf(SEED_FEATURES[j])
    ensures forall i :: 0 <= i < |SEED_FEATURES| ==> NoWhitespace(IdOf(SEED_FEATURES[i]))
  {
    SeedKeysDistinct();
    SeedNamesAreListed();
    PlanIdsHaveNoDash();
    assert forall i :: 0 <= i < |SEED_FEATURES| ==> SEED_FEATURES[i].planId in PLAN_IDS;
    forall n | n in FEATURE_NAMES
      ensures SingleSpaced(n)
    {
      var k :| 0 <= k < |FEATURE_NAMES| && FEATURE_NAMES[k] == n;
      NameSingleSpaced(k);
    }
    forall i, j | 0 <= i < j < |SEED_FEATURES|
      ensures IdOf(SEED_FEATURES[i]) != IdOf(SEED_FEATURES[j])
    {
      IdsFollowKeys(SEED_FEATURES[i], SEED_FEATURES[j]);
    }
  }

  /** The plans are ordered 0 to 3 and only "pro" is marked popular. */
  lemma SeededPlansShape(env: PriceEnv)
    ensures |SeedPlans(env)| == 4
    ensures forall k :: 0 <= k < 4 ==> SeedPlans(env)[k].order == k && SeedPlans(env)[k].id == PLAN_IDS[k]
    ensures SeedPlans(env)[1].isPopular
    ensures forall k :: 0 <= k < 4 && k != 1 ==> !SeedPlans(env)[k].isPopular
  {
  }

  // ---------------------------------------------------------------------
  // Seeding

  /** The row inserted for a seeded feature. */
  function FeatureRow(f: SeedFeature): Feature {
    Feature(IdOf(f), f.planId, f.featureName, Some(f.featureDescription), f.value, f.isUnlimited)
  }

  /** The feature table after inserting `fs`, in order, into an empty one. */
  function FeatureRows(fs: seq<SeedFeature>): (m: map<string, Feature>)
    ensures forall i :: 0 <= i < |fs| ==> IdOf(fs[i]) in m
  {
    if fs == [] then map[]
    else
      var last := fs[|fs| - 1];
      var m := FeatureRows(fs[..|fs| - 1]);
      assert forall i :: 0 <= i < |fs| - 1 ==> fs[..|fs| - 1][i] == fs[i];
      m[IdOf(last) := FeatureRow(last)]
  }

  /** The only keys are the features' ids. */
  lemma {:induction false} FeatureRowsKeys(fs: seq<SeedFeature>, id: string)
    ensures id in FeatureRows(fs) ==> exists i :: 0 <= i < |fs| && IdOf(fs[i]) == id
  {
    if fs != [] && id in FeatureRows(fs) {
      var init := fs[..|fs| - 1];
      if id == IdOf(fs[|fs| - 1]) {
        assert IdOf(fs[|fs| - 1]) == id;
      } else {
        FeatureRowsKeys(init, id);
        var i :| 0 <= i < |init| && IdOf(init[i]) == id;
        assert fs[i] == init[i];
      }
    }
  }

  predicate IdsDistinct(fs: seq<SeedFeature>) {
    forall i, j :: 0 <= i < j < |fs| ==> IdOf(fs[i]) != IdOf(fs[j])
  }

  /** A feature whose id no later feature repeats is found under that id. */
  lemma {:induction false} FeatureRowsLookupAt(fs: seq<SeedFeature>, i: int)
    requires 0 <= i < |fs|
    requires forall j :: i < j < |fs| ==> IdOf(fs[j]) != IdOf(fs[i])
    ensures FeatureRows(fs)[IdOf(fs[i])] == FeatureRow(fs[i])
  {
    var last := |fs| - 1;
    var init := fs[..last];
    FeatureRowsStep(fs);
    if i < last {
      assert init[i] == fs[i];
      forall j | i < j < |init|
        ensures IdOf(init[j]) != IdOf(init[i])
      {
        assert init[j] == fs[j];
      }
      FeatureRowsLookupAt(init, i);
    }
  }

  lemma FeatureRowsStep(fs: seq<SeedFeature>)
    requires fs != []
    ensures FeatureRows(fs) == FeatureRows(fs[..|fs| - 1])[IdOf(fs[|fs| - 1]) := FeatureRow(fs[|fs| - 1])]
  {
  }

  /** With distinct ids every feature is found under its own id. */
  lemma FeatureRowsLookup(fs: seq<SeedFeature>)
    requires IdsDistinct(fs)
    ensures forall i :: 0 <= i < |fs| ==> FeatureRows(fs)[IdOf(fs[i])] == FeatureRow(fs[i])
  {
    forall i | 0 <= i < |fs|
      ensures FeatureRows(fs)[IdOf(fs[i])] == FeatureRow(fs[i])
    {
      FeatureRowsLookupAt(fs, i);
    }
  }

  /** The plan table the script inserts, keyed by plan id. */
  function PlanRows(env: PriceEnv): map<string, Plan> {
    var ps := SeedPlans(env);
    map["free" := ps[0], "pro" := ps[1], "premium" := ps[2], "elite" := ps[3]]
  }

  /** The subscription catalogue tables. */
  class Catalog {
    var plans: map<string, Plan>
    var features: map<string, Feature>

    constructor (plans0: map<string, Plan>, features0: map<string, Feature>)
      ensures plans == plans0 && features == features0
    {
      plans := plans0;
      features := features0;
    }
  }

  /** The insert loop: each feature in turn, none of them under an id
      already taken. */
  method InsertFeatures(c: Catalog, fs: seq<SeedFeature>)
    requires IdsDistinct(fs) && c.features == map[]
    modifies c
    ensures c.plans == old(c.plans)
    ensures c.features == FeatureRows(fs)
  {
    var i := 0;
    while i < |fs|
      invariant 0 <= i <= |fs|
      invariant c.plans == old(c.plans)
      invariant c.features == FeatureRows(fs[..i])
    {
      var feature := fs[i];
      var id := FeatureId(feature.planId, feature.featureName);
      assert forall k :: 0 <= k < i ==> fs[..i][k] == fs[k];
      FeatureRowsKeys(fs[..i], id);
      assert id !in c.features;
      c.features := c.features[id := FeatureRow(feature)];
      assert fs[..i + 1][..i] == fs[..i];
      i := i + 1;
    }
    assert fs[..i] == fs;
  }

  /** `seedSubscriptionPlans`: deleting the plans cascades to their
      features; then the plans are inserted and the features one by one.
      No insert violates the primary key of the feature table. */
  method SeedSubscriptionPlans(c: Catalog, env: PriceEnv)
    modifies c
    ensures c.plans == PlanRows(env)
    ensures c.features == FeatureRows(SEED_FEATURES)
  {
    c.plans := map[];
    c.features := map[];
    c.plans := PlanRows(env);
    SeededIdsDistinct();
    InsertFeatures(c, SEED_FEATURES);
  }

  /** The seeded feature table holds all 31 features, each under its id. */
  lemma SeededFeatureTable()
    ensures forall i :: 0 <= i < |SEED_FEATURES| ==>
              FeatureRows(SEED_FEATURES)[IdOf(SEED_FEATURES[i])] == FeatureRow(SEED_FEATURES[i])
  {
    SeededIdsDistinct();
    FeatureRowsLookup(SEED_FEATURES);
  }
}
