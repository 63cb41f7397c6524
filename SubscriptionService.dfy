/** Model of backend/app/services/subscription_service.py: the plan table,
    license status with its fall-back to the free plan, subscribing, and the
    usage-limit and feature checks. */
module SubscriptionService {
  import opened Wrappers
  import opened LicenseService

  /** `SubscriptionPlan`. Prices are exact decimals here. */
  datatype Plan = Plan(planId: string, name: string, description: string,
                       priceMonthly: real, priceYearly: real,
                       features: seq<string>, limits: map<string, int>, isPopular: bool)

  const FreePlan: Plan := Plan(
    "free", "Free Plan", "Perfect for trying out our SEO tools", 0.0, 0.0,
    ["Basic SEO analysis", "Keyword research (5 keywords/day)", "Basic reporting", "Email support"],
    map["websites" := 1, "seo_analyses_per_month" := 10, "keyword_research_per_day" := 5,
        "competitor_analyses_per_month" := 0, "api_calls_per_day" := 50],
    false)

  const BasicPlan: Plan := Plan(
    "basic", "Basic Plan", "Great for small businesses and freelancers", 29.99, 299.99,
    ["Advanced SEO analysis", "Unlimited keyword research", "Competitor analysis (5/month)",
     "Custom reporting", "Priority email support", "SEO recommendations"],
    map["websites" := 5, "seo_analyses_per_month" := 100, "keyword_research_per_day" := -1,
        "competitor_analyses_per_month" := 5, "api_calls_per_day" := 500],
    false)

  const ProPlan: Plan := Plan(
    "pro", "Pro Plan", "Perfect for agencies and growing businesses", 79.99, 799.99,
    ["All Basic features", "White-label reporting", "Advanced competitor analysis",
     "Backlink tracking", "API access", "Custom integrations", "Phone support", "Team collaboration"],
    map["websites" := 25, "seo_analyses_per_month" := 500, "keyword_research_per_day" := -1,
        "competitor_analyses_per_month" := 25, "api_calls_per_day" := 2000],
    true)

  const EnterprisePlan: Plan := Plan(
    "enterprise", "Enterprise Plan", "For large organizations with custom needs", 199.99, 1999.99,
    ["All Pro features", "Unlimited everything", "Custom reporting dashboard",
     "Dedicated account manager", "SLA guarantee", "Custom integrations",
     "On-premise deployment option", "Advanced analytics"],
    map["websites" := -1, "seo_analyses_per_month" := -1, "keyword_research_per_day" := -1,
        "competitor_analyses_per_month" := -1, "api_calls_per_day" := -1],
    false)

  /** `PLANS`, keyed by plan id. */
  const Plans: map<string, Plan> :=
    map["free" := FreePlan, "basic" := BasicPlan, "pro" := ProPlan, "enterprise" := EnterprisePlan]

  /** `get_plan`: `PLANS.get(plan_id)`. */
  function GetPlan(planId: string): (r: Option<Plan>)
    ensures r.Some? <==> planId in {"free", "basic", "pro", "enterprise"}
    ensures r.Some? ==> r.value.planId == planId
  {
    if planId in Plans then Some(Plans[planId]) else None
  }

  /** Every limit of the enterprise plan is -1, meaning unlimited, and it
      carries the same limit keys as the free plan. */
  lemma EnterpriseUnlimited()
    ensures GetPlan("enterprise").Some?
    ensures GetPlan("enterprise").value.limits.Keys == FreePlan.limits.Keys
    ensures forall k :: k in GetPlan("enterprise").value.limits ==> GetPlan("enterprise").value.limits[k] == -1
  {
  }

  /** `LicenseStatus`. */
  datatype LicenseStatus = LicenseStatus(userId: int, plan: string, isActive: bool,
                                         validUntil: Option<int>, usageStats: map<string, int>,
                                         limits: map<string, int>, featuresAvailable: seq<string>)

  /** `_get_usage_stats`: the number of SEO analyses this month (a query on
      another table, passed in) and three simulated constants. */
  function UsageStats(seoAnalysesThisMonth: nat): map<string, int> {
    map["seo_analyses" := seoAnalysesThisMonth, "keyword_research" := 5,
        "competitor_analyses" := 2, "api_calls" := 45]
  }

  /** The status reported when the user has no usable license. */
  function FreeStatus(userId: int, usage: map<string, int>): LicenseStatus {
    LicenseStatus(userId, "free", true, None, usage, FreePlan.limits, FreePlan.features)
  }

  /** The active license with the latest `created_at`, as `order_by(created_at
      desc).first()` picks it; among equal timestamps the later row. */
  function NewestActive(rows: seq<License>, userId: int): (r: Option<nat>)
    ensures r.Some? ==> r.value < |rows| && ActiveFor(rows[r.value], userId)
    ensures r.Some? ==> forall j :: 0 <= j < |rows| && ActiveFor(rows[j], userId) ==>
      rows[j].createdAt <= rows[r.value].createdAt
    ensures r.None? <==> forall j :: 0 <= j < |rows| ==> !ActiveFor(rows[j], userId)
    decreases |rows|
  {
    if rows == [] then None
    else
      var last := |rows| - 1;
      var rest := NewestActive(rows[..last], userId);
      assert forall j :: 0 <= j < last ==> rows[..last][j] == rows[j];
      if !ActiveFor(rows[last], userId) then rest
      else if rest.Some? && rows[rest.value].createdAt > rows[last].createdAt then rest
      else Some(last)
  }

  /** The status `get_user_license_status` reports for the table `rows`. */
  function StatusOf(rows: seq<License>, userId: int, now: int, usage: map<string, int>): LicenseStatus {
    match NewestActive(rows, userId)
    case None => FreeStatus(userId, usage)
    case Some(i) =>
      if Expired(rows[i], now) then FreeStatus(userId, usage)
      else
        var plan := GetPlan(rows[i].plan).GetOr(FreePlan);
        LicenseStatus(userId, rows[i].plan, rows[i].isActive, rows[i].validUntil,
                      usage, plan.limits, plan.features)
  }

  /** The table after `get_user_license_status`: an expired newest license is
      marked inactive. */
  function RowsAfterStatus(rows: seq<License>, userId: int, now: int): (r: seq<License>)
    ensures |r| == |rows|
  {
    match NewestActive(rows, userId)
    case None => rows
    case Some(i) => if Expired(rows[i], now) then rows[i := rows[i].(isActive := false)] else rows
  }

  /** Without an active license the user is reported on the free plan and
      nothing changes. */
  lemma NoLicenseFallsBackToFree(rows: seq<License>, userId: int, now: int, usage: map<string, int>)
    requires forall j :: 0 <= j < |rows| ==> !ActiveFor(rows[j], userId)
    ensures StatusOf(rows, userId, now, usage) == FreeStatus(userId, usage)
    ensures RowsAfterStatus(rows, userId, now) == rows
  {
  }

  /** When the newest active license is past its `valid_until`, the user is
      reported on the free plan and that license alone is deactivated. */
  lemma ExpiredLicenseFallsBackToFree(rows: seq<License>, userId: int, now: int, usage: map<string, int>)
    requires NewestActive(rows, userId).Some?
    requires Expired(rows[NewestActive(rows, userId).value], now)
    ensures StatusOf(rows, userId, now, usage) == FreeStatus(userId, usage)
    ensures var i := NewestActive(rows, userId).value;
      RowsAfterStatus(rows, userId, now) == rows[i := rows[i].(isActive := false)]
  {
  }

  /** The fall-back status is the free plan, active, without an end date. */
  lemma FreeStatusShape(userId: int, usage: map<string, int>)
    ensures FreeStatus(userId, usage).plan == "free" && FreeStatus(userId, usage).isActive
    ensures FreeStatus(userId, usage).validUntil.None?
    ensures FreeStatus(userId, usage).limits == GetPlan("free").value.limits
    ensures FreeStatus(userId, usage).featuresAvailable == GetPlan("free").value.features
  {
  }

  /** An active, unexpired license keeps its plan name; an unknown plan id
      reports the free plan's limits and features. */
  lemma ActiveLicenseStatus(rows: seq<License>, userId: int, now: int, usage: map<string, int>)
    requires NewestActive(rows, userId).Some?
    requires !Expired(rows[NewestActive(rows, userId).value], now)
    ensures var l := rows[NewestActive(rows, userId).value];
      var s := StatusOf(rows, userId, now, usage);
      && s.plan == l.plan && s.isActive && s.validUntil == l.validUntil
      && (GetPlan(l.plan).None? ==> s.limits == FreePlan.limits && s.featuresAvailable == FreePlan.features)
      && (GetPlan(l.plan).Some? ==>
            s.limits == GetPlan(l.plan).value.limits && s.featuresAvailable == GetPlan(l.plan).value.features)
    ensures RowsAfterStatus(rows, userId, now) == rows
  {
  }

  /** What `deactivate_user_licenses` does to one row. */
  function DeactivateFor(l: License, userId: int): License {
    if ActiveFor(l, userId) then l.(isActive := false) else l
  }

  /** The table after `deactivate_user_licenses(user_id)`. */
  function DeactivateUser(rows: seq<License>, userId: int): (r: seq<License>)
    ensures |r| == |rows|
    ensures forall i :: 0 <= i < |rows| ==> r[i] == DeactivateFor(rows[i], userId)
  {
    seq(|rows|, i requires 0 <= i < |rows| => DeactivateFor(rows[i], userId))
  }

  /** Afterwards the user has no active license, other users' rows are
      untouched, and only `is_active` changes. */
  lemma DeactivateUserEffect(rows: seq<License>, userId: int)
    ensures forall i :: 0 <= i < |rows| ==> !ActiveFor(DeactivateUser(rows, userId)[i], userId)
    ensures forall i :: 0 <= i < |rows| && rows[i].userId != userId ==> DeactivateUser(rows, userId)[i] == rows[i]
    ensures forall i :: 0 <= i < |rows| ==>
      DeactivateUser(rows, userId)[i] == rows[i].(isActive := DeactivateUser(rows, userId)[i].isActive)
  {
  }

  lemma DeactivateUserIdempotent(rows: seq<License>, userId: int)
    ensures DeactivateUser(DeactivateUser(rows, userId), userId) == DeactivateUser(rows, userId)
  {
  }

  /** Days granted by a billing cycle: 365 for `"yearly"`, 30 for anything else. */
  function ValidDays(billingCycle: string): (days: int)
    ensures days == 365 <==> billingCycle == "yearly"
    ensures days == 30 <==> billingCycle != "yearly"
  {
    if billingCycle == "yearly" then 365 else 30
  }

  /** After subscribing, the new license is the user's only active one, so it
      is the one the status reports for as long as it has not expired. */
  lemma {:induction false} SubscribeLeavesOneActive(rows: seq<License>, l: License, now: int, usage: map<string, int>)
    requires l.isActive
    requires l.validUntil.Some? && now <= l.validUntil.value
    ensures var after := DeactivateUser(rows, l.userId) + [l];
      && (forall i :: 0 <= i < |after| ==> (ActiveFor(after[i], l.userId) <==> i == |rows|))
      && NewestActive(after, l.userId) == Some(|rows|)
      && StatusOf(after, l.userId, now, usage).plan == l.plan
      && StatusOf(after, l.userId, now, usage).validUntil == l.validUntil
  {
    var after := DeactivateUser(rows, l.userId) + [l];
    DeactivateUserEffect(rows, l.userId);
    assert forall i :: 0 <= i < |rows| ==> after[i] == DeactivateUser(rows, l.userId)[i];
    assert after[|rows|] == l;
    var n := NewestActive(after, l.userId);
    assert n.Some? by {
      assert ActiveFor(after[|rows|], l.userId);
    }
  }

  /** `get_user_license_status`: reports `StatusOf` the table and marks an
      expired newest license inactive. */
  method GetUserLicenseStatus(db: LicenseTable, userId: int, now: int, seoAnalysesThisMonth: nat)
    returns (status: LicenseStatus)
    requires db.Valid()
    modifies db
    ensures db.Valid()
    ensures status == StatusOf(old(db.rows), userId, now, UsageStats(seoAnalysesThisMonth))
    ensures db.rows == RowsAfterStatus(old(db.rows), userId, now)
  {
    var usage := UsageStats(seoAnalysesThisMonth);
    var newest := NewestActive(db.rows, userId);
    if newest.None? {
      status := FreeStatus(userId, usage);
      return;
    }
    var i := newest.value;
    var license := db.rows[i];
    if license.validUntil.Some? && license.validUntil.value < now {
      db.rows := db.rows[i := license.(isActive := false)];
      status := FreeStatus(userId, usage);
      return;
    }
    var plan := GetPlan(license.plan);
    var chosen := if plan.None? then FreePlan else plan.value;
    status := LicenseStatus(userId, license.plan, license.isActive, license.validUntil,
                            usage, chosen.limits, chosen.features);
  }

  /** `deactivate_user_licenses`: every active license of the user is set inactive. */
  method DeactivateUserLicenses(db: LicenseTable, userId: int)
    requires db.Valid()
    modifies db
    ensures db.Valid()
    ensures db.rows == DeactivateUser(old(db.rows), userId)
  {
    var i := 0;
    while i < |db.rows|
      invariant 0 <= i <= |db.rows| == |old(db.rows)|
      invariant forall k :: 0 <= k < i ==> db.rows[k] == DeactivateFor(old(db.rows)[k], userId)
      invariant forall k :: i <= k < |db.rows| ==> db.rows[k] == old(db.rows)[k]
    {
      if db.rows[i].userId == userId && db.rows[i].isActive {
        db.rows := db.rows[i := db.rows[i].(isActive := false)];
      }
      i := i + 1;
    }
  }

  /** `create_subscription`: an unknown plan raises and changes nothing;
      otherwise the user's licenses are deactivated and one new active
      license is added, valid 365 days for a yearly cycle and 30 otherwise. */
  method CreateSubscription(db: LicenseTable, userId: int, planId: string, now: int, billingCycle: string := "monthly")
    returns (r: Result<License>)
    requires db.Valid()
    modifies db
    ensures db.Valid()
    ensures r.Err? <==> GetPlan(planId).None?
    ensures r.Err? ==> r.error == "Invalid plan ID: " + planId && db.rows == old(db.rows)
    ensures r.Ok? ==> db.rows == DeactivateUser(old(db.rows), userId) + [r.value]
    ensures r.Ok? ==> r.value == License(|old(db.rows)| + 1, userId, planId, true,
                                         Some(now + ValidDays(billingCycle) * SecondsPerDay), now)
  {
    var plan := GetPlan(planId);
    if plan.None? {
      return Err("Invalid plan ID: " + planId);
    }
    var validDays := if billingCycle == "yearly" then 365 else 30;
    DeactivateUserLicenses(db, userId);
    var l := CreateLicense(db, userId, planId, now, validDays);
    r := Ok(l);
  }

  /** The result of `check_usage_limit`; `currentUsage` is absent from the
      unlimited answer. */
  datatype UsageCheck = UsageCheck(allowed: bool, remaining: int, limit: int, currentUsage: Option<int>)

  /** The limit key `check_usage_limit` looks up for a resource type. */
  function LimitKey(resourceType: string): (key: string)
    ensures resourceType == "keyword_research" ==> key == "keyword_research_per_day"
    ensures resourceType != "keyword_research" ==> key == resourceType + "_per_month"
  {
    if resourceType in ["keyword_research"] then resourceType + "_per_day" else resourceType + "_per_month"
  }

  /** The decision `check_usage_limit` takes from a status's limits and usage
      under a given limit key. */
  function UsageDecisionFor(limits: map<string, int>, usage: map<string, int>, resourceType: string, key: string): (r: UsageCheck)
    ensures var limit := if key in limits then limits[key] else 0;
      var used := if resourceType in usage then usage[resourceType] else 0;
      && r.limit == limit
      && (limit == -1 ==> r.allowed && r.remaining == -1 && r.currentUsage.None?)
      && (limit != -1 ==> r.allowed == (used < limit) && r.currentUsage == Some(used)
                          && r.remaining == (if limit - used > 0 then limit - used else 0))
      && (limit >= 0 ==> (r.allowed <==> r.remaining > 0))
  {
    var used := if resourceType in usage then usage[resourceType] else 0;
    var limit := if key in limits then limits[key] else 0;
    if limit == -1 then UsageCheck(true, -1, -1, None)
    else
      var remaining := if 0 > limit - used then 0 else limit - used;
      UsageCheck(used < limit, remaining, limit, Some(used))
  }

  /** `check_usage_limit`'s decision as written. */
  function UsageDecision(limits: map<string, int>, usage: map<string, int>, resourceType: string): UsageCheck
  {
    UsageDecisionFor(limits, usage, resourceType, LimitKey(resourceType))
  }

  /** As written, `api_calls` is looked up under `api_calls_per_month`, which
      no plan defines, so even an enterprise user is refused every API call. */
  lemma ApiCallsAlwaysRefused(planId: string, seo: nat)
    requires GetPlan(planId).Some?
    ensures var r := UsageDecision(GetPlan(planId).value.limits, UsageStats(seo), "api_calls");
      !r.allowed && r.limit == 0 && r.remaining == 0
  {
    assert LimitKey("api_calls") == "api_calls_per_month";
    var limits := GetPlan(planId).value.limits;
    assert limits.Keys == FreePlan.limits.Keys;
    assert "api_calls_per_month" !in FreePlan.limits;
  }

  /** The evidently intended key: the plans count API calls per day, as they
      do keyword research. */
  function LimitKeyCorrected(resourceType: string): (key: string)
    ensures resourceType in {"keyword_research", "api_calls"} ==> key == resourceType + "_per_day"
    ensures resourceType !in {"keyword_research", "api_calls"} ==> key == resourceType + "_per_month"
  {
    if resourceType in ["keyword_research", "api_calls"] then resourceType + "_per_day" else resourceType + "_per_month"
  }

  /** With the corrected key every resource type of the usage statistics is
      checked against a limit its plan actually defines, so the enterprise
      plan allows all of them and the others allow what their table says. */
  lemma CorrectedKeysExistInEveryPlan(planId: string, resourceType: string, seo: nat)
    requires GetPlan(planId).Some?
    requires resourceType in UsageStats(seo)
    ensures LimitKeyCorrected(resourceType) in GetPlan(planId).value.limits
    ensures planId == "enterprise" ==>
      UsageDecisionFor(GetPlan(planId).value.limits, UsageStats(seo), resourceType, LimitKeyCorrected(resourceType)).allowed
  {
    var limits := GetPlan(planId).value.limits;
    assert limits.Keys == FreePlan.limits.Keys;
    if resourceType == "seo_analyses" {
      assert LimitKeyCorrected(resourceType) == "seo_analyses_per_month";
    } else if resourceType == "keyword_research" {
      assert LimitKeyCorrected(resourceType) == "keyword_research_per_day";
    } else if resourceType == "competitor_analyses" {
      assert LimitKeyCorrected(resourceType) == "competitor_analyses_per_month";
    } else {
      assert resourceType == "api_calls";
      assert LimitKeyCorrected(resourceType) == "api_calls_per_day";
    }
  }

  /** `check_usage_limit`: takes the license status (which may deactivate an
      expired license) and decides against its limits. */
  method CheckUsageLimit(db: LicenseTable, userId: int, resourceType: string, now: int, seoAnalysesThisMonth: nat)
    returns (r: UsageCheck)
    requires db.Valid()
    modifies db
    ensures db.Valid()
    ensures db.rows == RowsAfterStatus(old(db.rows), userId, now)
    ensures var s := StatusOf(old(db.rows), userId, now, UsageStats(seoAnalysesThisMonth));
      r == UsageDecision(s.limits, s.usageStats, resourceType)
  {
    var status := GetUserLicenseStatus(db, userId, now, seoAnalysesThisMonth);
    r := UsageDecision(status.limits, status.usageStats, resourceType);
  }

  /** `check_feature_access`: membership of the feature in the status's features. */
  method CheckFeatureAccess(db: LicenseTable, userId: int, feature: string, now: int, seoAnalysesThisMonth: nat)
    returns (allowed: bool)
    requires db.Valid()
    modifies db
    ensures db.Valid()
    ensures db.rows == RowsAfterStatus(old(db.rows), userId, now)
    ensures allowed <==> feature in StatusOf(old(db.rows), userId, now, UsageStats(seoAnalysesThisMonth)).featuresAvailable
  {
    var status := GetUserLicenseStatus(db, userId, now, seoAnalysesThisMonth);
    allowed := feature in status.featuresAvailable;
  }
}
