/** Plan entitlements and campaign pricing: the feature and quota tables per plan, the
    active-campaign selection and the campaign discount. */
module Subscription {
  import opened Wrappers

  datatype PlanType =
    | Free | PremiumMonthly | PremiumYearly | InstitutionalBasic | InstitutionalPremium | Enterprise
  {
    function Name(): string {
      match this
      case Free => "free"
      case PremiumMonthly => "premium_monthly"
      case PremiumYearly => "premium_yearly"
      case InstitutionalBasic => "institutional_basic"
      case InstitutionalPremium => "institutional_premium"
      case Enterprise => "enterprise"
    }
  }

  /** The campaign fields the pricing rules read. */
  datatype Campaign = Campaign(
    id: string,
    name: string,
    nameUrdu: string,
    discountPercentage: real,
    applicablePlans: seq<PlanType>,
    active: bool)

  /** The feature table of `checkFeatureAccess`. */
  function Features(plan: PlanType): seq<string> {
    match plan
    case Free => ["basic_quizzes", "limited_subjects", "community_support"]
    case PremiumMonthly =>
      ["all_subjects", "unlimited_quizzes", "ai_tutor", "analytics", "essay_grading", "study_plans"]
    case PremiumYearly =>
      ["all_subjects", "unlimited_quizzes", "ai_tutor", "analytics", "essay_grading", "study_plans",
       "bootcamps", "live_sessions"]
    case InstitutionalBasic =>
      ["all_subjects", "unlimited_quizzes", "ai_tutor", "basic_analytics", "teacher_dashboard"]
    case InstitutionalPremium =>
      ["all_subjects", "unlimited_quizzes", "ai_tutor", "advanced_analytics", "teacher_dashboard",
       "admin_dashboard", "custom_content"]
    case Enterprise =>
      ["all_subjects", "unlimited_quizzes", "ai_tutor", "advanced_analytics", "teacher_dashboard",
       "admin_dashboard", "custom_content", "api_access", "white_label"]
  }

  /** `checkFeatureAccess`: `featureMap[currentPlan]?.includes(feature) || false`. */
  function CheckFeatureAccess(currentPlan: PlanType, feature: string): (r: bool)
    ensures r <==> exists k :: 0 <= k < |Features(currentPlan)| && Features(currentPlan)[k] == feature
  {
    feature in Features(currentPlan)
  }

  /** The free plan grants exactly its three listed features. */
  lemma FreePlanFeatures(feature: string)
    ensures CheckFeatureAccess(Free, feature)
      <==> feature == "basic_quizzes" || feature == "limited_subjects" || feature == "community_support"
  {
  }

  /** The yearly plan grants everything the monthly plan does, and the enterprise plan
      everything the premium institutional plan does. */
  lemma PlanFeatureInclusions(feature: string)
    ensures CheckFeatureAccess(PremiumMonthly, feature) ==> CheckFeatureAccess(PremiumYearly, feature)
    ensures CheckFeatureAccess(InstitutionalPremium, feature) ==> CheckFeatureAccess(Enterprise, feature)
  {
  }

  /** A quota: -1 means unlimited. */
  const Unlimited: int := -1

  /** The quota table of `getRemainingQuota`. */
  function Quotas(plan: PlanType): map<string, int> {
    match plan
    case Free => map["subjects" := 2, "quizzes" := 5, "aiQueries" := 10]
    case PremiumMonthly => map["subjects" := -1, "quizzes" := -1, "aiQueries" := -1]
    case PremiumYearly => map["subjects" := -1, "quizzes" := -1, "aiQueries" := -1]
    case InstitutionalBasic => map["subjects" := -1, "quizzes" := -1, "aiQueries" := -1, "students" := 100]
    case InstitutionalPremium => map["subjects" := -1, "quizzes" := -1, "aiQueries" := -1, "students" := 500]
    case Enterprise => map["subjects" := -1, "quizzes" := -1, "aiQueries" := -1, "students" := -1]
  }

  /** `getRemainingQuota`: `quotaMap[currentPlan]?.[feature] || 0`, where a missing entry
      reads as undefined and a falsy value falls back to 0. */
  function GetRemainingQuota(currentPlan: PlanType, feature: string): (r: int)
    ensures feature in Quotas(currentPlan) ==> r == Quotas(currentPlan)[feature]
    ensures feature !in Quotas(currentPlan) ==> r == 0
  {
    var entry := if feature in Quotas(currentPlan) then Some(Quotas(currentPlan)[feature]) else None;
    if entry.Some? && entry.value != 0 then entry.value else 0
  }

  /** Every quota is unlimited or a non-negative count, and paid plans have unlimited
      subjects, quizzes and AI queries. */
  lemma QuotaRange(plan: PlanType, feature: string)
    ensures GetRemainingQuota(plan, feature) == Unlimited || GetRemainingQuota(plan, feature) >= 0
    ensures plan != Free && feature in {"subjects", "quizzes", "aiQueries"} ==>
      GetRemainingQuota(plan, feature) == Unlimited
  {
  }

  /** The free plan's quotas: 2 subjects, 5 quizzes, 10 AI queries, nothing else. */
  lemma FreePlanQuotas(feature: string)
    ensures GetRemainingQuota(Free, "subjects") == 2
    ensures GetRemainingQuota(Free, "quizzes") == 5
    ensures GetRemainingQuota(Free, "aiQueries") == 10
    ensures feature !in {"subjects", "quizzes", "aiQueries"} ==> GetRemainingQuota(Free, feature) == 0
  {
  }

  /** `campaigns.find(c => c.active) || null`. */
  function FirstActive(campaigns: seq<Campaign>): (r: Option<Campaign>)
    ensures r.None? <==> forall k :: 0 <= k < |campaigns| ==> !campaigns[k].active
    ensures r.Some? ==> r.value.active
    ensures r.Some? ==> exists i :: (0 <= i < |campaigns| && campaigns[i] == r.value
      && forall k :: 0 <= k < i ==> !campaigns[k].active)
    decreases |campaigns|
  {
    if campaigns == [] then None
    else if campaigns[0].active then Some(campaigns[0])
    else
      var r := FirstActive(campaigns[1..]);
      assert r.Some? ==> exists i :: (1 <= i < |campaigns| && campaigns[i] == r.value
        && forall k :: 0 <= k < i ==> !campaigns[k].active);
      r
  }

  predicate Applies(campaign: Option<Campaign>, planType: PlanType) {
    campaign.Some? && planType in campaign.value.applicablePlans
  }

  /** `getDiscountedPrice`: the original price unless the active campaign applies to the
      plan type; then the price reduced by the campaign's percentage. */
  function GetDiscountedPrice(originalPrice: real, planType: PlanType, activeCampaign: Option<Campaign>): (r: real)
    ensures !Applies(activeCampaign, planType) ==> r == originalPrice
    ensures Applies(activeCampaign, planType) ==>
      r == originalPrice * (1.0 - activeCampaign.value.discountPercentage / 100.0)
  {
    if activeCampaign.None? || planType !in activeCampaign.value.applicablePlans then originalPrice
    else
      var discount := (originalPrice * activeCampaign.value.discountPercentage) / 100.0;
      originalPrice - discount
  }

  /** A percentage between 0 and 100 keeps a non-negative price between 0 and the
      original; 0% leaves it unchanged and 100% makes it free. */
  lemma DiscountedPriceBounds(originalPrice: real, planType: PlanType, activeCampaign: Option<Campaign>)
    requires originalPrice >= 0.0
    requires activeCampaign.Some? ==> 0.0 <= activeCampaign.value.discountPercentage <= 100.0
    ensures 0.0 <= GetDiscountedPrice(originalPrice, planType, activeCampaign) <= originalPrice
    ensures activeCampaign.Some? && activeCampaign.value.discountPercentage == 0.0 ==>
      GetDiscountedPrice(originalPrice, planType, activeCampaign) == originalPrice
    ensures Applies(activeCampaign, planType) && activeCampaign.value.discountPercentage == 100.0 ==>
      GetDiscountedPrice(originalPrice, planType, activeCampaign) == 0.0
  {
    if Applies(activeCampaign, planType) {
      var f := 1.0 - activeCampaign.value.discountPercentage / 100.0;
      assert 0.0 <= f <= 1.0;
      assert originalPrice * f <= originalPrice * 1.0;
    }
  }
}
