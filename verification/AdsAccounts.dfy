/** What an ads platform holds, and the campaign a blueprint structure describes. */
module AdsAccounts {
  import opened Prelude
  import Rounding

  type Id = nat
  type CustomerId = string
  type BlueprintId = nat

  datatype MatchType = Broad | Phrase | Exact

  /** A required entry that may be missing is an `Option`; `matchType` is `None` when its name is unknown. */
  datatype KeywordPlan = KeywordPlan(text: Option<string>, matchType: Option<MatchType>)
  datatype AdPlan = AdPlan(
    finalUrl: Option<string>, headlines: seq<string>, descriptions: seq<string>, path1: string, path2: string)
  datatype GroupPlan = GroupPlan(
    name: Option<string>, keywords: seq<KeywordPlan>, negatives: seq<string>, ad: Option<AdPlan>)
  datatype Structure = Structure(
    campaignName: Option<string>, dailyBudget: Option<real>, sharedNegatives: seq<string>, groups: seq<GroupPlan>)

  datatype Keyword = Keyword(text: string, matchType: MatchType)
  datatype Ad = Ad(
    finalUrl: string, headlines: seq<string>, descriptions: seq<string>, path1: string, path2: string)
  datatype Group = Group(name: string, keywords: seq<Keyword>, negatives: seq<string>, ads: seq<Ad>)

  /** A campaign owns its criteria, groups, keywords and ads; `origin` is the blueprint it was built from. */
  datatype Campaign = Campaign(
    customer: CustomerId, origin: BlueprintId, name: string, paused: bool, budget: Id,
    negatives: seq<string>, groups: seq<Group>)
  datatype Budget = Budget(customer: CustomerId, micros: int)

  /** Every account of the platform; resource ids are global and `nextId` is the next one. */
  datatype Ads = Ads(budgets: map<Id, Budget>, campaigns: map<Id, Campaign>, nextId: Id)

  // ---------------------------------------------------------------- the described campaign

  predicate CompleteKeyword(k: KeywordPlan) {
    k.text.Some? && k.matchType.Some?
  }

  predicate CompleteKeywords(ks: seq<KeywordPlan>) {
    forall k :: k in ks ==> CompleteKeyword(k)
  }

  predicate CompleteGroup(g: GroupPlan) {
    g.name.Some? && CompleteKeywords(g.keywords) &&
    (g.ad.Some? ==> g.ad.value.finalUrl.Some?)
  }

  predicate CompleteGroups(gs: seq<GroupPlan>) {
    forall g :: g in gs ==> CompleteGroup(g)
  }

  predicate Complete(s: Structure) {
    s.campaignName.Some? && s.dailyBudget.Some? && CompleteGroups(s.groups)
  }

  function RenderKeyword(k: KeywordPlan): Keyword
    requires CompleteKeyword(k)
  {
    Keyword(k.text.value, k.matchType.value)
  }

  function RenderKeywords(ks: seq<KeywordPlan>): seq<Keyword>
    requires CompleteKeywords(ks)
  {
    seq(|ks|, i requires 0 <= i < |ks| => RenderKeyword(ks[i]))
  }

  function RenderAd(a: AdPlan): Ad
    requires a.finalUrl.Some?
  {
    Ad(a.finalUrl.value, a.headlines, a.descriptions, a.path1, a.path2)
  }

  function RenderGroup(g: GroupPlan): Group
    requires CompleteGroup(g)
  {
    Group(g.name.value, RenderKeywords(g.keywords), g.negatives, if g.ad.Some? then [RenderAd(g.ad.value)] else [])
  }

  function RenderGroups(gs: seq<GroupPlan>): seq<Group>
    requires CompleteGroups(gs)
  {
    seq(|gs|, i requires 0 <= i < |gs| => RenderGroup(gs[i]))
  }

  function Render(s: Structure, customer: CustomerId, origin: BlueprintId, paused: bool, budget: Id): Campaign
    requires Complete(s)
  {
    Campaign(customer, origin, s.campaignName.value, paused, budget, s.sharedNegatives, RenderGroups(s.groups))
  }

  /** The keywords are the planned ones, in order. */
  ghost predicate ShowsKeywords(ks: seq<Keyword>, plans: seq<KeywordPlan>) {
    |ks| == |plans| &&
    forall i :: 0 <= i < |ks| ==> Some(ks[i].text) == plans[i].text && Some(ks[i].matchType) == plans[i].matchType
  }

  ghost predicate ShowsAd(ads: seq<Ad>, plan: Option<AdPlan>) {
    match plan
    case None => ads == []
    case Some(ad) =>
      |ads| == 1 && Some(ads[0].finalUrl) == ad.finalUrl && ads[0].headlines == ad.headlines &&
      ads[0].descriptions == ad.descriptions && ads[0].path1 == ad.path1 && ads[0].path2 == ad.path2
  }

  ghost predicate ShowsGroup(g: Group, plan: GroupPlan) {
    Some(g.name) == plan.name && ShowsKeywords(g.keywords, plan.keywords) && g.negatives == plan.negatives &&
    ShowsAd(g.ads, plan.ad)
  }

  /** What a reader of the account finds is what was asked for, entry by entry. */
  ghost predicate ReadsBack(
    c: Campaign, b: Budget, s: Structure, customer: CustomerId, origin: BlueprintId, paused: bool)
  {
    c.paused == paused && c.customer == customer && b.customer == customer && c.origin == origin &&
    Some(c.name) == s.campaignName && c.negatives == s.sharedNegatives &&
    s.dailyBudget.Some? && Rounding.Abs(b.micros as real - s.dailyBudget.value * 1_000_000.0) <= 0.5 &&
    |c.groups| == |s.groups| && forall i :: 0 <= i < |c.groups| ==> ShowsGroup(c.groups[i], s.groups[i])
  }

  lemma RenderedGroupShows(plan: GroupPlan)
    requires CompleteGroup(plan)
    ensures ShowsGroup(RenderGroup(plan), plan)
  {
    assert forall i :: 0 <= i < |plan.keywords| ==> plan.keywords[i] in plan.keywords;
  }

  datatype Action =
    | CreateBudget | CreateCampaign | AddCampaignNegative | CreateAdGroup
    | AddKeywords(count: nat) | AddNegativeKeywords(count: nat) | CreateAd

  function GroupSteps(g: GroupPlan): seq<Action> {
    [CreateAdGroup] +
    (if g.keywords == [] then [] else [AddKeywords(|g.keywords|)]) +
    (if g.negatives == [] then [] else [AddNegativeKeywords(|g.negatives|)]) +
    (if g.ad.None? then [] else [CreateAd])
  }

  function GroupsSteps(gs: seq<GroupPlan>): seq<Action> {
    if gs == [] then [] else GroupsSteps(gs[..|gs| - 1]) + GroupSteps(Last(gs))
  }

  function NegativeSteps(texts: seq<string>): seq<Action> {
    seq(|texts|, _ => AddCampaignNegative)
  }

  function ExpectedSteps(s: Structure): seq<Action> {
    [CreateBudget, CreateCampaign] + NegativeSteps(s.sharedNegatives) + GroupsSteps(s.groups)
  }

  // ---------------------------------------------------------------- comparing platform states

  /** Ids are handed out once, and every campaign's budget exists. */
  ghost predicate ValidAds(a: Ads) {
    (forall b :: b in a.budgets ==> b < a.nextId) &&
    (forall c :: c in a.campaigns ==> c < a.nextId && a.campaigns[c].budget in a.budgets)
  }

  /** Nothing that existed changed or vanished; `ids` are the resources that came to exist. */
  ghost predicate Extends(before: Ads, after: Ads, budgets: set<Id>, campaigns: set<Id>) {
    before.nextId <= after.nextId &&
    after.budgets.Keys == before.budgets.Keys + budgets && before.budgets.Keys !! budgets &&
    after.campaigns.Keys == before.campaigns.Keys + campaigns && before.campaigns.Keys !! campaigns &&
    (forall b :: b in before.budgets ==> after.budgets[b] == before.budgets[b]) &&
    (forall c :: c in before.campaigns ==> after.campaigns[c] == before.campaigns[c])
  }

  /** The same resources; ids may have been used up. */
  ghost predicate SameResources(before: Ads, after: Ads) {
    Extends(before, after, {}, {})
  }

  /** What an unsuccessful build may leave: resources of this blueprint, campaigns only with their new budgets. */
  ghost predicate Leftover(before: Ads, after: Ads, origin: BlueprintId, budgets: set<Id>, campaigns: set<Id>) {
    Extends(before, after, budgets, campaigns) &&
    forall c :: c in campaigns ==> after.campaigns[c].origin == origin && after.campaigns[c].budget in budgets
  }

  /** Exactly one budget and one campaign came to exist, and they are what the structure describes. */
  ghost predicate Gained(
    before: Ads, after: Ads, s: Structure, customer: CustomerId, origin: BlueprintId, paused: bool,
    budget: Id, campaign: Id)
  {
    Complete(s) && Extends(before, after, {budget}, {campaign}) &&
    after.budgets[budget] == Budget(customer, Rounding.UnitsToMicros(s.dailyBudget.value)) &&
    after.campaigns[campaign] == Render(s, customer, origin, paused, budget)
  }

  /** The described campaign, with its budget, reads back as what was asked for. */
  lemma RenderReadsBack(s: Structure, customer: CustomerId, origin: BlueprintId, paused: bool, budget: Id)
    requires Complete(s)
    ensures ReadsBack(
              Render(s, customer, origin, paused, budget),
              Budget(customer, Rounding.UnitsToMicros(s.dailyBudget.value)), s, customer, origin, paused)
  {
    Rounding.RoundIsNearest(s.dailyBudget.value * 1_000_000.0, 0);
    forall i | 0 <= i < |s.groups| ensures ShowsGroup(RenderGroups(s.groups)[i], s.groups[i]) {
      assert s.groups[i] in s.groups;
      RenderedGroupShows(s.groups[i]);
    }
  }

  /** What was gained reads back as what was asked for. */
  lemma GainedReadsBack(
    before: Ads, after: Ads, s: Structure, customer: CustomerId, origin: BlueprintId, paused: bool,
    budget: Id, campaign: Id)
    requires Gained(before, after, s, customer, origin, paused, budget, campaign)
    ensures ReadsBack(after.campaigns[campaign], after.budgets[budget], s, customer, origin, paused)
    ensures after.campaigns[campaign].budget == budget
  {
    RenderReadsBack(s, customer, origin, paused, budget);
  }
}
