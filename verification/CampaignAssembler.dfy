/** Joining agent outputs into a blueprint; the warning list as a validator of what will be published. */
module CampaignAssembler {
  import opened Prelude
  import opened AdCleaning
  import AdsAccounts
  import Rounding

  const HEADLINE_MAX := 30
  const DESCRIPTION_MAX := 90
  const HEADLINES_MIN := 3
  const HEADLINES_MAX := 15
  const DESCRIPTIONS_MIN := 2
  const DESCRIPTIONS_MAX := 4

  datatype GroupPlan = GroupPlan(name: string, theme: string)
  datatype Keyword = Keyword(text: string, matchType: AdsAccounts.MatchType, intent: string)
  datatype GroupKeywords = GroupKeywords(group: string, keywords: seq<Keyword>, negatives: seq<string>)
  datatype Creative = Creative(
    group: string, headlines: seq<string>, descriptions: seq<string>, finalUrl: string,
    path1: Option<string>, path2: Option<string>)
  datatype Strategy = Strategy(campaignName: string, groups: seq<GroupPlan>)
  datatype KeywordOutput = KeywordOutput(groups: seq<GroupKeywords>, sharedNegatives: seq<string>)

  datatype BlueprintGroup = BlueprintGroup(
    name: string, theme: string, keywords: seq<Keyword>, negatives: seq<string>, ad: Option<Creative>)
  datatype Warning =
    | FewHeadlines(group: string) | FewDescriptions(group: string) | NoAd(group: string) | NoKeywords(group: string)
  datatype Blueprint = Blueprint(
    campaignName: string, dailyBudget: real, sharedNegatives: seq<string>, groups: seq<BlueprintGroup>,
    warnings: seq<Warning>)

  // ---------------------------------------------------------------- the join

  /** Records keyed by group name; a later record replaces an earlier one. */
  function ByGroup<R>(records: seq<R>, groupOf: R -> string): map<string, R> {
    if records == [] then map[]
    else ByGroup(records[..|records| - 1], groupOf)[groupOf(Last(records)) := Last(records)]
  }

  ghost predicate LastFor<R(!new)>(records: seq<R>, groupOf: R -> string, group: string, i: nat) {
    i < |records| && groupOf(records[i]) == group &&
    forall j :: i < j < |records| ==> groupOf(records[j]) != group
  }

  /** The keyed records are the last ones of their group, and a group without a record has no key. */
  lemma {:induction false} JoinIsLastWins<R(!new)>(records: seq<R>, groupOf: R -> string, group: string)
    ensures group in ByGroup(records, groupOf) <==> exists i :: 0 <= i < |records| && groupOf(records[i]) == group
    ensures group in ByGroup(records, groupOf) ==>
              exists i: nat :: LastFor(records, groupOf, group, i) && ByGroup(records, groupOf)[group] == records[i]
  {
    if records == [] {
    } else {
      var front := records[..|records| - 1];
      JoinIsLastWins(front, groupOf, group);
      if groupOf(Last(records)) == group {
        assert LastFor(records, groupOf, group, |records| - 1);
      } else if group in ByGroup(front, groupOf) {
        var i: nat :| LastFor(front, groupOf, group, i) && ByGroup(front, groupOf)[group] == front[i];
        assert LastFor(records, groupOf, group, i) && records[i] == front[i];
      }
      if i :| 0 <= i < |records| && groupOf(records[i]) == group {
        assert i == |records| - 1 || groupOf(front[i]) == group;
      }
    }
  }

  function KeywordsByGroup(records: seq<GroupKeywords>): map<string, GroupKeywords> {
    ByGroup(records, (r: GroupKeywords) => r.group)
  }

  function CreativesByGroup(records: seq<Creative>): map<string, Creative> {
    ByGroup(records, (r: Creative) => r.group)
  }

  /** A creative with only the usable texts left. */
  ghost function CleanCreative(raw: Creative, group: string, fold: Fold): Creative {
    Creative(
      group, Cleaned(raw.headlines, HEADLINE_MAX, HEADLINES_MAX, fold),
      Cleaned(raw.descriptions, DESCRIPTION_MAX, DESCRIPTIONS_MAX, fold), raw.finalUrl, raw.path1, raw.path2)
  }

  ghost function JoinGroup(
    plan: GroupPlan, keywords: map<string, GroupKeywords>, creatives: map<string, Creative>, fold: Fold): BlueprintGroup
  {
    BlueprintGroup(
      plan.name, plan.theme,
      if plan.name in keywords then keywords[plan.name].keywords else [],
      if plan.name in keywords then keywords[plan.name].negatives else [],
      if plan.name in creatives then Some(CleanCreative(creatives[plan.name], plan.name, fold)) else None)
  }

  ghost function JoinGroups(
    plans: seq<GroupPlan>, keywords: map<string, GroupKeywords>, creatives: map<string, Creative>, fold: Fold)
    : (groups: seq<BlueprintGroup>)
    ensures |groups| == |plans|
    ensures forall i :: 0 <= i < |plans| ==> groups[i] == JoinGroup(plans[i], keywords, creatives, fold)
  {
    seq(|plans|, i requires 0 <= i < |plans| => JoinGroup(plans[i], keywords, creatives, fold))
  }

  /** What a blueprint group lacks, read off the group alone. */
  function GroupWarnings(g: BlueprintGroup): seq<Warning> {
    (if g.ad.None? then [NoAd(g.name)]
     else (if |g.ad.value.headlines| < HEADLINES_MIN then [FewHeadlines(g.name)] else []) +
          (if |g.ad.value.descriptions| < DESCRIPTIONS_MIN then [FewDescriptions(g.name)] else [])) +
    (if g.keywords == [] then [NoKeywords(g.name)] else [])
  }

  function Warnings(groups: seq<BlueprintGroup>): seq<Warning> {
    if groups == [] then [] else Warnings(groups[..|groups| - 1]) + GroupWarnings(Last(groups))
  }

  lemma WarningsOfOneMore(groups: seq<BlueprintGroup>, g: BlueprintGroup)
    ensures Warnings(groups + [g]) == Warnings(groups) + GroupWarnings(g)
  {
    assert (groups + [g])[..|groups|] == groups;
  }

  lemma JoinOneMore(
    plans: seq<GroupPlan>, n: nat, keywords: map<string, GroupKeywords>, creatives: map<string, Creative>, fold: Fold)
    requires n < |plans|
    ensures JoinGroups(plans[..n + 1], keywords, creatives, fold) ==
            JoinGroups(plans[..n], keywords, creatives, fold) + [JoinGroup(plans[n], keywords, creatives, fold)]
  {
  }

  /** `b` has the planned groups in order, each joined with its last records, and one warning per thing lacking. */
  ghost predicate Assembled(
    b: Blueprint, strategy: Strategy, keywords: KeywordOutput, creatives: seq<Creative>, fold: Fold)
  {
    b.campaignName == strategy.campaignName && b.sharedNegatives == keywords.sharedNegatives &&
    b.warnings == Warnings(b.groups) &&
    b.groups == JoinGroups(strategy.groups, KeywordsByGroup(keywords.groups), CreativesByGroup(creatives), fold)
  }

  /** The loop body for one planned group. */
  method AssembleGroup(
    plan: GroupPlan, kwByGroup: map<string, GroupKeywords>, adByGroup: map<string, Creative>, fold: Fold)
    returns (group: BlueprintGroup, warnings: seq<Warning>)
    ensures group == JoinGroup(plan, kwByGroup, adByGroup, fold)
    ensures warnings == GroupWarnings(group)
  {
    warnings := [];
    var ad: Option<Creative> := None;
    if plan.name in adByGroup {
      var raw := adByGroup[plan.name];
      var headlines := Clean(raw.headlines, HEADLINE_MAX, HEADLINES_MAX, fold);
      var descriptions := Clean(raw.descriptions, DESCRIPTION_MAX, DESCRIPTIONS_MAX, fold);
      if |headlines| < HEADLINES_MIN {
        warnings := warnings + [FewHeadlines(plan.name)];
      }
      if |descriptions| < DESCRIPTIONS_MIN {
        warnings := warnings + [FewDescriptions(plan.name)];
      }
      ad := Some(Creative(plan.name, headlines, descriptions, raw.finalUrl, raw.path1, raw.path2));
    } else {
      warnings := warnings + [NoAd(plan.name)];
    }
    var found := plan.name in kwByGroup;
    if !found || kwByGroup[plan.name].keywords == [] {
      warnings := warnings + [NoKeywords(plan.name)];
    }
    group := BlueprintGroup(
      plan.name, plan.theme,
      if found then kwByGroup[plan.name].keywords else [],
      if found then kwByGroup[plan.name].negatives else [], ad);
  }

  method AssembleBlueprint(
    strategy: Strategy, keywords: KeywordOutput, creatives: seq<Creative>, dailyBudget: real, fold: Fold)
    returns (b: Blueprint)
    ensures Assembled(b, strategy, keywords, creatives, fold) && b.dailyBudget == dailyBudget
  {
    var kwByGroup := KeywordsByGroup(keywords.groups);
    var adByGroup := CreativesByGroup(creatives);
    var warnings: seq<Warning> := [];
    var groups: seq<BlueprintGroup> := [];
    for n := 0 to |strategy.groups|
      invariant warnings == Warnings(groups)
      invariant groups == JoinGroups(strategy.groups[..n], kwByGroup, adByGroup, fold)
    {
      var plan := strategy.groups[n];
      var group, lacking := AssembleGroup(plan, kwByGroup, adByGroup, fold);
      warnings := warnings + lacking;
      WarningsOfOneMore(groups, group);
      JoinOneMore(strategy.groups, n, kwByGroup, adByGroup, fold);
      groups := groups + [group];
    }
    assert strategy.groups[..|strategy.groups|] == strategy.groups;
    b := Blueprint(strategy.campaignName, dailyBudget, keywords.sharedNegatives, groups, warnings);
  }

  // ---------------------------------------------------------------- what the builder will make of it

  function StoredKeyword(k: Keyword): AdsAccounts.KeywordPlan {
    AdsAccounts.KeywordPlan(Some(k.text), Some(k.matchType))
  }

  function PathText(p: Option<string>): string {
    if p.Some? then p.value else ""
  }

  function StoredGroup(g: BlueprintGroup): AdsAccounts.GroupPlan {
    AdsAccounts.GroupPlan(
      Some(g.name), seq(|g.keywords|, i requires 0 <= i < |g.keywords| => StoredKeyword(g.keywords[i])), g.negatives,
      if g.ad.None? then None
      else Some(AdsAccounts.AdPlan(
                  Some(g.ad.value.finalUrl), g.ad.value.headlines, g.ad.value.descriptions,
                  PathText(g.ad.value.path1), PathText(g.ad.value.path2))))
  }

  /** The structure the builder reads back from a stored blueprint. */
  function Stored(b: Blueprint): AdsAccounts.Structure {
    AdsAccounts.Structure(
      Some(b.campaignName), Some(b.dailyBudget), b.sharedNegatives,
      seq(|b.groups|, i requires 0 <= i < |b.groups| => StoredGroup(b.groups[i])))
  }

  /** No entry the builder insists on is missing, so a build of a stored blueprint fails only remotely. */
  lemma StoredIsComplete(b: Blueprint)
    ensures AdsAccounts.Complete(Stored(b))
  {
    forall g | g in Stored(b).groups ensures AdsAccounts.CompleteGroup(g) {
      var i :| 0 <= i < |b.groups| && g == StoredGroup(b.groups[i]);
    }
  }

  /** An ad group the platform can serve: keywords, and one ad within the limits for responsive search ads. */
  ghost predicate Publishable(g: AdsAccounts.Group, fold: Fold) {
    g.keywords != [] && |g.ads| == 1 &&
    var ad := g.ads[0];
    3 <= |ad.headlines| <= 15 && AllClean(ad.headlines, 30) && DistinctUnder(ad.headlines, fold) &&
    2 <= |ad.descriptions| <= 4 && AllClean(ad.descriptions, 90) && DistinctUnder(ad.descriptions, fold)
  }

  ghost predicate Enough(c: Creative, fold: Fold) {
    |Keys(ValidTexts(c.headlines, HEADLINE_MAX), fold)| >= HEADLINES_MIN &&
    |Keys(ValidTexts(c.descriptions, DESCRIPTION_MAX), fold)| >= DESCRIPTIONS_MIN
  }

  /** What the agents must have produced for a planned group, before any cleaning. */
  ghost predicate Supplied(plan: GroupPlan, keywords: seq<GroupKeywords>, creatives: seq<Creative>, fold: Fold) {
    (exists i: nat :: LastFor(keywords, (r: GroupKeywords) => r.group, plan.name, i) && keywords[i].keywords != []) &&
    (exists i: nat :: LastFor(creatives, (r: Creative) => r.group, plan.name, i) && Enough(creatives[i], fold))
  }

  lemma {:induction false} NoWarningsMeansNone(groups: seq<BlueprintGroup>)
    ensures Warnings(groups) == [] <==> forall i :: 0 <= i < |groups| ==> GroupWarnings(groups[i]) == []
  {
    if groups == [] {
    } else {
      var front := groups[..|groups| - 1];
      NoWarningsMeansNone(front);
      assert forall i :: 0 <= i < |front| ==> front[i] == groups[i];
    }
  }

  lemma LastForIsOne<R(!new)>(records: seq<R>, groupOf: R -> string, group: string, i: nat, j: nat)
    requires LastFor(records, groupOf, group, i) && LastFor(records, groupOf, group, j)
    ensures i == j
  {
  }

  /** The ad a cleaned creative becomes is within the limits exactly when it raises no warning. */
  lemma AdVerdict(raw: Creative, group: string, fold: Fold)
    ensures var ad := CleanCreative(raw, group, fold);
            AllClean(ad.headlines, HEADLINE_MAX) && DistinctUnder(ad.headlines, fold) &&
            AllClean(ad.descriptions, DESCRIPTION_MAX) && DistinctUnder(ad.descriptions, fold) &&
            |ad.headlines| <= HEADLINES_MAX && |ad.descriptions| <= DESCRIPTIONS_MAX &&
            (Enough(raw, fold) <==> |ad.headlines| >= HEADLINES_MIN && |ad.descriptions| >= DESCRIPTIONS_MIN)
  {
    CleanedIsValid(raw.headlines, HEADLINE_MAX, HEADLINES_MAX, fold);
    CleanedIsValid(raw.descriptions, DESCRIPTION_MAX, DESCRIPTIONS_MAX, fold);
  }

  /** Some property of a group's last record, read from the join. */
  lemma LastRecord<R(!new)>(
    records: seq<R>, groupOf: R -> string, group: string, good: R -> bool)
    ensures (exists i: nat :: LastFor(records, groupOf, group, i) && good(records[i])) <==>
            group in ByGroup(records, groupOf) && good(ByGroup(records, groupOf)[group])
  {
    JoinIsLastWins(records, groupOf, group);
    if i: nat :| LastFor(records, groupOf, group, i) && good(records[i]) {
      var j: nat :| LastFor(records, groupOf, group, j) && ByGroup(records, groupOf)[group] == records[j];
      LastForIsOne(records, groupOf, group, i, j);
    }
  }

  /** What a group's ad takes over from a creative. */
  ghost predicate TakesOver(ad: Creative, raw: Creative, fold: Fold) {
    ad.finalUrl == raw.finalUrl && ad.path1 == raw.path1 && ad.path2 == raw.path2 &&
    ad.headlines == Cleaned(raw.headlines, 30, 15, fold) && ad.descriptions == Cleaned(raw.descriptions, 90, 4, fold)
  }

  /** A joined group has what the last records of its name supply, and nothing where there is no record. */
  ghost predicate Supplies(
    g: BlueprintGroup, plan: GroupPlan, keywords: seq<GroupKeywords>, creatives: seq<Creative>, fold: Fold)
  {
    g.name == plan.name && g.theme == plan.theme &&
    (if exists i :: 0 <= i < |keywords| && keywords[i].group == plan.name then
       exists i: nat :: LastFor(keywords, (r: GroupKeywords) => r.group, plan.name, i) &&
                        g.keywords == keywords[i].keywords && g.negatives == keywords[i].negatives
     else g.keywords == [] && g.negatives == []) &&
    (if exists i :: 0 <= i < |creatives| && creatives[i].group == plan.name then
       exists i: nat :: LastFor(creatives, (r: Creative) => r.group, plan.name, i) &&
                        g.ad.Some? && g.ad.value.group == plan.name && TakesOver(g.ad.value, creatives[i], fold)
     else g.ad == None)
  }

  lemma GroupIsJoined(
    plan: GroupPlan, keywords: seq<GroupKeywords>, creatives: seq<Creative>, fold: Fold)
    ensures Supplies(JoinGroup(plan, KeywordsByGroup(keywords), CreativesByGroup(creatives), fold),
                     plan, keywords, creatives, fold)
  {
    JoinIsLastWins(keywords, (r: GroupKeywords) => r.group, plan.name);
    JoinIsLastWins(creatives, (r: Creative) => r.group, plan.name);
  }

  /** Each warning about a group says what it lacks. */
  lemma WarningsSayWhatLacks(g: BlueprintGroup, w: Warning)
    ensures w in GroupWarnings(g) <==>
            w.group == g.name &&
            match w
            case FewHeadlines(_) => g.ad.Some? && |g.ad.value.headlines| < 3
            case FewDescriptions(_) => g.ad.Some? && |g.ad.value.descriptions| < 2
            case NoAd(_) => g.ad == None
            case NoKeywords(_) => g.keywords == []
  {
  }

  /** A blueprint's warnings are those about its groups. */
  lemma {:induction false} WarningsAreOfGroups(groups: seq<BlueprintGroup>, w: Warning)
    ensures w in Warnings(groups) <==> exists i :: 0 <= i < |groups| && w in GroupWarnings(groups[i])
  {
    if groups == [] {
    } else {
      var front := groups[..|groups| - 1];
      WarningsAreOfGroups(front, w);
      if i :| 0 <= i < |groups| && w in GroupWarnings(groups[i]) {
        assert i == |groups| - 1 || w in GroupWarnings(front[i]);
      }
    }
  }

  /** An account that reads back as a stored blueprint shows the blueprint's own entries. */
  ghost predicate Publishes(g: AdsAccounts.Group, own: BlueprintGroup) {
    g.name == own.name && g.negatives == own.negatives && |g.keywords| == |own.keywords| &&
    (forall i :: 0 <= i < |g.keywords| ==>
       g.keywords[i].text == own.keywords[i].text && g.keywords[i].matchType == own.keywords[i].matchType) &&
    if own.ad.None? then g.ads == []
    else
      |g.ads| == 1 && g.ads[0].finalUrl == own.ad.value.finalUrl && g.ads[0].headlines == own.ad.value.headlines &&
      g.ads[0].descriptions == own.ad.value.descriptions &&
      g.ads[0].path1 == (if own.ad.value.path1.Some? then own.ad.value.path1.value else "") &&
      g.ads[0].path2 == (if own.ad.value.path2.Some? then own.ad.value.path2.value else "")
  }

  /** Storing a blueprint and building it loses nothing of what the platform is to show. */
  lemma BlueprintIsPublished(
    b: Blueprint, c: AdsAccounts.Campaign, budget: AdsAccounts.Budget, customer: string, origin: nat, paused: bool)
    requires AdsAccounts.ReadsBack(c, budget, Stored(b), customer, origin, paused)
    ensures c.name == b.campaignName && c.negatives == b.sharedNegatives && c.paused == paused
    ensures Rounding.Abs(budget.micros as real - b.dailyBudget * 1_000_000.0) <= 0.5
    ensures |c.groups| == |b.groups| && forall i :: 0 <= i < |c.groups| ==> Publishes(c.groups[i], b.groups[i])
  {
    forall i | 0 <= i < |c.groups| ensures Publishes(c.groups[i], b.groups[i]) {
      assert AdsAccounts.ShowsGroup(c.groups[i], Stored(b).groups[i]);
    }
  }

  /** For one group: no warning, publishable, and supplied by the agents are the same thing. */
  lemma GroupVerdict(
    plan: GroupPlan, keywords: seq<GroupKeywords>, creatives: seq<Creative>, fold: Fold)
    ensures var g := JoinGroup(plan, KeywordsByGroup(keywords), CreativesByGroup(creatives), fold);
            AdsAccounts.CompleteGroup(StoredGroup(g)) &&
            (GroupWarnings(g) == [] <==> Publishable(AdsAccounts.RenderGroup(StoredGroup(g)), fold)) &&
            (GroupWarnings(g) == [] <==> Supplied(plan, keywords, creatives, fold))
  {
    LastRecord(keywords, (r: GroupKeywords) => r.group, plan.name, (r: GroupKeywords) => r.keywords != []);
    LastRecord(creatives, (r: Creative) => r.group, plan.name, (r: Creative) => Enough(r, fold));
    if plan.name in CreativesByGroup(creatives) {
      AdVerdict(CreativesByGroup(creatives)[plan.name], plan.name, fold);
    }
  }

  /** The verdict on one group of a blueprint holds of the group the builder would create. */
  lemma BuiltGroupVerdict(
    b: Blueprint, strategy: Strategy, keywords: KeywordOutput, creatives: seq<Creative>, fold: Fold,
    customer: string, origin: nat, paused: bool, budget: nat, i: nat)
    requires Assembled(b, strategy, keywords, creatives, fold) && i < |b.groups| && AdsAccounts.Complete(Stored(b))
    ensures var group := AdsAccounts.Render(Stored(b), customer, origin, paused, budget).groups[i];
            group == AdsAccounts.RenderGroup(StoredGroup(b.groups[i])) &&
            (GroupWarnings(b.groups[i]) == [] <==> Publishable(group, fold)) &&
            (GroupWarnings(b.groups[i]) == [] <==> Supplied(strategy.groups[i], keywords.groups, creatives, fold))
  {
    assert Stored(b).groups[i] == StoredGroup(b.groups[i]);
    GroupVerdict(strategy.groups[i], keywords.groups, creatives, fold);
  }

  /**
   * The warning list is a sound and complete validator: it is empty exactly when every ad group of the campaign
   * that the builder would create is publishable, and exactly when the agents supplied enough for every group.
   */
  lemma WarningsAreAValidator(
    b: Blueprint, strategy: Strategy, keywords: KeywordOutput, creatives: seq<Creative>, fold: Fold,
    customer: string, origin: nat, paused: bool, budget: nat)
    requires Assembled(b, strategy, keywords, creatives, fold)
    ensures AdsAccounts.Complete(Stored(b))
    ensures var campaign := AdsAccounts.Render(Stored(b), customer, origin, paused, budget);
            |campaign.groups| == |strategy.groups| &&
            (forall i :: 0 <= i < |strategy.groups| ==> campaign.groups[i].name == strategy.groups[i].name) &&
            (b.warnings == [] <==> forall i :: 0 <= i < |campaign.groups| ==> Publishable(campaign.groups[i], fold))
    ensures b.warnings == [] <==>
            forall i :: 0 <= i < |strategy.groups| ==> Supplied(strategy.groups[i], keywords.groups, creatives, fold)
  {
    StoredIsComplete(b);
    NoWarningsMeansNone(b.groups);
    var campaign := AdsAccounts.Render(Stored(b), customer, origin, paused, budget);
    forall i | 0 <= i < |b.groups|
      ensures campaign.groups[i] == AdsAccounts.RenderGroup(StoredGroup(b.groups[i])) &&
              (GroupWarnings(b.groups[i]) == [] <==> Publishable(campaign.groups[i], fold)) &&
              (GroupWarnings(b.groups[i]) == [] <==> Supplied(strategy.groups[i], keywords.groups, creatives, fold))
    {
      BuiltGroupVerdict(b, strategy, keywords, creatives, fold, customer, origin, paused, budget, i);
    }
  }
}
