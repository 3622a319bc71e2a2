/** Building a whole campaign through the ads API, with rollback on failure. */
module CampaignBuilder {
  import opened Prelude
  import opened AdsAccounts
  import Rounding

  /** `External` is the API error that is retried, `Other` any other exception, `Died` the end of the process. */
  datatype Fault = External | Other | Died

  datatype Result<+T> = Success(value: T) | Failure(fault: Fault) {
    predicate IsFailure() { Failure? }
    function PropagateFailure<U>(): Result<U> requires Failure? { Failure(fault) }
    function Extract(): T requires Success? { value }
  }

  function FaultOf<T>(r: Result<T>): Option<Fault> {
    if r.Failure? then Some(r.fault) else None
  }

  /** How each call ends, by its number; `None` means that it works. */
  type Schedule = nat -> Option<Fault>

  ghost predicate Worked(fate: Schedule, from: nat, to: nat) {
    forall k :: from <= k < to ==> fate(k) == None
  }

  /**
   The calls `from` to `to` explain an outcome: without a fault all of them worked
   and nothing was missing; a fault is that of the last call, or something missing.
   */
  ghost predicate Explained(fate: Schedule, from: nat, to: nat, complete: bool, fault: Option<Fault>) {
    from <= to &&
    match fault
    case None => complete && Worked(fate, from, to)
    case Some(f) =>
      || (f == Other && !complete && Worked(fate, from, to))
      || (from < to && Worked(fate, from, to - 1) && fate(to - 1) == Some(f))
  }

  ghost predicate DiedAmong(fate: Schedule, from: nat, to: nat) {
    exists k :: from <= k < to && fate(k) == Some(Died)
  }

  ghost predicate OnlyDeaths(fate: Schedule) {
    forall k :: fate(k) == None || fate(k) == Some(Died)
  }

  /** One more part of the work: if it fails its fault is the whole's, otherwise all calls so far worked. */
  lemma PartExplained(
    fate: Schedule, from: nat, middle: nat, to: nat, part: bool, complete: bool, fault: Option<Fault>)
    requires from <= middle && Worked(fate, from, middle) && Explained(fate, middle, to, part, fault)
    requires complete ==> part
    ensures fault.None? ==> from <= to && part && Worked(fate, from, to)
    ensures fault.Some? ==> Explained(fate, from, to, complete, fault)
  {
  }

  /** An outcome without a fault is exactly one with nothing missing and no failing call. */
  lemma SucceedsIff(fate: Schedule, from: nat, to: nat, complete: bool, fault: Option<Fault>)
    requires Explained(fate, from, to, complete, fault)
    ensures fault == None <==> complete && Worked(fate, from, to)
    ensures fault == Some(Died) ==> DiedAmong(fate, from, to)
  {
  }

  /** `a` with one more budget, under the next id. */
  function WithNewBudget(a: Ads, budget: Budget): Ads {
    a.(budgets := a.budgets[a.nextId := budget], nextId := a.nextId + 1)
  }

  /** `a` with one more campaign, under the next id. */
  function WithNewCampaign(a: Ads, campaign: Campaign): Ads {
    a.(campaigns := a.campaigns[a.nextId := campaign], nextId := a.nextId + 1)
  }

  function WithCampaign(a: Ads, c: Id, campaign: Campaign): Ads {
    a.(campaigns := a.campaigns[c := campaign])
  }

  function WithGroups(a: Ads, c: Id, groups: seq<Group>): Ads
    requires c in a.campaigns
  {
    WithCampaign(a, c, a.campaigns[c].(groups := groups))
  }

  function WithGroup(a: Ads, c: Id, position: nat, group: Group): Ads
    requires c in a.campaigns && position < |a.campaigns[c].groups|
  {
    WithGroups(a, c, a.campaigns[c].groups[position := group])
  }

  /**
   The remote platform.  `fate` decides, call by call, whether a creating call
   works or how it fails; `removalFate` does the same for removing calls.  A
   failing call has no effect.  `sound` says that in every state the platform was
   ever in each campaign had its budget.
   */
  class AdsApi {
    var ads: Ads
    var calls: nat
    var removals: nat
    ghost var sound: bool
    const fate: Schedule
    const removalFate: Schedule

    /** Now and at every moment before, no campaign is without its budget. */
    ghost predicate Valid()
      reads this
    {
      sound && ValidAds(ads)
    }

    constructor (fate: Schedule, removalFate: Schedule)
      ensures ads == Ads(map[], map[], 0) && Valid()
      ensures this.fate == fate && this.removalFate == removalFate
    {
      ads, calls, removals := Ads(map[], map[], 0), 0, 0;
      sound := true;
      this.fate, this.removalFate := fate, removalFate;
    }

    /** Removing calls do not fail, though the process may die instead of making one. */
    ghost predicate RemovalsWork() {
      OnlyDeaths(removalFate)
    }

    /** The process never dies. */
    ghost predicate Lives() {
      forall k :: fate(k) != Some(Died) && removalFate(k) != Some(Died)
    }

    method Call() returns (r: Result<()>)
      modifies `calls
      ensures calls == old(calls) + 1 && FaultOf(r) == fate(old(calls))
    {
      var fault := fate(calls);
      calls := calls + 1;
      return if fault.Some? then Failure(fault.value) else Success(());
    }

    method CallRemoval() returns (r: Result<()>)
      modifies `removals
      ensures removals == old(removals) + 1 && FaultOf(r) == removalFate(old(removals))
    {
      var fault := removalFate(removals);
      removals := removals + 1;
      return if fault.Some? then Failure(fault.value) else Success(());
    }

    /** The platform's state after a call that worked. */
    method Set(next: Ads)
      modifies `ads, `sound
      ensures ads == next && sound == (old(sound) && ValidAds(next))
    {
      ads := next;
      sound := sound && ValidAds(next);
    }

    method CreateBudget(customer: CustomerId, amount: real) returns (r: Result<Id>)
      requires Valid()
      modifies `ads, `calls, `sound
      ensures Valid()
      ensures calls == old(calls) + 1 && FaultOf(r) == fate(old(calls))
      ensures r.Failure? ==> ads == old(ads)
      ensures r.Success? ==> r.value == old(ads.nextId)
      ensures r.Success? ==> ads == WithNewBudget(old(ads), Budget(customer, Rounding.UnitsToMicros(amount)))
    {
      var _ :- Call();
      var id := ads.nextId;
      var budget := Budget(customer, Rounding.UnitsToMicros(amount));
      Set(ads.(budgets := ads.budgets[id := budget], nextId := id + 1));
      return Success(id);
    }

    method CreateCampaign(campaign: Campaign) returns (r: Result<Id>)
      requires Valid() && campaign.budget in ads.budgets
      modifies `ads, `calls, `sound
      ensures Valid()
      ensures calls == old(calls) + 1 && FaultOf(r) == fate(old(calls))
      ensures r.Failure? ==> ads == old(ads)
      ensures r.Success? ==> r.value == old(ads.nextId)
      ensures r.Success? ==> ads == WithNewCampaign(old(ads), campaign)
    {
      var _ :- Call();
      var id := ads.nextId;
      Set(ads.(campaigns := ads.campaigns[id := campaign], nextId := id + 1));
      return Success(id);
    }

    /** One batch: every negative is added or none is. */
    method AddCampaignNegatives(campaign: Id, texts: seq<string>) returns (r: Result<()>)
      requires Valid() && campaign in ads.campaigns
      modifies `ads, `calls, `sound
      ensures Valid()
      ensures calls == old(calls) + 1 && FaultOf(r) == fate(old(calls))
      ensures r.Failure? ==> ads == old(ads)
      ensures r.Success? ==> ads == WithCampaign(old(ads), campaign, old(ads.campaigns[campaign]).(
                                      negatives := old(ads.campaigns[campaign].negatives) + texts))
    {
      var _ :- Call();
      var negatives := ads.campaigns[campaign].negatives + texts;
      Set(WithCampaign(ads, campaign, ads.campaigns[campaign].(negatives := negatives)));
      return Success(());
    }

    /** A new ad group is addressed by its campaign and its position there. */
    method CreateAdGroup(campaign: Id, name: string) returns (r: Result<nat>)
      requires Valid() && campaign in ads.campaigns
      modifies `ads, `calls, `sound
      ensures Valid()
      ensures calls == old(calls) + 1 && FaultOf(r) == fate(old(calls))
      ensures r.Failure? ==> ads == old(ads)
      ensures r.Success? ==> r.value == |old(ads.campaigns[campaign].groups)|
      ensures r.Success? ==>
                ads == WithGroups(old(ads), campaign, old(ads.campaigns[campaign].groups) + [Group(name, [], [], [])])
    {
      var _ :- Call();
      var position := |ads.campaigns[campaign].groups|;
      Set(WithGroups(ads, campaign, ads.campaigns[campaign].groups + [Group(name, [], [], [])]));
      return Success(position);
    }

    /** Replace the group at a position, in one call that works entirely or not at all. */
    method MutateGroup(campaign: Id, position: nat, group: Group) returns (r: Result<()>)
      requires Valid() && campaign in ads.campaigns && position < |ads.campaigns[campaign].groups|
      modifies `ads, `calls, `sound
      ensures Valid()
      ensures calls == old(calls) + 1 && FaultOf(r) == fate(old(calls))
      ensures r.Failure? ==> ads == old(ads)
      ensures r.Success? ==> ads == WithGroup(old(ads), campaign, position, group)
    {
      var _ :- Call();
      Set(WithGroup(ads, campaign, position, group));
      return Success(());
    }

    method RemoveCampaign(campaign: Id) returns (r: Result<()>)
      requires Valid()
      modifies `ads, `removals, `sound
      ensures Valid()
      ensures removals == old(removals) + 1 && FaultOf(r) == removalFate(old(removals))
      ensures r.Failure? ==> ads == old(ads)
      ensures r.Success? ==> ads == old(ads).(campaigns := old(ads.campaigns) - {campaign})
    {
      var _ :- CallRemoval();
      Set(ads.(campaigns := ads.campaigns - {campaign}));
      return Success(());
    }

    /** A budget is removed after the campaign that uses it. */
    method RemoveBudget(budget: Id) returns (r: Result<()>)
      requires Valid() && forall c :: c in ads.campaigns ==> ads.campaigns[c].budget != budget
      modifies `ads, `removals, `sound
      ensures Valid()
      ensures removals == old(removals) + 1 && FaultOf(r) == removalFate(old(removals))
      ensures r.Failure? ==> ads == old(ads)
      ensures r.Success? ==> ads == old(ads).(budgets := old(ads.budgets) - {budget})
    {
      var _ :- CallRemoval();
      Set(ads.(budgets := ads.budgets - {budget}));
      return Success(());
    }
  }

  lemma SameGroup(a: Ads, c: Id, position: nat)
    requires c in a.campaigns && position < |a.campaigns[c].groups|
    ensures WithGroup(a, c, position, a.campaigns[c].groups[position]) == a
  {
    var groups := a.campaigns[c].groups;
    assert groups == groups[position := groups[position]];
  }

  // ---------------------------------------------------------------- one ad group

  method AddKeywords(api: AdsApi, c: Id, position: nat, keywords: seq<KeywordPlan>, steps: seq<Action>)
    returns (r: Result<seq<Action>>)
    requires api.Valid()
    requires c in api.ads.campaigns && position < |api.ads.campaigns[c].groups|
    requires api.ads.campaigns[c].groups[position].keywords == []
    modifies api`ads, api`calls, api`sound
    ensures api.Valid()
    ensures Explained(api.fate, old(api.calls), api.calls, CompleteKeywords(keywords), FaultOf(r))
    ensures r.Failure? ==> api.ads == old(api.ads)
    ensures r.Success? ==>
              CompleteKeywords(keywords) &&
              api.ads == WithGroup(old(api.ads), c, position,
                old(api.ads.campaigns[c].groups[position]).(keywords := RenderKeywords(keywords))) &&
              r.value == steps + (if keywords == [] then [] else [Action.AddKeywords(|keywords|)])
  {
    if keywords == [] {
      assert RenderKeywords(keywords) == [];
      SameGroup(api.ads, c, position);
      return Success(steps);
    }
    var ops: seq<Keyword> := [];
    for i := 0 to |keywords|
      invariant |ops| == i
      invariant forall k :: 0 <= k < i ==> CompleteKeyword(keywords[k]) && ops[k] == RenderKeyword(keywords[k])
    {
      if keywords[i].text.None? || keywords[i].matchType.None? {
        assert keywords[i] in keywords;
        return Failure(Other);
      }
      ops := ops + [Keyword(keywords[i].text.value, keywords[i].matchType.value)];
    }
    assert ops == RenderKeywords(keywords);
    var _ :- api.MutateGroup(c, position, api.ads.campaigns[c].groups[position].(keywords := ops));
    return Success(steps + [Action.AddKeywords(|ops|)]);
  }

  method AddAdGroupNegatives(api: AdsApi, c: Id, position: nat, negatives: seq<string>, steps: seq<Action>)
    returns (r: Result<seq<Action>>)
    requires api.Valid()
    requires c in api.ads.campaigns && position < |api.ads.campaigns[c].groups|
    requires api.ads.campaigns[c].groups[position].negatives == []
    modifies api`ads, api`calls, api`sound
    ensures api.Valid()
    ensures Explained(api.fate, old(api.calls), api.calls, true, FaultOf(r))
    ensures r.Failure? ==> api.ads == old(api.ads)
    ensures r.Success? ==>
              api.ads == WithGroup(old(api.ads), c, position,
                old(api.ads.campaigns[c].groups[position]).(negatives := negatives)) &&
              r.value == steps + (if negatives == [] then [] else [AddNegativeKeywords(|negatives|)])
  {
    if negatives == [] {
      SameGroup(api.ads, c, position);
      return Success(steps);
    }
    var _ :- api.MutateGroup(c, position, api.ads.campaigns[c].groups[position].(negatives := negatives));
    return Success(steps + [AddNegativeKeywords(|negatives|)]);
  }

  method CreateAd(api: AdsApi, c: Id, position: nat, ad: AdPlan, steps: seq<Action>) returns (r: Result<seq<Action>>)
    requires api.Valid()
    requires c in api.ads.campaigns && position < |api.ads.campaigns[c].groups|
    requires api.ads.campaigns[c].groups[position].ads == []
    modifies api`ads, api`calls, api`sound
    ensures api.Valid()
    ensures Explained(api.fate, old(api.calls), api.calls, ad.finalUrl.Some?, FaultOf(r))
    ensures r.Failure? ==> api.ads == old(api.ads)
    ensures r.Success? ==>
              ad.finalUrl.Some? &&
              api.ads == WithGroup(old(api.ads), c, position,
                old(api.ads.campaigns[c].groups[position]).(ads := [RenderAd(ad)])) &&
              r.value == steps + [Action.CreateAd]
  {
    if ad.finalUrl.None? {
      return Failure(Other);
    }
    var built := Ad(ad.finalUrl.value, ad.headlines, ad.descriptions, ad.path1, ad.path2);
    var _ :- api.MutateGroup(c, position, api.ads.campaigns[c].groups[position].(ads := [built]));
    return Success(steps + [Action.CreateAd]);
  }

  /** `a` with one more ad group in campaign `c`. */
  function WithLastGroup(a: Ads, c: Id, group: Group): Ads
    requires c in a.campaigns
  {
    WithGroups(a, c, a.campaigns[c].groups + [group])
  }

  lemma LastGroupReplaced(a: Ads, c: Id, group: Group, other: Group)
    requires c in a.campaigns
    ensures WithGroup(WithLastGroup(a, c, group), c, |a.campaigns[c].groups|, other) == WithLastGroup(a, c, other)
  {
    var groups := a.campaigns[c].groups;
    assert (groups + [group])[|groups| := other] == groups + [other];
  }

  /** The steps of a group after its creation, in the order in which they are taken. */
  lemma StepsInOrder(plan: GroupPlan, steps: seq<Action>)
    ensures steps +
            (if plan.keywords == [] then [] else [Action.AddKeywords(|plan.keywords|)]) +
            (if plan.negatives == [] then [] else [AddNegativeKeywords(|plan.negatives|)]) +
            (if plan.ad.None? then [] else [Action.CreateAd])
            == steps + GroupSteps(plan)[1..]
  {
  }

  /** Keywords, negatives and ad of the group just created at the end of the campaign. */
  method FillGroup(api: AdsApi, c: Id, plan: GroupPlan, steps: seq<Action>, ghost start: Ads)
    returns (r: Result<seq<Action>>)
    requires api.Valid()
    requires plan.name.Some? && c in start.campaigns
    requires api.ads == WithLastGroup(start, c, Group(plan.name.value, [], [], []))
    modifies api`ads, api`calls, api`sound
    ensures api.Valid()
    ensures Explained(api.fate, old(api.calls), api.calls, CompleteGroup(plan), FaultOf(r))
    ensures c in api.ads.campaigns && api.ads == WithGroups(start, c, api.ads.campaigns[c].groups)
    ensures r.Success? ==>
              CompleteGroup(plan) && api.ads == WithLastGroup(start, c, RenderGroup(plan)) &&
              r.value == steps + GroupSteps(plan)[1..]
  {
    ghost var c0 := api.calls;
    StepsInOrder(plan, steps);
    var position := |api.ads.campaigns[c].groups| - 1;
    var s2 := AddKeywords(api, c, position, plan.keywords, steps);
    ghost var done := api.calls;
    PartExplained(
      api.fate, c0, c0, done, CompleteKeywords(plan.keywords), CompleteGroup(plan), FaultOf(s2));
    if s2.Failure? {
      return s2;
    }
    ghost var g1 := Group(plan.name.value, [], [], []);
    ghost var g2 := g1.(keywords := RenderKeywords(plan.keywords));
    LastGroupReplaced(start, c, g1, g2);
    var s3 := AddAdGroupNegatives(api, c, position, plan.negatives, s2.value);
    PartExplained(api.fate, c0, done, api.calls, true, CompleteGroup(plan), FaultOf(s3));
    done := api.calls;
    if s3.Failure? {
      return s3;
    }
    ghost var g3 := g2.(negatives := plan.negatives);
    LastGroupReplaced(start, c, g2, g3);
    if plan.ad.None? {
      return s3;
    }
    r := CreateAd(api, c, position, plan.ad.value, s3.value);
    PartExplained(api.fate, c0, done, api.calls, plan.ad.value.finalUrl.Some?, CompleteGroup(plan), FaultOf(r));
    if r.Success? {
      LastGroupReplaced(start, c, g3, RenderGroup(plan));
    }
  }

  /** On success the campaign has one more group, the described one; otherwise only its groups may differ. */
  method BuildAdGroup(api: AdsApi, c: Id, plan: GroupPlan, steps: seq<Action>) returns (r: Result<seq<Action>>)
    requires api.Valid()
    requires c in api.ads.campaigns
    modifies api`ads, api`calls, api`sound
    ensures api.Valid()
    ensures Explained(api.fate, old(api.calls), api.calls, CompleteGroup(plan), FaultOf(r))
    ensures c in api.ads.campaigns && api.ads == WithGroups(old(api.ads), c, api.ads.campaigns[c].groups)
    ensures r.Success? ==>
              CompleteGroup(plan) &&
              api.ads.campaigns[c].groups == old(api.ads.campaigns[c].groups) + [RenderGroup(plan)] &&
              r.value == steps + GroupSteps(plan)
  {
    if plan.name.None? {
      return Failure(Other);
    }
    ghost var start, c0 := api.ads, api.calls;
    var _ :- api.CreateAdGroup(c, plan.name.value);
    ghost var c1 := api.calls;
    r := FillGroup(api, c, plan, steps + [Action.CreateAdGroup], start);
    PartExplained(api.fate, c0, c1, api.calls, CompleteGroup(plan), CompleteGroup(plan), FaultOf(r));
  }

  // ---------------------------------------------------------------- the whole campaign

  function OptionSet(o: Option<Id>): set<Id> {
    if o.Some? then {o.value} else {}
  }

  /** `a` is `start` with the planned groups, built with these steps, in campaign `c`. */
  ghost predicate GroupsBuilt(start: Ads, a: Ads, c: Id, plans: seq<GroupPlan>, steps: seq<Action>) {
    c in start.campaigns && CompleteGroups(plans) &&
    a == WithGroups(start, c, RenderGroups(plans)) && steps == GroupsSteps(plans)
  }

  lemma NoGroupsYet(a: Ads, c: Id)
    requires c in a.campaigns && a.campaigns[c].groups == []
    ensures GroupsBuilt(a, a, c, [], [])
  {
    assert RenderGroups([]) == [];
    assert a.campaigns[c := a.campaigns[c]] == a.campaigns;
  }

  lemma OneMoreGroup(
    start: Ads, a: Ads, a': Ads, c: Id, plans: seq<GroupPlan>, i: nat, steps: seq<Action>)
    requires i < |plans| && GroupsBuilt(start, a, c, plans[..i], steps) && CompleteGroup(plans[i])
    requires a' == WithGroups(a, c, a.campaigns[c].groups + [RenderGroup(plans[i])])
    ensures GroupsBuilt(start, a', c, plans[..i + 1], steps + GroupSteps(plans[i]))
  {
    assert plans[..i + 1][..i] == plans[..i];
    assert RenderGroups(plans[..i + 1]) == RenderGroups(plans[..i]) + [RenderGroup(plans[i])];
  }

  lemma BuiltGroups(start: Ads, a: Ads, c: Id, plans: seq<GroupPlan>, steps: seq<Action>)
    requires GroupsBuilt(start, a, c, plans, steps)
    ensures c in a.campaigns && a == WithGroups(start, c, a.campaigns[c].groups)
    ensures a.campaigns[c].groups == RenderGroups(plans) && steps == GroupsSteps(plans)
  {
  }

  lemma GroupsReplacedTwice(a: Ads, c: Id, first: seq<Group>, second: seq<Group>)
    requires c in a.campaigns
    ensures WithGroups(WithGroups(a, c, first), c, second) == WithGroups(a, c, second)
  {
  }

  method BuildAdGroups(api: AdsApi, c: Id, plans: seq<GroupPlan>, steps: seq<Action>) returns (r: Result<seq<Action>>)
    requires api.Valid()
    requires c in api.ads.campaigns && api.ads.campaigns[c].groups == []
    modifies api`ads, api`calls, api`sound
    ensures api.Valid()
    ensures Explained(api.fate, old(api.calls), api.calls, CompleteGroups(plans), FaultOf(r))
    ensures c in api.ads.campaigns && api.ads == WithGroups(old(api.ads), c, api.ads.campaigns[c].groups)
    ensures r.Success? ==>
              CompleteGroups(plans) &&
              api.ads.campaigns[c].groups == RenderGroups(plans) &&
              r.value == steps + GroupsSteps(plans)
  {
    var done := steps;
    ghost var built: seq<Action> := [];
    ghost var c0 := api.calls;
    NoGroupsYet(api.ads, c);
    for i := 0 to |plans|
      invariant api.Valid()
      invariant c0 <= api.calls && Worked(api.fate, c0, api.calls)
      invariant done == steps + built && GroupsBuilt(old(api.ads), api.ads, c, plans[..i], built)
    {
      ghost var before, c1 := api.ads, api.calls;
      BuiltGroups(old(api.ads), before, c, plans[..i], built);
      var one := BuildAdGroup(api, c, plans[i], done);
      GroupsReplacedTwice(old(api.ads), c, RenderGroups(plans[..i]), api.ads.campaigns[c].groups);
      assert plans[i] in plans;
      PartExplained(
        api.fate, c0, c1, api.calls, CompleteGroup(plans[i]), CompleteGroups(plans), FaultOf(one));
      if one.Failure? {
        return one;
      }
      OneMoreGroup(old(api.ads), before, api.ads, c, plans, i, built);
      done, built := one.value, built + GroupSteps(plans[i]);
    }
    assert plans[..|plans|] == plans;
    BuiltGroups(old(api.ads), api.ads, c, plans, built);
    return Success(done);
  }

  /** Replacing the groups of a campaign that was replaced before. */
  lemma FilledInParts(a: Ads, c: Id, campaign: Campaign, groups: seq<Group>)
    requires c in a.campaigns
    ensures WithGroups(WithCampaign(a, c, campaign), c, groups) == WithCampaign(a, c, campaign.(groups := groups))
    ensures WithCampaign(a, c, a.campaigns[c]) == a
  {
    assert a.campaigns[c := a.campaigns[c]] == a.campaigns;
  }

  method AddCampaignNegatives(api: AdsApi, c: Id, texts: seq<string>, steps: seq<Action>)
    returns (r: Result<seq<Action>>)
    requires api.Valid() && c in api.ads.campaigns && api.ads.campaigns[c].negatives == []
    modifies api`ads, api`calls, api`sound
    ensures api.Valid()
    ensures Explained(api.fate, old(api.calls), api.calls, true, FaultOf(r))
    ensures r.Failure? ==> api.ads == old(api.ads)
    ensures r.Success? ==>
              api.ads == WithCampaign(old(api.ads), c, old(api.ads.campaigns[c]).(negatives := texts)) &&
              r.value == steps + NegativeSteps(texts)
  {
    if texts == [] {
      assert NegativeSteps(texts) == [] && api.ads.campaigns[c].(negatives := texts) == api.ads.campaigns[c];
      FilledInParts(api.ads, c, api.ads.campaigns[c], []);
      return Success(steps);
    }
    assert api.ads.campaigns[c].negatives + texts == texts;
    var _ :- api.AddCampaignNegatives(c, texts);
    return Success(steps + NegativeSteps(texts));
  }

  /** Negatives and ad groups of a fresh campaign; nothing else changes. */
  method FillCampaign(api: AdsApi, c: Id, s: Structure, steps: seq<Action>) returns (r: Result<seq<Action>>)
    requires api.Valid()
    requires c in api.ads.campaigns
    requires api.ads.campaigns[c].negatives == [] && api.ads.campaigns[c].groups == []
    modifies api`ads, api`calls, api`sound
    ensures api.Valid()
    ensures Explained(api.fate, old(api.calls), api.calls, CompleteGroups(s.groups), FaultOf(r))
    ensures c in api.ads.campaigns
    ensures api.ads == WithCampaign(old(api.ads), c, old(api.ads.campaigns[c]).(
                         negatives := api.ads.campaigns[c].negatives, groups := api.ads.campaigns[c].groups))
    ensures r.Success? ==>
              CompleteGroups(s.groups) &&
              api.ads.campaigns[c].negatives == s.sharedNegatives &&
              api.ads.campaigns[c].groups == RenderGroups(s.groups) &&
              r.value == steps + NegativeSteps(s.sharedNegatives) + GroupsSteps(s.groups)
  {
    ghost var c0, start, campaign := api.calls, api.ads, api.ads.campaigns[c];
    FilledInParts(start, c, campaign, []);
    var s1 :- AddCampaignNegatives(api, c, s.sharedNegatives, steps);
    ghost var c1 := api.calls;
    r := BuildAdGroups(api, c, s.groups, s1);
    FilledInParts(start, c, campaign.(negatives := s.sharedNegatives), api.ads.campaigns[c].groups);
    PartExplained(
      api.fate, c0, c1, api.calls, CompleteGroups(s.groups), CompleteGroups(s.groups), FaultOf(r));
  }

  lemma BudgetIsNew(a: Ads, budget: Budget)
    requires ValidAds(a)
    ensures Extends(a, WithNewBudget(a, budget), {a.nextId}, {}) && SameResources(a, a)
  {
  }

  /** What a construction created, and when it is what the structure describes. */
  lemma BothAreNew(
    a: Ads, b: Ads, s: Structure, customer: CustomerId, origin: BlueprintId, paused: bool, empty: Campaign,
    campaign: Campaign)
    requires ValidAds(a) && s.dailyBudget.Some?
    requires var budget := Budget(customer, Rounding.UnitsToMicros(s.dailyBudget.value));
             b == WithCampaign(WithNewCampaign(WithNewBudget(a, budget), empty), a.nextId + 1, campaign)
    ensures Extends(a, b, {a.nextId}, {a.nextId + 1}) && b.campaigns[a.nextId + 1] == campaign
    ensures Complete(s) && campaign == Render(s, customer, origin, paused, a.nextId) ==>
              Gained(a, b, s, customer, origin, paused, a.nextId, a.nextId + 1)
  {
  }

  /** `budget` and `campaign` are what was created so far, whatever the result. */
  method Construct(api: AdsApi, s: Structure, customer: CustomerId, origin: BlueprintId, paused: bool)
    returns (r: Result<seq<Action>>, budget: Option<Id>, campaign: Option<Id>)
    requires api.Valid()
    modifies api`ads, api`calls, api`sound
    ensures api.Valid()
    ensures Explained(api.fate, old(api.calls), api.calls, Complete(s), FaultOf(r))
    ensures Extends(old(api.ads), api.ads, OptionSet(budget), OptionSet(campaign))
    ensures campaign.Some? ==> budget.Some? && api.ads.campaigns[campaign.value].budget == budget.value &&
                               api.ads.campaigns[campaign.value].origin == origin
    ensures r.Success? ==>
              campaign.Some? && r.value == ExpectedSteps(s) &&
              Gained(old(api.ads), api.ads, s, customer, origin, paused, budget.value, campaign.value)
  {
    budget, campaign := None, None;
    if s.campaignName.None? || s.dailyBudget.None? {
      r := Failure(Other);
      return;
    }
    ghost var c0, start := api.calls, api.ads;
    ghost var amount := Budget(customer, Rounding.UnitsToMicros(s.dailyBudget.value));
    BudgetIsNew(start, amount);
    var newBudget := api.CreateBudget(customer, s.dailyBudget.value);
    if newBudget.Failure? {
      r := Failure(newBudget.fault);
      return;
    }
    budget := Some(newBudget.value);
    var empty := Campaign(customer, origin, s.campaignName.value, paused, newBudget.value, [], []);
    var newCampaign := api.CreateCampaign(empty);
    if newCampaign.Failure? {
      r := Failure(newCampaign.fault);
      return;
    }
    campaign := Some(newCampaign.value);
    ghost var c1 := api.calls;
    r := FillCampaign(api, newCampaign.value, s, [Action.CreateBudget, Action.CreateCampaign]);
    PartExplained(
      api.fate, c0, c1, api.calls, CompleteGroups(s.groups), Complete(s), FaultOf(r));
    BothAreNew(start, api.ads, s, customer, origin, paused, empty, api.ads.campaigns[newCampaign.value]);
    if r.Success? {
      assert api.ads.campaigns[newCampaign.value] == Render(s, customer, origin, paused, newBudget.value);
    }
  }

  /** How far a rollback got. */
  datatype Stage = Untouched | CampaignGone | AllGone

  function Undo(built: Ads, budget: Option<Id>, campaign: Option<Id>, stage: Stage): Ads {
    match stage
    case Untouched => built
    case CampaignGone => built.(campaigns := built.campaigns - OptionSet(campaign))
    case AllGone => Ads(built.budgets - OptionSet(budget), built.campaigns - OptionSet(campaign), built.nextId)
  }

  datatype RollbackEnd = RollbackEnd(stage: Stage, died: bool, removals: nat)

  /** How a rollback ends whose first removal is number `n`. */
  function RollbackEndOf(fate: Schedule, n: nat, campaign: Option<Id>, budget: Option<Id>): RollbackEnd {
    if campaign.Some? && fate(n).Some? then RollbackEnd(Untouched, fate(n) == Some(Died), n + 1)
    else
      var m := if campaign.Some? then n + 1 else n;
      if budget.Some? && fate(m).Some? then RollbackEnd(CampaignGone, fate(m) == Some(Died), m + 1)
      else RollbackEnd(AllGone, false, if budget.Some? then m + 1 else m)
  }

  /** Best effort: a failing removal stops the rollback and is not reported, except the process dying. */
  method Rollback(api: AdsApi, campaign: Option<Id>, budget: Option<Id>) returns (died: bool, ghost stage: Stage)
    requires api.Valid()
    requires budget.Some? ==>
               forall c :: c in api.ads.campaigns && api.ads.campaigns[c].budget == budget.value ==> campaign == Some(c)
    modifies api`ads, api`removals, api`sound
    ensures api.Valid()
    ensures api.ads == Undo(old(api.ads), budget, campaign, stage)
    ensures RollbackEnd(stage, died, api.removals) ==
            RollbackEndOf(api.removalFate, old(api.removals), campaign, budget)
    ensures api.RemovalsWork() ==> died || stage == AllGone
    ensures api.Lives() ==> !died
  {
    stage := Untouched;
    if campaign.Some? {
      var removed := api.RemoveCampaign(campaign.value);
      if removed.Failure? {
        return removed.fault.Died?, stage;
      }
    }
    assert api.ads == Undo(old(api.ads), budget, campaign, CampaignGone);
    stage := CampaignGone;
    if budget.Some? {
      var removed := api.RemoveBudget(budget.value);
      if removed.Failure? {
        return removed.fault.Died?, stage;
      }
    }
    assert api.ads == Undo(old(api.ads), budget, campaign, AllGone);
    return false, AllGone;
  }

  datatype Built = Built(budget: Id, campaign: Id, steps: seq<Action>)

  /** Removing all or part of what was gained, campaign first, keeps everything older and valid. */
  lemma RemovingGained(
    before: Ads, built: Ads, after: Ads, budgets: set<Id>, campaigns: set<Id>, kept: set<Id>)
    requires ValidAds(before) && ValidAds(built) && Extends(before, built, budgets, campaigns)
    requires kept == budgets || kept == {}
    requires after.campaigns == built.campaigns - campaigns && after.nextId == built.nextId
    requires after.budgets == built.budgets - (budgets - kept)
    ensures Extends(before, after, kept, {}) && ValidAds(after)
  {
    assert forall c :: c in after.campaigns ==> c in before.campaigns;
    assert after.campaigns.Keys == before.campaigns.Keys;
    assert after.budgets.Keys == before.budgets.Keys + kept;
  }

  /** What a rollback that stopped at `stage` leaves of the gained budget and campaign. */
  function KeptBudgets(budget: Option<Id>, stage: Stage): set<Id> {
    if stage == AllGone then {} else OptionSet(budget)
  }

  function KeptCampaigns(campaign: Option<Id>, stage: Stage): set<Id> {
    if stage == Untouched then OptionSet(campaign) else {}
  }

  /** Whatever stage the rollback reached, what it left behind is bounded; a completed one restores everything. */
  lemma RollbackLeavesLittle(
    before: Ads, built: Ads, origin: BlueprintId, budget: Option<Id>, campaign: Option<Id>, stage: Stage)
    requires ValidAds(before) && ValidAds(built) && Extends(before, built, OptionSet(budget), OptionSet(campaign))
    requires campaign.Some? ==> budget.Some? && built.campaigns[campaign.value].budget == budget.value &&
                                built.campaigns[campaign.value].origin == origin
    ensures ValidAds(Undo(built, budget, campaign, stage))
    ensures Leftover(before, Undo(built, budget, campaign, stage), origin,
                     KeptBudgets(budget, stage), KeptCampaigns(campaign, stage))
  {
    if stage != Untouched {
      var kept := KeptBudgets(budget, stage);
      assert OptionSet(budget) - kept == if stage == AllGone then OptionSet(budget) else {};
      RemovingGained(before, built, Undo(built, budget, campaign, stage), OptionSet(budget), OptionSet(campaign), kept);
    }
  }

  /** The gained budget is used by the gained campaign only. */
  lemma GainedBudgetIsOwn(before: Ads, built: Ads, budget: Option<Id>, campaign: Option<Id>)
    requires ValidAds(before) && Extends(before, built, OptionSet(budget), OptionSet(campaign))
    ensures budget.Some? ==>
              forall c :: c in built.campaigns && built.campaigns[c].budget == budget.value ==> campaign == Some(c)
  {
    if budget.Some? {
      forall c | c in built.campaigns && built.campaigns[c].budget == budget.value ensures campaign == Some(c) {
        assert budget.value in OptionSet(budget);
        assert c in before.campaigns || c in OptionSet(campaign);
      }
    }
  }

  /** What a client object went through: the numbers of its calls, and the platform before and after. */
  datatype Work = Work(
    fate: Schedule, removalFate: Schedule, calls: (nat, nat), removals: (nat, nat), before: Ads, after: Ads)

  lemma RollbackEnds(fate: Schedule, n: nat, campaign: Option<Id>, budget: Option<Id>)
    ensures var end := RollbackEndOf(fate, n, campaign, budget);
            n <= end.removals <= n + 2 && (Worked(fate, n, end.removals) <==> end.stage == AllGone) &&
            (end.stage == AllGone ==> !end.died) && (end.died ==> DiedAmong(fate, n, end.removals)) &&
            (OnlyDeaths(fate) && !end.died ==> end.stage == AllGone)
  {
    var end := RollbackEndOf(fate, n, campaign, budget);
    assert end.died ==> end.removals > n && fate(end.removals - 1) == Some(Died);
    assert end.stage != AllGone ==> end.removals > n && fate(end.removals - 1) != None;
  }

  /** How a failed build ends that was not cut short while constructing: `f` is reported. */
  ghost predicate CleanedUp(w: Work, fault: Fault, f: Fault) {
    w.removals.0 <= w.removals.1 &&
    (f == fault || (f == Died && DiedAmong(w.removalFate, w.removals.0, w.removals.1))) &&
    (Worked(w.removalFate, w.removals.0, w.removals.1) ==> f == fault && SameResources(w.before, w.after)) &&
    (OnlyDeaths(w.removalFate) && f != Died ==> SameResources(w.before, w.after))
  }

  /**
   All or nothing, by the calls that were made.  The build succeeds exactly when
   nothing is missing from the structure and none of its calls failed, and then
   exactly the described campaign was gained.  Otherwise `fault` says what ended
   the construction: unless that was the death of the process, a rollback follows,
   and if none of its calls failed the platform holds what it held before.
   */
  ghost predicate AllOrNothing(
    w: Work, s: Structure, customer: CustomerId, origin: BlueprintId, paused: bool,
    r: Result<Built>, fault: Option<Fault>)
  {
    w.calls.0 < w.calls.1 && Explained(w.fate, w.calls.0, w.calls.1, Complete(s), fault) &&
    match r
    case Success(built) =>
      fault == None && w.removals.1 == w.removals.0 && built.steps == ExpectedSteps(s) &&
      Gained(w.before, w.after, s, customer, origin, paused, built.budget, built.campaign)
    case Failure(f) =>
      fault.Some? &&
      if fault == Some(Died) then f == Died && w.removals.1 == w.removals.0 else CleanedUp(w, fault.value, f)
  }

  /** Read as promises: when a build succeeds, when it restores, and that a living process reports no death. */
  lemma BuildPromises(
    w: Work, s: Structure, customer: CustomerId, origin: BlueprintId, paused: bool,
    r: Result<Built>, fault: Option<Fault>)
    requires AllOrNothing(w, s, customer, origin, paused, r, fault)
    ensures r.Success? <==> Complete(s) && Worked(w.fate, w.calls.0, w.calls.1)
    ensures r.Failure? && !DiedAmong(w.fate, w.calls.0, w.calls.1) ==>
              Worked(w.removalFate, w.removals.0, w.removals.1) ==> SameResources(w.before, w.after)
    ensures r == Failure(Died) ==>
              DiedAmong(w.fate, w.calls.0, w.calls.1) || DiedAmong(w.removalFate, w.removals.0, w.removals.1)
    ensures r.Failure? && r.fault != Died && OnlyDeaths(w.removalFate) ==> SameResources(w.before, w.after)
  {
    SucceedsIff(w.fate, w.calls.0, w.calls.1, Complete(s), fault);
  }

  /** What a rollback that ended somewhere means. */
  lemma CleanedUpAt(
    w: Work, partial: Ads, origin: BlueprintId, budget: Option<Id>, campaign: Option<Id>, end: RollbackEnd,
    fault: Fault)
    requires ValidAds(w.before) && ValidAds(partial)
    requires Extends(w.before, partial, OptionSet(budget), OptionSet(campaign))
    requires campaign.Some? ==> budget.Some? && partial.campaigns[campaign.value].budget == budget.value &&
                                partial.campaigns[campaign.value].origin == origin
    requires end == RollbackEndOf(w.removalFate, w.removals.0, campaign, budget) && w.removals.1 == end.removals
    requires w.after == Undo(partial, budget, campaign, end.stage)
    ensures CleanedUp(w, fault, if end.died then Died else fault)
  {
    RollbackEnds(w.removalFate, w.removals.0, campaign, budget);
    if end.stage == AllGone {
      RollbackLeavesLittle(w.before, partial, origin, budget, campaign, end.stage);
    }
  }

  /** The rollback of an unsuccessful construction. */
  method CleanUp(
    api: AdsApi, budget: Option<Id>, campaign: Option<Id>, ghost before: Ads, ghost origin: BlueprintId,
    ghost c0: nat, fault: Fault)
    returns (f: Fault, ghost budgets: set<Id>, ghost campaigns: set<Id>)
    requires api.Valid() && ValidAds(before) && Extends(before, api.ads, OptionSet(budget), OptionSet(campaign))
    requires campaign.Some? ==> budget.Some? && api.ads.campaigns[campaign.value].budget == budget.value &&
                                api.ads.campaigns[campaign.value].origin == origin
    modifies api`ads, api`removals, api`sound
    ensures api.Valid()
    ensures CleanedUp(
              Work(api.fate, api.removalFate, (c0, api.calls), (old(api.removals), api.removals), before, api.ads),
              fault, f)
    ensures Leftover(before, api.ads, origin, budgets, campaigns) && |campaigns| <= |budgets| <= 1
  {
    ghost var partial, n := api.ads, api.removals;
    GainedBudgetIsOwn(before, partial, budget, campaign);
    var died;
    ghost var stage;
    died, stage := Rollback(api, campaign, budget);
    CleanedUpAt(
      Work(api.fate, api.removalFate, (c0, api.calls), (n, api.removals), before, api.ads),
      partial, origin, budget, campaign, RollbackEnd(stage, died, api.removals), fault);
    RollbackLeavesLittle(before, partial, origin, budget, campaign, stage);
    budgets, campaigns := KeptBudgets(budget, stage), KeptCampaigns(campaign, stage);
    f := if died then Died else fault;
  }

  /** Connecting and constructing. */
  method Attempt(api: AdsApi, s: Structure, customer: CustomerId, origin: BlueprintId, paused: bool)
    returns (r: Result<seq<Action>>, budget: Option<Id>, campaign: Option<Id>)
    requires api.Valid()
    modifies api`ads, api`calls, api`sound
    ensures api.Valid()
    ensures old(api.calls) < api.calls
    ensures Explained(api.fate, old(api.calls), api.calls, Complete(s), FaultOf(r))
    ensures Extends(old(api.ads), api.ads, OptionSet(budget), OptionSet(campaign))
    ensures campaign.Some? ==> budget.Some? && api.ads.campaigns[campaign.value].budget == budget.value &&
                               api.ads.campaigns[campaign.value].origin == origin
    ensures r.Success? ==>
              campaign.Some? && r.value == ExpectedSteps(s) &&
              Gained(old(api.ads), api.ads, s, customer, origin, paused, budget.value, campaign.value)
  {
    budget, campaign := None, None;
    var connected := api.Call();
    if connected.Failure? {
      r := Failure(connected.fault);
      return;
    }
    ghost var c1 := api.calls;
    r, budget, campaign := Construct(api, s, customer, origin, paused);
    PartExplained(api.fate, c1 - 1, c1, api.calls, Complete(s), Complete(s), FaultOf(r));
  }

  /** Everything an attempt created, whether it succeeded or not, is of its blueprint. */
  lemma CreatedIsOwn(before: Ads, after: Ads, origin: BlueprintId, budget: Option<Id>, campaign: Option<Id>)
    requires Extends(before, after, OptionSet(budget), OptionSet(campaign))
    requires campaign.Some? ==> budget.Some? && after.campaigns[campaign.value].budget == budget.value &&
                                after.campaigns[campaign.value].origin == origin
    ensures Leftover(before, after, origin, OptionSet(budget), OptionSet(campaign))
    ensures |OptionSet(campaign)| <= |OptionSet(budget)| <= 1
  {
  }

  /** A failed attempt that was cleaned up is a build that failed. */
  lemma FailedBuild(
    w: Work, s: Structure, customer: CustomerId, origin: BlueprintId, paused: bool, fault: Fault, f: Fault)
    requires w.calls.0 < w.calls.1 && Explained(w.fate, w.calls.0, w.calls.1, Complete(s), Some(fault))
    requires fault != Died && CleanedUp(w, fault, f)
    ensures AllOrNothing(w, s, customer, origin, paused, Failure(f), Some(fault))
  {
  }

  /** A whole build; at no moment of it is a campaign without its budget. */
  method BuildFullCampaign(api: AdsApi, s: Structure, customer: CustomerId, origin: BlueprintId, paused: bool)
    returns (r: Result<Built>, ghost budgets: set<Id>, ghost campaigns: set<Id>, ghost fault: Option<Fault>)
    requires api.Valid()
    modifies api
    ensures api.Valid()
    ensures AllOrNothing(
              Work(api.fate, api.removalFate, (old(api.calls), api.calls), (old(api.removals), api.removals),
                   old(api.ads), api.ads),
              s, customer, origin, paused, r, fault)
    ensures r.Success? ==> budgets == {r.value.budget} && campaigns == {r.value.campaign}
    ensures r.Success? ==>
              r.value.campaign in api.ads.campaigns && r.value.budget in api.ads.budgets &&
              ReadsBack(api.ads.campaigns[r.value.campaign], api.ads.budgets[r.value.budget],
                        s, customer, origin, paused)
    ensures Leftover(old(api.ads), api.ads, origin, budgets, campaigns)
    ensures |campaigns| <= |budgets| <= 1
  {
    ghost var before, c0, r0 := api.ads, api.calls, api.removals;
    var built, budget, campaign := Attempt(api, s, customer, origin, paused);
    fault, budgets, campaigns := FaultOf(built), OptionSet(budget), OptionSet(campaign);
    if built.Success? {
      CreatedIsOwn(before, api.ads, origin, budget, campaign);
      GainedReadsBack(before, api.ads, s, customer, origin, paused, budget.value, campaign.value);
      return Success(Built(budget.value, campaign.value, built.value)), budgets, campaigns, fault;
    }
    if built.fault.Died? {
      CreatedIsOwn(before, api.ads, origin, budget, campaign);
      return Failure(Died), budgets, campaigns, fault;
    }
    var f;
    f, budgets, campaigns := CleanUp(api, budget, campaign, before, origin, c0, built.fault);
    FailedBuild(
      Work(api.fate, api.removalFate, (c0, api.calls), (r0, api.removals), before, api.ads),
      s, customer, origin, paused, built.fault, f);
    return Failure(f), budgets, campaigns, fault;
  }
}
