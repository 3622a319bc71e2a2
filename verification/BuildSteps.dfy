/** The steps a build reports, against the resources of the campaign it creates. */
module BuildSteps {
  import opened Prelude
  import opened AdsAccounts

  datatype Sort = OfBudgets | OfCampaigns | OfCampaignNegatives | OfGroups | OfKeywords | OfNegatives | OfAds

  /** How many resources of a sort a step reports. */
  function Reported(a: Action, sort: Sort): nat {
    match a
    case CreateBudget => if sort.OfBudgets? then 1 else 0
    case CreateCampaign => if sort.OfCampaigns? then 1 else 0
    case AddCampaignNegative => if sort.OfCampaignNegatives? then 1 else 0
    case CreateAdGroup => if sort.OfGroups? then 1 else 0
    case AddKeywords(n) => if sort.OfKeywords? then n else 0
    case AddNegativeKeywords(n) => if sort.OfNegatives? then n else 0
    case CreateAd => if sort.OfAds? then 1 else 0
  }

  function AllReported(steps: seq<Action>, sort: Sort): nat {
    if steps == [] then 0 else AllReported(steps[..|steps| - 1], sort) + Reported(Last(steps), sort)
  }

  function HeldByGroup(g: Group, sort: Sort): nat {
    match sort
    case OfGroups => 1
    case OfKeywords => |g.keywords|
    case OfNegatives => |g.negatives|
    case OfAds => |g.ads|
    case _ => 0
  }

  function HeldByGroups(gs: seq<Group>, sort: Sort): nat {
    if gs == [] then 0 else HeldByGroups(gs[..|gs| - 1], sort) + HeldByGroup(Last(gs), sort)
  }

  /** How many resources of a sort a campaign has, its budget included. */
  function Held(c: Campaign, sort: Sort): nat {
    match sort
    case OfBudgets => 1
    case OfCampaigns => 1
    case OfCampaignNegatives => |c.negatives|
    case _ => HeldByGroups(c.groups, sort)
  }

  lemma {:induction false} ReportedInParts(a: seq<Action>, b: seq<Action>, sort: Sort)
    ensures AllReported(a + b, sort) == AllReported(a, sort) + AllReported(b, sort)
  {
    if b == [] {
      assert a + b == a;
    } else {
      assert (a + b)[..|a + b| - 1] == a + b[..|b| - 1] && Last(a + b) == Last(b);
      ReportedInParts(a, b[..|b| - 1], sort);
    }
  }

  lemma OneReported(a: Action, sort: Sort)
    ensures AllReported([a], sort) == Reported(a, sort)
  {
    assert [a][..0] == [];
  }

  lemma {:induction false} NegativesReported(texts: seq<string>, sort: Sort)
    ensures AllReported(NegativeSteps(texts), sort) == if sort.OfCampaignNegatives? then |texts| else 0
  {
    if texts == [] {
    } else {
      NegativesReported(texts[..|texts| - 1], sort);
      assert NegativeSteps(texts)[..|texts| - 1] == NegativeSteps(texts[..|texts| - 1]);
    }
  }

  function Maybe(a: Action, count: nat): seq<Action> {
    if count == 0 then [] else [a]
  }

  /** A step that is left out when there is nothing to report. */
  lemma MaybeReported(steps: seq<Action>, a: Action, count: nat, sort: Sort)
    requires count == 0 ==> Reported(a, sort) == 0
    ensures AllReported(steps + Maybe(a, count), sort) == AllReported(steps, sort) + Reported(a, sort)
  {
    ReportedInParts(steps, Maybe(a, count), sort);
    OneReported(a, sort);
  }

  lemma GroupStepsReported(keywords: nat, negatives: nat, ads: nat, sort: Sort)
    requires ads <= 1
    ensures AllReported(
              [CreateAdGroup] + Maybe(AddKeywords(keywords), keywords) +
              Maybe(AddNegativeKeywords(negatives), negatives) + Maybe(CreateAd, ads), sort) ==
            match sort
            case OfGroups => 1
            case OfKeywords => keywords
            case OfNegatives => negatives
            case OfAds => ads
            case _ => 0
  {
    var s2 := [CreateAdGroup] + Maybe(AddKeywords(keywords), keywords);
    var s3 := s2 + Maybe(AddNegativeKeywords(negatives), negatives);
    OneReported(CreateAdGroup, sort);
    MaybeReported([CreateAdGroup], AddKeywords(keywords), keywords, sort);
    MaybeReported(s2, AddNegativeKeywords(negatives), negatives, sort);
    if ads == 0 {
      assert s3 + Maybe(CreateAd, ads) == s3;
    } else {
      MaybeReported(s3, CreateAd, ads, sort);
    }
  }

  lemma GroupReported(g: GroupPlan, sort: Sort)
    requires CompleteGroup(g)
    ensures AllReported(GroupSteps(g), sort) == HeldByGroup(RenderGroup(g), sort)
  {
    var ads := if g.ad.Some? then 1 else 0;
    GroupStepsReported(|g.keywords|, |g.negatives|, ads, sort);
    assert GroupSteps(g) ==
           [CreateAdGroup] + Maybe(AddKeywords(|g.keywords|), |g.keywords|) +
           Maybe(AddNegativeKeywords(|g.negatives|), |g.negatives|) + Maybe(CreateAd, ads);
  }

  lemma {:induction false} GroupsReported(gs: seq<GroupPlan>, sort: Sort)
    requires CompleteGroups(gs)
    ensures AllReported(GroupsSteps(gs), sort) == HeldByGroups(RenderGroups(gs), sort)
  {
    if gs == [] {
    } else {
      var front := gs[..|gs| - 1];
      GroupsReported(front, sort);
      assert Last(gs) in gs;
      GroupReported(Last(gs), sort);
      ReportedInParts(GroupsSteps(front), GroupSteps(Last(gs)), sort);
      assert RenderGroups(gs)[..|gs| - 1] == RenderGroups(front);
    }
  }

  lemma {:induction false} OnlyGroupResources(gs: seq<Group>, sort: Sort)
    requires sort.OfBudgets? || sort.OfCampaigns? || sort.OfCampaignNegatives?
    ensures HeldByGroups(gs, sort) == 0
  {
    if gs == [] {
    } else {
      OnlyGroupResources(gs[..|gs| - 1], sort);
    }
  }

  /** The steps of a build account for every resource of the campaign it creates, and for no other. */
  lemma StepsAccountForCampaign(
    s: Structure, customer: CustomerId, origin: BlueprintId, paused: bool, budget: Id, sort: Sort)
    requires Complete(s)
    ensures AllReported(ExpectedSteps(s), sort) == Held(Render(s, customer, origin, paused, budget), sort)
  {
    var head := [CreateBudget, CreateCampaign];
    assert head == [CreateBudget] + [CreateCampaign];
    ReportedInParts([CreateBudget], [CreateCampaign], sort);
    OneReported(CreateBudget, sort);
    OneReported(CreateCampaign, sort);
    ReportedInParts(head, NegativeSteps(s.sharedNegatives), sort);
    ReportedInParts(head + NegativeSteps(s.sharedNegatives), GroupsSteps(s.groups), sort);
    NegativesReported(s.sharedNegatives, sort);
    GroupsReported(s.groups, sort);
    if sort.OfBudgets? || sort.OfCampaigns? || sort.OfCampaignNegatives? {
      OnlyGroupResources(RenderGroups(s.groups), sort);
    }
  }

  // ---------------------------------------------------------------- the order of the steps

  function Stage(a: Action): nat {
    match a
    case CreateBudget => 0
    case CreateCampaign => 1
    case AddCampaignNegative => 2
    case CreateAdGroup => 3
    case AddKeywords(_) => 4
    case AddNegativeKeywords(_) => 5
    case CreateAd => 6
  }

  /** A step comes later in the same group, or is one more campaign negative, or starts another group. */
  predicate MayFollow(a: Action, b: Action) {
    Stage(a) < Stage(b) || (a == AddCampaignNegative && b == AddCampaignNegative) ||
    (Stage(a) > 1 && b == CreateAdGroup)
  }

  ghost predicate InOrder(steps: seq<Action>) {
    forall i :: 0 <= i < |steps| - 1 ==> MayFollow(steps[i], steps[i + 1])
  }

  lemma OrderInParts(a: seq<Action>, b: seq<Action>)
    requires InOrder(a) && InOrder(b) && (a != [] && b != [] ==> MayFollow(Last(a), b[0]))
    ensures InOrder(a + b)
  {
    forall i | 0 <= i < |a + b| - 1 ensures MayFollow((a + b)[i], (a + b)[i + 1]) {
      if i >= |a| {
        assert (a + b)[i] == b[i - |a|] && (a + b)[i + 1] == b[i - |a| + 1];
      }
    }
  }

  lemma {:induction false} GroupsInOrder(gs: seq<GroupPlan>)
    ensures InOrder(GroupsSteps(gs))
    ensures gs != [] ==>
              GroupsSteps(gs) != [] && GroupsSteps(gs)[0] == CreateAdGroup && Stage(Last(GroupsSteps(gs))) > 1
    ensures gs == [] ==> GroupsSteps(gs) == []
  {
    if gs == [] {
    } else {
      GroupsInOrder(gs[..|gs| - 1]);
      OrderInParts(GroupsSteps(gs[..|gs| - 1]), GroupSteps(Last(gs)));
    }
  }

  /** A build reports its budget, its campaign, the campaign's negatives, and then group by group. */
  lemma StepsComeInOrder(s: Structure)
    ensures ExpectedSteps(s)[0] == CreateBudget && InOrder(ExpectedSteps(s))
  {
    var negatives := NegativeSteps(s.sharedNegatives);
    GroupsInOrder(s.groups);
    OrderInParts([CreateBudget, CreateCampaign], negatives);
    OrderInParts([CreateBudget, CreateCampaign] + negatives, GroupsSteps(s.groups));
  }
}
