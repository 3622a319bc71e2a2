/** The retrying build and the execution of a blueprint, proved against `Executed`. */
module CampaignCreation {
  import opened Prelude
  import opened AdsAccounts
  import opened CampaignBuilder
  import opened BlueprintRuns
  import CampaignAssembler

  const MAX_ATTEMPTS: nat := 3

  lemma LeftoversAdd(
    a: Ads, b: Ads, c: Ads, origin: BlueprintId, b1: set<Id>, c1: set<Id>, b2: set<Id>, c2: set<Id>)
    requires Leftover(a, b, origin, b1, c1) && Leftover(b, c, origin, b2, c2)
    ensures Leftover(a, c, origin, b1 + b2, c1 + c2)
    ensures b1 !! b2 && c1 !! c2
  {
  }

  lemma DisjointSizes(x: set<Id>, y: set<Id>)
    requires x !! y
    ensures |x + y| == |x| + |y|
  {
  }

  lemma GainedSinceStart(
    a: Ads, b: Ads, c: Ads, s: Structure, customer: CustomerId, origin: BlueprintId, paused: bool,
    budget: Id, campaign: Id)
    requires SameResources(a, b) && Gained(b, c, s, customer, origin, paused, budget, campaign)
    ensures Gained(a, c, s, customer, origin, paused, budget, campaign)
  {
    assert a.budgets.Keys == b.budgets.Keys && a.campaigns.Keys == b.campaigns.Keys;
  }

  /** What a successful attempt has created, whatever the earlier ones left. */
  ghost predicate Described(
    a: Ads, s: Structure, customer: CustomerId, origin: BlueprintId, paused: bool, built: Built, g: Gain)
  {
    Complete(s) && built.steps == ExpectedSteps(s) && built.campaign in g.campaigns && built.budget in g.budgets &&
    built.campaign in a.campaigns && built.budget in a.budgets &&
    a.campaigns[built.campaign] == Render(s, customer, origin, paused, built.budget) &&
    a.budgets[built.budget] == Budget(customer, Rounding.UnitsToMicros(s.dailyBudget.value))
  }

  /** Some call among those of both kinds killed the process. */
  ghost predicate Deadly(w: Work) {
    DiedAmong(w.fate, w.calls.0, w.calls.1) || DiedAmong(w.removalFate, w.removals.0, w.removals.1)
  }

  lemma DiedWithin(fate: Schedule, from: nat, to: nat, first: nat, last: nat)
    requires DiedAmong(fate, from, to) && first <= from && to <= last
    ensures DiedAmong(fate, first, last)
  {
  }

  /** One more attempt adds to what earlier ones left. */
  lemma AttemptAdds(
    a: Ads, b: Ads, c: Ads, s: Structure, customer: CustomerId, origin: BlueprintId, paused: bool,
    g: Gain, more: Gain, r: Result<Built>)
    requires Leftover(a, b, origin, g.budgets, g.campaigns) && Leftover(b, c, origin, more.budgets, more.campaigns)
    requires r.Success? ==>
               r.value.steps == ExpectedSteps(s) &&
               Gained(b, c, s, customer, origin, paused, r.value.budget, r.value.campaign) &&
               more == Gain({r.value.budget}, {r.value.campaign})
    ensures Leftover(a, c, origin, g.budgets + more.budgets, g.campaigns + more.campaigns)
    ensures |g.budgets + more.budgets| == |g.budgets| + |more.budgets|
    ensures |g.campaigns + more.campaigns| == |g.campaigns| + |more.campaigns|
    ensures r.Success? ==>
              Described(c, s, customer, origin, paused, r.value,
                        Gain(g.budgets + more.budgets, g.campaigns + more.campaigns))
    ensures SameResources(a, b) && r.Success? ==>
              Gained(a, c, s, customer, origin, paused, r.value.budget, r.value.campaign)
    ensures SameResources(a, b) && SameResources(b, c) ==> SameResources(a, c)
  {
    LeftoversAdd(a, b, c, origin, g.budgets, g.campaigns, more.budgets, more.campaigns);
    DisjointSizes(g.budgets, more.budgets);
    DisjointSizes(g.campaigns, more.campaigns);
    if SameResources(a, b) && r.Success? {
      GainedSinceStart(a, b, c, s, customer, origin, paused, r.value.budget, r.value.campaign);
    }
  }

  /**
   What `attempts` attempts did to the platform.  Whatever rollbacks did, there are
   no more leftover campaigns than leftover budgets and no more budgets than
   attempts; with removals that work it is all or nothing.
   */
  ghost predicate Gathered(
    working: bool, a: Ads, b: Ads, s: Structure, customer: CustomerId, origin: BlueprintId, paused: bool,
    r: Result<Built>, attempts: nat, g: Gain)
  {
    Leftover(a, b, origin, g.budgets, g.campaigns) && |g.campaigns| <= |g.budgets| <= attempts &&
    (r.Success? ==> Described(b, s, customer, origin, paused, r.value, g)) &&
    (working ==>
       |g.budgets| <= 1 &&
       (r.Success? ==> Gained(a, b, s, customer, origin, paused, r.value.budget, r.value.campaign)) &&
       (r.Failure? && r.fault != Died ==> g == Gain({}, {}) && SameResources(a, b)))
  }

  /**
   The attempts of a build begin with the calls numbered `starts`.  There are at
   most three, each makes a call, and all but the last ended with a call that
   raised a retriable fault.
   */
  ghost predicate Chained(w: Work, complete: bool, starts: seq<nat>) {
    1 <= |starts| <= 3 && starts[0] == w.calls.0 && Last(starts) < w.calls.1 &&
    forall i :: 0 < i < |starts| ==> Explained(w.fate, starts[i - 1], starts[i], complete, Some(External))
  }

  /** The calls from number `from` on explain the outcome, or the failure whose rollback the process did not survive. */
  ghost predicate EndedBy(w: Work, from: nat, complete: bool, fault: Option<Fault>) {
    w.removals.0 <= w.removals.1 &&
    (|| Explained(w.fate, from, w.calls.1, complete, fault)
     || (fault == Some(Died) && DiedAmong(w.removalFate, w.removals.0, w.removals.1) &&
         (|| Explained(w.fate, from, w.calls.1, complete, Some(External))
          || Explained(w.fate, from, w.calls.1, complete, Some(Other)))))
  }

  /** How the attempts that began with the calls `starts` ended. */
  ghost predicate Tried(w: Work, complete: bool, fault: Option<Fault>, starts: seq<nat>) {
    Chained(w, complete, starts) && EndedBy(w, Last(starts), complete, fault)
  }

  /** One attempt more, after attempts `w` of which the last ended in a retriable fault. */
  lemma TriedAgain(w: Work, more: Work, complete: bool, starts: seq<nat>, fault: Option<Fault>)
    requires Tried(w, complete, Some(External), starts) && |starts| < MAX_ATTEMPTS
    requires more.fate == w.fate && more.removalFate == w.removalFate
    requires more.calls.0 == w.calls.1 && more.removals.0 == w.removals.1
    requires EndedBy(more, w.calls.1, complete, fault) && w.calls.1 < more.calls.1
    ensures Tried(more.(calls := (w.calls.0, more.calls.1), removals := (w.removals.0, more.removals.1)),
                  complete, fault, starts + [w.calls.1])
  {
    var w' := more.(calls := (w.calls.0, more.calls.1), removals := (w.removals.0, more.removals.1));
    if DiedAmong(w.removalFate, more.removals.0, more.removals.1) {
      DiedWithin(w.removalFate, more.removals.0, more.removals.1, w'.removals.0, w'.removals.1);
    }
    assert EndedBy(w', w.calls.1, complete, fault);
  }

  lemma NothingLeft(a: Ads, b: Ads, origin: BlueprintId, g: Gain)
    requires Leftover(a, b, origin, g.budgets, g.campaigns) && SameResources(a, b)
    ensures g == Gain({}, {})
  {
    assert forall x :: x in g.budgets ==> x in b.budgets && x !in a.budgets;
    assert forall x :: x in g.campaigns ==> x in b.campaigns && x !in a.campaigns;
  }

  /** Before the first attempt. */
  lemma NothingGathered(
    working: bool, a: Ads, s: Structure, customer: CustomerId, origin: BlueprintId, paused: bool)
    ensures Gathered(working, a, a, s, customer, origin, paused, Failure(External), 0, Gain({}, {}))
  {
    assert Leftover(a, a, origin, {}, {});
  }

  /** One attempt more gathers what it gained itself. */
  lemma GatheredAgain(
    working: bool, a: Ads, b: Ads, c: Ads, s: Structure, customer: CustomerId, origin: BlueprintId, paused: bool,
    attempts: nat, g: Gain, more: Gain, r: Result<Built>)
    requires Gathered(working, a, b, s, customer, origin, paused, Failure(External), attempts, g)
    requires Leftover(b, c, origin, more.budgets, more.campaigns) && |more.campaigns| <= |more.budgets| <= 1
    requires r.Success? ==>
               r.value.steps == ExpectedSteps(s) &&
               Gained(b, c, s, customer, origin, paused, r.value.budget, r.value.campaign) &&
               more == Gain({r.value.budget}, {r.value.campaign})
    requires working && r.Failure? && r.fault != Died ==> SameResources(b, c)
    ensures Gathered(working, a, c, s, customer, origin, paused, r, attempts + 1,
                     Gain(g.budgets + more.budgets, g.campaigns + more.campaigns))
  {
    AttemptAdds(a, b, c, s, customer, origin, paused, g, more, r);
    if working && r.Failure? && r.fault != Died {
      NothingLeft(a, c, origin, Gain(g.budgets + more.budgets, g.campaigns + more.campaigns));
    }
  }

  /** What a client object went through since some earlier moment. */
  ghost function Since(api: AdsApi, calls: nat, removals: nat, before: Ads): Work
    reads api
  {
    Work(api.fate, api.removalFate, (calls, api.calls), (removals, api.removals), before, api.ads)
  }

  /** How a build ended. */
  lemma BuildEnds(
    w: Work, s: Structure, customer: CustomerId, origin: BlueprintId, paused: bool,
    r: Result<Built>, fault: Option<Fault>)
    requires AllOrNothing(w, s, customer, origin, paused, r, fault)
    ensures EndedBy(w, w.calls.0, Complete(s), FaultOf(r)) && w.calls.0 < w.calls.1
  {
    assert fault.Some? && fault != Some(Died) ==> CleanedUp(w, fault.value, r.fault);
  }

  /** What a build means for the attempts so far. */
  lemma AttemptEnds(
    w: Work, start: Ads, s: Structure, customer: CustomerId, origin: BlueprintId, paused: bool,
    attempts: nat, g: Gain, more: Gain, r: Result<Built>, fault: Option<Fault>)
    requires AllOrNothing(w, s, customer, origin, paused, r, fault)
    requires Gathered(
               OnlyDeaths(w.removalFate), start, w.before, s, customer, origin, paused, Failure(External), attempts, g)
    requires Leftover(w.before, w.after, origin, more.budgets, more.campaigns)
    requires |more.campaigns| <= |more.budgets| <= 1
    requires r.Success? ==> more == Gain({r.value.budget}, {r.value.campaign})
    ensures Gathered(OnlyDeaths(w.removalFate), start, w.after, s, customer, origin, paused, r, attempts + 1,
                     Gain(g.budgets + more.budgets, g.campaigns + more.campaigns))
  {
    BuildPromises(w, s, customer, origin, paused, r, fault);
    GatheredAgain(
      OnlyDeaths(w.removalFate), start, w.before, w.after, s, customer, origin, paused, attempts, g, more, r);
  }

  /** One attempt more. */
  method AttemptOnce(
    api: AdsApi, s: Structure, customer: CustomerId, origin: BlueprintId, paused: bool,
    ghost start: Ads, ghost g: Gain, ghost attempts: nat)
    returns (r: Result<Built>, ghost g': Gain)
    requires api.Valid()
    requires Gathered(
               api.RemovalsWork(), start, api.ads, s, customer, origin, paused, Failure(External), attempts, g)
    modifies api
    ensures api.Valid()
    ensures Gathered(api.RemovalsWork(), start, api.ads, s, customer, origin, paused, r, attempts + 1, g')
    ensures EndedBy(
              Since(api, old(api.calls), old(api.removals), old(api.ads)), old(api.calls), Complete(s), FaultOf(r))
    ensures old(api.calls) < api.calls
  {
    ghost var before, c0, r0 := api.ads, api.calls, api.removals;
    ghost var b, c, fault;
    r, b, c, fault := BuildFullCampaign(api, s, customer, origin, paused);
    BuildEnds(Since(api, c0, r0, before), s, customer, origin, paused, r, fault);
    AttemptEnds(
      Since(api, c0, r0, before), start, s, customer, origin, paused, attempts, g, Gain(b, c), r, fault);
    g' := Gain(g.budgets + b, g.campaigns + c);
  }

  /** The first attempt. */
  method AttemptFirst(api: AdsApi, s: Structure, customer: CustomerId, origin: BlueprintId, paused: bool)
    returns (r: Result<Built>, ghost g: Gain)
    requires api.Valid()
    modifies api
    ensures api.Valid()
    ensures Gathered(api.RemovalsWork(), old(api.ads), api.ads, s, customer, origin, paused, r, 1, g)
    ensures Tried(Since(api, old(api.calls), old(api.removals), old(api.ads)),
                  Complete(s), FaultOf(r), [old(api.calls)])
  {
    g := Gain({}, {});
    NothingGathered(api.RemovalsWork(), api.ads, s, customer, origin, paused);
    r, g := AttemptOnce(api, s, customer, origin, paused, api.ads, g, 0);
  }

  /** A further attempt, after attempts `w` of which the latest ended in a retriable fault. */
  method AttemptAgain(
    api: AdsApi, s: Structure, customer: CustomerId, origin: BlueprintId, paused: bool,
    ghost w: Work, ghost g: Gain, ghost starts: seq<nat>)
    returns (r: Result<Built>, ghost g': Gain)
    requires api.Valid() && |starts| < MAX_ATTEMPTS && w == Since(api, w.calls.0, w.removals.0, w.before)
    requires Gathered(
               api.RemovalsWork(), w.before, api.ads, s, customer, origin, paused, Failure(External), |starts|, g)
    requires Tried(w, Complete(s), Some(External), starts)
    modifies api
    ensures api.Valid()
    ensures Gathered(api.RemovalsWork(), w.before, api.ads, s, customer, origin, paused, r, |starts| + 1, g')
    ensures Tried(
              Since(api, w.calls.0, w.removals.0, w.before), Complete(s), FaultOf(r), starts + [w.calls.1])
  {
    r, g' := AttemptOnce(api, s, customer, origin, paused, w.before, g, |starts|);
    TriedAgain(w, Since(api, w.calls.1, w.removals.1, w.after), Complete(s), starts, FaultOf(r));
  }

  /** At most three attempts, a further one exactly after a retriable fault. */
  method BuildWithRetry(api: AdsApi, s: Structure, customer: CustomerId, origin: BlueprintId, paused: bool)
    returns (r: Result<Built>, attempts: nat, ghost g: Gain, ghost starts: seq<nat>)
    requires api.Valid()
    modifies api
    ensures api.Valid() && attempts == |starts| && (r == Failure(External) ==> attempts == 3)
    ensures Gathered(api.RemovalsWork(), old(api.ads), api.ads, s, customer, origin, paused, r, attempts, g)
    ensures Tried(Since(api, old(api.calls), old(api.removals), old(api.ads)), Complete(s), FaultOf(r), starts)
  {
    ghost var start, c0, r0 := api.ads, api.calls, api.removals;
    attempts, starts := 1, [c0];
    r, g := AttemptFirst(api, s, customer, origin, paused);
    while r == Failure(External) && attempts < MAX_ATTEMPTS
      invariant api.Valid() && attempts == |starts| <= MAX_ATTEMPTS
      invariant Gathered(api.RemovalsWork(), start, api.ads, s, customer, origin, paused, r, attempts, g)
      invariant Tried(Since(api, c0, r0, start), Complete(s), FaultOf(r), starts)
    {
      ghost var w := Since(api, c0, r0, start);
      r, g := AttemptAgain(api, s, customer, origin, paused, w, g, starts);
      attempts, starts := attempts + 1, starts + [w.calls.1];
    }
  }

  lemma SmallSetsAreAtMostOne(s: set<Id>)
    requires |s| <= 1
    ensures AtMostOne(s)
  {
    forall x, y | x in s && y in s ensures x == y {
      assert |s - {x}| == |s| - 1;
      assert x != y ==> y in s - {x};
    }
  }

  function OutcomeOf(r: Result<Built>): Outcome {
    if r.Success? then Completed(r.value.campaign) else if r.fault.Died? then Interrupted else BuildFailed
  }

  /** What the attempts gathered is what the execution of a blueprint may do, whether or not it is committed. */
  lemma GatheredIsBuilt(
    working: bool, a: Ads, b: Ads, s: Structure, q: Request, r: Result<Built>, attempts: nat, g: Gain)
    requires ValidAds(b) && Gathered(working, a, b, s, q.customer, q.blueprint, q.paused, r, attempts, g)
    ensures BuiltFor(working, a, b, s, q, OutcomeOf(r), g) && BuiltFor(working, a, b, s, q, Interrupted, g)
  {
    if working {
      SmallSetsAreAtMostOne(g.budgets);
      SmallSetsAreAtMostOne(g.campaigns);
    }
  }

  /**
   How a build ends whose attempts began with the calls `starts`.  It completes by
   a last attempt without a failing call, it fails by a retriable fault of the
   third attempt or by another fault or a missing entry in any attempt, and it is
   cut short by a call that kills the process.
   */
  ghost predicate EndsWith(w: Work, complete: bool, built: Outcome, starts: seq<nat>) {
    Chained(w, complete, starts) &&
    var last := Last(starts);
    match built
    case Completed(_) => Explained(w.fate, last, w.calls.1, complete, None)
    case BuildFailed =>
      || Explained(w.fate, last, w.calls.1, complete, Some(Other))
      || (|starts| == 3 && Explained(w.fate, last, w.calls.1, complete, Some(External)))
    case Interrupted => EndedBy(w, last, complete, Some(Died))
    case _ => false
  }

  lemma TriedEnds(w: Work, complete: bool, r: Result<Built>, starts: seq<nat>)
    requires Tried(w, complete, FaultOf(r), starts) && (r == Failure(External) ==> |starts| == 3)
    ensures EndsWith(w, complete, OutcomeOf(r), starts)
  {
  }

  lemma {:induction false} StartsAscend(w: Work, complete: bool, starts: seq<nat>, i: nat, j: nat)
    requires Chained(w, complete, starts) && i <= j < |starts|
    ensures starts[i] <= starts[j]
  {
    if i == j {
    } else {
      StartsAscend(w, complete, starts, i, j - 1);
      assert Explained(w.fate, starts[j - 1], starts[j], complete, Some(External));
    }
  }

  /**
   Read as promises: when a build completes, that one whose calls all work is
   tried once, and that only a call that kills the process cuts it short.
   */
  lemma EndPromises(w: Work, complete: bool, built: Outcome, starts: seq<nat>)
    requires EndsWith(w, complete, built, starts)
    ensures built.Completed? <==> complete && Worked(w.fate, Last(starts), w.calls.1)
    ensures complete && Worked(w.fate, w.calls.0, w.calls.1) ==> built.Completed? && starts == [w.calls.0]
    ensures built == Interrupted ==>
              DiedAmong(w.fate, w.calls.0, w.calls.1) || DiedAmong(w.removalFate, w.removals.0, w.removals.1)
  {
    var last := Last(starts);
    StartsAscend(w, complete, starts, 0, |starts| - 1);
    if |starts| > 1 {
      assert Explained(w.fate, starts[0], starts[1], complete, Some(External));
      StartsAscend(w, complete, starts, 1, |starts| - 1);
      assert w.fate(starts[1] - 1) == Some(External);
    }
    if built == Interrupted && Explained(w.fate, last, w.calls.1, complete, Some(Died)) {
      SucceedsIff(w.fate, last, w.calls.1, complete, Some(Died));
      DiedWithin(w.fate, last, w.calls.1, w.calls.0, w.calls.1);
    }
  }

  /** The calls of one attempt end in one place. */
  lemma FirstFaultIsOne(fate: Schedule, from: nat, to: nat, to': nat, complete: bool)
    requires Explained(fate, from, to, complete, Some(External)) && from < to'
    requires Worked(fate, from, to' - 1)
    ensures to' <= to
    ensures Explained(fate, from, to', complete, Some(External)) ==> to == to'
  {
    var last: nat := to - 1;
    assert last < to' - 1 ==> fate(last) == None;
  }

  lemma {:induction false} StartsAgree(
    w: Work, complete: bool, starts: seq<nat>, starts': seq<nat>, i: nat)
    requires Chained(w, complete, starts) && Chained(w, complete, starts') && i < |starts| && i < |starts'|
    ensures starts[i] == starts'[i]
  {
    if i == 0 {
    } else {
      StartsAgree(w, complete, starts, starts', i - 1);
      assert Explained(w.fate, starts'[i - 1], starts'[i], complete, Some(External));
      FirstFaultIsOne(w.fate, starts[i - 1], starts[i], starts'[i], complete);
    }
  }

  lemma NoFurtherStart(w: Work, complete: bool, built: Outcome, starts: seq<nat>, starts': seq<nat>)
    requires EndsWith(w, complete, built, starts) && Chained(w, complete, starts')
    ensures |starts'| <= |starts|
  {
    var n := |starts|;
    if n < |starts'| {
      StartsAgree(w, complete, starts, starts', n - 1);
      StartsAscend(w, complete, starts', n, |starts'| - 1);
      assert Explained(w.fate, starts'[n - 1], starts'[n], complete, Some(External));
      FirstFaultIsOne(w.fate, starts'[n - 1], starts'[n], w.calls.1, complete);
    }
  }

  /** The calls that were made fix the attempts: they can be cut into attempts in one way only. */
  lemma StartsAreFixed(
    w: Work, complete: bool, built: Outcome, starts: seq<nat>, built': Outcome, starts': seq<nat>)
    requires EndsWith(w, complete, built, starts) && EndsWith(w, complete, built', starts')
    ensures starts == starts'
  {
    NoFurtherStart(w, complete, built, starts, starts');
    NoFurtherStart(w, complete, built', starts', starts);
    forall i | 0 <= i < |starts| ensures starts[i] == starts'[i] {
      StartsAgree(w, complete, starts, starts', i);
    }
  }

  /** A stored blueprint that gets built becomes a campaign exactly if no call of the last attempt failed. */
  lemma StoredBlueprintCompletes(b: CampaignAssembler.Blueprint, w: Work, built: Outcome, starts: seq<nat>)
    requires EndsWith(w, Complete(CampaignAssembler.Stored(b)), built, starts)
    ensures built.Completed? <==> Worked(w.fate, Last(starts), w.calls.1)
    ensures Worked(w.fate, w.calls.0, w.calls.1) ==> built.Completed? && starts == [w.calls.0]
  {
    CampaignAssembler.StoredIsComplete(b);
    EndPromises(w, Complete(CampaignAssembler.Stored(b)), built, starts);
  }

  class Service {
    /** The committed blueprint rows. */
    var blueprints: map<BlueprintId, Blueprint>
    const api: AdsApi

    constructor (api: AdsApi)
      ensures this.api == api && blueprints == map[]
    {
      this.api := api;
      blueprints := map[];
    }

    ghost function State(): World
      reads this, api
    {
      World(blueprints, api.ads, None)
    }

    method FindCreatedDuplicate(org: OrgId, customer: CustomerId, name: string) returns (found: bool)
      ensures found <==> exists d :: d in blueprints && SameSlot(blueprints[d], org, customer, name)
    {
      return exists d :: d in blueprints && SameSlot(blueprints[d], org, customer, name);
    }

    /** The build of an execution; `built` is its outcome if the process lives to commit it. */
    method Build(q: Request, s: Structure) returns (built: Outcome, ghost g: Gain, ghost starts: seq<nat>)
      requires api.Valid()
      modifies api
      ensures api.Valid()
      ensures BuiltFor(api.RemovalsWork(), old(api.ads), api.ads, s, q, built, g)
      ensures BuiltFor(api.RemovalsWork(), old(api.ads), api.ads, s, q, Interrupted, g) && FewGained(g)
      ensures EndsWith(Since(api, old(api.calls), old(api.removals), old(api.ads)), Complete(s), built, starts)
      ensures api.Lives() ==> built != Interrupted
    {
      var result, attempts;
      ghost var before, c0, r0 := api.ads, api.calls, api.removals;
      result, attempts, g, starts := BuildWithRetry(api, s, q.customer, q.blueprint, q.paused);
      built := OutcomeOf(result);
      GatheredIsBuilt(api.RemovalsWork(), before, api.ads, s, q, result, attempts, g);
      TriedEnds(Since(api, c0, r0, before), Complete(s), result, starts);
      EndPromises(Since(api, c0, r0, before), Complete(s), built, starts);
    }

    /** After the first commit: build, then record the result if the process lives to commit it. */
    method BuildAndRecord(q: Request, b: Blueprint, commit: bool)
      returns (o: Outcome, ghost g: Gain, ghost built: Outcome, ghost starts: seq<nat>)
      requires api.Valid() && q.blueprint in blueprints && blueprints[q.blueprint] == b && b.status == Executing
      modifies this, api
      ensures api.Valid() && blueprints == old(blueprints)[q.blueprint := FinalRow(b, o)]
      ensures BuiltFor(api.RemovalsWork(), old(api.ads), api.ads, b.structure, q, o, g) && FewGained(g)
      ensures EndsWith(Since(api, old(api.calls), old(api.removals), old(api.ads)),
                       Complete(b.structure), built, starts)
      ensures o == if commit then built else Interrupted
      ensures api.Lives() && commit ==> o != Interrupted
    {
      var outcome;
      outcome, g, starts := Build(q, b.structure);
      built := outcome;
      o := if commit then outcome else Interrupted;
      blueprints := blueprints[q.blueprint := FinalRow(b, o)];
    }

    /**
     `commits` says, for each of the two commits, whether it takes effect before the
     process dies.  A blueprint that passes the checks is built, and the outcome is
     that of the build if the second commit takes effect.
     */
    method ExecuteBlueprint(q: Request, commits: (bool, bool))
      returns (o: Outcome, ghost g: Gain, ghost built: Outcome, ghost starts: seq<nat>)
      requires api.Valid()
      modifies this, api
      ensures api.Valid() && Executed(api.RemovalsWork(), old(State()), State(), q, o, g) && FewGained(g)
      ensures Refusal(old(blueprints), q) == None && commits.0 ==>
                EndsWith(Since(api, old(api.calls), old(api.removals), old(api.ads)),
                         Complete(old(blueprints)[q.blueprint].structure), built, starts)
      ensures Refusal(old(blueprints), q) == None ==>
                o == if !commits.0 then NotStarted else if !commits.1 then Interrupted else built
    {
      g, built, starts := Gain({}, {}), NotStarted, [];
      if q.blueprint !in blueprints || blueprints[q.blueprint].organization != q.organization ||
         blueprints[q.blueprint].deleted {
        o := NotFound;
        return;
      }
      var b := blueprints[q.blueprint];
      if b.status == Created || b.status == Executing {
        o := Busy;
        return;
      }
      if !BudgetAllowed(b.dailyBudget) {
        o := BudgetRefused;
        return;
      }
      var duplicate := FindCreatedDuplicate(q.organization, q.customer, b.campaignName);
      if duplicate {
        o := Duplicate;
        return;
      }
      if !commits.0 {
        o := NotStarted;
        return;
      }
      blueprints := blueprints[q.blueprint := b.(customer := Some(q.customer), status := Executing)];
      o, g, built, starts := BuildAndRecord(q, blueprints[q.blueprint], commits.1);
    }
  }
}
