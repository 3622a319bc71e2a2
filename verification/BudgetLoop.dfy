/** The budget safety loop end to end: within one run, and compounded over many runs under one policy. */
module BudgetLoop {
  import opened Prelude
  import opened Rounding
  import opened SafetyEngine
  import opened OptimizationEngine

  datatype Metric = Metric(campaign: CampaignId, clicks: int)

  function StoredEntry(m: Metric, budgets: map<CampaignId, int>): Entry {
    Entry(Some(if m.campaign in budgets then CentsToUnits(MicrosToCents(budgets[m.campaign])) else 0.0),
          None, m.clicks, None)
  }

  /** One entry per campaign with metrics; the budget is read back from the platform, 0 if it has none. */
  function BuildContext(ms: seq<Metric>, budgets: map<CampaignId, int>): Context {
    if ms == [] then map[]
    else BuildContext(ms[..|ms| - 1], budgets)[Last(ms).campaign := StoredEntry(Last(ms), budgets)]
  }

  lemma {:induction false} ContextKnowsBudgets(ms: seq<Metric>, budgets: map<CampaignId, int>, id: CampaignId)
    requires id in budgets
    ensures id in BuildContext(ms, budgets) <==> exists k :: 0 <= k < |ms| && ms[k].campaign == id
    ensures id in BuildContext(ms, budgets) ==>
              BuildContext(ms, budgets)[id].budget == Some(CentsToUnits(MicrosToCents(budgets[id])))
  {
    if ms == [] {
    } else {
      ContextKnowsBudgets(ms[..|ms| - 1], budgets, id);
      assert Last(ms) == ms[|ms| - 1];
    }
  }

  ghost predicate LastMetric(ms: seq<Metric>, id: CampaignId, k: nat) {
    k < |ms| && ms[k].campaign == id && forall j :: k < j < |ms| ==> ms[j].campaign != id
  }

  /** What the engine knows of a target: the last metrics of that name, its budget, and no bid or age. */
  lemma {:induction false} ContextIsLastMetric(ms: seq<Metric>, budgets: map<CampaignId, int>, id: CampaignId)
    ensures id in BuildContext(ms, budgets) <==> exists k :: 0 <= k < |ms| && ms[k].campaign == id
    ensures id in BuildContext(ms, budgets) ==>
              exists k: nat :: LastMetric(ms, id, k) && BuildContext(ms, budgets)[id].clicks == ms[k].clicks
    ensures id in BuildContext(ms, budgets) ==>
              var e := BuildContext(ms, budgets)[id];
              e.bid == None && e.daysActive == None &&
              e.budget == Some(if id in budgets then MicrosToCents(budgets[id]) as real / 100.0 else 0.0)
  {
    if ms == [] {
    } else {
      var front := ms[..|ms| - 1];
      ContextIsLastMetric(front, budgets, id);
      if Last(ms).campaign == id {
        assert LastMetric(ms, id, |ms| - 1);
      } else if id in BuildContext(front, budgets) {
        var k: nat :| LastMetric(front, id, k) && BuildContext(front, budgets)[id].clicks == front[k].clicks;
        assert LastMetric(ms, id, k);
      }
      if k :| 0 <= k < |ms| && ms[k].campaign == id {
        assert k == |ms| - 1 || front[k].campaign == id;
      }
    }
  }

  /** A completed run as the rest of the system sees it. */
  datatype EngineRun = EngineRun(
    metrics: seq<Metric>, recommendations: seq<Recommendation>, doExecute: bool,
    before: map<CampaignId, int>, after: map<CampaignId, int>)

  function Decisions(p: Policy, r: EngineRun): seq<Decision> {
    Evaluate(p, r.recommendations, BuildContext(r.metrics, r.before))
  }

  function Calls(p: Policy, r: EngineRun): seq<ToolCall> {
    CallsOf(Decisions(p, r), r.doExecute)
  }

  /** What `Engine.Run` guarantees of the platform. */
  ghost predicate Completed(p: Policy, canonical: string -> Option<CampaignId>, r: EngineRun) {
    OnlySentAmounts(canonical, Calls(p, r), r.before, r.after)
  }

  /** The campaign has metrics, a positive budget, and is always named by its printed id. */
  ghost predicate Protected(canonical: string -> Option<CampaignId>, r: EngineRun, id: CampaignId) {
    id in r.before && MicrosToCents(r.before[id]) > 0 &&
    (exists k :: 0 <= k < |r.metrics| && r.metrics[k].campaign == id) &&
    forall k :: 0 <= k < |r.recommendations| && canonical(r.recommendations[k].target) == Some(id) ==>
      r.recommendations[k].target == id
  }

  function BandLow(p: Policy, cents: int): int {
    Cents(Low(CentsToUnits(cents), p.maxBudgetDecrease))
  }

  function BandHigh(p: Policy, cents: int): int {
    Cents(High(CentsToUnits(cents), p.maxBudgetIncrease))
  }

  lemma {:induction false} CallsComeFromDecisions(ds: seq<Decision>, doExecute: bool, k: nat) returns (i: nat)
    requires k < |CallsOf(ds, doExecute)|
    ensures i < |ds| && doExecute && ds[i].approved && CallFor(ds[i]) == Some(CallsOf(ds, doExecute)[k])
  {
    if k < |CallsOf(ds[..|ds| - 1], doExecute)| {
      i := CallsComeFromDecisions(ds[..|ds| - 1], doExecute, k);
    } else {
      i := |ds| - 1;
    }
  }

  /** However many recommendations and failures a run has, every amount sent is within the one-run band. */
  lemma SentAmountsInBand(
    p: Policy, canonical: string -> Option<CampaignId>, r: EngineRun, id: CampaignId, k: nat)
    requires ValidPolicy(p) && Protected(canonical, r, id)
    requires k < |Calls(p, r)| && Calls(p, r)[k].UpdateBudget? && canonical(Calls(p, r)[k].target) == Some(id)
    ensures BandLow(p, MicrosToCents(r.before[id])) <= Calls(p, r)[k].cents <= BandHigh(p, MicrosToCents(r.before[id]))
  {
    var ctx := BuildContext(r.metrics, r.before);
    var i := CallsComeFromDecisions(Decisions(p, r), r.doExecute, k);
    ContextKnowsBudgets(r.metrics, r.before, id);
    ApprovedBudgetInBand(p, r.recommendations[i], ctx, CentsToUnits(MicrosToCents(r.before[id])));
  }

  /** One run leaves the budget as it was or inside the band around it. */
  lemma RunStaysInBand(
    p: Policy, canonical: string -> Option<CampaignId>, r: EngineRun, id: CampaignId)
    requires ValidPolicy(p) && Protected(canonical, r, id) && Completed(p, canonical, r)
    ensures id in r.after
    ensures var b, b' := MicrosToCents(r.before[id]), MicrosToCents(r.after[id]);
            b' == b || BandLow(p, b) <= b' <= BandHigh(p, b)
  {
    if r.after[id] != r.before[id] {
      var calls := Calls(p, r);
      var k :| 0 <= k < |calls| && calls[k].UpdateBudget? && canonical(calls[k].target) == Some(id) &&
               r.after[id] == calls[k].cents * MICROS_PER_CENT;
      SentAmountsInBand(p, canonical, r, id, k);
      CentsSurviveMicros(calls[k].cents);
    }
  }

  /** A spelling that is no context key escapes the cap: any amount is sent for it. */
  lemma UnkeyedSpellingEscapesCap(
    p: Policy, ms: seq<Metric>, budgets: map<CampaignId, int>, spelling: string, amount: real)
    requires ValidPolicy(p) && spelling !in BuildContext(ms, budgets) && amount >= 0.0
    ensures var r := Recommendation(AdjustBudget, spelling, 1.0, Some(amount), Some(amount));
            CallsOf(Evaluate(p, [r], BuildContext(ms, budgets)), true) == [UpdateBudget(spelling, Cents(amount))]
  {
    var r := Recommendation(AdjustBudget, spelling, 1.0, Some(amount), Some(amount));
    UncappedAmount(p, BuildContext(ms, budgets), r);
    var ds := Evaluate(p, [r], BuildContext(ms, budgets));
    assert ds[..0] == [] && Last(ds) == Approve(r, Some(Cents(amount)));
  }

  /** Everything a run of the engine does, from the budgets it finds. */
  function RunOf(
    p: Policy, o: Outside, ms: seq<Metric>, rs: seq<Recommendation>, doExecute: bool, budgets: map<CampaignId, int>)
    : RunState
  {
    var ctx := BuildContext(ms, budgets);
    AfterAll(o, budgets, Evaluate(p, rs, ctx), doExecute, ctx)
  }

  lemma RunIsCompleted(
    p: Policy, o: Outside, ms: seq<Metric>, rs: seq<Recommendation>, doExecute: bool, budgets: map<CampaignId, int>)
    ensures Completed(
              p, o.canonical, EngineRun(ms, rs, doExecute, budgets, RunOf(p, o, ms, rs, doExecute, budgets).budgets))
  {
    var ctx := BuildContext(ms, budgets);
    RunAddsUp(o, budgets, Evaluate(p, rs, ctx), doExecute, ctx);
  }

  ghost predicate HasMetrics(ms: seq<Metric>, id: CampaignId) {
    exists k :: 0 <= k < |ms| && ms[k].campaign == id
  }

  ghost predicate InBand(p: Policy, before: int, after: int) {
    after == before || BandLow(p, before) <= after <= BandHigh(p, before)
  }

  /** Every recommendation uses one of some names for its target. */
  ghost predicate Uses(rs: seq<Recommendation>, names: iset<string>) {
    forall k :: 0 <= k < |rs| ==> rs[k].target in names
  }

  /**
   No run whose recommendations use these names, and that sees metrics and a
   positive budget of `id`, takes the budget out of its band.
   */
  ghost predicate BandHoldsFor(
    p: Policy, canonical: string -> Option<CampaignId>, id: CampaignId, names: iset<string>)
  {
    forall fate: nat -> Fate, ms, rs, doExecute, budgets: map<CampaignId, int> ::
      Uses(rs, names) && id in budgets && MicrosToCents(budgets[id]) > 0 && HasMetrics(ms, id) ==>
        var after := RunOf(p, Outside(canonical, fate), ms, rs, doExecute, budgets).budgets;
        id in after && InBand(p, MicrosToCents(budgets[id]), MicrosToCents(after[id]))
  }

  lemma OneCentBand(p: Policy)
    requires ValidPolicy(p)
    ensures BandHigh(p, 1) <= 2
  {
    RoundIsMonotone(High(CentsToUnits(1), p.maxBudgetIncrease) * 100.0, 2.0);
    RoundOfInteger(2);
  }

  /** A run of one decision on a platform where every call works. */
  lemma OneDecisionRun(
    o: Outside, budgets: map<CampaignId, int>, d: Decision, id: CampaignId, cents: int, ctx: Context)
    requires o.fate(0) == Works && d.approved && CallFor(d) == Some(UpdateBudget(d.recommendation.target, cents))
    requires o.canonical(d.recommendation.target) == Some(id) && id in budgets
    ensures AfterAll(o, budgets, [d], true, ctx).budgets == budgets[id := cents * MICROS_PER_CENT]
  {
    assert [d][..0] == [] && Last([d]) == d;
    assert AfterAll(o, budgets, [], true, ctx) == Start(budgets);
  }

  /** One recommendation under another spelling raises a budget of one cent to seven units. */
  lemma MisspelledRun(
    p: Policy, canonical: string -> Option<CampaignId>, id: CampaignId, names: iset<string>, spelling: string)
    requires ValidPolicy(p) && canonical(spelling) == Some(id) && spelling != id && spelling in names
    ensures !BandHoldsFor(p, canonical, id, names)
  {
    var m, budgets := Metric(id, 0), map[id := MICROS_PER_CENT];
    var r := Recommendation(AdjustBudget, spelling, 1.0, Some(7.0), Some(7.0));
    var fate: nat -> Fate := n => Works;
    var o, ctx := Outside(canonical, fate), BuildContext([m], budgets);
    assert [m][..0] == [] && Last([m]) == m && BuildContext([], budgets) == map[];
    assert ctx == map[id := StoredEntry(m, budgets)];
    UncappedAmount(p, ctx, r);
    assert Evaluate(p, [r], ctx) == [Approve(r, Some(Cents(7.0)))];
    RoundOfInteger(700);
    OneDecisionRun(o, budgets, Approve(r, Some(700)), id, 700, ctx);
    CentsSurviveMicros(1);
    CentsSurviveMicros(700);
    OneCentBand(p);
    var after := RunOf(p, o, [m], [r], true, budgets).budgets;
    assert after[id] == 700 * MICROS_PER_CENT;
    assert HasMetrics([m], id) by { assert [m][0].campaign == id; }
    assert Uses([r], names);
    assert !InBand(p, 1, 700);
  }

  /** Checked before a run: the band protects a campaign exactly if no name in use but its printed id is read as it. */
  lemma BandHoldsIffSpelledAsKeyed(
    p: Policy, canonical: string -> Option<CampaignId>, id: CampaignId, names: iset<string>)
    requires ValidPolicy(p)
    ensures BandHoldsFor(p, canonical, id, names) <==>
            forall name :: name in names && canonical(name) == Some(id) ==> name == id
  {
    if name :| name in names && canonical(name) == Some(id) && name != id {
      MisspelledRun(p, canonical, id, names, name);
    } else {
      forall fate: nat -> Fate, ms, rs, doExecute, budgets: map<CampaignId, int> |
        Uses(rs, names) && id in budgets && MicrosToCents(budgets[id]) > 0 && HasMetrics(ms, id)
        ensures var after := RunOf(p, Outside(canonical, fate), ms, rs, doExecute, budgets).budgets;
                id in after && InBand(p, MicrosToCents(budgets[id]), MicrosToCents(after[id]))
      {
        var o := Outside(canonical, fate);
        RunIsCompleted(p, o, ms, rs, doExecute, budgets);
        RunStaysInBand(
          p, canonical,
          EngineRun(ms, rs, doExecute, budgets, RunOf(p, o, ms, rs, doExecute, budgets).budgets), id);
      }
    }
  }

  // ---------------------------------------------------------------- many runs

  function Pow(x: real, n: nat): real {
    if n == 0 then 1.0 else x * Pow(x, n - 1)
  }

  function Geometric(x: real, n: nat): real {
    if n == 0 then 0.0 else Geometric(x, n - 1) + Pow(x, n - 1)
  }

  lemma {:induction false} GeometricStep(x: real, n: nat)
    ensures Geometric(x, n) * x + 1.0 == Geometric(x, n + 1)
  {
    if n == 0 {
    } else {
      GeometricStep(x, n - 1);
    }
  }

  /** The bounds after `n` runs from `b0` cents: each run scales by a cap and rounds by at most half a cent. */
  function UpperBound(b0: real, growth: real, n: nat): real {
    b0 * Pow(growth, n) + 0.5 * Geometric(growth, n)
  }

  function LowerBound(b0: real, shrink: real, n: nat): real {
    b0 * Pow(shrink, n) - 0.5 * Geometric(shrink, n)
  }

  lemma UpperStep(b0: real, x: real, n: nat)
    ensures UpperBound(b0, x, n) * x + 0.5 == UpperBound(b0, x, n + 1)
  {
    GeometricStep(x, n);
  }

  lemma LowerStep(b0: real, x: real, n: nat)
    ensures LowerBound(b0, x, n) * x - 0.5 == LowerBound(b0, x, n + 1)
  {
    GeometricStep(x, n);
  }

  lemma StepUp(b: real, b': real, bound: real, factor: real)
    requires factor >= 0.0 && b <= bound && b' <= b * factor + 0.5
    ensures b' <= bound * factor + 0.5
  {
    Scaling(factor, b, bound);
  }

  lemma StepDown(b: real, b': real, bound: real, factor: real)
    requires factor >= 0.0 && bound <= b && b * factor - 0.5 <= b'
    ensures bound * factor - 0.5 <= b'
  {
    Scaling(factor, bound, b);
  }

  /** One run's change, as seen by the compounding argument. */
  ghost predicate MovesWithin(b: real, b': real, shrink: real, growth: real) {
    b * shrink - 0.5 <= b' <= b * growth + 0.5
  }

  lemma {:induction false} CompoundMoves(bs: seq<real>, shrink: real, growth: real, n: nat)
    requires shrink >= 0.0 && growth >= 0.0 && n < |bs|
    requires forall k :: 0 <= k < |bs| - 1 ==> MovesWithin(bs[k], bs[k + 1], shrink, growth)
    ensures LowerBound(bs[0], shrink, n) <= bs[n] <= UpperBound(bs[0], growth, n)
  {
    if n == 0 {
    } else {
      CompoundMoves(bs, shrink, growth, n - 1);
      assert MovesWithin(bs[n - 1], bs[n - 1 + 1], shrink, growth);
      StepUp(bs[n - 1], bs[n], UpperBound(bs[0], growth, n - 1), growth);
      StepDown(bs[n - 1], bs[n], LowerBound(bs[0], shrink, n - 1), shrink);
      UpperStep(bs[0], growth, n - 1);
      LowerStep(bs[0], shrink, n - 1);
    }
  }

  // ---------------------------------------------------------------- from runs to moves

  function Growth(p: Policy): real { 1.0 + p.maxBudgetIncrease / 100.0 }
  function Shrink(p: Policy): real { 1.0 - p.maxBudgetDecrease / 100.0 }

  /** A product by name, so that proofs can leave it alone. */
  function Scaled(b: real, factor: real): real { b * factor }

  lemma InCents(units: real, b: real, factor: real)
    requires units == b / 100.0
    ensures units * factor * 100.0 == Scaled(b, factor)
  {
  }

  lemma HighInCents(b: int, percent: real, factor: real)
    requires factor == 1.0 + percent / 100.0
    ensures Cents(High(CentsToUnits(b), percent)) == RoundHalfEven(Scaled(b as real, factor))
  {
    InCents(CentsToUnits(b), b as real, factor);
  }

  lemma LowInCents(b: int, percent: real, factor: real)
    requires factor == 1.0 - percent / 100.0
    ensures Cents(Low(CentsToUnits(b), percent)) == RoundHalfEven(Scaled(b as real, factor))
  {
    InCents(CentsToUnits(b), b as real, factor);
  }

  lemma BandInCents(p: Policy, b: int)
    ensures BandHigh(p, b) == RoundHalfEven(Scaled(b as real, Growth(p)))
    ensures BandLow(p, b) == RoundHalfEven(Scaled(b as real, Shrink(p)))
  {
    HighInCents(b, p.maxBudgetIncrease, Growth(p));
    LowInCents(b, p.maxBudgetDecrease, Shrink(p));
  }

  lemma RoundedWithinHalf(x: real, r: int)
    ensures r <= RoundHalfEven(x) ==> r as real <= x + 0.5
    ensures RoundHalfEven(x) <= r ==> x - 0.5 <= r as real
  {
    RoundIsNearest(x, r);
  }

  lemma StayingMovesWithin(b: real, shrink: real, growth: real)
    requires b >= 0.0 && shrink <= 1.0 <= growth
    ensures MovesWithin(b, b, shrink, growth)
  {
    Scaling(b, 1.0, growth);
    Scaling(b, shrink, 1.0);
  }

  lemma RoundedMovesWithin(b: real, b': int, shrink: real, growth: real)
    requires RoundHalfEven(Scaled(b, shrink)) <= b' <= RoundHalfEven(Scaled(b, growth))
    ensures MovesWithin(b, b' as real, shrink, growth)
  {
    RoundedWithinHalf(b * growth, b');
    RoundedWithinHalf(b * shrink, b');
  }

  lemma SentMovesWithin(p: Policy, b: int, b': int)
    requires BandLow(p, b) <= b' <= BandHigh(p, b)
    ensures MovesWithin(b as real, b' as real, Shrink(p), Growth(p))
  {
    BandInCents(p, b);
    RoundedMovesWithin(b as real, b', Shrink(p), Growth(p));
  }

  lemma BandMovesWithin(p: Policy, b: int, b': int)
    requires ValidPolicy(p) && b > 0
    requires b' == b || BandLow(p, b) <= b' <= BandHigh(p, b)
    ensures MovesWithin(b as real, b' as real, Shrink(p), Growth(p))
  {
    if b' == b {
      StayingMovesWithin(b as real, Shrink(p), Growth(p));
    } else {
      SentMovesWithin(p, b, b');
    }
  }

  lemma RunMovesWithin(
    p: Policy, canonical: string -> Option<CampaignId>, r: EngineRun, id: CampaignId)
    requires ValidPolicy(p) && Protected(canonical, r, id) && Completed(p, canonical, r)
    ensures id in r.after
    ensures MovesWithin(MicrosToCents(r.before[id]) as real, MicrosToCents(r.after[id]) as real, Shrink(p), Growth(p))
  {
    RunStaysInBand(p, canonical, r, id);
    BandMovesWithin(p, MicrosToCents(r.before[id]), MicrosToCents(r.after[id]));
  }

  /** Consecutive runs with no outside edits, protecting `id` every time; `cents[k]` is its budget before run k. */
  ghost predicate ValidRuns(
    p: Policy, canonical: string -> Option<CampaignId>, rs: seq<EngineRun>, id: CampaignId, cents: seq<int>)
  {
    |cents| == |rs| + 1 &&
    forall k :: 0 <= k < |rs| ==>
      Protected(canonical, rs[k], id) && Completed(p, canonical, rs[k]) && id in rs[k].after &&
      cents[k] == MicrosToCents(rs[k].before[id]) && cents[k + 1] == MicrosToCents(rs[k].after[id])
  }

  /** After n runs the budget, in cents, lies between the compounded caps with half a cent of rounding per run. */
  lemma CompoundedBounds(
    p: Policy, canonical: string -> Option<CampaignId>, rs: seq<EngineRun>, id: CampaignId, cents: seq<int>, n: nat)
    requires ValidPolicy(p) && ValidRuns(p, canonical, rs, id, cents) && n <= |rs|
    ensures LowerBound(cents[0] as real, Shrink(p), n) <= cents[n] as real <= UpperBound(cents[0] as real, Growth(p), n)
  {
    var bs := seq(|cents|, k requires 0 <= k < |cents| => cents[k] as real);
    forall k | 0 <= k < |bs| - 1 ensures MovesWithin(bs[k], bs[k + 1], Shrink(p), Growth(p)) {
      RunMovesWithin(p, canonical, rs[k], id);
    }
    CompoundMoves(bs, Shrink(p), Growth(p), n);
  }

  // ---------------------------------------------------------------- the code of one run

  lemma RowsNameRecommendations(
    o: Outside, budgets: map<CampaignId, int>, ds: seq<Decision>, doExecute: bool, ctx: Context, logs: seq<LogRow>,
    rs: seq<Recommendation>)
    requires Truthful(o, budgets, ds, doExecute, ctx, logs) && |ds| == |rs|
    requires forall i :: 0 <= i < |ds| ==> ds[i].recommendation == rs[i]
    ensures |logs| == |rs| && forall i :: 0 <= i < |rs| ==> logs[i].target == rs[i].target && logs[i].kind == rs[i].kind
  {
    forall i | 0 <= i < |rs| ensures logs[i].target == rs[i].target && logs[i].kind == rs[i].kind {
      assert Reports(
          o, AfterAll(o, budgets, ds[..i], doExecute, ctx), AfterAll(o, budgets, ds[..i + 1], doExecute, ctx),
          logs[i], ds[i], doExecute, ctx);
    }
  }

  /** Read budgets back, evaluate, and execute: a run of the engine is a completed run as above. */
  method Optimize(
    engine: Engine, platform: Platform, p: Policy, ms: seq<Metric>, rs: seq<Recommendation>, doExecute: bool)
    requires engine.State(platform) == Start(platform.budgets)
    modifies engine, platform
    ensures engine.State(platform) == RunOf(p, platform.outside, ms, rs, doExecute, old(platform.budgets))
    ensures Completed(
              p, platform.outside.canonical,
              EngineRun(ms, rs, doExecute, old(platform.budgets), platform.budgets))
    ensures |engine.logs| == |rs| &&
            forall i :: 0 <= i < |rs| ==> engine.logs[i].target == rs[i].target && engine.logs[i].kind == rs[i].kind
    ensures engine.counts == CountsOf(engine.logs)
    ensures ServesAsLogged(engine.logs, old(platform.serving), platform.serving)
  {
    var ctx := BuildContext(ms, platform.budgets);
    var decisions := Evaluate(p, rs, ctx);
    ghost var budgets := platform.budgets;
    engine.Run(decisions, doExecute, ctx, platform);
    RowsNameRecommendations(platform.outside, budgets, decisions, doExecute, ctx, engine.logs, rs);
  }
}
