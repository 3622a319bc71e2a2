/** The decision engine that clamps recommendations to a policy; amounts are exact, results are in cents. */
module SafetyEngine {
  import opened Prelude
  import opened Rounding

  datatype Kind =
    | AdjustBudget | AdjustBid | PauseCampaign | EnableCampaign
    | AddKeyword | AddNegativeKeyword | CreateCampaign | OtherKind

  datatype Recommendation = Recommendation(
    kind: Kind, target: string, confidence: real, currentValue: Option<real>, proposedValue: Option<real>)

  /** Percentages as stored, between 0 and 100. */
  datatype Policy = Policy(
    maxBudgetIncrease: real, maxBudgetDecrease: real, maxBidChange: real,
    minDaysActive: int, minClicks: int, minConfidence: real)

  predicate ValidPolicy(p: Policy) {
    0.0 <= p.maxBudgetIncrease <= 100.0 && 0.0 <= p.maxBudgetDecrease <= 100.0 && 0.0 <= p.maxBidChange <= 100.0 &&
    0.0 <= p.minConfidence <= 1.0
  }

  /** What is known about a target; an unknown target has `UNKNOWN`. */
  datatype Entry = Entry(budget: Option<real>, bid: Option<real>, clicks: int, daysActive: Option<int>)

  type Context = map<string, Entry>

  const UNKNOWN := Entry(None, None, 0, None)

  datatype Decision = Decision(recommendation: Recommendation, approved: bool, adjusted: Option<int>)

  // ---------------------------------------------------------------- evaluation

  predicate Executable(k: Kind) {
    k.AdjustBudget? || k.PauseCampaign? || k.EnableCampaign? || k.AdjustBid?
  }

  /** Python's `x or y` on an optional number: zero counts as absent. */
  function Or(x: Option<real>, y: Option<real>): Option<real> {
    if x.None? || x.value == 0.0 then y else x
  }

  /** The ends of the allowed band. */
  function High(current: real, maxInc: real): real {
    current * (1.0 + maxInc / 100.0)
  }

  function Low(current: real, maxDec: real): real {
    current * (1.0 - maxDec / 100.0)
  }

  function ClampPct(current: real, proposed: real, maxInc: real, maxDec: real): real {
    if proposed >= current then Min(proposed, High(current, maxInc))
    else Max(proposed, Low(current, maxDec))
  }

  function Cents(amount: real): int {
    RoundHalfEven(amount * 100.0)
  }

  function Reject(r: Recommendation): Decision {
    Decision(r, false, None)
  }

  function Approve(r: Recommendation, adjusted: Option<int>): Decision {
    Decision(r, true, adjusted)
  }

  function DecideAmount(r: Recommendation, stored: Option<real>, maxInc: real, maxDec: real): Decision {
    var current := Or(stored, r.currentValue);
    if current.None? || r.proposedValue.None? then Reject(r)
    else Approve(r, Some(Cents(ClampPct(current.value, r.proposedValue.value, maxInc, maxDec))))
  }

  function DecidePause(p: Policy, r: Recommendation, e: Entry): Decision {
    if e.clicks < p.minClicks then Reject(r)
    else if e.daysActive.Some? && e.daysActive.value < p.minDaysActive then Reject(r)
    else Approve(r, None)
  }

  function EvaluateOne(p: Policy, r: Recommendation, ctx: Context): Decision {
    if r.confidence < p.minConfidence || !Executable(r.kind) then Reject(r)
    else
      var e := if r.target in ctx then ctx[r.target] else UNKNOWN;
      match r.kind
      case AdjustBudget => DecideAmount(r, e.budget, p.maxBudgetIncrease, p.maxBudgetDecrease)
      case AdjustBid => DecideAmount(r, e.bid, p.maxBidChange, p.maxBidChange)
      case PauseCampaign => DecidePause(p, r, e)
      case _ => Approve(r, None)
  }

  function Evaluate(p: Policy, rs: seq<Recommendation>, ctx: Context): (ds: seq<Decision>)
    ensures |ds| == |rs|
    ensures forall i :: 0 <= i < |rs| ==> ds[i].recommendation == rs[i] && (ds[i].approved ==> Executable(rs[i].kind))
  {
    seq(|rs|, i requires 0 <= i < |rs| => EvaluateOne(p, rs[i], ctx))
  }

  // ---------------------------------------------------------------- the clamp

  lemma Scaling(c: real, x: real, y: real)
    requires x <= y
    ensures c >= 0.0 ==> c * x <= c * y
    ensures c <= 0.0 ==> c * y <= c * x
  {
  }

  lemma BandSurrounds(current: real, maxInc: real, maxDec: real)
    requires current >= 0.0 && maxInc >= 0.0 && maxDec >= 0.0
    ensures Low(current, maxDec) <= current <= High(current, maxInc)
  {
    Scaling(current, 1.0, 1.0 + maxInc / 100.0);
    Scaling(current, 1.0 - maxDec / 100.0, 1.0);
  }

  /** For a non-negative current value the clamp is the nearest point of the allowed band to the proposal. */
  lemma ClampIsProjection(current: real, proposed: real, maxInc: real, maxDec: real, other: real)
    requires current >= 0.0 && maxInc >= 0.0 && maxDec >= 0.0
    ensures var x := ClampPct(current, proposed, maxInc, maxDec);
            Low(current, maxDec) <= x <= High(current, maxInc) &&
            (Low(current, maxDec) <= other <= High(current, maxInc) ==> Abs(x - proposed) <= Abs(other - proposed))
  {
    BandSurrounds(current, maxInc, maxDec);
  }

  /** No more than so many percent above or below the current figure. */
  predicate WithinPercent(x: real, current: real, maxInc: real, maxDec: real) {
    current - current * maxDec / 100.0 <= x <= current + current * maxInc / 100.0
  }

  /** `cents` is a rounding of the allowed amount that is nearest to the proposal. */
  ghost predicate NearestAllowed(cents: int, current: real, proposed: real, maxInc: real, maxDec: real) {
    exists x: real ::
      WithinPercent(x, current, maxInc, maxDec) && Abs(cents as real - x * 100.0) <= 0.5 &&
      forall y: real :: WithinPercent(y, current, maxInc, maxDec) ==> Abs(x - proposed) <= Abs(y - proposed)
  }

  lemma BandIsPercent(x: real, current: real, maxInc: real, maxDec: real)
    ensures WithinPercent(x, current, maxInc, maxDec) <==> Low(current, maxDec) <= x <= High(current, maxInc)
  {
    assert current * (1.0 + maxInc / 100.0) == current + current * maxInc / 100.0;
    assert current * (1.0 - maxDec / 100.0) == current - current * maxDec / 100.0;
  }

  lemma AmountIsNearest(r: Recommendation, stored: Option<real>, maxInc: real, maxDec: real)
    requires maxInc >= 0.0 && maxDec >= 0.0 && DecideAmount(r, stored, maxInc, maxDec).approved
    requires Or(stored, r.currentValue).value >= 0.0
    ensures var adjusted := DecideAmount(r, stored, maxInc, maxDec).adjusted;
            adjusted.Some? && r.proposedValue.Some? &&
            NearestAllowed(adjusted.value, Or(stored, r.currentValue).value, r.proposedValue.value, maxInc, maxDec)
  {
    var current, proposed := Or(stored, r.currentValue).value, r.proposedValue.value;
    var x := ClampPct(current, proposed, maxInc, maxDec);
    ClampIsProjection(current, proposed, maxInc, maxDec, x);
    RoundIsNearest(x * 100.0, 0);
    BandIsPercent(x, current, maxInc, maxDec);
    forall y: real | WithinPercent(y, current, maxInc, maxDec) ensures Abs(x - proposed) <= Abs(y - proposed) {
      BandIsPercent(y, current, maxInc, maxDec);
      ClampIsProjection(current, proposed, maxInc, maxDec, y);
    }
  }

  /** The figure a change is measured against: the stored one if it is there and not zero, else the claimed one. */
  ghost predicate Measured(stored: Option<real>, claimed: Option<real>, current: real) {
    if stored.Some? && stored.value != 0.0 then current == stored.value else claimed == Some(current)
  }

  /** What a policy asks of a recommendation, kind by kind, given what is known of its target. */
  ghost predicate Permitted(p: Policy, r: Recommendation, e: Entry) {
    r.confidence >= p.minConfidence &&
    match r.kind
    case AdjustBudget => r.proposedValue.Some? && exists current :: Measured(e.budget, r.currentValue, current)
    case AdjustBid => r.proposedValue.Some? && exists current :: Measured(e.bid, r.currentValue, current)
    case PauseCampaign =>
      e.clicks >= p.minClicks && (e.daysActive.Some? ==> e.daysActive.value >= p.minDaysActive)
    case EnableCampaign => true
    case _ => false
  }

  function Known(ctx: Context, target: string): Entry {
    if target in ctx then ctx[target] else Entry(None, None, 0, None)
  }

  lemma OrMeasures(stored: Option<real>, claimed: Option<real>)
    ensures Or(stored, claimed).Some? <==> exists current :: Measured(stored, claimed, current)
    ensures Or(stored, claimed).Some? ==> Measured(stored, claimed, Or(stored, claimed).value)
    ensures forall current :: Measured(stored, claimed, current) ==> Or(stored, claimed) == Some(current)
  {
    assert Or(stored, claimed).Some? ==> Measured(stored, claimed, Or(stored, claimed).value);
  }

  /**
   A recommendation is approved exactly if the policy permits it.  An amount is
   then the rounded allowed amount nearest to the proposal, within the budget or
   the bid limits; other kinds carry none.
   */
  lemma ApprovedIffPermitted(p: Policy, r: Recommendation, ctx: Context, current: real)
    requires ValidPolicy(p)
    ensures EvaluateOne(p, r, ctx).recommendation == r
    ensures EvaluateOne(p, r, ctx).approved <==> Permitted(p, r, Known(ctx, r.target))
    ensures !EvaluateOne(p, r, ctx).approved || (!r.kind.AdjustBudget? && !r.kind.AdjustBid?) ==>
              EvaluateOne(p, r, ctx).adjusted == None
    ensures EvaluateOne(p, r, ctx).approved && r.kind.AdjustBudget? && current >= 0.0 &&
            Measured(Known(ctx, r.target).budget, r.currentValue, current) ==>
              EvaluateOne(p, r, ctx).adjusted.Some? &&
              NearestAllowed(EvaluateOne(p, r, ctx).adjusted.value, current, r.proposedValue.value,
                             p.maxBudgetIncrease, p.maxBudgetDecrease)
    ensures EvaluateOne(p, r, ctx).approved && r.kind.AdjustBid? && current >= 0.0 &&
            Measured(Known(ctx, r.target).bid, r.currentValue, current) ==>
              EvaluateOne(p, r, ctx).adjusted.Some? &&
              NearestAllowed(EvaluateOne(p, r, ctx).adjusted.value, current, r.proposedValue.value,
                             p.maxBidChange, p.maxBidChange)
  {
    var e := Known(ctx, r.target);
    OrMeasures(e.budget, r.currentValue);
    OrMeasures(e.bid, r.currentValue);
    if EvaluateOne(p, r, ctx).approved && current >= 0.0 {
      if r.kind.AdjustBudget? && Measured(e.budget, r.currentValue, current) {
        AmountIsNearest(r, e.budget, p.maxBudgetIncrease, p.maxBudgetDecrease);
      } else if r.kind.AdjustBid? && Measured(e.bid, r.currentValue, current) {
        AmountIsNearest(r, e.bid, p.maxBidChange, p.maxBidChange);
      }
    }
  }

  /** An approved budget change for a target with a positive stored budget stays in the rounded band. */
  lemma ApprovedBudgetInBand(p: Policy, r: Recommendation, ctx: Context, budget: real)
    requires ValidPolicy(p) && r.kind.AdjustBudget? && r.target in ctx && ctx[r.target].budget == Some(budget)
    requires budget > 0.0 && EvaluateOne(p, r, ctx).approved
    ensures var adjusted := EvaluateOne(p, r, ctx).adjusted;
            adjusted.Some? &&
            Cents(Low(budget, p.maxBudgetDecrease)) <= adjusted.value <= Cents(High(budget, p.maxBudgetIncrease))
  {
    var x := ClampPct(budget, r.proposedValue.value, p.maxBudgetIncrease, p.maxBudgetDecrease);
    ClampIsProjection(budget, r.proposedValue.value, p.maxBudgetIncrease, p.maxBudgetDecrease, x);
    RoundIsMonotone(Low(budget, p.maxBudgetDecrease) * 100.0, x * 100.0);
    RoundIsMonotone(x * 100.0, High(budget, p.maxBudgetIncrease) * 100.0);
  }

  function StoredBudget(ctx: Context, target: string): real {
    if target in ctx && ctx[target].budget.Some? then ctx[target].budget.value else 0.0
  }

  /** With no stored budget a recommendation to keep its own claimed value is approved at that value. */
  lemma UncappedAmount(p: Policy, ctx: Context, r: Recommendation)
    requires ValidPolicy(p) && StoredBudget(ctx, r.target) == 0.0 && r.kind.AdjustBudget?
    requires r.confidence >= p.minConfidence && r.currentValue.Some? && r.proposedValue == r.currentValue
    requires r.currentValue.value >= 0.0
    ensures EvaluateOne(p, r, ctx) == Approve(r, Some(Cents(r.proposedValue.value)))
  {
    BandSurrounds(r.currentValue.value, p.maxBudgetIncrease, p.maxBudgetDecrease);
  }

  /** Every approved budget change for `target` lies in the band around its stored budget. */
  ghost predicate CapHolds(p: Policy, ctx: Context, target: string) {
    forall r: Recommendation :: r.kind.AdjustBudget? && r.target == target && EvaluateOne(p, r, ctx).approved ==>
      var b := StoredBudget(ctx, target);
      EvaluateOne(p, r, ctx).adjusted.Some? &&
      Cents(Low(b, p.maxBudgetDecrease)) <= EvaluateOne(p, r, ctx).adjusted.value <= Cents(High(b, p.maxBudgetIncrease))
  }

  /**
   The cap protects a target exactly when a non-zero budget is stored for it:
   otherwise the `or` falls back to the model's own figure and any amount passes.
   */
  lemma CapHoldsIffBudgetStored(p: Policy, ctx: Context, target: string)
    requires ValidPolicy(p) && StoredBudget(ctx, target) >= 0.0
    ensures CapHolds(p, ctx, target) <==> StoredBudget(ctx, target) > 0.0
  {
    var b := StoredBudget(ctx, target);
    if b > 0.0 {
      forall r: Recommendation | r.kind.AdjustBudget? && r.target == target && EvaluateOne(p, r, ctx).approved
        ensures EvaluateOne(p, r, ctx).adjusted.Some? &&
                var adjusted := EvaluateOne(p, r, ctx).adjusted.value;
                Cents(Low(b, p.maxBudgetDecrease)) <= adjusted <= Cents(High(b, p.maxBudgetIncrease))
      {
        ApprovedBudgetInBand(p, r, ctx, b);
      }
    } else {
      var r := Recommendation(AdjustBudget, target, 1.0, Some(7.0), Some(7.0));
      UncappedAmount(p, ctx, r);
      RoundOfInteger(0);
      RoundOfInteger(700);
    }
  }

  // ---------------------------------------------------------------- tightening a policy

  predicate Tighter(p: Policy, q: Policy) {
    p.maxBudgetIncrease <= q.maxBudgetIncrease && p.maxBudgetDecrease <= q.maxBudgetDecrease &&
    p.maxBidChange <= q.maxBidChange && p.minDaysActive >= q.minDaysActive && p.minClicks >= q.minClicks &&
    p.minConfidence >= q.minConfidence
  }

  predicate Between(x: real, y: real, z: real) {
    x <= y <= z || z <= y <= x
  }

  /** The end of a band moves away from `current` as its factor moves away from one. */
  lemma WiderEnd(current: real, near: real, far: real)
    requires Between(1.0, near, far)
    ensures Between(current, current * near, current * far)
  {
    if 1.0 <= near <= far {
      Scaling(current, 1.0, near);
      Scaling(current, near, far);
    } else {
      Scaling(current, near, 1.0);
      Scaling(current, far, near);
    }
  }

  lemma WiderBand(current: real, inc: real, dec: real, inc': real, dec': real)
    requires 0.0 <= inc <= inc' && 0.0 <= dec <= dec'
    ensures Between(current, High(current, inc), High(current, inc'))
    ensures Between(current, Low(current, dec), Low(current, dec'))
  {
    WiderEnd(current, 1.0 + inc / 100.0, 1.0 + inc' / 100.0);
    WiderEnd(current, 1.0 - dec / 100.0, 1.0 - dec' / 100.0);
  }

  lemma CutBetween(current: real, proposed: real, end: real, end': real)
    requires Between(current, end, end')
    ensures proposed >= current ==> Between(current, Min(proposed, end), Min(proposed, end'))
    ensures proposed < current ==> Between(current, Max(proposed, end), Max(proposed, end'))
  {
  }

  lemma TighterClampIsCloser(
    current: real, proposed: real, inc: real, dec: real, inc': real, dec': real)
    requires 0.0 <= inc <= inc' && 0.0 <= dec <= dec'
    ensures Between(current, ClampPct(current, proposed, inc, dec), ClampPct(current, proposed, inc', dec'))
  {
    WiderBand(current, inc, dec, inc', dec');
    CutBetween(current, proposed, High(current, inc), High(current, inc'));
    CutBetween(current, proposed, Low(current, dec), Low(current, dec'));
  }

  /** Rounding does not turn a closer value into a farther one. */
  lemma RoundingKeepsCloser(current: real, near: real, far: real)
    requires Between(current, near, far)
    ensures Abs(RoundHalfEven(near) as real - current) <= Abs(RoundHalfEven(far) as real - current)
  {
    RoundIsNearest(near, RoundHalfEven(far));
    RoundIsNearest(far, RoundHalfEven(near));
    if near <= far {
      RoundIsMonotone(near, far);
    } else {
      RoundIsMonotone(far, near);
    }
  }

  lemma CentsKeepCloser(current: real, near: real, far: real)
    requires Between(current, near, far)
    ensures Abs(Cents(near) as real - current * 100.0) <= Abs(Cents(far) as real - current * 100.0)
  {
    RoundingKeepsCloser(current * 100.0, near * 100.0, far * 100.0);
  }

  lemma TighterAmountIsCloser(
    r: Recommendation, stored: Option<real>, inc: real, dec: real, inc': real, dec': real)
    requires 0.0 <= inc <= inc' && 0.0 <= dec <= dec' && DecideAmount(r, stored, inc, dec).approved
    ensures DecideAmount(r, stored, inc', dec').approved
    ensures var tight := DecideAmount(r, stored, inc, dec).adjusted;
            var loose := DecideAmount(r, stored, inc', dec').adjusted;
            tight.Some? && loose.Some? &&
            Abs(tight.value as real - Or(stored, r.currentValue).value * 100.0) <=
            Abs(loose.value as real - Or(stored, r.currentValue).value * 100.0)
  {
    var c, proposed := Or(stored, r.currentValue).value, r.proposedValue.value;
    TighterClampIsCloser(c, proposed, inc, dec, inc', dec');
    CentsKeepCloser(c, ClampPct(c, proposed, inc, dec), ClampPct(c, proposed, inc', dec'));
  }

  /** The value a recommendation's amount is measured against. */
  function CurrentAmount(r: Recommendation, ctx: Context): Option<real> {
    var e := if r.target in ctx then ctx[r.target] else UNKNOWN;
    Or(if r.kind.AdjustBudget? then e.budget else e.bid, r.currentValue)
  }

  /** A tighter policy approves no more, and moves no amount further from the current value. */
  lemma TighteningIsMonotone(p: Policy, q: Policy, r: Recommendation, ctx: Context)
    requires ValidPolicy(p) && ValidPolicy(q) && Tighter(p, q) && EvaluateOne(p, r, ctx).approved
    ensures EvaluateOne(q, r, ctx).approved
    ensures EvaluateOne(p, r, ctx).adjusted.Some? <==> r.kind.AdjustBudget? || r.kind.AdjustBid?
    ensures r.kind.AdjustBudget? || r.kind.AdjustBid? ==>
              EvaluateOne(q, r, ctx).adjusted.Some? && CurrentAmount(r, ctx).Some? &&
              var current := CurrentAmount(r, ctx).value * 100.0;
              Abs(EvaluateOne(p, r, ctx).adjusted.value as real - current) <=
              Abs(EvaluateOne(q, r, ctx).adjusted.value as real - current)
  {
    var e := if r.target in ctx then ctx[r.target] else UNKNOWN;
    match r.kind
    case AdjustBudget =>
      TighterAmountIsCloser(
        r, e.budget, p.maxBudgetIncrease, p.maxBudgetDecrease, q.maxBudgetIncrease, q.maxBudgetDecrease);
    case AdjustBid =>
      TighterAmountIsCloser(r, e.bid, p.maxBidChange, p.maxBidChange, q.maxBidChange, q.maxBidChange);
    case _ =>
  }
}
