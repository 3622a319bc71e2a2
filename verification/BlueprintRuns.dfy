/** Blueprint records, what one execution may do to them, and what holds over every serial run. */
module BlueprintRuns {
  import opened Prelude
  import opened AdsAccounts
  import opened Rounding

  type OrgId = string

  datatype Status = Draft | Executing | Created | Failed

  /** `dailyBudget` is stored in whole cents; the structure keeps the unrounded amount. */
  datatype Blueprint = Blueprint(
    organization: OrgId, campaignName: string, dailyBudget: int, structure: Structure,
    customer: Option<CustomerId>, status: Status, googleCampaign: Option<Id>, deleted: bool)

  datatype Request = Execute(organization: OrgId, blueprint: BlueprintId, customer: CustomerId, paused: bool)

  /** `running` is the execution between its two commits, if there is one. */
  datatype World = World(blueprints: map<BlueprintId, Blueprint>, ads: Ads, running: Option<Request>)

  /** `Interrupted` is the process dying, or a commit failing, after the first commit. */
  datatype Outcome =
    | NotFound | Busy | BudgetRefused | Duplicate | NotStarted
    | BuildFailed | Interrupted | Completed(campaign: Id)

  const SAFETY_MAX_DAILY_BUDGET: real := 1000.0

  // ---------------------------------------------------------------- budgets

  function SafeDailyBudget(recommended: real, userBudget: Option<real>): real {
    var capped := Min(recommended, SAFETY_MAX_DAILY_BUDGET);
    Max(1.0, if userBudget.Some? then Min(capped, userBudget.value) else capped)
  }

  predicate BudgetAllowed(cents: int) {
    cents > 0 && CentsToUnits(cents) <= SAFETY_MAX_DAILY_BUDGET
  }

  /** The most a plan may spend a day: the safety cap and the user's own limit, but never less than one unit. */
  function Ceiling(userBudget: Option<real>): real {
    if userBudget.None? || userBudget.value >= 1000.0 then 1000.0
    else if userBudget.value <= 1.0 then 1.0
    else userBudget.value
  }

  /** The planned budget is the allowed amount nearest to the recommended one. */
  lemma PlannedBudgetIsNearest(recommended: real, userBudget: Option<real>, other: real)
    ensures var b := SafeDailyBudget(recommended, userBudget);
            1.0 <= b <= Ceiling(userBudget) &&
            (1.0 <= other <= Ceiling(userBudget) ==> Abs(b - recommended) <= Abs(other - recommended))
  {
  }

  /** Whatever the model recommends, the planned budget respects both ceilings and passes execution's check. */
  lemma PlannedBudgetIsExecutable(recommended: real, userBudget: Option<real>)
    ensures var b := SafeDailyBudget(recommended, userBudget);
            1.0 <= b <= SAFETY_MAX_DAILY_BUDGET &&
            (userBudget.Some? ==> b <= Max(1.0, userBudget.value)) &&
            BudgetAllowed(RoundHalfEven(b * 100.0)) &&
            1_000_000 <= UnitsToMicros(b) <= 1_000_000_000
  {
    var b := SafeDailyBudget(recommended, userBudget);
    RoundIsMonotone(100.0, b * 100.0);
    RoundIsMonotone(b * 100.0, 100_000.0);
    RoundOfInteger(100);
    RoundOfInteger(100_000);
    RoundIsMonotone(1_000_000.0, b * 1_000_000.0);
    RoundIsMonotone(b * 1_000_000.0, 1_000_000_000.0);
    RoundOfInteger(1_000_000);
    RoundOfInteger(1_000_000_000);
  }

  // ---------------------------------------------------------------- one execution

  predicate SameSlot(b: Blueprint, org: OrgId, customer: CustomerId, name: string) {
    b.organization == org && b.customer == Some(customer) && b.campaignName == name && b.status == Created
  }

  /** The checks before anything is changed, in order; `None` lets the execution start. */
  ghost function Refusal(blueprints: map<BlueprintId, Blueprint>, q: Request): Option<Outcome> {
    if q.blueprint !in blueprints || blueprints[q.blueprint].organization != q.organization ||
       blueprints[q.blueprint].deleted then Some(NotFound)
    else
      var b := blueprints[q.blueprint];
      if b.status == Created || b.status == Executing then Some(Busy)
      else if !BudgetAllowed(b.dailyBudget) then Some(BudgetRefused)
      else if exists d :: d in blueprints && SameSlot(blueprints[d], q.organization, q.customer, b.campaignName)
      then Some(Duplicate)
      else None
  }

  ghost predicate AtMostOne(s: set<Id>) {
    forall x, y :: x in s && y in s ==> x == y
  }

  /** The resources an execution gained. */
  datatype Gain = Gain(budgets: set<Id>, campaigns: set<Id>)

  /** Each attempt of an execution leaves at most one budget, and campaigns only with their budgets. */
  ghost predicate FewGained(g: Gain) {
    |g.campaigns| <= |g.budgets| <= 3
  }

  /** The blueprint row an execution that got past the checks leaves. */
  function FinalRow(b: Blueprint, o: Outcome): Blueprint {
    match o
    case BuildFailed => b.(status := Failed)
    case Completed(c) => b.(status := Created, googleCampaign := Some(c))
    case _ => b.(status := Executing)
  }

  /** What an execution that got past the checks does to the platform; `working` says removals never fail. */
  ghost predicate BuiltFor(working: bool, a: Ads, a': Ads, s: Structure, q: Request, o: Outcome, g: Gain) {
    ValidAds(a') && Leftover(a, a', q.blueprint, g.budgets, g.campaigns) &&
    (working ==> AtMostOne(g.budgets) && AtMostOne(g.campaigns)) &&
    match o
    case BuildFailed => working ==> g == Gain({}, {})
    case Interrupted => true
    case Completed(c) =>
      c in g.campaigns && Complete(s) &&
      a'.campaigns[c] == Render(s, q.customer, q.blueprint, q.paused, a'.campaigns[c].budget) &&
      a'.budgets[a'.campaigns[c].budget] == Budget(q.customer, UnitsToMicros(s.dailyBudget.value))
    case _ => false
  }

  /** The first commit: the row says `executing` before anything is created. */
  function Begun(w: World, q: Request): World
    requires q.blueprint in w.blueprints
  {
    var started := w.blueprints[q.blueprint].(customer := Some(q.customer), status := Executing);
    w.(blueprints := w.blueprints[q.blueprint := started], running := Some(q))
  }

  /** The rest of the running execution, to its second commit or to the death of the process. */
  ghost predicate Ended(working: bool, w: World, w': World, o: Outcome, g: Gain) {
    w.running.Some? && w.running.value.blueprint in w.blueprints && w'.running == None &&
    var q := w.running.value;
    var b := w.blueprints[q.blueprint];
    w'.blueprints == w.blueprints[q.blueprint := FinalRow(b, o)] &&
    BuiltFor(working, w.ads, w'.ads, b.structure, q, o, g)
  }

  /** The effect of one execution. */
  ghost predicate Executed(working: bool, w: World, w': World, q: Request, o: Outcome, g: Gain) {
    var refusal := Refusal(w.blueprints, q);
    if o == NotStarted || refusal.Some? then
      (refusal.Some? ==> o == refusal.value) && w' == w
    else
      w.running == None && Ended(working, Begun(w, q), w', o, g)
  }

  // ---------------------------------------------------------------- steps of a run

  datatype Step =
    | Plan(id: BlueprintId, blueprint: Blueprint, recommended: real, userBudget: Option<real>)
    | Refuse(request: Request, refusal: Outcome)
    | Begin(request: Request)
    | End(outcome: Outcome, gain: Gain)
    | Delete(id: BlueprintId)

  /** A freshly planned blueprint: a draft whose stored and structured budgets are the same safe amount. */
  ghost predicate IsPlanned(b: Blueprint, recommended: real, userBudget: Option<real>) {
    var amount := SafeDailyBudget(recommended, userBudget);
    b.status == Draft && !b.deleted && b.googleCampaign == None && b.dailyBudget == RoundHalfEven(amount * 100.0) &&
    b.structure.dailyBudget == Some(amount) && b.structure.campaignName == Some(b.campaignName)
  }

  /** The soft deletion of a row. */
  function Deleted(w: World, id: BlueprintId): World
    requires id in w.blueprints
  {
    w.(blueprints := w.blueprints[id := w.blueprints[id].(deleted := true)])
  }

  ghost predicate Transition(working: bool, w: World, w': World, s: Step) {
    match s
    case Plan(id, b, recommended, userBudget) =>
      id !in w.blueprints && IsPlanned(b, recommended, userBudget) && w' == w.(blueprints := w.blueprints[id := b])
    case Refuse(q, o) => Refusal(w.blueprints, q) == Some(o) && w' == w
    case Begin(q) => w.running == None && Refusal(w.blueprints, q) == None && w' == Begun(w, q)
    case End(o, g) => Ended(working, w, w', o, g)
    case Delete(id) => id in w.blueprints && w' == Deleted(w, id)
  }

  /** An execution is a refusal, or nothing, or its first commit followed by its end. */
  lemma ExecutionIsSteps(working: bool, w: World, w': World, q: Request, o: Outcome, g: Gain)
    requires Executed(working, w, w', q, o, g)
    ensures || (w' == w && (o == NotStarted || Transition(working, w, w', Refuse(q, o))))
            || (q.blueprint in w.blueprints && Transition(working, w, Begun(w, q), Begin(q)) &&
                Transition(working, Begun(w, q), w', End(o, g)))
  {
    if o != NotStarted && Refusal(w.blueprints, q).None? {
      assert Transition(working, w, Begun(w, q), Begin(q));
    }
  }

  datatype History = History(worlds: seq<World>, steps: seq<Step>)

  /** One execution at a time, each possibly cut short by the process dying; `working` says removals never fail. */
  ghost predicate Continues(working: bool, w: World, h: History) {
    |h.worlds| == |h.steps| + 1 && h.worlds[0] == w &&
    forall i :: 0 <= i < |h.steps| ==> Transition(working, h.worlds[i], h.worlds[i + 1], h.steps[i])
  }

  ghost predicate Initial(w: World) {
    w.blueprints == map[] && w.ads.campaigns == map[] && w.running == None && ValidAds(w.ads)
  }

  ghost predicate ValidHistory(working: bool, h: History) {
    h.worlds != [] && Initial(h.worlds[0]) && Continues(working, h.worlds[0], h)
  }

  // ---------------------------------------------------------------- with any rollbacks

  ghost function Owned(w: World, id: BlueprintId): set<Id> {
    set c | c in w.ads.campaigns && w.ads.campaigns[c].origin == id
  }

  predicate Runs(w: World, id: BlueprintId) {
    w.running.Some? && w.running.value.blueprint == id
  }

  /** The campaign recorded for a created blueprint is the described one, with the described budget. */
  ghost predicate Realised(w: World, id: BlueprintId, c: Id)
    requires id in w.blueprints && ValidAds(w.ads)
  {
    var b := w.blueprints[id];
    b.customer.Some? && c in w.ads.campaigns && Complete(b.structure) &&
    w.ads.campaigns[c] ==
      Render(b.structure, b.customer.value, id, w.ads.campaigns[c].paused, w.ads.campaigns[c].budget) &&
    w.ads.budgets[w.ads.campaigns[c].budget] ==
      Budget(b.customer.value, UnitsToMicros(b.structure.dailyBudget.value))
  }

  ghost predicate CreatedIsRealised(w: World, id: BlueprintId)
    requires id in w.blueprints && ValidAds(w.ads)
  {
    w.blueprints[id].status.Created? ==>
      w.blueprints[id].googleCampaign.Some? && w.blueprints[id].googleCampaign.value in Owned(w, id) &&
      Realised(w, id, w.blueprints[id].googleCampaign.value)
  }

  /** No created blueprint has this one's organization, account and name. */
  ghost predicate SlotFree(w: World, id: BlueprintId)
    requires id in w.blueprints
  {
    var b := w.blueprints[id];
    b.customer.Some? &&
    forall d :: d in w.blueprints && d != id ==>
      !SameSlot(w.blueprints[d], b.organization, b.customer.value, b.campaignName)
  }

  ghost predicate SlotsUnique(w: World) {
    forall id :: id in w.blueprints && w.blueprints[id].status.Created? ==> SlotFree(w, id)
  }

  ghost predicate RunningInv(w: World) {
    w.running.Some? ==>
      var id := w.running.value.blueprint;
      id in w.blueprints && w.blueprints[id].status == Executing &&
      w.blueprints[id].organization == w.running.value.organization &&
      w.blueprints[id].customer == Some(w.running.value.customer) && SlotFree(w, id)
  }

  /** What holds whether or not rollbacks succeed. */
  ghost predicate RecordsInv(w: World) {
    ValidAds(w.ads) && (forall id :: id in w.blueprints ==> CreatedIsRealised(w, id)) && SlotsUnique(w) && RunningInv(w)
  }

  lemma BeginKeepsRecords(w: World, q: Request)
    requires RecordsInv(w) && w.running == None && Refusal(w.blueprints, q) == None
    ensures RecordsInv(Begun(w, q))
  {
    var w' := Begun(w, q);
    assert SlotFree(w', q.blueprint);
    forall id | id in w'.blueprints ensures CreatedIsRealised(w', id) {
      assert CreatedIsRealised(w, id);
      assert Owned(w', id) == Owned(w, id);
    }
    forall id | id in w'.blueprints && w'.blueprints[id].status.Created? ensures SlotFree(w', id) {
      assert SlotFree(w, id);
    }
  }

  lemma OwnedGrows(w: World, w': World, origin: BlueprintId, g: Gain, id: BlueprintId)
    requires Leftover(w.ads, w'.ads, origin, g.budgets, g.campaigns)
    ensures Owned(w', id) == Owned(w, id) + (if id == origin then g.campaigns else {})
  {
  }

  lemma EndKeepsCreated(working: bool, w: World, w': World, o: Outcome, g: Gain, id: BlueprintId)
    requires RecordsInv(w) && Ended(working, w, w', o, g) && id in w'.blueprints
    ensures CreatedIsRealised(w', id)
  {
    assert CreatedIsRealised(w, id);
    OwnedGrows(w, w', w.running.value.blueprint, g, id);
  }

  lemma EndKeepsRecords(working: bool, w: World, w': World, o: Outcome, g: Gain)
    requires RecordsInv(w) && Ended(working, w, w', o, g)
    ensures RecordsInv(w')
  {
    forall id | id in w'.blueprints ensures CreatedIsRealised(w', id) {
      EndKeepsCreated(working, w, w', o, g, id);
    }
    forall id | id in w'.blueprints && w'.blueprints[id].status.Created? ensures SlotFree(w', id) {
      assert SlotFree(w, w.running.value.blueprint);
      assert w.blueprints[id].status.Created? ==> SlotFree(w, id);
    }
  }

  lemma PlanKeepsRecords(w: World, id: BlueprintId, b: Blueprint)
    requires RecordsInv(w) && id !in w.blueprints && b.status == Draft
    ensures RecordsInv(w.(blueprints := w.blueprints[id := b]))
  {
    var w' := w.(blueprints := w.blueprints[id := b]);
    forall x | x in w'.blueprints ensures CreatedIsRealised(w', x) {
      assert x != id ==> CreatedIsRealised(w, x);
      assert Owned(w', x) == Owned(w, x);
    }
    forall x | x in w'.blueprints && w'.blueprints[x].status.Created? ensures SlotFree(w', x) {
      assert SlotFree(w, x);
    }
  }

  lemma DeleteKeepsRecords(w: World, id: BlueprintId)
    requires RecordsInv(w) && id in w.blueprints
    ensures RecordsInv(Deleted(w, id))
  {
    var w' := Deleted(w, id);
    forall x | x in w'.blueprints ensures CreatedIsRealised(w', x) {
      assert CreatedIsRealised(w, x);
      assert Owned(w', x) == Owned(w, x);
    }
    forall x | x in w'.blueprints && w'.blueprints[x].status.Created? ensures SlotFree(w', x) {
      assert SlotFree(w, x);
    }
  }

  /** Created rows stay truthful and unique whatever happens to rollbacks. */
  lemma StepKeepsRecords(working: bool, w: World, w': World, s: Step)
    requires RecordsInv(w) && Transition(working, w, w', s)
    ensures RecordsInv(w')
  {
    match s
    case Plan(id, b, _, _) => PlanKeepsRecords(w, id, b);
    case Refuse(_, _) =>
    case Begin(q) => BeginKeepsRecords(w, q);
    case End(o, g) => EndKeepsRecords(working, w, w', o, g);
    case Delete(id) => DeleteKeepsRecords(w, id);
  }

  lemma {:induction false} HistoryKeepsRecords(working: bool, h: History, k: nat)
    requires ValidHistory(working, h) && k < |h.worlds|
    ensures RecordsInv(h.worlds[k])
  {
    if k == 0 {
    } else {
      HistoryKeepsRecords(working, h, k - 1);
      StepKeepsRecords(working, h.worlds[k - 1], h.worlds[k], h.steps[k - 1]);
    }
  }

  // ---------------------------------------------------------------- with rollbacks that succeed

  ghost predicate StatusMatches(w: World, id: BlueprintId)
    requires id in w.blueprints
  {
    match w.blueprints[id].status
    case Draft => Owned(w, id) == {}
    case Failed => Owned(w, id) == {}
    case Executing => AtMostOne(Owned(w, id)) && (Runs(w, id) ==> Owned(w, id) == {})
    case Created =>
      w.blueprints[id].googleCampaign.Some? && Owned(w, id) == {w.blueprints[id].googleCampaign.value}
  }

  ghost predicate WorldInv(w: World) {
    RecordsInv(w) &&
    (forall c :: c in w.ads.campaigns ==> w.ads.campaigns[c].origin in w.blueprints) &&
    (forall id :: id in w.blueprints ==> StatusMatches(w, id))
  }

  /** With removals that work an execution gains what its outcome says. */
  lemma GainFitsOutcome(w: World, w': World, o: Outcome, g: Gain)
    requires Ended(true, w, w', o, g)
    ensures AtMostOne(g.campaigns) && (o == BuildFailed ==> g.campaigns == {})
    ensures o.Completed? ==> g.campaigns == {o.campaign}
  {
  }

  lemma OtherStatusStays(w: World, w': World, id: BlueprintId)
    requires id in w.blueprints && id in w'.blueprints && w'.blueprints[id] == w.blueprints[id]
    requires Owned(w', id) == Owned(w, id) && StatusMatches(w, id) && w'.running == None
    ensures StatusMatches(w', id)
  {
  }

  lemma OwnStatusFits(w': World, b: Blueprint, o: Outcome, g: Gain, id: BlueprintId)
    requires id in w'.blueprints && w'.blueprints[id] == FinalRow(b, o) && w'.running == None
    requires Owned(w', id) == g.campaigns && AtMostOne(g.campaigns) && (o == BuildFailed ==> g.campaigns == {})
    requires o.Completed? ==> g.campaigns == {o.campaign}
    ensures StatusMatches(w', id)
  {
  }

  lemma EndKeepsStatus(w: World, w': World, o: Outcome, g: Gain, id: BlueprintId)
    requires WorldInv(w) && Ended(true, w, w', o, g) && id in w.blueprints
    ensures StatusMatches(w', id)
  {
    OwnedGrows(w, w', w.running.value.blueprint, g, id);
    assert StatusMatches(w, id);
    if Runs(w, id) {
      GainFitsOutcome(w, w', o, g);
      OwnStatusFits(w', w.blueprints[id], o, g, id);
    } else {
      OtherStatusStays(w, w', id);
    }
  }

  lemma StepKeepsInv(w: World, w': World, s: Step)
    requires WorldInv(w) && Transition(true, w, w', s)
    ensures WorldInv(w')
  {
    StepKeepsRecords(true, w, w', s);
    forall id | id in w'.blueprints ensures StatusMatches(w', id) {
      match s
      case Plan(added, _, _, _) =>
        assert Owned(w', id) == Owned(w, id);
        assert id != added ==> StatusMatches(w, id);
      case Refuse(_, _) => assert StatusMatches(w, id);
      case Begin(_) =>
        assert Owned(w', id) == Owned(w, id);
        assert StatusMatches(w, id);
      case End(o, g) => EndKeepsStatus(w, w', o, g, id);
      case Delete(_) =>
        assert Owned(w', id) == Owned(w, id);
        assert StatusMatches(w, id);
    }
  }

  /** The same for a whole execution, from before its checks to after its last commit. */
  lemma ExecutionKeepsInv(w: World, w': World, q: Request, o: Outcome, g: Gain)
    requires WorldInv(w) && Executed(true, w, w', q, o, g)
    ensures WorldInv(w')
  {
    ExecutionIsSteps(true, w, w', q, o, g);
    if w' != w {
      StepKeepsInv(w, Begun(w, q), Begin(q));
      StepKeepsInv(Begun(w, q), w', End(o, g));
    }
  }

  lemma {:induction false} HistoryKeepsInv(h: History, k: nat)
    requires ValidHistory(true, h) && k < |h.worlds|
    ensures WorldInv(h.worlds[k])
  {
    if k == 0 {
    } else {
      HistoryKeepsInv(h, k - 1);
      StepKeepsInv(h.worlds[k - 1], h.worlds[k], h.steps[k - 1]);
    }
  }

  // ---------------------------------------------------------------- results

  /** Over any serial run with crashes anywhere, a blueprint accounts for at most one campaign in all accounts. */
  lemma OneCampaignPerBlueprint(h: History, k: nat, id: BlueprintId)
    requires ValidHistory(true, h) && k < |h.worlds| && id in h.worlds[k].blueprints
    ensures |Owned(h.worlds[k], id)| <= 1
    ensures h.worlds[k].blueprints[id].status.Draft? || h.worlds[k].blueprints[id].status.Failed? ==>
              Owned(h.worlds[k], id) == {}
    ensures h.worlds[k].blueprints[id].status.Created? ==>
              h.worlds[k].blueprints[id].googleCampaign.Some? &&
              Owned(h.worlds[k], id) == {h.worlds[k].blueprints[id].googleCampaign.value}
  {
    HistoryKeepsInv(h, k);
    var owned := Owned(h.worlds[k], id);
    assert StatusMatches(h.worlds[k], id);
    if c :| c in owned {
      assert owned == {c};
    }
  }

  /** How many executions of `id` have ended among the first `k` steps. */
  function Executions(h: History, k: nat, id: BlueprintId): nat
    requires k <= |h.steps| < |h.worlds|
  {
    if k == 0 then 0
    else Executions(h, k - 1, id) + if h.steps[k - 1].End? && Runs(h.worlds[k - 1], id) then 1 else 0
  }

  lemma OwnedStep(working: bool, w: World, w': World, s: Step, id: BlueprintId)
    requires Transition(working, w, w', s) && (s.End? ==> FewGained(s.gain))
    ensures |Owned(w', id)| <= |Owned(w, id)| + if s.End? && Runs(w, id) then 3 else 0
  {
    if s.End? {
      OwnedGrows(w, w', w.running.value.blueprint, s.gain, id);
    } else {
      assert Owned(w', id) == Owned(w, id);
    }
  }

  /** Even with failing rollbacks a blueprint owns at most as many campaigns as it was tried to be built. */
  lemma {:induction false} OwnedIsBounded(working: bool, h: History, k: nat, id: BlueprintId)
    requires ValidHistory(working, h) && k < |h.worlds|
    requires forall i :: 0 <= i < k && h.steps[i].End? ==> FewGained(h.steps[i].gain)
    ensures |Owned(h.worlds[k], id)| <= 3 * Executions(h, k, id)
  {
    if k == 0 {
      assert Owned(h.worlds[0], id) == {};
    } else {
      OwnedIsBounded(working, h, k - 1, id);
      OwnedStep(working, h.worlds[k - 1], h.worlds[k], h.steps[k - 1], id);
    }
  }

  /**
   The status moves from draft or failed to executing, and from executing to
   created or failed; no other way.  Otherwise a row changes only by deletion.
   */
  lemma StatusOnlyMovesForward(working: bool, h: History, i: nat, id: BlueprintId)
    requires ValidHistory(working, h) && i + 1 < |h.worlds| && id in h.worlds[i].blueprints
    ensures id in h.worlds[i + 1].blueprints
    ensures var w, w' := h.worlds[i], h.worlds[i + 1];
            var b, b' := w.blueprints[id], w'.blueprints[id];
            || b' == b
            || b' == b.(deleted := true)
            || ((b.status.Draft? || b.status.Failed?) && b'.status.Executing? && !Runs(w, id) && Runs(w', id))
            || (b.status.Executing? && (b'.status.Created? || b'.status.Failed?) && Runs(w, id) && !Runs(w', id))
  {
    HistoryKeepsRecords(working, h, i);
    assert Transition(working, h.worlds[i], h.worlds[i + 1], h.steps[i]);
  }

  /** `created` is terminal over whole runs, and so is `executing` once its execution was cut short. */
  lemma {:induction false} SettledBlueprintsAreFrozen(working: bool, h: History, i: nat, k: nat, id: BlueprintId)
    requires ValidHistory(working, h) && i <= k < |h.worlds| && id in h.worlds[i].blueprints
    requires h.worlds[i].blueprints[id].status.Created? ||
             (h.worlds[i].blueprints[id].status.Executing? && !Runs(h.worlds[i], id))
    ensures id in h.worlds[k].blueprints && !Runs(h.worlds[k], id)
    ensures h.worlds[k].blueprints[id] == h.worlds[i].blueprints[id].(deleted := h.worlds[k].blueprints[id].deleted)
    decreases k
  {
    HistoryKeepsRecords(working, h, i);
    if i == k {
    } else {
      SettledBlueprintsAreFrozen(working, h, i, k - 1, id);
      StatusOnlyMovesForward(working, h, k - 1, id);
      assert Transition(working, h.worlds[k - 1], h.worlds[k], h.steps[k - 1]);
    }
  }

  /** No account gets two created blueprints with one campaign name from one organization, whatever rollbacks do. */
  lemma CreatedBlueprintsDiffer(
    working: bool, h: History, k: nat, i: BlueprintId, j: BlueprintId)
    requires ValidHistory(working, h) && k < |h.worlds|
    requires i in h.worlds[k].blueprints && j in h.worlds[k].blueprints && i != j
    requires h.worlds[k].blueprints[i].status.Created? && h.worlds[k].blueprints[j].status.Created?
    ensures var b, d := h.worlds[k].blueprints[i], h.worlds[k].blueprints[j];
            b.organization != d.organization || b.customer != d.customer || b.campaignName != d.campaignName
  {
    HistoryKeepsRecords(working, h, k);
    assert SlotFree(h.worlds[k], i);
  }

  /** Even with failing rollbacks, no campaign is ever without its budget. */
  lemma NoCampaignWithoutBudget(working: bool, h: History, k: nat, c: Id)
    requires ValidHistory(working, h) && k < |h.worlds| && c in h.worlds[k].ads.campaigns
    ensures h.worlds[k].ads.campaigns[c].budget in h.worlds[k].ads.budgets
  {
    HistoryKeepsRecords(working, h, k);
  }

  lemma {:induction false} PlannedFieldsPersist(working: bool, h: History, k: nat, id: BlueprintId)
    returns (recommended: real, userBudget: Option<real>)
    requires ValidHistory(working, h) && k < |h.worlds| && id in h.worlds[k].blueprints
    ensures var amount := SafeDailyBudget(recommended, userBudget);
            h.worlds[k].blueprints[id].structure.dailyBudget == Some(amount) &&
            h.worlds[k].blueprints[id].dailyBudget == RoundHalfEven(amount * 100.0)
  {
    assert Transition(working, h.worlds[k - 1], h.worlds[k], h.steps[k - 1]);
    if id in h.worlds[k - 1].blueprints {
      recommended, userBudget := PlannedFieldsPersist(working, h, k - 1, id);
    } else {
      recommended, userBudget := h.steps[k - 1].recommended, h.steps[k - 1].userBudget;
    }
  }

  /** From planning to the platform: every created campaign spends between 1 and the safety cap per day. */
  lemma CreatedCampaignsRespectCap(working: bool, h: History, k: nat, id: BlueprintId)
    requires ValidHistory(working, h) && k < |h.worlds| && id in h.worlds[k].blueprints
    requires h.worlds[k].blueprints[id].status.Created?
    ensures var w := h.worlds[k];
            var c := w.blueprints[id].googleCampaign;
            c.Some? && c.value in w.ads.campaigns && w.ads.campaigns[c.value].budget in w.ads.budgets &&
            1_000_000 <= w.ads.budgets[w.ads.campaigns[c.value].budget].micros <= 1_000_000_000
  {
    HistoryKeepsRecords(working, h, k);
    assert CreatedIsRealised(h.worlds[k], id);
    var recommended, userBudget := PlannedFieldsPersist(working, h, k, id);
    PlannedBudgetIsExecutable(recommended, userBudget);
  }

  /** The budget never stands in the way of an execution. */
  lemma BudgetsAreAllowed(working: bool, h: History, k: nat, id: BlueprintId)
    requires ValidHistory(working, h) && k < |h.worlds| && id in h.worlds[k].blueprints
    ensures BudgetAllowed(h.worlds[k].blueprints[id].dailyBudget)
  {
    var recommended, userBudget := PlannedFieldsPersist(working, h, k, id);
    PlannedBudgetIsExecutable(recommended, userBudget);
  }

  // ---------------------------------------------------------------- who may execute, and what they get

  /** An execution that completes gives its own request's campaign: account, paused or not, and contents. */
  lemma CompletedReadsBack(working: bool, w: World, w': World, q: Request, o: Outcome, g: Gain)
    requires Executed(working, w, w', q, o, g) && o.Completed?
    ensures q.blueprint in w.blueprints && o.campaign in w'.ads.campaigns
    ensures var c := w'.ads.campaigns[o.campaign];
            c.budget in w'.ads.budgets &&
            ReadsBack(c, w'.ads.budgets[c.budget], w.blueprints[q.blueprint].structure,
                      q.customer, q.blueprint, q.paused)
    ensures w'.blueprints[q.blueprint].customer == Some(q.customer)
  {
    var s, c := w.blueprints[q.blueprint].structure, w'.ads.campaigns[o.campaign];
    assert Begun(w, q).blueprints[q.blueprint].structure == s;
    RenderReadsBack(s, q.customer, q.blueprint, q.paused, c.budget);
  }

  /** Only a request of the blueprint's own organization starts it, and only within the budget limits. */
  lemma StartedByOwner(blueprints: map<BlueprintId, Blueprint>, q: Request)
    ensures Refusal(blueprints, q) == Some(NotFound) <==>
            q.blueprint !in blueprints || blueprints[q.blueprint].organization != q.organization ||
            blueprints[q.blueprint].deleted
    ensures Refusal(blueprints, q) == None ==>
              q.blueprint in blueprints && 0 < blueprints[q.blueprint].dailyBudget <= 100_000
  {
  }

  /** An execution asked for by another organization is answered not found and changes nothing. */
  lemma ForeignExecutionIsRefused(working: bool, w: World, w': World, q: Request, o: Outcome, g: Gain)
    requires Executed(working, w, w', q, o, g)
    requires q.blueprint in w.blueprints && w.blueprints[q.blueprint].organization != q.organization
    ensures o == NotFound && w' == w
  {
    StartedByOwner(w.blueprints, q);
  }

  /** In every run: the answer to a request, each with its own condition; the budget check never fails. */
  lemma RequestIsAnswered(working: bool, h: History, k: nat, q: Request)
    requires ValidHistory(working, h) && k < |h.worlds| && q.blueprint in h.worlds[k].blueprints
    requires h.worlds[k].blueprints[q.blueprint].organization == q.organization
    requires !h.worlds[k].blueprints[q.blueprint].deleted
    ensures var blueprints := h.worlds[k].blueprints;
            var b, refusal := blueprints[q.blueprint], Refusal(blueprints, q);
            var taken := exists d :: d in blueprints && blueprints[d].organization == q.organization &&
                                     blueprints[d].customer == Some(q.customer) &&
                                     blueprints[d].campaignName == b.campaignName && blueprints[d].status == Created;
            (refusal == Some(Busy) <==> b.status == Created || b.status == Executing) &&
            (refusal == Some(Duplicate) <==> (b.status == Draft || b.status == Failed) && taken) &&
            (refusal == None <==> (b.status == Draft || b.status == Failed) && !taken)
  {
    BudgetsAreAllowed(working, h, k, q.blueprint);
    var blueprints := h.worlds[k].blueprints;
    assert forall d :: d in blueprints ==>
        (SameSlot(blueprints[d], q.organization, q.customer, blueprints[q.blueprint].campaignName) <==>
         blueprints[d].organization == q.organization && blueprints[d].customer == Some(q.customer) &&
         blueprints[d].campaignName == blueprints[q.blueprint].campaignName && blueprints[d].status == Created);
  }

  /** The request a step carries out, if it is part of an execution. */
  function CarriedOut(w: World, s: Step): Option<Request> {
    match s
    case Begin(q) => Some(q)
    case End(_, _) => w.running
    case _ => None
  }

  /** What the steps of an execution may change belongs to the organization that asked for it. */
  ghost predicate UnchangedFor(w: World, w': World, id: BlueprintId)
    requires id in w.blueprints
  {
    id in w'.blueprints && w'.blueprints[id] == w.blueprints[id].(deleted := w'.blueprints[id].deleted) &&
    Owned(w', id) == Owned(w, id) && forall c :: c in Owned(w, id) ==> w'.ads.campaigns[c] == w.ads.campaigns[c]
  }

  /**
   Over any run, a blueprint's status, account and campaigns change only in a
   step of an execution that its own organization requested for it.
   */
  lemma OnlyOwnersExecute(working: bool, h: History, i: nat, id: BlueprintId)
    requires ValidHistory(working, h) && i < |h.steps| && id in h.worlds[i].blueprints
    ensures UnchangedFor(h.worlds[i], h.worlds[i + 1], id) ||
            var q := CarriedOut(h.worlds[i], h.steps[i]);
            q.Some? && q.value.blueprint == id && q.value.organization == h.worlds[i].blueprints[id].organization
  {
    HistoryKeepsRecords(working, h, i);
    var w, w', s := h.worlds[i], h.worlds[i + 1], h.steps[i];
    assert Transition(working, w, w', s);
    if s.End? {
      OwnedGrows(w, w', w.running.value.blueprint, s.gain, id);
    } else {
      assert Owned(w', id) == Owned(w, id);
    }
  }

  // ---------------------------------------------------------------- blueprints that never move again

  lemma Extend(working: bool, w: World, h: History, w': World, s: Step) returns (h': History)
    requires Continues(working, w, h) && Transition(working, Last(h.worlds), w', s)
    ensures Continues(working, w, h') && Last(h'.worlds) == w'
  {
    h' := History(h.worlds + [w'], h.steps + [s]);
  }

  /** Whatever follows, the status of `id` stays what it is. */
  ghost predicate NeverMoves(working: bool, w: World, id: BlueprintId)
    requires id in w.blueprints
  {
    forall h :: Continues(working, w, h) ==>
      id in Last(h.worlds).blueprints && Last(h.worlds).blueprints[id].status == w.blueprints[id].status
  }

  /** Created, or cut short, or a deleted draft or failure. */
  ghost predicate Settled(w: World, id: BlueprintId)
    requires id in w.blueprints
  {
    var b := w.blueprints[id];
    match b.status
    case Created => true
    case Executing => !Runs(w, id)
    case Draft => b.deleted
    case Failed => b.deleted
  }

  lemma SettledStep(working: bool, w: World, w': World, s: Step, id: BlueprintId)
    requires RecordsInv(w) && Transition(working, w, w', s) && id in w.blueprints && Settled(w, id) && !Runs(w, id)
    ensures id in w'.blueprints && Settled(w', id) && !Runs(w', id)
    ensures w'.blueprints[id].status == w.blueprints[id].status
  {
  }

  lemma {:induction false} SettledStays(working: bool, w: World, h: History, k: nat, id: BlueprintId)
    requires RecordsInv(w) && Continues(working, w, h) && k < |h.worlds|
    requires id in w.blueprints && Settled(w, id)
    ensures RecordsInv(h.worlds[k]) && id in h.worlds[k].blueprints && Settled(h.worlds[k], id)
    ensures h.worlds[k].blueprints[id].status == w.blueprints[id].status && !Runs(h.worlds[k], id)
  {
    if k == 0 {
    } else {
      SettledStays(working, w, h, k - 1, id);
      assert Transition(working, h.worlds[k - 1], h.worlds[k], h.steps[k - 1]);
      StepKeepsRecords(working, h.worlds[k - 1], h.worlds[k], h.steps[k - 1]);
      SettledStep(working, h.worlds[k - 1], h.worlds[k], h.steps[k - 1], id);
    }
  }

  /** The running execution may end at once, having created nothing. */
  function CutShort(w: World, o: Outcome): World
    requires w.running.Some? && w.running.value.blueprint in w.blueprints
  {
    var id := w.running.value.blueprint;
    w.(blueprints := w.blueprints[id := FinalRow(w.blueprints[id], o)], running := None)
  }

  lemma CutShortIsStep(working: bool, w: World, o: Outcome)
    requires RecordsInv(w) && w.running.Some? && (o == Interrupted || o == BuildFailed)
    ensures Transition(working, w, CutShort(w, o), End(o, Gain({}, {})))
  {
  }

  /** An account that no blueprint names. */
  lemma NewCustomer(blueprints: map<BlueprintId, Blueprint>) returns (customer: CustomerId)
    ensures forall d :: d in blueprints ==> blueprints[d].customer != Some(customer)
  {
    customer := NewString(set d | d in blueprints && blueprints[d].customer.Some? :: blueprints[d].customer.value);
  }

  lemma UnsettledMoves(working: bool, w: World, id: BlueprintId) returns (h: History)
    requires RecordsInv(w) && id in w.blueprints && !Settled(w, id) && BudgetAllowed(w.blueprints[id].dailyBudget)
    ensures Continues(working, w, h) && id in Last(h.worlds).blueprints
    ensures Last(h.worlds).blueprints[id].status != w.blueprints[id].status
  {
    h := History([w], []);
    if w.blueprints[id].status == Executing {
      CutShortIsStep(working, w, BuildFailed);
      h := Extend(working, w, h, CutShort(w, BuildFailed), End(BuildFailed, Gain({}, {})));
    } else {
      if w.running.Some? {
        CutShortIsStep(working, w, Interrupted);
        h := Extend(working, w, h, CutShort(w, Interrupted), End(Interrupted, Gain({}, {})));
      }
      var idle := Last(h.worlds);
      assert idle.blueprints[id] == w.blueprints[id] && idle.running == None;
      var customer := NewCustomer(idle.blueprints);
      var q := Execute(w.blueprints[id].organization, id, customer, true);
      assert Refusal(idle.blueprints, q) == None;
      h := Extend(working, w, h, Begun(idle, q), Begin(q));
    }
  }

  /** A blueprint can still move exactly unless it is created, was cut short, or is a deleted draft or failure. */
  lemma NeverMovesIffSettled(working: bool, h: History, k: nat, id: BlueprintId)
    requires ValidHistory(working, h) && k < |h.worlds| && id in h.worlds[k].blueprints
    ensures NeverMoves(working, h.worlds[k], id) <==> Settled(h.worlds[k], id)
  {
    HistoryKeepsRecords(working, h, k);
    var w := h.worlds[k];
    if Settled(w, id) {
      forall c | Continues(working, w, c)
        ensures id in Last(c.worlds).blueprints && Last(c.worlds).blueprints[id].status == w.blueprints[id].status
      {
        SettledStays(working, w, c, |c.worlds| - 1, id);
      }
    } else {
      BudgetsAreAllowed(working, h, k, id);
      var c := UnsettledMoves(working, w, id);
    }
  }

  /** A blueprint that is executing for ever is reached from every plan by one crash. */
  lemma StuckIsReached(
    working: bool, recommended: real, userBudget: Option<real>, organization: OrgId, name: string, customer: CustomerId)
    returns (h: History, id: BlueprintId)
    ensures ValidHistory(working, h) && id in Last(h.worlds).blueprints
    ensures Last(h.worlds).blueprints[id].status == Executing && NeverMoves(working, Last(h.worlds), id)
  {
    id := 0;
    var amount := SafeDailyBudget(recommended, userBudget);
    PlannedBudgetIsExecutable(recommended, userBudget);
    var w := World(map[], Ads(map[], map[], 0), None);
    var b := Blueprint(
      organization, name, RoundHalfEven(amount * 100.0), Structure(Some(name), Some(amount), [], []), None, Draft, None,
      false);
    var planned := w.(blueprints := map[id := b]);
    var q := Execute(organization, id, customer, true);
    h := Extend(working, w, History([w], []), planned, Plan(id, b, recommended, userBudget));
    assert Refusal(planned.blueprints, q) == None;
    h := Extend(working, w, h, Begun(planned, q), Begin(q));
    HistoryKeepsRecords(working, h, |h.worlds| - 1);
    CutShortIsStep(working, Begun(planned, q), Interrupted);
    h := Extend(working, w, h, CutShort(Begun(planned, q), Interrupted), End(Interrupted, Gain({}, {})));
    NeverMovesIffSettled(working, h, |h.worlds| - 1, id);
  }
}
