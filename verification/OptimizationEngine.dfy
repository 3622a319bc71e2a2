/** One optimization run: decide, execute, log, notify, count. */
module OptimizationEngine {
  import opened Prelude
  import opened Rounding
  import opened SafetyEngine

  /** A campaign is named by its id as the platform prints it. */
  type CampaignId = string

  datatype Status = Rejected | Pending | Executed | Failed

  datatype LogRow = LogRow(
    target: string, kind: Kind, previousValue: Option<real>, newValue: Option<int>, status: Status)

  datatype Severity = Info | Critical

  datatype ToolCall =
    | UpdateBudget(target: string, cents: int)
    | Pause(target: string)
    | Enable(target: string)

  /** How a tool call ends; a failure may come after the platform was already changed. */
  datatype Fate = Works | FailsBefore | FailsAfter

  datatype Counts = Counts(applied: nat, pending: nat, rejected: nat, failed: nat)

  /** The tool call an approved decision makes, if its kind has one. */
  function CallFor(d: Decision): Option<ToolCall> {
    var r := d.recommendation;
    if r.kind.AdjustBudget? && d.adjusted.Some? then Some(UpdateBudget(r.target, d.adjusted.value))
    else if r.kind.PauseCampaign? then Some(Pause(r.target))
    else if r.kind.EnableCampaign? then Some(Enable(r.target))
    else None
  }

  function WithCall(calls: seq<ToolCall>, d: Decision, doExecute: bool): seq<ToolCall> {
    if d.approved && doExecute && CallFor(d).Some? then calls + [CallFor(d).value] else calls
  }

  function CallsOf(ds: seq<Decision>, doExecute: bool): seq<ToolCall> {
    if ds == [] then [] else WithCall(CallsOf(ds[..|ds| - 1], doExecute), Last(ds), doExecute)
  }

  function StatusCount(logs: seq<LogRow>, s: Status): nat {
    if logs == [] then 0 else StatusCount(logs[..|logs| - 1], s) + (if Last(logs).status == s then 1 else 0)
  }

  function SeverityCount(notes: seq<Severity>, s: Severity): nat {
    if notes == [] then 0 else SeverityCount(notes[..|notes| - 1], s) + (if Last(notes) == s then 1 else 0)
  }

  function CountsOf(logs: seq<LogRow>): Counts {
    Counts(StatusCount(logs, Executed), StatusCount(logs, Pending),
           StatusCount(logs, Rejected), StatusCount(logs, Failed))
  }

  lemma {:induction false} CountsAddUp(logs: seq<LogRow>)
    ensures var c := CountsOf(logs); c.applied + c.pending + c.rejected + c.failed == |logs|
  {
    if logs == [] {
    } else {
      CountsAddUp(logs[..|logs| - 1]);
    }
  }

  function Counted(c: Counts, status: Status): Counts {
    match status
    case Executed => c.(applied := c.applied + 1)
    case Pending => c.(pending := c.pending + 1)
    case Rejected => c.(rejected := c.rejected + 1)
    case Failed => c.(failed := c.failed + 1)
  }

  function Notified(notes: seq<Severity>, status: Status): seq<Severity> {
    if status == Executed then notes + [Info] else if status == Failed then notes + [Critical] else notes
  }

  function NotesOf(logs: seq<LogRow>): seq<Severity> {
    if logs == [] then [] else Notified(NotesOf(logs[..|logs| - 1]), Last(logs).status)
  }

  /** Counts and notifications agree with the log. */
  ghost predicate Tallied(c: Counts, logs: seq<LogRow>, notes: seq<Severity>) {
    c == CountsOf(logs) && notes == NotesOf(logs)
  }

  lemma {:induction false} NotesAreCounted(logs: seq<LogRow>)
    ensures var c, notes := CountsOf(logs), NotesOf(logs);
            |notes| == c.applied + c.failed &&
            SeverityCount(notes, Info) == c.applied && SeverityCount(notes, Critical) == c.failed
  {
    if logs == [] {
    } else {
      NotesAreCounted(logs[..|logs| - 1]);
      var before := NotesOf(logs[..|logs| - 1]);
      assert NotesOf(logs) != before ==> NotesOf(logs)[..|before|] == before;
    }
  }

  lemma OneMoreTallied(c: Counts, logs: seq<LogRow>, notes: seq<Severity>, row: LogRow)
    requires Tallied(c, logs, notes)
    ensures Tallied(Counted(c, row.status), logs + [row], Notified(notes, row.status))
  {
    assert (logs + [row])[..|logs|] == logs;
  }

  // ---------------------------------------------------------------- a run, on values

  /** `canonical` is the client's reading of a target as a campaign id, `fate` tells how each tool call ends. */
  datatype Outside = Outside(canonical: string -> Option<CampaignId>, fate: nat -> Fate)

  /** Daily budgets are in micros. */
  datatype RunState = RunState(
    budgets: map<CampaignId, int>, calls: seq<ToolCall>, counts: Counts, logs: seq<LogRow>, notes: seq<Severity>)

  predicate Addresses(o: Outside, budgets: map<CampaignId, int>, target: string) {
    o.canonical(target).Some? && o.canonical(target).value in budgets
  }

  /** Call number `n` returns without raising. */
  predicate Returns(o: Outside, budgets: map<CampaignId, int>, n: nat, call: ToolCall) {
    o.fate(n) == Works && (call.UpdateBudget? ==> Addresses(o, budgets, call.target))
  }

  /** The budgets after call number `n`; pausing and enabling leave them alone. */
  function BudgetsAfter(o: Outside, budgets: map<CampaignId, int>, n: nat, call: ToolCall): map<CampaignId, int> {
    if call.UpdateBudget? && o.fate(n) != FailsBefore && Addresses(o, budgets, call.target) then
      budgets[o.canonical(call.target).value := call.cents * MICROS_PER_CENT]
    else budgets
  }

  function StatusFor(o: Outside, s: RunState, d: Decision, doExecute: bool): Status {
    if !d.approved then Rejected
    else if !doExecute || CallFor(d).None? then Pending
    else if Returns(o, s.budgets, |s.calls|, CallFor(d).value) then Executed
    else Failed
  }

  function RowFor(ctx: Context, d: Decision, status: Status): LogRow {
    var r := d.recommendation;
    LogRow(r.target, r.kind, if r.target in ctx && r.kind.AdjustBudget? then ctx[r.target].budget else None,
           d.adjusted, status)
  }

  function Processed(o: Outside, s: RunState, d: Decision, doExecute: bool, ctx: Context): RunState {
    var status := StatusFor(o, s, d, doExecute);
    RunState(
      if d.approved && doExecute && CallFor(d).Some? then BudgetsAfter(o, s.budgets, |s.calls|, CallFor(d).value)
      else s.budgets,
      WithCall(s.calls, d, doExecute), Counted(s.counts, status), s.logs + [RowFor(ctx, d, status)],
      Notified(s.notes, status))
  }

  function Start(budgets: map<CampaignId, int>): RunState {
    RunState(budgets, [], Counts(0, 0, 0, 0), [], [])
  }

  function AfterAll(
    o: Outside, budgets: map<CampaignId, int>, ds: seq<Decision>, doExecute: bool, ctx: Context): RunState
  {
    if ds == [] then Start(budgets)
    else Processed(o, AfterAll(o, budgets, ds[..|ds| - 1], doExecute, ctx), Last(ds), doExecute, ctx)
  }

  // ---------------------------------------------------------------- what a run means

  /** The amounts sent for campaign `id` by a list of tool calls. */
  ghost predicate SentTo(canonical: string -> Option<CampaignId>, calls: seq<ToolCall>, id: CampaignId, micros: int) {
    exists k :: 0 <= k < |calls| && calls[k].UpdateBudget? && canonical(calls[k].target) == Some(id) &&
                micros == calls[k].cents * MICROS_PER_CENT
  }

  /** Each budget is what it was, or an amount one of the calls sent to that campaign. */
  ghost predicate OnlySentAmounts(
    canonical: string -> Option<CampaignId>, calls: seq<ToolCall>,
    before: map<CampaignId, int>, after: map<CampaignId, int>)
  {
    after.Keys == before.Keys &&
    forall id :: id in before ==> after[id] == before[id] || SentTo(canonical, calls, id, after[id])
  }

  lemma OneMoreCall(
    canonical: string -> Option<CampaignId>, calls: seq<ToolCall>, call: ToolCall,
    before: map<CampaignId, int>, middle: map<CampaignId, int>, after: map<CampaignId, int>)
    requires OnlySentAmounts(canonical, calls, before, middle)
    requires after == middle ||
             (call.UpdateBudget? && canonical(call.target).Some? && canonical(call.target).value in middle &&
              after == middle[canonical(call.target).value := call.cents * MICROS_PER_CENT])
    ensures OnlySentAmounts(canonical, calls + [call], before, after)
  {
    forall id | id in before && after[id] != before[id] ensures SentTo(canonical, calls + [call], id, after[id]) {
      if after[id] == middle[id] {
        var k :| 0 <= k < |calls| && calls[k].UpdateBudget? && canonical(calls[k].target) == Some(id) &&
                 middle[id] == calls[k].cents * MICROS_PER_CENT;
        assert (calls + [call])[k] == calls[k];
      } else {
        assert (calls + [call])[|calls|] == call;
      }
    }
  }

  /** The calls are those the decisions ask for, the bookkeeping matches the log, and budgets changed as sent. */
  lemma {:induction false} RunAddsUp(
    o: Outside, budgets: map<CampaignId, int>, ds: seq<Decision>, doExecute: bool, ctx: Context)
    ensures var s := AfterAll(o, budgets, ds, doExecute, ctx);
            |s.logs| == |ds| && s.calls == CallsOf(ds, doExecute) && Tallied(s.counts, s.logs, s.notes) &&
            OnlySentAmounts(o.canonical, s.calls, budgets, s.budgets)
  {
    if ds == [] {
    } else {
      var d := Last(ds);
      var s := AfterAll(o, budgets, ds[..|ds| - 1], doExecute, ctx);
      RunAddsUp(o, budgets, ds[..|ds| - 1], doExecute, ctx);
      OneMoreTallied(s.counts, s.logs, s.notes, RowFor(ctx, d, StatusFor(o, s, d, doExecute)));
      if d.approved && doExecute && CallFor(d).Some? {
        OneMoreCall(
          o.canonical, s.calls, CallFor(d).value, budgets, s.budgets,
          BudgetsAfter(o, s.budgets, |s.calls|, CallFor(d).value));
      }
    }
  }

  /** The tool call that carries out a recommendation at an amount. */
  ghost predicate CarriesOut(call: ToolCall, r: Recommendation, adjusted: Option<int>) {
    match r.kind
    case AdjustBudget => adjusted.Some? && call == UpdateBudget(r.target, adjusted.value)
    case PauseCampaign => call == Pause(r.target)
    case EnableCampaign => call == Enable(r.target)
    case _ => false
  }

  /** No tool does what the decision asks for. */
  predicate NoTool(d: Decision) {
    match d.recommendation.kind
    case AdjustBudget => d.adjusted.None?
    case PauseCampaign => false
    case EnableCampaign => false
    case _ => true
  }

  /** A log row that truthfully reports what happened between `s` and `s'`. */
  ghost predicate Reports(
    o: Outside, s: RunState, s': RunState, row: LogRow, d: Decision, doExecute: bool, ctx: Context)
  {
    var r := d.recommendation;
    row.target == r.target && row.kind == r.kind && row.newValue == d.adjusted &&
    row.previousValue == (if r.kind.AdjustBudget? && r.target in ctx then ctx[r.target].budget else None) &&
    match row.status
    case Rejected => !d.approved && s'.calls == s.calls && s'.budgets == s.budgets
    case Pending =>
      d.approved && (!doExecute || NoTool(d)) && s'.calls == s.calls && s'.budgets == s.budgets
    case Executed =>
      d.approved && doExecute && |s'.calls| == |s.calls| + 1 && s.calls < s'.calls &&
      CarriesOut(Last(s'.calls), r, d.adjusted) &&
      o.fate(|s.calls|) == Works &&
      (if r.kind.AdjustBudget?
       then Addresses(o, s.budgets, r.target) && d.adjusted.Some? &&
            s'.budgets == s.budgets[o.canonical(r.target).value := d.adjusted.value * MICROS_PER_CENT]
       else s'.budgets == s.budgets)
    case Failed =>
      d.approved && doExecute && |s'.calls| == |s.calls| + 1 && s.calls < s'.calls &&
      CarriesOut(Last(s'.calls), r, d.adjusted) &&
      (o.fate(|s.calls|) == Works ==> r.kind.AdjustBudget? && !Addresses(o, s.budgets, r.target)) &&
      (o.fate(|s.calls|) != FailsAfter ==> s'.budgets == s.budgets)
  }

  lemma StepIsTruthful(o: Outside, s: RunState, d: Decision, doExecute: bool, ctx: Context)
    ensures var s' := Processed(o, s, d, doExecute, ctx);
            Reports(o, s, s', Last(s'.logs), d, doExecute, ctx)
  {
  }

  /** One row per decision in order, each reporting what became of it: executed exactly when its call returned. */
  ghost predicate Truthful(
    o: Outside, budgets: map<CampaignId, int>, ds: seq<Decision>, doExecute: bool, ctx: Context, logs: seq<LogRow>)
  {
    |logs| == |ds| &&
    forall i :: 0 <= i < |ds| ==>
      Reports(o, AfterAll(o, budgets, ds[..i], doExecute, ctx), AfterAll(o, budgets, ds[..i + 1], doExecute, ctx),
              logs[i], ds[i], doExecute, ctx)
  }

  lemma {:induction false} RowIsTruthful(
    o: Outside, budgets: map<CampaignId, int>, ds: seq<Decision>, doExecute: bool, ctx: Context, i: nat)
    requires i < |ds| && |AfterAll(o, budgets, ds, doExecute, ctx).logs| == |ds|
    ensures Reports(
              o, AfterAll(o, budgets, ds[..i], doExecute, ctx), AfterAll(o, budgets, ds[..i + 1], doExecute, ctx),
              AfterAll(o, budgets, ds, doExecute, ctx).logs[i], ds[i], doExecute, ctx)
  {
    var front := ds[..|ds| - 1];
    RunAddsUp(o, budgets, front, doExecute, ctx);
    if i == |ds| - 1 {
      assert ds[..i + 1] == ds;
      StepIsTruthful(o, AfterAll(o, budgets, front, doExecute, ctx), Last(ds), doExecute, ctx);
    } else {
      assert front[..i] == ds[..i] && front[..i + 1] == ds[..i + 1];
      RowIsTruthful(o, budgets, front, doExecute, ctx, i);
    }
  }

  lemma RowsAreTruthful(
    o: Outside, budgets: map<CampaignId, int>, ds: seq<Decision>, doExecute: bool, ctx: Context)
    ensures Truthful(o, budgets, ds, doExecute, ctx, AfterAll(o, budgets, ds, doExecute, ctx).logs)
  {
    RunAddsUp(o, budgets, ds, doExecute, ctx);
    forall i | 0 <= i < |ds|
      ensures Reports(
                o, AfterAll(o, budgets, ds[..i], doExecute, ctx), AfterAll(o, budgets, ds[..i + 1], doExecute, ctx),
                AfterAll(o, budgets, ds, doExecute, ctx).logs[i], ds[i], doExecute, ctx)
    {
      RowIsTruthful(o, budgets, ds, doExecute, ctx, i);
    }
  }

  // ---------------------------------------------------------------- campaigns that serve or are paused

  datatype Serving = Enabled | Paused

  /** What one call does to the campaigns it can address. */
  function ServingAfter(
    fate: nat -> Fate, serving: map<CampaignId, Serving>, n: nat, call: ToolCall): map<CampaignId, Serving>
  {
    if call.UpdateBudget? || fate(n) == FailsBefore || call.target !in serving then serving
    else serving[call.target := if call.Pause? then Paused else Enabled]
  }

  function ServingAfterAll(
    fate: nat -> Fate, serving: map<CampaignId, Serving>, calls: seq<ToolCall>): map<CampaignId, Serving>
  {
    if calls == [] then serving
    else ServingAfter(fate, ServingAfterAll(fate, serving, calls[..|calls| - 1]), |calls| - 1, Last(calls))
  }

  /** The row's decision was carried out, or tried, and is about whether `id` serves. */
  predicate Switches(row: LogRow, id: CampaignId) {
    (row.kind == PauseCampaign || row.kind == EnableCampaign) && row.target == id &&
    (row.status == Executed || row.status == Failed)
  }

  /** Row `i` is the last that switched, or tried to switch, `id`. */
  ghost predicate LastSwitch(logs: seq<LogRow>, id: CampaignId, i: nat) {
    i < |logs| && Switches(logs[i], id) && forall j :: i < j < |logs| ==> !Switches(logs[j], id)
  }

  /** A campaign serves as the last executed row about it asked; without any row about it nothing changed. */
  ghost predicate ServesAsLogged(
    logs: seq<LogRow>, before: map<CampaignId, Serving>, after: map<CampaignId, Serving>)
  {
    after.Keys == before.Keys &&
    forall id :: id in before ==>
      ((forall i :: 0 <= i < |logs| ==> !Switches(logs[i], id)) ==> after[id] == before[id]) &&
      forall i: nat :: LastSwitch(logs, id, i) && logs[i].status == Executed ==>
        after[id] == if logs[i].kind == PauseCampaign then Paused else Enabled
  }

  lemma OneMoreRowServes(
    logs: seq<LogRow>, row: LogRow, before: map<CampaignId, Serving>, middle: map<CampaignId, Serving>,
    after: map<CampaignId, Serving>)
    requires ServesAsLogged(logs, before, middle) && after.Keys == middle.Keys
    requires forall id :: id in middle && !Switches(row, id) ==> after[id] == middle[id]
    requires row.status == Executed && (row.kind == PauseCampaign || row.kind == EnableCampaign) &&
             row.target in middle ==>
               after[row.target] == if row.kind == PauseCampaign then Paused else Enabled
    ensures ServesAsLogged(logs + [row], before, after)
  {
    var logs' := logs + [row];
    assert logs'[|logs|] == row;
    forall id | id in before
      ensures (forall i :: 0 <= i < |logs'| ==> !Switches(logs'[i], id)) ==> after[id] == before[id]
      ensures forall i: nat :: LastSwitch(logs', id, i) && logs'[i].status == Executed ==>
                after[id] == if logs'[i].kind == PauseCampaign then Paused else Enabled
    {
      assert forall i :: 0 <= i < |logs| ==> logs'[i] == logs[i];
      forall i: nat | LastSwitch(logs', id, i) && logs'[i].status == Executed
        ensures after[id] == if logs'[i].kind == PauseCampaign then Paused else Enabled
      {
        if i < |logs| {
          assert !Switches(logs'[|logs|], id) && LastSwitch(logs, id, i);
        }
      }
    }
  }

  /** One decision, seen from the campaigns. */
  lemma StepServes(
    o: Outside, s: RunState, d: Decision, doExecute: bool, ctx: Context, middle: map<CampaignId, Serving>)
    ensures var s' := Processed(o, s, d, doExecute, ctx);
            var row := Last(s'.logs);
            var after := if s'.calls == s.calls then middle
                         else ServingAfter(o.fate, middle, |s.calls|, Last(s'.calls));
            (s'.calls == s.calls || s'.calls == s.calls + [Last(s'.calls)]) && s'.logs == s.logs + [row] &&
            after.Keys == middle.Keys &&
            (forall id :: id in middle && !Switches(row, id) ==> after[id] == middle[id]) &&
            (row.status == Executed && (row.kind == PauseCampaign || row.kind == EnableCampaign) &&
             row.target in middle ==>
               after[row.target] == if row.kind == PauseCampaign then Paused else Enabled)
  {
  }

  lemma ServingOneMore(fate: nat -> Fate, serving: map<CampaignId, Serving>, calls: seq<ToolCall>, call: ToolCall)
    ensures ServingAfterAll(fate, serving, calls + [call]) ==
            ServingAfter(fate, ServingAfterAll(fate, serving, calls), |calls|, call)
  {
    assert (calls + [call])[..|calls|] == calls;
  }

  /** The state after one decision more, for the loop. */
  lemma OneMoreDecision(
    o: Outside, budgets: map<CampaignId, int>, ds: seq<Decision>, i: nat, doExecute: bool, ctx: Context,
    serving: map<CampaignId, Serving>, calls: seq<ToolCall>)
    requires i < |ds|
    ensures AfterAll(o, budgets, ds[..i + 1], doExecute, ctx) ==
            Processed(o, AfterAll(o, budgets, ds[..i], doExecute, ctx), ds[i], doExecute, ctx)
    ensures ServingAfterAll(o.fate, serving, WithCall(calls, ds[i], doExecute)) ==
            var middle := ServingAfterAll(o.fate, serving, calls);
            if !ds[i].approved || !doExecute || CallFor(ds[i]).None? then middle
            else ServingAfter(o.fate, middle, |calls|, CallFor(ds[i]).value)
  {
    assert ds[..i + 1][..i] == ds[..i];
    if CallFor(ds[i]).Some? {
      ServingOneMore(o.fate, serving, calls, CallFor(ds[i]).value);
    }
  }

  /** After any run every campaign serves as its log says. */
  lemma {:induction false} RunServesAsLogged(
    o: Outside, budgets: map<CampaignId, int>, ds: seq<Decision>, doExecute: bool, ctx: Context,
    serving: map<CampaignId, Serving>)
    ensures var s := AfterAll(o, budgets, ds, doExecute, ctx);
            ServesAsLogged(s.logs, serving, ServingAfterAll(o.fate, serving, s.calls))
  {
    if ds == [] {
    } else {
      var front, d := ds[..|ds| - 1], Last(ds);
      RunServesAsLogged(o, budgets, front, doExecute, ctx, serving);
      var s, s' := AfterAll(o, budgets, front, doExecute, ctx), AfterAll(o, budgets, ds, doExecute, ctx);
      var middle := ServingAfterAll(o.fate, serving, s.calls);
      StepServes(o, s, d, doExecute, ctx, middle);
      if s'.calls != s.calls {
        ServingOneMore(o.fate, serving, s.calls, Last(s'.calls));
      }
      OneMoreRowServes(s.logs, Last(s'.logs), serving, middle, ServingAfterAll(o.fate, serving, s'.calls));
    }
  }

  // ---------------------------------------------------------------- the objects

  class Platform {
    var budgets: map<CampaignId, int>
    var serving: map<CampaignId, Serving>
    var calls: seq<ToolCall>
    const outside: Outside

    constructor (budgets: map<CampaignId, int>, serving: map<CampaignId, Serving>, outside: Outside)
      ensures this.budgets == budgets && this.serving == serving && this.outside == outside && calls == []
    {
      this.budgets, this.serving, this.outside, calls := budgets, serving, outside, [];
    }

    /** A budget update resolves the target and may fail before or after changing the amount. */
    method UpdateBudget(target: string, cents: int) returns (ok: bool)
      modifies `budgets, `calls
      ensures var call := ToolCall.UpdateBudget(target, cents);
              calls == old(calls) + [call] && budgets == BudgetsAfter(outside, old(budgets), |old(calls)|, call) &&
              ok == Returns(outside, old(budgets), |old(calls)|, call)
    {
      CentsSurviveMicros(cents);
      var outcome := outside.fate(|calls|);
      calls := calls + [ToolCall.UpdateBudget(target, cents)];
      var id := outside.canonical(target);
      if outcome == FailsBefore || id.None? || id.value !in budgets {
        return false;
      }
      budgets := budgets[id.value := UnitsToMicros(CentsToUnits(cents))];
      ok := outcome == Works;
    }

    /** Pausing and enabling leave every budget alone. */
    method SetStatus(call: ToolCall) returns (ok: bool)
      requires !call.UpdateBudget?
      modifies `serving, `calls
      ensures calls == old(calls) + [call] && ok == Returns(outside, budgets, |old(calls)|, call)
      ensures serving == ServingAfter(outside.fate, old(serving), |old(calls)|, call)
    {
      var outcome := outside.fate(|calls|);
      calls := calls + [call];
      if outcome != FailsBefore && call.target in serving {
        serving := serving[call.target := if call.Pause? then Paused else Enabled];
      }
      ok := outcome == Works;
    }
  }

  class Engine {
    var counts: Counts
    var logs: seq<LogRow>
    var notes: seq<Severity>

    ghost function State(platform: Platform): RunState
      reads this, platform
    {
      RunState(platform.budgets, platform.calls, counts, logs, notes)
    }

    constructor ()
      ensures counts == Counts(0, 0, 0, 0) && logs == [] && notes == []
    {
      counts, logs, notes := Counts(0, 0, 0, 0), [], [];
    }

    method Execute(d: Decision, platform: Platform) returns (status: Status)
      requires d.approved
      modifies platform
      ensures status == StatusFor(platform.outside, old(State(platform)), d, true)
      ensures platform.calls == WithCall(old(platform.calls), d, true)
      ensures platform.budgets ==
              if CallFor(d).None? then old(platform.budgets)
              else BudgetsAfter(platform.outside, old(platform.budgets), |old(platform.calls)|, CallFor(d).value)
      ensures platform.serving ==
              if CallFor(d).None? then old(platform.serving)
              else ServingAfter(platform.outside.fate, old(platform.serving), |old(platform.calls)|, CallFor(d).value)
    {
      var r := d.recommendation;
      var ok;
      if r.kind.AdjustBudget? && d.adjusted.Some? {
        ok := platform.UpdateBudget(r.target, d.adjusted.value);
      } else if r.kind.PauseCampaign? {
        ok := platform.SetStatus(Pause(r.target));
      } else if r.kind.EnableCampaign? {
        ok := platform.SetStatus(Enable(r.target));
      } else {
        return Pending;
      }
      status := if ok then Executed else Failed;
    }

    method Notify(status: Status)
      modifies `notes
      ensures notes == Notified(old(notes), status)
    {
      if status == Executed {
        notes := notes + [Info];
      } else if status == Failed {
        notes := notes + [Critical];
      }
    }

    method Process(d: Decision, doExecute: bool, ctx: Context, platform: Platform) returns (status: Status)
      modifies this`logs, this`notes, platform
      ensures status == StatusFor(platform.outside, old(State(platform)), d, doExecute)
      ensures State(platform).(counts := Counted(counts, status)) ==
              Processed(platform.outside, old(State(platform)), d, doExecute, ctx)
      ensures platform.serving ==
              if !d.approved || !doExecute || CallFor(d).None? then old(platform.serving)
              else ServingAfter(platform.outside.fate, old(platform.serving), |old(platform.calls)|, CallFor(d).value)
    {
      var r := d.recommendation;
      var previous := if r.target in ctx && r.kind.AdjustBudget? then ctx[r.target].budget else None;
      if !d.approved {
        status := Rejected;
      } else if !doExecute {
        status := Pending;
      } else {
        status := Execute(d, platform);
      }
      logs := logs + [LogRow(r.target, r.kind, previous, d.adjusted, status)];
      Notify(status);
    }

    /** Count a processed decision under its status. */
    method Count(status: Status)
      modifies `counts
      ensures counts == Counted(old(counts), status)
    {
      match status
      case Executed => counts := counts.(applied := counts.applied + 1);
      case Pending => counts := counts.(pending := counts.pending + 1);
      case Rejected => counts := counts.(rejected := counts.rejected + 1);
      case Failed => counts := counts.(failed := counts.failed + 1);
    }

    /**
     The decision loop of a completed run: one truthful log row per decision in
     order, matching counts and notifications, exactly the calls the decisions
     call for, and no budget changed except to an amount one of them sent.
     */
    method Run(ds: seq<Decision>, doExecute: bool, ctx: Context, platform: Platform)
      requires State(platform) == Start(platform.budgets)
      modifies this, platform
      ensures State(platform) == AfterAll(platform.outside, old(platform.budgets), ds, doExecute, ctx)
      ensures Truthful(platform.outside, old(platform.budgets), ds, doExecute, ctx, logs)
      ensures counts == CountsOf(logs)
      ensures counts.applied + counts.pending + counts.rejected + counts.failed == |ds|
      ensures notes == NotesOf(logs)
      ensures SeverityCount(notes, Info) == counts.applied && SeverityCount(notes, Critical) == counts.failed
      ensures |notes| == counts.applied + counts.failed
      ensures platform.calls == CallsOf(ds, doExecute)
      ensures OnlySentAmounts(platform.outside.canonical, platform.calls, old(platform.budgets), platform.budgets)
      ensures ServesAsLogged(logs, old(platform.serving), platform.serving)
    {
      ghost var o, b, serving := platform.outside, platform.budgets, platform.serving;
      for i := 0 to |ds|
        invariant State(platform) == AfterAll(o, b, ds[..i], doExecute, ctx)
        invariant platform.serving == ServingAfterAll(o.fate, serving, platform.calls)
      {
        OneMoreDecision(o, b, ds, i, doExecute, ctx, serving, platform.calls);
        var status := Process(ds[i], doExecute, ctx, platform);
        Count(status);
      }
      assert ds[..|ds|] == ds;
      RunAddsUp(o, b, ds, doExecute, ctx);
      RowsAreTruthful(o, b, ds, doExecute, ctx);
      RunServesAsLogged(o, b, ds, doExecute, ctx, serving);
      CountsAddUp(logs);
      NotesAreCounted(logs);
    }
  }
}
