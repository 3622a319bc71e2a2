/** Stored metric snapshots: one row per campaign and day, and the query for the latest of each campaign. */
module Snapshots {
  import opened Prelude

  type OrgId = nat

  /** Amounts are in hundredths, as the columns store them. */
  datatype Values = Values(impressions: int, clicks: int, cost: int, conversions: int, conversionsValue: int)
  datatype Row = Row(org: OrgId, customer: string, campaign: string, day: int, values: Values)
  datatype Metric = Metric(campaign: string, values: Values)

  predicate SameKey(a: Row, b: Row) {
    a.org == b.org && a.customer == b.customer && a.campaign == b.campaign && a.day == b.day
  }

  // ---------------------------------------------------------------- storing

  function Find(rows: seq<Row>, row: Row): (at: Option<nat>)
    ensures at.Some? ==> at.value < |rows| && SameKey(rows[at.value], row)
    ensures at.None? ==> forall i :: 0 <= i < |rows| ==> !SameKey(rows[i], row)
  {
    if rows == [] then None
    else
      var front := Find(rows[..|rows| - 1], row);
      if front.Some? then front
      else if SameKey(Last(rows), row) then Some(|rows| - 1)
      else None
  }

  function Upsert(rows: seq<Row>, row: Row): seq<Row> {
    var at := Find(rows, row);
    if at.Some? then rows[at.value := rows[at.value].(values := row.values)] else rows + [row]
  }

  function UpsertAll(rows: seq<Row>, us: seq<Row>): seq<Row> {
    if us == [] then rows else Upsert(UpsertAll(rows, us[..|us| - 1]), Last(us))
  }

  /** One fetch writes every metric it got under the day it ran. */
  function Fetched(org: OrgId, customer: string, day: int, metrics: seq<Metric>): seq<Row> {
    seq(|metrics|, i requires 0 <= i < |metrics| => Row(org, customer, metrics[i].campaign, day, metrics[i].values))
  }

  // ---------------------------------------------------------------- the latest rows

  /** In an organization, of one account or of all. */
  predicate InScope(r: Row, org: OrgId, scope: Option<string>) {
    r.org == org && (scope.Some? ==> r.customer == scope.value)
  }

  /** `r` has the largest day of its campaign within the scope. */
  predicate IsLatest(r: Row, rows: seq<Row>, org: OrgId, scope: Option<string>) {
    InScope(r, org, scope) &&
    forall other :: other in rows && InScope(other, org, scope) && other.campaign == r.campaign ==> other.day <= r.day
  }

  function Selected(part: seq<Row>, rows: seq<Row>, org: OrgId, scope: Option<string>): (found: seq<Row>)
    ensures forall r :: r in found <==> r in part && IsLatest(r, rows, org, scope)
  {
    if part == [] then []
    else
      var front := Selected(part[..|part| - 1], rows, org, scope);
      if IsLatest(Last(part), rows, org, scope) then front + [Last(part)] else front
  }

  function Latest(rows: seq<Row>, org: OrgId, scope: Option<string>): seq<Row> {
    Selected(rows, rows, org, scope)
  }

  // ---------------------------------------------------------------- the meaning

  /** The last row written for each campaign in the scope. */
  function LastMention(us: seq<Row>, org: OrgId, scope: Option<string>): map<string, Row> {
    if us == [] then map[]
    else
      var front := LastMention(us[..|us| - 1], org, scope);
      if InScope(Last(us), org, scope) then front[Last(us).campaign := Last(us)] else front
  }

  ghost predicate DaysPass(us: seq<Row>) {
    forall i, j :: 0 <= i < j < |us| ==> us[i].day <= us[j].day
  }

  /** On its largest day within the scope, no campaign was written for two accounts. */
  ghost predicate OneAccountEach(us: seq<Row>, org: OrgId, scope: Option<string>) {
    forall u, v ::
      u in us && v in us && IsLatest(u, us, org, scope) && IsLatest(v, us, org, scope) && u.campaign == v.campaign ==>
        u.customer == v.customer
  }

  ghost predicate OneRowPerKey(rows: seq<Row>) {
    forall i, j :: 0 <= i < j < |rows| ==> !SameKey(rows[i], rows[j])
  }

  ghost predicate OneRowPerCampaign(rows: seq<Row>) {
    forall i, j :: 0 <= i < j < |rows| ==> rows[i].campaign != rows[j].campaign
  }

  lemma UpsertMembers(rows: seq<Row>, u: Row)
    requires OneRowPerKey(rows)
    ensures OneRowPerKey(Upsert(rows, u))
    ensures forall r :: r in Upsert(rows, u) <==> r == u || (r in rows && !SameKey(r, u))
  {
    var at, rows' := Find(rows, u), Upsert(rows, u);
    if at.Some? {
      assert rows'[at.value] == u;
      forall r ensures r in rows' <==> r == u || (r in rows && !SameKey(r, u)) {
        if r in rows && !SameKey(r, u) {
          var i :| 0 <= i < |rows| && rows[i] == r;
          assert rows'[i] == r;
        }
        if r in rows' && r != u {
          var i :| 0 <= i < |rows'| && rows'[i] == r;
          assert i != at.value && rows[i] == r;
        }
      }
    } else {
      assert rows'[|rows|] == u;
    }
  }

  /** `r` is the last write of its key. */
  ghost predicate LastOfKey(us: seq<Row>, r: Row, i: nat) {
    i < |us| && us[i] == r && forall j :: i < j < |us| ==> !SameKey(us[j], r)
  }

  /** After any writes there is one row for each key ever written, and it is the last write of that key. */
  lemma {:induction false} WrittenRows(us: seq<Row>)
    ensures OneRowPerKey(UpsertAll([], us))
    ensures forall r :: r in UpsertAll([], us) ==> exists i: nat :: LastOfKey(us, r, i)
    ensures forall u :: u in us ==> exists r :: r in UpsertAll([], us) && SameKey(r, u)
  {
    if us == [] {
    } else {
      var front, u := us[..|us| - 1], Last(us);
      WrittenRows(front);
      var rows, rows' := UpsertAll([], front), UpsertAll([], us);
      UpsertMembers(rows, u);
      assert front + [u] == us;
      forall r | r in rows' ensures exists i: nat :: LastOfKey(us, r, i) {
        if r == u {
          assert LastOfKey(us, r, |us| - 1);
        } else {
          var i: nat :| LastOfKey(front, r, i);
          assert LastOfKey(us, r, i);
        }
      }
      forall w | w in us ensures exists r :: r in rows' && SameKey(r, w) {
        if SameKey(w, u) {
          assert u in rows';
        } else {
          var r :| r in rows && SameKey(r, w);
          assert r in rows';
        }
      }
    }
  }

  /** The last write of a key is stored. */
  lemma StoredIsLastWrite(us: seq<Row>, r: Row, i: nat)
    requires LastOfKey(us, r, i)
    ensures r in UpsertAll([], us)
  {
    WrittenRows(us);
    assert us[i] in us;
    var stored :| stored in UpsertAll([], us) && SameKey(stored, r);
    var k: nat :| LastOfKey(us, stored, k);
    assert k == i;
  }

  /** A fetch stores each metric it got last for a campaign, for this organization, account and day. */
  lemma FetchIsStored(us: seq<Row>, org: OrgId, customer: string, day: int, metrics: seq<Metric>, i: nat)
    requires i < |metrics| && forall j :: i < j < |metrics| ==> metrics[j].campaign != metrics[i].campaign
    ensures var rows := UpsertAll([], us + Fetched(org, customer, day, metrics));
            exists r :: r in rows && r.org == org && r.customer == customer && r.day == day &&
                        r.campaign == metrics[i].campaign && r.values == metrics[i].values
  {
    var all := us + Fetched(org, customer, day, metrics);
    var r := Row(org, customer, metrics[i].campaign, day, metrics[i].values);
    assert LastOfKey(all, r, |us| + i) by {
      assert all[|us| + i] == r;
      forall j | |us| + i < j < |all| ensures !SameKey(all[j], r) {
        assert all[j].campaign == metrics[j - |us|].campaign;
      }
    }
    StoredIsLastWrite(all, r, |us| + i);
  }

  /** A fetch leaves the rows of other organizations, accounts and days as they were. */
  lemma FetchSparesOthers(us: seq<Row>, org: OrgId, customer: string, day: int, metrics: seq<Metric>, r: Row)
    requires r in UpsertAll([], us) && (r.org != org || r.customer != customer || r.day != day)
    ensures r in UpsertAll([], us + Fetched(org, customer, day, metrics))
  {
    WrittenRows(us);
    var all := us + Fetched(org, customer, day, metrics);
    var i: nat :| LastOfKey(us, r, i);
    assert LastOfKey(all, r, i);
    StoredIsLastWrite(all, r, i);
  }

  /** The query selects among the rows as it would among the writes. */
  lemma LatestAmongWrites(us: seq<Row>, org: OrgId, scope: Option<string>, r: Row)
    ensures IsLatest(r, UpsertAll([], us), org, scope) <==> IsLatest(r, us, org, scope)
  {
    WrittenRows(us);
    var rows := UpsertAll([], us);
    forall other | other in rows ensures other in us {
      var i: nat :| LastOfKey(us, other, i);
    }
  }

  lemma {:induction false} SelectedAreDistinct(part: seq<Row>, rows: seq<Row>, org: OrgId, scope: Option<string>)
    requires OneRowPerKey(part)
    ensures OneRowPerKey(Selected(part, rows, org, scope))
  {
    if part == [] {
    } else {
      var front := part[..|part| - 1];
      SelectedAreDistinct(front, rows, org, scope);
      forall r | r in front ensures !SameKey(r, Last(part)) {
        var i :| 0 <= i < |front| && front[i] == r;
        assert part[i] == r;
      }
    }
  }

  lemma LatestRowIsWritten(us: seq<Row>, org: OrgId, scope: Option<string>, r: Row)
    requires r in Latest(UpsertAll([], us), org, scope)
    ensures r in us && IsLatest(r, us, org, scope)
  {
    WrittenRows(us);
    LatestAmongWrites(us, org, scope, r);
    var i: nat :| LastOfKey(us, r, i);
  }

  /** The query shows an organization, or one of its accounts, only rows written for it. */
  lemma LatestIsOwn(us: seq<Row>, org: OrgId, scope: Option<string>)
    ensures forall r :: r in Latest(UpsertAll([], us), org, scope) ==>
              r in us && r.org == org && (scope == None || scope == Some(r.customer))
  {
    forall r | r in Latest(UpsertAll([], us), org, scope) ensures r in us {
      LatestRowIsWritten(us, org, scope, r);
    }
  }

  /** Some write of a campaign is on its largest day. */
  lemma {:induction false} SomeLatest(us: seq<Row>, org: OrgId, scope: Option<string>, u: Row) returns (v: Row)
    requires u in us && InScope(u, org, scope)
    ensures v in us && v.campaign == u.campaign && IsLatest(v, us, org, scope)
  {
    var front, w := us[..|us| - 1], Last(us);
    assert us == front + [w];
    if exists x :: x in front && InScope(x, org, scope) && x.campaign == u.campaign {
      var x :| x in front && InScope(x, org, scope) && x.campaign == u.campaign;
      v := SomeLatest(front, org, scope, x);
      if InScope(w, org, scope) && w.campaign == u.campaign && w.day > v.day {
        v := w;
      }
    } else {
      v := u;
    }
  }

  /** The selected row of a write on its campaign's largest day. */
  lemma StoredLatest(us: seq<Row>, org: OrgId, scope: Option<string>, u: Row) returns (r: Row)
    requires u in us && IsLatest(u, us, org, scope)
    ensures r in Latest(UpsertAll([], us), org, scope) && SameKey(r, u)
  {
    WrittenRows(us);
    r :| r in UpsertAll([], us) && SameKey(r, u);
    LatestAmongWrites(us, org, scope, r);
  }

  /** Every campaign ever written in the scope is in the answer. */
  lemma LatestIsComplete(us: seq<Row>, org: OrgId, scope: Option<string>, u: Row)
    requires u in us && u.org == org && (scope == None || scope == Some(u.customer))
    ensures exists r :: r in Latest(UpsertAll([], us), org, scope) && r.campaign == u.campaign && r.day >= u.day
  {
    var v := SomeLatest(us, org, scope, u);
    var r := StoredLatest(us, org, scope, v);
  }

  /**
   * The query returns one row per campaign if and only if no campaign was written for two accounts on its largest
   * day; within the scope of one account it always does.
   */
  lemma OneRowIffOneAccount(us: seq<Row>, org: OrgId, scope: Option<string>)
    ensures OneRowPerCampaign(Latest(UpsertAll([], us), org, scope)) <==> OneAccountEach(us, org, scope)
    ensures scope.Some? ==> OneAccountEach(us, org, scope)
  {
    var rows := UpsertAll([], us);
    var latest := Latest(rows, org, scope);
    WrittenRows(us);
    SelectedAreDistinct(rows, rows, org, scope);
    if OneAccountEach(us, org, scope) {
      forall i, j | 0 <= i < j < |latest| ensures latest[i].campaign != latest[j].campaign {
        LatestRowIsWritten(us, org, scope, latest[i]);
        LatestRowIsWritten(us, org, scope, latest[j]);
        assert !SameKey(latest[i], latest[j]);
      }
    }
    if OneRowPerCampaign(latest) {
      forall u, v | u in us && v in us && IsLatest(u, us, org, scope) && IsLatest(v, us, org, scope) &&
                    u.campaign == v.campaign
        ensures u.customer == v.customer
      {
        var r := StoredLatest(us, org, scope, u);
        var q := StoredLatest(us, org, scope, v);
        var i :| 0 <= i < |latest| && latest[i] == r;
        var j :| 0 <= j < |latest| && latest[j] == q;
        assert i == j;
      }
    }
  }

  /** `u` is the last write of its campaign in the scope. */
  ghost predicate LastOfCampaign(us: seq<Row>, org: OrgId, scope: Option<string>, u: Row, i: nat) {
    i < |us| && us[i] == u && InScope(u, org, scope) &&
    forall j :: i < j < |us| && InScope(us[j], org, scope) ==> us[j].campaign != u.campaign
  }

  lemma {:induction false} MentionIsLast(us: seq<Row>, org: OrgId, scope: Option<string>, campaign: string)
    ensures var last := LastMention(us, org, scope);
            campaign in last ==>
              last[campaign].campaign == campaign && exists i: nat :: LastOfCampaign(us, org, scope, last[campaign], i)
    ensures campaign in LastMention(us, org, scope) <==>
            exists u :: u in us && InScope(u, org, scope) && u.campaign == campaign
  {
    if us == [] {
    } else {
      var front, u := us[..|us| - 1], Last(us);
      MentionIsLast(front, org, scope, campaign);
      var last, last' := LastMention(front, org, scope), LastMention(us, org, scope);
      assert front + [u] == us;
      if InScope(u, org, scope) && u.campaign == campaign {
        assert LastOfCampaign(us, org, scope, u, |us| - 1);
      } else if campaign in last {
        var i: nat :| LastOfCampaign(front, org, scope, last[campaign], i);
        assert LastOfCampaign(us, org, scope, last[campaign], i);
      }
    }
  }

  /** On passing days the last write of a campaign is on its largest day. */
  lemma LastIsLatest(us: seq<Row>, org: OrgId, scope: Option<string>, u: Row, i: nat)
    requires DaysPass(us) && LastOfCampaign(us, org, scope, u, i)
    ensures IsLatest(u, us, org, scope)
  {
    forall other | other in us && InScope(other, org, scope) && other.campaign == u.campaign
      ensures other.day <= u.day
    {
      var j :| 0 <= j < |us| && us[j] == other;
    }
  }

  lemma LatestRowIsMention(us: seq<Row>, org: OrgId, scope: Option<string>, r: Row)
    requires DaysPass(us) && OneAccountEach(us, org, scope) && r in Latest(UpsertAll([], us), org, scope)
    ensures r.campaign in LastMention(us, org, scope) && r == LastMention(us, org, scope)[r.campaign]
  {
    LatestRowIsWritten(us, org, scope, r);
    MentionIsLast(us, org, scope, r.campaign);
    WrittenRows(us);
    var u := LastMention(us, org, scope)[r.campaign];
    var i: nat :| LastOfCampaign(us, org, scope, u, i);
    LastIsLatest(us, org, scope, u, i);
    assert u in us && SameKey(r, u);
    var k: nat :| LastOfKey(us, r, k);
    assert k == i;
  }

  /**
   * After any writes on passing days, the query returns one row for each campaign ever written in its scope, and it
   * is the row that was written last, unless it returns two rows for a campaign.
   */
  lemma LatestIsLastMention(us: seq<Row>, org: OrgId, scope: Option<string>)
    requires DaysPass(us) && OneAccountEach(us, org, scope)
    ensures var latest, last := Latest(UpsertAll([], us), org, scope), LastMention(us, org, scope);
            OneRowPerCampaign(latest) &&
            (forall r :: r in latest <==> r.campaign in last && r == last[r.campaign])
  {
    OneRowIffOneAccount(us, org, scope);
    var latest, last := Latest(UpsertAll([], us), org, scope), LastMention(us, org, scope);
    forall r ensures r in latest <==> r.campaign in last && r == last[r.campaign] {
      if r in latest {
        LatestRowIsMention(us, org, scope, r);
      } else if r.campaign in last && r == last[r.campaign] {
        MentionIsLast(us, org, scope, r.campaign);
        var i: nat :| LastOfCampaign(us, org, scope, r, i);
        LastIsLatest(us, org, scope, r, i);
        var q := StoredLatest(us, org, scope, r);
        LatestRowIsMention(us, org, scope, q);
      }
    }
  }

  /** Without that condition an organization-wide query can return two rows for one campaign. */
  lemma SharedIdGivesTwoRows(a: Row, b: Row)
    requires a.org == b.org && a.campaign == b.campaign && a.day == b.day && a.customer != b.customer
    ensures Latest(UpsertAll([], [a, b]), a.org, None) == [a, b]
  {
    assert [a, b][..1] == [a] && [a][..0] == [];
    assert UpsertAll([], [a]) == [a];
    assert UpsertAll([], [a, b]) == [a, b];
    assert Selected([a], [a, b], a.org, None) == [a];
  }

  // ---------------------------------------------------------------- totals

  const ZERO := Values(0, 0, 0, 0, 0)

  function Plus(a: Values, b: Values): Values {
    Values(a.impressions + b.impressions, a.clicks + b.clicks, a.cost + b.cost, a.conversions + b.conversions,
           a.conversionsValue + b.conversionsValue)
  }

  function Sum(rows: seq<Row>): Values {
    if rows == [] then ZERO else Plus(Sum(rows[..|rows| - 1]), Last(rows).values)
  }

  /** The integer sum of one column. */
  function Column(rows: seq<Row>, column: Values -> int): int {
    if rows == [] then 0 else Column(rows[..|rows| - 1], column) + column(Last(rows).values)
  }

  /** Each total is the sum of its own column. */
  lemma {:induction false} SumIsByColumn(rows: seq<Row>)
    ensures Sum(rows).impressions == Column(rows, (v: Values) => v.impressions)
    ensures Sum(rows).clicks == Column(rows, (v: Values) => v.clicks)
    ensures Sum(rows).cost == Column(rows, (v: Values) => v.cost)
    ensures Sum(rows).conversions == Column(rows, (v: Values) => v.conversions)
    ensures Sum(rows).conversionsValue == Column(rows, (v: Values) => v.conversionsValue)
  {
    if rows == [] {
    } else {
      SumIsByColumn(rows[..|rows| - 1]);
    }
  }

  lemma Less<V>(m: map<string, V>, c: string)
    requires c in m
    ensures |m - {c}| == |m| - 1
  {
    assert (m - {c}).Keys == m.Keys - {c};
  }

  /** The sum over a map, in no particular order. */
  ghost function Total(last: map<string, Row>): Values
    decreases |last|
  {
    if last == map[] then ZERO
    else
      var c :| c in last;
      Less(last, c);
      Plus(Total(last - {c}), last[c].values)
  }

  lemma {:induction false} TotalWithout(last: map<string, Row>, c: string)
    requires c in last
    ensures Total(last) == Plus(Total(last - {c}), last[c].values)
    decreases |last|
  {
    var d :| d in last && Total(last) == Plus(Total(last - {d}), last[d].values);
    if c != d {
      Less(last, c);
      Less(last, d);
      TotalWithout(last - {d}, c);
      TotalWithout(last - {c}, d);
      assert last - {c} - {d} == last - {d} - {c};
      var rest := Total(last - {c} - {d});
      assert Plus(Plus(rest, last[c].values), last[d].values) == Plus(Plus(rest, last[d].values), last[c].values);
    }
  }

  ghost predicate Lists(rows: seq<Row>, last: map<string, Row>) {
    OneRowPerCampaign(rows) && forall r :: r in rows <==> r.campaign in last && r == last[r.campaign]
  }

  lemma {:induction false} SumIsTotal(rows: seq<Row>, last: map<string, Row>)
    requires Lists(rows, last) && forall c :: c in last ==> last[c].campaign == c
    ensures Sum(rows) == Total(last)
  {
    assert forall c :: c in last ==> last[c] in rows;
    if rows == [] {
      assert last == map[];
    } else {
      var front, r := rows[..|rows| - 1], Last(rows);
      assert r in rows;
      var rest := last - {r.campaign};
      assert forall q :: q in rows <==> q in front || q == r;
      assert forall q :: q in front ==> q.campaign != r.campaign by {
        forall q | q in front ensures q.campaign != r.campaign {
          var i :| 0 <= i < |front| && front[i] == q;
          assert rows[i] == q && rows[|rows| - 1] == r;
        }
      }
      SumIsTotal(front, rest);
      TotalWithout(last, r.campaign);
    }
  }

  /** The latest rows list the last mentions, so their sum is the total over them. */
  lemma ListsOfLatest(us: seq<Row>, org: OrgId, scope: Option<string>)
    requires DaysPass(us) && OneAccountEach(us, org, scope)
    ensures var latest, last := Latest(UpsertAll([], us), org, scope), LastMention(us, org, scope);
            Lists(latest, last) && Sum(latest) == Total(last) && forall c :: c in last ==> last[c].campaign == c
  {
    LatestIsLastMention(us, org, scope);
    forall c | c in LastMention(us, org, scope) ensures LastMention(us, org, scope)[c].campaign == c {
      MentionIsLast(us, org, scope, c);
    }
    SumIsTotal(Latest(UpsertAll([], us), org, scope), LastMention(us, org, scope));
  }

  // ---------------------------------------------------------------- the order of the list

  /** One place of a sort by descending cost that keeps equals in order. */
  function InsertByCost(rows: seq<Row>, r: Row): seq<Row> {
    if rows == [] || Last(rows).values.cost >= r.values.cost then rows + [r]
    else InsertByCost(rows[..|rows| - 1], r) + [Last(rows)]
  }

  function SortByCost(rows: seq<Row>): seq<Row> {
    if rows == [] then [] else InsertByCost(SortByCost(rows[..|rows| - 1]), Last(rows))
  }

  ghost predicate Descending(rows: seq<Row>) {
    forall i, j :: 0 <= i < j < |rows| ==> rows[i].values.cost >= rows[j].values.cost
  }

  lemma InsertKeepsCampaigns(front: seq<Row>, last: Row, r: Row, out: seq<Row>)
    requires OneRowPerCampaign(front + [last] + [r])
    requires OneRowPerCampaign(front + [r]) ==> OneRowPerCampaign(out)
    requires forall q :: q in out <==> q in front || q == r
    ensures OneRowPerCampaign(front + [r])
    ensures OneRowPerCampaign(out + [last])
  {
    var all := front + [last] + [r];
    assert all[|front|] == last && all[|front| + 1] == r;
    forall i, j | 0 <= i < j < |front + [r]| ensures (front + [r])[i].campaign != (front + [r])[j].campaign {
      assert all[i] == (front + [r])[i];
      assert j == |front| || all[j] == (front + [r])[j];
    }
    forall q | q in out ensures q.campaign != last.campaign {
      if q in front {
        var i :| 0 <= i < |front| && front[i] == q;
        assert all[i] == q;
      }
    }
  }

  lemma {:induction false} InsertSorts(rows: seq<Row>, r: Row)
    requires Descending(rows)
    ensures Descending(InsertByCost(rows, r))
    ensures forall q :: q in InsertByCost(rows, r) <==> q in rows || q == r
    ensures OneRowPerCampaign(rows + [r]) ==> OneRowPerCampaign(InsertByCost(rows, r))
  {
    if rows != [] && Last(rows).values.cost < r.values.cost {
      var front, last := rows[..|rows| - 1], Last(rows);
      InsertSorts(front, r);
      assert forall q :: q in rows <==> q in front || q == last;
      var out := InsertByCost(front, r);
      forall i | 0 <= i < |out| ensures out[i].values.cost >= last.values.cost {
        assert out[i] in out;
      }
      if OneRowPerCampaign(rows + [r]) {
        assert front + [last] + [r] == rows + [r];
        InsertKeepsCampaigns(front, last, r, out);
      }
    }
  }

  /** Sorting permutes: the same rows, still one per campaign, by descending cost. */
  lemma {:induction false} SortSorts(rows: seq<Row>)
    ensures Descending(SortByCost(rows))
    ensures forall q :: q in SortByCost(rows) <==> q in rows
    ensures OneRowPerCampaign(rows) ==> OneRowPerCampaign(SortByCost(rows))
  {
    if rows == [] {
    } else {
      var front, r := rows[..|rows| - 1], Last(rows);
      SortSorts(front);
      InsertSorts(SortByCost(front), r);
      assert forall q :: q in rows <==> q in front || q == r;
      if OneRowPerCampaign(rows) {
        var sorted := SortByCost(front);
        forall q | q in front ensures q.campaign != r.campaign {
          var i :| 0 <= i < |front| && front[i] == q;
          assert rows[i] == q && rows[|rows| - 1] == r;
        }
        assert forall i :: 0 <= i < |sorted| ==> sorted[i] in front;
      }
    }
  }
}
