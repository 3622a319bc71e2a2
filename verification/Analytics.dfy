/** The metric table with its writer, its query and the summary over it. */
module Analytics {
  import opened Prelude
  import opened Snapshots

  datatype Summary = Summary(asOf: Option<int>, totals: Values, campaigns: seq<Row>)

  /** The largest day of some rows, if there is one. */
  ghost predicate IsNewestDay(day: Option<int>, rows: seq<Row>) {
    match day
    case None => rows == []
    case Some(d) => (forall r :: r in rows ==> r.day <= d) && exists r :: r in rows && r.day == d
  }

  /** The loop over the latest rows. */
  method AddUp(rows: seq<Row>) returns (totals: Values, asOf: Option<int>)
    ensures totals == Sum(rows)
    ensures IsNewestDay(asOf, rows)
  {
    totals, asOf := ZERO, None;
    for n := 0 to |rows|
      invariant totals == Sum(rows[..n])
      invariant IsNewestDay(asOf, rows[..n])
    {
      var row := rows[n];
      assert rows[..n + 1] == rows[..n] + [row];
      totals := Plus(totals, row.values);
      asOf := if asOf.Some? && asOf.value > row.day then asOf else Some(row.day);
    }
    assert rows[..|rows|] == rows;
  }

  class MetricTable {
    var rows: seq<Row>
    /** Every row ever written. */
    ghost var written: seq<Row>

    ghost predicate Valid()
      reads this
    {
      rows == UpsertAll([], written)
    }

    constructor ()
      ensures Valid() && written == []
    {
      rows, written := [], [];
    }

    method UpsertSnapshot(row: Row)
      requires Valid()
      modifies this
      ensures Valid() && written == old(written) + [row]
      ensures rows == Upsert(old(rows), row)
    {
      var existing := Find(rows, row);
      if existing.Some? {
        var i := existing.value;
        rows := rows[i := rows[i].(values := row.values)];
      } else {
        rows := rows + [row];
      }
      assert (written + [row])[..|written|] == written;
      written := written + [row];
    }

    method FetchAndStore(org: OrgId, customer: string, today: int, metrics: seq<Metric>)
      requires Valid()
      modifies this
      ensures Valid() && written == old(written) + Fetched(org, customer, today, metrics)
    {
      for n := 0 to |metrics|
        invariant Valid() && written == old(written) + Fetched(org, customer, today, metrics)[..n]
      {
        UpsertSnapshot(Row(org, customer, metrics[n].campaign, today, metrics[n].values));
      }
    }

    /** Totals and list are those of the last mentions: every campaign once, dearest first. */
    method Summarize(org: OrgId, scope: Option<string>) returns (summary: Summary)
      requires Valid() && DaysPass(written) && OneAccountEach(written, org, scope)
      ensures var last := LastMention(written, org, scope);
              summary.totals == Total(last) && Lists(summary.campaigns, last) && Descending(summary.campaigns) &&
              IsNewestDay(summary.asOf, summary.campaigns)
      ensures summary.totals.impressions == Column(summary.campaigns, (v: Values) => v.impressions) &&
              summary.totals.clicks == Column(summary.campaigns, (v: Values) => v.clicks) &&
              summary.totals.cost == Column(summary.campaigns, (v: Values) => v.cost) &&
              summary.totals.conversions == Column(summary.campaigns, (v: Values) => v.conversions) &&
              summary.totals.conversionsValue == Column(summary.campaigns, (v: Values) => v.conversionsValue)
    {
      var latest := Latest(rows, org, scope);
      ListsOfLatest(written, org, scope);
      SortSorts(latest);
      SumIsTotal(SortByCost(latest), LastMention(written, org, scope));
      SumIsByColumn(SortByCost(latest));
      var totals, asOf := AddUp(latest);
      summary := Summary(asOf, totals, SortByCost(latest));
    }
  }
}
