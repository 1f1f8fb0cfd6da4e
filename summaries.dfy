/**
 * The post-processing of app/sandbox/queries/summaries.py: which period the summaries are
 * computed for, the early {} when there is none, and the "peak_hours" list added to the
 * usage summary. The SQL queries are functions from (user id, period) to what the cursor
 * yields; the latest-period lookup is its result for the user.
 */
module Summaries {
  import opened Wrappers
  import opened Text
  import opened Json
  import opened ServicesDb

  type Dict = seq<(string, Json)>

  /** What MySQL's HOUR() yields. */
  type Hour = h: nat | h < 24

  /** `period or GetLatestPeriodForUser(user_id)`: a non-empty period wins, else the lookup's answer. */
  function ResolvedPeriod(period: Option<string>, latest: Option<string>): (r: Option<string>)
    ensures period.Some? && period.value != "" ==> r == period
    ensures period.None? || period.value == "" ==> r == latest
  {
    if period.Some? && period.value != "" then period else latest
  }

  /** `if not resolved_period: return {}`: None and "" stop the summary. */
  predicate Resolves(p: Option<string>) {
    p.Some? && p.value != ""
  }

  /** GetPricingSummaryFromDb: {} without a period, else the one row of the pricing query. */
  function PricingSummary(userId: string, period: Option<string>, latest: Option<string>,
                          query: (string, string) -> Option<Dict>): (r: Dict)
    ensures !Resolves(ResolvedPeriod(period, latest)) ==> r == []
    ensures Resolves(ResolvedPeriod(period, latest)) ==>
              r == FetchOneDict(query(userId, ResolvedPeriod(period, latest).value))
  {
    var resolved := ResolvedPeriod(period, latest);
    if !Resolves(resolved) then [] else FetchOneDict(query(userId, resolved.value))
  }

  /** A given period makes the latest-period lookup irrelevant. */
  lemma GivenPeriodIgnoresLatest(userId: string, period: string, latest1: Option<string>, latest2: Option<string>,
                                 query: (string, string) -> Option<Dict>)
    requires period != ""
    ensures PricingSummary(userId, Some(period), latest1, query) == PricingSummary(userId, Some(period), latest2, query)
    ensures PricingSummary(userId, Some(period), latest1, query) == FetchOneDict(query(userId, period))
  {
  }

  /** Without a period nothing is queried: the answer is {} whatever the database holds. */
  lemma NoPeriodQueriesNothing(userId: string, period: Option<string>, latest: Option<string>,
                               query1: (string, string) -> Option<Dict>, query2: (string, string) -> Option<Dict>)
    requires !Resolves(ResolvedPeriod(period, latest))
    ensures PricingSummary(userId, period, latest, query1) == PricingSummary(userId, period, latest, query2) == []
  {
  }

  // ---------------------------------------------------------------------------
  // peak_hours
  // ---------------------------------------------------------------------------

  /** f"{h:02d}:00-{h:02d}:59". */
  function HourRange(h: Hour): string {
    ZeroPad(h, 2) + ":00-" + ZeroPad(h, 2) + ":59"
  }

  /** The range is "HH:00-HH:59" with the same two digits on both sides, and they spell the hour. */
  lemma HourRangeShape(h: Hour)
    ensures var r := HourRange(h);
            && |r| == 11
            && r[..2] == r[6..8] && AllDigits(r[..2]) && DigitsValue(r[..2]) == h
            && r[2..6] == ":00-" && r[8..] == ":59"
  {
    assert Pow10(2) == 100;
    ZeroPadRoundTrip(h, 2);
    var hh := ZeroPad(h, 2);
    var r := HourRange(h);
    assert r[..2] == hh && r[6..8] == hh;
  }

  /** Two hours give the same range only when they are the same hour. */
  lemma HourRangeInjective(h1: Hour, h2: Hour)
    requires HourRange(h1) == HourRange(h2)
    ensures h1 == h2
  {
    HourRangeShape(h1);
    HourRangeShape(h2);
  }

  /** [HourRange(h) for each row whose hour_bucket is not None], in row order. */
  function PeakHours(rows: seq<Option<Hour>>): (r: seq<string>)
    ensures |r| <= |rows|
    ensures r == [] <==> forall i :: 0 <= i < |rows| ==> rows[i].None?
  {
    if rows == [] then []
    else
      assert forall j :: 1 <= j < |rows| ==> rows[j] == rows[1..][j - 1];
      (if rows[0].Some? then [HourRange(rows[0].value)] else []) + PeakHours(rows[1..])
  }

  /** Each entry is the range of the hour of some row that has one. */
  lemma {:induction false} PeakHoursEntries(rows: seq<Option<Hour>>, i: nat)
    requires i < |PeakHours(rows)|
    ensures exists j :: 0 <= j < |rows| && rows[j].Some? && PeakHours(rows)[i] == HourRange(rows[j].value)
  {
    var rest := PeakHours(rows[1..]);
    if rows[0].Some? && i == 0 {
      assert PeakHours(rows)[0] == HourRange(rows[0].value);
    } else {
      var k := if rows[0].Some? then i - 1 else i;
      assert PeakHours(rows)[i] == rest[k];
      PeakHoursEntries(rows[1..], k);
      var j :| 0 <= j < |rows[1..]| && rows[1..][j].Some? && rest[k] == HourRange(rows[1..][j].value);
      assert rows[j + 1] == rows[1..][j];
    }
  }

  /** The ranges of consecutive rows come in the same order: the comprehension distributes over concatenation. */
  lemma {:induction false} PeakHoursAppend(a: seq<Option<Hour>>, b: seq<Option<Hour>>)
    ensures PeakHours(a + b) == PeakHours(a) + PeakHours(b)
  {
    if a == [] {
      assert a + b == b;
    } else {
      assert (a + b)[1..] == a[1..] + b;
      assert (a + b)[0] == a[0];
      PeakHoursAppend(a[1..], b);
    }
  }

  /** The JSON list summary["peak_hours"] is set to. */
  function PeakHoursJson(hours: seq<string>): (r: Json)
    ensures r.JList? && |r.items| == |hours|
    ensures forall i :: 0 <= i < |hours| ==> r.items[i] == JStr(hours[i])
  {
    JList(seq(|hours|, i requires 0 <= i < |hours| => JStr(hours[i])))
  }

  /**
   * GetUsageSummaryFromDb: {} without a period; otherwise the summary row with "peak_hours"
   * written into it, replacing that key in place when the row already has it.
   */
  method GetUsageSummary(userId: string, period: Option<string>, latest: Option<string>,
                         summaryQuery: (string, string) -> Option<Dict>,
                         peakQuery: (string, string) -> seq<Option<Hour>>) returns (summary: Dict)
    ensures !Resolves(ResolvedPeriod(period, latest)) ==> summary == []
    ensures Resolves(ResolvedPeriod(period, latest)) ==>
              var p := ResolvedPeriod(period, latest).value;
              var row := FetchOneDict(summaryQuery(userId, p));
              && Get(summary, "peak_hours") == Some(PeakHoursJson(PeakHours(peakQuery(userId, p))))
              && (forall k :: k != "peak_hours" ==> Get(summary, k) == Get(row, k))
              && (DistinctKeys(row) ==>
                    (&& DistinctKeys(summary)
                     && Keys(summary) == if "peak_hours" in Keys(row) then Keys(row) else Keys(row) + ["peak_hours"]))
  {
    var resolved := ResolvedPeriod(period, latest);
    if resolved.None? || resolved.value == "" {
      return [];
    }
    summary := FetchOneDict(summaryQuery(userId, resolved.value));
    ghost var row := summary;
    var peakRows := peakQuery(userId, resolved.value);
    var peakHours := PeakHours(peakRows);
    summary := Put(summary, "peak_hours", PeakHoursJson(peakHours));
    GetPutSame(row, "peak_hours", PeakHoursJson(peakHours));
    forall k | k != "peak_hours"
      ensures Get(summary, k) == Get(row, k)
    {
      GetPutOther(row, "peak_hours", PeakHoursJson(peakHours), k);
    }
    if DistinctKeys(row) {
      KeysPut(row, "peak_hours", PeakHoursJson(peakHours));
    }
  }
}
