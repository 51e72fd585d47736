/** The admin dashboard's metrics: one pass per metric over the respondent
    rows, counting statuses, breakdowns into count dictionaries, the QC flags
    of completed respondents and their average duration. */
module AdminDashboard {
  import opened Common
  import opened Labels

  /** `r.completion_status === status` */
  predicate HasStatus(r: Record, status: string)
  {
    Get(r, "completion_status") == Some(Str(status))
  }

  /** The number of rows with that exact status. */
  function StatusCount(rows: seq<Record>, status: string): (n: nat)
    ensures n <= |rows|
    decreases |rows|
  {
    if rows == [] then 0
    else StatusCount(rows[..|rows| - 1], status) + (if HasStatus(rows[|rows| - 1], status) then 1 else 0)
  }

  /** `rows.filter(r => r.completion_status === status).length` */
  method CountStatus(rows: seq<Record>, status: string) returns (n: nat)
    ensures n == StatusCount(rows, status)
  {
    n := 0;
    var i := 0;
    while i < |rows|
      invariant 0 <= i <= |rows|
      invariant n == StatusCount(rows[..i], status)
    {
      assert rows[..i + 1][..i] == rows[..i];
      if HasStatus(rows[i], status) {
        n := n + 1;
      }
      i := i + 1;
    }
    assert rows[..|rows|] == rows;
  }

  /** A row has one status, so the three status counts never exceed the total. */
  lemma {:induction false} StatusCountsWithinTotal(rows: seq<Record>)
    ensures StatusCount(rows, "complete") + StatusCount(rows, "terminated") + StatusCount(rows, "in_progress") <= |rows|
    decreases |rows|
  {
    if rows != [] {
      StatusCountsWithinTotal(rows[..|rows| - 1]);
    }
  }

  // ---------------------------------------------------------------------------
  // The count dictionaries.

  /** The dictionaries built by `dict[key] = (dict[key] || 0) + 1`. */
  datatype Breakdown = TermPoints | Segments | Devices | Incomes | Ages

  /** `r[key] || fallback` as an object key. */
  function KeyOr(r: Record, key: string, fallback: string): string
  {
    if FieldTruthy(r, key) then JsString(Get(r, key)) else fallback
  }

  /** The key a row adds to a breakdown, or None when the row is skipped. */
  function BucketOf(b: Breakdown, r: Record): (k: Option<string>)
    ensures b == TermPoints ==> (k.Some? <==> HasStatus(r, "terminated"))
    ensures b == Devices ==> k.Some?
    ensures b == Segments ==> (k.Some? <==> FieldTruthy(r, "segment"))
    ensures b == Incomes ==> (k.Some? <==> HasStatus(r, "complete") && FieldTruthy(r, "income_band_collapsed"))
    ensures b == Ages ==> (k.Some? <==> HasStatus(r, "complete") && FieldTruthy(r, "age_cohort_collapsed"))
  {
    match b
    case TermPoints => if HasStatus(r, "terminated") then Some(KeyOr(r, "termination_point", "unknown")) else None
    case Segments => if FieldTruthy(r, "segment") then Some(JsString(Get(r, "segment"))) else None
    case Devices => Some(KeyOr(r, "device_type", "unknown"))
    case Incomes =>
      if HasStatus(r, "complete") && FieldTruthy(r, "income_band_collapsed") then Some(JsString(Get(r, "income_band_collapsed"))) else None
    case Ages =>
      if HasStatus(r, "complete") && FieldTruthy(r, "age_cohort_collapsed") then Some(JsString(Get(r, "age_cohort_collapsed"))) else None
  }

  /** The dictionary after the rows, one at a time. */
  function BreakdownSpec(rows: seq<Record>, b: Breakdown): seq<Entry>
    decreases |rows|
  {
    if rows == [] then []
    else
      var prev := BreakdownSpec(rows[..|rows| - 1], b);
      var k := BucketOf(b, rows[|rows| - 1]);
      if k.Some? then Add(prev, k.value) else prev
  }

  /** The number of rows that add `key`. */
  function BucketRows(rows: seq<Record>, b: Breakdown, key: string): nat
    decreases |rows|
  {
    if rows == [] then 0
    else BucketRows(rows[..|rows| - 1], b, key) + (if BucketOf(b, rows[|rows| - 1]) == Some(key) then 1 else 0)
  }

  /** The number of rows that add some key. */
  function CountedRows(rows: seq<Record>, b: Breakdown): nat
    decreases |rows|
  {
    if rows == [] then 0
    else CountedRows(rows[..|rows| - 1], b) + (if BucketOf(b, rows[|rows| - 1]).Some? then 1 else 0)
  }

  /** Each bucket holds the number of rows that fall in it, the buckets add
      up to the rows counted, and no bucket is empty. */
  lemma {:induction false} BreakdownMeaning(rows: seq<Record>, b: Breakdown, key: string)
    ensures CountOf(BreakdownSpec(rows, b), key) == BucketRows(rows, b, key)
    ensures Total(BreakdownSpec(rows, b)) == CountedRows(rows, b)
    ensures AllPositive(BreakdownSpec(rows, b))
    decreases |rows|
  {
    if rows != [] {
      var init := rows[..|rows| - 1];
      BreakdownMeaning(init, b, key);
      var k := BucketOf(b, rows[|rows| - 1]);
      if k.Some? {
        AddCounts(BreakdownSpec(init, b), k.value, key);
      }
    }
  }

  /** The termination breakdown adds up to the terminated count, the device
      breakdown to the number of rows, and the income and age breakdowns to at
      most the completed count. */
  lemma {:induction false} BreakdownTotals(rows: seq<Record>)
    ensures CountedRows(rows, TermPoints) == StatusCount(rows, "terminated")
    ensures CountedRows(rows, Devices) == |rows|
    ensures CountedRows(rows, Incomes) <= StatusCount(rows, "complete")
    ensures CountedRows(rows, Ages) <= StatusCount(rows, "complete")
    decreases |rows|
  {
    if rows != [] {
      BreakdownTotals(rows[..|rows| - 1]);
    }
  }

  /** A terminated row with no termination point is counted under 'unknown',
      as a row with no device type is. */
  lemma UnknownBuckets(r: Record)
    ensures HasStatus(r, "terminated") && !FieldTruthy(r, "termination_point") ==> BucketOf(TermPoints, r) == Some("unknown")
    ensures !FieldTruthy(r, "device_type") ==> BucketOf(Devices, r) == Some("unknown")
  {
  }

  /** One `forEach` pass building a breakdown. */
  method CountBuckets(rows: seq<Record>, b: Breakdown) returns (counts: seq<Entry>)
    ensures counts == BreakdownSpec(rows, b)
  {
    counts := [];
    var i := 0;
    while i < |rows|
      invariant 0 <= i <= |rows|
      invariant counts == BreakdownSpec(rows[..i], b)
    {
      assert rows[..i + 1][..i] == rows[..i];
      var k := BucketOf(b, rows[i]);
      if k.Some? {
        counts := Add(counts, k.value);
      }
      i := i + 1;
    }
    assert rows[..|rows|] == rows;
  }

  // ---------------------------------------------------------------------------
  // QC flags and duration of completed respondents.

  /** The summary name and the column of each QC flag, in the reply's order. */
  const QC_FLAGS: seq<(string, string)> := [
    ("speeder", "qc_speeder"), ("straightliner_k1", "qc_straightliner_k1"),
    ("straightliner_k2", "qc_straightliner_k2"), ("gibberish_nps", "qc_gibberish_nps"),
    ("gibberish_l1a", "qc_gibberish_l1a"), ("gibberish_l2a", "qc_gibberish_l2a")]

  /** A completed row whose flag column is exactly 1. */
  predicate Flagged(r: Record, column: string)
  {
    HasStatus(r, "complete") && Get(r, column) == Some(Num(1))
  }

  function FlagCount(rows: seq<Record>, column: string): nat
    decreases |rows|
  {
    if rows == [] then 0
    else FlagCount(rows[..|rows| - 1], column) + (if Flagged(rows[|rows| - 1], column) then 1 else 0)
  }

  /** A flag is counted only for completed respondents. */
  lemma {:induction false} FlagCountWithinComplete(rows: seq<Record>, column: string)
    ensures FlagCount(rows, column) <= StatusCount(rows, "complete")
    decreases |rows|
  {
    if rows != [] {
      FlagCountWithinComplete(rows[..|rows| - 1], column);
    }
  }

  /** `completedRespondents.filter(r => r[column] === 1).length` */
  method CountFlag(rows: seq<Record>, column: string) returns (n: nat)
    ensures n == FlagCount(rows, column)
  {
    n := 0;
    var i := 0;
    while i < |rows|
      invariant 0 <= i <= |rows|
      invariant n == FlagCount(rows[..i], column)
    {
      assert rows[..i + 1][..i] == rows[..i];
      if Flagged(rows[i], column) {
        n := n + 1;
      }
      i := i + 1;
    }
    assert rows[..|rows|] == rows;
  }

  /** The duration of a completed row, when it is a non-zero number. */
  function DurationOf(r: Record): Option<int>
  {
    var d := Get(r, "duration_seconds");
    if HasStatus(r, "complete") && d.Some? && d.value.Num? && d.value.n != 0 then Some(d.value.n) else None
  }

  function Durations(rows: seq<Record>): (ds: seq<int>)
    ensures |ds| <= StatusCount(rows, "complete")
    decreases |rows|
  {
    if rows == [] then []
    else
      var d := DurationOf(rows[|rows| - 1]);
      Durations(rows[..|rows| - 1]) + (if d.Some? then [d.value] else [])
  }

  function Sum(ds: seq<int>): int
  {
    if ds == [] then 0 else Sum(ds[..|ds| - 1]) + ds[|ds| - 1]
  }

  /** `Math.round(sum / n)`: the nearest whole number, halves rounded up. */
  function RoundedMean(sum: int, n: nat): (m: int)
    requires n > 0
    ensures 2 * n * m <= 2 * sum + n < 2 * n * m + 2 * n
  {
    (2 * sum + n) / (2 * n)
  }

  /** `avgDuration`: 0 when no completed row has a duration. */
  function AvgDuration(ds: seq<int>): (m: int)
    ensures ds == [] ==> m == 0
    ensures ds != [] ==> 2 * |ds| * m <= 2 * Sum(ds) + |ds| < 2 * |ds| * m + 2 * |ds|
  {
    if ds == [] then 0 else RoundedMean(Sum(ds), |ds|)
  }

  /** The durations' sum and count, in one pass, then their rounded mean. */
  method AverageDuration(rows: seq<Record>) returns (avg: int)
    ensures avg == AvgDuration(Durations(rows))
  {
    var sum := 0;
    var count := 0;
    var i := 0;
    while i < |rows|
      invariant 0 <= i <= |rows|
      invariant count == |Durations(rows[..i])|
      invariant sum == Sum(Durations(rows[..i]))
    {
      assert rows[..i + 1][..i] == rows[..i];
      var d := DurationOf(rows[i]);
      var ds := Durations(rows[..i]);
      assert Durations(rows[..i + 1]) == ds + (if d.Some? then [d.value] else []);
      if d.Some? {
        assert Sum(ds + [d.value]) == Sum(ds) + d.value by {
          assert (ds + [d.value])[..|ds|] == ds;
        }
        sum := sum + d.value;
        count := count + 1;
      } else {
        assert ds + [] == ds;
      }
      i := i + 1;
    }
    assert rows[..|rows|] == rows;
    avg := if count > 0 then RoundedMean(sum, count) else 0;
  }

  // ---------------------------------------------------------------------------
  // The route.

  datatype Metrics = Metrics(
    total: nat, complete: nat, terminated: nat, inProgress: nat, avgDuration: int,
    termBreakdown: seq<Entry>, segmentCounts: seq<Entry>, deviceCounts: seq<Entry>,
    incomeCounts: seq<Entry>, ageCounts: seq<Entry>, qcFlags: seq<Entry>)

  /** What GET answers: 401; the quota rows with empty metrics when the
      respondent select gave no rows; or the quota rows, the fill counts and
      the metrics. The quota and fill-count rows are the selects' results as
      they come, `None` standing for `null`. */
  datatype DashboardReply =
    | Unauthorized
    | NoRespondents(quotas: Option<seq<Record>>)
    | Summary(quotas: Option<seq<Record>>, fillCounts: Option<seq<Record>>, metrics: Metrics)

  function QcFlagsSpec(rows: seq<Record>): (es: seq<Entry>)
    ensures |es| == |QC_FLAGS|
  {
    seq(|QC_FLAGS|, i requires 0 <= i < |QC_FLAGS| => Entry(QC_FLAGS[i].0, FlagCount(rows, QC_FLAGS[i].1)))
  }

  function MetricsSpec(rows: seq<Record>): Metrics
  {
    Metrics(|rows|, StatusCount(rows, "complete"), StatusCount(rows, "terminated"), StatusCount(rows, "in_progress"),
            AvgDuration(Durations(rows)),
            BreakdownSpec(rows, TermPoints), BreakdownSpec(rows, Segments), BreakdownSpec(rows, Devices),
            BreakdownSpec(rows, Incomes), BreakdownSpec(rows, Ages), QcFlagsSpec(rows))
  }

  /** The QC summary: the flag count of each column in turn. */
  method CountQcFlags(rows: seq<Record>) returns (es: seq<Entry>)
    ensures es == QcFlagsSpec(rows)
  {
    es := [];
    var i := 0;
    while i < |QC_FLAGS|
      invariant 0 <= i <= |QC_FLAGS|
      invariant es == QcFlagsSpec(rows)[..i]
    {
      var n := CountFlag(rows, QC_FLAGS[i].1);
      es := es + [Entry(QC_FLAGS[i].0, n)];
      i := i + 1;
    }
  }

  /** `GET /api/admin/dashboard`. The session cookie is the only input of the
      authentication check. `quotas`, `respondents` and `fillCounts` are the
      results of the three selects (segment_quotas, respondents, and
      retailer_fill_counts ordered by ascending count), None when a select
      gave no data. */
  method Dashboard(sessionCookie: Option<string>, quotas: Option<seq<Record>>, respondents: Option<seq<Record>>,
                   fillCounts: Option<seq<Record>>) returns (reply: DashboardReply)
    ensures sessionCookie != Some("authenticated") ==> reply == Unauthorized
    ensures sessionCookie == Some("authenticated") && respondents.None? ==> reply == NoRespondents(quotas)
    ensures sessionCookie == Some("authenticated") && respondents.Some? ==>
              reply == Summary(quotas, fillCounts, MetricsSpec(respondents.value))
  {
    if sessionCookie != Some("authenticated") {
      return Unauthorized;
    }
    if respondents.None? {
      return NoRespondents(quotas);
    }
    var rows := respondents.value;
    var complete := CountStatus(rows, "complete");
    var terminated := CountStatus(rows, "terminated");
    var inProgress := CountStatus(rows, "in_progress");
    var termBreakdown := CountBuckets(rows, TermPoints);
    var segmentCounts := CountBuckets(rows, Segments);
    var deviceCounts := CountBuckets(rows, Devices);
    var incomeCounts := CountBuckets(rows, Incomes);
    var ageCounts := CountBuckets(rows, Ages);
    var avgDuration := AverageDuration(rows);
    var qcFlags := CountQcFlags(rows);
    reply := Summary(quotas, fillCounts, Metrics(|rows|, complete, terminated, inProgress, avgDuration, termBreakdown, segmentCounts,
                             deviceCounts, incomeCounts, ageCounts, qcFlags));
  }

  /** The metrics agree with each other: the termination breakdown sums to the
      terminated count, the device breakdown to the total, every bucket is
      non-empty and no QC flag exceeds the completed count. */
  lemma MetricsConsistent(rows: seq<Record>)
    ensures var m := MetricsSpec(rows);
            Total(m.termBreakdown) == m.terminated &&
            Total(m.deviceCounts) == m.total &&
            Total(m.incomeCounts) <= m.complete && Total(m.ageCounts) <= m.complete &&
            m.complete + m.terminated + m.inProgress <= m.total &&
            AllPositive(m.termBreakdown) && AllPositive(m.segmentCounts) && AllPositive(m.deviceCounts) &&
            (forall i :: 0 <= i < |m.qcFlags| ==> m.qcFlags[i].count <= m.complete)
  {
    BreakdownMeaning(rows, TermPoints, "");
    BreakdownMeaning(rows, Segments, "");
    BreakdownMeaning(rows, Devices, "");
    BreakdownMeaning(rows, Incomes, "");
    BreakdownMeaning(rows, Ages, "");
    BreakdownTotals(rows);
    StatusCountsWithinTotal(rows);
    forall i | 0 <= i < |QC_FLAGS| ensures FlagCount(rows, QC_FLAGS[i].1) <= StatusCount(rows, "complete") {
      FlagCountWithinComplete(rows, QC_FLAGS[i].1);
    }
  }
}
