/** The count-based per-question CSV builders of the analysis export and the
    export's dispatch on the question type. Each builder returns a header and
    rows; the text is `toCsvString` of those. */
module CsvExport {
  import opened Common
  import opened CsvFormat
  import opened Labels
  import Constants

  datatype Table = Table(headers: seq<string>, rows: seq<seq<Cell>>)

  // ---------------------------------------------------------------------------
  // Sorting by a key, largest first, as `sort((a, b) => key(b) - key(a))` does
  // with JavaScript's stable sort.

  predicate SortedDesc<T>(xs: seq<T>, key: T -> int)
  {
    forall i, j :: 0 <= i < j < |xs| ==> key(xs[i]) >= key(xs[j])
  }

  /** Puts `x` before the first element whose key is not larger. */
  function InsertDesc<T>(x: T, ys: seq<T>, key: T -> int): (r: seq<T>)
    ensures |r| == |ys| + 1 && multiset(r) == multiset(ys) + multiset{x}
  {
    if ys == [] || key(ys[0]) <= key(x) then [x] + ys
    else
      assert ys == [ys[0]] + ys[1..];
      [ys[0]] + InsertDesc(x, ys[1..], key)
  }

  function SortDesc<T>(xs: seq<T>, key: T -> int): (r: seq<T>)
    ensures |r| == |xs| && multiset(r) == multiset(xs)
  {
    if xs == [] then []
    else
      assert xs == [xs[0]] + xs[1..];
      InsertDesc(xs[0], SortDesc(xs[1..], key), key)
  }

  lemma {:induction false} InsertDescSorted<T>(x: T, ys: seq<T>, key: T -> int)
    requires SortedDesc(ys, key)
    ensures SortedDesc(InsertDesc(x, ys, key), key)
  {
    if ys != [] && key(ys[0]) > key(x) {
      InsertDescSorted(x, ys[1..], key);
      var r := InsertDesc(x, ys, key);
      var rest := InsertDesc(x, ys[1..], key);
      assert r == [ys[0]] + rest;
      forall i | 0 < i < |r| ensures key(r[0]) >= key(r[i]) {
        assert r[i] == rest[i - 1];
        assert rest[i - 1] in multiset(rest);
        if rest[i - 1] != x {
          assert rest[i - 1] in multiset(ys[1..]);
          var j :| 0 <= j < |ys[1..]| && ys[1..][j] == rest[i - 1];
          assert ys[1..][j] == ys[j + 1];
        }
      }
    }
  }

  /** The sort puts the keys in non-increasing order and keeps every element. */
  lemma {:induction false} SortDescSorted<T>(xs: seq<T>, key: T -> int)
    ensures SortedDesc(SortDesc(xs, key), key)
    ensures multiset(SortDesc(xs, key)) == multiset(xs)
  {
    if xs != [] {
      SortDescSorted(xs[1..], key);
      InsertDescSorted(xs[0], SortDesc(xs[1..], key), key);
    }
  }

  function EntryCount(e: Entry): int
  {
    e.count
  }

  // ---------------------------------------------------------------------------
  // buildFrequencyCSV

  function FrequencyRow(labels: Option<map<string, string>>, e: Entry, total: nat): seq<Cell>
  {
    [Text(LabelFor(labels, e.key)), Number(e.count), Text(Pct(e.count, total) + "%")]
  }

  function FrequencyRows(labels: Option<map<string, string>>, es: seq<Entry>, total: nat): (rows: seq<seq<Cell>>)
    ensures |rows| == |es| && forall i :: 0 <= i < |es| ==> rows[i] == FrequencyRow(labels, es[i], total)
  {
    seq(|es|, i requires 0 <= i < |es| => FrequencyRow(labels, es[i], total))
  }

  /** `buildFrequencyCSV(data, field, labels)` */
  function BuildFrequencyCsv(data: seq<Record>, field: string, labels: Option<map<string, string>>): Table
  {
    var total := NonBlankCount(data, field);
    var sorted := SortDesc(CountBySpec(data, field), EntryCount);
    Table(["Response", "n", "%"],
          FrequencyRows(labels, sorted, total) + [[Text("Total (non-blank)"), Number(total), Text("100.0%")]])
  }

  /** The count column of a row. */
  function RowCount(row: seq<Cell>): int
  {
    if |row| > 1 && row[1].Number? then row[1].n else 0
  }

  /** The frequency table has one row per bucket of `countBy`, in
      non-increasing order of count, and ends with a total row whose n is the
      sum of the bucket counts. */
  lemma FrequencyCsvOrder(data: seq<Record>, field: string, labels: Option<map<string, string>>)
    ensures var t := BuildFrequencyCsv(data, field, labels);
            var buckets := CountBySpec(data, field);
            var k := |t.rows| - 1;
            k == |buckets| &&
            t.rows[k] == [Text("Total (non-blank)"), Number(Total(buckets)), Text("100.0%")] &&
            (forall i, j :: 0 <= i < j < k ==> RowCount(t.rows[i]) >= RowCount(t.rows[j]))
  {
    var buckets := CountBySpec(data, field);
    var total := NonBlankCount(data, field);
    var sorted := SortDesc(buckets, EntryCount);
    var rows := FrequencyRows(labels, sorted, total);
    assert BuildFrequencyCsv(data, field, labels).rows ==
           rows + [[Text("Total (non-blank)"), Number(total), Text("100.0%")]];
    CountByMeaning(data, field, "");
    SortDescSorted(buckets, EntryCount);
    FrequencyRowsOrdered(labels, sorted, total);
  }

  /** Rows built from entries sorted by count have non-increasing counts. */
  lemma FrequencyRowsOrdered(labels: Option<map<string, string>>, sorted: seq<Entry>, total: nat)
    requires SortedDesc(sorted, EntryCount)
    ensures var rows := FrequencyRows(labels, sorted, total);
            forall i, j :: 0 <= i < j < |rows| ==> RowCount(rows[i]) >= RowCount(rows[j])
  {
    var rows := FrequencyRows(labels, sorted, total);
    assert forall i :: 0 <= i < |rows| ==> RowCount(rows[i]) == EntryCount(sorted[i]);
  }

  /** Every bucket of `countBy` has a row with its label, its count and its
      share of the non-blank rows, and every row above the total is such a row. */
  lemma FrequencyCsvBuckets(data: seq<Record>, field: string, labels: Option<map<string, string>>)
    ensures var t := BuildFrequencyCsv(data, field, labels);
            var buckets := CountBySpec(data, field);
            var total := NonBlankCount(data, field);
            var body := t.rows[..|t.rows| - 1];
            (forall e :: e in buckets ==> FrequencyRow(labels, e, total) in body) &&
            (forall i :: 0 <= i < |body| ==> exists e :: e in buckets && body[i] == FrequencyRow(labels, e, total))
  {
    var buckets := CountBySpec(data, field);
    var total := NonBlankCount(data, field);
    var sorted := SortDesc(buckets, EntryCount);
    var t := BuildFrequencyCsv(data, field, labels);
    assert t.rows[..|t.rows| - 1] == FrequencyRows(labels, sorted, total);
    RowsOfPermutation(labels, sorted, buckets, total);
  }

  lemma RowsOfPermutation(labels: Option<map<string, string>>, sorted: seq<Entry>, buckets: seq<Entry>, total: nat)
    requires multiset(sorted) == multiset(buckets)
    ensures forall e :: e in buckets ==> FrequencyRow(labels, e, total) in FrequencyRows(labels, sorted, total)
    ensures forall i :: 0 <= i < |sorted| ==>
              exists e :: e in buckets && FrequencyRows(labels, sorted, total)[i] == FrequencyRow(labels, e, total)
  {
    var rows := FrequencyRows(labels, sorted, total);
    forall e | e in buckets ensures FrequencyRow(labels, e, total) in rows {
      assert e in multiset(sorted);
      var i :| 0 <= i < |sorted| && sorted[i] == e;
      assert rows[i] == FrequencyRow(labels, e, total);
    }
    forall i | 0 <= i < |sorted| ensures exists e :: e in buckets && rows[i] == FrequencyRow(labels, e, total) {
      assert sorted[i] in multiset(buckets);
    }
  }

  // ---------------------------------------------------------------------------
  // buildFunnelCSV

  /** The retailers with a funnel row: the catalogue without 'other'. */
  function FunnelRetailers(): seq<string>
  {
    Constants.RetailerCodes()[..14]
  }

  /** The funnel covers every catalogue retailer except 'other', once each. */
  lemma FunnelRetailersMeaning()
    ensures |FunnelRetailers()| == 14 && "other" !in FunnelRetailers()
    ensures forall c :: c in FunnelRetailers() <==> c in Constants.RetailerCodes() && c != "other"
  {
    Constants.RetailersShape();
    var cs := Constants.RetailerCodes();
    assert cs == cs[..14] + [cs[14]];
    Labels.RetailerLabelsCover();
    assert cs[14] == "other";
    assert forall i :: 0 <= i < 14 ==> cs[i] != "other";
  }

  /** The number of rows whose `funnel_<code>` reads as the number `v`. */
  function FunnelTally(data: seq<Record>, code: string, v: int): nat
    decreases |data|
  {
    if data == [] then 0
    else
      FunnelTally(data[..|data| - 1], code, v) +
      (if ToNumber(Get(data[|data| - 1], "funnel_" + code)) == Some(v) then 1 else 0)
  }

  function FunnelTallies(data: seq<Record>, code: string): (cs: seq<nat>)
    ensures |cs| == 6 && forall v :: 1 <= v <= 6 ==> cs[v - 1] == FunnelTally(data, code, v)
  {
    seq(6, v requires 0 <= v < 6 => FunnelTally(data, code, v + 1))
  }

  /** The six tallies of a retailer count distinct rows: they add up to at most the number of rows. */
  lemma {:induction false} FunnelTalliesBounded(data: seq<Record>, code: string)
    ensures FunnelTally(data, code, 1) + FunnelTally(data, code, 2) + FunnelTally(data, code, 3) +
            FunnelTally(data, code, 4) + FunnelTally(data, code, 5) + FunnelTally(data, code, 6) <= |data|
    decreases |data|
  {
    if data != [] {
      FunnelTalliesBounded(data[..|data| - 1], code);
    }
  }

  /** One more row adds one to the tally of the value it holds and nothing to the others. */
  lemma FunnelTallyStep(data: seq<Record>, code: string, i: nat)
    requires i < |data|
    ensures forall v :: FunnelTally(data[..i + 1], code, v) ==
              FunnelTally(data[..i], code, v) + (if ToNumber(Get(data[i], "funnel_" + code)) == Some(v) then 1 else 0)
  {
    assert data[..i + 1][..i] == data[..i];
  }

  /** The loop over the rows: `counts[v]++` for each value 1..6. */
  method CountFunnel(data: seq<Record>, code: string) returns (counts: seq<nat>)
    ensures counts == FunnelTallies(data, code)
  {
    counts := [0, 0, 0, 0, 0, 0];
    var i := 0;
    while i < |data|
      invariant 0 <= i <= |data|
      invariant |counts| == 6 && forall v :: 1 <= v <= 6 ==> counts[v - 1] == FunnelTally(data[..i], code, v)
    {
      FunnelTallyStep(data, code, i);
      var n := ToNumber(Get(data[i], "funnel_" + code));
      if n.Some? && 1 <= n.value <= 6 {
        counts := counts[n.value - 1 := counts[n.value - 1] + 1];
      }
      i := i + 1;
    }
    assert data[..|data|] == data;
  }

  function FunnelCell(c: nat, total: nat): Cell
  {
    Text(NatToString(c) + " (" + Pct(c, total) + "%)")
  }

  function FunnelRow(code: string, counts: seq<nat>, total: nat): seq<Cell>
    requires |counts| == 6
  {
    [Text(RetailerLabel(code))] + seq(6, v requires 0 <= v < 6 => FunnelCell(counts[v], total))
      + [Text(Pct(counts[5], total) + "%")]
  }

  /** The loop's rows so far, one per retailer of `retailers`, stay right
      when the next retailer's row is appended. */
  lemma FunnelRowsExtend(data: seq<Record>, retailers: seq<string>, rows: seq<seq<Cell>>, row: seq<Cell>)
    requires |rows| < |retailers|
    requires forall i :: 0 <= i < |rows| ==> rows[i] == FunnelRow(retailers[i], FunnelTallies(data, retailers[i]), |data|)
    requires row == FunnelRow(retailers[|rows|], FunnelTallies(data, retailers[|rows|]), |data|)
    ensures forall i :: 0 <= i <= |rows| ==>
              (rows + [row])[i] == FunnelRow(retailers[i], FunnelTallies(data, retailers[i]), |data|)
  {
  }

  /** The funnel table on values: the header, then one row per funnel
      retailer from its tallies over all rows. */
  function FunnelTable(data: seq<Record>): Table
  {
    var rs := FunnelRetailers();
    Table(["Retailer"] + FUNNEL_STAGE_LABELS + ["Shopped 3mo %"],
          seq(|rs|, i requires 0 <= i < |rs| => FunnelRow(rs[i], FunnelTallies(data, rs[i]), |data|)))
  }

  /** `buildFunnelCSV(data)`: one row per retailer other than 'other', with
      the six stage tallies and the share at stage 6. */
  method BuildFunnelCsv(data: seq<Record>) returns (t: Table)
    ensures t.headers == ["Retailer"] + FUNNEL_STAGE_LABELS + ["Shopped 3mo %"]
    ensures |t.rows| == |FunnelRetailers()|
    ensures forall i :: 0 <= i < |t.rows| ==>
              t.rows[i] == FunnelRow(FunnelRetailers()[i], FunnelTallies(data, FunnelRetailers()[i]), |data|)
    ensures t == FunnelTable(data)
  {
    var retailers := FunnelRetailers();
    var rows: seq<seq<Cell>> := [];
    var k := 0;
    while k < |retailers|
      invariant 0 <= k <= |retailers| && |rows| == k
      invariant forall i :: 0 <= i < k ==> rows[i] == FunnelRow(retailers[i], FunnelTallies(data, retailers[i]), |data|)
    {
      var counts := CountFunnel(data, retailers[k]);
      var row := FunnelRow(retailers[k], counts, |data|);
      FunnelRowsExtend(data, retailers, rows, row);
      rows := rows + [row];
      k := k + 1;
    }
    t := Table(["Retailer"] + FUNNEL_STAGE_LABELS + ["Shopped 3mo %"], rows);
  }

  // ---------------------------------------------------------------------------
  // Weighted tallies: buildBestValueCSV and buildPriceRankCSV.

  /** A field that scores `points` for its value when it is truthy. */
  datatype Scored = Scored(field: string, points: nat)

  /** `c[key] = (c[key] || 0) + points` */
  function AddPoints(es: seq<Entry>, key: string, points: nat): seq<Entry>
  {
    if es == [] then [Entry(key, points)]
    else if es[0].key == key then [Entry(key, es[0].count + points)] + es[1..]
    else [es[0]] + AddPoints(es[1..], key, points)
  }

  lemma {:induction false} AddPointsCounts(es: seq<Entry>, key: string, points: nat, other: string)
    ensures CountOf(AddPoints(es, key, points), other) == CountOf(es, other) + (if other == key then points else 0)
    ensures Total(AddPoints(es, key, points)) == Total(es) + points
  {
    if es != [] && es[0].key != key {
      AddPointsCounts(es[1..], key, points, other);
      assert AddPoints(es, key, points)[1..] == AddPoints(es[1..], key, points);
    }
  }

  /** The scoring fields of one row, in order. */
  function ScoreRow(es: seq<Entry>, r: Record, fs: seq<Scored>): seq<Entry>
    decreases |fs|
  {
    if fs == [] then es
    else
      var f := fs[|fs| - 1];
      var prev := ScoreRow(es, r, fs[..|fs| - 1]);
      if FieldTruthy(r, f.field) then AddPoints(prev, JsString(Some(r[f.field])), f.points) else prev
  }

  /** The tally after all rows, row by row. */
  function TallySpec(rows: seq<Record>, fs: seq<Scored>): seq<Entry>
    decreases |rows|
  {
    if rows == [] then [] else ScoreRow(TallySpec(rows[..|rows| - 1], fs), rows[|rows| - 1], fs)
  }

  /** The points one row awards: the points of each truthy field. */
  function RowPoints(r: Record, fs: seq<Scored>): nat
    decreases |fs|
  {
    if fs == [] then 0
    else RowPoints(r, fs[..|fs| - 1]) + (if FieldTruthy(r, fs[|fs| - 1].field) then fs[|fs| - 1].points else 0)
  }

  function Points(rows: seq<Record>, fs: seq<Scored>): nat
    decreases |rows|
  {
    if rows == [] then 0 else Points(rows[..|rows| - 1], fs) + RowPoints(rows[|rows| - 1], fs)
  }

  lemma {:induction false} ScoreRowTotal(es: seq<Entry>, r: Record, fs: seq<Scored>)
    ensures Total(ScoreRow(es, r, fs)) == Total(es) + RowPoints(r, fs)
    decreases |fs|
  {
    if fs != [] {
      ScoreRowTotal(es, r, fs[..|fs| - 1]);
      var f := fs[|fs| - 1];
      if FieldTruthy(r, f.field) {
        AddPointsCounts(ScoreRow(es, r, fs[..|fs| - 1]), JsString(Some(r[f.field])), f.points, "");
      }
    }
  }

  /** The tallies add up to the points the rows award: nothing is lost or
      counted twice. */
  lemma {:induction false} TallyTotal(rows: seq<Record>, fs: seq<Scored>)
    ensures Total(TallySpec(rows, fs)) == Points(rows, fs)
    decreases |rows|
  {
    if rows != [] {
      TallyTotal(rows[..|rows| - 1], fs);
      ScoreRowTotal(TallySpec(rows[..|rows| - 1], fs), rows[|rows| - 1], fs);
    }
  }

  /** The nested loops: for each row, for each scoring field, add its points. */
  method Tally(rows: seq<Record>, fs: seq<Scored>) returns (es: seq<Entry>)
    ensures es == TallySpec(rows, fs)
  {
    es := [];
    var i := 0;
    while i < |rows|
      invariant 0 <= i <= |rows|
      invariant es == TallySpec(rows[..i], fs)
    {
      assert rows[..i + 1][..i] == rows[..i];
      ghost var before := es;
      var r := rows[i];
      var k := 0;
      while k < |fs|
        invariant 0 <= k <= |fs|
        invariant es == ScoreRow(before, r, fs[..k])
      {
        assert fs[..k + 1][..k] == fs[..k];
        var f := fs[k];
        if f.field in r && Truthy(r[f.field]) {
          es := AddPoints(es, JsString(Some(r[f.field])), f.points);
        }
        k := k + 1;
      }
      assert fs[..|fs|] == fs;
      i := i + 1;
    }
    assert rows[..|rows|] == rows;
  }

  const BEST_VALUE_FIELDS: seq<Scored> := [Scored("best_value_1", 1), Scored("best_value_2", 1)]

  /** The number of rows where a field is truthy. */
  function TruthyCount(rows: seq<Record>, field: string): nat
    decreases |rows|
  {
    if rows == [] then 0 else TruthyCount(rows[..|rows| - 1], field) + (if FieldTruthy(rows[|rows| - 1], field) then 1 else 0)
  }

  function MentionRow(e: Entry, total: nat): seq<Cell>
  {
    [Text(RetailerLabel(e.key)), Number(e.count), Text(Pct(e.count, total) + "%")]
  }

  /** The best-value table on values: one row per mentioned retailer, in
      descending order of mentions, each share taken over the rows with a
      first pick. */
  function BestValueTable(data: seq<Record>): Table
  {
    var sorted := SortDesc(TallySpec(data, BEST_VALUE_FIELDS), EntryCount);
    Table(["Retailer", "Mentions", "% of Respondents"],
          seq(|sorted|, i requires 0 <= i < |sorted| => MentionRow(sorted[i], TruthyCount(data, "best_value_1"))))
  }

  /** `buildBestValueCSV(data)`: mentions of each store in either best-value
      pick, most mentioned first, as a share of the respondents with a first pick. */
  method BuildBestValueCsv(data: seq<Record>) returns (t: Table)
    ensures t == BestValueTable(data)
  {
    var c := Tally(data, BEST_VALUE_FIELDS);
    var total := TruthyCount(data, "best_value_1");
    var sorted := SortDesc(c, EntryCount);
    t := Table(["Retailer", "Mentions", "% of Respondents"],
               seq(|sorted|, i requires 0 <= i < |sorted| => MentionRow(sorted[i], total)));
  }

  /** Both picks count: the mentions add up to the rows with a first pick plus
      the rows with a second pick. */
  lemma BestValueMentions(data: seq<Record>)
    ensures Total(TallySpec(data, BEST_VALUE_FIELDS)) ==
            TruthyCount(data, "best_value_1") + TruthyCount(data, "best_value_2")
  {
    TallyTotal(data, BEST_VALUE_FIELDS);
    BestValuePoints(data);
  }

  lemma {:induction false} BestValuePoints(data: seq<Record>)
    ensures Points(data, BEST_VALUE_FIELDS) == TruthyCount(data, "best_value_1") + TruthyCount(data, "best_value_2")
    decreases |data|
  {
    if data != [] {
      BestValuePoints(data[..|data| - 1]);
      var r := data[|data| - 1];
      assert BEST_VALUE_FIELDS[..1][..0] == [];
      assert RowPoints(r, BEST_VALUE_FIELDS[..1]) == (if FieldTruthy(r, "best_value_1") then 1 else 0);
    }
  }

  const RAISED_FIELDS: seq<Scored> :=
    [Scored("price_raised_rank_1", 3), Scored("price_raised_rank_2", 2), Scored("price_raised_rank_3", 1)]
  const STABLE_FIELDS: seq<Scored> :=
    [Scored("price_stable_rank_1", 3), Scored("price_stable_rank_2", 2), Scored("price_stable_rank_3", 1)]

  /** Ranks 1, 2 and 3 score 3, 2 and 1 points. */
  lemma RankPoints(r: Record)
    ensures RowPoints(r, RAISED_FIELDS) ==
            (if FieldTruthy(r, "price_raised_rank_1") then 3 else 0) +
            (if FieldTruthy(r, "price_raised_rank_2") then 2 else 0) +
            (if FieldTruthy(r, "price_raised_rank_3") then 1 else 0)
    ensures RowPoints(r, STABLE_FIELDS) ==
            (if FieldTruthy(r, "price_stable_rank_1") then 3 else 0) +
            (if FieldTruthy(r, "price_stable_rank_2") then 2 else 0) +
            (if FieldTruthy(r, "price_stable_rank_3") then 1 else 0)
  {
    var a, b := RAISED_FIELDS, STABLE_FIELDS;
    assert a[..3] == a && a[..3][..2] == a[..2] && a[..2][..1] == a[..1] && a[..1][..0] == [];
    assert b[..3] == b && b[..3][..2] == b[..2] && b[..2][..1] == b[..1] && b[..1][..0] == [];
    assert RowPoints(r, a[..1]) == (if FieldTruthy(r, "price_raised_rank_1") then 3 else 0);
    assert RowPoints(r, a[..2]) == RowPoints(r, a[..1]) + (if FieldTruthy(r, "price_raised_rank_2") then 2 else 0);
    assert RowPoints(r, b[..1]) == (if FieldTruthy(r, "price_stable_rank_1") then 3 else 0);
    assert RowPoints(r, b[..2]) == RowPoints(r, b[..1]) + (if FieldTruthy(r, "price_stable_rank_2") then 2 else 0);
  }

  /** The stores of both tallies, each once: the raised keys, then the stable
      keys not already listed. */
  function UnionKeys(a: seq<string>, b: seq<string>): (r: seq<string>)
    ensures forall s :: s in r <==> s in a || s in b
    decreases |b|
  {
    if b == [] then a
    else
      var prev := UnionKeys(a, b[..|b| - 1]);
      assert forall s :: s in b <==> s in b[..|b| - 1] || s == b[|b| - 1] by {
        assert b == b[..|b| - 1] + [b[|b| - 1]];
      }
      if b[|b| - 1] in prev then prev else prev + [b[|b| - 1]]
  }

  function PriceRankRow(s: string, raised: seq<Entry>, stable: seq<Entry>): seq<Cell>
  {
    [Text(RetailerLabel(s)), Number(CountOf(raised, s)), Number(CountOf(stable, s))]
  }

  function StableColumn(row: seq<Cell>): int
  {
    if |row| > 2 && row[2].Number? then row[2].n else 0
  }

  /** The price-rank table on values: one row per store scored in either
      list, sorted by the stable score. */
  function PriceRankTable(data: seq<Record>): Table
  {
    var raised := TallySpec(data, RAISED_FIELDS);
    var stable := TallySpec(data, STABLE_FIELDS);
    var stores := UnionKeys(KeysOf(raised), KeysOf(stable));
    Table(["Retailer", "Raised Prices (weighted)", "Price Stable (weighted)"],
          SortDesc(seq(|stores|, i requires 0 <= i < |stores| => PriceRankRow(stores[i], raised, stable)), StableColumn))
  }

  /** `buildPriceRankCSV(data)`: each store's weighted score for raising prices
      and for keeping them stable, most stable first. */
  method BuildPriceRankCsv(data: seq<Record>) returns (t: Table)
    ensures var raised := TallySpec(data, RAISED_FIELDS);
            var stable := TallySpec(data, STABLE_FIELDS);
            var stores := UnionKeys(KeysOf(raised), KeysOf(stable));
            t.headers == ["Retailer", "Raised Prices (weighted)", "Price Stable (weighted)"] &&
            multiset(t.rows) == multiset(seq(|stores|, i requires 0 <= i < |stores| => PriceRankRow(stores[i], raised, stable))) &&
            SortedDesc(t.rows, StableColumn)
    ensures t == PriceRankTable(data)
  {
    var raised := Tally(data, RAISED_FIELDS);
    var stable := Tally(data, STABLE_FIELDS);
    var stores := UnionKeys(KeysOf(raised), KeysOf(stable));
    var rows := seq(|stores|, i requires 0 <= i < |stores| => PriceRankRow(stores[i], raised, stable));
    SortDescSorted(rows, StableColumn);
    t := Table(["Retailer", "Raised Prices (weighted)", "Price Stable (weighted)"], SortDesc(rows, StableColumn));
  }

  // ---------------------------------------------------------------------------
  // exportQuestionCSV

  datatype QuestionType =
    | Overview | Completion | QualityControl | Categorical | FunnelMatrix | ShareOfWallet | StoreFrequency
    | Nps | NpsVerbatim | KpcImportance | KpcPerformance | SowDirection | Tradedown | BestValue | PriceRank

  function QuestionTypeName(q: QuestionType): string
  {
    match q
    case Overview => "custom_overview"
    case Completion => "custom_completion"
    case QualityControl => "custom_qc"
    case Categorical => "categorical"
    case FunnelMatrix => "funnel_matrix"
    case ShareOfWallet => "custom_sow"
    case StoreFrequency => "custom_store_freq"
    case Nps => "custom_nps"
    case NpsVerbatim => "custom_nps_verbatim"
    case KpcImportance => "custom_kpc_importance"
    case KpcPerformance => "custom_kpc_performance"
    case SowDirection => "custom_sow_direction"
    case Tradedown => "custom_tradedown"
    case BestValue => "custom_best_value"
    case PriceRank => "custom_price_rank"
  }

  /** The `switch (question.type)` of the export. */
  function ParseQuestionType(t: string): (q: Option<QuestionType>)
    ensures q.Some? ==> QuestionTypeName(q.value) == t
  {
    if t == "custom_overview" then Some(Overview)
    else if t == "custom_completion" then Some(Completion)
    else if t == "custom_qc" then Some(QualityControl)
    else if t == "categorical" then Some(Categorical)
    else if t == "funnel_matrix" then Some(FunnelMatrix)
    else if t == "custom_sow" then Some(ShareOfWallet)
    else if t == "custom_store_freq" then Some(StoreFrequency)
    else if t == "custom_nps" then Some(Nps)
    else if t == "custom_nps_verbatim" then Some(NpsVerbatim)
    else if t == "custom_kpc_importance" then Some(KpcImportance)
    else if t == "custom_kpc_performance" then Some(KpcPerformance)
    else if t == "custom_sow_direction" then Some(SowDirection)
    else if t == "custom_tradedown" then Some(Tradedown)
    else if t == "custom_best_value" then Some(BestValue)
    else if t == "custom_price_rank" then Some(PriceRank)
    else None
  }

  /** Every question type is recognised by its name, and only the fifteen
      names are: any other type exports nothing. */
  lemma QuestionTypeRoundTrip(q: QuestionType, t: string)
    ensures ParseQuestionType(QuestionTypeName(q)) == Some(q)
    ensures ParseQuestionType(t).None? <==> forall q' :: QuestionTypeName(q') != t
  {
    if ParseQuestionType(t).Some? {
      assert QuestionTypeName(ParseQuestionType(t).value) == t;
    }
  }

  /** What an export produces: nothing for an unknown type, the CSV text for
      a modelled builder, or the builder that is outside this model. */
  datatype Export = NoExport | Exported(csv: string) | NotModelled(q: QuestionType)

  /** The CSV text of a table, as `toCsvString` writes it. */
  function CsvText(t: Table): string
  {
    ToCsvString(t.headers, t.rows)
  }

  /** The four question types whose CSV builder this model covers. */
  predicate HasBuilder(q: QuestionType)
  {
    q == Categorical || q == FunnelMatrix || q == BestValue || q == PriceRank
  }

  /** The export on values: the `switch` on the question type, once the type
      name has been recognised (None for an unknown name). */
  function ExportOf(q: Option<QuestionType>, field: string, labels: Option<map<string, string>>, data: seq<Record>): Export
  {
    match q
    case None => NoExport
    case Some(Categorical) => Exported(CsvText(BuildFrequencyCsv(data, field, labels)))
    case Some(FunnelMatrix) => Exported(CsvText(FunnelTable(data)))
    case Some(BestValue) => Exported(CsvText(BestValueTable(data)))
    case Some(PriceRank) => Exported(CsvText(PriceRankTable(data)))
    case Some(t) => NotModelled(t)
  }

  /** An unknown type exports nothing, the four modelled types export CSV
      text, and every other known type is one whose builder is outside this
      model. */
  lemma ExportKinds(q: Option<QuestionType>, field: string, labels: Option<map<string, string>>, data: seq<Record>)
    ensures var r := ExportOf(q, field, labels, data);
            (r == NoExport <==> q.None?) &&
            (r.Exported? <==> q.Some? && HasBuilder(q.value)) &&
            (r.NotModelled? <==> q.Some? && !HasBuilder(q.value)) &&
            (r.NotModelled? ==> q == Some(r.q))
  {
  }

  /** `exportQuestionCSV(question, data)` up to the download. */
  method ExportQuestionCsv(qtype: string, field: string, labels: Option<map<string, string>>, data: seq<Record>)
    returns (r: Export)
    ensures r == ExportOf(ParseQuestionType(qtype), field, labels, data)
    ensures r == NoExport <==> ParseQuestionType(qtype).None?
    ensures qtype == QuestionTypeName(Categorical) ==> r == Exported(CsvText(BuildFrequencyCsv(data, field, labels)))
    ensures qtype == QuestionTypeName(FunnelMatrix) ==> r == Exported(CsvText(FunnelTable(data)))
    ensures qtype == QuestionTypeName(BestValue) ==> r == Exported(CsvText(BestValueTable(data)))
    ensures qtype == QuestionTypeName(PriceRank) ==> r == Exported(CsvText(PriceRankTable(data)))
    ensures r.Exported? <==> ParseQuestionType(qtype).Some? && HasBuilder(ParseQuestionType(qtype).value)
    ensures r.NotModelled? <==> ParseQuestionType(qtype).Some? && !HasBuilder(ParseQuestionType(qtype).value)
    ensures r.NotModelled? ==> ParseQuestionType(qtype) == Some(r.q)
  {
    QuestionTypeRoundTrip(Categorical, qtype);
    QuestionTypeRoundTrip(FunnelMatrix, qtype);
    QuestionTypeRoundTrip(BestValue, qtype);
    QuestionTypeRoundTrip(PriceRank, qtype);
    ExportKinds(ParseQuestionType(qtype), field, labels, data);
    var q := ParseQuestionType(qtype);
    if q.None? {
      return NoExport;
    }
    var t: Table;
    match q.value {
      case Categorical =>
        t := BuildFrequencyCsv(data, field, labels);
      case FunnelMatrix =>
        t := BuildFunnelCsv(data);
      case BestValue =>
        t := BuildBestValueCsv(data);
      case PriceRank =>
        t := BuildPriceRankCsv(data);
      case _ =>
        return NotModelled(q.value);
    }
    return Exported(CsvText(t));
  }
}
