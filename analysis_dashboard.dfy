/** The analysis dashboard's row filter: a row is kept when it passes every
    quick filter and every question filter. */
module AnalysisDashboard {
  import opened Common
  import opened AnalysisTypes

  /** A quick filter with no values passes every row; otherwise the row's
      field, as `String(row[key])`, must be one of the values. */
  predicate PassesQuick(f: QuickFilter, row: Record)
  {
    |f.vals| == 0 || JsString(Get(row, f.key)) in f.vals
  }

  predicate PassesAllQuick(filters: Filters, row: Record)
  {
    forall i :: 0 <= i < |filters| ==> PassesQuick(filters[i], row)
  }

  /** `Number(s)` for the text of a numeric filter box; None for NaN. */
  function InputNumber(s: string): Option<int>
  {
    ToNumber(Some(Str(s)))
  }

  /** The numeric comparison, given the row's number and the bounds (None is NaN). */
  predicate CompareNumeric(op: string, rowVal: int, target: Option<int>, target2: Option<int>)
  {
    if op == "gte" then target.Some? && rowVal >= target.value
    else if op == "lte" then target.Some? && rowVal <= target.value
    else if op == "eq" then target.Some? && rowVal == target.value
    else if op == "between" then
      if target2.None? then target.Some? && rowVal >= target.value
      else target.Some? && rowVal >= target.value && rowVal <= target2.value
    else true
  }

  /** One question filter on one row. */
  predicate PassesQuestion(defs: seq<FilterDef>, qf: QuestionFilter, row: Record)
  {
    var cfg := FindDef(defs, qf.id);
    if cfg.None? then true
    else
      var field := Get(row, cfg.value.field);
      match cfg.value.filterType
      case Categorical | CategoricalDynamic =>
        |qf.values| == 0 || JsString(field) in qf.values
      case Numeric =>
        if qf.numVal == "" then true
        else
          var rowVal := ToNumber(field);
          rowVal.Some? && CompareNumeric(EffectiveOperator(qf), rowVal.value, InputNumber(qf.numVal), InputNumber(qf.numVal2))
      case Binary =>
        qf.binaryVal.None? || JsString(field) == qf.binaryVal.value
  }

  predicate Passes(defs: seq<FilterDef>, filters: Filters, qfs: seq<QuestionFilter>, row: Record)
  {
    PassesAllQuick(filters, row) && forall i :: 0 <= i < |qfs| ==> PassesQuestion(defs, qfs[i], row)
  }

  /** `filteredData`: the rows that pass, in their order. */
  function FilteredData(defs: seq<FilterDef>, filters: Filters, qfs: seq<QuestionFilter>, allData: seq<Record>)
    : (r: seq<Record>)
    ensures forall row :: row in r ==> row in allData && Passes(defs, filters, qfs, row)
    ensures forall row :: row in allData && Passes(defs, filters, qfs, row) ==> row in r
    ensures SubsequenceOf(r, allData)
  {
    if allData == [] then []
    else
      var rest := FilteredData(defs, filters, qfs, allData[1..]);
      if Passes(defs, filters, qfs, allData[0]) then
        assert ([allData[0]] + rest)[1..] == rest;
        [allData[0]] + rest
      else rest
  }

  /** `isFiltered`: some quick filter has a value, or a question filter exists. */
  predicate IsFiltered(filters: Filters, qfs: seq<QuestionFilter>)
  {
    (exists i :: 0 <= i < |filters| && |filters[i].vals| > 0) || |qfs| > 0
  }

  /** With nothing filtered every row is kept. */
  lemma {:induction false} UnfilteredKeepsAll(defs: seq<FilterDef>, filters: Filters, qfs: seq<QuestionFilter>, allData: seq<Record>)
    requires !IsFiltered(filters, qfs)
    ensures FilteredData(defs, filters, qfs, allData) == allData
  {
    if allData != [] {
      UnfilteredKeepsAll(defs, filters, qfs, allData[1..]);
      assert Passes(defs, filters, qfs, allData[0]);
    }
  }

  /** A blank numeric box passes every row; a row whose field is not a
      number fails any other numeric filter. */
  lemma NumericBlankAndNaN(def: FilterDef, qf: QuestionFilter, row: Record)
    requires def.filterType == Numeric && def.id == qf.id
    ensures qf.numVal == "" ==> PassesQuestion([def], qf, row)
    ensures qf.numVal != "" && ToNumber(Get(row, def.field)).None? ==> !PassesQuestion([def], qf, row)
  {
    assert FindDef([def], qf.id) == Some(def);
  }

  /** `between` is inclusive at both ends and falls back to `>=` when the
      upper bound is not a number. */
  lemma BetweenMeaning(def: FilterDef, qf: QuestionFilter, row: Record, v: int, lo: int)
    requires def.filterType == Numeric && def.id == qf.id && qf.numVal != "" && qf.operator == "between"
    requires ToNumber(Get(row, def.field)) == Some(v) && InputNumber(qf.numVal) == Some(lo)
    ensures var hi := InputNumber(qf.numVal2);
            PassesQuestion([def], qf, row) <==> lo <= v && (hi.None? || v <= hi.value)
  {
    NumericCompares(def, qf, row, v);
    assert EffectiveOperator(qf) == "between";
  }

  /** A filled numeric box on a numeric row is the comparison of the row's
      number with the box's bounds. */
  lemma NumericCompares(def: FilterDef, qf: QuestionFilter, row: Record, v: int)
    requires def.filterType == Numeric && def.id == qf.id && qf.numVal != ""
    requires ToNumber(Get(row, def.field)) == Some(v)
    ensures PassesQuestion([def], qf, row) ==
            CompareNumeric(EffectiveOperator(qf), v, InputNumber(qf.numVal), InputNumber(qf.numVal2))
  {
    assert FindDef([def], qf.id) == Some(def);
  }

  /** A question filter every row passes leaves the filtered rows as they
      were. */
  lemma {:induction false} NeutralFilterKeepsData(defs: seq<FilterDef>, filters: Filters, qfs: seq<QuestionFilter>,
                                                  qf: QuestionFilter, allData: seq<Record>)
    requires forall i :: 0 <= i < |allData| ==> PassesQuestion(defs, qf, allData[i])
    ensures FilteredData(defs, filters, qfs + [qf], allData) == FilteredData(defs, filters, qfs, allData)
  {
    if allData != [] {
      NeutralFilterKeepsData(defs, filters, qfs, qf, allData[1..]);
      var row := allData[0];
      assert PassesQuestion(defs, qf, row);
      assert Passes(defs, filters, qfs + [qf], row) == Passes(defs, filters, qfs, row) by {
        assert forall i :: 0 <= i < |qfs| ==> (qfs + [qf])[i] == qfs[i];
        assert (qfs + [qf])[|qfs|] == qf;
      }
    }
  }

  /** A question filter whose id has no definition never removes a row. */
  lemma UnknownQuestionKeepsData(defs: seq<FilterDef>, filters: Filters, qfs: seq<QuestionFilter>,
                                 qf: QuestionFilter, allData: seq<Record>)
    requires forall d :: d in defs ==> d.id != qf.id
    ensures FilteredData(defs, filters, qfs + [qf], allData) == FilteredData(defs, filters, qfs, allData)
  {
    NeutralFilterKeepsData(defs, filters, qfs, qf, allData);
  }
}
