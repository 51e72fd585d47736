/** The filter panel's state updates and counters. Each update returns the
    new state React is handed. */
module FilterPanel {
  import opened Common
  import opened AnalysisTypes
  import AnalysisDashboard

  /** `{ ...filters, [key]: list }`: the entry is replaced where it stands, or
      appended when the key is new. */
  function PutValues(filters: Filters, key: string, list: seq<string>): (r: Filters)
    ensures ValuesOf(r, key) == list
    ensures forall k :: k != key ==> ValuesOf(r, k) == ValuesOf(filters, k)
    ensures UniqueKeys(filters) ==> UniqueKeys(r)
    ensures forall i :: 0 <= i < |r| ==> r[i].key == key || r[i] in filters
  {
    if filters == [] then [QuickFilter(key, list)]
    else if filters[0].key == key then [QuickFilter(key, list)] + filters[1..]
    else
      var rest := PutValues(filters[1..], key, list);
      assert forall i :: 0 <= i < |rest| ==> rest[i].key == key || rest[i] in filters[1..];
      [filters[0]] + rest
  }

  /** `toggleFilter(key, val)`: toggles the value in that key's list only. */
  function ToggleFilter(filters: Filters, key: string, val: string): (r: Filters)
    ensures ValuesOf(r, key) == Toggle(ValuesOf(filters, key), val)
    ensures forall k :: k != key ==> ValuesOf(r, k) == ValuesOf(filters, k)
    ensures UniqueKeys(filters) ==> UniqueKeys(r)
  {
    PutValues(filters, key, Toggle(ValuesOf(filters, key), val))
  }

  /** Toggling a value twice restores what every key admits. */
  lemma ToggleFilterTwice(filters: Filters, key: string, val: string)
    ensures var twice := ToggleFilter(ToggleFilter(filters, key, val), key, val);
            (forall x :: x in ValuesOf(twice, key) <==> x in ValuesOf(filters, key)) &&
            (val !in ValuesOf(filters, key) ==> ValuesOf(twice, key) == ValuesOf(filters, key)) &&
            (forall k :: k != key ==> ValuesOf(twice, k) == ValuesOf(filters, k))
  {
    ToggleTwice(ValuesOf(filters, key), val);
  }

  /** `clearAll()`: no quick filters and no question filters. */
  function ClearAll(): (r: (Filters, seq<QuestionFilter>))
    ensures !AnalysisDashboard.IsFiltered(r.0, r.1)
  {
    ([], [])
  }

  /** `demoActiveCount`: the number of selected quick-filter values. */
  function DemoActiveCount(filters: Filters): nat
  {
    if filters == [] then 0 else |filters[0].vals| + DemoActiveCount(filters[1..])
  }

  /** The quick-filter count is zero exactly when no quick filter has a value. */
  lemma {:induction false} DemoCountZero(filters: Filters)
    ensures DemoActiveCount(filters) == 0 <==> forall i :: 0 <= i < |filters| ==> |filters[i].vals| == 0
  {
    if filters != [] {
      DemoCountZero(filters[1..]);
      assert forall i :: 1 <= i < |filters| ==> filters[i] == filters[1..][i - 1];
    }
  }

  /** A question filter that counts as active: a known definition and a set
      value of the kind that definition reads. */
  predicate IsActive(defs: seq<FilterDef>, qf: QuestionFilter)
  {
    var cfg := FindDef(defs, qf.id);
    cfg.Some? &&
    match cfg.value.filterType
    case Binary => qf.binaryVal.Some?
    case Numeric => qf.numVal != ""
    case _ => |qf.values| > 0
  }

  /** `qfActiveCount` */
  function QfActiveCount(defs: seq<FilterDef>, qfs: seq<QuestionFilter>): (n: nat)
    ensures n <= |qfs|
    ensures n == 0 <==> forall i :: 0 <= i < |qfs| ==> !IsActive(defs, qfs[i])
  {
    if qfs == [] then 0
    else
      var rest := QfActiveCount(defs, qfs[1..]);
      assert forall i :: 1 <= i < |qfs| ==> qfs[i] == qfs[1..][i - 1];
      (if IsActive(defs, qfs[0]) then 1 else 0) + rest
  }

  /** A question filter that is not active passes every row. */
  lemma InactivePasses(defs: seq<FilterDef>, qf: QuestionFilter, row: Record)
    requires !IsActive(defs, qf)
    ensures AnalysisDashboard.PassesQuestion(defs, qf, row)
  {
    var cfg := FindDef(defs, qf.id);
    if cfg.Some? {
      match cfg.value.filterType {
        case Binary =>
        case Numeric =>
        case Categorical =>
        case CategoricalDynamic =>
      }
    }
  }

  function Ids(qfs: seq<QuestionFilter>): (ids: set<string>)
    ensures forall id :: id in ids <==> exists i :: 0 <= i < |qfs| && qfs[i].id == id
  {
    set i | 0 <= i < |qfs| :: qfs[i].id
  }

  /** `availableQuestions`: the definitions not yet added, in order. */
  function AvailableQuestions(defs: seq<FilterDef>, qfs: seq<QuestionFilter>): (r: seq<FilterDef>)
    ensures forall d :: d in r <==> d in defs && d.id !in Ids(qfs)
    ensures |r| <= |defs|
  {
    if defs == [] then []
    else
      var rest := AvailableQuestions(defs[1..], qfs);
      if defs[0].id in Ids(qfs) then rest else [defs[0]] + rest
  }

  /** The filter a new card starts from: no values, `gte`, blank boxes, no binary value. */
  function Fresh(id: string): QuestionFilter
  {
    QuestionFilter(id, [], "gte", "", "", None)
  }

  /** `addQuestionFilter(def)` */
  function AddQuestionFilter(qfs: seq<QuestionFilter>, def: FilterDef): (r: seq<QuestionFilter>)
    ensures |r| == |qfs| + 1 && r[..|qfs|] == qfs && r[|qfs|] == Fresh(def.id)
    ensures def.id in Ids(r) && Ids(r) == Ids(qfs) + {def.id}
  {
    var r := qfs + [Fresh(def.id)];
    assert r[|qfs|].id == def.id;
    assert forall i :: 0 <= i < |qfs| ==> r[i] == qfs[i];
    r
  }

  /** An added question is no longer offered, and the new card is inactive:
      it leaves the count and the filtered rows as they were. */
  lemma AddedFilterIsNeutral(defs: seq<FilterDef>, filters: Filters, qfs: seq<QuestionFilter>, def: FilterDef,
                             allData: seq<Record>)
    ensures def !in AvailableQuestions(defs, AddQuestionFilter(qfs, def))
    ensures QfActiveCount(defs, AddQuestionFilter(qfs, def)) == QfActiveCount(defs, qfs)
    ensures AnalysisDashboard.FilteredData(defs, filters, AddQuestionFilter(qfs, def), allData) ==
            AnalysisDashboard.FilteredData(defs, filters, qfs, allData)
  {
    var qf := Fresh(def.id);
    assert !IsActive(defs, qf);
    forall i | 0 <= i < |allData| ensures AnalysisDashboard.PassesQuestion(defs, qf, allData[i]) {
      InactivePasses(defs, qf, allData[i]);
    }
    AnalysisDashboard.NeutralFilterKeepsData(defs, filters, qfs, qf, allData);
    ActiveCountSnoc(defs, qfs, qf);
  }

  lemma {:induction false} ActiveCountSnoc(defs: seq<FilterDef>, qfs: seq<QuestionFilter>, qf: QuestionFilter)
    ensures QfActiveCount(defs, qfs + [qf]) == QfActiveCount(defs, qfs) + (if IsActive(defs, qf) then 1 else 0)
  {
    if qfs != [] {
      assert (qfs + [qf])[1..] == qfs[1..] + [qf];
      ActiveCountSnoc(defs, qfs[1..], qf);
    }
  }

  /** `updateQF(idx, updated)`: only index `idx` changes. */
  function UpdateQf(qfs: seq<QuestionFilter>, idx: int, updated: QuestionFilter): (r: seq<QuestionFilter>)
    ensures |r| == |qfs|
    ensures forall i :: 0 <= i < |qfs| ==> r[i] == if i == idx then updated else qfs[i]
  {
    seq(|qfs|, i requires 0 <= i < |qfs| => if i == idx then updated else qfs[i])
  }

  /** `removeQF(idx)`: only index `idx` goes; the others keep their order. */
  function RemoveQf(qfs: seq<QuestionFilter>, idx: int): (r: seq<QuestionFilter>)
    ensures 0 <= idx < |qfs| ==> |r| == |qfs| - 1
    ensures !(0 <= idx < |qfs|) ==> r == qfs
    ensures forall i :: 0 <= i < |r| ==> r[i] == if 0 <= idx <= i then qfs[i + 1] else qfs[i]
  {
    if 0 <= idx < |qfs| then qfs[..idx] + qfs[idx + 1..] else qfs
  }

  /** Removing the card just added gives back the filters before it. */
  lemma AddThenRemove(qfs: seq<QuestionFilter>, def: FilterDef)
    ensures RemoveQf(AddQuestionFilter(qfs, def), |qfs|) == qfs
  {
  }
}
