/** The analysis dashboard's filter state: quick filters keyed by a record
    field, and question filters configured by a filterable-question
    definition. */
module AnalysisTypes {
  import opened Common

  datatype FilterType = Categorical | CategoricalDynamic | Numeric | Binary

  /** The part of a filterable-question definition the filters read. */
  datatype FilterDef = FilterDef(id: string, field: string, filterType: FilterType, labelMap: Option<map<string, string>>)

  /** `QuestionFilter`: the state of one question filter card. */
  datatype QuestionFilter = QuestionFilter(
    id: string, values: seq<string>, operator: string, numVal: string, numVal2: string, binaryVal: Option<string>)

  /** One quick filter: a field and the values it admits. */
  datatype QuickFilter = QuickFilter(key: string, vals: seq<string>)

  /** The quick-filter object as its entries in insertion order. */
  type Filters = seq<QuickFilter>

  /** A JavaScript object has each key once. */
  predicate UniqueKeys(filters: Filters)
  {
    forall i, j :: 0 <= i < j < |filters| ==> filters[i].key != filters[j].key
  }

  /** `filters[key] || []` */
  function ValuesOf(filters: Filters, key: string): seq<string>
  {
    if filters == [] then []
    else if filters[0].key == key then filters[0].vals
    else ValuesOf(filters[1..], key)
  }

  /** `FILTERABLE_QUESTIONS.find(f => f.id === id)` */
  function FindDef(defs: seq<FilterDef>, id: string): (r: Option<FilterDef>)
    ensures r.Some? ==> r.value in defs && r.value.id == id
    ensures r.None? <==> forall d :: d in defs ==> d.id != id
  {
    if defs == [] then None
    else if defs[0].id == id then Some(defs[0])
    else FindDef(defs[1..], id)
  }

  /** `qf.operator || 'gte'` */
  function EffectiveOperator(qf: QuestionFilter): string
  {
    if qf.operator == "" then "gte" else qf.operator
  }

  /** `list.includes(v) ? list.filter(x => x !== v) : [...list, v]` */
  function Toggle(list: seq<string>, v: string): (r: seq<string>)
    ensures v in list ==> v !in r && forall x :: x != v ==> (x in r <==> x in list)
    ensures v !in list ==> r == list + [v]
  {
    if v in list then Without(list, v) else list + [v]
  }

  /** Toggling the same value twice gives back the same members, and exactly
      the same list when the value was not there. */
  lemma ToggleTwice(list: seq<string>, v: string)
    ensures forall x :: x in Toggle(Toggle(list, v), v) <==> x in list
    ensures v !in list ==> Toggle(Toggle(list, v), v) == list
  {
    if v !in list {
      WithoutLast(list, v);
    } else {
      assert v in Toggle(Toggle(list, v), v);
    }
  }
}
