/** The multi-select question widget's click handler. An exclusive option
    ("None of the above") replaces the whole selection; any other option
    clears the exclusive ones and toggles itself, within an optional cap. */
module MultiSelect {
  import opened Common

  /** One option of the widget: its value and whether it is exclusive. */
  datatype Choice = Choice(value: Value, exclusive: bool)

  /** `options.find(o => o.value === v)?.exclusive`: the first option with
      that value decides; a value with no option is not exclusive. */
  predicate IsExclusive(options: seq<Choice>, v: Value)
  {
    if options == [] then false
    else if options[0].value == v then options[0].exclusive
    else IsExclusive(options[1..], v)
  }

  /** The selected values that are not exclusive, in order. */
  function NonExclusive(options: seq<Choice>, values: seq<Value>): (r: seq<Value>)
    ensures |r| <= |values|
    ensures forall x :: x in r ==> x in values && !IsExclusive(options, x)
    ensures forall x :: x in values && !IsExclusive(options, x) ==> x in r
    ensures Distinct(values) ==> Distinct(r)
  {
    if values == [] then []
    else
      var rest := NonExclusive(options, values[1..]);
      assert forall i :: 0 <= i < |rest| ==> rest[i] in values[1..];
      if IsExclusive(options, values[0]) then rest else [values[0]] + rest
  }

  /** `handleToggle(option)`: the list handed to `onChange`, or None when the
      cap is reached and nothing is emitted. A cap of 0 means no cap, as
      `maxSelections &&` reads it. */
  function HandleToggle(options: seq<Choice>, values: seq<Value>, option: Choice, maxSelections: Option<nat>)
    : (r: Option<seq<Value>>)
    ensures option.exclusive && option.value in values ==> r == Some([])
    ensures option.exclusive && option.value !in values ==> r == Some([option.value])
    ensures !option.exclusive && r.Some? ==>
              forall x :: x in r.value && x != option.value ==> x in values && !IsExclusive(options, x)
    ensures !option.exclusive && option.value in NonExclusive(options, values) ==>
              r == Some(Without(NonExclusive(options, values), option.value))
    ensures !option.exclusive && option.value !in NonExclusive(options, values) ==>
              (r.None? <==> maxSelections.Some? && maxSelections.value > 0 &&
                            |NonExclusive(options, values)| >= maxSelections.value) &&
              (r.Some? ==> r.value == NonExclusive(options, values) + [option.value])
  {
    if option.exclusive then
      if option.value in values then Some([]) else Some([option.value])
    else
      var kept := NonExclusive(options, values);
      if option.value in kept then Some(Without(kept, option.value))
      else if maxSelections.Some? && maxSelections.value > 0 && |kept| >= maxSelections.value then None
      else Some(kept + [option.value])
  }

  /** A selection without duplicates stays without duplicates. */
  lemma ToggleKeepsDistinct(options: seq<Choice>, values: seq<Value>, option: Choice, maxSelections: Option<nat>)
    requires Distinct(values)
    ensures var r := HandleToggle(options, values, option, maxSelections);
            r.Some? ==> Distinct(r.value)
  {
    var kept := NonExclusive(options, values);
    if !option.exclusive && option.value !in kept {
      var r := kept + [option.value];
      forall i, j | 0 <= i < j < |r| ensures r[i] != r[j] {
        if j == |kept| {
          assert r[i] == kept[i];
        }
      }
    }
  }

  /** When every option's value is unique, a non-exclusive click leaves no
      exclusive value selected. */
  lemma {:induction false} ToggleDropsExclusive(options: seq<Choice>, values: seq<Value>, option: Choice, maxSelections: Option<nat>)
    requires option in options && !option.exclusive
    requires forall i, j :: 0 <= i < j < |options| ==> options[i].value != options[j].value
    ensures var r := HandleToggle(options, values, option, maxSelections);
            r.Some? ==> forall x :: x in r.value ==> !IsExclusive(options, x)
  {
    FirstOptionDecides(options, option);
  }

  lemma {:induction false} FirstOptionDecides(options: seq<Choice>, option: Choice)
    requires option in options
    requires forall i, j :: 0 <= i < j < |options| ==> options[i].value != options[j].value
    ensures IsExclusive(options, option.value) == option.exclusive
  {
    if options[0] != option {
      assert option in options[1..];
      var k :| 0 <= k < |options[1..]| && options[1..][k] == option;
      assert options[k + 1] == option;
      FirstOptionDecides(options[1..], option);
    }
  }

  /** Clicking a non-exclusive option twice restores a selection that held no
      exclusive value and not that option, when the cap allowed the first click. */
  lemma ToggleTwiceRestores(options: seq<Choice>, values: seq<Value>, option: Choice, maxSelections: Option<nat>)
    requires !option.exclusive && !IsExclusive(options, option.value) && option.value !in values
    requires forall x :: x in values ==> !IsExclusive(options, x)
    requires HandleToggle(options, values, option, maxSelections).Some?
    ensures var once := HandleToggle(options, values, option, maxSelections).value;
            HandleToggle(options, once, option, maxSelections) == Some(values)
  {
    AllKept(options, values);
    var once := values + [option.value];
    assert forall x :: x in once ==> x in values || x == option.value;
    AllKept(options, once);
    WithoutLast(values, option.value);
  }

  lemma {:induction false} AllKept(options: seq<Choice>, values: seq<Value>)
    requires forall x :: x in values ==> !IsExclusive(options, x)
    ensures NonExclusive(options, values) == values
  {
    if values != [] {
      assert forall x :: x in values[1..] ==> x in values;
      AllKept(options, values[1..]);
      assert values == [values[0]] + values[1..];
    }
  }

  /** Only a value some option marks exclusive reads as exclusive. */
  lemma {:induction false} ExclusiveHasOption(options: seq<Choice>, v: Value)
    requires IsExclusive(options, v)
    ensures exists i :: 0 <= i < |options| && options[i].value == v && options[i].exclusive
  {
    if options[0].value != v {
      ExclusiveHasOption(options[1..], v);
      var i :| 0 <= i < |options[1..]| && options[1..][i].value == v && options[1..][i].exclusive;
      assert options[i + 1] == options[1..][i];
    }
  }
}
