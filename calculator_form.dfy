/** The calculator form's option lists: ticking a checkbox appends its
    value to the engineering-options or extras list, unticking removes it. */
module CalculatorForm {
  import opened Types

  /** `xs` without any occurrence of `v`, the rest in order. */
  function RemoveAll<T(==)>(xs: seq<T>, v: T): (r: seq<T>)
    ensures v !in r
    ensures multiset(r) == multiset(xs)[v := 0]
  {
    if xs == [] then []
    else
      assert xs == [xs[0]] + xs[1..];
      if xs[0] == v then RemoveAll(xs[1..], v)
      else [xs[0]] + RemoveAll(xs[1..], v)
  }

  /** Removal works element by element, so it keeps the order of what remains. */
  lemma {:induction false} RemoveAllAppend<T>(xs: seq<T>, ys: seq<T>, v: T)
    ensures RemoveAll(xs + ys, v) == RemoveAll(xs, v) + RemoveAll(ys, v)
  {
    if xs == [] {
      assert xs + ys == ys;
    } else {
      assert (xs + ys)[0] == xs[0];
      assert (xs + ys)[1..] == xs[1..] + ys;
      RemoveAllAppend(xs[1..], ys, v);
      if xs[0] != v {
        calc {
          RemoveAll(xs + ys, v);
          [xs[0]] + RemoveAll(xs[1..] + ys, v);
          [xs[0]] + (RemoveAll(xs[1..], v) + RemoveAll(ys, v));
          ([xs[0]] + RemoveAll(xs[1..], v)) + RemoveAll(ys, v);
        }
      }
    }
  }

  /** Removing a value that is absent changes nothing. */
  lemma {:induction false} RemoveAbsent<T>(xs: seq<T>, v: T)
    requires v !in xs
    ensures RemoveAll(xs, v) == xs
  {
    if xs != [] {
      RemoveAbsent(xs[1..], v);
    }
  }

  /** The new list after a checkbox for `value` changes: an absent list
      counts as empty; ticking appends the value (a second tick adds a
      second copy); unticking drops every copy and keeps the rest in order. */
  function Toggle<T(==)>(current: Option<seq<T>>, value: T, checked: bool): (r: seq<T>)
    ensures checked ==> |r| == |current.GetOr([])| + 1 && r[|r| - 1] == value
    ensures checked ==> r[..|r| - 1] == current.GetOr([])
    ensures checked ==> multiset(r)[value] == multiset(current.GetOr([]))[value] + 1
    ensures !checked ==> r == RemoveAll(current.GetOr([]), value)
    ensures !checked ==> value !in r
    ensures !checked ==> multiset(r) == multiset(current.GetOr([]))[value := 0]
  {
    var currentValues := current.GetOr([]);
    if checked then
      assert (currentValues + [value])[..|currentValues|] == currentValues;
      currentValues + [value]
    else RemoveAll(currentValues, value)
  }

  /** Ticking then unticking a value that was not listed restores the list. */
  lemma TickUntick<T>(current: seq<T>, value: T)
    requires value !in current
    ensures Toggle(Some(Toggle(Some(current), value, true)), value, false) == current
  {
    RemoveAllAppend(current, [value], value);
    RemoveAbsent(current, value);
  }

  /** Unticking twice is unticking once. */
  lemma UntickTwice<T>(current: Option<seq<T>>, value: T)
    ensures Toggle(Some(Toggle(current, value, false)), value, false) == Toggle(current, value, false)
  {
    RemoveAbsent(Toggle(current, value, false), value);
  }

  datatype ListName = EngineeringOptionsList | ExtrasList

  /** The option lists of an initial form value; either may be absent. */
  datatype FormLists = FormLists(engineeringOptions: Option<seq<string>>, extras: Option<seq<string>>)

  /** The form's option lists; other form fields are not part of this model. */
  class FormData {
    var engineeringOptions: Option<seq<string>>
    var extras: Option<seq<string>>

    /** The form starts from the initial data when given, and otherwise
        with both lists empty. */
    constructor(initialData: Option<FormLists>)
      ensures initialData.Some? ==>
        engineeringOptions == initialData.value.engineeringOptions && extras == initialData.value.extras
      ensures initialData.None? ==> engineeringOptions == Some([]) && extras == Some([])
    {
      if initialData.Some? {
        engineeringOptions := initialData.value.engineeringOptions;
        extras := initialData.value.extras;
      } else {
        engineeringOptions := Some([]);
        extras := Some([]);
      }
    }

    /** New initial data, when given, replaces the form's lists. */
    method ApplyInitialData(initialData: Option<FormLists>)
      modifies this
      ensures initialData.Some? ==>
        engineeringOptions == initialData.value.engineeringOptions && extras == initialData.value.extras
      ensures initialData.None? ==> engineeringOptions == old(engineeringOptions) && extras == old(extras)
    {
      if initialData.Some? {
        engineeringOptions := initialData.value.engineeringOptions;
        extras := initialData.value.extras;
      }
    }

    /** Replaces the named list by its toggled version; the other list is kept. */
    method HandleCheckboxChange(name: ListName, value: string, checked: bool)
      modifies this
      ensures name == EngineeringOptionsList ==>
        engineeringOptions == Some(Toggle(old(engineeringOptions), value, checked)) && extras == old(extras)
      ensures name == ExtrasList ==>
        extras == Some(Toggle(old(extras), value, checked)) && engineeringOptions == old(engineeringOptions)
    {
      var currentValues := if name == EngineeringOptionsList then engineeringOptions.GetOr([]) else extras.GetOr([]);
      var newValues := if checked then currentValues + [value] else RemoveAll(currentValues, value);
      if name == EngineeringOptionsList {
        engineeringOptions := Some(newValues);
      } else {
        extras := Some(newValues);
      }
    }
  }
}
