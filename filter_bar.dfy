/**
 * The `FilterBar` component: the count of active filters, the chips that
 * show them, and what deleting a chip asks of the parent. Object keys are
 * modelled as the keys of a map, so the chips are a map from filter key to
 * chip text and their order is not modelled.
 */
module FilterBar {
  import opened Wrappers
  import opened JsValues
  import opened FilterUtils

  datatype InputKind = SelectInput | TextInput | DateInput

  /** A `FilterOption`: the input's kind, the filter key it edits, its label and, for a select, its options. */
  datatype FilterInput = FilterInput(kind: InputKind, name: string, caption: string, options: Option<seq<SelectOption>>)

  /** A filter is active when its value is not `''`, `null` or `undefined`. */
  function ActiveKeys(filters: map<string, JsValue>): (keys: set<string>)
    ensures forall k :: k in keys <==> k in filters && !IsEmptyValue(filters[k])
  {
    set k | k in filters && !IsEmptyValue(filters[k])
  }

  /** `activeFilterCount`. */
  function ActiveFilterCount(filters: map<string, JsValue>): nat
  {
    |ActiveKeys(filters)|
  }

  /** The active filters are the ones `removeEmptyValues` keeps, so the count is the size of the cleaned filters. */
  lemma ActiveCountIsCleanedSize(filters: map<string, JsValue>)
    ensures ActiveFilterCount(filters) == |RemoveEmptyValues(filters)|
  {
    assert ActiveKeys(filters) == RemoveEmptyValues(filters).Keys;
  }

  /** The count badge and the clear button show exactly when some filter is active. */
  lemma BadgeShownIffSomeActive(filters: map<string, JsValue>)
    ensures ActiveFilterCount(filters) > 0 <==> exists k :: k in filters && !IsEmptyValue(filters[k])
  {
    if exists k :: k in filters && !IsEmptyValue(filters[k]) {
      var k :| k in filters && !IsEmptyValue(filters[k]);
      assert k in ActiveKeys(filters);
    }
  }

  /** `filterOptions.find(opt => opt.name === key)`. */
  function InputFor(inputs: seq<FilterInput>, key: string): (r: Option<FilterInput>)
    ensures r.None? <==> forall i :: 0 <= i < |inputs| ==> inputs[i].name != key
    ensures r.Some? ==> r.value.name == key
    ensures r.Some? ==> exists i :: 0 <= i < |inputs| && inputs[i] == r.value &&
                          forall j :: 0 <= j < i ==> inputs[j].name != key
  {
    if inputs == [] then None
    else if inputs[0].name == key then Some(inputs[0])
    else
      var r := InputFor(inputs[1..], key);
      if r.Some? then
        ghost var i :| 0 <= i < |inputs[1..]| && inputs[1..][i] == r.value &&
                       forall j :: 0 <= j < i ==> inputs[1..][j].name != key;
        assert inputs[i + 1] == r.value && forall j :: 0 <= j < i + 1 ==> inputs[j].name != key;
        r
      else r
  }

  /**
   * The chip text `` `${label}: ${value}` ``: a select shows the matched
   * option's label in place of the raw value; anything else shows the value's
   * `String` text.
   */
  function ChipText(input: FilterInput, v: JsValue): (text: string)
    ensures input.kind == SelectInput && input.options.Some? && OptionCaption(input.options.value, v).Some? ==>
      text == input.caption + ": " + OptionCaption(input.options.value, v).value
    ensures !(input.kind == SelectInput && input.options.Some? && OptionCaption(input.options.value, v).Some?) ==>
      text == input.caption + ": " + ToStr(v)
  {
    var shown :=
      if input.kind == SelectInput && input.options.Some? then
        var c := OptionCaption(input.options.value, v);
        if c.Some? then c.value else ToStr(v)
      else ToStr(v);
    input.caption + ": " + shown
  }

  /** `renderActiveFilterChips`: one chip per active filter that has an input. */
  function Chips(filters: map<string, JsValue>, inputs: seq<FilterInput>): (chips: map<string, string>)
    ensures forall k :: k in chips <==> k in ActiveKeys(filters) && InputFor(inputs, k).Some?
    ensures forall k :: k in chips ==> chips[k] == ChipText(InputFor(inputs, k).value, filters[k])
  {
    map k | k in ActiveKeys(filters) && InputFor(inputs, k).Some? :: ChipText(InputFor(inputs, k).value, filters[k])
  }

  lemma SubsetCard(a: set<string>, b: set<string>)
    requires a <= b
    ensures |a| <= |b|
    decreases |b|
  {
    if a != {} {
      var x :| x in a;
      SubsetCard(a - {x}, b - {x});
    }
  }

  /** There are never more chips than active filters. */
  lemma ChipsAtMostActive(filters: map<string, JsValue>, inputs: seq<FilterInput>)
    ensures |Chips(filters, inputs)| <= ActiveFilterCount(filters)
  {
    SubsetCard(Chips(filters, inputs).Keys, ActiveKeys(filters));
  }

  /** Deleting a chip sends `(key, '')`; once the parent stores it, that filter is inactive and the count drops by one. */
  lemma ChipDeleteDeactivates(filters: map<string, JsValue>, key: string)
    requires key in ActiveKeys(filters)
    ensures key !in ActiveKeys(filters[key := Str("")])
    ensures ActiveFilterCount(filters[key := Str("")]) == ActiveFilterCount(filters) - 1
  {
    assert ActiveKeys(filters[key := Str("")]) == ActiveKeys(filters) - {key};
  }
}
