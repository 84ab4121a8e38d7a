/** The filter side panel of the doctor search: one collapsible section per
    filter (all open at first), checkbox, radio and range controls whose
    state is read from each filter's `selected` value, a "Clear All" link
    shown while some filter is active, and an optional "Apply" button. */
module FilterPanel {
  import opened Text
  import opened Js

  /** One entry of the `filters` prop. `kind` is the `type` field; `format` is the
      suffix a `formatValue` callback appends (`None` when no callback is given). */
  datatype FilterSpec = FilterSpec(
    id: string,
    kind: string,
    options: seq<JsValue>,
    selected: JsValue,
    min: JsValue,
    max: JsValue,
    format: Option<string>)

  // ------------------------------------------------------------ activity

  /** Whether one filter counts as active for `hasActiveFilters`. */
  predicate IsActive(f: FilterSpec) {
    if f.kind == "checkbox" then
      Truthy(f.selected) && GreaterThan(Member(f.selected, "length"), 0)
    else if f.kind == "radio" then
      !f.selected.Undefined? && !f.selected.Null?
    else if f.kind == "range" then
      !f.selected.Undefined? && !StrictEquals(f.selected, f.min)
    else
      false
  }

  /** `filters.some(isActive)`, scanning from the front; the "Clear All" link is rendered
      exactly when it holds. */
  function HasActiveFilters(fs: seq<FilterSpec>): (r: bool)
    ensures r <==> exists i :: 0 <= i < |fs| && IsActive(fs[i])
  {
    if |fs| == 0 then false
    else if IsActive(fs[0]) then true
    else
      var rest := HasActiveFilters(fs[1..]);
      assert forall i :: 1 <= i < |fs| ==> fs[i] == fs[1..][i - 1];
      rest
  }

  /** The activity rule, case by case: a non-empty checkbox selection, a radio selection
      that is neither null nor undefined, a range value that is set and differs from the
      minimum; no other kind of filter is ever active. */
  lemma ActiveRules(f: FilterSpec)
    ensures f.kind == "checkbox" && f.selected.Arr? ==> (IsActive(f) <==> |f.selected.items| > 0)
    ensures f.kind == "checkbox" && f.selected.Str? ==> (IsActive(f) <==> |f.selected.s| > 0)
    ensures f.kind == "checkbox" && !Truthy(f.selected) ==> !IsActive(f)
    ensures f.kind == "radio" ==> (IsActive(f) <==> !Nullish(f.selected))
    ensures f.kind == "range" && f.selected.Num? ==> (IsActive(f) <==> f.selected != f.min)
    ensures f.kind !in {"checkbox", "radio", "range"} ==> !IsActive(f)
  {
  }

  /** The Apply button is rendered only when an `onApplyFilters` callback is supplied. */
  predicate ApplyShown(onApplyFilters: JsValue) {
    Truthy(onApplyFilters)
  }

  // ------------------------------------------------------------ controls

  /** `selected?.includes(value) || false` for a checkbox option. An array tests membership,
      a string tests for the value's text as a substring, null or undefined give false;
      on any other value `includes` is not a function and rendering throws (`None`). */
  function CheckboxChecked(selected: JsValue, value: JsValue): (r: Option<bool>)
    ensures selected.Arr? ==> r == Some(value in selected.items)
    ensures Nullish(selected) ==> r == Some(false)
    ensures r.None? <==> !(selected.Arr? || selected.Str? || Nullish(selected))
  {
    match selected
    case Undefined => Some(false)
    case Null => Some(false)
    case Arr(xs) => Some(value in xs)
    case Str(s) => Some(Includes(s, TemplateText(value)))
    case _ => None
  }

  /** The empty string a cleared specialization filter holds checks no option with text. */
  lemma EmptySelectionChecksNothing(value: JsValue)
    requires |TemplateText(value)| > 0
    ensures CheckboxChecked(Str(""), value) == Some(false)
  {
  }

  /** `selected === value` for a radio option: NaN never checks an option. */
  function RadioChecked(selected: JsValue, value: JsValue): (r: bool)
    ensures r ==> selected == value
    ensures selected == value && !selected.NaN? ==> r
  {
    StrictEquals(selected, value)
  }

  /** The value a range slider shows: `selected || min`. */
  function RangeValue(f: FilterSpec): (r: JsValue)
    ensures Truthy(f.selected) ==> r == f.selected
    ensures !Truthy(f.selected) ==> r == f.min
  {
    Or(f.selected, f.min)
  }

  /** The text a value shows as: `formatValue(v)` when the filter has one, else the value itself
      (React prints nothing for null, undefined and booleans). */
  function Display(f: FilterSpec, v: JsValue): (r: string)
    ensures f.format.Some? ==> r == TemplateText(v) + f.format.value
    ensures f.format.None? && (Nullish(v) || v.Bool?) ==> r == ""
  {
    match f.format
    case Some(suffix) => TemplateText(v) + suffix
    case None => if Nullish(v) || v.Bool? then "" else TemplateText(v)
  }

  /** The three labels under a range slider: minimum, current value, maximum. */
  function RangeLabels(f: FilterSpec): (r: (string, string, string))
    ensures r.1 == Display(f, RangeValue(f))
    ensures !Truthy(f.selected) ==> r.1 == r.0
  {
    (Display(f, f.min), Display(f, RangeValue(f)), Display(f, f.max))
  }

  /** The value a slider movement forwards: `parseInt` of the input's text. */
  function RangeInput(text: string): (r: JsValue)
    ensures r.Num? || r.NaN?
  {
    match ParseInt(text)
    case Some(n) => Num(n)
    case None => NaN
  }

  /** A slider reports its position as plain digits, which is forwarded as that number. */
  lemma RangeInputOfDigits(text: string)
    requires |text| > 0 && AllDigits(text)
    ensures RangeInput(text) == Num(DigitsValue(text))
  {
    ParseIntOfDigits(text);
  }

  // ---------------------------------------------------------- sections

  /** `expandedSections[id]` read as a condition: a missing id is undefined, hence closed. */
  predicate IsExpanded(m: map<string, bool>, id: string) {
    id in m && m[id]
  }

  /** `filters.reduce((acc, f) => ({ ...acc, [f.id]: true }), {})`. */
  function InitialSections(fs: seq<FilterSpec>): (r: map<string, bool>)
    ensures forall id :: id in r <==> exists i :: 0 <= i < |fs| && fs[i].id == id
    ensures forall id :: id in r ==> r[id]
  {
    if |fs| == 0 then map[]
    else
      var acc := InitialSections(fs[..|fs| - 1]);
      assert forall i :: 0 <= i < |fs| - 1 ==> fs[..|fs| - 1][i] == fs[i];
      acc[fs[|fs| - 1].id := true]
  }

  /** `{ ...prev, [id]: !prev[id] }`: the named section flips and no other one changes. */
  function Toggled(m: map<string, bool>, id: string): (r: map<string, bool>)
    ensures IsExpanded(r, id) == !IsExpanded(m, id)
    ensures forall k :: k != id ==> (k in r <==> k in m) && (k in m ==> r[k] == m[k])
    ensures id in r
  {
    m[id := !IsExpanded(m, id)]
  }

  /** Toggling a known section twice restores the map; for an unknown id the map gains
      the id as closed, which reads the same as before. */
  lemma ToggleTwice(m: map<string, bool>, id: string)
    ensures id in m ==> Toggled(Toggled(m, id), id) == m
    ensures forall k :: IsExpanded(Toggled(Toggled(m, id), id), k) == IsExpanded(m, k)
  {
    var twice := Toggled(Toggled(m, id), id);
    if id in m {
      assert forall k :: k in twice <==> k in m;
      assert forall k :: k in twice ==> twice[k] == m[k];
    }
  }

  /** The `expandedSections` state of one rendered panel. */
  class Sections {
    var expanded: map<string, bool>

    constructor (fs: seq<FilterSpec>)
      ensures expanded == InitialSections(fs)
    {
      expanded := InitialSections(fs);
    }

    /** `toggleSection(id)`. */
    method Toggle(id: string)
      modifies this
      ensures expanded == Toggled(old(expanded), id)
    {
      expanded := expanded[id := !(id in expanded && expanded[id])];
    }
  }

  /** Every section of the panel starts open. */
  lemma AllSectionsStartOpen(fs: seq<FilterSpec>, i: int)
    requires 0 <= i < |fs|
    ensures IsExpanded(InitialSections(fs), fs[i].id)
  {
  }
}
