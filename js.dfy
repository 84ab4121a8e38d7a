/** The JavaScript values the app passes around untyped (API responses,
    stored users, filter records), with the language rules the core relies
    on: truthiness, `||`, property access, optional chaining, object spread
    and template-literal text. Numbers are integers here; the few places
    that use fractional numbers carry a `real` in a typed field instead. */
module Js {
  import opened Text

  datatype JsValue =
    | Undefined
    | Null
    | Bool(b: bool)
    | Num(n: int)
    | NaN
    | Str(s: string)
    | Arr(items: seq<JsValue>)
    | Obj(fields: map<string, JsValue>)

  /** Truthiness: undefined, null, false, 0, NaN and "" are falsy; every array and object is truthy. */
  predicate Truthy(v: JsValue) {
    match v
    case Undefined => false
    case Null => false
    case NaN => false
    case Bool(b) => b
    case Num(n) => n != 0
    case Str(s) => s != ""
    case Arr(_) => true
    case Obj(_) => true
  }

  predicate Nullish(v: JsValue) {
    v.Undefined? || v.Null?
  }

  /** `a || b`: the first operand when it is truthy, else the second. */
  function Or(a: JsValue, b: JsValue): (r: JsValue)
    ensures Truthy(a) ==> r == a
    ensures !Truthy(a) ==> r == b
  {
    if Truthy(a) then a else b
  }

  /** The array index a property key denotes: "0" or digits without a leading zero. */
  function IndexKey(key: string): (r: Option<nat>)
    ensures r.Some? ==> AllDigits(key) && |key| > 0
  {
    if |key| > 0 && AllDigits(key) && (key[0] != '0' || |key| == 1) then Some(DigitsValue(key)) else None
  }

  /** `v[key]` on a value that is neither null nor undefined (own data properties only:
      object entries, array and string elements and their `length`). */
  function Member(v: JsValue, key: string): JsValue
    requires !Nullish(v)
  {
    match v
    case Obj(m) => if key in m then m[key] else Undefined
    case Arr(xs) =>
      if key == "length" then Num(|xs|)
      else if IndexKey(key).Some? && IndexKey(key).value < |xs| then xs[IndexKey(key).value]
      else Undefined
    case Str(s) =>
      if key == "length" then Num(|s|)
      else if IndexKey(key).Some? && IndexKey(key).value < |s| then Str([s[IndexKey(key).value]])
      else Undefined
    case _ => Undefined
  }

  /** `v.key`: `None` is the TypeError thrown when v is null or undefined. */
  function Get(v: JsValue, key: string): (r: Option<JsValue>)
    ensures r.None? <==> Nullish(v)
  {
    if Nullish(v) then None else Some(Member(v, key))
  }

  /** `v?.key`: undefined when v is null or undefined. */
  function OptGet(v: JsValue, key: string): (r: JsValue)
    ensures Nullish(v) ==> r == Undefined
    ensures v.Obj? ==> r == if key in v.fields then v.fields[key] else Undefined
  {
    if Nullish(v) then Undefined else Member(v, key)
  }

  /** `[...s]`: the characters of a string as one-character strings. */
  function Characters(s: string): (r: seq<JsValue>)
    ensures |r| == |s| && forall i :: 0 <= i < |s| ==> r[i] == Str([s[i]])
  {
    if |s| == 0 then [] else [Str([s[0]])] + Characters(s[1..])
  }

  /** The index properties of an array: each element under its decimal index. */
  function IndexEntries(xs: seq<JsValue>): (r: map<string, JsValue>)
    ensures forall k :: k in r ==> |k| > 0 && AllDigits(k)
    ensures forall i :: 0 <= i < |xs| ==> NatToString(i) in r && r[NatToString(i)] == xs[i]
  {
    if |xs| == 0 then map[]
    else
      var n := |xs| - 1;
      var r := IndexEntries(xs[..n])[NatToString(n) := xs[n]];
      forall i | 0 <= i < n
        ensures NatToString(i) != NatToString(n)
      {
        DigitsOfNat(i);
        DigitsOfNat(n);
      }
      r
  }

  /** The own enumerable entries `{...v}` copies: an object's entries, an array's elements or a
      string's characters under their indices, and nothing from null, undefined, a boolean or a
      number. */
  function Spread(v: JsValue): (r: map<string, JsValue>)
    ensures v.Obj? ==> r == v.fields
    ensures !v.Obj? ==> forall k :: k in r ==> |k| > 0 && AllDigits(k)
    ensures v.Arr? ==> forall i :: 0 <= i < |v.items| ==> NatToString(i) in r && r[NatToString(i)] == v.items[i]
    ensures v.Str? ==> forall i :: 0 <= i < |v.s| ==> NatToString(i) in r && r[NatToString(i)] == Str([v.s[i]])
    ensures (v.Arr? && v.items == []) || (v.Str? && v.s == "") || !(v.Obj? || v.Arr? || v.Str?) ==> r == map[]
  {
    match v
    case Obj(fields) => fields
    case Arr(xs) => IndexEntries(xs)
    case Str(s) => IndexEntries(Characters(s))
    case _ => map[]
  }

  /** Text a template literal `${v}` produces. */
  function TemplateText(v: JsValue): string
    decreases v, 1
  {
    match v
    case Undefined => "undefined"
    case Null => "null"
    case Bool(b) => if b then "true" else "false"
    case Num(n) => IntToString(n)
    case NaN => "NaN"
    case Str(s) => s
    case Arr(xs) => ArrayText(v, xs)
    case Obj(_) => "[object Object]"
  }

  /** `String(array)`: the elements joined by ",", with null and undefined as "". */
  function ArrayText(owner: JsValue, xs: seq<JsValue>): string
    requires owner.Arr? && forall x :: x in xs ==> x in owner.items
    decreases owner, 0, |xs|
  {
    if |xs| == 0 then ""
    else
      assert xs[0] in owner.items;
      var head := if Nullish(xs[0]) then "" else TemplateText(xs[0]);
      if |xs| == 1 then head else head + "," + ArrayText(owner, xs[1..])
  }

  /** `a === b`. NaN is unequal to itself; arrays and objects are compared by content
      (their identity is not modelled). */
  predicate StrictEquals(a: JsValue, b: JsValue) {
    a == b && !a.NaN?
  }

  /** `Number(s)` for decimal integer text: surrounding white space is ignored, blank text is 0,
      an optional sign and digits give their value, anything else is `None` (NaN). */
  function StringToNumber(s: string): Option<int> {
    SignedNumber(TrimEnd(TrimStart(s)))
  }

  /** The value of trimmed numeric text: blank is 0, then an optional sign and decimal digits. */
  function SignedNumber(t: string): Option<int> {
    if |t| == 0 then Some(0)
    else
      var neg := t[0] == '-';
      var u := if t[0] == '-' || t[0] == '+' then t[1..] else t;
      if |u| > 0 && AllDigits(u) then Some(if neg then -(DigitsValue(u) as int) else DigitsValue(u))
      else None
  }

  /** Plain digit text converts to the number it spells. */
  lemma StringToNumberOfDigits(s: string)
    requires |s| > 0 && AllDigits(s)
    ensures StringToNumber(s) == Some(DigitsValue(s))
  {
    assert IsDigit(s[0]);
    assert !IsSpace(s[0]);
    assert TrimStart(s) == s;
    assert IsDigit(s[|s| - 1]);
    assert !IsSpace(s[|s| - 1]);
    assert TrimEnd(s) == s;
    assert s[0] != '-' && s[0] != '+';
  }

  /** ToNumber as the relational operators apply it; `None` is NaN. */
  function ToNumber(v: JsValue): (r: Option<int>)
    ensures v.Num? ==> r == Some(v.n)
    ensures v.Undefined? || v.NaN? ==> r.None?
    ensures v.Null? ==> r == Some(0)
  {
    match v
    case Undefined => None
    case Null => Some(0)
    case Bool(b) => Some(if b then 1 else 0)
    case Num(n) => Some(n)
    case NaN => None
    case Str(s) => StringToNumber(s)
    case Arr(_) => StringToNumber(TemplateText(v))
    case Obj(_) => None
  }

  /** `v > k` for a number literal k: false whenever v converts to NaN. */
  predicate GreaterThan(v: JsValue, k: int) {
    ToNumber(v).Some? && ToNumber(v).value > k
  }

  /** `v < k` for a number literal k: false whenever v converts to NaN. */
  predicate LessThan(v: JsValue, k: int) {
    ToNumber(v).Some? && ToNumber(v).value < k
  }

  /** `obj[key]` on a plain record: undefined for a missing key. */
  function Lookup(m: map<string, JsValue>, key: string): (r: JsValue)
    ensures key !in m ==> r == Undefined
  {
    if key in m then m[key] else Undefined
  }

  /** How a service call settles: it resolves with a response or rejects with an error value. */
  datatype ServiceOutcome = Resolved(response: JsValue) | Rejected(error: JsValue)

  /** An error thrown by the app's own code, as the engine reports it. */
  function TypeError(message: string): JsValue {
    Obj(map["message" := Str(message)])
  }

  /** The TypeError `v.key` throws when v is null or undefined. */
  function ReadError(v: JsValue, key: string): JsValue {
    TypeError("Cannot read properties of " + TemplateText(v) + " (reading '" + key + "')")
  }
}
