/**
 * JSON values as the browser script sees them after `response.json()`.
 * An absent property (JavaScript's `undefined`) is `None` of `Option<Value>`.
 * Object properties are kept in enumeration order with distinct keys.
 */
module Json {
  import opened Common
  import opened Text

  datatype Value =
    | Null
    | Bool(b: bool)
    | Num(n: real)
    | Str(s: string)
    | Arr(items: seq<Value>)
    | Obj(props: seq<(string, Value)>)

  /** JavaScript truthiness. */
  predicate Truthy(v: Value) {
    match v
    case Null => false
    case Bool(b) => b
    case Num(n) => n != 0.0
    case Str(s) => s != ""
    case Arr(_) => true
    case Obj(_) => true
  }

  /** Truthiness of a property read that may be `undefined`. */
  predicate TruthyOpt(v: Option<Value>) {
    v.Some? && Truthy(v.value)
  }

  /** Value of the first entry named `key`, if any. */
  function Lookup(props: seq<(string, Value)>, key: string): (r: Option<Value>)
    ensures r.Some? <==> exists i :: 0 <= i < |props| && props[i].0 == key
  {
    if props == [] then None
    else if props[0].0 == key then Some(props[0].1)
    else Lookup(props[1..], key)
  }

  /** Property read `v.key`: only objects have named properties here. */
  function Get(v: Value, key: string): Option<Value> {
    if v.Obj? then Lookup(v.props, key) else None
  }

  /** Property read on a value that may itself be `undefined`. */
  function GetOpt(v: Option<Value>, key: string): Option<Value> {
    if v.Some? then Get(v.value, key) else None
  }

  /** `typeof v === 'object'` for a non-null value: arrays and objects. */
  predicate IsObjectLike(v: Value) {
    v.Arr? || v.Obj?
  }

  /** `Object.entries(v)` for an object or an array (array indices become string keys). */
  function Entries(v: Value): (r: seq<(string, Value)>)
    requires IsObjectLike(v)
    ensures v.Obj? ==> r == v.props
    ensures v.Arr? ==> |r| == |v.items|
  {
    if v.Obj? then v.props
    else seq(|v.items|, i requires 0 <= i < |v.items| => (NatToString(i), v.items[i]))
  }

  /**
   * The own enumerable properties copied by an object spread `{...v}`:
   * an object's entries, an array's or a string's indexed elements, nothing for the rest.
   */
  function SpreadEntries(v: Value): seq<(string, Value)> {
    match v
    case Obj(props) => props
    case Arr(items) => seq(|items|, i requires 0 <= i < |items| => (NatToString(i), items[i]))
    case Str(s) => seq(|s|, i requires 0 <= i < |s| => (NatToString(i), Str([s[i]])))
    case _ => []
  }

  /** The entries without the ones named `key`. */
  function Without(props: seq<(string, Value)>, key: string): (r: seq<(string, Value)>)
    ensures Lookup(r, key) == None
  {
    if props == [] then []
    else if props[0].0 == key then Without(props[1..], key)
    else [props[0]] + Without(props[1..], key)
  }
}
