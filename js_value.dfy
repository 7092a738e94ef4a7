/**
 * The JavaScript values that the playground's TypeScript code inspects at run time:
 * `unknown` inputs, parsed JSON, and plain objects built with literals and spreads.
 * Numbers are integers here; objects are maps, so the order of their keys is not kept.
 */
module JsValue {

  datatype Value =
    | Undefined
    | Null
    | Bool(b: bool)
    | Num(n: int)
    | Str(s: string)
    | Arr(items: seq<Value>)
    | Obj(fields: map<string, Value>)

  /** The outcome of evaluating code that may throw a `TypeError`. */
  datatype Completion<+T> = Normal(value: T) | TypeError

  /** `v === null || v === undefined` */
  predicate IsNullish(v: Value) {
    v.Undefined? || v.Null?
  }

  /** JavaScript's ToBoolean: what `if (v)`, `!v` and `&&` test. */
  predicate Truthy(v: Value) {
    match v
    case Undefined => false
    case Null => false
    case Bool(b) => b
    case Num(n) => n != 0
    case Str(s) => s != ""
    case Arr(_) => true
    case Obj(_) => true
  }

  /** `typeof v === 'object'`, which holds for `null` and for arrays too. */
  predicate TypeofObject(v: Value) {
    v.Null? || v.Arr? || v.Obj?
  }

  /** `key in v` for a value that is an object or an array (no array has the named keys read here). */
  predicate Has(v: Value, key: string) {
    v.Obj? && key in v.fields
  }

  /**
   * `v.key` on a value that is neither null nor undefined. Only own properties of
   * objects are found: the property names the modelled code reads are not defined
   * on any built-in prototype (the one exception, `values` on arrays, is handled
   * where it is read).
   */
  function Get(v: Value, key: string): (r: Value)
    ensures Has(v, key) ==> r == v.fields[key]
    ensures !Has(v, key) ==> r == Undefined
  {
    if v.Obj? && key in v.fields then v.fields[key] else Undefined
  }

  /** `v?.key` */
  function OptGet(v: Value, key: string): (r: Value)
    ensures IsNullish(v) ==> r == Undefined
    ensures !IsNullish(v) ==> r == Get(v, key)
  {
    if IsNullish(v) then Undefined else Get(v, key)
  }

  /** `a ?? b` */
  function Coalesce(a: Value, b: Value): (r: Value)
    ensures IsNullish(a) ==> r == b
    ensures !IsNullish(a) ==> r == a
  {
    if IsNullish(a) then b else a
  }

  /** The decimal digits of a natural number, as JavaScript prints an integral number. */
  function NatToDecimal(n: nat): (r: string)
    ensures |r| > 0
    ensures forall i :: 0 <= i < |r| ==> '0' <= r[i] <= '9'
    decreases n
  {
    var d := [(('0' as int) + n % 10) as char];
    if n < 10 then d else NatToDecimal(n / 10) + d
  }

  /** JavaScript's ToString on a value, as used to turn a value into a property key. */
  function ToPropertyKey(v: Value): string
    decreases v, 1
  {
    match v
    case Undefined => "undefined"
    case Null => "null"
    case Bool(b) => if b then "true" else "false"
    case Num(n) => if n < 0 then "-" + NatToDecimal(-n) else NatToDecimal(n)
    case Str(s) => s
    case Arr(items) => JoinItems(v, 0)
    case Obj(_) => "[object Object]"
  }

  /** `Array.prototype.join(',')` from index `i` on, where null and undefined items give "". */
  function JoinItems(a: Value, i: nat): string
    requires a.Arr? && i <= |a.items|
    decreases a, 0, |a.items| - i
  {
    if i == |a.items| then ""
    else
      var item := a.items[i];
      var text := if IsNullish(item) then "" else ToPropertyKey(item);
      if i + 1 == |a.items| then text else text + "," + JoinItems(a, i + 1)
  }

  /** A value that JSON can carry: no `undefined` anywhere inside it. */
  predicate IsJson(v: Value) {
    match v
    case Undefined => false
    case Arr(items) => forall i | 0 <= i < |items| :: IsJson(items[i])
    case Obj(fields) => forall k | k in fields :: IsJson(fields[k])
    case _ => true
  }

  /**
   * `JSON.parse(JSON.stringify(v))` for a value that is not itself undefined:
   * object members whose value is undefined disappear, undefined array items
   * become null, everything else is copied.
   */
  function JsonClone(v: Value): (r: Value)
    ensures v.Undefined? <==> r.Undefined?
    ensures v.Obj? <==> r.Obj?
    ensures v.Arr? <==> r.Arr?
    ensures v.Arr? ==> |r.items| == |v.items|
    ensures v.Obj? ==> r.fields.Keys == set k | k in v.fields && !v.fields[k].Undefined?
    ensures !v.Arr? && !v.Obj? ==> r == v
  {
    match v
    case Arr(items) => Arr(CloneItems(v, 0))
    case Obj(fields) => Obj(map k | k in fields && !fields[k].Undefined? :: JsonClone(fields[k]))
    case _ => v
  }

  function CloneItems(a: Value, i: nat): (r: seq<Value>)
    requires a.Arr? && i <= |a.items|
    ensures |r| == |a.items| - i
    ensures forall j | 0 <= j < |r| :: r[j] == (if a.items[i + j].Undefined? then Null else JsonClone(a.items[i + j]))
    decreases a, |a.items| - i
  {
    if i == |a.items| then []
    else
      var item := a.items[i];
      [if item.Undefined? then Null else JsonClone(item)] + CloneItems(a, i + 1)
  }

  /** The copy holds no undefined, so it is valid JSON. */
  lemma {:induction false} JsonCloneIsJson(v: Value)
    requires !v.Undefined?
    ensures IsJson(JsonClone(v))
  {
    match v
    case Arr(items) =>
      var r := JsonClone(v).items;
      forall i | 0 <= i < |r| ensures IsJson(r[i]) {
        if !items[i].Undefined? { JsonCloneIsJson(items[i]); }
      }
    case Obj(fields) =>
      var r := JsonClone(v).fields;
      forall k | k in r ensures IsJson(r[k]) {
        JsonCloneIsJson(fields[k]);
      }
    case _ =>
  }

  /** Copying a JSON value gives the same value back. */
  lemma {:induction false} JsonCloneOfJson(v: Value)
    requires IsJson(v)
    ensures JsonClone(v) == v
  {
    match v
    case Arr(items) =>
      var r := JsonClone(v).items;
      forall i | 0 <= i < |r| ensures r[i] == items[i] {
        JsonCloneOfJson(items[i]);
      }
      assert r == items;
    case Obj(fields) =>
      var r := JsonClone(v).fields;
      forall k | k in r ensures r[k] == fields[k] {
        JsonCloneOfJson(fields[k]);
      }
      assert r == fields;
    case _ =>
  }

  /** Deep-copying a deep copy changes nothing. */
  lemma JsonCloneIdempotent(v: Value)
    requires !v.Undefined?
    ensures JsonClone(JsonClone(v)) == JsonClone(v)
  {
    JsonCloneIsJson(v);
    JsonCloneOfJson(JsonClone(v));
  }

  /** A member of the copy of an object is the copy of the member; undefined-valued members are gone. */
  lemma JsonCloneGet(v: Value, key: string)
    requires v.Obj?
    ensures Has(v, key) && !v.fields[key].Undefined? ==> Get(JsonClone(v), key) == JsonClone(v.fields[key])
    ensures !(Has(v, key) && !v.fields[key].Undefined?) ==> Get(JsonClone(v), key) == Undefined
  {
  }

  /** Copying keeps whether a value is truthy, and copies of falsy values are the values themselves. */
  lemma JsonCloneTruthy(v: Value)
    requires !v.Undefined?
    ensures Truthy(JsonClone(v)) <==> Truthy(v)
    ensures !Truthy(v) ==> JsonClone(v) == v
  {
  }
}
