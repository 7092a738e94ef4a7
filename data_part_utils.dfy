/**
 * Interpretation of the structured data of a message part: normalising a protobuf
 * Struct-like tree (`fieldsMap` given as a record or as an array of `[key, value]` pairs)
 * into a plain JSON object, and recognising function-call shaped objects. Inputs are
 * arbitrary JavaScript values; where the code throws a `TypeError` the result is `TypeError`.
 */
module DataPartUtils {
  import opened JsValue

  // ----- normalizeValue / normalizeStructLike -----

  /**
   * `val.listValue?.values`: on an array `listValue` this is the built-in `values` method,
   * a function, which the model does not represent; `ListValuesIsMethod` tells that case apart.
   */
  predicate ListValuesIsMethod(val: Value) {
    Get(val, "listValue").Arr?
  }

  /** `val.listValue?.values`, for a `listValue` that is not an array. */
  function ListValues(val: Value): Value {
    Get(Get(val, "listValue"), "values")
  }

  /** None of the scalar tests of `normalizeValue` fires: the list and struct tests are reached. */
  predicate NoScalarField(val: Value) {
    && !IsNullish(val)
    && Get(val, "stringValue").Undefined?
    && Get(val, "boolValue").Undefined?
    && IsNullish(Get(val, "nullValue"))
    && Get(val, "numberValue").Undefined?
  }

  /**
   * `normalizeValue(val)`: the first field present, in the order string, bool, non-null
   * `nullValue` (giving null), number, list, struct; undefined when none is.
   */
  function NormalizeValue(val: Value): (r: Completion<Value>)
    ensures IsNullish(val) ==> r.TypeError?
    ensures !IsNullish(val) && !Get(val, "stringValue").Undefined? ==> r == Normal(Get(val, "stringValue"))
    ensures !IsNullish(val) && Get(val, "stringValue").Undefined? && !Get(val, "boolValue").Undefined? ==>
      r == Normal(Get(val, "boolValue"))
    ensures (!IsNullish(val) && Get(val, "stringValue").Undefined? && Get(val, "boolValue").Undefined?
             && !IsNullish(Get(val, "nullValue"))) ==> r == Normal(Null)
    ensures (!IsNullish(val) && Get(val, "stringValue").Undefined? && Get(val, "boolValue").Undefined?
             && IsNullish(Get(val, "nullValue")) && !Get(val, "numberValue").Undefined?) ==>
      r == Normal(Get(val, "numberValue"))
    ensures NoScalarField(val) && ListValuesIsMethod(val) ==> r.TypeError?
    ensures NoScalarField(val) && !ListValuesIsMethod(val) && Truthy(ListValues(val)) && !ListValues(val).Arr? ==>
      r.TypeError?
    ensures (NoScalarField(val) && !ListValuesIsMethod(val) && !Truthy(ListValues(val))
             && !Truthy(Get(val, "structValue"))) ==> r == Normal(Undefined)
    ensures !val.Obj? && !IsNullish(val) ==> r == Normal(Undefined)
    decreases val, 2
  {
    if IsNullish(val) then TypeError
    else
      var sv := Get(val, "stringValue");
      var bv := Get(val, "boolValue");
      var nv := Get(val, "numberValue");
      var lv := Get(val, "listValue");
      var values := Get(lv, "values");
      var st := Get(val, "structValue");
      if !sv.Undefined? then Normal(sv)
      else if !bv.Undefined? then Normal(bv)
      else if !IsNullish(Get(val, "nullValue")) then Normal(Null)
      else if !nv.Undefined? then Normal(nv)
      else if ListValuesIsMethod(val) then TypeError
      else if Truthy(values) then
        if values.Arr? then
          match NormalizeItems(values, 0)
          case Normal(items) => Normal(Arr(items))
          case TypeError => TypeError
        else TypeError
      else if Truthy(st) then
        match NormalizeStructLike(st)
        case Normal(m) => Normal(Obj(m))
        case TypeError => TypeError
      else Normal(Undefined)
  }

  /**
   * The list and struct branches of `normalizeValue`: an array of values maps element-wise,
   * failing exactly when an element fails; a truthy `structValue` gives its normalised record.
   */
  lemma NormalizeValueNested(val: Value)
    ensures var r := NormalizeValue(val);
      NoScalarField(val) && !ListValuesIsMethod(val) && ListValues(val).Arr? ==>
        var items := ListValues(val).items;
        && (r.TypeError? <==> exists j :: 0 <= j < |items| && NormalizeValue(items[j]).TypeError?)
        && (r.Normal? ==>
              && r.value.Arr? && |r.value.items| == |items|
              && forall j :: 0 <= j < |items| ==> NormalizeValue(items[j]) == Normal(r.value.items[j]))
    ensures var r := NormalizeValue(val);
      NoScalarField(val) && !ListValuesIsMethod(val) && !Truthy(ListValues(val)) && Truthy(Get(val, "structValue")) ==>
        var st := NormalizeStructLike(Get(val, "structValue"));
        && (r.TypeError? <==> st.TypeError?)
        && (r.Normal? ==> r.value == Obj(st.value))
  {
    if NoScalarField(val) && !ListValuesIsMethod(val) && ListValues(val).Arr? {
      var values := ListValues(val);
      var r := NormalizeItems(values, 0);
      if r.Normal? {
        assert forall j :: 0 <= j < |values.items| ==> NormalizeValue(values.items[0 + j]) == Normal(r.value[j]);
      }
    }
  }

  /** `values.slice(i).map(normalizeValue)`: element-wise, in order, failing at the first failure. */
  function NormalizeItems(a: Value, i: nat): (r: Completion<seq<Value>>)
    requires a.Arr? && i <= |a.items|
    ensures r.TypeError? <==> exists j :: i <= j < |a.items| && NormalizeValue(a.items[j]).TypeError?
    ensures r.Normal? ==> (|r.value| == |a.items| - i
      && forall j :: 0 <= j < |r.value| ==> NormalizeValue(a.items[i + j]) == Normal(r.value[j]))
    decreases a, 1, |a.items| - i
  {
    if i == |a.items| then Normal([])
    else
      match NormalizeValue(a.items[i])
      case TypeError => TypeError
      case Normal(x) =>
        match NormalizeItems(a, i + 1)
        case TypeError => TypeError
        case Normal(rest) => Normal([x] + rest)
  }

  /** An entry is kept when its value is truthy and of type object (an object or an array). */
  predicate KeepsEntry(value: Value) {
    Truthy(value) && TypeofObject(value)
  }

  /** `const [key, value] = item` for an array item; missing positions are undefined. */
  function PairKey(item: Value): Value
    requires item.Arr?
  {
    if |item.items| > 0 then item.items[0] else Undefined
  }

  function PairValue(item: Value): (v: Value)
    requires item.Arr?
    ensures v == Undefined || v < item
  {
    if |item.items| > 1 then item.items[1] else Undefined
  }

  /** An item of the pairs form that yields an entry of the result. */
  predicate KeptPair(item: Value) {
    item.Arr? && KeepsEntry(PairValue(item))
  }

  /**
   * The loop over the array-of-pairs form from index `i` on, with the entries so far in
   * `acc`: a later pair overwrites an earlier one with the same key. An item that is not
   * iterable (neither an array nor a string) throws; a string item destructures into
   * characters, whose value is never an object, so it adds nothing.
   */
  function FromPairs(fm: Value, i: nat, acc: map<string, Value>): (r: Completion<map<string, Value>>)
    requires fm.Arr? && i <= |fm.items|
    ensures r.Normal? ==> r.value.Keys == acc.Keys + set j | i <= j < |fm.items| && KeptPair(fm.items[j]) :: ToPropertyKey(PairKey(fm.items[j]))
    decreases fm, 0, |fm.items| - i
  {
    if i == |fm.items| then Normal(acc)
    else
      var item := fm.items[i];
      if item.Arr? then
        var value := PairValue(item);
        if KeepsEntry(value) then
          match NormalizeValue(value)
          case TypeError => TypeError
          case Normal(x) => FromPairs(fm, i + 1, acc[ToPropertyKey(PairKey(item)) := x])
        else FromPairs(fm, i + 1, acc)
      else if item.Str? then FromPairs(fm, i + 1, acc)
      else TypeError
  }

  /** The keys of the record form that yield an entry: those whose value is an object or array. */
  function KeptKeys(fm: Value): (ks: set<string>)
    requires fm.Obj?
    ensures forall k :: k in ks <==> k in fm.fields && KeepsEntry(fm.fields[k])
  {
    set k | k in fm.fields && KeepsEntry(fm.fields[k])
  }

  /** The loop over `Object.entries` of the record form. Keys are unique, so order does not matter. */
  function FromEntries(fm: Value): (r: Completion<map<string, Value>>)
    requires fm.Obj?
    ensures r.TypeError? <==> exists k :: k in KeptKeys(fm) && NormalizeValue(fm.fields[k]).TypeError?
    ensures r.Normal? ==> (r.value.Keys == KeptKeys(fm)
      && forall k :: k in r.value ==> NormalizeValue(fm.fields[k]) == Normal(r.value[k]))
    decreases fm, 0
  {
    var ks := KeptKeys(fm);
    if forall k | k in ks :: NormalizeValue(fm.fields[k]).Normal? then
      Normal(map k | k in ks :: NormalizeValue(fm.fields[k]).value)
    else TypeError
  }

  /** `normalizeStructLike(obj)`: `{}` when `fieldsMap` is falsy; then the array-of-pairs or the record form. */
  function NormalizeStructLike(obj: Value): (r: Completion<map<string, Value>>)
    ensures !Truthy(Get(obj, "fieldsMap")) ==> r == Normal(map[])
    ensures Get(obj, "fieldsMap").Obj? ==> r == FromEntries(Get(obj, "fieldsMap"))
    ensures Get(obj, "fieldsMap").Arr? ==> r == FromPairs(Get(obj, "fieldsMap"), 0, map[])
    ensures Truthy(Get(obj, "fieldsMap")) && !Get(obj, "fieldsMap").Arr? && !Get(obj, "fieldsMap").Obj? ==>
      r == Normal(map[])
    decreases obj, 1
  {
    var fm := Get(obj, "fieldsMap");
    if !Truthy(fm) then Normal(map[])
    else if fm.Arr? then FromPairs(fm, 0, map[])
    else if fm.Obj? then FromEntries(fm)
    else Normal(map[])
  }

  /**
   * In the pairs form the last pair with a given key decides its value: the value of pair
   * k is kept when no later kept pair has the same key.
   */
  lemma {:induction false} LastPairWins(fm: Value, i: nat, acc: map<string, Value>, k: nat)
    requires fm.Arr? && i <= k < |fm.items| && KeptPair(fm.items[k])
    requires forall j :: k < j < |fm.items| && KeptPair(fm.items[j]) ==>
      ToPropertyKey(PairKey(fm.items[j])) != ToPropertyKey(PairKey(fm.items[k]))
    requires FromPairs(fm, i, acc).Normal?
    ensures NormalizeValue(PairValue(fm.items[k])).Normal?
    ensures FromPairs(fm, i, acc).value[ToPropertyKey(PairKey(fm.items[k]))] == NormalizeValue(PairValue(fm.items[k])).value
    decreases |fm.items| - i
  {
    var item := fm.items[i];
    if i == k {
      var x := NormalizeValue(PairValue(item)).value;
      var key := ToPropertyKey(PairKey(item));
      PairsKeepKey(fm, i + 1, acc[key := x], key);
    } else if item.Arr? && KeepsEntry(PairValue(item)) {
      LastPairWins(fm, i + 1, acc[ToPropertyKey(PairKey(item)) := NormalizeValue(PairValue(item)).value], k);
    } else {
      LastPairWins(fm, i + 1, acc, k);
    }
  }

  /** A key no later kept pair mentions keeps its accumulated value. */
  lemma {:induction false} PairsKeepKey(fm: Value, i: nat, acc: map<string, Value>, key: string)
    requires fm.Arr? && i <= |fm.items| && key in acc
    requires forall j :: i <= j < |fm.items| && KeptPair(fm.items[j]) ==> ToPropertyKey(PairKey(fm.items[j])) != key
    requires FromPairs(fm, i, acc).Normal?
    ensures FromPairs(fm, i, acc).value[key] == acc[key]
    decreases |fm.items| - i
  {
    if i < |fm.items| {
      var item := fm.items[i];
      if item.Arr? && KeepsEntry(PairValue(item)) {
        PairsKeepKey(fm, i + 1, acc[ToPropertyKey(PairKey(item)) := NormalizeValue(PairValue(item)).value], key);
      } else {
        PairsKeepKey(fm, i + 1, acc, key);
      }
    }
  }

  /**
   * The loop of `normalizeStructLike` as the code runs it: over the pairs in order, or over
   * the record's entries in whatever order `Object.entries` gives them.
   */
  method NormalizeStructLikeLoop(obj: Value) returns (r: Completion<map<string, Value>>)
    ensures r == NormalizeStructLike(obj)
  {
    var fm := Get(obj, "fieldsMap");
    if !Truthy(fm) {
      return Normal(map[]);
    }
    var result: map<string, Value> := map[];
    if fm.Arr? {
      var i := 0;
      while i < |fm.items|
        invariant 0 <= i <= |fm.items|
        invariant FromPairs(fm, i, result) == FromPairs(fm, 0, map[])
      {
        var item := fm.items[i];
        if item.Arr? {
          var value := PairValue(item);
          if KeepsEntry(value) {
            var x := NormalizeValue(value);
            if x.TypeError? {
              return TypeError;
            }
            result := result[ToPropertyKey(PairKey(item)) := x.value];
          }
        } else if !item.Str? {
          return TypeError;
        }
        i := i + 1;
      }
      return Normal(result);
    } else if fm.Obj? {
      var todo := fm.fields.Keys;
      while todo != {}
        invariant todo <= fm.fields.Keys
        invariant result.Keys == KeptKeys(fm) - todo
        invariant forall k :: k in result ==> NormalizeValue(fm.fields[k]) == Normal(result[k])
        decreases todo
      {
        var k :| k in todo;
        var value := fm.fields[k];
        if KeepsEntry(value) {
          var x := NormalizeValue(value);
          if x.TypeError? {
            return TypeError;
          }
          result := result[k := x.value];
        }
        todo := todo - {k};
      }
      var spec := FromEntries(fm);
      assert spec.Normal?;
      assert result == spec.value;
      return Normal(result);
    }
    return Normal(map[]);
  }

  // ----- valueToPlainObject / normalizeDataPartToObject -----

  /**
   * `valueToPlainObject(value)`: the JSON form of a protobuf Value when it is an object,
   * `{}` otherwise and when the conversion throws. `toJson` stands for the protobuf library's
   * conversion.
   */
  function ValueToPlainObject(value: Value, toJson: Value -> Completion<Value>): (r: map<string, Value>)
    ensures !Truthy(value) ==> r == map[]
    ensures Truthy(value) && toJson(value).Normal? && toJson(value).value.Obj? ==> r == toJson(value).value.fields
    ensures Truthy(value) && !(toJson(value).Normal? && toJson(value).value.Obj?) ==> r == map[]
  {
    if !Truthy(value) then map[]
    else
      match toJson(value)
      case TypeError => map[]
      case Normal(json) => if Truthy(json) && TypeofObject(json) && !json.Arr? then json.fields else map[]
  }

  /** `isStructLike(obj)`: an object with a `fieldsMap` member that is an array, an object or null. */
  predicate IsStructLike(obj: Value) {
    obj.Obj? && "fieldsMap" in obj.fields && TypeofObject(obj.fields["fieldsMap"])
  }

  /** A value carrying the `kind` member of a protobuf Value. */
  predicate IsProtoValue(raw: Value) {
    TypeofObject(raw) && !raw.Null? && Has(raw, "kind")
  }

  /** One level of `{ data: ... }` is unwrapped when `data` is of type object (null included). */
  function Unwrapped(raw: Value): (obj: Value)
    ensures Has(raw, "data") && TypeofObject(Get(raw, "data")) ==> obj == Get(raw, "data")
    ensures !(Has(raw, "data") && TypeofObject(Get(raw, "data"))) ==> obj == raw
  {
    if TypeofObject(raw) && !raw.Null? && Has(raw, "data") && TypeofObject(Get(raw, "data")) then Get(raw, "data")
    else raw
  }

  /**
   * `normalizeDataPartToObject(raw)` as written. The declared result is a record, but an
   * array passes through unchanged, and a malformed Struct-like tree throws.
   */
  function NormalizeDataPartToObject(raw: Value, toJson: Value -> Completion<Value>): (r: Completion<Value>)
    ensures IsNullish(raw) ==> r == Normal(Obj(map[]))
    ensures IsProtoValue(raw) ==> r == Normal(Obj(ValueToPlainObject(raw, toJson)))
    ensures !IsNullish(raw) && !IsProtoValue(raw) && !(Truthy(Unwrapped(raw)) && TypeofObject(Unwrapped(raw))) ==>
      r == Normal(Obj(map[]))
    ensures !IsNullish(raw) && !IsProtoValue(raw) && IsStructLike(Unwrapped(raw)) ==>
      (r.TypeError? <==> NormalizeStructLike(Unwrapped(raw)).TypeError?)
    ensures (!IsNullish(raw) && !IsProtoValue(raw) && IsStructLike(Unwrapped(raw))
             && NormalizeStructLike(Unwrapped(raw)).Normal?) ==>
      r == Normal(Obj(NormalizeStructLike(Unwrapped(raw)).value))
    ensures (!IsNullish(raw) && !IsProtoValue(raw) && Truthy(Unwrapped(raw)) && TypeofObject(Unwrapped(raw))
             && !IsStructLike(Unwrapped(raw))) ==> r == Normal(Unwrapped(raw))
  {
    if IsNullish(raw) then Normal(Obj(map[]))
    else if IsProtoValue(raw) then Normal(Obj(ValueToPlainObject(raw, toJson)))
    else
      var obj := Unwrapped(raw);
      if !Truthy(obj) || !TypeofObject(obj) then Normal(Obj(map[]))
      else if IsStructLike(obj) then
        match NormalizeStructLike(obj)
        case Normal(m) => Normal(Obj(m))
        case TypeError => TypeError
      else Normal(obj)
  }

  /** Counterexamples to "every input yields a key-value object": an array, and a pair that is a number. */
  lemma NormalizeDataPartNotTotal(toJson: Value -> Completion<Value>)
    ensures NormalizeDataPartToObject(Arr([Num(1)]), toJson) == Normal(Arr([Num(1)]))
    ensures NormalizeDataPartToObject(Obj(map["fieldsMap" := Arr([Num(5)])]), toJson) == TypeError
  {
    var bad := Obj(map["fieldsMap" := Arr([Num(5)])]);
    assert Get(bad, "fieldsMap") == Arr([Num(5)]);
    assert FromPairs(Arr([Num(5)]), 0, map[]) == TypeError;
  }

  /**
   * The documented behaviour, a plain object for every input: what the code gives when
   * that is an object, and `{}` where it would throw or give an array.
   */
  function NormalizeDataPartToPlainObject(raw: Value, toJson: Value -> Completion<Value>): (r: map<string, Value>)
    ensures IsNullish(raw) ==> r == map[]
    ensures NormalizeDataPartToObject(raw, toJson).Normal? && NormalizeDataPartToObject(raw, toJson).value.Obj? ==>
      r == NormalizeDataPartToObject(raw, toJson).value.fields
    ensures !(NormalizeDataPartToObject(raw, toJson).Normal? && NormalizeDataPartToObject(raw, toJson).value.Obj?) ==>
      r == map[]
  {
    match NormalizeDataPartToObject(raw, toJson)
    case Normal(Obj(m)) => m
    case _ => map[]
  }

  /** A record (not wrapped, not a protobuf Value) whose `fieldsMap` is the pairs form normalises to the pairs' map. */
  lemma PlainObjectOfPairs(raw: Value, toJson: Value -> Completion<Value>)
    requires IsStructLike(raw) && !Has(raw, "kind") && !Has(raw, "data")
    requires raw.fields["fieldsMap"].Arr? && FromPairs(raw.fields["fieldsMap"], 0, map[]).Normal?
    ensures NormalizeDataPartToPlainObject(raw, toJson) == FromPairs(raw.fields["fieldsMap"], 0, map[]).value
  {
    assert !IsProtoValue(raw);
    assert Unwrapped(raw) == raw;
    assert NormalizeStructLike(raw) == FromPairs(raw.fields["fieldsMap"], 0, map[]);
  }

  /** For such a record, the last pair with a key gives that key its value. */
  lemma PlainObjectLastPairWins(raw: Value, toJson: Value -> Completion<Value>, k: nat)
    requires IsStructLike(raw) && !Has(raw, "kind") && !Has(raw, "data")
    requires raw.fields["fieldsMap"].Arr? && FromPairs(raw.fields["fieldsMap"], 0, map[]).Normal?
    requires var items := raw.fields["fieldsMap"].items;
      k < |items| && KeptPair(items[k])
      && (forall j :: k < j < |items| && KeptPair(items[j]) ==>
            ToPropertyKey(PairKey(items[j])) != ToPropertyKey(PairKey(items[k])))
    ensures NormalizeValue(PairValue(raw.fields["fieldsMap"].items[k])).Normal?
    ensures var item := raw.fields["fieldsMap"].items[k];
      var o := NormalizeDataPartToPlainObject(raw, toJson);
      ToPropertyKey(PairKey(item)) in o && o[ToPropertyKey(PairKey(item))] == NormalizeValue(PairValue(item)).value
  {
    var fm := raw.fields["fieldsMap"];
    var item := fm.items[k];
    LastPairWins(fm, 0, map[], k);
    var m := FromPairs(fm, 0, map[]).value;
    assert m[ToPropertyKey(PairKey(item))] == NormalizeValue(PairValue(item)).value;
    PlainObjectOfPairs(raw, toJson);
    assert NormalizeDataPartToPlainObject(raw, toJson) == m;
  }

  /** `isFunctionCall(obj)`: an object whose `id` and `name` are non-empty strings. */
  predicate IsFunctionCall(obj: Value) {
    Truthy(obj) && TypeofObject(obj)
    && Get(obj, "id").Str? && |Get(obj, "id").s| > 0
    && Get(obj, "name").Str? && |Get(obj, "name").s| > 0
  }

  lemma FunctionCallShape(obj: Value)
    ensures IsFunctionCall(obj) <==>
      obj.Obj? && "id" in obj.fields && "name" in obj.fields
      && obj.fields["id"].Str? && obj.fields["id"].s != ""
      && obj.fields["name"].Str? && obj.fields["name"].s != ""
  {
  }
}
