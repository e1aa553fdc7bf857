/** The JavaScript values the core handles (request bodies, storage rows,
    response objects) and the few language operations it relies on:
    `typeof`, truthiness, string conversion, property access and
    `Object.keys`. Numbers are integers here. */
module Js {
  import opened Text

  /** A JavaScript value. A plain object is a map from its own keys to values
      (key order is not modelled); `Arr` is an array. */
  datatype JsValue =
    | Undefined
    | Null
    | Bool(b: bool)
    | Num(n: int)
    | Str(s: string)
    | Obj(fields: map<string, JsValue>)
    | Arr(elems: seq<JsValue>)

  datatype Option<+T> = None | Some(value: T)

  /** Either a value or an exception thrown by the named error class. */
  datatype Result<+T> = Ok(value: T) | Throw(error: string)

  const TypeError: string := "TypeError"
  const SyntaxError: string := "SyntaxError"

  /** The `typeof` operator. Note that `typeof null` is "object". */
  function TypeOf(v: JsValue): (t: string)
    ensures t == "object" <==> v.Null? || v.Obj? || v.Arr?
    ensures t == "string" <==> v.Str?
    ensures t == "number" <==> v.Num?
  {
    match v
    case Undefined => "undefined"
    case Null => "object"
    case Bool(_) => "boolean"
    case Num(_) => "number"
    case Str(_) => "string"
    case Obj(_) => "object"
    case Arr(_) => "object"
  }

  /** Truthiness as tested by `if (v)` and `!v`. */
  predicate Truthy(v: JsValue)
  {
    match v
    case Undefined => false
    case Null => false
    case Bool(b) => b
    case Num(n) => n != 0
    case Str(s) => s != ""
    case Obj(_) => true
    case Arr(_) => true
  }

  /** `String(v)`, which is also what a template literal `${v}` and
      `string + v` produce: an array joins its elements with ",", rendering
      null and undefined elements as the empty string. */
  function ToJsString(v: JsValue): string
    decreases v
  {
    match v
    case Undefined => "undefined"
    case Null => "null"
    case Bool(b) => if b then "true" else "false"
    case Num(n) => IntToString(n)
    case Str(s) => s
    case Obj(_) => "[object Object]"
    case Arr(elems) =>
      Join(",", seq(|elems|, i requires 0 <= i < |elems| =>
        if elems[i].Null? || elems[i].Undefined? then "" else ToJsString(elems[i])))
  }

  /** Reading a property throws a TypeError exactly on null and undefined. */
  predicate Accessible(v: JsValue)
  {
    !v.Null? && !v.Undefined?
  }

  /** `v[key]` for a key that is not an array index, not "length" and not
      inherited from a prototype (every key the core reads is of this kind):
      an object's own value or undefined. */
  function Get(v: JsValue, key: string): (r: JsValue)
    requires Accessible(v)
    ensures v.Obj? && key in v.fields ==> r == v.fields[key]
    ensures !(v.Obj? && key in v.fields) ==> r == Undefined
  {
    if v.Obj? && key in v.fields then v.fields[key] else Undefined
  }

  /** The own entries that `Object.keys(v)` and `v[key]` enumerate: an
      object's fields, an array's elements or a string's characters under
      their decimal index, nothing for numbers and booleans, and a TypeError
      for null and undefined. */
  function OwnEntries(v: JsValue): (r: Result<map<string, JsValue>>)
    ensures r.Throw? <==> !Accessible(v)
    ensures r.Throw? ==> r.error == TypeError
    ensures v.Obj? ==> r == Ok(v.fields)
    ensures v.Arr? ==> r == Ok(ArrayEntries(v.elems))
    ensures v.Str? ==> r == Ok(StringEntries(v.s))
    ensures v.Num? || v.Bool? ==> r == Ok(map[])
  {
    match v
    case Undefined => Throw(TypeError)
    case Null => Throw(TypeError)
    case Bool(_) => Ok(map[])
    case Num(_) => Ok(map[])
    case Obj(fields) => Ok(fields)
    case Arr(elems) => Ok(ArrayEntries(elems))
    case Str(s) => Ok(StringEntries(s))
  }

  /** An array's elements under their index keys. */
  function ArrayEntries(elems: seq<JsValue>): (m: map<string, JsValue>)
    ensures m.Keys == IndexKeys(|elems|) && |m| == |elems|
    ensures forall i :: 0 <= i < |elems| ==> m[NatToString(i)] == elems[i]
  {
    IndexKeysDistinct();
    var m := map i | 0 <= i < |elems| :: NatToString(i) := elems[i];
    assert m.Keys == IndexKeys(|elems|);
    IndexKeysCount(|elems|);
    m
  }

  /** A string's one-character strings under their index keys. */
  function StringEntries(s: string): (m: map<string, JsValue>)
    ensures m.Keys == IndexKeys(|s|) && |m| == |s|
    ensures forall i :: 0 <= i < |s| ==> m[NatToString(i)] == Str([s[i]])
  {
    IndexKeysDistinct();
    var m := map i | 0 <= i < |s| :: NatToString(i) := Str([s[i]]);
    assert m.Keys == IndexKeys(|s|);
    IndexKeysCount(|s|);
    m
  }

  lemma IndexKeysDistinct()
    ensures forall a: nat, b: nat :: NatToString(a) == NatToString(b) ==> a == b
  {
    forall a: nat, b: nat ensures NatToString(a) == NatToString(b) ==> a == b {
      NatToStringInjective(a, b);
    }
  }

  /** The index keys "0" .. "n-1". */
  function IndexKeys(n: nat): set<string>
  {
    set i | 0 <= i < n :: NatToString(i)
  }

  /** There are exactly n index keys. */
  lemma {:induction false} IndexKeysCount(n: nat)
    ensures |IndexKeys(n)| == n
    decreases n
  {
    if n > 0 {
      IndexKeysCount(n - 1);
      IndexKeysDistinct();
      assert NatToString(n - 1) !in IndexKeys(n - 1);
      assert IndexKeys(n) == IndexKeys(n - 1) + {NatToString(n - 1)};
    }
  }
}
