/** The one-level codec for nested values (src/utils/NestedJSONUtility.js):
    `encode` turns every object-typed field of a record into its JSON text,
    `parse` turns every string field that starts with "{" back into a value.
    JSON.stringify and JSON.parse are built-ins; the model takes them as a
    pair of functions and states, in Lawful, the facts about them it uses. */
module NestedJson {
  import opened Js

  /** JSON.stringify and JSON.parse; `parse` yields None where JSON.parse
      throws a SyntaxError. */
  datatype Json = Json(stringify: JsValue -> string, parse: string -> Option<JsValue>)

  /** Values that JSON keeps intact: no undefined anywhere inside (JSON
      drops undefined object fields and turns undefined array elements into
      null). */
  predicate JsonSafe(v: JsValue)
    decreases v
  {
    match v
    case Undefined => false
    case Obj(fields) => forall k :: k in fields ==> JsonSafe(fields[k])
    case Arr(elems) => forall i :: 0 <= i < |elems| ==> JsonSafe(elems[i])
    case _ => true
  }

  predicate StartsWithBrace(s: string)
  {
    |s| > 0 && s[0] == '{'
  }

  /** What the model assumes of JSON.stringify and JSON.parse: a plain
      object's text starts with "{", an array's with "[", null's is "null",
      and parsing an object's text gives the object back when nothing inside
      it is undefined. */
  ghost predicate Lawful(json: Json)
  {
    && (forall o: map<string, JsValue> :: StartsWithBrace(json.stringify(Obj(o))))
    && (forall o: map<string, JsValue> ::
          JsonSafe(Obj(o)) ==> json.parse(json.stringify(Obj(o))) == Some(Obj(o)))
    && json.stringify(Null) == "null"
    && (forall elems: seq<JsValue> ::
          |json.stringify(Arr(elems))| > 0 && json.stringify(Arr(elems))[0] == '[')
  }

  /** One field of `encode`: a value whose `typeof` is "object" (a plain
      object, an array or null) becomes its JSON text. */
  function EncodeValue(json: Json, v: JsValue): JsValue
  {
    if TypeOf(v) == "object" then Str(json.stringify(v)) else v
  }

  /** The record `encode` returns. */
  function EncodedRecord(json: Json, obj: map<string, JsValue>): (r: map<string, JsValue>)
    ensures r.Keys == obj.Keys
    ensures forall k :: k in r ==> TypeOf(r[k]) != "object"
    ensures forall k :: k in obj && TypeOf(obj[k]) != "object" ==> r[k] == obj[k]
    ensures forall k :: k in obj && TypeOf(obj[k]) == "object" ==> r[k] == Str(json.stringify(obj[k]))
  {
    map k | k in obj :: EncodeValue(json, obj[k])
  }

  /** `encode(obj)`: fills a fresh output record key by key. */
  method Encode(json: Json, obj: map<string, JsValue>) returns (output: map<string, JsValue>)
    ensures output == EncodedRecord(json, obj)
  {
    output := map[];
    var keys := obj.Keys;
    while keys != {}
      invariant keys <= obj.Keys
      invariant output == map k | k in obj.Keys - keys :: EncodeValue(json, obj[k])
      decreases keys
    {
      var key :| key in keys;
      if TypeOf(obj[key]) == "object" {
        output := output[key := Str(json.stringify(obj[key]))];
      } else {
        output := output[key := obj[key]];
      }
      keys := keys - {key};
    }
  }

  /** A second `encode` changes nothing: after one pass no field is
      object-typed. */
  lemma EncodeIdempotent(json: Json, obj: map<string, JsValue>)
    ensures EncodedRecord(json, EncodedRecord(json, obj)) == EncodedRecord(json, obj)
  {
    var once := EncodedRecord(json, obj);
    var twice := EncodedRecord(json, once);
    forall k | k in once ensures twice[k] == once[k] {
      assert TypeOf(once[k]) != "object";
    }
  }

  /** The test `typeof v === "string" && v.charAt(0) === "{"`. */
  predicate LooksEncoded(v: JsValue)
  {
    v.Str? && StartsWithBrace(v.s)
  }

  /** One field of `parse`: None where JSON.parse throws. */
  function ParseValue(json: Json, v: JsValue): Option<JsValue>
  {
    if LooksEncoded(v) then json.parse(v.s) else Some(v)
  }

  /** The outcome of `parse`: a SyntaxError when some field looks encoded
      but is not valid JSON, otherwise the record with exactly the fields
      that look encoded replaced by their parsed values. */
  function ParsedRecord(json: Json, obj: map<string, JsValue>): (r: Result<map<string, JsValue>>)
    ensures r.Throw? <==> exists k :: k in obj && LooksEncoded(obj[k]) && json.parse(obj[k].s).None?
    ensures r.Throw? ==> r.error == SyntaxError
    ensures r.Ok? ==> r.value.Keys == obj.Keys
    ensures r.Ok? ==> forall k :: k in obj && LooksEncoded(obj[k]) ==> json.parse(obj[k].s) == Some(r.value[k])
    ensures r.Ok? ==> forall k :: k in obj && !LooksEncoded(obj[k]) ==> r.value[k] == obj[k]
  {
    if exists k :: k in obj && ParseValue(json, obj[k]).None? then Throw(SyntaxError)
    else Ok(map k | k in obj :: ParseValue(json, obj[k]).value)
  }

  /** `parse(obj)`: fills a fresh output record key by key; the first
      invalid field ends it with JSON.parse's SyntaxError. */
  method Parse(json: Json, obj: map<string, JsValue>) returns (r: Result<map<string, JsValue>>)
    ensures r == ParsedRecord(json, obj)
  {
    var output := map[];
    var keys := obj.Keys;
    while keys != {}
      invariant keys <= obj.Keys
      invariant forall k :: k in obj.Keys - keys ==> ParseValue(json, obj[k]).Some?
      invariant output == map k | k in obj.Keys - keys :: ParseValue(json, obj[k]).value
      decreases keys
    {
      var key :| key in keys;
      var v := obj[key];
      if v.Str? && |v.s| > 0 && v.s[0] == '{' {
        var parsed := json.parse(v.s);
        if parsed.None? {
          assert ParseValue(json, obj[key]).None?;
          return Throw(SyntaxError);
        }
        output := output[key := parsed.value];
      } else {
        output := output[key := v];
      }
      keys := keys - {key};
    }
    assert obj.Keys - keys == obj.Keys;
    assert !exists k :: k in obj && ParseValue(json, obj[k]).None?;
    r := Ok(output);
  }

  /** Records on which `parse` undoes `encode`: every object-typed field is a
      plain object JSON keeps intact, and no string field starts with "{". */
  predicate RoundTrips(obj: map<string, JsValue>)
  {
    forall k :: k in obj ==>
      && (TypeOf(obj[k]) == "object" ==> obj[k].Obj? && JsonSafe(obj[k]))
      && !LooksEncoded(obj[k])
  }

  /** The round-trip law: parse(encode(obj)) == obj on such records. */
  lemma ParseEncodeRoundTrip(json: Json, obj: map<string, JsValue>)
    requires Lawful(json)
    requires RoundTrips(obj)
    ensures ParsedRecord(json, EncodedRecord(json, obj)) == Ok(obj)
  {
    var enc := EncodedRecord(json, obj);
    forall k | k in enc ensures ParseValue(json, enc[k]) == Some(obj[k]) {
      if TypeOf(obj[k]) == "object" {
        var o := obj[k].fields;
        assert enc[k] == Str(json.stringify(Obj(o)));
        assert StartsWithBrace(json.stringify(Obj(o)));
        assert json.parse(json.stringify(Obj(o))) == Some(Obj(o));
      }
    }
    assert !exists k :: k in enc && ParseValue(json, enc[k]).None?;
    var out := map k | k in enc :: ParseValue(json, enc[k]).value;
    assert out == obj;
  }

  /** `parse` of a one-field record. */
  lemma ParsedSingleton(json: Json, key: string, v: JsValue, w: JsValue)
    requires ParseValue(json, v) == Some(w)
    ensures ParsedRecord(json, map[key := v]) == Ok(map[key := w])
  {
    var obj := map[key := v];
    assert forall k :: k in obj ==> k == key;
    assert !exists k :: k in obj && ParseValue(json, obj[k]).None?;
    assert (map k | k in obj :: ParseValue(json, obj[k]).value) == map[key := w];
  }

  /** An array field does not come back: its text starts with "[", so
      `parse` leaves it a string. */
  lemma ArrayFieldStaysText(json: Json, key: string, elems: seq<JsValue>)
    requires Lawful(json)
    ensures ParsedRecord(json, EncodedRecord(json, map[key := Arr(elems)]))
         == Ok(map[key := Str(json.stringify(Arr(elems)))])
  {
    var enc := EncodedRecord(json, map[key := Arr(elems)]);
    assert enc == map[key := Str(json.stringify(Arr(elems)))];
    ParsedSingleton(json, key, enc[key], enc[key]);
  }

  /** A null field comes back as the string "null". */
  lemma NullFieldBecomesText(json: Json, key: string)
    requires Lawful(json)
    ensures ParsedRecord(json, EncodedRecord(json, map[key := Null])) == Ok(map[key := Str("null")])
  {
    var enc := EncodedRecord(json, map[key := Null]);
    assert enc == map[key := Str("null")];
    ParsedSingleton(json, key, enc[key], enc[key]);
  }

  /** A string field that happens to be an object's JSON text is taken for
      an encoded object: the round trip turns it into that object. */
  lemma BraceStringIsMistaken(json: Json, key: string, o: map<string, JsValue>)
    requires Lawful(json)
    requires JsonSafe(Obj(o))
    ensures ParsedRecord(json, EncodedRecord(json, map[key := Str(json.stringify(Obj(o)))]))
         == Ok(map[key := Obj(o)])
  {
    var text := json.stringify(Obj(o));
    var enc := EncodedRecord(json, map[key := Str(text)]);
    assert enc == map[key := Str(text)];
    assert json.parse(text) == Some(Obj(o));
    ParsedSingleton(json, key, Str(text), Obj(o));
  }

  /** One level only: when the parsed object itself holds an encoded field,
      that field stays a string. */
  lemma ParseDecodesOneLevel(json: Json, key: string, inner: map<string, JsValue>, w: string)
    requires Lawful(json)
    requires JsonSafe(Obj(inner))
    requires w in inner && LooksEncoded(inner[w])
    ensures var r := ParsedRecord(json, map[key := Str(json.stringify(Obj(inner)))]);
      && r.Ok?
      && r.value[key] == Obj(inner)
      && r.value[key].fields[w].Str?
  {
    var text := json.stringify(Obj(inner));
    assert LooksEncoded(Str(text));
    assert json.parse(text) == Some(Obj(inner));
  }
}
