/**
 * Normalisation of a packet section into `PacketData`: a `PacketValue` tree
 * (or pass-through JSON) becomes a JSON value plus its serialized text.
 */
module Packets {
  import opened Errors
  import opened JsonValue
  import opened PacketValues

  /* ---------------------------------------------------------------------- */
  /* Reference conversion and its inverse                                   */
  /* ---------------------------------------------------------------------- */

  /** The JSON image of a packet value, node by node. */
  function Convert(v: PacketValue): Json
  {
    match v
    case String(s) => JString(s)
    case Array(items) => JArray(seq(|items|, i requires 0 <= i < |items| => Convert(items[i])))
    case Object(m) => JObject(map k | k in m :: Convert(m[k]))
  }

  /** Reads JSON of the string/array/object subset back as a packet value. */
  function Restrict(j: Json): Option<PacketValue>
  {
    match j
    case JString(s) => Some(String(s))
    case JArray(items) =>
      if forall i | 0 <= i < |items| :: Restrict(items[i]).Some? then
        Some(Array(seq(|items|, i requires 0 <= i < |items| && Restrict(items[i]).Some? => Restrict(items[i]).value)))
      else None
    case JObject(m) =>
      if forall k | k in m :: Restrict(m[k]).Some? then
        Some(Object(map k | k in m :: Restrict(m[k]).value))
      else None
    case _ => None
  }

  /** Conversion keeps the shape: strings stay strings, arrays keep length and order, objects keep their keys. */
  lemma ConvertPreservesShape(v: PacketValue)
    ensures v.String? ==> Convert(v) == JString(v.s)
    ensures v.Array? ==> Convert(v).JArray? && |Convert(v).items| == |v.items|
                         && forall i | 0 <= i < |v.items| :: Convert(v).items[i] == Convert(v.items[i])
    ensures v.Object? ==> Convert(v).JObject? && Convert(v).fields.Keys == v.fields.Keys
                          && forall k | k in v.fields :: Convert(v).fields[k] == Convert(v.fields[k])
  {
  }

  /** Nothing is lost by the conversion: the JSON reads back as the very same tree. */
  lemma {:induction false} ConvertRoundTrip(v: PacketValue)
    ensures Restrict(Convert(v)) == Some(v)
  {
    match v
    case String(_) =>
    case Array(items) =>
      forall i | 0 <= i < |items| ensures Restrict(Convert(items[i])) == Some(items[i]) {
        ConvertRoundTrip(items[i]);
      }
      var c := Convert(v).items;
      assert |c| == |items| && forall i | 0 <= i < |items| :: c[i] == Convert(items[i]);
      assert forall i | 0 <= i < |c| :: Restrict(c[i]).Some?;
      var back := Restrict(Convert(v)).value.items;
      assert |back| == |items|;
      assert back == items;
    case Object(m) =>
      forall k | k in m ensures Restrict(Convert(m[k])) == Some(m[k]) {
        ConvertRoundTrip(m[k]);
      }
      assert Restrict(Convert(v)).value.fields == m;
  }

  /** The other direction: whatever reads back as a tree is exactly that tree's image. */
  lemma {:induction false} RestrictRoundTrip(j: Json, v: PacketValue)
    requires Restrict(j) == Some(v)
    ensures Convert(v) == j
  {
    match j
    case JString(_) =>
    case JArray(items) =>
      forall i | 0 <= i < |items| ensures Convert(v.items[i]) == items[i] {
        RestrictRoundTrip(items[i], v.items[i]);
      }
      assert Convert(v).items == items;
    case JObject(m) =>
      forall k | k in m ensures Convert(v.fields[k]) == m[k] {
        RestrictRoundTrip(m[k], v.fields[k]);
      }
      assert Convert(v).fields == m;
  }

  lemma ConvertInjective(a: PacketValue, b: PacketValue)
    ensures Convert(a) == Convert(b) <==> a == b
  {
    ConvertRoundTrip(a);
    ConvertRoundTrip(b);
  }

  /** What `build` stores for a value root: an object root converted, any other root `{}`. */
  function BuiltJson(root: PacketValue): Json
  {
    match root
    case Object(_) => Convert(root)
    case _ => JObject(map[])
  }

  /* ---------------------------------------------------------------------- */
  /* The conversions as written (array_tojson, object_tojson, to_json)      */
  /* ---------------------------------------------------------------------- */

  /** The per-element match of `array_tojson` and `to_json`: errors propagate unchanged. */
  function ElementToJson(v: PacketValue): Result<Json>
    decreases v, 3, 0
  {
    match v
    case String(s) => Ok(JString(s))
    case Object(m) => ObjectToJson(m)
    case Array(_) => ArrayToJson(v)
  }

  /** `array_tojson`: a non-array argument is error 2000. */
  function ArrayToJson(v: PacketValue): Result<Json>
    decreases v, 2, 0
  {
    match v
    case Array(_) =>
      (match ItemsToJson(v, 0)
       case Ok(xs) => Ok(JArray(xs))
       case Err(e) => Err(e))
    case _ => Err(JsonError(2000))
  }

  /** The element loop of `array_tojson` from index `i` on; the first failure in order is returned. */
  function ItemsToJson(v: PacketValue, i: nat): Result<seq<Json>>
    requires v.Array? && i <= |v.items|
    decreases v, 1, |v.items| - i
  {
    if i == |v.items| then Ok([])
    else
      match ElementToJson(v.items[i])
      case Err(e) => Err(e)
      case Ok(x) =>
        (match ItemsToJson(v, i + 1)
         case Err(e) => Err(e)
         case Ok(xs) => Ok([x] + xs))
  }

  /** The per-entry match of `object_tojson`: a failing nested object is reported as 2001. */
  function ObjectEntryToJson(v: PacketValue): Result<Json>
    decreases v, 4, 0
  {
    match v
    case String(s) => Ok(JString(s))
    case Object(m) =>
      (match ObjectToJson(m)
       case Ok(d) => Ok(d)
       case Err(_) => Err(JsonError(2001)))
    case Array(_) => ArrayToJson(v)
  }

  /**
   * `object_tojson`. Which failing entry is reported depends on hash-map
   * order; any failure is reported here as 2001.
   */
  function ObjectToJson(m: map<string, PacketValue>): Result<Json>
    decreases Object(m), 1, 0
  {
    if forall k | k in m :: ObjectEntryToJson(m[k]).Ok? then
      Ok(JObject(map k | k in m :: ObjectEntryToJson(m[k]).value))
    else Err(JsonError(2001))
  }

  /** `to_json`: an object root is converted entry by entry; any other root gives `{}`. */
  function ToJson(root: PacketValue): Result<Json>
  {
    match root
    case Object(m) =>
      if forall k | k in m :: ElementToJson(m[k]).Ok? then
        Ok(JObject(map k | k in m :: ElementToJson(m[k]).value))
      else Err(JsonError(2001))
    case _ => Ok(JObject(map[]))
  }

  lemma {:induction false} ElementToJsonTotal(v: PacketValue)
    ensures ElementToJson(v) == Ok(Convert(v))
    decreases v, 3, 0
  {
    match v
    case String(_) =>
    case Object(m) => ObjectToJsonTotal(m);
    case Array(_) => ArrayToJsonTotal(v);
  }

  lemma {:induction false} ArrayToJsonTotal(v: PacketValue)
    requires v.Array?
    ensures ArrayToJson(v) == Ok(Convert(v))
    decreases v, 2, 0
  {
    ItemsToJsonTotal(v, 0);
    assert Convert(v).items[0..] == Convert(v).items;
  }

  lemma {:induction false} ItemsToJsonTotal(v: PacketValue, i: nat)
    requires v.Array? && i <= |v.items|
    ensures ItemsToJson(v, i) == Ok(Convert(v).items[i..])
    decreases v, 1, |v.items| - i
  {
    if i < |v.items| {
      ElementToJsonTotal(v.items[i]);
      ItemsToJsonTotal(v, i + 1);
      assert Convert(v).items[i..] == [Convert(v.items[i])] + Convert(v).items[i + 1..];
    } else {
      assert ItemsToJson(v, i) == Ok([]);
      assert Convert(v).items[i..] == [];
    }
  }

  lemma {:induction false} ObjectEntryToJsonTotal(v: PacketValue)
    ensures ObjectEntryToJson(v) == Ok(Convert(v))
    decreases v, 4, 0
  {
    match v
    case String(_) =>
    case Object(m) => ObjectToJsonTotal(m);
    case Array(_) => ArrayToJsonTotal(v);
  }

  lemma {:induction false} ObjectToJsonTotal(m: map<string, PacketValue>)
    ensures ObjectToJson(m) == Ok(Convert(Object(m)))
    decreases Object(m), 1, 0
  {
    forall k | k in m ensures ObjectEntryToJson(m[k]) == Ok(Convert(m[k])) {
      ObjectEntryToJsonTotal(m[k]);
    }
    assert (map k | k in m :: ObjectEntryToJson(m[k]).value) == (map k | k in m :: Convert(m[k]));
  }

  /** `to_json` never fails: errors 2000 and 2001 cannot arise, and the result is the built JSON. */
  lemma ToJsonTotal(root: PacketValue)
    ensures ToJson(root) == Ok(BuiltJson(root))
  {
    if root.Object? {
      forall k | k in root.fields ensures ElementToJson(root.fields[k]) == Ok(Convert(root.fields[k])) {
        ElementToJsonTotal(root.fields[k]);
      }
      var m := root.fields;
      assert forall k | k in m :: ElementToJson(m[k]).Ok?;
      assert (map k | k in m :: ElementToJson(m[k]).value) == (map k | k in m :: Convert(m[k]));
      assert BuiltJson(root) == JObject(map k | k in m :: Convert(m[k]));
    }
  }

  /* ---------------------------------------------------------------------- */
  /* PacketData and PacketBuilder                                           */
  /* ---------------------------------------------------------------------- */

  /** The result of building a section: the value tree or pass-through JSON, and the built forms. */
  class PacketData {
    var data: Option<PacketValue>
    var json: Option<Json>
    var isJson: bool
    var built: Option<string>

    /**
     * The flag says whether `json` is authoritative; the serialized text only
     * exists beside the JSON it came from; and the data holds one of the two sources.
     * A new `PacketData` is empty and does not satisfy this; it holds once
     * `Add`, `AddMap` or `AddJson` has stored a source, which is how every
     * `PacketBuilder` constructor leaves it.
     */
    ghost predicate Valid()
      reads this
    {
      && (isJson <==> json.Some?)
      && (built.Some? ==> json.Some?)
      && (data.Some? || json.Some?)
    }

    /** `PacketData::new`: everything empty. */
    constructor ()
      ensures data == None && json == None && !isJson && built == None
    {
      data, json, isJson, built := None, None, false, None;
    }

    method Add(value: PacketValue)
      modifies this
      ensures data == Some(value)
      ensures json == old(json) && isJson == old(isJson) && built == old(built)
    {
      data := Some(value);
    }

    method AddMap(m: map<string, PacketValue>)
      modifies this
      ensures data == Some(Object(m))
      ensures json == old(json) && isJson == old(isJson) && built == old(built)
    {
      data := Some(Object(m));
    }

    method AddJson(j: Json)
      modifies this
      ensures json == Some(j) && isJson
      ensures data == old(data) && built == old(built)
    {
      json := Some(j);
      isJson := true;
    }

    /** `set_built`: the JSON becomes authoritative and its text is snapshotted. */
    method SetBuilt(j: Json, ser: Serializer)
      modifies this
      ensures json == Some(j) && isJson && built == Some(ser(j))
      ensures data == old(data)
    {
      json := Some(j);
      isJson := true;
      built := Some(ser(j));
    }

    /** `get_string`: the serialized snapshot, error 3000 before a build. */
    function GetString(): (r: Result<string>)
      reads this
      ensures r.Ok? <==> built.Some?
      ensures r.Ok? ==> r.value == built.value
      ensures r.Err? ==> r.error == PacketError(3000)
    {
      match built
      case Some(text) => Ok(text)
      case None => Err(PacketError(3000))
    }

    /** `get`: the JSON form, error 3001 when there is none. */
    function Get(): (r: Result<Json>)
      reads this
      ensures r.Ok? <==> json.Some?
      ensures r.Ok? ==> r.value == json.value
      ensures r.Err? ==> r.error == PacketError(3001)
    {
      match json
      case Some(j) => Ok(j)
      case None => Err(PacketError(3001))
    }

    /** `#[derive(Clone)]`. */
    method Clone() returns (c: PacketData)
      ensures fresh(c)
      ensures c.data == data && c.json == json && c.isJson == isJson && c.built == built
    {
      c := new PacketData();
      c.data, c.json, c.isJson, c.built := data, json, isJson, built;
    }
  }

  /** The three sections a transaction takes are all built packet data. */
  type Input = PacketData
  type Output = PacketData
  type Readonly = PacketData

  class PacketBuilder {
    var data: PacketData

    ghost predicate Valid()
      reads this, data
    {
      data.Valid()
    }

    /** `PacketBuilder::new`: the root is stored as it is (an object through `add_map`), nothing is built yet. */
    constructor New(value: PacketValue)
      ensures Valid() && fresh(data)
      ensures data.data == Some(value) && data.json == None && !data.isJson && data.built == None
    {
      var d := new PacketData();
      match value {
        case Object(m) => d.AddMap(m);
        case _ => d.Add(value);
      }
      data := d;
    }

    /** `PacketBuilder::new_json`: the JSON is stored and marked authoritative. */
    constructor NewJson(j: Json)
      ensures Valid() && fresh(data)
      ensures data.json == Some(j) && data.isJson && data.data == None && data.built == None
    {
      var d := new PacketData();
      d.AddJson(j);
      data := d;
    }

    /**
     * `build`: JSON-sourced data is re-emitted unchanged; a value root is
     * converted (`{}` for a non-object root). Either way the JSON and its text
     * are stored, and a copy of the data is returned. It never fails.
     */
    method Build(ser: Serializer) returns (r: Result<PacketData>)
      requires Valid()
      modifies data
      ensures Valid()
      ensures r.Ok? && fresh(r.value)
      ensures data.json == Some(if old(data.isJson) then old(data.json.value)
                                else BuiltJson(old(data.data.value)))
      ensures data.isJson && data.built == Some(ser(data.json.value)) && data.data == old(data.data)
      ensures r.value.data == data.data && r.value.json == data.json
      ensures r.value.isJson == data.isJson && r.value.built == data.built
    {
      if data.isJson {
        match data.Get() {
          case Err(_) =>
            assert false;
          case Ok(j) =>
            data.SetBuilt(j, ser);
        }
      } else {
        match data.data {
          case None =>
            assert false;
          case Some(root) =>
            ToJsonTotal(root);
            match ToJson(root) {
              case Err(_) =>
                assert false;
              case Ok(j) =>
                data.SetBuilt(j, ser);
            }
        }
      }
      var copy := data.Clone();
      r := Ok(copy);
    }
  }

  /** Building twice gives the same JSON and text as building once. */
  method BuildTwice(b: PacketBuilder, ser: Serializer) returns (first: PacketData, second: PacketData)
    requires b.Valid()
    modifies b.data
    ensures first.json == second.json && first.built == second.built
    ensures first.json.Some? && first.built == Some(ser(first.json.value))
  {
    var r1 := b.Build(ser);
    var r2 := b.Build(ser);
    first, second := r1.value, r2.value;
  }

  /** The packet of the object-input example: a string array and a nested object. */
  function ExampleTree(): PacketValue
  {
    Object(map[
      "array" := Array([String("array"), String("of"), String("strings")]),
      "subobj" := Object(map["object style" := String("in brackets")])])
  }

  function ExampleImage(): Json
  {
    JObject(map[
      "array" := JArray([JString("array"), JString("of"), JString("strings")]),
      "subobj" := JObject(map["object style" := JString("in brackets")])])
  }

  lemma ExampleTreeImage()
    ensures Convert(ExampleTree()) == ExampleImage()
  {
    var inner := Object(map["object style" := String("in brackets")]);
    assert Convert(inner) == JObject(map["object style" := JString("in brackets")]);
    var arr := Array([String("array"), String("of"), String("strings")]);
    assert Convert(arr) == JArray([JString("array"), JString("of"), JString("strings")]);
  }

  /** An object holding a string array and a nested object builds, and its JSON is the image of the tree. */
  method ObjectInputExample(ser: Serializer) returns (j: Json)
    ensures j == ExampleImage()
  {
    var builder := new PacketBuilder.New(ExampleTree());
    var input := builder.Build(ser);
    var got := input.value.Get();
    j := got.value;
    ExampleTreeImage();
  }

  /** JSON holding a boolean passes through `new_json` and `build` unchanged. */
  method JsonInputExample(ser: Serializer) returns (j: Json)
    ensures j == JObject(map[
      "I am" := JString("json"),
      "heres" := JArray([JString("an"), JString("array")]),
      "andbool" := JBool(true)])
  {
    var json := JObject(map[
      "I am" := JString("json"),
      "heres" := JArray([JString("an"), JString("array")]),
      "andbool" := JBool(true)]);
    var builder := new PacketBuilder.NewJson(json);
    var input := builder.Build(ser);
    var got := input.value.Get();
    j := got.value;
  }
}
