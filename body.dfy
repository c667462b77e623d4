/**
 * The `$tx` object: contract, namespace and input always, entry, output and
 * readonly when set, under fixed `$`-prefixed keys.
 */
module Body {
  import opened Errors
  import opened JsonValue

  /** The six values a body is assembled from. */
  datatype BodyFields = BodyFields(
    contract: Json,
    namespace: Json,
    input: Json,
    entry: Option<Json>,
    output: Option<Json>,
    readonly: Option<Json>)

  /** The optional keys `add` accepts. */
  const OptionalKeys: set<string> := {"entry", "output", "readonly"}

  function Optional(key: string, value: Option<Json>): map<string, Json>
  {
    match value
    case Some(v) => map[key := v]
    case None => map[]
  }

  /** The layout `build` emits. */
  function BodyJson(f: BodyFields): Json
  {
    JObject(map["$contract" := f.contract, "$namespace" := f.namespace, "$i" := f.input]
            + Optional("$entry", f.entry) + Optional("$o", f.output) + Optional("$r", f.readonly))
  }

  function Field(m: map<string, Json>, key: string): Option<Json>
  {
    if key in m then Some(m[key]) else None
  }

  const BodyKeys: set<string> := {"$contract", "$namespace", "$i", "$entry", "$o", "$r"}

  /** Reads a `$tx` object back into its fields; anything outside the layout is refused. */
  function ParseBody(j: Json): Option<BodyFields>
  {
    if j.JObject? && j.fields.Keys <= BodyKeys
       && "$contract" in j.fields && "$namespace" in j.fields && "$i" in j.fields
    then Some(BodyFields(j.fields["$contract"], j.fields["$namespace"], j.fields["$i"],
                         Field(j.fields, "$entry"), Field(j.fields, "$o"), Field(j.fields, "$r")))
    else None
  }

  /**
   * The three required keys always carry their values; `$entry`, `$o` and
   * `$r` appear exactly when the field is set, with its value; nothing else appears.
   */
  lemma BodyLayout(f: BodyFields)
    ensures BodyJson(f).JObject?
    ensures var m := BodyJson(f).fields;
      && m.Keys <= BodyKeys
      && "$contract" in m && m["$contract"] == f.contract
      && "$namespace" in m && m["$namespace"] == f.namespace
      && "$i" in m && m["$i"] == f.input
      && Field(m, "$entry") == f.entry
      && Field(m, "$o") == f.output
      && Field(m, "$r") == f.readonly
  {
  }

  /** The body determines the fields it was built from. */
  lemma BodyRoundTrip(f: BodyFields)
    ensures ParseBody(BodyJson(f)) == Some(f)
  {
    BodyLayout(f);
  }

  /** Every object in the layout is the body of the fields it reads as. */
  lemma ParseBodyRoundTrip(j: Json)
    requires ParseBody(j).Some?
    ensures BodyJson(ParseBody(j).value) == j
  {
    var f := ParseBody(j).value;
    BodyLayout(f);
    var m := BodyJson(f).fields;
    assert m.Keys == j.fields.Keys;
  }

  class TransactionBody {
    var entry: Option<Json>
    var contract: Json
    var namespace: Json
    var input: Json
    var output: Option<Json>
    var readonly: Option<Json>
    var json: Option<Json>

    function Fields(): BodyFields
      reads this
    {
      BodyFields(contract, namespace, input, entry, output, readonly)
    }

    /** `TransactionBody::new`: the required values verbatim, everything else absent. */
    constructor (contract: Json, namespace: Json, input: Json)
      ensures Fields() == BodyFields(contract, namespace, input, None, None, None)
      ensures json == None
    {
      this.entry := None;
      this.contract := contract;
      this.namespace := namespace;
      this.input := input;
      this.output := None;
      this.readonly := None;
      this.json := None;
    }

    /** `add`: sets the named optional field, overwriting; callers never pass another key. */
    method Add(key: string, data: Json)
      requires key in OptionalKeys
      modifies this
      ensures entry == (if key == "entry" then Some(data) else old(entry))
      ensures output == (if key == "output" then Some(data) else old(output))
      ensures readonly == (if key == "readonly" then Some(data) else old(readonly))
      ensures contract == old(contract) && namespace == old(namespace) && input == old(input)
      ensures json == old(json)
    {
      match key {
        case "entry" => entry := Some(data);
        case "output" => output := Some(data);
        case "readonly" => readonly := Some(data);
      }
    }

    /** `build`: emits the layout of the current fields and caches it. */
    method Build() returns (r: Json)
      modifies this
      ensures r == BodyJson(Fields()) && json == Some(r)
      ensures Fields() == old(Fields())
    {
      var m := map["$contract" := contract, "$namespace" := namespace, "$i" := input];
      if entry.Some? {
        m := m["$entry" := entry.value];
      }
      if output.Some? {
        m := m["$o" := output.value];
      }
      if readonly.Some? {
        m := m["$r" := readonly.value];
      }
      r := JObject(m);
      json := Some(r);
    }

    /** `get` as written: the cached body, or `TxBodyError(0)` before any build. */
    method GetAsWritten() returns (r: Result<Json>)
      ensures json.Some? ==> r == Ok(json.value)
      ensures json.None? ==> r == Err(TxBodyError(0))
    {
      match json {
        case Some(j) => r := Ok(j);
        case None => r := Err(TxBodyError(0));
      }
    }

    /** `get` with the category's listed code: before any build the error reads "No transaction body". */
    method Get() returns (r: Result<Json>)
      ensures json.Some? ==> r == Ok(json.value)
      ensures json.None? ==> r == Err(TxBodyError(4000))
      ensures r.Err? ==> Listed(r.error) && Message(r.error) == "No transaction body"
    {
      match json {
        case Some(j) => r := Ok(j);
        case None => r := Err(TxBodyError(4000));
      }
    }
  }

  /** The code `get` reports is not in its category's table, so it displays as an unknown error. */
  lemma UnbuiltBodyErrorUnknown()
    ensures !Listed(TxBodyError(0))
    ensures Display(TxBodyError(0)) == " Error - 0 : Unknown Error"
  {
    assert Decimal(0) == "0";
  }

  /** A body that was built answers `get` with exactly what `build` returned. */
  method BuildThenGet(body: TransactionBody) returns (built: Json, got: Result<Json>)
    modifies body
    ensures got == Ok(built) && built == BodyJson(body.Fields())
  {
    built := body.Build();
    got := body.Get();
  }
}
