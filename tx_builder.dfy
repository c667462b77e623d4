/**
 * The top-level transaction builder: collects the packet fields, assembles
 * the `$tx` body, signs its serialized text once per signee, accumulates the
 * signatures by stream id and assembles the envelope
 * `{ $tx, $sigs, $territoriality?, $selfsign? }`.
 */
module Transactions {
  import opened Errors
  import opened JsonValue
  import opened Keys
  import opened PacketValues
  import opened Packets
  import opened Body
  import opened Signing

  /* ---------------------------------------------------------------------- */
  /* Dispatch to the external key crate                                     */
  /* ---------------------------------------------------------------------- */

  /** `sign_ec`: a failed elliptic-curve signature is error 7000. */
  function SignEc(tx: string, key: KeyPair, crypto: Crypto): (r: Result<string>)
    ensures r.Ok? <==> crypto.ecSign(key, tx).Some?
    ensures r.Ok? ==> r.value == crypto.ecSign(key, tx).value
    ensures r.Err? ==> r.error == KeyError(7000)
  {
    match crypto.ecSign(key, tx)
    case Some(sig) => Ok(sig)
    case None => Err(KeyError(7000))
  }

  /** `sign_rsa`: a failed RSA signature is error 7001. */
  function SignRsa(tx: string, key: KeyPair, crypto: Crypto): (r: Result<string>)
    ensures r.Ok? <==> crypto.rsaSign(key, tx).Some?
    ensures r.Ok? ==> r.value == crypto.rsaSign(key, tx).value
    ensures r.Err? ==> r.error == KeyError(7001)
  {
    match crypto.rsaSign(key, tx)
    case Some(sig) => Ok(sig)
    case None => Err(KeyError(7001))
  }

  /** `sign_internal`: dispatch on the key variant. */
  function SignInternal(data: string, key: Key, crypto: Crypto): (r: Result<string>)
    ensures r.Err? ==> r.error == (if key.Rsa? then KeyError(7001) else KeyError(7000))
  {
    match key
    case Rsa(k) => SignRsa(data, k, crypto)
    case Ec(k) => SignEc(data, k, crypto)
  }

  /** `get_pem`: the public PEM of either key kind; a failure is error 7002. */
  function GetPem(key: Key, crypto: Crypto): (r: Result<string>)
    ensures r.Err? ==> r.error == KeyError(7002)
    ensures r.Ok? <==> (match key
                        case Rsa(k) => crypto.rsaPublicPem(k).Some?
                        case Ec(k) => crypto.ecPublicPem(k).Some?)
  {
    var pem := match key
      case Rsa(k) => crypto.rsaPublicPem(k)
      case Ec(k) => crypto.ecPublicPem(k);
    match pem
    case Some(p) => Ok(p)
    case None => Err(KeyError(7002))
  }

  /* ---------------------------------------------------------------------- */
  /* Signature accumulation                                                 */
  /* ---------------------------------------------------------------------- */

  /** Inserting (stream id, signature) pairs in order into a signature map. */
  function Merge(sigs: map<string, string>, entries: seq<(string, string)>): map<string, string>
    decreases |entries|
  {
    if entries == [] then sigs
    else
      var last := entries[|entries| - 1];
      Merge(sigs, entries[..|entries| - 1])[last.0 := last.1]
  }

  /** The position of the last entry for `id`, or -1 when there is none. */
  function LastIndex(entries: seq<(string, string)>, id: string): (r: int)
    ensures -1 <= r < |entries|
    ensures r >= 0 ==> entries[r].0 == id && forall j | r < j < |entries| :: entries[j].0 != id
    ensures r == -1 ==> forall j | 0 <= j < |entries| :: entries[j].0 != id
    decreases |entries|
  {
    if entries == [] then -1
    else if entries[|entries| - 1].0 == id then |entries| - 1
    else LastIndex(entries[..|entries| - 1], id)
  }

  /**
   * Last write wins: an id present in the entries maps to the signature of
   * its last entry; every other id keeps what it had. Nothing is removed.
   */
  lemma {:induction false} MergeLastWins(sigs: map<string, string>, entries: seq<(string, string)>, id: string)
    ensures id in Merge(sigs, entries) <==> id in sigs || LastIndex(entries, id) >= 0
    ensures LastIndex(entries, id) >= 0 ==> Merge(sigs, entries)[id] == entries[LastIndex(entries, id)].1
    ensures LastIndex(entries, id) < 0 && id in sigs ==> Merge(sigs, entries)[id] == sigs[id]
    decreases |entries|
  {
    if entries != [] {
      MergeLastWins(sigs, entries[..|entries| - 1], id);
    }
  }

  lemma MergeKeys(sigs: map<string, string>, entries: seq<(string, string)>)
    ensures Merge(sigs, entries).Keys == sigs.Keys + set j | 0 <= j < |entries| :: entries[j].0
  {
    forall id ensures id in Merge(sigs, entries) <==> id in sigs || exists j | 0 <= j < |entries| :: entries[j].0 == id {
      MergeLastWins(sigs, entries, id);
    }
  }

  /** The position of the first signee whose signature fails, or the length when all succeed. */
  function FirstFailure(ss: seq<Signee>, data: string, crypto: Crypto): (j: nat)
    ensures j <= |ss|
    ensures forall i | 0 <= i < j :: SignInternal(data, ss[i].key, crypto).Ok?
    ensures j < |ss| ==> SignInternal(data, ss[j].key, crypto).Err?
  {
    if ss == [] then 0
    else if SignInternal(data, ss[0].key, crypto).Err? then 0
    else 1 + FirstFailure(ss[1..], data, crypto)
  }

  /** The (stream id, signature) pairs of signees that all sign successfully. */
  function Signatures(ss: seq<Signee>, data: string, crypto: Crypto): seq<(string, string)>
    requires forall i | 0 <= i < |ss| :: SignInternal(data, ss[i].key, crypto).Ok?
  {
    seq(|ss|, i requires 0 <= i < |ss| => (ss[i].streamId, SignInternal(data, ss[i].key, crypto).value))
  }

  /** What the signing loop leaves behind: the signature map, and the error that stopped it, if any. */
  datatype SignOutcome = SignOutcome(sigs: map<string, string>, failure: Option<TxBuilderError>)

  /**
   * The signing loop of `build` and `sign`: signees are signed in order and
   * inserted by stream id; the first failure stops the loop, keeping the
   * signatures inserted before it.
   */
  function SignRun(sigs: map<string, string>, ss: seq<Signee>, data: string, crypto: Crypto): SignOutcome
  {
    var j := FirstFailure(ss, data, crypto);
    SignOutcome(Merge(sigs, Signatures(ss[..j], data, crypto)),
                if j < |ss| then Some(SignInternal(data, ss[j].key, crypto).error) else None)
  }

  /** Signing never removes a signature, and an id no signee uses keeps its signature. */
  lemma SignRunMonotone(sigs: map<string, string>, ss: seq<Signee>, data: string, crypto: Crypto, id: string)
    requires id in sigs
    ensures id in SignRun(sigs, ss, data, crypto).sigs
    ensures (forall i | 0 <= i < |ss| :: ss[i].streamId != id) ==> SignRun(sigs, ss, data, crypto).sigs[id] == sigs[id]
  {
    var j := FirstFailure(ss, data, crypto);
    MergeLastWins(sigs, Signatures(ss[..j], data, crypto), id);
  }

  /**
   * When every signee signs, the signee listed last for a stream id is the
   * one whose signature that id ends up with.
   */
  lemma SignRunLastWins(sigs: map<string, string>, ss: seq<Signee>, data: string, crypto: Crypto, i: nat)
    requires i < |ss|
    requires SignRun(sigs, ss, data, crypto).failure.None?
    requires forall j | i < j < |ss| :: ss[j].streamId != ss[i].streamId
    ensures SignInternal(data, ss[i].key, crypto).Ok?
    ensures ss[i].streamId in SignRun(sigs, ss, data, crypto).sigs
    ensures SignRun(sigs, ss, data, crypto).sigs[ss[i].streamId] == SignInternal(data, ss[i].key, crypto).value
  {
    var j := FirstFailure(ss, data, crypto);
    assert ss[..j] == ss;
    var entries := Signatures(ss, data, crypto);
    assert forall t | 0 <= t < |ss| :: entries[t].0 == ss[t].streamId;
    MergeLastWins(sigs, entries, ss[i].streamId);
    assert LastIndex(entries, ss[i].streamId) == i;
  }

  /** A single signee: its signature is inserted under its stream id, or its error stops the run. */
  lemma SignRunSingle(sigs: map<string, string>, s: Signee, data: string, crypto: Crypto)
    ensures SignRun(sigs, [s], data, crypto) ==
      match SignInternal(data, s.key, crypto)
      case Err(e) => SignOutcome(sigs, Some(e))
      case Ok(sig) => SignOutcome(sigs[s.streamId := sig], None)
  {
    var j := FirstFailure([s], data, crypto);
    if j == 1 {
      assert [s][..1] == [s];
      var entries := Signatures([s], data, crypto);
      assert entries == [(s.streamId, SignInternal(data, s.key, crypto).value)];
      assert entries[..0] == [];
      assert Merge(sigs, entries) == sigs[s.streamId := SignInternal(data, s.key, crypto).value];
    } else {
      assert [s][..0] == [];
      assert Signatures([], data, crypto) == [];
    }
  }

  /* ---------------------------------------------------------------------- */
  /* Envelope                                                               */
  /* ---------------------------------------------------------------------- */

  /** `json!(self.sigs)`: the signature map as a JSON object of strings. */
  function SigsJson(sigs: map<string, string>): Json
  {
    JObject(map id | id in sigs :: JString(sigs[id]))
  }

  function Flag(txData: map<string, Json>, name: string, key: string): map<string, Json>
  {
    if name in txData then map[key := txData[name]] else map[]
  }

  /** The envelope `build` assembles. */
  function Envelope(body: Json, sigs: map<string, string>, txData: map<string, Json>): Json
  {
    JObject(map["$tx" := body, "$sigs" := SigsJson(sigs)]
            + Flag(txData, "territoriality", "$territoriality")
            + Flag(txData, "selfsign", "$selfsign"))
  }

  /** `json["$sigs"] = ...` on a cached envelope. */
  function WithSigs(envelope: Json, sigs: map<string, string>): Json
    requires envelope.JObject?
  {
    JObject(envelope.fields["$sigs" := SigsJson(sigs)])
  }

  /** `$tx` and `$sigs` are always present; `$territoriality` and `$selfsign` exactly when set. */
  lemma EnvelopeLayout(body: Json, sigs: map<string, string>, txData: map<string, Json>)
    ensures var m := Envelope(body, sigs, txData).fields;
      && m.Keys == {"$tx", "$sigs"}
                   + (if "territoriality" in txData then {"$territoriality"} else {})
                   + (if "selfsign" in txData then {"$selfsign"} else {})
      && m["$tx"] == body && m["$sigs"] == SigsJson(sigs)
      && ("territoriality" in txData ==> m["$territoriality"] == txData["territoriality"])
      && ("selfsign" in txData ==> m["$selfsign"] == txData["selfsign"])
  {
  }

  /** Re-signing a built envelope gives the envelope a build with the new signature map would give. */
  lemma ResignMatchesBuild(body: Json, before: map<string, string>, after: map<string, string>, txData: map<string, Json>)
    ensures WithSigs(Envelope(body, before, txData), after) == Envelope(body, after, txData)
  {
    var m1 := WithSigs(Envelope(body, before, txData), after).fields;
    var m2 := Envelope(body, after, txData).fields;
    assert m1.Keys == m2.Keys;
  }

  /* ---------------------------------------------------------------------- */
  /* Required fields                                                        */
  /* ---------------------------------------------------------------------- */

  /** The keys the builder's setters use for the `$tx` fields and for the envelope flags. */
  const PacketKeys: set<string> := {"namespace", "contract", "entry", "input", "output", "readonly"}
  const TxKeys: set<string> := {"territoriality", "selfsign"}

  /** The check `build` makes first: contract, then namespace, then input. */
  function MissingField(packetData: map<string, Json>): Option<TxBuilderError>
  {
    if "contract" !in packetData then Some(TxBuildError(5006))
    else if "namespace" !in packetData then Some(TxBuildError(5007))
    else if "input" !in packetData then Some(TxBuildError(5008))
    else None
  }

  lemma MissingFieldExact(packetData: map<string, Json>)
    ensures MissingField(packetData).None? <==> {"contract", "namespace", "input"} <= packetData.Keys
    ensures MissingField(packetData).Some? ==>
      && ("contract" !in packetData <==> MissingField(packetData).value == TxBuildError(5006))
      && ("contract" in packetData && "namespace" !in packetData <==> MissingField(packetData).value == TxBuildError(5007))
  {
  }

  /** The body fields a build takes from the collected packet data. */
  function BodyFieldsOf(packetData: map<string, Json>): BodyFields
    requires MissingField(packetData).None?
  {
    BodyFields(packetData["contract"], packetData["namespace"], packetData["input"],
               Field(packetData, "entry"), Field(packetData, "output"), Field(packetData, "readonly"))
  }

  /**
   * The body assembly of `build`: a body from the three required fields, then
   * every other collected field added, in whatever order the map yields them.
   */
  method AssembleBody(packetData: map<string, Json>) returns (body: TransactionBody)
    requires MissingField(packetData).None? && packetData.Keys <= PacketKeys
    ensures fresh(body)
    ensures body.Fields() == BodyFieldsOf(packetData) && body.json == None
  {
    body := new TransactionBody(packetData["contract"], packetData["namespace"], packetData["input"]);
    var checked := {"contract", "namespace", "input"};
    var rest := packetData.Keys - checked;
    while rest != {}
      invariant rest <= packetData.Keys - checked
      invariant body.contract == packetData["contract"] && body.namespace == packetData["namespace"]
      invariant body.input == packetData["input"] && body.json == None
      invariant body.entry == if "entry" in packetData && "entry" !in rest then Some(packetData["entry"]) else None
      invariant body.output == if "output" in packetData && "output" !in rest then Some(packetData["output"]) else None
      invariant body.readonly == if "readonly" in packetData && "readonly" !in rest then Some(packetData["readonly"]) else None
      modifies body
      decreases rest
    {
      var key :| key in rest;
      body.Add(key, packetData[key]);
      rest := rest - {key};
    }
  }

  /** The envelope assembly of `build`: `$tx`, `$sigs`, then each flag that is set. */
  method AssembleEnvelope(body: Json, sigs: map<string, string>, txData: map<string, Json>) returns (envelope: Json)
    ensures envelope == Envelope(body, sigs, txData)
  {
    var m := map["$tx" := body, "$sigs" := SigsJson(sigs)];
    for i := 0 to 2
      invariant m == map["$tx" := body, "$sigs" := SigsJson(sigs)]
                     + (if i > 0 then Flag(txData, "territoriality", "$territoriality") else map[])
                     + (if i > 1 then Flag(txData, "selfsign", "$selfsign") else map[])
    {
      var name := if i == 0 then "territoriality" else "selfsign";
      assert "$" + name == if i == 0 then "$territoriality" else "$selfsign";
      if name in txData {
        m := m["$" + name := txData[name]];
      }
    }
    envelope := JObject(m);
  }

  /* ---------------------------------------------------------------------- */
  /* The builder                                                            */
  /* ---------------------------------------------------------------------- */

  class TransactionBuilder {
    var packetData: map<string, Json>
    var txData: map<string, Json>
    var packet: TransactionBody?
    var tx: Option<Json>
    var sigs: map<string, string>

    /**
     * Only the setters' keys occur; `$selfsign` is always "true"; a stored
     * body has been built; an envelope is an object and exists only after a body.
     */
    ghost predicate Valid()
      reads this, packet
    {
      && packetData.Keys <= PacketKeys
      && txData.Keys <= TxKeys
      && ("selfsign" in txData ==> txData["selfsign"] == JString("true"))
      && (packet != null ==> packet.json.Some?)
      && (tx.Some? ==> packet != null && tx.value.JObject?)
    }

    /** `new(namespace, contract)`: only those two fields are seeded. */
    constructor New(namespace: string, contract: string)
      ensures Valid()
      ensures packetData == map["namespace" := JString(namespace), "contract" := JString(contract)]
      ensures txData == map[] && packet == null && tx == None && sigs == map[]
    {
      packetData := map["namespace" := JString(namespace), "contract" := JString(contract)];
      txData := map[];
      packet := null;
      tx := None;
      sigs := map[];
    }

    /** `new_blank`: nothing is seeded. */
    constructor NewBlank()
      ensures Valid()
      ensures packetData == map[] && txData == map[] && packet == null && tx == None && sigs == map[]
    {
      packetData := map[];
      txData := map[];
      packet := null;
      tx := None;
      sigs := map[];
    }

    /** `get_json`: the envelope, error 5000 before one exists. */
    function GetJson(): (r: Result<Json>)
      reads this
      ensures r.Ok? <==> tx.Some?
      ensures r.Ok? ==> r.value == tx.value
      ensures r.Err? ==> r.error == TxBuildError(5000)
    {
      match tx
      case Some(j) => Ok(j)
      case None => Err(TxBuildError(5000))
    }

    /** `get`: the serialized envelope; it succeeds exactly when `get_json` does. */
    function Get(ser: Serializer): (r: Result<string>)
      reads this
      ensures r.Ok? <==> GetJson().Ok?
      ensures r.Ok? ==> r.value == ser(GetJson().value)
      ensures r.Err? ==> r.error == GetJson().error
    {
      match tx
      case Some(j) => Ok(ser(j))
      case None => Err(TxBuildError(5000))
    }

    method Territoriality(territoriality: string)
      requires Valid()
      modifies this
      ensures Valid()
      ensures txData == old(txData)["territoriality" := JString(territoriality)]
      ensures packetData == old(packetData) && packet == old(packet) && tx == old(tx) && sigs == old(sigs)
    {
      txData := txData["territoriality" := JString(territoriality)];
    }

    method Entry(entry: string)
      requires Valid()
      modifies this
      ensures Valid()
      ensures packetData == old(packetData)["entry" := JString(entry)]
      ensures txData == old(txData) && packet == old(packet) && tx == old(tx) && sigs == old(sigs)
    {
      packetData := packetData["entry" := JString(entry)];
    }

    method Contract(contract: string)
      requires Valid()
      modifies this
      ensures Valid()
      ensures packetData == old(packetData)["contract" := JString(contract)]
      ensures txData == old(txData) && packet == old(packet) && tx == old(tx) && sigs == old(sigs)
    {
      packetData := packetData["contract" := JString(contract)];
    }

    method Namespace(namespace: string)
      requires Valid()
      modifies this
      ensures Valid()
      ensures packetData == old(packetData)["namespace" := JString(namespace)]
      ensures txData == old(txData) && packet == old(packet) && tx == old(tx) && sigs == old(sigs)
    {
      packetData := packetData["namespace" := JString(namespace)];
    }

    /** Stores a built section's JSON under `key`; an unbuilt section is refused with `code`. */
    method Attach(key: string, section: PacketData, code: u16) returns (r: Outcome)
      requires Valid() && key in {"input", "output", "readonly"}
      modifies this
      ensures Valid()
      ensures section.Get().Err? ==> r == Fail(TxBuildError(code)) && packetData == old(packetData)
      ensures section.Get().Ok? ==> r == Pass && packetData == old(packetData)[key := section.Get().value]
      ensures txData == old(txData) && packet == old(packet) && tx == old(tx) && sigs == old(sigs)
    {
      match section.Get() {
        case Ok(data) =>
          packetData := packetData[key := data];
          r := Pass;
        case Err(_) =>
          r := Fail(TxBuildError(code));
      }
    }

    /** `input`: error 5001 for a section with no JSON, nothing changed. */
    method Input(input: Input) returns (r: Outcome)
      requires Valid()
      modifies this
      ensures Valid()
      ensures input.json.None? ==> r == Fail(TxBuildError(5001)) && packetData == old(packetData)
      ensures input.json.Some? ==> r == Pass && packetData == old(packetData)["input" := input.json.value]
      ensures txData == old(txData) && packet == old(packet) && tx == old(tx) && sigs == old(sigs)
    {
      r := Attach("input", input, 5001);
    }

    /** `output`: error 5002 for a section with no JSON, nothing changed. */
    method Output(output: Output) returns (r: Outcome)
      requires Valid()
      modifies this
      ensures Valid()
      ensures output.json.None? ==> r == Fail(TxBuildError(5002)) && packetData == old(packetData)
      ensures output.json.Some? ==> r == Pass && packetData == old(packetData)["output" := output.json.value]
      ensures txData == old(txData) && packet == old(packet) && tx == old(tx) && sigs == old(sigs)
    {
      r := Attach("output", output, 5002);
    }

    /** `readonly`: error 5003 for a section with no JSON, nothing changed. */
    method Readonly(readonly: Readonly) returns (r: Outcome)
      requires Valid()
      modifies this
      ensures Valid()
      ensures readonly.json.None? ==> r == Fail(TxBuildError(5003)) && packetData == old(packetData)
      ensures readonly.json.Some? ==> r == Pass && packetData == old(packetData)["readonly" := readonly.json.value]
      ensures txData == old(txData) && packet == old(packet) && tx == old(tx) && sigs == old(sigs)
    {
      r := Attach("readonly", readonly, 5003);
    }

    /** `selfsign`: the flag is the string "true". */
    method Selfsign()
      requires Valid()
      modifies this
      ensures Valid()
      ensures txData == old(txData)["selfsign" := JString("true")]
      ensures packetData == old(packetData) && packet == old(packet) && tx == old(tx) && sigs == old(sigs)
    {
      txData := txData["selfsign" := JString("true")];
    }

    /** The signing loop shared by `build` and `sign`. */
    method SignInto(ss: seq<Signee>, data: string, crypto: Crypto) returns (failure: Option<TxBuilderError>)
      modifies this
      ensures sigs == SignRun(old(sigs), ss, data, crypto).sigs
      ensures failure == SignRun(old(sigs), ss, data, crypto).failure
      ensures packetData == old(packetData) && txData == old(txData) && packet == old(packet) && tx == old(tx)
    {
      var i := 0;
      while i < |ss|
        invariant 0 <= i <= |ss|
        invariant forall t | 0 <= t < i :: SignInternal(data, ss[t].key, crypto).Ok?
        invariant sigs == Merge(old(sigs), Signatures(ss[..i], data, crypto))
        invariant packetData == old(packetData) && txData == old(txData) && packet == old(packet) && tx == old(tx)
      {
        match SignInternal(data, ss[i].key, crypto) {
          case Err(e) =>
            failure := Some(e);
            return;
          case Ok(signature) =>
            ghost var before := Signatures(ss[..i], data, crypto);
            ghost var after := Signatures(ss[..i + 1], data, crypto);
            assert after[..i] == before;
            sigs := sigs[ss[i].streamId := signature];
        }
        i := i + 1;
      }
      assert ss[..i] == ss;
      failure := None;
    }

    /**
     * `build`: the required fields are checked with nothing changed on
     * failure; otherwise the body is assembled and stored, every signee signs
     * its serialized text, and on success the envelope is cached and its text
     * returned. A signing failure leaves the envelope alone, but the new body
     * is already stored and earlier signatures are already inserted.
     */
    method Build(signees: Signees, ser: Serializer, crypto: Crypto) returns (r: Result<string>)
      requires Valid()
      modifies this
      ensures Valid()
      ensures packetData == old(packetData) && txData == old(txData)
      ensures MissingField(packetData).Some? ==>
        && r == Err(MissingField(packetData).value)
        && packet == old(packet) && tx == old(tx) && sigs == old(sigs)
      ensures MissingField(packetData).None? ==>
        var body := BodyJson(BodyFieldsOf(packetData));
        var run := SignRun(old(sigs), signees.keys, ser(body), crypto);
        && packet != null && fresh(packet)
        && packet.Fields() == BodyFieldsOf(packetData) && packet.json == Some(body)
        && sigs == run.sigs
        && (run.failure.Some? ==> r == Err(run.failure.value) && tx == old(tx))
        && (run.failure.None? ==> tx == Some(Envelope(body, sigs, txData)) && r == Ok(ser(tx.value)))
    {
      if "contract" !in packetData {
        return Err(TxBuildError(5006));
      }
      if "namespace" !in packetData {
        return Err(TxBuildError(5007));
      }
      if "input" !in packetData {
        return Err(TxBuildError(5008));
      }
      var body := AssembleBody(packetData);
      var builtPacket := body.Build();
      packet := body;
      var signeesArray := signees.Get();
      var failure := SignInto(signeesArray, ser(builtPacket), crypto);
      if failure.Some? {
        return Err(failure.value);
      }
      var envelope := AssembleEnvelope(builtPacket, sigs, txData);
      tx := Some(envelope);
      r := Ok(ser(envelope));
    }

    /**
     * `sign`: signs the stored body as it was built (never a rebuilt one),
     * error 5004 when there is none; then error 5005 when no envelope exists,
     * otherwise only the envelope's `$sigs` is replaced.
     */
    method Sign(signees: Signees, ser: Serializer, crypto: Crypto) returns (r: Outcome)
      requires Valid()
      modifies this
      ensures Valid()
      ensures packetData == old(packetData) && txData == old(txData) && packet == old(packet)
      ensures packet == null ==> r == Fail(TxBuildError(5004)) && sigs == old(sigs) && tx == old(tx)
      ensures packet != null ==>
        var run := SignRun(old(sigs), signees.keys, ser(packet.json.value), crypto);
        && sigs == run.sigs
        && (run.failure.Some? ==> r == Fail(run.failure.value) && tx == old(tx))
        && (run.failure.None? && old(tx).None? ==> r == Fail(TxBuildError(5005)) && tx == None)
        && (run.failure.None? && old(tx).Some? ==> r == Pass && tx == Some(WithSigs(old(tx).value, sigs)))
    {
      var signeesArray := signees.Get();
      if packet == null {
        return Fail(TxBuildError(5004));
      }
      var stored := packet.GetAsWritten();
      match stored {
        case Err(_) =>
          assert false;
        case Ok(body) =>
          var failure := SignInto(signeesArray, ser(body), crypto);
          if failure.Some? {
            return Fail(failure.value);
          }
          match tx {
            case None =>
              return Fail(TxBuildError(5005));
            case Some(json) =>
              tx := Some(WithSigs(json, sigs));
              r := Pass;
          }
      }
    }

    /** `onboard_tx`: a self-signed "onboard" transaction in namespace "default" for the key's public PEM. */
    static method OnboardTx(key: Key, ser: Serializer, crypto: Crypto) returns (r: Result<string>)
      ensures r == OnboardResult(key, ser, crypto)
    {
      var pem := GetPem(key, crypto);
      if pem.Err? {
        return Err(pem.error);
      }
      var input := OnboardInput(key, pem.value);
      var inputBuilder := new PacketBuilder.New(input);
      var built := inputBuilder.Build(ser);
      var section := built.value;
      assert section.json == Some(Convert(input));
      var signees := new Signees();
      signees.AddSelfsign(key);
      var txBuilder := new TransactionBuilder.New("default", "onboard");
      txBuilder.Selfsign();
      var attached := txBuilder.Input(section);
      match attached {
        case Fail(_) =>
          assert false;
        case Pass =>
          ghost var fields := OnboardFields(key, pem.value);
          assert txBuilder.packetData == map["namespace" := JString("default"), "contract" := JString("onboard"),
                                             "input" := Convert(input)];
          assert BodyFieldsOf(txBuilder.packetData) == fields;
          assert txBuilder.txData == map["selfsign" := JString("true")];
          assert signees.keys == [Signee(key.Name(), key)];
          SignRunSingle(map[], Signee(key.Name(), key), ser(BodyJson(fields)), crypto);
          r := txBuilder.Build(signees, ser, crypto);
      }
    }

    /** `generate_onboard_tx`: a new key of the requested type, then its onboarding transaction. */
    static method GenerateOnboardTx(keyType: KeyType, keyName: string, ser: Serializer, crypto: Crypto)
      returns (r: Result<(Key, string)>)
      ensures GeneratedKey(keyType, keyName, crypto).None? ==>
        r == Err(TxGenerateError(if keyType == RSA then 6000 else 6001))
      ensures GeneratedKey(keyType, keyName, crypto).Some? ==>
        var key := GeneratedKey(keyType, keyName, crypto).value;
        r == match OnboardResult(key, ser, crypto)
             case Ok(tx) => Ok((key, tx))
             case Err(e) => Err(e)
    {
      var key: Key;
      match keyType {
        case RSA =>
          match crypto.rsaNew(keyName) {
            case None => return Err(TxGenerateError(6000));
            case Some(k) => key := Rsa(k);
          }
        case EC =>
          match crypto.ecNew(keyName) {
            case None => return Err(TxGenerateError(6001));
            case Some(k) => key := Ec(k);
          }
      }
      var tx := OnboardTx(key, ser, crypto);
      match tx {
        case Ok(t) => r := Ok((key, t));
        case Err(e) => r := Err(e);
      }
    }
  }

  /* ---------------------------------------------------------------------- */
  /* Onboarding                                                             */
  /* ---------------------------------------------------------------------- */

  function KeyLabel(key: Key): string
  {
    match key
    case Rsa(_) => "rsa"
    case Ec(_) => "secp256k1"
  }

  /** `{ <key name>: { "type": <label>, "publicKey": <pem> } }`. */
  function OnboardInput(key: Key, pem: string): PacketValue
  {
    Object(map[key.Name() := Object(map["type" := String(KeyLabel(key)), "publicKey" := String(pem)])])
  }

  function OnboardFields(key: Key, pem: string): BodyFields
  {
    BodyFields(JString("onboard"), JString("default"), Convert(OnboardInput(key, pem)), None, None, None)
  }

  function OnboardEnvelope(key: Key, pem: string, signature: string): Json
  {
    Envelope(BodyJson(OnboardFields(key, pem)), map[key.Name() := signature], map["selfsign" := JString("true")])
  }

  /** What onboarding yields: error 7002 without a PEM, the signing error, or the serialized envelope. */
  function OnboardResult(key: Key, ser: Serializer, crypto: Crypto): Result<string>
  {
    match GetPem(key, crypto)
    case Err(e) => Err(e)
    case Ok(pem) =>
      match SignInternal(ser(BodyJson(OnboardFields(key, pem))), key, crypto)
      case Err(e) => Err(e)
      case Ok(signature) => Ok(ser(OnboardEnvelope(key, pem, signature)))
  }

  function GeneratedKey(keyType: KeyType, keyName: string, crypto: Crypto): Option<Key>
  {
    match keyType
    case RSA => (match crypto.rsaNew(keyName) case Some(k) => Some(Rsa(k)) case None => None)
    case EC => (match crypto.ecNew(keyName) case Some(k) => Some(Ec(k)) case None => None)
  }

  /** The onboarding body: contract "onboard", namespace "default", and an input keyed by the key's name. */
  lemma OnboardBody(key: Key, pem: string)
    ensures var tx := BodyJson(OnboardFields(key, pem));
      && tx.JObject?
      && tx.fields["$contract"] == JString("onboard")
      && tx.fields["$namespace"] == JString("default")
      && tx.fields["$i"] == JObject(map[key.Name() := JObject(map["type" := JString(KeyLabel(key)), "publicKey" := JString(pem)])])
  {
    BodyLayout(OnboardFields(key, pem));
    var inner := Object(map["type" := String(KeyLabel(key)), "publicKey" := String(pem)]);
    assert Convert(inner) == JObject(map["type" := JString(KeyLabel(key)), "publicKey" := JString(pem)]);
    assert Convert(OnboardInput(key, pem)) == JObject(map[key.Name() := Convert(inner)]);
  }

  /**
   * The onboarding envelope: contract "onboard", namespace "default",
   * `$selfsign` "true", an input with the key's name as its only key, and one
   * signature, under that same name.
   */
  lemma OnboardShape(key: Key, pem: string, signature: string)
    ensures var env := OnboardEnvelope(key, pem, signature).fields;
      && env.Keys == {"$tx", "$sigs", "$selfsign"}
      && env["$selfsign"] == JString("true")
      && env["$tx"].JObject?
      && env["$tx"].fields["$contract"] == JString("onboard")
      && env["$tx"].fields["$namespace"] == JString("default")
      && env["$tx"].fields["$i"] == JObject(map[key.Name() := JObject(map["type" := JString(KeyLabel(key)), "publicKey" := JString(pem)])])
      && env["$sigs"] == JObject(map[key.Name() := JString(signature)])
  {
    var body := BodyJson(OnboardFields(key, pem));
    OnboardBody(key, pem);
    EnvelopeLayout(body, map[key.Name() := signature], map["selfsign" := JString("true")]);
    assert SigsJson(map[key.Name() := signature]) == JObject(map[key.Name() := JString(signature)]);
  }
}
