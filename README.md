# Activeledger transaction builder, modelled in Dafny

This project models the core of the Activeledger Rust transaction-builder SDK
(`active_tx`). The SDK turns application data into an Activeledger transaction:

- a `PacketValue` tree, or raw JSON, is normalised into `PacketData`;
- the sections are collected into a `$tx` body (`$contract`, `$namespace`,
  `$i`, and optionally `$entry`, `$o`, `$r`);
- the serialized body is signed once per signee;
- the signatures are accumulated by stream id into `$sigs`;
- the result is wrapped in an envelope that may carry `$territoriality` and
  `$selfsign`.

Every failure is a categorised `TxBuilderError` with a 16-bit code and a fixed
message.

Files and modules:

- `errors.dfy` (`Errors`): the error categories, the message tables and the
  `Display` text. The text is proved to round-trip and to be injective within a
  category.
- `json.dfy` (`JsonValue`): the JSON values the builder emits. Serialization to
  text is a parameter `ser: Serializer`.
- `keys.dfy` (`Keys`): the `Key` enum and `KeyType`. The external key crate
  (key generation, signing, PEM export) is a `Crypto` value of functions that
  may fail.
- `packet_value.dfy` (`PacketValues`): the `PacketValue` tree.
- `packet_builder.dfy` (`Packets`):
  - `PacketData` and `PacketBuilder` as classes;
  - the recursive conversions `array_tojson`, `object_tojson` and `to_json`,
    branch by branch, except for which error code an unreachable failure
    reports (see "## Left out");
  - a reference conversion `Convert` with its inverse `Restrict`.
- `body.dfy` (`Body`): `TransactionBody` as a class, and `BodyJson`, the layout
  its `build` emits, with its inverse `ParseBody`.
- `signee.dfy` (`Signing`): `Signees`, the ordered registry of (stream id, key)
  pairs.
- `tx_builder.dfy` (`Transactions`):
  - `TransactionBuilder` as a class with its setters, `build`, `sign` and the
    onboarding helpers;
  - the signing loop specified by `SignRun`, built on `Merge`, an insertion
    where the last write wins;
  - the envelope layout `Envelope`.

Behaviour the model follows from the code:

- A `PacketBuilder` built from a string or array root yields `{}`. It does not
  fail.
- A `build` that fails while signing has already stored the new body and
  inserted the earlier signatures. The cached envelope stays as it was. So a
  later `sign` signs the new body but writes `$sigs` into the old envelope.
- The conversions cannot fail on any `PacketValue`, so errors 2000, 2001 and
  1000 never arise from `PacketBuilder::build` (`Packets.ToJsonTotal`).

## Model

| member | source | states |
|---|---|---|
| Errors.BuildErrorMessage | src/error.rs:90-95 | the message is known exactly for code 1000 |
| Errors.JsonErrorMessage | src/error.rs:97-103 | the message is known exactly for codes 2000 and 2001 |
| Errors.PacketErrorMessage | src/error.rs:105-111 | the message is known exactly for codes 3000 and 3001 |
| Errors.TxBodyErrorMessage | src/error.rs:113-118 | the message is known exactly for code 4000 |
| Errors.TxBuildErrorMessage | src/error.rs:120-133 | the message is known exactly for codes 5000 to 5008 |
| Errors.TxGenerateErrorMessage | src/error.rs:135-141 | the message is known exactly for codes 6000 and 6001 |
| Errors.KeyErrorMessage | src/error.rs:143-150 | the message is known exactly for codes 7000 to 7002 |
| Errors.Message | src/error.rs:45-82 | each category looks up its own table; the result is "Unknown Error" exactly when the code is not listed for that category |
| Errors.MessagesDistinct | src/error.rs:88-150 | within one category, two listed codes have the same message only if the codes are equal |
| Errors.Decimal | src/error.rs:45-82 | the `{}` rendering of a code is a non-empty string of digits with no leading zero |
| Errors.Format | src/error.rs:45-82 | the `write!` text shared by every category: " Error - ", the code in decimal, " : ", the message; `Errors.FormatRoundTrip` proves it determines both |
| Errors.Display | src/error.rs:45-82 | an error displays as `Format` of its code and its own category's message; `Errors.DisplayRoundTrip` and `Errors.DisplayInjective` state what that text determines |
| Errors.DecimalRoundTrip | src/error.rs:45-82 | the decimal rendering reads back as the code |
| Errors.FormatRoundTrip | src/error.rs:45-82 | the text " Error - {code} : {message}" determines the code and the message |
| Errors.DisplayRoundTrip | src/error.rs:45-82 | an error's displayed text parses back to its code and its category's message |
| Errors.DisplayInjective | src/error.rs:34-82 | two errors of one category display the same text if and only if they are equal |
| Packets.ConvertPreservesShape | src/packet_builder/builder.rs:111-170 | converting to JSON keeps strings as strings, keeps array length and order, and keeps object keys |
| Packets.ConvertRoundTrip | src/packet_builder/builder.rs:111-170 | the JSON image of a packet value reads back as the same value |
| Packets.RestrictRoundTrip | src/packet_builder/builder.rs:111-170 | any JSON that reads back as a packet value is exactly that value's image |
| Packets.ConvertInjective | src/packet_builder/builder.rs:111-170 | two packet values have the same JSON if and only if they are equal |
| Packets.ElementToJson | src/packet_builder/builder.rs:116-120 | the per-element match: a string becomes a JSON string, an object goes through `object_tojson`, an array through `array_tojson`, errors unchanged; `Packets.ElementToJsonTotal` proves it never fails |
| Packets.ArrayToJson | src/packet_builder/builder.rs:111-127 | a non-array argument is error 2000; an array converts element by element in order; `Packets.ArrayToJsonTotal` proves it never fails on an array |
| Packets.ItemsToJson | src/packet_builder/builder.rs:115-122 | the element loop from position i: the first failing element's error, or the converted elements in order; `Packets.ItemsToJsonTotal` gives the result |
| Packets.ObjectEntryToJson | src/packet_builder/builder.rs:134-145 | the per-entry match of `object_tojson`: a failing nested object is reported as 2001; `Packets.ObjectEntryToJsonTotal` proves it never fails |
| Packets.ObjectToJson | src/packet_builder/builder.rs:130-151 | every entry converted under its own key, or 2001 when an entry fails; `Packets.ObjectToJsonTotal` proves it never fails |
| Packets.ToJson | src/packet_builder/builder.rs:154-170 | an object root converts entry by entry; any other root gives `{}`; `Packets.ToJsonTotal` proves it never fails |
| Packets.ElementToJsonTotal | src/packet_builder/builder.rs:111-127 | the element match of `array_tojson` succeeds on every value, with its JSON image |
| Packets.ArrayToJsonTotal | src/packet_builder/builder.rs:111-127 | `array_tojson` of an array never fails (no error 2000) and yields the image, in order |
| Packets.ItemsToJsonTotal | src/packet_builder/builder.rs:115-122 | the element loop from position i yields the images of elements i onwards |
| Packets.ObjectEntryToJsonTotal | src/packet_builder/builder.rs:130-151 | an entry of `object_tojson` never fails, including a nested object |
| Packets.ObjectToJsonTotal | src/packet_builder/builder.rs:130-151 | `object_tojson` never fails (no error 2001) and keeps every key, with its image |
| Packets.ToJsonTotal | src/packet_builder/builder.rs:154-170 | `to_json` never fails; an object root gives its image and any other root gives `{}` |
| Packets.PacketData.constructor | src/packet_builder/builder.rs:193-200 | new packet data is entirely empty |
| Packets.PacketData.Add | src/packet_builder/builder.rs:202-206 | stores the value as the data, and nothing else changes |
| Packets.PacketData.AddMap | src/packet_builder/builder.rs:208-212 | stores the map as an object value, and nothing else changes |
| Packets.PacketData.AddJson | src/packet_builder/builder.rs:214-218 | stores the JSON and marks it authoritative, and nothing else changes |
| Packets.PacketData.SetBuilt | src/packet_builder/builder.rs:231-237 | the JSON becomes authoritative and its serialized text is stored beside it |
| Packets.PacketData.GetString | src/packet_builder/builder.rs:175-180 | returns the serialized text, or error 3000 exactly when there is none |
| Packets.PacketData.Get | src/packet_builder/builder.rs:182-188 | returns the JSON, or error 3001 exactly when there is none |
| Packets.PacketData.Clone | src/packet_builder/builder.rs:40-46 | the copy is a new object with equal fields |
| Packets.PacketBuilder.New | src/packet_builder/builder.rs:52-64 | the root value is stored unchanged, not yet converted and not yet built |
| Packets.PacketBuilder.NewJson | src/packet_builder/builder.rs:69-75 | the JSON is stored and marked authoritative, not yet built |
| Packets.PacketBuilder.Build | src/packet_builder/builder.rs:80-99 | always succeeds; JSON input passes through unchanged; a value root gives its converted image (`{}` for a non-object root); the text is the serialized JSON; a copy is returned |
| Packets.BuildTwice | src/packet_builder/builder.rs:80-99 | building twice yields the same JSON and text as building once |
| Packets.ObjectInputExample | src/packet_builder/mod.rs:52-60 | the object with a string array and a nested object builds to its exact JSON image |
| Packets.ExampleTreeImage | src/packet_builder/mod.rs:52-60 | the example packet's JSON image is the object with the string array and the nested object |
| Packets.JsonInputExample | src/packet_builder/mod.rs:62-70 | JSON holding a boolean passes through unchanged |
| Body.BodyJson | src/transaction_builder/body.rs:65-87 | the `$tx` layout: `$contract`, `$namespace`, `$i`, plus `$entry`, `$o`, `$r` for the fields that are set; `Body.BodyLayout` and `Body.BodyRoundTrip` state its content and inverse |
| Body.BodyLayout | src/transaction_builder/body.rs:65-87 | `$contract`, `$namespace` and `$i` always carry their values; `$entry`, `$o` and `$r` appear exactly when set; no other key appears |
| Body.BodyRoundTrip | src/transaction_builder/body.rs:65-87 | the built body determines the fields it was built from |
| Body.ParseBodyRoundTrip | src/transaction_builder/body.rs:65-87 | every object in the body layout is the body of the fields it reads as |
| Body.TransactionBody.constructor | src/transaction_builder/body.rs:41-52 | the required fields are stored verbatim; entry, output, readonly and the cached JSON are absent |
| Body.TransactionBody.Add | src/transaction_builder/body.rs:54-63 | sets exactly the named optional field, overwriting it, and nothing else changes |
| Body.TransactionBody.Build | src/transaction_builder/body.rs:65-87 | returns the body layout of the current fields, caches it, and leaves the fields unchanged |
| Body.TransactionBody.GetAsWritten | src/transaction_builder/body.rs:89-94 | returns the cached body, or `TxBodyError(0)` before any build |
| Body.UnbuiltBodyErrorUnknown | src/transaction_builder/body.rs:92 | code 0 is not in the body-error table, so it displays as " Error - 0 : Unknown Error" |
| Body.TransactionBody.Get | src/transaction_builder/body.rs:89-94 | returns the cached body, or before any build the listed error 4000, "No transaction body" |
| Body.BuildThenGet | src/transaction_builder/body.rs:65-94 | after `build`, `get` returns exactly what `build` returned |
| Signing.Signees.constructor | src/transaction_builder/signee.rs:54-56 | a new registry is empty |
| Signing.Signees.Add | src/transaction_builder/signee.rs:63-72 | appends one (stream id, key) entry at the end |
| Signing.Signees.AddSelfsign | src/transaction_builder/signee.rs:79-93 | appends one entry whose stream id is the key's own name |
| Signing.Signees.Get | src/transaction_builder/signee.rs:99-101 | returns the entries in insertion order, unchanged |
| Signing.AddInOrder | src/transaction_builder/signee.rs:63-72 | entries with the same stream id are all kept, in the order they were added |
| Transactions.SignEc | src/transaction_builder/builder.rs:780-787 | succeeds with the key crate's signature exactly when it signs; otherwise error 7000 |
| Transactions.SignRsa | src/transaction_builder/builder.rs:790-797 | succeeds with the key crate's signature exactly when it signs; otherwise error 7001 |
| Transactions.SignInternal | src/transaction_builder/builder.rs:772-777 | dispatches on the key kind; a failure is 7001 for RSA and 7000 for elliptic curve |
| Transactions.GetPem | src/transaction_builder/builder.rs:800-810 | succeeds exactly when the key crate yields the public PEM for the key kind; otherwise error 7002 |
| Transactions.LastIndex | src/transaction_builder/builder.rs:669-673 | the position of the last entry for a stream id, or -1 when there is none |
| Transactions.Merge | src/transaction_builder/builder.rs:669-673 | the map after inserting (stream id, signature) pairs in order; `Transactions.MergeLastWins` and `Transactions.MergeKeys` state its content |
| Transactions.MergeLastWins | src/transaction_builder/builder.rs:669-673 | inserting signatures in order: an id that occurs gets the signature of its last occurrence; other ids keep theirs; nothing is removed |
| Transactions.MergeKeys | src/transaction_builder/builder.rs:669-673 | the merged map's keys are the old keys plus every inserted stream id |
| Transactions.FirstFailure | src/transaction_builder/builder.rs:669-673 | the first signee that fails to sign: every earlier one signs and that one fails |
| Transactions.SignRun | src/transaction_builder/builder.rs:669-673 | the signing loop as a value: signatures of the signees before the first failure merged in order, and that failure's error if any; `Transactions.TransactionBuilder.SignInto` is proved to compute it |
| Transactions.SignRunMonotone | src/transaction_builder/builder.rs:588-592 | signing never removes a signature, and an id no signee uses keeps its signature |
| Transactions.SignRunLastWins | src/transaction_builder/builder.rs:669-673 | when all signees sign, the last signee listed for a stream id provides that id's signature |
| Transactions.SignRunSingle | src/transaction_builder/builder.rs:669-673 | a single signee either inserts its signature under its stream id or stops the run with its error |
| Transactions.TransactionBuilder.SignInto | src/transaction_builder/builder.rs:669-673 | the signing loop leaves exactly the signature map and the failure `SignRun` specifies |
| Transactions.Envelope | src/transaction_builder/builder.rs:665-683 | the envelope `build` caches: `$tx`, `$sigs`, and each flag that is set under its `$` key; `Transactions.EnvelopeLayout` states its keys and values |
| Transactions.WithSigs | src/transaction_builder/builder.rs:594-603 | a cached envelope with only `$sigs` replaced; `Transactions.ResignMatchesBuild` ties it to `Envelope` |
| Transactions.EnvelopeLayout | src/transaction_builder/builder.rs:665-683 | the envelope always holds `$tx` and `$sigs`; `$territoriality` and `$selfsign` appear exactly when set, with their values |
| Transactions.ResignMatchesBuild | src/transaction_builder/builder.rs:594-603 | replacing `$sigs` in a built envelope gives the envelope a build with the new signatures would give |
| Transactions.MissingField | src/transaction_builder/builder.rs:632-646 | the first missing required field's error: 5006 for contract, then 5007 for namespace, then 5008 for input; `Transactions.MissingFieldExact` states when each arises |
| Transactions.MissingFieldExact | src/transaction_builder/builder.rs:632-646 | nothing is missing exactly when contract, namespace and input are all set; contract is checked first, then namespace |
| Transactions.AssembleBody | src/transaction_builder/builder.rs:648-658 | the body holds the three required fields and every other collected field, whatever the map's order |
| Transactions.AssembleEnvelope | src/transaction_builder/builder.rs:665-683 | the envelope holds `$tx` and `$sigs` and each flag that is set, under its `$` key |
| Transactions.TransactionBuilder.New | src/transaction_builder/builder.rs:271-284 | only namespace and contract are seeded; nothing else is set |
| Transactions.TransactionBuilder.NewBlank | src/transaction_builder/builder.rs:302-310 | nothing is seeded |
| Transactions.TransactionBuilder.GetJson | src/transaction_builder/builder.rs:366-371 | returns the envelope, or error 5000 exactly when none has been built |
| Transactions.TransactionBuilder.Get | src/transaction_builder/builder.rs:336-341 | succeeds exactly when `get_json` does, with the serialized envelope, or with the same error |
| Transactions.TransactionBuilder.Territoriality | src/transaction_builder/builder.rs:387-394 | sets the territoriality flag, and nothing else changes |
| Transactions.TransactionBuilder.Entry | src/transaction_builder/builder.rs:410-415 | sets the entry field, and nothing else changes |
| Transactions.TransactionBuilder.Contract | src/transaction_builder/builder.rs:431-436 | sets the contract field, and nothing else changes |
| Transactions.TransactionBuilder.Namespace | src/transaction_builder/builder.rs:452-457 | sets the namespace field, and nothing else changes |
| Transactions.TransactionBuilder.Attach | src/transaction_builder/builder.rs:473-526 | the body shared by `input`, `output` and `readonly`: stores a built section's JSON under its key, or fails with the caller's code and changes nothing |
| Transactions.TransactionBuilder.Input | src/transaction_builder/builder.rs:473-480 | stores the section's JSON as input, or fails with 5001 and changes nothing |
| Transactions.TransactionBuilder.Output | src/transaction_builder/builder.rs:496-503 | stores the section's JSON as output, or fails with 5002 and changes nothing |
| Transactions.TransactionBuilder.Readonly | src/transaction_builder/builder.rs:519-526 | stores the section's JSON as readonly, or fails with 5003 and changes nothing |
| Transactions.TransactionBuilder.Selfsign | src/transaction_builder/builder.rs:543-548 | sets the selfsign flag to the string "true", and nothing else changes |
| Transactions.TransactionBuilder.Build | src/transaction_builder/builder.rs:629-688 | a missing field gives 5006, 5007 or 5008 and changes nothing; otherwise the body is stored and every signee signs its text; a signing error is returned with the envelope untouched; on success the envelope is cached and its text returned |
| Transactions.TransactionBuilder.Sign | src/transaction_builder/builder.rs:579-606 | 5004 without a stored body; signs the stored body's text; a signing error leaves the envelope untouched; 5005 when no envelope exists; otherwise only `$sigs` is replaced |
| Transactions.TransactionBuilder.OnboardTx | src/transaction_builder/builder.rs:702-728 | yields error 7002 without a PEM, the signing error, or the serialized self-signed onboarding envelope |
| Transactions.TransactionBuilder.GenerateOnboardTx | src/transaction_builder/builder.rs:740-766 | key generation failures are 6000 for RSA and 6001 for elliptic curve; otherwise the new key and its onboarding result |
| Transactions.OnboardResult | src/transaction_builder/builder.rs:702-728 | what onboarding yields: error 7002 without a PEM, the signing error, or the serialized self-signed envelope; `Transactions.TransactionBuilder.OnboardTx` is proved to compute it |
| Transactions.GeneratedKey | src/transaction_builder/builder.rs:740-766 | the key the requested type's generator yields for the name, if any; `Transactions.TransactionBuilder.GenerateOnboardTx` maps its absence to 6000 or 6001 |
| Transactions.OnboardBody | src/transaction_builder/builder.rs:702-728 | the onboarding body has contract "onboard", namespace "default", and an input keyed by the key's name holding its type label and PEM |
| Transactions.OnboardShape | src/transaction_builder/builder.rs:702-728 | the onboarding envelope has contract "onboard", namespace "default", `$selfsign` "true", an input keyed by the key's name holding its type and PEM, and one signature under that name |

## Left out

- JSON text: serde's `to_string` is the parameter `ser`. Key order, escaping and number formatting are not modelled. JSON numbers are integers only.
- Cryptography: key generation, signing and PEM export come from the `activeledger` crate. They are the `Crypto` parameter. Signatures and PEMs are opaque strings.
- Packets.ObjectToJson: when an entry fails, the source reports whichever failure hash-map iteration reaches first. The model always reports 2001. No entry can fail (`Packets.ObjectToJsonTotal`), so this choice never shows.
- Packets.ToJson: when an entry of an object root fails, the source passes on that entry's own error unchanged, which could be 2000. The model reports 2001 for any failing entry. No entry can fail (`Packets.ToJsonTotal`), so this choice never shows.
- Hash-map iteration order: the body-assembly loop picks the remaining keys in an unspecified order. `Transactions.AssembleBody` is proved for every order.
- Method chaining: the `&mut Self` returns are modelled as state changes plus an `Outcome`.
- Clones of `TransactionBody` in `build` and `sign`: the model reads the stored object directly. The object is never changed after it is built, so the values agree.
- `PacketBuilder::from_string` (src/packet_builder/builder.rs:103-105) only wraps a string. It is the `PacketValues.String` constructor.
- `PacketData::is_json` and `PacketData::get_map` are private accessors. The model reads the fields directly.
- The `packet_data!` and `signees!` macros (src/macros.rs), src/lib.rs and src/transaction_builder/mod.rs are not part of this model. The examples build the same values directly.

## Findings

| source | as written | input that shows it | evidently intended | confidence | as-written member | corrected member |
|---|---|---|---|---|---|---|
| src/transaction_builder/body.rs:92 | `get` on a body that was never built returns `TxBodyError(000)` | a `TransactionBody` whose `build` was never called; the defect is latent, because `TransactionBody` is private to the crate (src/transaction_builder/mod.rs:55) and its one caller, `sign`, always holds a built body (src/transaction_builder/builder.rs:582-583, 662-663) | `TxBodyError(4000)`, the one code the body-error table lists, displayed as "No transaction body" instead of "Unknown Error" | medium, not executed | Body.UnbuiltBodyErrorUnknown | Body.TransactionBody.Get |
