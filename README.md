# Sui test-runner arguments, indexer read API and analytics package store, in Dafny

This project models three pieces of the Sui repository and proves properties
of them.

- **Symbolic arguments of the transactional test runner**
  (`sui-transactional-test-runner/src/args.rs`). The value grammar extends
  the Move command-line grammar with `object(I)`, `object(I,J)`,
  `object(...)@V`, `receiving(...)` and `digest(P)`. There are rules that
  narrow vectors and structs of symbolic values. Resolution turns a symbolic
  value into a transaction input or a programmable-transaction-builder
  argument, using the test adapter's handle table, object store and staged
  packages. Command-line handles (`parse_fake_id`) and upgrade-policy names
  (`parse_policy`) are covered as well.
- **The indexer's read API** (`sui-indexer/src/apis/read_api_v2.rs`). This
  covers the size limit on multi-gets and how an indexed `ObjectRead` becomes
  an object response. It also covers the two "not found" lookups and the
  assembly of a checkpoint page from `limit + 1` fetched checkpoints.
- **The analytics indexer's package store**
  (`sui-analytics-indexer/src/package_store.rs`). This is a local table of
  package objects, written through from a fallback full node on a miss.

Layout:

| file | module | contents |
|---|---|---|
| `results.dfy` | `Results` | `Option`, and `Result` with failure propagation |
| `bytes.dfy` | `Bytes` | bytes, little- and big-endian encodings, reversal (also in place on an array) |
| `args_common.dfy` | `ArgsCommon` | `FakeID`, tokens, the error conditions of the argument code |
| `args_parser.dfy` | `ArgsParser` | the grammar as functions on token sequences, the `Parser` class proved against them, `parse_fake_id`, `parse_policy` |
| `args_values.dfy` | `ArgsValues` | `SuiValue`, `assert_*`, `concrete_vector`, `concrete_struct`, `into_concrete_value` |
| `args_resolver.dfy` | `ArgsResolver` | object resolution, `into_call_arg`, the builder class, `into_argument` |
| `read_api.dfy` | `ReadApi` | the reader as an oracle, and the read API's responses and pages |
| `package_store.dfy` | `PackageStore` | the table and store classes, each proved against an outcome function |

Imperative code is modelled as imperative Dafny:

- The parser is a class whose `tokens` field each `advance` shortens.
- The transaction builder is a class whose `inputs` and `commands` grow.
- `get_checkpoints` truncates its vector.
- The package table is a `map` field of a class that `update` and `get`
  write.
- Address bytes are reversed in place in an array.

Each such method's `ensures` ties its result and new state to a pure
function. The lemmas are proved about those functions.

Some lemmas are proof steps only and have no row below. `RenderSplits`
regroups a token sequence. `ObjectFormOpened` and `ObjectFormOfParts` unfold
the object form into its handle and close. `DivBelowPow` is a division fact
that the byte encoding needs.

A `panic!` in the source, such as a nested object inside a struct, is the
error `Fatal(message)` with the source's message. It is never a coercion, and
it is kept apart from the recoverable errors.

The upgrade-policy constants `COMPATIBLE = 0`, `ADDITIVE = 128` and
`DEP_ONLY = 192` are those of `sui_types::move_package::UpgradePolicy`. That
file is not part of this model.

## Model

| member | source | states |
|---|---|---|
| `Bytes.BigEndian32Encodes` | crates/sui-transactional-test-runner/src/args.rs:224-227 | reversing the 32 little-endian bytes of a 256-bit number gives 32 bytes whose big-endian value is that number |
| `Bytes.BigEndian32Decodes` | crates/sui-transactional-test-runner/src/args.rs:224-227 | every 32-byte address is the big-endian encoding of exactly one 256-bit number, so `object(N)` can name every address |
| `Bytes.ReverseInPlace` | crates/sui-transactional-test-runner/src/args.rs:225 | the buffer afterwards holds the old buffer reversed |
| `Bytes.ReversedTwice` | crates/sui-transactional-test-runner/src/args.rs:225 | reversing twice restores the sequence |
| `Bytes.LeValueOfLeBytes` | crates/sui-transactional-test-runner/src/args.rs:224 | the `w` little-endian bytes of a number below 256^w decode back to it |
| `ArgsParser.Expect` | crates/sui-transactional-test-runner/src/args.rs:210 | `advance(k)` succeeds exactly when the next token has kind `k`, returns that token, and consumes one token in either case |
| `ArgsParser.U256Literal` | crates/sui-transactional-test-runner/src/args.rs:214 | a number is accepted as u256 exactly when it is below 2^256 |
| `ArgsParser.U64Literal` | crates/sui-transactional-test-runner/src/args.rs:218 | a number is accepted as u64 exactly when it is below 2^64 |
| `ArgsParser.ValueForm` | crates/sui-transactional-test-runner/src/args.rs:357-366 | only `object`, `digest` and `receiving` identifiers are claimed, each by its own form; anything else is handed back |
| `ArgsParser.VersionSuffixRoundTrip` | crates/sui-transactional-test-runner/src/args.rs:230-237 | `@V` parses back to `Some(V)`, and nothing (when no `@` follows) to `None` |
| `ArgsParser.VersionSuffixComplete` | crates/sui-transactional-test-runner/src/args.rs:230-237 | a parsed pin consumed exactly its written form |
| `ArgsParser.HandleRoundTrip` | crates/sui-transactional-test-runner/src/args.rs:213-228 | a written `I,J` or `N` handle parses back to the same handle |
| `ArgsParser.HandleComplete` | crates/sui-transactional-test-runner/src/args.rs:213-228 | a parsed handle is well formed and consumed exactly its written form |
| `ArgsParser.CloseRoundTrip` | crates/sui-transactional-test-runner/src/args.rs:229-237 | `)` then an optional pin parses back to that pin |
| `ArgsParser.CloseComplete` | crates/sui-transactional-test-runner/src/args.rs:229-237 | a parsed close consumed exactly `)` and its pin |
| `ArgsParser.ObjectFormRoundTrip` | crates/sui-transactional-test-runner/src/args.rs:206-239 | every well-formed handle and pin, written out, parses back to itself and leaves the following tokens unread |
| `ArgsParser.ObjectFormComplete` | crates/sui-transactional-test-runner/src/args.rs:206-239 | a successful parse consumed exactly the written form of its result |
| `ArgsParser.EnumeratedRequiresU64` | crates/sui-transactional-test-runner/src/args.rs:215-221 | `object(I,J)` with `I` above u64::MAX fails with "Object ID too large" |
| `ArgsParser.KnownIsBigEndian` | crates/sui-transactional-test-runner/src/args.rs:223-227 | `object(N)` names the address whose 32 big-endian bytes encode `N` |
| `ArgsParser.ReceivingSharesObjectGrammar` | crates/sui-transactional-test-runner/src/args.rs:184-193 | `object(...)` and `receiving(...)` parse by the same grammar |
| `ArgsParser.IdentifierMustMatch` | crates/sui-transactional-test-runner/src/args.rs:210-211 | a leading identifier other than the expected one fails the `ensure!` |
| `ArgsParser.DigestRoundTrip` | crates/sui-transactional-test-runner/src/args.rs:195-204 | `digest(P)` parses to package `P` |
| `ArgsParser.DigestComplete` | crates/sui-transactional-test-runner/src/args.rs:195-204 | a parsed digest consumed exactly `digest ( P )` |
| `ArgsParser.Parser.PeekKind` | crates/sui-transactional-test-runner/src/args.rs:215 | the kind of the next token, without consuming it |
| `ArgsParser.Parser.Advance` | crates/sui-transactional-test-runner/src/args.rs:210 | consumes one token; the result and the remaining tokens are those of `Expect` |
| `ArgsParser.Parser.ParseHandle` | crates/sui-transactional-test-runner/src/args.rs:213-228 | the handle and the unread tokens are those of `HandleForm` |
| `ArgsParser.Parser.ParseVersion` | crates/sui-transactional-test-runner/src/args.rs:230-237 | the pin and the unread tokens are those of `VersionSuffix` |
| `ArgsParser.Parser.ParseReceivingOrObjectValue` | crates/sui-transactional-test-runner/src/args.rs:206-239 | the result and the unread tokens are those of the grammar function `ObjectForm` |
| `ArgsParser.Parser.ParseObjectValue` | crates/sui-transactional-test-runner/src/args.rs:181-186 | result and unread tokens as `ObjectValue` |
| `ArgsParser.Parser.ParseReceivingValue` | crates/sui-transactional-test-runner/src/args.rs:188-193 | result and unread tokens as `ReceivingValue` |
| `ArgsParser.Parser.ParseDigestValue` | crates/sui-transactional-test-runner/src/args.rs:195-204 | result and unread tokens as `DigestForm` |
| `ArgsParser.Parser.ParseValue` | crates/sui-transactional-test-runner/src/args.rs:357-366 | declines exactly the streams not starting with a claimed identifier, leaving them unread; otherwise as `ValueForm` |
| `ArgsParser.AddressFromU256` | crates/sui-transactional-test-runner/src/args.rs:224-227 | the 32-byte address whose big-endian value is the number |
| `ArgsParser.FirstComma` | crates/sui-transactional-test-runner/src/args.rs:403 | the position of the first comma, if any |
| `ArgsParser.ParseFakeId` | crates/sui-transactional-test-runner/src/args.rs:402-414 | `I,J` split at the first comma is an enumerated handle when both halves are u64; otherwise a u256 `N` names a known address; each failure is the right number error |
| `ArgsParser.ParsePolicy` | crates/sui-transactional-test-runner/src/args.rs:416-423 | accepts exactly the three policy names; any other name is an invalid-policy error carrying it |
| `ArgsParser.PolicyNamesRoundTrip` | crates/sui-transactional-test-runner/src/args.rs:416-423 | the names and the policy constants correspond one to one |
| `ArgsValues.AssertMoveValue` | crates/sui-transactional-test-runner/src/args.rs:243-251 | succeeds exactly on a plain Move value, which it returns; every other kind is fatal |
| `ArgsValues.AssertObject` | crates/sui-transactional-test-runner/src/args.rs:253-261 | succeeds exactly on an object reference, returning its handle and pin; every other kind is fatal |
| `ArgsValues.FirstNonPlain` | crates/sui-transactional-test-runner/src/args.rs:379 | the first element that is not a plain value |
| `ArgsValues.FirstNonObject` | crates/sui-transactional-test-runner/src/args.rs:375 | the first element that is not an object reference |
| `ArgsValues.CollectMoveValues` | crates/sui-transactional-test-runner/src/args.rs:379 | all plain values in order, or the panic on the first element that is not one |
| `ArgsValues.CollectObjects` | crates/sui-transactional-test-runner/src/args.rs:375 | all object handles in order, or the panic on the first element that is not one |
| `ArgsValues.ConcreteVector` | crates/sui-transactional-test-runner/src/args.rs:372-382 | a vector led by an object is an object vector of every element's handle, and needs every element to be an object; any other vector is a Move vector of plain values |
| `ArgsValues.ConcreteStruct` | crates/sui-transactional-test-runner/src/args.rs:384-388 | a struct succeeds exactly when all fields are plain values, keeping them in order |
| `ArgsValues.MoveValueIntoConcrete` | crates/sui-transactional-test-runner/src/args.rs:368-370 | a plain Move value narrows back to itself |
| `ArgsValues.IntoConcreteValue` | crates/sui-transactional-test-runner/src/args.rs:390-399 | each extra form becomes the symbolic value of the same kind with the same handle, pin or package |
| `ArgsValues.MixedObjectVectorIsFatal` | crates/sui-transactional-test-runner/src/args.rs:373-376 | a vector led by an object that holds anything else panics on the first such element |
| `ArgsValues.StructRejectsObjects` | crates/sui-transactional-test-runner/src/args.rs:384-388 | an object reference inside a struct is fatal |
| `ArgsValues.ObjectVectorRoundTrip` | crates/sui-transactional-test-runner/src/args.rs:372-376 | a vector literal of object references becomes the object vector of their handles, in order |
| `ArgsResolver.ResolveObject` | crates/sui-transactional-test-runner/src/args.rs:263-282 | an unknown handle fails; a pinned handle reads exactly that version, and an unpinned one the latest; a store error or a missing object cannot be loaded |
| `ArgsResolver.ReceivingArg` | crates/sui-transactional-test-runner/src/args.rs:284-291 | a resolved object becomes a receiving input with its exact reference |
| `ArgsResolver.ObjectArgFor` | crates/sui-transactional-test-runner/src/args.rs:293-313 | a shared object becomes a mutable shared input with its initial shared version; any other owner gives an exact-reference input |
| `ArgsResolver.IntoCallArg` | crates/sui-transactional-test-runner/src/args.rs:315-333 | Move values serialize to pure inputs; objects and receiving objects to object inputs; an object vector is refused; a digest needs a staged package |
| `ArgsResolver.FirstUnresolved` | crates/sui-transactional-test-runner/src/args.rs:342-344 | the first handle of an object vector that does not resolve |
| `ArgsResolver.ResolveObjVec` | crates/sui-transactional-test-runner/src/args.rs:342-344 | every handle resolved in order, or the error of the first that does not resolve |
| `ArgsResolver.ObjectInputs` | crates/sui-transactional-test-runner/src/args.rs:341 | one object input per object, in order |
| `ArgsResolver.InputRange` | crates/sui-transactional-test-runner/src/args.rs:341 | consecutive input references |
| `ArgsResolver.ProgrammableTransactionBuilder.AddInput` | crates/sui-transactional-test-runner/src/args.rs:348 | appends one input and returns a reference to its index |
| `ArgsResolver.ProgrammableTransactionBuilder.MakeObjVec` | crates/sui-transactional-test-runner/src/args.rs:341-345 | appends one input per object and one vector command over exactly those inputs, returning that command's result |
| `ArgsResolver.IntoArgument` | crates/sui-transactional-test-runner/src/args.rs:335-351 | an object vector becomes one vector argument; any other value becomes a single input; on failure the builder is unchanged |
| `ArgsResolver.PinnedIgnoresLatest` | crates/sui-transactional-test-runner/src/args.rs:272-273 | a pinned handle does not depend on the latest versions |
| `ArgsResolver.UnpinnedIgnoresHistory` | crates/sui-transactional-test-runner/src/args.rs:274-275 | an unpinned handle does not depend on past versions |
| `ArgsResolver.ObjectArgShapes` | crates/sui-transactional-test-runner/src/args.rs:300-312 | object inputs are never receiving, and shared ones are always mutable |
| `ArgsResolver.ReceivingAgreesWithObject` | crates/sui-transactional-test-runner/src/args.rs:284-313 | receiving and ordinary references resolve together; for unshared objects they carry the same reference |
| `ArgsResolver.ObjVecFailsOnFirstUnresolved` | crates/sui-transactional-test-runner/src/args.rs:342-344 | one unresolvable handle fails the whole vector, with the first such handle's error |
| `ArgsResolver.DigestResolvesIffStaged` | crates/sui-transactional-test-runner/src/args.rs:325-331 | a digest resolves exactly when its package is staged, to the serialized digest |
| `ReadApi.FirstErr` | crates/sui-indexer/src/apis/read_api_v2.rs:160 | the first failed result |
| `ReadApi.CollectAll` | crates/sui-indexer/src/apis/read_api_v2.rs:157-160 | all values in order when every result is `Ok`, otherwise the first error |
| `ReadApi.FetchCheckpoint` | crates/sui-indexer/src/apis/read_api_v2.rs:39-51 | the reader's checkpoint; a reader `None` is an invalid-argument "not found"; reader errors pass through |
| `ReadApi.GetCheckpoint` | crates/sui-indexer/src/apis/read_api_v2.rs:233-235 | the helper's result, with errors converted to RPC errors |
| `ReadApi.GetChainIdentifier` | crates/sui-indexer/src/apis/read_api_v2.rs:59-62 | the digest of checkpoint 0, or the helper's error |
| `ReadApi.GetCheckpoints` | crates/sui-indexer/src/apis/read_api_v2.rs:237-265 | asks for `limit + 1`; the page is the first `min(limit, n)` in order; more pages exactly when more than `limit` came back; the cursor is the last page entry's sequence number, absent exactly when the page is empty |
| `ReadApi.GetObject` | crates/sui-indexer/src/apis/read_api_v2.rs:94-136 | `NotExists` and `Deleted` become error responses carrying the reader's identifiers and no data; `Exists` carries the data, with display fields when asked for, or a display error beside the data |
| `ReadApi.MapIndexer` | crates/sui-indexer/src/apis/read_api_v2.rs:103 | reader errors pass through as RPC errors |
| `ReadApi.MultiGetObjects` | crates/sui-indexer/src/apis/read_api_v2.rs:141-161 | over the limit it fails before any lookup; otherwise one response per identifier in input order, or the first failed lookup's error |
| `ReadApi.MultiGetTransactionBlocks` | crates/sui-indexer/src/apis/read_api_v2.rs:184-203 | over the limit it fails before the reader is queried; otherwise the reader's answer with default options |
| `ReadApi.GetTransactionBlock` | crates/sui-indexer/src/apis/read_api_v2.rs:168-182 | the last response of a one-digest multi-get; an empty answer is an invalid-argument "not found" |
| `ReadApi.ObjectResponseShape` | crates/sui-indexer/src/apis/read_api_v2.rs:105-135 | a response has data exactly when the object exists, and no error exactly when it exists and any requested display rendered |
| `ReadApi.SingleTransactionLookup` | crates/sui-indexer/src/apis/read_api_v2.rs:168-203 | with a limit of at least one, a reader answering one response gives that response |
| `ReadApi.ZeroLimitRefusesSingleLookup` | crates/sui-indexer/src/apis/read_api_v2.rs:168-194 | a limit of zero refuses even a single-digest lookup |
| `PackageStore.IntoResolverError` | crates/sui-analytics-indexer/src/package_store.rs:22-39 | a typed-store error is a resolver `Store` error naming "RocksDB" and carrying the source error |
| `PackageStore.VersionOf` | crates/sui-analytics-indexer/src/package_store.rs:114-117 | the version of the object, or the same error |
| `PackageStore.PackageStoreTables.constructor` | crates/sui-analytics-indexer/src/package_store.rs:47-54 | the opened table holds what the database at the path already holds (nothing when the database is missing), in the database's read and write condition |
| `PackageStore.PackageStoreTables.Get` | crates/sui-analytics-indexer/src/package_store.rs:92-96 | the stored entry, if any, or the read error |
| `PackageStore.PackageStoreTables.Update` | crates/sui-analytics-indexer/src/package_store.rs:55-62 | the outcome and new table of one atomic batch, as `TableUpdate` |
| `PackageStore.LocalDBPackageStore.constructor` | crates/sui-analytics-indexer/src/package_store.rs:74-81 | a store over the given table and fallback client, starting with a table of packages under their own ids |
| `PackageStore.LocalDBPackageStore.Update` | crates/sui-analytics-indexer/src/package_store.rs:83-89 | the outcome and new table as `StoreUpdate`; the table keeps holding only packages under their own ids |
| `PackageStore.LocalDBPackageStore.Get` | crates/sui-analytics-indexer/src/package_store.rs:91-109 | the outcome and new table as `GetOutcome`; the table keeps holding only packages under their own ids |
| `PackageStore.LocalDBPackageStore.Version` | crates/sui-analytics-indexer/src/package_store.rs:114-117 | the version of what `get` returns, leaving the table as `get` does |
| `PackageStore.NonPackageUpdateIsNoop` | crates/sui-analytics-indexer/src/package_store.rs:83-86 | updating with a non-package succeeds and changes nothing |
| `PackageStore.PackageUpdateStores` | crates/sui-analytics-indexer/src/package_store.rs:55-62 | a package is stored under its id, overwriting, with no other key changed; a failed write changes nothing and reports the store error |
| `PackageStore.UpdateKeepsPackagesKeyed` | crates/sui-analytics-indexer/src/package_store.rs:83-89 | the table keeps holding only packages under their own ids |
| `PackageStore.GetKeepsPackagesKeyed` | crates/sui-analytics-indexer/src/package_store.rs:91-109 | so does `get`'s write-back |
| `PackageStore.HitIgnoresFallback` | crates/sui-analytics-indexer/src/package_store.rs:92-98 | a local hit returns the stored object and does not depend on the fallback at all |
| `PackageStore.ReadFaultIsStoreError` | crates/sui-analytics-indexer/src/package_store.rs:92-96 | a failed read is a RocksDB store error and touches nothing |
| `PackageStore.MissWithoutFallback` | crates/sui-analytics-indexer/src/package_store.rs:100-104 | a miss the fallback cannot serve is `PackageNotFound(id)` and leaves the table unchanged |
| `PackageStore.MissWritesBackPackages` | crates/sui-analytics-indexer/src/package_store.rs:84-107 | a served miss returns the fetched object, which the table then holds exactly when it is a package |
| `PackageStore.GetIsIdempotentForPackages` | crates/sui-analytics-indexer/src/package_store.rs:91-109 | after a package fetched for its own id is written back, the next `get` is a hit returning the same object |
| `PackageStore.NonPackageIsFetchedEveryTime` | crates/sui-analytics-indexer/src/package_store.rs:84-106 | a non-package object is never cached |
| `PackageStore.VersionFollowsGet` | crates/sui-analytics-indexer/src/package_store.rs:114-117 | `version` fails exactly when `get` does, and is otherwise the returned object's version |

## Left out

- The `clap` command structures of `args.rs` (lines 22-163) only declare options. `lib.rs`, the test adapter itself and the Move value lexer are not part of this model.
- The lexer and the base value grammar of `MoveCLParser`: tokens arrive already lexed, without whitespace, and a number token carries its value. `advance` is taken to consume the token it checks even when the kind does not match. `peek_tok` does not consume. `parse_fake_id` receives the numeral decoder as a parameter.
- `ArgsResolver.IntoCallArg`: BCS and `simple_serialize` are serializer parameters of the adapter. Their `unwrap` panics are not modelled.
- `ArgsResolver.ProgrammableTransactionBuilder.AddInput`: the builder's deduplication of equal inputs and its u16 index limit are not modelled. The builder only appends.
- `ArgsResolver.ProgrammableTransactionBuilder.MakeObjVec`: the real builder registers each object through its object-input path. That path deduplicates by object id and can fail partway with a mismatched object argument kind. Neither is modelled: every object becomes a new input and the command always succeeds.
- `ArgsResolver.ResolveObject`: the object store is a pair of maps. A store error and a missing object give the same failure, as in the source.
- `ArgsParser.EnumeratedRequiresU64` and the other grammar lemmas cover `parse_u256`/`parse_u64` only as range checks on an already decoded number. Numeral suffixes and hex literals belong to the lexer.
- In `read_api_v2.rs`: the async runtime, `spawn_blocking` and the concurrency of `join_all`. Each await is one synchronous call.
- In `read_api_v2.rs`: `validate_limit`. `ReadApi.GetCheckpoints` takes the limit already validated.
- In `read_api_v2.rs`: display rendering (`get_display_fields`). Its outcome is a reader query.
- In `read_api_v2.rs`: the `try_into` conversion of object data. It is taken to succeed.
- In `read_api_v2.rs`: `get_protocol_config`. It looks up the protocol configuration for a version, which can fail with `ProtocolVersionUnsupported`. That lookup is external to this core.
- In `read_api_v2.rs`: `get_events`, `get_latest_checkpoint` and the two totals built on it. These forward to the reader.
- In `read_api_v2.rs`: the `MethodNotFound` stubs and `get_checkpoints_deprecated_limit`, which forwards.
- `ReadApi.MultiGetObjects`: `QUERY_MAX_RESULT_LIMIT` is configured at start-up, so it is a field of the API value rather than a constant.
- In `package_store.rs`: RocksDB batching becomes a map update that commits whole or not at all. The database's condition is a read fault and a write fault.
- In `package_store.rs`: the REST client becomes a fallback oracle that may fail.
- In `package_store.rs`: `fetch` and `make_package` are external and left out.
- `PackageStore.PackageStoreTables.constructor`: the path and RocksDB's opening of it are not modelled. The contents the database already holds are a parameter.
- `PackageStore.LocalDBPackageStore.constructor`: it takes an already opened table. The table must hold only packages under their own ids, because only this store's own writes fill it.
