/** The indexer's read API (crates/sui-indexer/src/apis/read_api_v2.rs): size
    limits on multi-gets, the mapping of an indexed `ObjectRead` to an RPC
    object response, the "pop or not found" lookups, and the assembly of a
    checkpoint page.

    The `IndexerReader` is an oracle: each of its queries is a function from
    the request to an outcome.  Every `await` is a synchronous call. */
module ReadApi {
  import opened Results
  import opened Bytes

  type TransactionDigest = seq<Byte>

  /** `(ObjectID, SequenceNumber, ObjectDigest)`. */
  type ObjectRef = (ObjectID, nat, Digest)

  /** An indexed object and its Move layout, opaque to this core. */
  datatype IndexedObject = IndexedObject(contents: seq<Byte>)
  datatype StructLayout = StructLayout(fields: seq<string>)

  datatype ObjectRead =
    | NotExists(id: ObjectID)
    | Exists(objRef: ObjectRef, obj: IndexedObject, layout: Option<StructLayout>)
    | Deleted(deleted: ObjectRef)

  /** `SuiObjectDataOptions`; only `show_display` changes what this core
      does.  `unwrap_or_default()` turns it off. */
  datatype DataOptions = DataOptions(showDisplay: bool, showContent: bool, showOwner: bool)

  const DEFAULT_OPTIONS := DataOptions(false, false, false)

  function OptionsOrDefault(options: Option<DataOptions>): DataOptions
  {
    if options.Some? then options.value else DEFAULT_OPTIONS
  }

  /** `DisplayFieldsResponse`. */
  datatype DisplayFields = DisplayFields(data: Option<map<string, string>>, error: Option<string>)

  datatype ObjectData = ObjectData(
    objRef: ObjectRef, obj: IndexedObject, layout: Option<StructLayout>,
    options: DataOptions, display: Option<DisplayFields>)

  datatype IndexerError =
    | CheckpointNotFound(id: CheckpointId)
    | TransactionNotFound(digest: TransactionDigest)
    | ReaderFailure(cause: string)

  /** The two "not found" errors are `IndexerError::InvalidArgumentError`. */
  predicate IsInvalidArgument(e: IndexerError)
  {
    e.CheckpointNotFound? || e.TransactionNotFound?
  }

  datatype ObjectResponseError =
    | NotExistsError(objectId: ObjectID)
    | DeletedError(objectId: ObjectID, version: nat, digest: Digest)
    | DisplayError(cause: IndexerError)

  /** `SuiObjectResponse`. */
  datatype ObjectResponse = ObjectResponse(data: Option<ObjectData>, error: Option<ObjectResponseError>)

  datatype CheckpointId = SequenceNumber(n: nat) | ByDigest(digest: Digest)

  datatype Checkpoint = Checkpoint(sequenceNumber: nat, digest: Digest, networkTotalTransactions: nat)

  datatype CheckpointPage = CheckpointPage(data: seq<Checkpoint>, nextCursor: Option<nat>, hasNextPage: bool)

  /** `SuiTransactionBlockResponse` and its options, opaque to this core. */
  datatype TransactionResponse = TransactionResponse(digest: TransactionDigest, raw: seq<Byte>)
  datatype TransactionOptions = TransactionOptions(showInput: bool, showEffects: bool, showEvents: bool)

  const DEFAULT_TRANSACTION_OPTIONS := TransactionOptions(false, false, false)

  /** The RPC errors this core raises itself, and reader errors passed on. */
  datatype RpcError = SizeLimitExceeded(limit: nat) | Indexer(error: IndexerError)

  /** `IndexerReader`, as the answers it gives.  `displayFields` is the
      outcome of `get_display_fields` for an object and its layout. */
  datatype IndexerReader = IndexerReader(
    objectRead: ObjectID -> Result<ObjectRead, IndexerError>,
    transactionBlocks: (seq<TransactionDigest>, TransactionOptions) -> Result<seq<TransactionResponse>, IndexerError>,
    checkpoint: CheckpointId -> Result<Option<Checkpoint>, IndexerError>,
    checkpoints: (Option<nat>, nat, bool) -> Result<seq<Checkpoint>, IndexerError>,
    displayFields: (IndexedObject, Option<StructLayout>) -> Result<DisplayFields, IndexerError>)

  /** `ReadApiV2`; `queryMaxResultLimit` is the configured
      `QUERY_MAX_RESULT_LIMIT`. */
  datatype ReadApiV2 = ReadApiV2(inner: IndexerReader, queryMaxResultLimit: nat)

  // ---------------------------------------------------------------------
  // Collecting a sequence of results in order

  /** The index of the first error (|rs| when there is none). */
  function FirstErr<T, E>(rs: seq<Result<T, E>>): (k: nat)
    ensures k <= |rs| && (k < |rs| ==> rs[k].Err?)
    ensures forall m :: 0 <= m < k ==> rs[m].Ok?
  {
    if rs == [] || rs[0].Err? then 0 else 1 + FirstErr(rs[1..])
  }

  /** `collect::<Result<Vec<_>, _>>()`: all the values in order, or the first
      error. */
  function CollectAll<T, E>(rs: seq<Result<T, E>>): (r: Result<seq<T>, E>)
    ensures r.Ok? <==> forall k :: 0 <= k < |rs| ==> rs[k].Ok?
    ensures r.Ok? ==> |r.value| == |rs| && forall k :: 0 <= k < |rs| ==> r.value[k] == rs[k].value
    ensures r.Err? ==> FirstErr(rs) < |rs| && r.error == rs[FirstErr(rs)].error
  {
    if rs == [] then Ok([])
    else if rs[0].Err? then Err(rs[0].error)
    else match CollectAll(rs[1..])
      case Err(e) => Err(e)
      case Ok(vs) => Ok([rs[0].value] + vs)
  }

  // ---------------------------------------------------------------------
  // Checkpoints

  /** The checkpoint helper `ReadApiV2::get_checkpoint`: a reader `None` is
      an invalid-argument "not found" error. */
  function FetchCheckpoint(api: ReadApiV2, id: CheckpointId): (r: Result<Checkpoint, IndexerError>)
    ensures var read := api.inner.checkpoint(id);
      && (r.Ok? <==> read.Ok? && read.value.Some?)
      && (r.Ok? ==> r.value == read.value.value)
      && (read.Ok? && read.value.None? ==> r == Err(CheckpointNotFound(id)))
      && (read.Err? ==> r == Err(read.error))
  {
    match api.inner.checkpoint(id)
    case Ok(Some(c)) => Ok(c)
    case Ok(None) => Err(CheckpointNotFound(id))
    case Err(e) => Err(e)
  }

  /** The RPC `get_checkpoint`. */
  function GetCheckpoint(api: ReadApiV2, id: CheckpointId): (r: Result<Checkpoint, RpcError>)
    ensures r.Ok? <==> FetchCheckpoint(api, id).Ok?
    ensures r.Ok? ==> r.value == FetchCheckpoint(api, id).value
    ensures r.Err? ==> r.error == Indexer(FetchCheckpoint(api, id).error)
  {
    match FetchCheckpoint(api, id)
    case Ok(c) => Ok(c)
    case Err(e) => Err(Indexer(e))
  }

  /** `get_chain_identifier`: the digest of the genesis checkpoint. */
  function GetChainIdentifier(api: ReadApiV2): (r: Result<Digest, RpcError>)
    ensures var g := FetchCheckpoint(api, SequenceNumber(0));
      (r.Ok? <==> g.Ok?) && (r.Ok? ==> r.value == g.value.digest) && (r.Err? ==> r.error == Indexer(g.error))
  {
    var genesis :- MapIndexer(FetchCheckpoint(api, SequenceNumber(0)));
    Ok(genesis.digest)
  }

  function Min(a: nat, b: nat): nat
  {
    if a <= b then a else b
  }

  /** `get_checkpoints`: asks the reader for one checkpoint more than the
      (already validated) limit, keeps the first `limit`, and reports whether
      there was more. */
  method GetCheckpoints(api: ReadApiV2, cursor: Option<nat>, limit: nat, descendingOrder: bool)
    returns (r: Result<CheckpointPage, RpcError>)
    ensures var fetched := api.inner.checkpoints(cursor, limit + 1, descendingOrder);
      && (r.Ok? <==> fetched.Ok?)
      && (r.Err? ==> r.error == Indexer(fetched.error))
      && (r.Ok? ==>
            var cs := fetched.value;
            var page := r.value;
            && |page.data| == Min(limit, |cs|)
            && (forall k :: 0 <= k < |page.data| ==> page.data[k] == cs[k])
            && (page.hasNextPage <==> |cs| > limit)
            && (page.nextCursor.None? <==> page.data == [])
            && (page.nextCursor.Some? ==> page.nextCursor.value == page.data[|page.data| - 1].sequenceNumber))
    ensures r.Ok? ==> |r.value.data| <= limit
    ensures r.Ok? && r.value.hasNextPage ==> |r.value.data| == limit
  {
    var fetched := api.inner.checkpoints(cursor, limit + 1, descendingOrder);
    if fetched.Err? {
      return Err(Indexer(fetched.error));
    }
    var checkpoints := fetched.value;
    var hasNextPage := |checkpoints| > limit;
    if |checkpoints| > limit {
      checkpoints := checkpoints[..limit];
    }
    var nextCursor := if checkpoints == [] then None
                      else Some(checkpoints[|checkpoints| - 1].sequenceNumber);
    r := Ok(CheckpointPage(checkpoints, nextCursor, hasNextPage));
  }

  // ---------------------------------------------------------------------
  // Objects

  /** `get_object`: an `ObjectRead` becomes a response.  A missing or deleted
      object is an error response carrying the reader's identifiers and no
      data; an existing one carries its data, with display fields when they
      are asked for and can be rendered. */
  function GetObject(api: ReadApiV2, objectId: ObjectID, options: Option<DataOptions>)
    : (r: Result<ObjectResponse, RpcError>)
    ensures var read := api.inner.objectRead(objectId);
      && (read.Err? ==> r == Err(Indexer(read.error)))
      && (read.Ok? ==> r.Ok?)
      && (read.Ok? && read.value.NotExists? ==>
            r.value == ObjectResponse(None, Some(NotExistsError(read.value.id))))
      && (read.Ok? && read.value.Deleted? ==>
            var (id, version, digest) := read.value.deleted;
            r.value == ObjectResponse(None, Some(DeletedError(id, version, digest))))
      && (read.Ok? && read.value.Exists? ==>
            var opts := OptionsOrDefault(options);
            var Exists(objRef, o, layout) := read.value;
            && r.value.data.Some?
            && r.value.data.value.objRef == objRef && r.value.data.value.obj == o
            && r.value.data.value.layout == layout && r.value.data.value.options == opts
            && (!opts.showDisplay ==> r.value.data.value.display == None && r.value.error == None)
            && (opts.showDisplay ==>
                  var shown := api.inner.displayFields(o, layout);
                  && (shown.Ok? ==> r.value.data.value.display == Some(shown.value) && r.value.error == None)
                  && (shown.Err? ==> r.value.data.value.display == None
                                     && r.value.error == Some(DisplayError(shown.error)))))
  {
    var opts := OptionsOrDefault(options);
    var objectRead :- MapIndexer(api.inner.objectRead(objectId));
    match objectRead
    case NotExists(id) => Ok(ObjectResponse(None, Some(NotExistsError(id))))
    case Exists(objRef, o, layout) =>
      if opts.showDisplay then
        match api.inner.displayFields(o, layout)
        case Ok(rendered) => Ok(ObjectResponse(Some(ObjectData(objRef, o, layout, opts, Some(rendered))), None))
        case Err(e) => Ok(ObjectResponse(Some(ObjectData(objRef, o, layout, opts, None)), Some(DisplayError(e))))
      else
        Ok(ObjectResponse(Some(ObjectData(objRef, o, layout, opts, None)), None))
    case Deleted((id, version, digest)) => Ok(ObjectResponse(None, Some(DeletedError(id, version, digest))))
  }

  /** A reader error, passed on as an RPC error. */
  function MapIndexer<T>(x: Result<T, IndexerError>): (r: Result<T, RpcError>)
    ensures r.Ok? <==> x.Ok?
    ensures r.Ok? ==> r.value == x.value
    ensures r.Err? ==> r.error == Indexer(x.error)
  {
    match x
    case Ok(v) => Ok(v)
    case Err(e) => Err(Indexer(e))
  }

  /** `multi_get_objects`: refuses more than the configured limit before any
      lookup; otherwise one response per identifier, in order, or the first
      failed lookup's error. */
  method MultiGetObjects(api: ReadApiV2, objectIds: seq<ObjectID>, options: Option<DataOptions>)
    returns (r: Result<seq<ObjectResponse>, RpcError>)
    ensures |objectIds| > api.queryMaxResultLimit ==> r == Err(SizeLimitExceeded(api.queryMaxResultLimit))
    ensures |objectIds| <= api.queryMaxResultLimit ==>
      (r.Ok? <==> forall k :: 0 <= k < |objectIds| ==> GetObject(api, objectIds[k], options).Ok?)
    ensures r.Ok? ==>
      && |r.value| == |objectIds|
      && forall k :: 0 <= k < |objectIds| ==> r.value[k] == GetObject(api, objectIds[k], options).value
    ensures |objectIds| <= api.queryMaxResultLimit && r.Err? ==>
      exists k :: 0 <= k < |objectIds| && GetObject(api, objectIds[k], options) == Err(r.error)
                  && forall m :: 0 <= m < k ==> GetObject(api, objectIds[m], options).Ok?
  {
    if |objectIds| > api.queryMaxResultLimit {
      return Err(SizeLimitExceeded(api.queryMaxResultLimit));
    }
    var futures: seq<Result<ObjectResponse, RpcError>> := [];
    var i := 0;
    while i < |objectIds|
      invariant 0 <= i <= |objectIds|
      invariant |futures| == i
      invariant forall k :: 0 <= k < i ==> futures[k] == GetObject(api, objectIds[k], options)
    {
      futures := futures + [GetObject(api, objectIds[i], options)];
      i := i + 1;
    }
    r := CollectAll(futures);
    if r.Err? {
      var k := FirstErr(futures);
      assert GetObject(api, objectIds[k], options) == Err(r.error);
    }
  }

  // ---------------------------------------------------------------------
  // Transaction blocks

  /** `multi_get_transaction_blocks`: refuses more than the configured limit
      before querying the reader, and otherwise returns what it answers. */
  function MultiGetTransactionBlocks(api: ReadApiV2, digests: seq<TransactionDigest>, options: Option<TransactionOptions>)
    : (r: Result<seq<TransactionResponse>, RpcError>)
    ensures |digests| > api.queryMaxResultLimit ==> r == Err(SizeLimitExceeded(api.queryMaxResultLimit))
    ensures |digests| <= api.queryMaxResultLimit ==>
      var opts := if options.Some? then options.value else DEFAULT_TRANSACTION_OPTIONS;
      r == MapIndexer(api.inner.transactionBlocks(digests, opts))
  {
    if |digests| > api.queryMaxResultLimit then Err(SizeLimitExceeded(api.queryMaxResultLimit))
    else
      var opts := if options.Some? then options.value else DEFAULT_TRANSACTION_OPTIONS;
      MapIndexer(api.inner.transactionBlocks(digests, opts))
  }

  /** `get_transaction_block`: the last response of a one-digest multi-get,
      or an invalid-argument "not found" when there is none. */
  function GetTransactionBlock(api: ReadApiV2, digest: TransactionDigest, options: Option<TransactionOptions>)
    : (r: Result<TransactionResponse, RpcError>)
    ensures var m := MultiGetTransactionBlocks(api, [digest], options);
      && (m.Err? ==> r == Err(m.error))
      && (m.Ok? && m.value == [] ==> r == Err(Indexer(TransactionNotFound(digest))))
      && (m.Ok? && m.value != [] ==> r == Ok(m.value[|m.value| - 1]))
  {
    var txns :- MultiGetTransactionBlocks(api, [digest], options);
    if txns == [] then Err(Indexer(TransactionNotFound(digest)))
    else Ok(txns[|txns| - 1])
  }

  // ---------------------------------------------------------------------
  // Properties

  /** A response carries data exactly when the object exists, and an error
      exactly when it does not or its display could not be rendered. */
  lemma ObjectResponseShape(api: ReadApiV2, objectId: ObjectID, options: Option<DataOptions>)
    requires GetObject(api, objectId, options).Ok?
    ensures var resp := GetObject(api, objectId, options).value;
      var read := api.inner.objectRead(objectId).value;
      && (resp.data.Some? <==> read.Exists?)
      && (resp.error.None? <==>
            read.Exists? && (OptionsOrDefault(options).showDisplay ==> api.inner.displayFields(read.obj, read.layout).Ok?))
  {
  }

  /** A reader that answers one response per digest makes
      `get_transaction_block` return that response, provided the limit allows
      a single digest. */
  lemma SingleTransactionLookup(api: ReadApiV2, digest: TransactionDigest, options: Option<TransactionOptions>, t: TransactionResponse)
    requires api.queryMaxResultLimit >= 1
    requires var opts := if options.Some? then options.value else DEFAULT_TRANSACTION_OPTIONS;
      api.inner.transactionBlocks([digest], opts) == Ok([t])
    ensures GetTransactionBlock(api, digest, options) == Ok(t)
  {
  }

  /** With a limit configured at zero, even a single lookup is refused. */
  lemma ZeroLimitRefusesSingleLookup(api: ReadApiV2, digest: TransactionDigest, options: Option<TransactionOptions>)
    requires api.queryMaxResultLimit == 0
    ensures GetTransactionBlock(api, digest, options) == Err(SizeLimitExceeded(0))
  {
  }
}
