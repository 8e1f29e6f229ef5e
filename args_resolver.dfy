/** Resolution of symbolic values against the test adapter's state: the
    handle table (`fake_to_real_object_id`), the object store of the executor
    (latest or pinned version), and the table of staged packages.  The result
    is a transaction input (`CallArg`) or a programmable-transaction-builder
    argument (`Argument`). */
module ArgsResolver {
  import opened Results
  import opened Bytes
  import opened ArgsCommon
  import opened ArgsValues

  /** `ObjectRef`: identity, version and content digest. */
  type ObjectRef = (ObjectID, U64, Digest)

  datatype Owner =
    | AddressOwner(address: ObjectID)
    | ObjectOwner(parent: ObjectID)
    | Shared(initialSharedVersion: U64)
    | Immutable

  /** What this core reads of an on-chain object.  `digest` is the content
      digest `compute_object_reference` derives from the object. */
  datatype SuiObject = SuiObject(id: ObjectID, version: U64, digest: Digest, owner: Owner)

  function ComputeObjectReference(o: SuiObject): ObjectRef
  {
    (o.id, o.version, o.digest)
  }

  datatype ObjectArg =
    | ImmOrOwnedObject(objRef: ObjectRef)
    | SharedObject(id: ObjectID, initialSharedVersion: U64, mutable: bool)
    | ReceivingObject(objRef: ObjectRef)

  datatype CallArg = Pure(bytes: seq<Byte>) | ObjectInput(arg: ObjectArg)

  /** The outcome of an object-store read that returned something: an error,
      or an object.  A key absent from the store's maps reads as `Ok(None)`. */
  datatype Lookup = StoreError | Found(obj: SuiObject)

  /** The parts of `SuiTestAdapter` resolution reads, and the serializers it
      calls (`simple_serialize` for Move values, BCS for digests). */
  datatype TestAdapter = TestAdapter(
    fakeToReal: map<FakeID, ObjectID>,
    latest: map<ObjectID, Lookup>,
    byKey: map<(ObjectID, U64), Lookup>,
    staged: map<string, Digest>,
    serializeValue: MoveValue -> seq<Byte>,
    serializeDigest: Digest -> seq<Byte>)

  /** `resolve_object`: a pinned handle reads exactly that version, an
      unpinned one the latest; a store error or a missing object fails. */
  function ResolveObject(fid: FakeID, version: Option<U64>, a: TestAdapter): (r: Result<SuiObject, Error>)
    ensures fid !in a.fakeToReal ==> r == Err(UnknownObject(fid))
    ensures fid in a.fakeToReal && version.Some? ==>
      var key := (a.fakeToReal[fid], version.value);
      && (r.Ok? <==> key in a.byKey && a.byKey[key].Found?)
      && (r.Ok? ==> r.value == a.byKey[key].obj)
    ensures fid in a.fakeToReal && version.None? ==>
      var id := a.fakeToReal[fid];
      && (r.Ok? <==> id in a.latest && a.latest[id].Found?)
      && (r.Ok? ==> r.value == a.latest[id].obj)
    ensures fid in a.fakeToReal && r.Err? ==> r.error == CouldNotLoadObject(a.fakeToReal[fid])
  {
    if fid !in a.fakeToReal then Err(UnknownObject(fid))
    else
      var id := a.fakeToReal[fid];
      var read: Option<Lookup> := if version.Some? then
                    (if (id, version.value) in a.byKey then Some(a.byKey[(id, version.value)]) else None)
                  else
                    (if id in a.latest then Some(a.latest[id]) else None);
      match read
      case Some(Found(obj)) => Ok(obj)
      case _ => Err(CouldNotLoadObject(id))
  }

  /** `receiving_arg`: always a receiving input, whatever the owner. */
  function ReceivingArg(fid: FakeID, version: Option<U64>, a: TestAdapter): (r: Result<ObjectArg, Error>)
    ensures var o := ResolveObject(fid, version, a);
      && (r.Ok? <==> o.Ok?)
      && (r.Ok? ==> r.value == ReceivingObject(ComputeObjectReference(o.value)))
      && (r.Err? ==> r.error == o.error)
  {
    var obj :- ResolveObject(fid, version, a);
    Ok(ReceivingObject(ComputeObjectReference(obj)))
  }

  /** `object_arg`: a shared object becomes a mutable shared input, any other
      object an input pinned to its exact reference. */
  function ObjectArgFor(fid: FakeID, version: Option<U64>, a: TestAdapter): (r: Result<ObjectArg, Error>)
    ensures var o := ResolveObject(fid, version, a);
      && (r.Ok? <==> o.Ok?)
      && (r.Ok? && o.value.owner.Shared? ==>
            r.value == SharedObject(o.value.id, o.value.owner.initialSharedVersion, true))
      && (r.Ok? && !o.value.owner.Shared? ==>
            r.value == ImmOrOwnedObject(ComputeObjectReference(o.value)))
      && (r.Err? ==> r.error == o.error)
  {
    var obj :- ResolveObject(fid, version, a);
    match obj.owner
    case Shared(isv) => Ok(SharedObject(obj.id, isv, true))
    case _ => Ok(ImmOrOwnedObject(ComputeObjectReference(obj)))
  }

  /** `into_call_arg`. */
  function IntoCallArg(v: SuiValue, a: TestAdapter): (r: Result<CallArg, Error>)
    ensures v.MoveVal? ==> r == Ok(Pure(a.serializeValue(v.value)))
    ensures v.ObjectVal? ==>
      var o := ObjectArgFor(v.id, v.version, a);
      (r.Ok? <==> o.Ok?) && (r.Ok? ==> r.value == ObjectInput(o.value)) && (r.Err? ==> r.error == o.error)
    ensures v.ReceivingRef? ==>
      var o := ReceivingArg(v.id, v.version, a);
      (r.Ok? <==> o.Ok?) && (r.Ok? ==> r.value == ObjectInput(o.value)) && (r.Err? ==> r.error == o.error)
    ensures v.ObjVec? ==> r == Err(ObjVecNotInput)
    ensures v.DigestRef? ==>
      if v.package in a.staged then r == Ok(Pure(a.serializeDigest(a.staged[v.package])))
      else r == Err(UnboundStagedPackage(v.package))
  {
    match v
    case ObjectVal(fid, version) =>
      var arg :- ObjectArgFor(fid, version, a);
      Ok(ObjectInput(arg))
    case MoveVal(m) => Ok(Pure(a.serializeValue(m)))
    case ReceivingRef(fid, version) =>
      var arg :- ReceivingArg(fid, version, a);
      Ok(ObjectInput(arg))
    case ObjVec(_) => Err(ObjVecNotInput)
    case DigestRef(pkg) =>
      if pkg !in a.staged then Err(UnboundStagedPackage(pkg))
      else Ok(Pure(a.serializeDigest(a.staged[pkg])))
  }

  /** The index of the first handle that does not resolve (|hs| when all do). */
  function FirstUnresolved(hs: seq<ObjectHandle>, a: TestAdapter): (k: nat)
    ensures k <= |hs| && (k < |hs| ==> ObjectArgFor(hs[k].0, hs[k].1, a).Err?)
    ensures forall m :: 0 <= m < k ==> ObjectArgFor(hs[m].0, hs[m].1, a).Ok?
  {
    if hs == [] || ObjectArgFor(hs[0].0, hs[0].1, a).Err? then 0
    else 1 + FirstUnresolved(hs[1..], a)
  }

  /** `vec.iter().map(object_arg).collect()`: every handle of an object vector
      resolved in order, stopping at the first failure. */
  function ResolveObjVec(hs: seq<ObjectHandle>, a: TestAdapter): (r: Result<seq<ObjectArg>, Error>)
    ensures r.Ok? <==> forall k :: 0 <= k < |hs| ==> ObjectArgFor(hs[k].0, hs[k].1, a).Ok?
    ensures r.Ok? ==> |r.value| == |hs|
                      && forall k :: 0 <= k < |hs| ==> r.value[k] == ObjectArgFor(hs[k].0, hs[k].1, a).value
    ensures r.Err? ==> var k := FirstUnresolved(hs, a);
                       k < |hs| && r.error == ObjectArgFor(hs[k].0, hs[k].1, a).error
  {
    if hs == [] then Ok([])
    else
      var first :- ObjectArgFor(hs[0].0, hs[0].1, a);
      var others :- ResolveObjVec(hs[1..], a);
      Ok([first] + others)
  }

  // ---------------------------------------------------------------------
  // The programmable transaction builder

  datatype Argument = Input(index: nat) | CommandResult(index: nat)

  datatype Command = MakeMoveVec(elements: seq<Argument>)

  /** The inputs `make_obj_vec` registers for a vector of objects. */
  function ObjectInputs(objs: seq<ObjectArg>): (r: seq<CallArg>)
    ensures |r| == |objs| && forall k :: 0 <= k < |objs| ==> r[k] == ObjectInput(objs[k])
  {
    seq(|objs|, k requires 0 <= k < |objs| => ObjectInput(objs[k]))
  }

  /** `n` consecutive input arguments, starting at `first`. */
  function InputRange(first: nat, n: nat): (r: seq<Argument>)
    ensures |r| == n && forall k :: 0 <= k < n ==> r[k] == Input(first + k)
  {
    seq(n, k requires 0 <= k < n => Input(first + k))
  }

  /** `ProgrammableTransactionBuilder`: the inputs and commands registered so
      far. */
  class ProgrammableTransactionBuilder {
    var inputs: seq<CallArg>
    var commands: seq<Command>

    constructor ()
      ensures inputs == [] && commands == []
    {
      inputs, commands := [], [];
    }

    /** `input`: registers one input and returns a reference to it. */
    method AddInput(arg: CallArg) returns (r: Result<Argument, Error>)
      modifies this
      ensures inputs == old(inputs) + [arg] && commands == old(commands)
      ensures r == Ok(Input(|old(inputs)|))
    {
      r := Ok(Input(|inputs|));
      inputs := inputs + [arg];
    }

    /** `make_obj_vec`: registers each object as an input, then a command
        that builds the vector of them, and returns that command's result. */
    method MakeObjVec(objs: seq<ObjectArg>) returns (r: Result<Argument, Error>)
      modifies this
      ensures inputs == old(inputs) + ObjectInputs(objs)
      ensures commands == old(commands) + [MakeMoveVec(InputRange(|old(inputs)|, |objs|))]
      ensures r == Ok(CommandResult(|old(commands)|))
    {
      var elements: seq<Argument> := [];
      var i := 0;
      while i < |objs|
        invariant 0 <= i <= |objs|
        invariant inputs == old(inputs) + ObjectInputs(objs[..i])
        invariant elements == InputRange(|old(inputs)|, i)
        invariant commands == old(commands)
      {
        assert objs[..i + 1] == objs[..i] + [objs[i]];
        var arg := AddInput(ObjectInput(objs[i]));
        elements := elements + [arg.value];
        i := i + 1;
      }
      assert objs[..i] == objs;
      r := Ok(CommandResult(|commands|));
      commands := commands + [MakeMoveVec(elements)];
    }
  }

  /** `into_argument`: an object vector is resolved element by element and
      registered as one vector argument; every other value is turned into a
      call argument and registered as an input.  On failure the builder is
      left as it was. */
  method IntoArgument(v: SuiValue, builder: ProgrammableTransactionBuilder, a: TestAdapter)
    returns (r: Result<Argument, Error>)
    modifies builder
    ensures v.ObjVec? ==> match ResolveObjVec(v.handles, a)
      case Err(e) =>
        r == Err(e) && builder.inputs == old(builder.inputs) && builder.commands == old(builder.commands)
      case Ok(objs) =>
        && r == Ok(CommandResult(|old(builder.commands)|))
        && builder.inputs == old(builder.inputs) + ObjectInputs(objs)
        && builder.commands == old(builder.commands) + [MakeMoveVec(InputRange(|old(builder.inputs)|, |objs|))]
    ensures !v.ObjVec? ==> match IntoCallArg(v, a)
      case Err(e) =>
        r == Err(e) && builder.inputs == old(builder.inputs) && builder.commands == old(builder.commands)
      case Ok(arg) =>
        && r == Ok(Input(|old(builder.inputs)|))
        && builder.inputs == old(builder.inputs) + [arg]
        && builder.commands == old(builder.commands)
  {
    if v.ObjVec? {
      var objs :- ResolveObjVec(v.handles, a);
      r := builder.MakeObjVec(objs);
    } else {
      var arg :- IntoCallArg(v, a);
      r := builder.AddInput(arg);
    }
  }

  // ---------------------------------------------------------------------
  // Properties of resolution

  /** A pinned handle never falls back to the latest version: what the store
      holds as latest does not matter. */
  lemma PinnedIgnoresLatest(fid: FakeID, v: U64, a: TestAdapter, latest: map<ObjectID, Lookup>)
    ensures ResolveObject(fid, Some(v), a) == ResolveObject(fid, Some(v), a.(latest := latest))
  {
  }

  /** An unpinned handle reads the latest version only. */
  lemma UnpinnedIgnoresHistory(fid: FakeID, a: TestAdapter, byKey: map<(ObjectID, U64), Lookup>)
    ensures ResolveObject(fid, None, a) == ResolveObject(fid, None, a.(byKey := byKey))
  {
  }

  /** Object inputs never ask for read-only shared access, and a receiving
      input never comes out of an ordinary object reference. */
  lemma ObjectArgShapes(fid: FakeID, version: Option<U64>, a: TestAdapter)
    ensures var r := ObjectArgFor(fid, version, a);
      r.Ok? ==> !r.value.ReceivingObject? && (r.value.SharedObject? ==> r.value.mutable)
  {
  }

  /** Receiving and ordinary references resolve the same object; for an
      object that is not shared, they carry the same exact reference. */
  lemma ReceivingAgreesWithObject(fid: FakeID, version: Option<U64>, a: TestAdapter)
    ensures ReceivingArg(fid, version, a).Ok? <==> ObjectArgFor(fid, version, a).Ok?
    ensures var o := ResolveObject(fid, version, a);
      o.Ok? && !o.value.owner.Shared? ==>
        ReceivingArg(fid, version, a).value.objRef == ObjectArgFor(fid, version, a).value.objRef
  {
  }

  /** An object vector with a handle that does not resolve fails as a whole,
      with the error of the first such handle. */
  lemma ObjVecFailsOnFirstUnresolved(hs: seq<ObjectHandle>, a: TestAdapter, k: nat)
    requires k < |hs| && ObjectArgFor(hs[k].0, hs[k].1, a).Err?
    ensures ResolveObjVec(hs, a).Err?
    ensures FirstUnresolved(hs, a) <= k
    ensures ResolveObjVec(hs, a).error == ObjectArgFor(hs[FirstUnresolved(hs, a)].0, hs[FirstUnresolved(hs, a)].1, a).error
  {
  }

  /** A staged digest resolves to its serialized bytes, and only a staged name
      resolves at all. */
  lemma DigestResolvesIffStaged(name: string, a: TestAdapter)
    ensures IntoCallArg(DigestRef(name), a).Ok? <==> name in a.staged
    ensures name in a.staged ==> IntoCallArg(DigestRef(name), a) == Ok(Pure(a.serializeDigest(a.staged[name])))
  {
  }
}
