/** Symbolic values (`SuiValue`) and the composite rules the base value
    grammar delegates to this core: vectors, structs, and the narrowing of a
    value to a plain Move value or to an object reference.  A narrowing that
    fails is a `panic!` in the source: here `Fatal`, never a coercion. */
module ArgsValues {
  import opened Results
  import opened ArgsCommon
  import opened ArgsParser

  /** A value of the base grammar.  Its primitives are opaque to this core;
      vectors and structs are built here from their parts. */
  datatype MoveValue =
    | Primitive(literal: string)
    | Vector(elements: seq<MoveValue>)
    | Struct(fields: seq<MoveValue>)

  /** An object handle with its optional version pin. */
  type ObjectHandle = (FakeID, Option<U64>)

  /** `SuiValue`. */
  datatype SuiValue =
    | MoveVal(value: MoveValue)
    | ObjectVal(id: FakeID, version: Option<U64>)
    | ObjVec(handles: seq<ObjectHandle>)
    | DigestRef(package: string)
    | ReceivingRef(id: FakeID, version: Option<U64>)

  /** `assert_move_value`. */
  function AssertMoveValue(v: SuiValue): (r: Result<MoveValue, Error>)
    ensures r.Ok? <==> v.MoveVal?
    ensures r.Ok? ==> r.value == v.value
    ensures r.Err? ==> r.error.Fatal?
  {
    match v
    case MoveVal(m) => Ok(m)
    case ObjectVal(_, _) => Err(Fatal("unexpected nested Sui object in args"))
    case ObjVec(_) => Err(Fatal("unexpected nested Sui object vector in args"))
    case DigestRef(_) => Err(Fatal("unexpected nested Sui package digest in args"))
    case ReceivingRef(_, _) => Err(Fatal("unexpected nested Sui receiving object in args"))
  }

  /** `assert_object`. */
  function AssertObject(v: SuiValue): (r: Result<ObjectHandle, Error>)
    ensures r.Ok? <==> v.ObjectVal?
    ensures r.Ok? ==> r.value == (v.id, v.version)
    ensures r.Err? ==> r.error.Fatal?
  {
    match v
    case MoveVal(_) => Err(Fatal("unexpected nested non-object value in args"))
    case ObjectVal(id, version) => Ok((id, version))
    case ObjVec(_) => Err(Fatal("unexpected nested Sui object vector in args"))
    case DigestRef(_) => Err(Fatal("unexpected nested Sui package digest in args"))
    case ReceivingRef(_, _) => Err(Fatal("unexpected nested Sui receiving object in args"))
  }

  /** The index of the first element that is not a plain value (|vs| when
      there is none). */
  function FirstNonPlain(vs: seq<SuiValue>): (k: nat)
    ensures k <= |vs| && (k < |vs| ==> !vs[k].MoveVal?)
    ensures forall m :: 0 <= m < k ==> vs[m].MoveVal?
  {
    if vs == [] || !vs[0].MoveVal? then 0 else 1 + FirstNonPlain(vs[1..])
  }

  /** The index of the first element that is not an object reference. */
  function FirstNonObject(vs: seq<SuiValue>): (k: nat)
    ensures k <= |vs| && (k < |vs| ==> !vs[k].ObjectVal?)
    ensures forall m :: 0 <= m < k ==> vs[m].ObjectVal?
  {
    if vs == [] || !vs[0].ObjectVal? then 0 else 1 + FirstNonObject(vs[1..])
  }

  /** `into_iter().map(assert_move_value).collect()`: the first element that
      is not a plain value panics. */
  function CollectMoveValues(vs: seq<SuiValue>): (r: Result<seq<MoveValue>, Error>)
    ensures r.Ok? <==> forall k :: 0 <= k < |vs| ==> vs[k].MoveVal?
    ensures r.Ok? ==> |r.value| == |vs| && forall k :: 0 <= k < |vs| ==> r.value[k] == vs[k].value
    ensures r.Err? ==> FirstNonPlain(vs) < |vs| && r.error == AssertMoveValue(vs[FirstNonPlain(vs)]).error
  {
    if vs == [] then Ok([])
    else match AssertMoveValue(vs[0])
      case Err(e) => Err(e)
      case Ok(m) =>
        match CollectMoveValues(vs[1..])
        case Err(e) => Err(e)
        case Ok(ms) => Ok([m] + ms)
  }

  /** `into_iter().map(assert_object).collect()`: the first element that is
      not an object reference panics. */
  function CollectObjects(vs: seq<SuiValue>): (r: Result<seq<ObjectHandle>, Error>)
    ensures r.Ok? <==> forall k :: 0 <= k < |vs| ==> vs[k].ObjectVal?
    ensures r.Ok? ==> |r.value| == |vs| && forall k :: 0 <= k < |vs| ==> r.value[k] == (vs[k].id, vs[k].version)
    ensures r.Err? ==> FirstNonObject(vs) < |vs| && r.error == AssertObject(vs[FirstNonObject(vs)]).error
  {
    if vs == [] then Ok([])
    else match AssertObject(vs[0])
      case Err(e) => Err(e)
      case Ok(h) =>
        match CollectObjects(vs[1..])
        case Err(e) => Err(e)
        case Ok(hs) => Ok([h] + hs)
  }

  /** `concrete_vector`: a vector whose first element is an object reference
      is an object vector, and then every element must be one; any other
      vector is a Move vector of plain values. */
  function ConcreteVector(elems: seq<SuiValue>): (r: Result<SuiValue, Error>)
    ensures r.Err? ==> r.error.Fatal?
    ensures elems != [] && elems[0].ObjectVal? ==>
      && (r.Ok? <==> forall k :: 0 <= k < |elems| ==> elems[k].ObjectVal?)
      && (r.Ok? ==> r.value.ObjVec? && |r.value.handles| == |elems|
                    && forall k :: 0 <= k < |elems| ==> r.value.handles[k] == (elems[k].id, elems[k].version))
    ensures elems == [] || !elems[0].ObjectVal? ==>
      && (r.Ok? <==> forall k :: 0 <= k < |elems| ==> elems[k].MoveVal?)
      && (r.Ok? ==> r.value.MoveVal? && r.value.value.Vector? && |r.value.value.elements| == |elems|
                    && forall k :: 0 <= k < |elems| ==> r.value.value.elements[k] == elems[k].value)
  {
    if elems != [] && elems[0].ObjectVal? then
      var hs :- CollectObjects(elems);
      Ok(ObjVec(hs))
    else
      var ms :- CollectMoveValues(elems);
      Ok(MoveVal(Vector(ms)))
  }

  /** `concrete_struct`: a struct's fields must all be plain values. */
  function ConcreteStruct(values: seq<SuiValue>): (r: Result<SuiValue, Error>)
    ensures r.Err? ==> r.error.Fatal?
    ensures r.Ok? <==> forall k :: 0 <= k < |values| ==> values[k].MoveVal?
    ensures r.Ok? ==> r.value.MoveVal? && r.value.value.Struct? && |r.value.value.fields| == |values|
                      && forall k :: 0 <= k < |values| ==> r.value.value.fields[k] == values[k].value
  {
    var ms :- CollectMoveValues(values);
    Ok(MoveVal(Struct(ms)))
  }

  /** `move_value_into_concrete`. */
  function MoveValueIntoConcrete(v: MoveValue): (r: Result<SuiValue, Error>)
    ensures r.Ok? && AssertMoveValue(r.value) == Ok(v)
  {
    Ok(MoveVal(v))
  }

  /** `into_concrete_value`: each extra form becomes the symbolic value of the
      same kind, carrying the same handle, pin or package name. */
  function IntoConcreteValue(x: ExtraArg): (r: Result<SuiValue, Error>)
    ensures r.Ok?
    ensures x.ExtraObject? ==> r.value == ObjectVal(x.id, x.version)
    ensures x.ExtraReceiving? ==> r.value == ReceivingRef(x.id, x.version)
    ensures x.ExtraDigest? ==> r.value == DigestRef(x.package)
  {
    match x
    case ExtraObject(id, version) => Ok(ObjectVal(id, version))
    case ExtraDigest(pkg) => Ok(DigestRef(pkg))
    case ExtraReceiving(id, version) => Ok(ReceivingRef(id, version))
  }

  /** A vector that starts with an object and later holds anything else is
      a fatal defect, reported for the first element of the wrong kind. */
  lemma MixedObjectVectorIsFatal(elems: seq<SuiValue>, k: nat)
    requires k < |elems| && elems[0].ObjectVal? && !elems[k].ObjectVal?
    ensures var r := ConcreteVector(elems);
      r.Err? && r.error.Fatal? && FirstNonObject(elems) <= k
      && r.error == AssertObject(elems[FirstNonObject(elems)]).error
  {
  }

  /** Object references may not be nested in a struct. */
  lemma StructRejectsObjects(values: seq<SuiValue>, k: nat)
    requires k < |values| && values[k].ObjectVal?
    ensures ConcreteStruct(values).Err? && ConcreteStruct(values).error.Fatal?
  {
  }

  /** A vector literal of object references becomes the object vector of
      their handles, in order. */
  lemma ObjectVectorRoundTrip(hs: seq<ObjectHandle>)
    requires hs != []
    ensures ConcreteVector(seq(|hs|, k requires 0 <= k < |hs| => ObjectVal(hs[k].0, hs[k].1))) == Ok(ObjVec(hs))
  {
    var elems := seq(|hs|, k requires 0 <= k < |hs| => ObjectVal(hs[k].0, hs[k].1));
    var r := ConcreteVector(elems);
    assert r.Ok?;
    assert r.value.handles == hs;
  }
}
