/** The analytics indexer's package store
    (crates/sui-analytics-indexer/src/package_store.rs): a local table of
    package objects, written through on a miss from a fallback full node.

    The RocksDB table is the `packages` map.  A failing read and a failing
    batch write are modelled by the fault the database would report
    (`readFault`, `writeFault`); a batch either commits whole or not at all.
    The REST client is the `fallback` oracle, `None` for any failed fetch. */
module PackageStore {
  import opened Results
  import opened Bytes


  /** A Sui object as far as this store looks at it: its id, its version,
      whether its data is a Move package, and the rest. */
  datatype Object = Object(id: ObjectID, version: nat, isPackage: bool, contents: seq<Byte>)

  /** `typed_store::TypedStoreError`, opaque here. */
  datatype TypedStoreError = RocksDBError(message: string) | SerializationError(message: string)

  /** The store's own error type. */
  datatype Error = TypedStore(storeError: TypedStoreError)

  /** The part of `sui_package_resolver::error::Error` this store raises. */
  datatype ResolverError = PackageNotFound(address: ObjectID) | Store(store: string, source: TypedStoreError)

  const STORE: string := "RocksDB"

  /** `From<Error> for PackageResolverError`. */
  function IntoResolverError(err: Error): (r: ResolverError)
    ensures r.Store? && r.store == STORE && r.source == err.storeError
  {
    match err
    case TypedStore(e) => Store(STORE, e)
  }

  /** Every entry is a package kept under its own id: what the write paths
      below maintain. */
  ghost predicate PackagesKeyed(packages: map<ObjectID, Object>)
  {
    forall k :: k in packages ==> packages[k].isPackage && packages[k].id == k
  }

  /** The outcome of a call and the table it leaves behind. */
  datatype Outcome<T> = Outcome(result: Result<T, ResolverError>, packages: map<ObjectID, Object>)

  /** `PackageStoreTables::update`: one batch inserting the object under its
      id; a failed batch writes nothing. */
  function TableUpdate(packages: map<ObjectID, Object>, writeFault: Option<TypedStoreError>, obj: Object)
    : Outcome<()>
  {
    match writeFault
    case Some(e) => Outcome(Err(IntoResolverError(TypedStore(e))), packages)
    case None => Outcome(Ok(()), packages[obj.id := obj])
  }

  /** `LocalDBPackageStore::update`: only package objects reach the table. */
  function StoreUpdate(packages: map<ObjectID, Object>, writeFault: Option<TypedStoreError>, obj: Object)
    : Outcome<()>
  {
    if !obj.isPackage then Outcome(Ok(()), packages)
    else TableUpdate(packages, writeFault, obj)
  }

  /** `LocalDBPackageStore::get`: the local entry when there is one;
      otherwise the fallback's object, written back through `update`. */
  function GetOutcome(
    packages: map<ObjectID, Object>, readFault: Option<TypedStoreError>, writeFault: Option<TypedStoreError>,
    fallback: ObjectID -> Option<Object>, id: ObjectID): Outcome<Object>
  {
    if readFault.Some? then Outcome(Err(IntoResolverError(TypedStore(readFault.value))), packages)
    else if id in packages then Outcome(Ok(packages[id]), packages)
    else match fallback(id)
      case None => Outcome(Err(PackageNotFound(id)), packages)
      case Some(obj) =>
        var written := StoreUpdate(packages, writeFault, obj);
        if written.result.Err? then Outcome(Err(written.result.error), written.packages)
        else Outcome(Ok(obj), written.packages)
  }

  /** `PackageStore::version` on the outcome of `get`. */
  function VersionOf(got: Result<Object, ResolverError>): (r: Result<nat, ResolverError>)
    ensures r.Ok? <==> got.Ok?
    ensures r.Ok? ==> r.value == got.value.version
    ensures r.Err? ==> r.error == got.error
  {
    var obj :- got;
    Ok(obj.version)
  }

  /** `PackageStoreTables`: the `packages` table. */
  class PackageStoreTables {
    var packages: map<ObjectID, Object>
    var readFault: Option<TypedStoreError>
    var writeFault: Option<TypedStoreError>

    /** The table of the database at a path, in the given condition.  The
        packages an earlier run wrote are `initial`; a database that is
        missing or deleted opens as an empty table. */
    constructor(initial: map<ObjectID, Object>, readFault: Option<TypedStoreError>, writeFault: Option<TypedStoreError>)
      ensures packages == initial
      ensures this.readFault == readFault && this.writeFault == writeFault
    {
      packages := initial;
      this.readFault := readFault;
      this.writeFault := writeFault;
    }

    /** `packages.get(id)`. */
    method Get(id: ObjectID) returns (r: Result<Option<Object>, TypedStoreError>)
      ensures readFault.Some? ==> r == Err(readFault.value)
      ensures readFault.None? ==> r == Ok(if id in packages then Some(packages[id]) else None)
    {
      if readFault.Some? {
        return Err(readFault.value);
      }
      if id in packages {
        r := Ok(Some(packages[id]));
      } else {
        r := Ok(None);
      }
    }

    /** `PackageStoreTables::update`. */
    method Update(package: Object) returns (r: Result<(), ResolverError>)
      modifies this
      ensures Outcome(r, packages) == TableUpdate(old(packages), writeFault, package)
      ensures readFault == old(readFault) && writeFault == old(writeFault)
    {
      if writeFault.Some? {
        return Err(IntoResolverError(TypedStore(writeFault.value)));
      }
      packages := packages[package.id := package];
      r := Ok(());
    }
  }

  /** `LocalDBPackageStore`. */
  class LocalDBPackageStore {
    const tables: PackageStoreTables
    const fallback: ObjectID -> Option<Object>

    /** The table holds only packages, each under its own id: what every
        write of this store leaves behind. */
    ghost predicate Valid()
      reads this, tables
    {
      PackagesKeyed(tables.packages)
    }

    /** A store over a table that earlier runs of this store wrote. */
    constructor(tables: PackageStoreTables, fallback: ObjectID -> Option<Object>)
      requires PackagesKeyed(tables.packages)
      ensures this.tables == tables && this.fallback == fallback
      ensures Valid()
    {
      this.tables := tables;
      this.fallback := fallback;
    }

    /** `LocalDBPackageStore::update`. */
    method Update(obj: Object) returns (r: Result<(), ResolverError>)
      requires Valid()
      modifies tables
      ensures Valid()
      ensures Outcome(r, tables.packages) == StoreUpdate(old(tables.packages), tables.writeFault, obj)
      ensures tables.readFault == old(tables.readFault) && tables.writeFault == old(tables.writeFault)
    {
      if !obj.isPackage {
        return Ok(());
      }
      r := tables.Update(obj);
      UpdateKeepsPackagesKeyed(old(tables.packages), tables.writeFault, obj);
    }

    /** `LocalDBPackageStore::get`. */
    method Get(id: ObjectID) returns (r: Result<Object, ResolverError>)
      requires Valid()
      modifies tables
      ensures Valid()
      ensures Outcome(r, tables.packages)
           == GetOutcome(old(tables.packages), tables.readFault, tables.writeFault, fallback, id)
      ensures tables.readFault == old(tables.readFault) && tables.writeFault == old(tables.writeFault)
    {
      var local := tables.Get(id);
      if local.Err? {
        return Err(IntoResolverError(TypedStore(local.error)));
      }
      if local.value.Some? {
        return Ok(local.value.value);
      }
      var fetched := fallback(id);
      if fetched.None? {
        return Err(PackageNotFound(id));
      }
      var obj := fetched.value;
      var written := Update(obj);
      if written.Err? {
        return Err(written.error);
      }
      r := Ok(obj);
    }

    /** `PackageStore::version`. */
    method Version(id: ObjectID) returns (r: Result<nat, ResolverError>)
      requires Valid()
      modifies tables
      ensures Valid()
      ensures var got := GetOutcome(old(tables.packages), tables.readFault, tables.writeFault, fallback, id);
        r == VersionOf(got.result) && tables.packages == got.packages
      ensures tables.readFault == old(tables.readFault) && tables.writeFault == old(tables.writeFault)
    {
      var obj :- Get(id);
      r := Ok(obj.version);
    }
  }

  // ---------------------------------------------------------------------
  // Properties

  /** Updating with an object that is not a package succeeds and changes
      nothing, whatever the database's condition. */
  lemma NonPackageUpdateIsNoop(packages: map<ObjectID, Object>, writeFault: Option<TypedStoreError>, obj: Object)
    requires !obj.isPackage
    ensures StoreUpdate(packages, writeFault, obj) == Outcome(Ok(()), packages)
  {
  }

  /** Updating with a package stores it under its id, overwriting, and no
      other key changes; a failed write leaves the table as it was and
      reports the store error. */
  lemma PackageUpdateStores(packages: map<ObjectID, Object>, writeFault: Option<TypedStoreError>, obj: Object)
    requires obj.isPackage
    ensures var after := StoreUpdate(packages, writeFault, obj);
      && (writeFault.None? ==>
            && after.result == Ok(())
            && obj.id in after.packages && after.packages[obj.id] == obj
            && after.packages.Keys == packages.Keys + {obj.id}
            && forall k :: k in packages && k != obj.id ==> after.packages[k] == packages[k])
      && (writeFault.Some? ==>
            after == Outcome(Err(Store(STORE, writeFault.value)), packages))
  {
  }

  /** Both write paths keep every entry a package under its own id. */
  lemma UpdateKeepsPackagesKeyed(packages: map<ObjectID, Object>, writeFault: Option<TypedStoreError>, obj: Object)
    requires PackagesKeyed(packages)
    ensures PackagesKeyed(StoreUpdate(packages, writeFault, obj).packages)
  {
  }

  lemma GetKeepsPackagesKeyed(
    packages: map<ObjectID, Object>, readFault: Option<TypedStoreError>, writeFault: Option<TypedStoreError>,
    fallback: ObjectID -> Option<Object>, id: ObjectID)
    requires PackagesKeyed(packages)
    ensures PackagesKeyed(GetOutcome(packages, readFault, writeFault, fallback, id).packages)
  {
    if readFault.None? && id !in packages && fallback(id).Some? {
      UpdateKeepsPackagesKeyed(packages, writeFault, fallback(id).value);
    }
  }

  /** A local hit returns the stored object, leaves the table alone and does
      not depend on the fallback client at all. */
  lemma HitIgnoresFallback(
    packages: map<ObjectID, Object>, writeFault: Option<TypedStoreError>,
    fallback: ObjectID -> Option<Object>, other: ObjectID -> Option<Object>, id: ObjectID)
    requires id in packages
    ensures GetOutcome(packages, None, writeFault, fallback, id) == Outcome(Ok(packages[id]), packages)
    ensures GetOutcome(packages, None, writeFault, fallback, id) == GetOutcome(packages, None, writeFault, other, id)
  {
  }

  /** A failed read is a store error; neither the table nor the fallback is
      touched. */
  lemma ReadFaultIsStoreError(
    packages: map<ObjectID, Object>, e: TypedStoreError, writeFault: Option<TypedStoreError>,
    fallback: ObjectID -> Option<Object>, id: ObjectID)
    ensures GetOutcome(packages, Some(e), writeFault, fallback, id) == Outcome(Err(Store(STORE, e)), packages)
  {
  }

  /** A miss the fallback cannot serve is `PackageNotFound(id)` and leaves
      the table unchanged. */
  lemma MissWithoutFallback(
    packages: map<ObjectID, Object>, writeFault: Option<TypedStoreError>,
    fallback: ObjectID -> Option<Object>, id: ObjectID)
    requires id !in packages && fallback(id).None?
    ensures GetOutcome(packages, None, writeFault, fallback, id) == Outcome(Err(PackageNotFound(id)), packages)
  {
  }

  /** A miss the fallback serves returns the fetched object, and afterwards
      the table holds that object exactly when it is a package. */
  lemma {:induction false} MissWritesBackPackages(
    packages: map<ObjectID, Object>, fallback: ObjectID -> Option<Object>, id: ObjectID)
    requires PackagesKeyed(packages)
    requires id !in packages && fallback(id).Some?
    ensures var got := GetOutcome(packages, None, None, fallback, id);
      && got.result == Ok(fallback(id).value)
      && (fallback(id).value in got.packages.Values <==> fallback(id).value.isPackage)
      && (!fallback(id).value.isPackage ==> got.packages == packages)
  {
    var obj := fallback(id).value;
    var got := GetOutcome(packages, None, None, fallback, id);
    if obj.isPackage {
      assert got.packages == packages[obj.id := obj];
      assert got.packages[obj.id] == obj;
    } else {
      assert got.packages == packages;
    }
  }

  /** Once a package fetched for its own id has been written back, the next
      `get` of that id is a hit: it returns the same object and does not
      fetch again. */
  lemma {:induction false} GetIsIdempotentForPackages(
    packages: map<ObjectID, Object>, fallback: ObjectID -> Option<Object>,
    other: ObjectID -> Option<Object>, id: ObjectID)
    requires fallback(id).Some? && fallback(id).value.isPackage && fallback(id).value.id == id
    ensures var first := GetOutcome(packages, None, None, fallback, id);
      var second := GetOutcome(first.packages, None, None, other, id);
      first.result.Ok? && second == Outcome(first.result, first.packages)
  {
    var first := GetOutcome(packages, None, None, fallback, id);
    assert id in first.packages;
    if id !in packages {
      assert first.packages == packages[id := fallback(id).value];
      assert first.result == Ok(fallback(id).value);
    }
    HitIgnoresFallback(first.packages, None, other, other, id);
  }

  /** An object that is not a package is never cached: a second `get` of a
      locally absent id asks the fallback again. */
  lemma NonPackageIsFetchedEveryTime(
    packages: map<ObjectID, Object>, fallback: ObjectID -> Option<Object>, id: ObjectID)
    requires id !in packages && fallback(id).Some? && !fallback(id).value.isPackage
    ensures GetOutcome(packages, None, None, fallback, id).packages == packages
    ensures id !in GetOutcome(packages, None, None, fallback, id).packages
  {
  }

  /** `version` fails exactly when `get` does, and otherwise is the version
      of the object `get` returns. */
  lemma VersionFollowsGet(
    packages: map<ObjectID, Object>, readFault: Option<TypedStoreError>, writeFault: Option<TypedStoreError>,
    fallback: ObjectID -> Option<Object>, id: ObjectID)
    ensures var got := GetOutcome(packages, readFault, writeFault, fallback, id).result;
      && (VersionOf(got).Ok? <==> got.Ok?)
      && (got.Ok? ==> VersionOf(got) == Ok(got.value.version))
  {
  }
}
