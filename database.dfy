/**
 * An open IndexedDB database: its version and its object stores by name.
 * The schema operations and put() change it in place; reads are functions
 * of its current state. Transactions are not modelled: each operation takes
 * effect when it is issued.
 */
module Databases {
  import opened Wrappers
  import opened Keys
  import opened ObjectStores
  import opened Indexes

  type Stores = map<string, Store>

  predicate StoresValid(m: Stores)
  {
    forall n :: n in m ==> m[n].Valid()
  }

  /** createObjectStore(name, {keyPath}): a new empty store; a taken name is a ConstraintError. */
  function AddStore(m: Stores, name: string, keyPath: Option<string>): (r: Result<Stores, Error>)
    requires StoresValid(m)
    ensures r.Failure? <==> name in m
    ensures r.Success? ==> StoresValid(r.value) && r.value.Keys == m.Keys + {name}
    ensures r.Success? ==> forall n :: n in m ==> r.value[n] == m[n]
    ensures r.Success? ==> r.value[name].records == [] && r.value[name].keyPath == keyPath && r.value[name].indexes == map[]
  {
    if name in m then Failure(ConstraintError) else Success(m[name := Store(keyPath, map[], [])])
  }

  /**
   * objectStore(store).createIndex(name, keyPath): NotFoundError when the
   * store does not exist, ConstraintError when it already has an index of
   * that name.
   */
  function AddIndex(m: Stores, store: string, name: string, keyPath: string): (r: Result<Stores, Error>)
    requires StoresValid(m)
    ensures r.Failure? <==> store !in m || name in m[store].indexes
    ensures r.Failure? ==> r.error == if store !in m then NotFoundError else ConstraintError
    ensures r.Success? ==> StoresValid(r.value) && r.value.Keys == m.Keys
    ensures r.Success? ==> forall n :: n in m && n != store ==> r.value[n] == m[n]
    ensures r.Success? ==> r.value[store].records == m[store].records && r.value[store].keyPath == m[store].keyPath
    ensures r.Success? ==> r.value[store].indexes == m[store].indexes[name := keyPath]
  {
    if store !in m then Failure(NotFoundError)
    else if name in m[store].indexes then Failure(ConstraintError)
    else Success(m[store := m[store].(indexes := m[store].indexes[name := keyPath])])
  }

  /** objectStore(store).put(value, key). */
  function PutIn(m: Stores, store: string, v: Value, key: Option<Key>): (r: Result<(Stores, Key), Error>)
    requires StoresValid(m)
    ensures store !in m ==> r == Failure(NotFoundError)
    ensures store in m ==> r.Success? == Put(m[store], v, key).Success?
    ensures r.Success? ==> StoresValid(r.value.0) && r.value.0.Keys == m.Keys
    ensures r.Success? ==> forall n :: n in m && n != store ==> r.value.0[n] == m[n]
    ensures r.Success? ==> (r.value.0[store], r.value.1) == Put(m[store], v, key).value
  {
    if store !in m then Failure(NotFoundError)
    else
      var (s, k) :- Put(m[store], v, key);
      Success((m[store := s], k))
  }

  class Database {
    var version: nat
    var stores: Stores

    /** A database that does not exist yet (version 0) has no stores. */
    ghost predicate Valid()
      reads this
    {
      StoresValid(stores) && (version == 0 ==> stores == map[])
    }

    /** A database on disk that has never been opened. */
    constructor ()
      ensures Valid() && version == 0 && stores == map[]
    {
      version := 0;
      stores := map[];
    }

    method CreateObjectStore(name: string, keyPath: Option<string>) returns (r: Result<(), Error>)
      requires Valid() && version > 0
      modifies this`stores
      ensures Valid()
      ensures r.Failure? <==> name in old(stores)
      ensures r.Failure? ==> r.error == ConstraintError
      ensures stores == if r.Failure? then old(stores) else AddStore(old(stores), name, keyPath).value
    {
      var m := AddStore(stores, name, keyPath);
      if m.Failure? {
        return Failure(m.error);
      }
      stores := m.value;
      return Success(());
    }

    method CreateIndex(store: string, name: string, keyPath: string) returns (r: Result<(), Error>)
      requires Valid() && version > 0
      modifies this`stores
      ensures Valid()
      ensures r.Success? == AddIndex(old(stores), store, name, keyPath).Success?
      ensures r.Failure? ==> r.error == AddIndex(old(stores), store, name, keyPath).error
      ensures stores == if r.Failure? then old(stores) else AddIndex(old(stores), store, name, keyPath).value
    {
      var m := AddIndex(stores, store, name, keyPath);
      if m.Failure? {
        return Failure(m.error);
      }
      stores := m.value;
      return Success(());
    }

    method Put(store: string, v: Value, key: Option<Key>) returns (r: Result<Key, Error>)
      requires Valid() && version > 0
      modifies this`stores
      ensures Valid()
      ensures r.Success? == PutIn(old(stores), store, v, key).Success?
      ensures r.Success? ==> r.value == PutIn(old(stores), store, v, key).value.1
      ensures r.Failure? ==> r.error == PutIn(old(stores), store, v, key).error
      ensures stores == if r.Failure? then old(stores) else PutIn(old(stores), store, v, key).value.0
    {
      var p := PutIn(stores, store, v, key);
      if p.Failure? {
        return Failure(p.error);
      }
      stores := p.value.0;
      return Success(p.value.1);
    }

    /** objectStore(store).get(key): the value stored under key, if any. */
    function Get(store: string, key: Key): (r: Result<Option<Value>, Error>)
      reads this
      requires Valid()
      ensures r.Failure? <==> store !in stores
      ensures r.Success? ==> r.value == Lookup(stores[store].records, key)
    {
      if store !in stores then Failure(NotFoundError) else Success(Lookup(stores[store].records, key))
    }

    /** objectStore(store).getAll(): every value in primary key order. */
    function GetAll(store: string): (r: Result<seq<Value>, Error>)
      reads this
      requires Valid()
      ensures r.Failure? <==> store !in stores
      ensures r.Success? ==> r.value == Values(stores[store].records)
    {
      if store !in stores then Failure(NotFoundError) else Success(Values(stores[store].records))
    }

    /** objectStore(store).index(name).getAll(query). */
    function IndexGetAll(store: string, name: string, query: Option<Key>): (r: Result<seq<Value>, Error>)
      reads this
      requires Valid()
      ensures r.Failure? <==> store !in stores || name !in stores[store].indexes
      ensures r.Success? ==> r == Indexes.IndexGetAll(stores[store], name, query)
    {
      if store !in stores then Failure(NotFoundError) else Indexes.IndexGetAll(stores[store], name, query)
    }
  }

}
