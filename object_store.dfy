/**
 * An object store as defined in section 2.2 of the W3C Indexed Database API
 * 2.0: a list of records ordered by primary key, at most one per key, with
 * an optional in-line key path and a set of named indexes.
 */
module ObjectStores {
  import opened Wrappers
  import opened Keys

  /** The errors the modelled operations throw (DOMException names, and a JS ReferenceError). */
  datatype Error = ConstraintError | NotFoundError | DataError | VersionError | AbortError | ReferenceError

  datatype Entry = Entry(key: Key, value: Value)

  /**
   * keyPath is None for a store with out-of-line keys; indexes maps an index
   * name to its key path.
   */
  datatype Store = Store(keyPath: Option<string>, indexes: map<string, string>, records: seq<Entry>)
  {
    /** The records are strictly ordered by primary key, so no key occurs twice. */
    predicate Valid()
    {
      Sorted(records)
    }
  }

  predicate Sorted(rs: seq<Entry>)
  {
    forall i, j :: 0 <= i < j < |rs| ==> Lt(rs[i].key, rs[j].key)
  }

  function KeysOf(rs: seq<Entry>): set<Key>
  {
    if rs == [] then {} else {rs[0].key} + KeysOf(rs[1..])
  }

  /** A key is among KeysOf(rs) exactly when some record carries it. */
  lemma {:induction false} KeysOfAt(rs: seq<Entry>, k: Key)
    ensures k in KeysOf(rs) <==> exists i :: 0 <= i < |rs| && rs[i].key == k
  {
    if rs != [] {
      KeysOfAt(rs[1..], k);
      if k in KeysOf(rs[1..]) {
        var i :| 0 <= i < |rs[1..]| && rs[1..][i].key == k;
        assert rs[i + 1].key == k;
      }
      if exists i :: 0 <= i < |rs| && rs[i].key == k {
        var i :| 0 <= i < |rs| && rs[i].key == k;
        if i > 0 { assert rs[1..][i - 1].key == k; }
      }
    }
  }

  /** The value stored under key k: the map view of the record list. */
  function Lookup(rs: seq<Entry>, k: Key): (r: Option<Value>)
    ensures r.Some? <==> k in KeysOf(rs)
  {
    if rs == [] then None
    else if rs[0].key == k then Some(rs[0].value)
    else Lookup(rs[1..], k)
  }

  /** A key below every record's key is not among the keys. */
  lemma {:induction false} BelowAllNotIn(rs: seq<Entry>, k: Key)
    requires forall i :: 0 <= i < |rs| ==> Lt(k, rs[i].key)
    ensures k !in KeysOf(rs)
  {
    if rs != [] {
      LtIrreflexive(k);
      BelowAllNotIn(rs[1..], k);
    }
  }

  /** Storing a record: replace the record with key k, or insert it in key order. */
  function Upsert(rs: seq<Entry>, k: Key, v: Value): (r: seq<Entry>)
    requires Sorted(rs)
    ensures Sorted(r)
    ensures KeysOf(r) == KeysOf(rs) + {k}
    ensures |r| == if k in KeysOf(rs) then |rs| else |rs| + 1
  {
    if rs == [] then [Entry(k, v)]
    else if rs[0].key == k then
      var r := [Entry(k, v)] + rs[1..];
      assert r[1..] == rs[1..];
      BelowAllNotIn(rs[1..], k);
      r
    else if Lt(k, rs[0].key) then
      var r := [Entry(k, v)] + rs;
      assert r[1..] == rs;
      forall j | 0 < j < |r| ensures Lt(k, r[j].key) {
        if j > 1 { LtTransitive(k, rs[0].key, rs[j - 1].key); }
      }
      BelowAllNotIn(rs, k);
      r
    else
      var t := Upsert(rs[1..], k, v);
      var r := [rs[0]] + t;
      assert r[1..] == t;
      LtTotal(k, rs[0].key);
      forall j | 0 <= j < |t| ensures Lt(rs[0].key, t[j].key) {
        KeysOfAt(t, t[j].key);
        if t[j].key != k {
          KeysOfAt(rs[1..], t[j].key);
          var i :| 0 <= i < |rs[1..]| && rs[1..][i].key == t[j].key;
          assert rs[i + 1].key == t[j].key;
        }
      }
      BelowAllNotIn(rs[1..], rs[0].key);
      r
  }

  /** After an upsert the key reads back as the stored value, and every other key is unchanged. */
  lemma {:induction false} LookupUpsert(rs: seq<Entry>, k: Key, v: Value, k': Key)
    requires Sorted(rs)
    ensures Lookup(Upsert(rs, k, v), k') == if k' == k then Some(v) else Lookup(rs, k')
  {
    if rs != [] && rs[0].key != k && !Lt(k, rs[0].key) {
      LookupUpsert(rs[1..], k, v, k');
    }
  }

  /** A store of records whose keys come out of the records themselves. */
  function Put(s: Store, v: Value, key: Option<Key>): (r: Result<(Store, Key), Error>)
    requires s.Valid()
    ensures r.Success? ==> r.value.0.Valid() && r.value.0.keyPath == s.keyPath && r.value.0.indexes == s.indexes
    ensures r.Success? <==> (if s.keyPath.Some? then key.None? && ExtractKey(v, s.keyPath.value).Some? else key.Some?)
    ensures r.Failure? ==> r.error == DataError
    ensures r.Success? ==> r.value.1 == if s.keyPath.Some? then ExtractKey(v, s.keyPath.value).value else key.value
    ensures r.Success? ==> Lookup(r.value.0.records, r.value.1) == Some(v)
    ensures r.Success? ==> forall k :: k != r.value.1 ==> Lookup(r.value.0.records, k) == Lookup(s.records, k)
  {
    var k :- KeyFor(s, v, key);
    forall k' ensures Lookup(Upsert(s.records, k, v), k') == if k' == k then Some(v) else Lookup(s.records, k') {
      LookupUpsert(s.records, k, v, k');
    }
    Success((s.(records := Upsert(s.records, k, v)), k))
  }

  /**
   * The key put() stores a value under: with in-line keys, the key extracted
   * with the key path (passing a key as well is a DataError); with out-of-line
   * keys and no key generator, the key passed in. A missing key is a DataError.
   */
  function KeyFor(s: Store, v: Value, key: Option<Key>): Result<Key, Error>
  {
    match s.keyPath
    case Some(path) =>
      if key.Some? then Failure(DataError)
      else (
        match ExtractKey(v, path)
        case Some(k) => Success(k)
        case None => Failure(DataError))
    case None =>
      if key.None? then Failure(DataError) else Success(key.value)
  }

  /** getAll() on a store: every stored value in primary key order. */
  function Values(rs: seq<Entry>): (r: seq<Value>)
    ensures |r| == |rs| && forall i :: 0 <= i < |rs| ==> r[i] == rs[i].value
  {
    seq(|rs|, i requires 0 <= i < |rs| => rs[i].value)
  }

}
