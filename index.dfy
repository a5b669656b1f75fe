/**
 * An index as defined in section 2.6 of the W3C Indexed Database API 2.0:
 * for every record of its store whose value yields a valid key at the
 * index's key path, one entry (index key, primary key, value), ordered by
 * index key with ties broken by primary key. The index is derived from the
 * records, so it always agrees with the store.
 */
module Indexes {
  import opened Wrappers
  import opened Keys
  import opened ObjectStores

  datatype IndexEntry = IndexEntry(indexKey: Key, primaryKey: Key, value: Value)

  /** Index order: by index key, then by primary key. */
  predicate Before(a: IndexEntry, b: IndexEntry)
  {
    Lt(a.indexKey, b.indexKey) || (a.indexKey == b.indexKey && Lt(a.primaryKey, b.primaryKey))
  }

  lemma BeforeIrreflexive(a: IndexEntry)
    ensures !Before(a, a)
  {
    LtIrreflexive(a.indexKey);
    LtIrreflexive(a.primaryKey);
  }

  lemma BeforeAsymmetric(a: IndexEntry, b: IndexEntry)
    requires Before(a, b)
    ensures !Before(b, a)
  {
    if Lt(a.indexKey, b.indexKey) {
      LtAsymmetric(a.indexKey, b.indexKey);
      LtIrreflexive(a.indexKey);
    } else {
      LtAsymmetric(a.primaryKey, b.primaryKey);
    }
  }

  lemma BeforeTransitive(a: IndexEntry, b: IndexEntry, c: IndexEntry)
    requires Before(a, b) && Before(b, c)
    ensures Before(a, c)
  {
    if Lt(a.indexKey, b.indexKey) && Lt(b.indexKey, c.indexKey) {
      LtTransitive(a.indexKey, b.indexKey, c.indexKey);
    } else if a.indexKey == b.indexKey && b.indexKey == c.indexKey {
      LtTransitive(a.primaryKey, b.primaryKey, c.primaryKey);
    }
  }

  lemma BeforeTotal(a: IndexEntry, b: IndexEntry)
    requires a.primaryKey != b.primaryKey
    ensures Before(a, b) || Before(b, a)
  {
    LtTotal(a.primaryKey, b.primaryKey);
    if a.indexKey != b.indexKey {
      LtTotal(a.indexKey, b.indexKey);
    }
  }

  predicate IndexSorted(l: seq<IndexEntry>)
  {
    forall i, j :: 0 <= i < j < |l| ==> Before(l[i], l[j])
  }

  /** Inserting one entry at its place in index order. */
  function Insert(l: seq<IndexEntry>, e: IndexEntry): (r: seq<IndexEntry>)
    requires IndexSorted(l)
    requires forall x :: x in l ==> x.primaryKey != e.primaryKey
    ensures IndexSorted(r)
    ensures forall x :: x in r <==> x in l || x == e
    ensures |r| == |l| + 1
  {
    if l == [] then [e]
    else if Before(e, l[0]) then
      var r := [e] + l;
      forall j | 0 < j < |r| ensures Before(e, r[j]) {
        if j > 1 { BeforeTransitive(e, l[0], l[j - 1]); }
      }
      r
    else
      BeforeTotal(e, l[0]);
      var t := Insert(l[1..], e);
      var r := [l[0]] + t;
      forall j | 0 <= j < |t| ensures Before(l[0], t[j]) {
        assert t[j] in t;
      }
      r
  }

  /** An entry before the head of the index goes first. */
  lemma InsertAtFront(l: seq<IndexEntry>, e: IndexEntry)
    requires IndexSorted(l) && l != []
    requires forall x :: x in l ==> x.primaryKey != e.primaryKey
    requires Before(e, l[0])
    ensures Insert(l, e) == [e] + l
  {
  }

  /** An entry after the head of the index goes into the rest of it. */
  lemma InsertPastHead(l: seq<IndexEntry>, e: IndexEntry)
    requires IndexSorted(l) && l != []
    requires forall x :: x in l ==> x.primaryKey != e.primaryKey
    requires Before(l[0], e)
    ensures Insert(l, e) == [l[0]] + Insert(l[1..], e)
  {
    BeforeAsymmetric(l[0], e);
  }

  /** The index over the records rs with the given key path. */
  function BuildIndex(rs: seq<Entry>, path: string): (l: seq<IndexEntry>)
    requires Sorted(rs)
    ensures IndexSorted(l)
    ensures forall x :: x in l ==> x.primaryKey in KeysOf(rs)
    ensures forall x :: x in l <==> Lookup(rs, x.primaryKey) == Some(x.value) && ExtractKey(x.value, path) == Some(x.indexKey)
  {
    if rs == [] then []
    else
      var t := BuildIndex(rs[1..], path);
      BelowAllNotIn(rs[1..], rs[0].key);
      match ExtractKey(rs[0].value, path)
      case None => t
      case Some(ik) => Insert(t, IndexEntry(ik, rs[0].key, rs[0].value))
  }

  /** The entries of a key range that holds the single key q: those whose index key is q. */
  function Only(l: seq<IndexEntry>, q: Key): (r: seq<IndexEntry>)
    requires IndexSorted(l)
    ensures IndexSorted(r)
    ensures forall x :: x in r <==> x in l && x.indexKey == q
  {
    if l == [] then []
    else
      var t := Only(l[1..], q);
      if l[0].indexKey == q then
        forall j | 0 <= j < |t| ensures Before(l[0], t[j]) {
          assert t[j] in l[1..];
        }
        [l[0]] + t
      else t
  }

  /** The values of a list of index entries, in order. */
  function EntryValues(l: seq<IndexEntry>): (r: seq<Value>)
    ensures |r| == |l| && forall i :: 0 <= i < |l| ==> r[i] == l[i].value
  {
    seq(|l|, i requires 0 <= i < |l| => l[i].value)
  }

  /**
   * The entries that index.getAll(query) returns: all of them when no query
   * is given, otherwise those whose index key equals the query key. Asking
   * for an index the store does not have is a NotFoundError.
   */
  function IndexEntries(s: Store, name: string, query: Option<Key>): (r: Result<seq<IndexEntry>, Error>)
    requires s.Valid()
    ensures r.Failure? <==> name !in s.indexes
    ensures r.Failure? ==> r.error == NotFoundError
    ensures r.Success? ==> IndexSorted(r.value)
    ensures r.Success? ==> forall x :: x in r.value <==>
      && Lookup(s.records, x.primaryKey) == Some(x.value)
      && ExtractKey(x.value, s.indexes[name]) == Some(x.indexKey)
      && (query.Some? ==> x.indexKey == query.value)
  {
    if name !in s.indexes then Failure(NotFoundError)
    else
      var l := BuildIndex(s.records, s.indexes[name]);
      match query
      case None => Success(l)
      case Some(q) => Success(Only(l, q))
  }

  /** index.getAll(query): the values of IndexEntries, in index order. */
  function IndexGetAll(s: Store, name: string, query: Option<Key>): (r: Result<seq<Value>, Error>)
    requires s.Valid()
    ensures r.Failure? <==> name !in s.indexes
    ensures r.Success? ==> r.value == EntryValues(IndexEntries(s, name, query).value)
  {
    var l :- IndexEntries(s, name, query);
    Success(EntryValues(l))
  }

  lemma HeadIn<T>(s: seq<T>)
    ensures s != [] ==> s[0] in s
  {
  }

  /**
   * Two lists in strict index order with the same entries are the same list:
   * the order getAll returns is fully determined by the records.
   */
  lemma {:induction false} SortedUnique(a: seq<IndexEntry>, b: seq<IndexEntry>)
    requires IndexSorted(a) && IndexSorted(b)
    requires forall x :: x in a <==> x in b
    ensures a == b
  {
    if a != [] {
      assert a[0] in b && b[0] in a;
      if Before(a[0], b[0]) {
        BeforeAsymmetric(a[0], b[0]);
      }
      assert a[0] == b[0];
      assert a == [a[0]] + a[1..] && b == [b[0]] + b[1..];
      forall x | x in a[1..] ensures x in b[1..] {
        var i :| 0 <= i < |a[1..]| && a[1..][i] == x;
        assert Before(a[0], a[i + 1]);
        BeforeIrreflexive(x);
        assert x in a;
        var j :| 0 <= j < |b| && b[j] == x;
        assert b[1..][j - 1] == x;
      }
      forall x | x in b[1..] ensures x in a[1..] {
        var j :| 0 <= j < |b[1..]| && b[1..][j] == x;
        assert Before(b[0], b[j + 1]);
        BeforeIrreflexive(x);
        assert x in b;
        var i :| 0 <= i < |a| && a[i] == x;
        assert a[1..][i - 1] == x;
      }
      SortedUnique(a[1..], b[1..]);
    } else {
      HeadIn(b);
    }
  }

  /** openCursor() with no range: a cursor on the first entry, or null for an empty index. */
  function OpenCursor(l: seq<IndexEntry>): (r: Option<nat>)
    ensures r.Some? <==> l != []
    ensures r.Some? ==> r.value == 0 && r.value < |l|
  {
    if l == [] then None else Some(0)
  }

  /** The first entry at or after position `from` that comes after e in index order. */
  function FirstAfter(l: seq<IndexEntry>, e: IndexEntry, from: nat): (r: Option<nat>)
    requires from <= |l|
    ensures r.Some? ==> from <= r.value < |l| && Before(e, l[r.value])
    ensures forall k :: from <= k < (if r.Some? then r.value else |l|) ==> !Before(e, l[k])
    decreases |l| - from
  {
    if from == |l| then None
    else if Before(e, l[from]) then Some(from)
    else FirstAfter(l, e, from + 1)
  }

  /**
   * cursor.continue(): the cursor moves to the first entry of the index that
   * comes after its current position (index key, primary key), or becomes
   * null when there is none.
   */
  function Continue(l: seq<IndexEntry>, i: nat): Option<nat>
    requires i < |l|
  {
    FirstAfter(l, l[i], 0)
  }

  /** In an index in strict order, continue() steps to the next entry. */
  lemma ContinueNext(l: seq<IndexEntry>, i: nat)
    requires IndexSorted(l) && i < |l|
    ensures Continue(l, i) == if i + 1 < |l| then Some(i + 1) else None
  {
    var r := Continue(l, i);
    forall k | 0 <= k <= i ensures !Before(l[i], l[k]) {
      if k < i { BeforeAsymmetric(l[k], l[i]); } else { BeforeIrreflexive(l[i]); }
    }
    if i + 1 < |l| {
      assert Before(l[i], l[i + 1]);
    }
  }

}
