/**
 * The IndexedDB demo page: opening 'test-db' at version 4 with an upgrade
 * callback whose switch over the old version falls through from case to
 * case, then a series of transactions on the 'keyval' and 'people' stores.
 */
module IdbTest {
  import opened Wrappers
  import opened Keys
  import opened ObjectStores
  import opened Indexes
  import opened Databases

  const TestDbVersion: nat := 4

  /** Case 0: the 'keyval' store with out-of-line keys, seeded with hello -> world. */
  function Step0(m: Stores): (r: Result<Stores, Error>)
    requires StoresValid(m)
    ensures r.Success? ==> StoresValid(r.value)
  {
    var m1 :- AddStore(m, "keyval", None);
    var (m2, _) :- PutIn(m1, "keyval", VStr("world"), Some(Str("hello")));
    Success(m2)
  }

  /** Case 1: the 'people' store, keyed by each person's name. */
  function Step1(m: Stores): (r: Result<Stores, Error>)
    requires StoresValid(m)
    ensures r.Success? ==> StoresValid(r.value)
  {
    AddStore(m, "people", Some("name"))
  }

  /** Case 2: the 'animal' index over favoriteAnimal. */
  function Step2(m: Stores): (r: Result<Stores, Error>)
    requires StoresValid(m)
    ensures r.Success? ==> StoresValid(r.value)
  {
    AddIndex(m, "people", "animal", "favoriteAnimal")
  }

  /** Case 3: the 'age' index over age. */
  function Step3(m: Stores): (r: Result<Stores, Error>)
    requires StoresValid(m)
    ensures r.Success? ==> StoresValid(r.value)
  {
    AddIndex(m, "people", "age", "age")
  }

  function Step(m: Stores, k: nat): (r: Result<Stores, Error>)
    requires StoresValid(m) && k < 4
    ensures r.Success? ==> StoresValid(r.value)
  {
    if k == 0 then Step0(m) else if k == 1 then Step1(m) else if k == 2 then Step2(m) else Step3(m)
  }

  /** Entering the switch at case k with no break: steps k, k + 1, ..., 3, stopping at the first error. */
  function FallThrough(m: Stores, k: nat): (r: Result<Stores, Error>)
    requires StoresValid(m) && k <= 4
    ensures r.Success? ==> StoresValid(r.value)
    decreases 4 - k
  {
    if k == 4 then Success(m)
    else
      var m' :- Step(m, k);
      FallThrough(m', k + 1)
  }

  /**
   * The upgrade callback as written. Entering at case 3 assigns peopleStore
   * before its `let` declaration in case 2 has run, which throws a
   * ReferenceError before any step is taken.
   */
  function Upgraded(m: Stores, oldVersion: nat): (r: Result<Stores, Error>)
    requires StoresValid(m) && oldVersion < TestDbVersion
    ensures oldVersion == 3 ==> r == Failure(ReferenceError)
    ensures oldVersion < 3 ==> r == FallThrough(m, oldVersion)
  {
    if oldVersion == 3 then Failure(ReferenceError) else FallThrough(m, oldVersion)
  }

  /** The upgrade callback with peopleStore declared where every case can use it. */
  function UpgradedIntended(m: Stores, oldVersion: nat): (r: Result<Stores, Error>)
    requires StoresValid(m) && oldVersion < TestDbVersion
    ensures r.Success? ==> StoresValid(r.value)
  {
    FallThrough(m, oldVersion)
  }

  /** The stores a database had after earlier upgrades to version v, starting from nothing. */
  function StepsUpTo(v: nat): (r: Result<Stores, Error>)
    requires v <= TestDbVersion
    ensures r.Success? ==> StoresValid(r.value)
  {
    if v == 0 then Success(map[])
    else
      var m :- StepsUpTo(v - 1);
      Step(m, v - 1)
  }

  /** The schema and seed data every successful upgrade path ends with. */
  const TestSchema: Stores := map[
    "keyval" := Store(None, map[], [Entry(Str("hello"), VStr("world"))]),
    "people" := Store(Some("name"), map["animal" := "favoriteAnimal", "age" := "age"], [])
  ]

  /** From an empty database, upgrading runs every case and builds TestSchema. */
  lemma UpgradeFromNothing()
    ensures Upgraded(map[], 0) == Success(TestSchema)
  {
    var m0 := map[];
    var m1 := AddStore(m0, "keyval", None).value;
    assert Put(m1["keyval"], VStr("world"), Some(Str("hello"))).value.0.records == [Entry(Str("hello"), VStr("world"))];
    var m2 := Step0(m0).value;
    assert m2 == map["keyval" := Store(None, map[], [Entry(Str("hello"), VStr("world"))])];
    var m3 := Step1(m2).value;
    var m4 := Step2(m3).value;
    var m5 := Step3(m4).value;
    assert m5 == TestSchema;
    assert FallThrough(m4, 3) == Success(m5);
    assert FallThrough(m3, 2) == Success(m5);
    assert FallThrough(m2, 1) == Success(m5);
  }

  /** Every case is one further step along the same chain. */
  lemma {:induction false} FallThroughChain(v: nat)
    requires v <= TestDbVersion
    requires StepsUpTo(v).Success?
    ensures FallThrough(StepsUpTo(v).value, v) == FallThrough(map[], 0)
  {
    if v > 0 {
      FallThroughChain(v - 1);
    }
  }

  /**
   * A database left at version 0, 1 or 2 by earlier upgrades reaches the
   * same stores as one created from nothing.
   */
  lemma UpgradePathsAgree(v: nat)
    requires v < 3
    ensures StepsUpTo(v).Success?
    ensures Upgraded(StepsUpTo(v).value, v) == Success(TestSchema)
  {
    UpgradeFromNothing();
    assert StepsUpTo(1) == Step0(map[]);
    FallThroughChain(v);
  }

  /** A database at version 3 cannot be opened: the as-written upgrade always throws. */
  lemma UpgradeFromThreeThrows()
    ensures StepsUpTo(3).Success?
    ensures Upgraded(StepsUpTo(3).value, 3) == Failure(ReferenceError)
  {
    UpgradeFromNothing();
    assert StepsUpTo(1) == Step0(map[]);
  }

  /** With peopleStore declared before the switch, version 3 upgrades like the others. */
  lemma IntendedUpgradePathsAgree(v: nat)
    requires v < TestDbVersion
    ensures StepsUpTo(v).Success?
    ensures UpgradedIntended(StepsUpTo(v).value, v) == Success(TestSchema)
  {
    UpgradeFromNothing();
    assert StepsUpTo(1) == Step0(map[]);
    FallThroughChain(v);
  }

  /** The hello -> world seed is written only when the switch is entered at case 0. */
  lemma SeedOnlyFromVersionZero(m: Stores, oldVersion: nat)
    requires StoresValid(m) && 0 < oldVersion < TestDbVersion
    requires Upgraded(m, oldVersion).Success?
    ensures "keyval" in m <==> "keyval" in Upgraded(m, oldVersion).value
    ensures "keyval" in m ==> Upgraded(m, oldVersion).value["keyval"] == m["keyval"]
  {
    if oldVersion == 1 {
      var m2 := Step1(m).value;
      var m3 := Step2(m2).value;
      assert FallThrough(m3, 3) == Step3(m3);
    } else {
      var m3 := Step2(m).value;
      assert FallThrough(m3, 3) == Step3(m3);
    }
  }

  /**
   * The upgrade callback run on the live database: the switch entered at
   * case oldVersion, each case falling into the next.
   */
  method UpgradeCallback(db: Database, oldVersion: nat) returns (r: Result<(), Error>)
    requires db.Valid() && db.version == TestDbVersion && oldVersion < TestDbVersion
    modifies db
    ensures db.Valid() && db.version == TestDbVersion
    ensures r.Success? == Upgraded(old(db.stores), oldVersion).Success?
    ensures r.Success? ==> db.stores == Upgraded(old(db.stores), oldVersion).value
    ensures r.Failure? ==> r.error == Upgraded(old(db.stores), oldVersion).error
  {
    ghost var m := db.stores;
    if oldVersion == 3 {
      return Failure(ReferenceError);
    }
    if oldVersion == 0 {
      r := db.CreateObjectStore("keyval", None);
      if r.Failure? {
        return;
      }
      var put := db.Put("keyval", VStr("world"), Some(Str("hello")));
      if put.Failure? {
        return Failure(put.error);
      }
      assert db.stores == Step0(m).value;
    }
    ghost var m1 := db.stores;
    assert FallThrough(m, oldVersion) == FallThrough(m1, if oldVersion == 0 then 1 else oldVersion);
    if oldVersion <= 1 {
      r := db.CreateObjectStore("people", Some("name"));
      if r.Failure? {
        return;
      }
    }
    ghost var m2 := db.stores;
    assert FallThrough(m1, if oldVersion <= 1 then 1 else oldVersion) == FallThrough(m2, if oldVersion <= 1 then 2 else oldVersion);
    if oldVersion <= 2 {
      r := db.CreateIndex("people", "animal", "favoriteAnimal");
      if r.Failure? {
        return;
      }
    }
    ghost var m3 := db.stores;
    assert FallThrough(m2, 2) == FallThrough(m3, 3);
    r := db.CreateIndex("people", "age", "age");
  }

  /**
   * idb.open('test-db', 4, upgrade): a database at a newer version cannot be
   * opened; one at an older version is upgraded, and if the callback throws
   * the versionchange transaction is aborted: the open fails with an
   * AbortError and the database keeps its old version and stores.
   */
  method OpenTestDb(db: Database) returns (r: Result<(), Error>)
    requires db.Valid()
    modifies db
    ensures db.Valid()
    ensures old(db.version) > TestDbVersion ==> r == Failure(VersionError)
    ensures old(db.version) >= TestDbVersion ==> db.version == old(db.version) && db.stores == old(db.stores)
    ensures old(db.version) < TestDbVersion ==> r.Success? == Upgraded(old(db.stores), old(db.version)).Success?
    ensures old(db.version) < TestDbVersion && r.Success? ==>
      db.version == TestDbVersion && db.stores == Upgraded(old(db.stores), old(db.version)).value
    ensures old(db.version) < TestDbVersion && r.Failure? ==>
      r == Failure(AbortError) && db.version == old(db.version) && db.stores == old(db.stores)
  {
    if db.version > TestDbVersion {
      return Failure(VersionError);
    }
    if db.version == TestDbVersion {
      return Success(());
    }
    var oldVersion := db.version;
    var saved := db.stores;
    db.version := TestDbVersion;
    var upgrade := UpgradeCallback(db, oldVersion);
    if upgrade.Failure? {
      db.version, db.stores := oldVersion, saved;
      return Failure(AbortError);
    }
    return Success(());
  }

  /** A record of the 'people' store. */
  function Person(name: string, age: int, favoriteAnimal: string): Value
  {
    VObj(map["name" := VStr(name), "age" := VNum(age), "favoriteAnimal" := VStr(favoriteAnimal)])
  }

  const Raul := Person("Raul Proenza", 32, "tiger")
  const Derlin := Person("Derlin Proenza", 38, "zebra")
  const Gabby := Person("Gabby Proenza", 9, "cat")
  const Luna := Person("Luna Proenza", 1, "leon")

  /** The stores and indexes the demo transactions use, as every successful upgrade leaves them. */
  predicate HasTestSchema(m: Stores)
  {
    && "keyval" in m && m["keyval"].keyPath == None
    && "people" in m && m["people"].keyPath == Some("name")
    && "animal" in m["people"].indexes && m["people"].indexes["animal"] == "favoriteAnimal"
    && "age" in m["people"].indexes && m["people"].indexes["age"] == "age"
  }

  /**
   * logPerson: log the cursor's record, then continue and call itself on the
   * next cursor, until the cursor is null. The result lists the records
   * logged, in order.
   */
  function LogPerson(l: seq<IndexEntry>, cursor: Option<nat>): (visited: seq<Value>)
    requires IndexSorted(l) && (cursor.Some? ==> cursor.value < |l|)
    ensures cursor.Some? ==> visited == EntryValues(l)[cursor.value..]
    ensures cursor.None? ==> visited == []
    decreases if cursor.Some? then |l| - cursor.value else 0
  {
    match cursor
    case None => []
    case Some(i) =>
      ContinueNext(l, i);
      [l[i].value] + LogPerson(l, Continue(l, i))
  }

  /** The walk started by openCursor() logs every record once, in the order getAll() returns them. */
  lemma CursorWalkIsGetAll(l: seq<IndexEntry>)
    requires IndexSorted(l)
    ensures LogPerson(l, OpenCursor(l)) == EntryValues(l)
  {
  }

  /** What the demo's reading transactions report. */
  datatype DemoLog = DemoLog(
    hello: Option<Value>,
    people: seq<Value>,
    byAnimal: seq<Value>,
    tigerLovers: seq<Value>,
    byAge: seq<Value>,
    cursorVisits: seq<Value>)

  /** The 'keyval' store after foo -> bar and favoriteAnimal -> leon are put into it. */
  function KeyvalAfter(m: Stores): (s: Store)
    requires StoresValid(m) && HasTestSchema(m)
    ensures s.Valid() && s.keyPath == m["keyval"].keyPath && s.indexes == m["keyval"].indexes
  {
    var rs := m["keyval"].records;
    m["keyval"].(records := Upsert(Upsert(rs, Str("foo"), VStr("bar")), Str("favoriteAnimal"), VStr("leon")))
  }

  /** The 'people' store after the four people are put into it, in source order. */
  function PeopleAfter(m: Stores): (s: Store)
    requires StoresValid(m) && HasTestSchema(m)
    ensures s.Valid() && s.keyPath == m["people"].keyPath && s.indexes == m["people"].indexes
  {
    var rs := m["people"].records;
    var rs1 := Upsert(rs, Str("Raul Proenza"), Raul);
    var rs2 := Upsert(rs1, Str("Derlin Proenza"), Derlin);
    var rs3 := Upsert(rs2, Str("Gabby Proenza"), Gabby);
    m["people"].(records := Upsert(rs3, Str("Luna Proenza"), Luna))
  }

  /** After the keyval puts, foo reads bar and favoriteAnimal reads leon; every other key is as before. */
  lemma KeyvalAfterLookup(m: Stores, k: Key)
    requires StoresValid(m) && HasTestSchema(m)
    ensures Lookup(KeyvalAfter(m).records, k) ==
      if k == Str("favoriteAnimal") then Some(VStr("leon"))
      else if k == Str("foo") then Some(VStr("bar"))
      else Lookup(m["keyval"].records, k)
  {
    var rs := m["keyval"].records;
    LookupUpsert(rs, Str("foo"), VStr("bar"), k);
    LookupUpsert(Upsert(rs, Str("foo"), VStr("bar")), Str("favoriteAnimal"), VStr("leon"), k);
  }

  /** After the people puts, each name reads its person (the last put wins); every other key is as before. */
  lemma PeopleAfterLookup(m: Stores, k: Key)
    requires StoresValid(m) && HasTestSchema(m)
    ensures Lookup(PeopleAfter(m).records, k) ==
      if k == Str("Luna Proenza") then Some(Luna)
      else if k == Str("Gabby Proenza") then Some(Gabby)
      else if k == Str("Derlin Proenza") then Some(Derlin)
      else if k == Str("Raul Proenza") then Some(Raul)
      else Lookup(m["people"].records, k)
  {
    var rs := m["people"].records;
    var rs1 := Upsert(rs, Str("Raul Proenza"), Raul);
    var rs2 := Upsert(rs1, Str("Derlin Proenza"), Derlin);
    var rs3 := Upsert(rs2, Str("Gabby Proenza"), Gabby);
    LookupUpsert(rs, Str("Raul Proenza"), Raul, k);
    LookupUpsert(rs1, Str("Derlin Proenza"), Derlin, k);
    LookupUpsert(rs2, Str("Gabby Proenza"), Gabby, k);
    LookupUpsert(rs3, Str("Luna Proenza"), Luna, k);
  }

  /** The two readwrite transactions on 'keyval': put foo -> bar, then favoriteAnimal -> leon. */
  method PutKeyval(db: Database)
    requires db.Valid() && db.version == TestDbVersion && HasTestSchema(db.stores)
    modifies db
    ensures db.Valid() && db.version == TestDbVersion && HasTestSchema(db.stores)
    ensures db.stores == old(db.stores)["keyval" := KeyvalAfter(old(db.stores))]
  {
    var _ := db.Put("keyval", VStr("bar"), Some(Str("foo")));
    var _ := db.Put("keyval", VStr("leon"), Some(Str("favoriteAnimal")));
  }

  /** One put into 'people': the record is upserted under its name. */
  method PutPerson(db: Database, p: Value, name: string)
    requires db.Valid() && db.version == TestDbVersion && HasTestSchema(db.stores)
    requires ExtractKey(p, "name") == Some(Str(name))
    modifies db
    ensures db.Valid() && db.version == TestDbVersion && HasTestSchema(db.stores)
    ensures db.stores == old(db.stores)["people" := old(db.stores)["people"].(records := Upsert(old(db.stores)["people"].records, Str(name), p))]
  {
    var _ := db.Put("people", p, None);
  }

  /** The readwrite transaction on 'people': four people, keyed by name. */
  method PutPeople(db: Database)
    requires db.Valid() && db.version == TestDbVersion && HasTestSchema(db.stores)
    modifies db
    ensures db.Valid() && db.version == TestDbVersion && HasTestSchema(db.stores)
    ensures db.stores == old(db.stores)["people" := PeopleAfter(old(db.stores))]
  {
    ghost var m := db.stores;
    ghost var rs := m["people"].records;
    PutPerson(db, Raul, "Raul Proenza");
    ghost var rs1 := Upsert(rs, Str("Raul Proenza"), Raul);
    assert db.stores == m["people" := m["people"].(records := rs1)];
    PutPerson(db, Derlin, "Derlin Proenza");
    ghost var rs2 := Upsert(rs1, Str("Derlin Proenza"), Derlin);
    assert db.stores == m["people" := m["people"].(records := rs2)];
    PutPerson(db, Gabby, "Gabby Proenza");
    ghost var rs3 := Upsert(rs2, Str("Gabby Proenza"), Gabby);
    assert db.stores == m["people" := m["people"].(records := rs3)];
    PutPerson(db, Luna, "Luna Proenza");
  }

  /**
   * The readonly transactions on 'people': the store's getAll(), the
   * animal index (all, and only 'tiger'), the age index, and the cursor
   * walk over the age index.
   */
  method ReadPeople(db: Database) returns (people: seq<Value>, byAnimal: seq<Value>, tigerLovers: seq<Value>, byAge: seq<Value>, cursorVisits: seq<Value>)
    requires db.Valid() && HasTestSchema(db.stores)
    ensures people == Values(db.stores["people"].records)
    ensures byAnimal == IndexGetAll(db.stores["people"], "animal", None).value
    ensures tigerLovers == IndexGetAll(db.stores["people"], "animal", Some(Str("tiger"))).value
    ensures byAge == IndexGetAll(db.stores["people"], "age", None).value
    ensures cursorVisits == byAge
  {
    var all := db.GetAll("people");
    var a := db.IndexGetAll("people", "animal", None);
    var t := db.IndexGetAll("people", "animal", Some(Str("tiger")));
    var g := db.IndexGetAll("people", "age", None);
    var ageIndex := IndexEntries(db.stores["people"], "age", None).value;
    CursorWalkIsGetAll(ageIndex);
    people, byAnimal, tigerLovers, byAge := all.value, a.value, t.value, g.value;
    cursorVisits := LogPerson(ageIndex, OpenCursor(ageIndex));
  }

  /**
   * The demo's transactions in the order they are created, each running to
   * completion before the next: read hello, the keyval puts, the people
   * puts, then the reads.
   */
  method RunDemo(db: Database) returns (log: DemoLog)
    requires db.Valid() && db.version == TestDbVersion && HasTestSchema(db.stores)
    modifies db
    ensures db.Valid() && HasTestSchema(db.stores)
    ensures db.stores.Keys == old(db.stores).Keys
    ensures forall n :: n in db.stores && n != "keyval" && n != "people" ==> db.stores[n] == old(db.stores)[n]
    ensures log.hello == Lookup(old(db.stores)["keyval"].records, Str("hello"))
    ensures db.stores["keyval"] == KeyvalAfter(old(db.stores))
    ensures db.stores["people"] == PeopleAfter(old(db.stores))
    ensures log.people == Values(db.stores["people"].records)
    ensures log.byAnimal == IndexGetAll(db.stores["people"], "animal", None).value
    ensures log.tigerLovers == IndexGetAll(db.stores["people"], "animal", Some(Str("tiger"))).value
    ensures log.byAge == IndexGetAll(db.stores["people"], "age", None).value
    ensures log.cursorVisits == log.byAge
  {
    var hello := db.Get("keyval", Str("hello"));
    ghost var m := db.stores;
    PutKeyval(db);
    PutPeople(db);
    var people, byAnimal, tigerLovers, byAge, visits := ReadPeople(db);
    log := DemoLog(hello.value, people, byAnimal, tigerLovers, byAge, visits);
  }

  const DerlinEntry := Entry(Str("Derlin Proenza"), Derlin)
  const GabbyEntry := Entry(Str("Gabby Proenza"), Gabby)
  const LunaEntry := Entry(Str("Luna Proenza"), Luna)
  const RaulEntry := Entry(Str("Raul Proenza"), Raul)

  /** On a fresh database the four puts leave the people store ordered by name. */
  lemma FreshPeopleRecords()
    ensures StoresValid(TestSchema) && HasTestSchema(TestSchema)
    ensures PeopleAfter(TestSchema).records == [DerlinEntry, GabbyEntry, LunaEntry, RaulEntry]
  {
    var d, g, l, r := DerlinEntry.key, GabbyEntry.key, LunaEntry.key, RaulEntry.key;
    assert Lt(d, r) && Lt(d, g) && Lt(g, r) && Lt(g, l) && Lt(l, r) && Lt(d, l);
    LtAsymmetric(d, g);
    LtAsymmetric(g, l);
    LtAsymmetric(d, l);
    var rs2 := Upsert([RaulEntry], d, Derlin);
    assert rs2 == [DerlinEntry, RaulEntry];
    assert Upsert([RaulEntry], g, Gabby) == [GabbyEntry, RaulEntry];
    var rs3 := Upsert(rs2, g, Gabby);
    assert rs3 == [DerlinEntry, GabbyEntry, RaulEntry];
    assert Upsert([RaulEntry], l, Luna) == [LunaEntry, RaulEntry];
    assert Upsert([GabbyEntry, RaulEntry], l, Luna) == [GabbyEntry, LunaEntry, RaulEntry];
  }

  /** The people store of a fresh database after the four puts: the Fresh lemmas below read it. */
  const FreshPeople := Store(Some("name"), map["animal" := "favoriteAnimal", "age" := "age"], [DerlinEntry, GabbyEntry, LunaEntry, RaulEntry])

  lemma FreshPeopleStore()
    ensures StoresValid(TestSchema) && HasTestSchema(TestSchema)
    ensures PeopleAfter(TestSchema) == FreshPeople && FreshPeople.Valid()
  {
    FreshPeopleRecords();
  }

  const AnimalD := IndexEntry(Str("zebra"), DerlinEntry.key, Derlin)
  const AnimalG := IndexEntry(Str("cat"), GabbyEntry.key, Gabby)
  const AnimalL := IndexEntry(Str("leon"), LunaEntry.key, Luna)
  const AnimalR := IndexEntry(Str("tiger"), RaulEntry.key, Raul)

  lemma FreshAnimalIndex1()
    ensures BuildIndex([RaulEntry], "favoriteAnimal") == [AnimalR]
  {
    assert [RaulEntry][1..] == [];
  }

  lemma FreshAnimalIndex2()
    ensures BuildIndex([LunaEntry, RaulEntry], "favoriteAnimal") == [AnimalL, AnimalR]
  {
    assert [LunaEntry, RaulEntry][1..] == [RaulEntry];
    FreshAnimalIndex1();
    InsertAtFront([AnimalR], AnimalL);
  }

  lemma FreshAnimalIndex3()
    ensures BuildIndex([GabbyEntry, LunaEntry, RaulEntry], "favoriteAnimal") == [AnimalG, AnimalL, AnimalR]
  {
    assert [GabbyEntry, LunaEntry, RaulEntry][1..] == [LunaEntry, RaulEntry];
    FreshAnimalIndex2();
    InsertAtFront([AnimalL, AnimalR], AnimalG);
  }

  /** Zebra sorts after cat, leon and tiger. */
  lemma FreshAnimalInsertZebra()
    ensures Insert([AnimalG, AnimalL, AnimalR], AnimalD) == [AnimalG, AnimalL, AnimalR, AnimalD]
  {
    var l := [AnimalG, AnimalL, AnimalR];
    assert l[1..] == [AnimalL, AnimalR] && l[2..] == [AnimalR] && l[3..] == [];
    InsertPastHead(l, AnimalD);
    InsertPastHead(l[1..], AnimalD);
    InsertPastHead(l[2..], AnimalD);
  }

  lemma FreshAnimalIndex4()
    ensures BuildIndex([DerlinEntry, GabbyEntry, LunaEntry, RaulEntry], "favoriteAnimal") == [AnimalG, AnimalL, AnimalR, AnimalD]
  {
    assert [DerlinEntry, GabbyEntry, LunaEntry, RaulEntry][1..] == [GabbyEntry, LunaEntry, RaulEntry];
    FreshAnimalIndex3();
    FreshAnimalInsertZebra();
  }

  lemma FreshTigerOnly()
    ensures Only([AnimalG, AnimalL, AnimalR, AnimalD], Str("tiger")) == [AnimalR]
  {
    var l := [AnimalG, AnimalL, AnimalR, AnimalD];
    assert l[1..] == [AnimalL, AnimalR, AnimalD] && l[2..] == [AnimalR, AnimalD] && l[3..] == [AnimalD];
    assert Only(l[3..], Str("tiger")) == [];
    assert Only(l[2..], Str("tiger")) == [AnimalR];
  }

  lemma FreshAnimalEntries()
    ensures FreshPeople.Valid()
    ensures IndexEntries(FreshPeople, "animal", None) == Success([AnimalG, AnimalL, AnimalR, AnimalD])
  {
    FreshPeopleStore();
    FreshAnimalIndex4();
  }

  /** On a fresh database the animal index lists cat, leon, tiger, zebra. */
  lemma FreshByAnimal()
    ensures FreshPeople.Valid()
    ensures IndexGetAll(FreshPeople, "animal", None) == Success([Gabby, Luna, Raul, Derlin])
  {
    FreshAnimalEntries();
    var l := [AnimalG, AnimalL, AnimalR, AnimalD];
    var v := EntryValues(l);
    assert v[0] == Gabby && v[1] == Luna && v[2] == Raul && v[3] == Derlin;
    assert v == [Gabby, Luna, Raul, Derlin];
  }

  /** On a fresh database getAll('tiger') on the animal index selects Raul alone. */
  lemma FreshTigerLovers()
    ensures FreshPeople.Valid()
    ensures IndexGetAll(FreshPeople, "animal", Some(Str("tiger"))) == Success([Raul])
  {
    FreshAnimalEntries();
    FreshTigerOnly();
    assert IndexEntries(FreshPeople, "animal", Some(Str("tiger"))) == Success(Only(IndexEntries(FreshPeople, "animal", None).value, Str("tiger")));
    var v := EntryValues([AnimalR]);
    assert v[0] == Raul;
    assert v == [Raul];
  }

  /** On a fresh database getAll() on the store lists the people by name. */
  lemma FreshByName()
    ensures Values(FreshPeople.records) == [Derlin, Gabby, Luna, Raul]
  {
  }

  const AgeD := IndexEntry(Num(38), DerlinEntry.key, Derlin)
  const AgeG := IndexEntry(Num(9), GabbyEntry.key, Gabby)
  const AgeL := IndexEntry(Num(1), LunaEntry.key, Luna)
  const AgeR := IndexEntry(Num(32), RaulEntry.key, Raul)

  lemma FreshAgeIndex1()
    ensures BuildIndex([RaulEntry], "age") == [AgeR]
  {
    assert [RaulEntry][1..] == [];
  }

  lemma FreshAgeIndex2()
    ensures BuildIndex([LunaEntry, RaulEntry], "age") == [AgeL, AgeR]
  {
    assert [LunaEntry, RaulEntry][1..] == [RaulEntry];
    FreshAgeIndex1();
    InsertAtFront([AgeR], AgeL);
  }

  /** Gabby (9) goes between Luna (1) and Raul (32). */
  lemma FreshAgeIndex3()
    ensures BuildIndex([GabbyEntry, LunaEntry, RaulEntry], "age") == [AgeL, AgeG, AgeR]
  {
    assert [GabbyEntry, LunaEntry, RaulEntry][1..] == [LunaEntry, RaulEntry];
    FreshAgeIndex2();
    var l := [AgeL, AgeR];
    assert l[1..] == [AgeR];
    InsertPastHead(l, AgeG);
    InsertAtFront(l[1..], AgeG);
  }

  /** Derlin (38) goes last. */
  lemma FreshAgeInsertDerlin()
    ensures Insert([AgeL, AgeG, AgeR], AgeD) == [AgeL, AgeG, AgeR, AgeD]
  {
    var l := [AgeL, AgeG, AgeR];
    assert l[1..] == [AgeG, AgeR] && l[2..] == [AgeR] && l[3..] == [];
    InsertPastHead(l, AgeD);
    InsertPastHead(l[1..], AgeD);
    InsertPastHead(l[2..], AgeD);
  }

  lemma FreshAgeIndex4()
    ensures BuildIndex([DerlinEntry, GabbyEntry, LunaEntry, RaulEntry], "age") == [AgeL, AgeG, AgeR, AgeD]
  {
    assert [DerlinEntry, GabbyEntry, LunaEntry, RaulEntry][1..] == [GabbyEntry, LunaEntry, RaulEntry];
    FreshAgeIndex3();
    FreshAgeInsertDerlin();
  }

  lemma FreshAgeEntries()
    ensures FreshPeople.Valid()
    ensures IndexEntries(FreshPeople, "age", None) == Success([AgeL, AgeG, AgeR, AgeD])
  {
    FreshPeopleStore();
    FreshAgeIndex4();
  }

  /** On a fresh database the age index lists Luna (1), Gabby (9), Raul (32), Derlin (38). */
  lemma FreshByAge()
    ensures FreshPeople.Valid()
    ensures IndexGetAll(FreshPeople, "age", None) == Success([Luna, Gabby, Raul, Derlin])
  {
    FreshAgeEntries();
    var v := EntryValues([AgeL, AgeG, AgeR, AgeD]);
    assert v[0] == Luna && v[1] == Gabby && v[2] == Raul && v[3] == Derlin;
    assert v == [Luna, Gabby, Raul, Derlin];
  }

}
