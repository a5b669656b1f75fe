# wittr client storage and fetch policy, in Dafny

This project models the logic of the wittr client that can be stated and proved. It covers three source files.

- **The page controller** (`public/js/main/IndexController.js`):
  - it opens the `wittr` IndexedDB database, whose `wittrs` store is keyed by `id` and has a `by-date` index on `time`;
  - it upserts each live-feed batch one `put` at a time;
  - it shows the cached messages newest first;
  - it builds the `since=` query that resumes the live feed;
  - it shows the lost-connection toast and schedules a reconnect after 5000 ms;
  - it routes service-worker updates to the "New version available" prompt, and it reloads at most once.
- **The service worker's fetch policy** (`public/js/sw/index.js`): non-GET requests pass through; a 404 is swapped for `/imgs/dr-evil.gif`; a failed fetch becomes the text response "Resource request failed".
- **The IndexedDB demo page** (`public/js/idb-test/index.js`): the version-4 upgrade callback, whose `switch` falls through from case to case, then the `keyval` and `people` transactions, the `animal` and `age` index queries and the recursive cursor walk.

IndexedDB itself is modelled abstractly, after sections 2.1, 2.2, 2.5 and 2.6 of the W3C Indexed Database API 2.0:

- An object store is a list of records strictly ordered by primary key. `Lookup` gives its map view.
- An index is derived from the records whenever it is read: one entry per record whose value yields a valid key at the index's key path, ordered by index key and then by primary key.
- A `Database` class holds the version and the named stores. Its methods change them in place, and each method's contract ties the new state to a pure function of the old one.

Modules, one per file:

| file | module | content |
|---|---|---|
| `wrappers.dfy` | `Wrappers` | `Option` and `Result` |
| `keys.dfy` | `Keys` | keys, values, key order, key extraction |
| `object_store.dfy` | `ObjectStores` | records, upsert, `put` |
| `index.dfy` | `Indexes` | index order, `getAll`, cursors |
| `database.dfy` | `Databases` | schema changes and the `Database` class |
| `decimal.dfy` | `Decimal` | decimal text of an integer and its parser |
| `index_controller.dfy` | `IndexController` | the page controller |
| `service_worker.dfy` | `ServiceWorker` | the fetch handler |
| `idb_test.dfy` | `IdbTest` | the demo page |

Ties in the `by-date` index are broken by primary key (the `id`).

## Model

| member | source | states |
|---|---|---|
| Keys.ExtractKey | public/js/main/IndexController.js:13-15 | a record yields a key at a key path exactly when it is an object whose property of that name is a number or a string, and the key stands for that property |
| Keys.LtTotal | public/js/idb-test/index.js:113 | key order is total: any two different keys are ordered one way or the other |
| Keys.LtTransitive | public/js/idb-test/index.js:113 | key order is transitive |
| Keys.LtAsymmetric | public/js/idb-test/index.js:113 | key order is asymmetric |
| ObjectStores.Lookup | public/js/idb-test/index.js:39 | a key reads a value exactly when a record holds it |
| ObjectStores.KeyFor | public/js/idb-test/index.js:48 | no contract of its own; the key rule it applies is stated by ObjectStores.Put |
| ObjectStores.Upsert | public/js/idb-test/index.js:48 | storing under a key keeps the records strictly ordered, adds exactly that key, and adds a record only when the key was new |
| ObjectStores.LookupUpsert | public/js/idb-test/index.js:45-58 | after a put the key reads back the new value, and a put on an existing key overwrites it; every other key is unchanged |
| ObjectStores.Put | public/js/idb-test/index.js:68-90 | put succeeds exactly when the key rule holds (in-line key path: no explicit key and the value has a valid key there; out-of-line: an explicit key); otherwise DataError; on success the key is the extracted or given key, it reads back the value, other keys are unchanged, and the schema is kept |
| ObjectStores.Values | public/js/idb-test/index.js:102 | getAll() on a store lists every stored value in primary-key order |
| Indexes.BuildIndex | public/js/main/IndexController.js:16 | the index is in strict index order and holds an entry exactly for each stored record whose value has a valid key at the index's key path |
| Indexes.Only | public/js/idb-test/index.js:124 | getAll(q) keeps index order and selects exactly the entries whose index key is q |
| Indexes.IndexEntries | public/js/idb-test/index.js:111-113 | reading an index the store lacks is a NotFoundError; otherwise the entries are in index order and are exactly the indexed records matching the query |
| Indexes.IndexGetAll | public/js/idb-test/index.js:119-124 | index getAll() fails exactly when the index is missing and otherwise gives the values of the index entries in index order |
| Indexes.SortedUnique | public/js/idb-test/index.js:113 | two lists in strict index order with the same entries are equal, so getAll's order is fully determined by the records |
| Indexes.OpenCursor | public/js/idb-test/index.js:146 | openCursor() gives a cursor exactly when the index is not empty, and it is on the first entry |
| Indexes.Continue | public/js/idb-test/index.js:155 | no contract of its own; stated by Indexes.ContinueNext |
| Indexes.FirstAfter | public/js/idb-test/index.js:155 | the position found is after the cursor's position in index order and no earlier position is |
| Indexes.ContinueNext | public/js/idb-test/index.js:155 | in an index in strict order, continue() moves the cursor to the next entry, or to null after the last |
| Databases.AddStore | public/js/idb-test/index.js:22 | createObjectStore fails exactly when the name exists; otherwise it adds exactly that store, empty, with the given key path and no indexes |
| Databases.AddIndex | public/js/idb-test/index.js:28 | createIndex is a NotFoundError without the store and a ConstraintError when the index exists; otherwise only that store's indexes change, by the new one |
| Databases.PutIn | public/js/idb-test/index.js:23 | put on a missing store is a NotFoundError; otherwise it is Put on that store and no other store changes |
| Databases.Database.constructor | public/js/idb-test/index.js:19 | a database never opened has version 0 and no stores |
| Databases.Database.CreateObjectStore | public/js/main/IndexController.js:13-15 | the database's stores become AddStore's result, or stay the same with a ConstraintError |
| Databases.Database.CreateIndex | public/js/main/IndexController.js:16 | the database's stores become AddIndex's result, or stay the same with its error |
| Databases.Database.Put | public/js/main/IndexController.js:165 | the database's stores become PutIn's result, or stay the same with its error |
| Databases.Database.Get | public/js/idb-test/index.js:39 | get() fails exactly when the store is missing and otherwise reads the value under the key |
| Databases.Database.GetAll | public/js/idb-test/index.js:102 | getAll() fails exactly when the store is missing and otherwise lists its values by primary key |
| Databases.Database.IndexGetAll | public/js/idb-test/index.js:113 | index getAll() on the database fails exactly when the store or the index is missing, and otherwise is the store's index read |
| Decimal.NumberToString | public/js/main/IndexController.js:120 | no contract of its own; stated by Decimal.ParseNumberToString and NumberToStringChars |
| Decimal.ParseNumberToString | public/js/main/IndexController.js:120 | the decimal text of a date's millisecond value parses back to that value |
| Decimal.NumberToStringChars | public/js/main/IndexController.js:120 | the decimal text holds only digits and a minus sign, so it never contains '&' |
| IndexController.WittrUpgraded | public/js/main/IndexController.js:12-17 | a successful upgrade keeps every store valid |
| IndexController.WittrUpgradeFromNothing | public/js/main/IndexController.js:12-17 | a new database gets exactly the empty wittrs store keyed by id with the by-date index on time |
| IndexController.OpenDatabase | public/js/main/IndexController.js:5-18 | without service-worker support there is no database and the disk is untouched; otherwise the database is at version 1 with the wittrs schema, built by the upgrade when it was new and unchanged when it existed |
| IndexController.PutBatch | public/js/main/IndexController.js:164-166 | a batch keeps the store ordered, its key path and its indexes |
| IndexController.LastWithId | public/js/main/IndexController.js:164-166 | the position found is a message with that id and no later message has it; none is found exactly when no message has it |
| IndexController.BatchLastWriteWins | public/js/main/IndexController.js:164-166 | after a batch each id reads the last message of the batch with that id; ids not in the batch read what they did before |
| IndexController.PutBatchSnoc | public/js/main/IndexController.js:164-166 | one more message in the batch is one more put, or nothing when that put is rejected |
| IndexController.PutMessages | public/js/main/IndexController.js:159-167 | the feed store becomes PutBatch of the messages and no other store changes |
| IndexController.Reverse | public/js/main/IndexController.js:85 | reverse keeps the length and puts element i at position length - 1 - i |
| IndexController.NewestFirst | public/js/main/IndexController.js:81-85 | the reversed by-date read is in strictly descending (time, id) order and holds exactly the stored messages that have a valid time |
| IndexController.CachedMessages | public/js/main/IndexController.js:75-87 | nothing is shown exactly when there is no database or posts are already showing; otherwise the stored messages are shown newest first |
| IndexController.ReverseSameElements | public/js/main/IndexController.js:85 | reversing keeps exactly the same elements |
| IndexController.FirstParam | public/js/main/IndexController.js:119-125 | the first parameter of a query is its longest prefix without '&' |
| IndexController.FirstParamOf | public/js/main/IndexController.js:119-125 | a prefix without '&' followed by '&' is the query's first parameter |
| IndexController.ResumeQueryRoundTrip | public/js/main/IndexController.js:119-125 | the /updates query's first parameter reads back the latest post date (none without one), and the rest is the page's own query |
| IndexController.ResumeWithDate | public/js/main/IndexController.js:119-125 | with a latest date d the query's first parameter reads back d and the rest is the page's query |
| IndexController.CountClosed | public/js/main/IndexController.js:142-152 | the number of closes is zero exactly when the socket never closed |
| IndexController.RunFacts | public/js/main/IndexController.js:130-152 | over any run of open and close events the toast is created at most once and stays once created, and each close schedules one reconnect 5000 ms later |
| IndexController.ToastCreatedAtMostOnce | public/js/main/IndexController.js:142-152 | from the start, one toast is created exactly when the socket has closed, and one reconnect 5000 ms later is scheduled per close |
| IndexController.OpenHidesToast | public/js/main/IndexController.js:130-134 | once a toast exists, a run that ends with open leaves it hidden |
| IndexController.SecondOutageShowsNoToast | public/js/main/IndexController.js:130-152 | after close, open and close again the one toast stays hidden while two reconnects are scheduled |
| IndexController.ReloadAtMostOnce | public/js/main/IndexController.js:61-66 | over any number of controllerchange events the page reloads at most once, and once exactly when there was one |
| IndexController.OnRegistered | public/js/main/IndexController.js:39-56 | nothing is done exactly when the page is not controlled; a waiting worker is prompted for; otherwise an installing worker is tracked; otherwise updatefound is awaited exactly when there is neither |
| IndexController.ReadyOnStateChange | public/js/main/IndexController.js:92-95 | no contract of its own; stated by IndexController.ReadyPrompts |
| IndexController.ReadyPrompts | public/js/main/IndexController.js:90-97 | a tracked worker gets one toast, about itself, for each time it reports 'installed' |
| IndexController.ReadyPromptsMembers | public/js/main/IndexController.js:90-97 | a tracked worker gets a toast exactly when it reports 'installed' |
| IndexController.FoundPrompts | public/js/main/IndexController.js:54-56 | every worker found by any updatefound event, not only the first, gets a toast exactly when it reports 'installed' |
| IndexController.SkipWaitingTo | public/js/main/IndexController.js:99-107 | a worker is told to skipWaiting exactly when one of its toasts was answered 'refresh', and at most once per toast |
| IndexController.UpdateFlow | public/js/main/IndexController.js:39-107 | no toast on an uncontrolled page; a waiting worker gives exactly one toast and later updatefound events are ignored; else the installing worker is tracked and later updatefound events are ignored; else every found worker that reaches 'installed' gets a toast; with a waiting worker, skipWaiting is sent exactly when the toast is answered 'refresh' |
| IndexController.UpdatePrompts | public/js/main/IndexController.js:39-56 | no contract of its own; stated by IndexController.UpdateFlow |
| IndexController.OnOpen | public/js/main/IndexController.js:130-134 | open schedules no reconnect, creates no toast, and leaves a toast hidden if there was one |
| IndexController.OnClose | public/js/main/IndexController.js:142-152 | after a close there is a toast, one is created only if there was none, and one reconnect 5000 ms later is scheduled |
| IndexController.Step | public/js/main/IndexController.js:130-152 | no contract of its own; one socket event is OnOpen or OnClose |
| IndexController.Run | public/js/main/IndexController.js:130-152 | no contract of its own; stated by IndexController.RunFacts, ToastCreatedAtMostOnce and OpenHidesToast |
| IndexController.ControllerChanged | public/js/main/IndexController.js:62-66 | after a controllerchange the flag is set, and a reload is asked for exactly when it was not set before |
| IndexController.ControllerChanges | public/js/main/IndexController.js:62-66 | no contract of its own; stated by IndexController.ReloadAtMostOnce |
| IndexController.PageQuery | public/js/main/IndexController.js:125 | no contract of its own; stated by IndexController.ResumeQueryRoundTrip |
| IndexController.ResumeQuery | public/js/main/IndexController.js:119-125 | no contract of its own; stated by IndexController.ResumeQueryRoundTrip and ResumeWithDate |
| IndexController.Controller.constructor | public/js/main/IndexController.js:20-26 | the controller has a database exactly when service workers are supported, no posts, no toast and no reload |
| IndexController.Controller.Feed | public/js/main/IndexController.js:81-82 | the feed store exists exactly when there is a database, and it has the wittrs schema |
| IndexController.Controller.ShowCachedMessages | public/js/main/IndexController.js:72-88 | the posts view receives the cached messages when there are any to show |
| IndexController.Controller.OnSocketMessage | public/js/main/IndexController.js:156-170 | the posts view receives the batch; with a database the feed store becomes PutBatch of it; without one nothing else changes |
| IndexController.Controller.OnSocketOpen | public/js/main/IndexController.js:130-134 | the connection state takes the open step |
| IndexController.Controller.OnSocketClose | public/js/main/IndexController.js:142-152 | the connection state takes the close step |
| IndexController.Controller.OnControllerChange | public/js/main/IndexController.js:62-66 | the reload state takes the controllerchange step and never counts more than one reload |
| ServiceWorker.OnFetch | public/js/sw/index.js:1-17 | no contract of its own; stated by the five ServiceWorker lemmas below |
| ServiceWorker.InterceptsExactlyGet | public/js/sw/index.js:4-6 | only GET requests are answered, and every GET gets a response |
| ServiceWorker.PassesOnNon404 | public/js/sw/index.js:7-11 | a response whose status is not 404 is passed on unchanged after one fetch |
| ServiceWorker.Replaces404 | public/js/sw/index.js:8-9 | a 404 is answered with the fallback image's fetch result, or with the synthetic response when that fetch rejects |
| ServiceWorker.RejectionBecomesSynthetic | public/js/sw/index.js:12-15 | a rejected fetch is answered with "Resource request failed" |
| ServiceWorker.FetchesAndResponses | public/js/sw/index.js:6-16 | a GET makes one fetch, plus the fallback fetch exactly on a 404; the response is a network answer or the synthetic one |
| IdbTest.Step0 | public/js/idb-test/index.js:21-23 | case 0 keeps the stores valid |
| IdbTest.Step1 | public/js/idb-test/index.js:24-25 | case 1 keeps the stores valid |
| IdbTest.Step2 | public/js/idb-test/index.js:26-28 | case 2 keeps the stores valid |
| IdbTest.Step3 | public/js/idb-test/index.js:29-31 | case 3 keeps the stores valid |
| IdbTest.Step | public/js/idb-test/index.js:20-32 | the case entered at each version keeps the stores valid |
| IdbTest.FallThrough | public/js/idb-test/index.js:20-32 | entering the switch at any case keeps the stores valid |
| IdbTest.Upgraded | public/js/idb-test/index.js:26-31 | as written, the upgrade from version 3 throws a ReferenceError, and from 0, 1 or 2 it runs every case from there to case 3 |
| IdbTest.UpgradedIntended | public/js/idb-test/index.js:20-32 | the corrected upgrade keeps the stores valid |
| IdbTest.StepsUpTo | public/js/idb-test/index.js:19-32 | the schema history up to any version is valid |
| IdbTest.UpgradeFromNothing | public/js/idb-test/index.js:19-32 | from nothing the upgrade builds keyval (seeded hello -> world) and people keyed by name with the animal and age indexes |
| IdbTest.FallThroughChain | public/js/idb-test/index.js:20-32 | entering at case v after the history up to v ends where entering at case 0 from nothing does |
| IdbTest.UpgradePathsAgree | public/js/idb-test/index.js:20-32 | databases left at version 0, 1 or 2 upgrade to the same schema |
| IdbTest.UpgradeFromThreeThrows | public/js/idb-test/index.js:26-31 | a database at version 3 always fails to upgrade with a ReferenceError |
| IdbTest.IntendedUpgradePathsAgree | public/js/idb-test/index.js:20-32 | with the corrected upgrade every version from 0 to 3 reaches the same schema |
| IdbTest.SeedOnlyFromVersionZero | public/js/idb-test/index.js:21-23 | an upgrade entered after case 0 leaves keyval, and so the hello seed, as it was |
| IdbTest.UpgradeCallback | public/js/idb-test/index.js:19-33 | the callback on the live database has exactly the outcome and stores of Upgraded |
| IdbTest.OpenTestDb | public/js/idb-test/index.js:19 | a newer database is a VersionError, one at version 4 is untouched, an older one is upgraded to version 4 exactly when the upgrade callback succeeds; when the callback throws, the open fails with an AbortError and version and stores are as they were |
| IdbTest.LogPerson | public/js/idb-test/index.js:147-155 | the walk from a cursor position logs the values from there to the end, in index order, and nothing from a null cursor |
| IdbTest.CursorWalkIsGetAll | public/js/idb-test/index.js:141-161 | the walk from openCursor() logs every record once, in the order of getAll() |
| IdbTest.KeyvalAfter | public/js/idb-test/index.js:45-58 | the keyval puts keep the store valid and its schema |
| IdbTest.PeopleAfter | public/js/idb-test/index.js:64-92 | the people puts keep the store valid and its schema |
| IdbTest.KeyvalAfterLookup | public/js/idb-test/index.js:45-58 | afterwards foo reads bar and favoriteAnimal reads leon; other keys are unchanged |
| IdbTest.PeopleAfterLookup | public/js/idb-test/index.js:64-92 | afterwards each of the four names reads its person; other names are unchanged |
| IdbTest.PutKeyval | public/js/idb-test/index.js:45-61 | the keyval store becomes KeyvalAfter and nothing else changes |
| IdbTest.PutPerson | public/js/idb-test/index.js:68-72 | one person is upserted under their name in people and nothing else changes |
| IdbTest.PutPeople | public/js/idb-test/index.js:64-95 | the people store becomes PeopleAfter and nothing else changes |
| IdbTest.ReadPeople | public/js/idb-test/index.js:98-162 | the reads give the store's getAll(), the animal index (all, and 'tiger' only), the age index, and a cursor walk equal to the age index read |
| IdbTest.RunDemo | public/js/idb-test/index.js:36-162 | the demo reads hello, leaves keyval and people as the puts make them and every other store untouched, and logs the reads of the final stores |
| IdbTest.FreshPeopleRecords | public/js/idb-test/index.js:64-92 | on a new database the four distinct names give four records, ordered by name |
| IdbTest.FreshPeopleStore | public/js/idb-test/index.js:64-92 | on a new database the people store after the four puts is exactly FreshPeople: the four people ordered by name, with the animal and age indexes |
| IdbTest.FreshByName | public/js/idb-test/index.js:98-105 | on FreshPeople, getAll() gives Derlin, Gabby, Luna, Raul |
| IdbTest.FreshByAnimal | public/js/idb-test/index.js:108-116 | on FreshPeople, the animal index gives cat, leon, tiger, zebra: Gabby, Luna, Raul, Derlin |
| IdbTest.FreshTigerLovers | public/js/idb-test/index.js:119-127 | on FreshPeople, getAll('tiger') gives Raul alone |
| IdbTest.FreshByAge | public/js/idb-test/index.js:130-138 | on FreshPeople, the age index gives Luna (1), Gabby (9), Raul (32), Derlin (38) |

## Left out

- Rendering: `PostsView`, `ToastsView`, the DOM and `requestAnimationFrame` are not modelled. `addPosts` is a list of the batches handed to it. The toast is a three-state value: none, showing, hidden.
- Transport: the WebSocket and `JSON.parse` are not modelled. A batch arrives as an already-parsed sequence of values.
- Reconnect timer: `setTimeout(…, 5000)` is recorded as the delay of each scheduled reconnect; the timer never fires in the model. A reconnected socket's events continue the same run of open and close events.
- Browser APIs: `navigator.serviceWorker.register`, `postMessage` and `console` logging are not modelled. Service-worker support is a boolean. The registration and the workers are values. A skipWaiting message is the worker it is sent to.
- `getLatestPostDate` belongs to the posts view. The resume query takes the latest date as an optional millisecond count.
- `IndexController.OpenDatabase` requires the database on disk to be at version 1 or older. Opening a newer `wittr` database would be a VersionError, which is not modelled.
- Promise scheduling: callbacks on `_dbPromise` and `dbPromise` run as sequential steps. The demo's transactions are taken to run one after another in the order they are created. Concurrent interleavings of the transactions are not modelled.
- The `idb` library is not part of this model, and neither are transaction durability or `tx.complete`.
  - Following the library's promise wrapper, a `put` whose key cannot be found becomes a rejected promise, not an exception. So `IndexController.PutBatch` skips that message and goes on with the batch.
- `IdbTest.UpgradeCallback` models a rejected `put` inside the upgrade as a failure. That put always has an explicit key on a fresh out-of-line store, so this case cannot happen.
- Keys and values:
  - Keys are numbers or strings. Dates and arrays are not keys here.
  - Numbers are integers.
  - Strings compare character by character, where IndexedDB compares UTF-16 code units.
  - Key paths are single property names.
- `IdbTest.Step`, `IdbTest.Step0`, `IdbTest.Step1`, `IdbTest.Step2`, `IdbTest.Step3`, `IdbTest.FallThrough`, `IdbTest.StepsUpTo`, `IdbTest.UpgradedIntended`, `IndexController.WittrUpgraded`: their own contracts only state that the stores stay valid. Their results are pinned down by `IdbTest.UpgradeFromNothing`, `IdbTest.UpgradePathsAgree`, `IdbTest.IntendedUpgradePathsAgree` and `IndexController.WittrUpgradeFromNothing`.
- `IdbTest.KeyvalAfter`, `IdbTest.PeopleAfter`: their contracts only keep the store valid. Their contents are stated by `IdbTest.KeyvalAfterLookup` and `IdbTest.PeopleAfterLookup`.
- `IndexController.PutBatch`: its own contract states validity and schema. Its contents are stated by `IndexController.BatchLastWriteWins`.
- An updatefound event is taken to find a worker installing. The TypeError that `_onSwInstallingHandler(null)` would throw is not modelled.
- A worker's statechange events are given as the list of states it reports. Toasts for different workers are listed worker by worker, not interleaved in time.
- Functions without a contract of their own: `ServiceWorker.OnFetch`, `IndexController.Step`, `IndexController.Run`, `IndexController.ReadyOnStateChange`, `IndexController.ControllerChanges`, `IndexController.UpdatePrompts`, `IndexController.PageQuery`, `IndexController.ResumeQuery`, `Decimal.NumberToString`, `ObjectStores.KeyFor`, `Indexes.Continue`. The lemmas named in their "## Model" rows state their behaviour.

## Findings

| source | as written | input that shows it | evidently intended | confidence | as-written member | corrected member |
|---|---|---|---|---|---|---|
| public/js/idb-test/index.js:26-31 | `peopleStore` is declared with `let` inside case 2. Entering the switch at case 3 assigns it before that declaration has run, which throws a ReferenceError (temporal dead zone); the versionchange transaction aborts and the open fails with an AbortError | a `test-db` database left at version 3, opened at version 4 | case 3 adds the `age` index to `people`, as it does when entered from cases 0 to 2 | medium, not executed; a build step that rewrites `let` to `var` would hide the error | IdbTest.UpgradeFromThreeThrows | IdbTest.IntendedUpgradePathsAgree |
