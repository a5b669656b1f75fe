/**
 * The page controller of the feed: the 'wittr' database of messages, the
 * cached view shown before the live feed connects, the query that resumes
 * the live feed, the lost-connection toast and reconnect rule, the routing
 * of service-worker updates and the reload-once rule.
 */
module IndexController {
  import opened Wrappers
  import opened Keys
  import opened ObjectStores
  import opened Indexes
  import opened Databases
  import opened Decimal

  const WittrVersion: nat := 1
  const FeedStore := "wittrs"
  const DateIndex := "by-date"
  const IdPath := "id"
  const TimePath := "time"

  /** The feed store: keyed by each message's id, with the by-date index on its time. */
  predicate IsFeedStore(s: Store)
  {
    s.keyPath == Some(IdPath) && DateIndex in s.indexes && s.indexes[DateIndex] == TimePath
  }

  predicate WittrSchema(m: Stores)
  {
    FeedStore in m && IsFeedStore(m[FeedStore])
  }

  // ---------------------------------------------------------------------------
  // openDatabase

  /** The upgrade callback of openDatabase: create the feed store, then its by-date index. */
  function WittrUpgraded(m: Stores): (r: Result<Stores, Error>)
    requires StoresValid(m)
    ensures r.Success? ==> StoresValid(r.value)
  {
    var m1 :- AddStore(m, FeedStore, Some(IdPath));
    AddIndex(m1, FeedStore, DateIndex, TimePath)
  }

  /** A new database gets exactly the feed store, empty, with its one index. */
  lemma WittrUpgradeFromNothing()
    ensures WittrUpgraded(map[]) == Success(map[FeedStore := Store(Some(IdPath), map[DateIndex := TimePath], [])])
    ensures WittrSchema(WittrUpgraded(map[]).value)
  {
    var m1 := AddStore(map[], FeedStore, Some(IdPath)).value;
    assert m1 == map[FeedStore := Store(Some(IdPath), map[], [])];
    var m2 := AddIndex(m1, FeedStore, DateIndex, TimePath).value;
    assert m2[FeedStore] == Store(Some(IdPath), map[DateIndex := TimePath], []);
    assert m2.Keys == {FeedStore};
    assert m2 == map[FeedStore := Store(Some(IdPath), map[DateIndex := TimePath], [])];
    assert WittrUpgraded(map[]) == AddIndex(m1, FeedStore, DateIndex, TimePath);
  }

  /**
   * openDatabase: without service-worker support there is no database;
   * otherwise 'wittr' is opened at version 1, running the upgrade callback
   * when it did not exist yet.
   */
  method OpenDatabase(serviceWorkerSupported: bool, disk: Database) returns (db: Database?)
    requires disk.Valid() && disk.version <= WittrVersion
    requires disk.version == WittrVersion ==> WittrSchema(disk.stores)
    modifies disk
    ensures !serviceWorkerSupported ==> db == null && disk.version == old(disk.version) && disk.stores == old(disk.stores)
    ensures serviceWorkerSupported ==> db == disk && db.Valid() && db.version == WittrVersion && WittrSchema(db.stores)
    ensures serviceWorkerSupported && old(disk.version) == 0 ==> db.stores == WittrUpgraded(map[]).value
    ensures serviceWorkerSupported && old(disk.version) == WittrVersion ==> db.stores == old(disk.stores)
  {
    if !serviceWorkerSupported {
      return null;
    }
    if disk.version == 0 {
      WittrUpgradeFromNothing();
      disk.version := WittrVersion;
      var _ := disk.CreateObjectStore(FeedStore, Some(IdPath));
      var _ := disk.CreateIndex(FeedStore, DateIndex, TimePath);
    }
    return disk;
  }

  // ---------------------------------------------------------------------------
  // _onSocketMessage: the batch upsert

  /**
   * messages.forEach(m => store.put(m)) on the feed store: each message is
   * upserted by its id in batch order. The idb wrapper turns the DataError
   * of a message without a valid id into a rejected promise, so that
   * message is skipped and the forEach goes on.
   */
  function PutBatch(s: Store, messages: seq<Value>): (r: Store)
    requires s.Valid()
    ensures r.Valid() && r.keyPath == s.keyPath && r.indexes == s.indexes
    decreases |messages|
  {
    if messages == [] then s
    else match Put(s, messages[0], None)
      case Failure(_) => PutBatch(s, messages[1..])
      case Success((s', _)) => PutBatch(s', messages[1..])
  }

  /** The position of the last message in the batch whose id is k, if there is one. */
  function LastWithId(messages: seq<Value>, k: Key): (r: Option<nat>)
    ensures r.Some? ==> r.value < |messages| && ExtractKey(messages[r.value], IdPath) == Some(k)
    ensures r.Some? ==> forall i :: r.value < i < |messages| ==> ExtractKey(messages[i], IdPath) != Some(k)
    ensures r.None? ==> forall i :: 0 <= i < |messages| ==> ExtractKey(messages[i], IdPath) != Some(k)
  {
    if messages == [] then None
    else match LastWithId(messages[1..], k)
      case Some(j) => Some(j + 1)
      case None => if ExtractKey(messages[0], IdPath) == Some(k) then Some(0) else None
  }

  /**
   * After a batch the store holds under each id the last message of the
   * batch with that id; every other record, and every message without a
   * valid id, leaves the store as it was.
   */
  lemma {:induction false} BatchLastWriteWins(s: Store, messages: seq<Value>, k: Key)
    requires s.Valid() && IsFeedStore(s)
    ensures Lookup(PutBatch(s, messages).records, k) ==
      match LastWithId(messages, k)
      case Some(j) => Some(messages[j])
      case None => Lookup(s.records, k)
    decreases |messages|
  {
    if messages != [] {
      match Put(s, messages[0], None)
      case Failure(_) =>
        BatchLastWriteWins(s, messages[1..], k);
      case Success((s', _)) =>
        BatchLastWriteWins(s', messages[1..], k);
    }
  }

  // ---------------------------------------------------------------------------
  // _showCachedMessages

  function Reverse<T>(s: seq<T>): (r: seq<T>)
    ensures |r| == |s| && forall i :: 0 <= i < |s| ==> r[i] == s[|s| - 1 - i]
  {
    if s == [] then [] else Reverse(s[1..]) + [s[0]]
  }

  /**
   * The by-date index read in reverse: the entries of every stored message
   * that has a valid time, newest first (ties: larger id first).
   */
  function NewestFirst(s: Store): (r: seq<IndexEntry>)
    requires s.Valid() && IsFeedStore(s)
    ensures forall i, j :: 0 <= i < j < |r| ==> Before(r[j], r[i])
    ensures forall x :: x in r <==> Lookup(s.records, x.primaryKey) == Some(x.value) && ExtractKey(x.value, TimePath) == Some(x.indexKey)
  {
    var l := IndexEntries(s, DateIndex, None).value;
    ReverseSameElements(l);
    Reverse(l)
  }

  lemma ReverseSameElements<T>(l: seq<T>)
    ensures forall x :: x in Reverse(l) <==> x in l
  {
    var r := Reverse(l);
    forall x | x in r ensures x in l {
      var i :| 0 <= i < |r| && r[i] == x;
      assert l[|l| - 1 - i] == x;
    }
    forall x | x in l ensures x in r {
      var i :| 0 <= i < |l| && l[i] == x;
      assert r[|l| - 1 - i] == x;
    }
  }

  /**
   * _showCachedMessages: nothing is shown without a database or when posts
   * are already showing; otherwise the by-date index's getAll(), reversed.
   */
  function CachedMessages(store: Option<Store>, showingPosts: bool): (r: Option<seq<Value>>)
    requires store.Some? ==> store.value.Valid() && IsFeedStore(store.value)
    ensures r.None? <==> store.None? || showingPosts
    ensures r.Some? ==> r.value == EntryValues(NewestFirst(store.value))
  {
    if store.None? || showingPosts then None
    else Some(Reverse(IndexGetAll(store.value, DateIndex, None).value))
  }

  // ---------------------------------------------------------------------------
  // _openSocket: the resume query

  /** location.search.slice(1): the page's query without its leading '?'. */
  function PageQuery(locationSearch: string): string
  {
    if |locationSearch| == 0 then "" else locationSearch[1..]
  }

  /**
   * The query of the /updates URL: "since=" and the latest post date in
   * milliseconds when there is one, then '&' and the page's own query.
   */
  function ResumeQuery(latestPostDate: Option<int>, locationSearch: string): string
  {
    (if latestPostDate.Some? then "since=" + NumberToString(latestPostDate.value) else "") + "&" + PageQuery(locationSearch)
  }

  /** The part of a query before its first '&' (all of it when there is none). */
  function FirstParam(q: string): (p: string)
    ensures |p| <= |q| && p == q[..|p|]
    ensures forall i :: 0 <= i < |p| ==> p[i] != '&'
    ensures |p| < |q| ==> q[|p|] == '&'
  {
    if q == [] || q[0] == '&' then [] else [q[0]] + FirstParam(q[1..])
  }

  /** What the server reads as the resume point: the first parameter, when it is since=<number>. */
  function SinceOf(q: string): Option<int>
  {
    var p := FirstParam(q);
    if |p| >= 6 && p[..6] == "since=" then ParseNumber(p[6..]) else None
  }

  /** The part of a query after its first '&'. */
  function AfterFirstParam(q: string): string
  {
    var p := FirstParam(q);
    if |p| < |q| then q[|p| + 1..] else ""
  }

  /**
   * The resume query round-trips: its first parameter gives back the latest
   * post date (none without one) and the rest is the page's own query.
   */
  lemma ResumeQueryRoundTrip(latestPostDate: Option<int>, locationSearch: string)
    ensures SinceOf(ResumeQuery(latestPostDate, locationSearch)) == latestPostDate
    ensures AfterFirstParam(ResumeQuery(latestPostDate, locationSearch)) == PageQuery(locationSearch)
  {
    if latestPostDate.Some? {
      ResumeWithDate(latestPostDate.value, PageQuery(locationSearch));
    } else {
      FirstParamOf("", "&" + PageQuery(locationSearch));
    }
  }

  lemma ResumeWithDate(d: int, page: string)
    ensures var q := "since=" + NumberToString(d) + "&" + page;
      SinceOf(q) == Some(d) && AfterFirstParam(q) == page
  {
    var digits := NumberToString(d);
    var head := "since=" + digits;
    var q := head + ("&" + page);
    assert q == "since=" + NumberToString(d) + "&" + page;
    NumberToStringChars(d);
    ParseNumberToString(d);
    assert forall i :: 6 <= i < |head| ==> head[i] == digits[i - 6];
    FirstParamOf(head, "&" + page);
    assert head[..6] == "since=" && head[6..] == digits;
    assert q[|head| + 1..] == page;
  }

  /** A prefix without '&' followed by '&' is exactly the first parameter. */
  lemma {:induction false} FirstParamOf(head: string, rest: string)
    requires forall i :: 0 <= i < |head| ==> head[i] != '&'
    requires |rest| > 0 && rest[0] == '&'
    ensures FirstParam(head + rest) == head
  {
    if head == [] {
      assert head + rest == rest;
    } else {
      assert (head + rest)[1..] == head[1..] + rest;
      FirstParamOf(head[1..], rest);
    }
  }

  // ---------------------------------------------------------------------------
  // _openSocket: the lost-connection toast and the reconnect rule

  /** The lost-connection toast: never created, on screen, or created and hidden again. */
  datatype Toast = NoToast | Showing | Hidden

  /**
   * What the socket's open and close listeners have done so far: the toast,
   * how many toasts they created and the delay of every reconnect they
   * scheduled, in order.
   */
  datatype Connection = Connection(toast: Toast, toastsCreated: nat, reconnects: seq<nat>)

  /** The close listener retries after this many milliseconds. */
  const ReconnectDelayMs: nat := 5000

  const NotConnected := Connection(NoToast, 0, [])

  /** open: an existing toast is hidden. */
  function OnOpen(c: Connection): (r: Connection)
    ensures r.toastsCreated == c.toastsCreated && r.reconnects == c.reconnects
    ensures r.toast == NoToast <==> c.toast == NoToast
  {
    if c.toast == NoToast then c else c.(toast := Hidden)
  }

  /** close: the toast is created the first time only; a reconnect is always scheduled. */
  function OnClose(c: Connection): (r: Connection)
    ensures r.toast != NoToast
    ensures r.toastsCreated == c.toastsCreated + (if c.toast == NoToast then 1 else 0)
    ensures r.reconnects == c.reconnects + [ReconnectDelayMs]
  {
    var c' := if c.toast == NoToast then c.(toast := Showing, toastsCreated := c.toastsCreated + 1) else c;
    c'.(reconnects := c'.reconnects + [ReconnectDelayMs])
  }

  datatype SocketEvent = Opened | Closed

  function Step(c: Connection, e: SocketEvent): Connection
  {
    match e
    case Opened => OnOpen(c)
    case Closed => OnClose(c)
  }

  /** The listeners run over the open and close events of every socket, in order. */
  function Run(c: Connection, events: seq<SocketEvent>): Connection
    decreases |events|
  {
    if events == [] then c else Run(Step(c, events[0]), events[1..])
  }

  function CountClosed(events: seq<SocketEvent>): (n: nat)
    ensures n <= |events|
    ensures n == 0 <==> Closed !in events
  {
    if events == [] then 0 else (if events[0] == Closed then 1 else 0) + CountClosed(events[1..])
  }

  /**
   * Over any history: at most one toast is ever created, and one exactly when
   * the socket closed at least once; one reconnect, 5000 ms later, is
   * scheduled per close; and the toast, once there, never goes away.
   */
  lemma {:induction false} RunFacts(c: Connection, events: seq<SocketEvent>)
    requires c.toastsCreated == (if c.toast == NoToast then 0 else 1)
    ensures var r := Run(c, events);
      && r.toastsCreated == (if r.toast == NoToast then 0 else 1)
      && |r.reconnects| == |c.reconnects| + CountClosed(events)
      && r.reconnects[..|c.reconnects|] == c.reconnects
      && (forall i :: |c.reconnects| <= i < |r.reconnects| ==> r.reconnects[i] == ReconnectDelayMs)
      && (r.toast == NoToast <==> c.toast == NoToast && Closed !in events)
    decreases |events|
  {
    if events != [] {
      var c' := Step(c, events[0]);
      RunFacts(c', events[1..]);
      assert events == [events[0]] + events[1..];
      assert c'.reconnects[..|c.reconnects|] == c.reconnects;
    }
  }

  lemma ToastCreatedAtMostOnce(events: seq<SocketEvent>)
    ensures Run(NotConnected, events).toastsCreated == (if Closed in events then 1 else 0)
    ensures Run(NotConnected, events).reconnects == seq(CountClosed(events), _ => ReconnectDelayMs)
  {
    RunFacts(NotConnected, events);
  }

  /** Once the socket has closed, the last event decides: open hides the toast, close shows it if it never was hidden. */
  lemma {:induction false} OpenHidesToast(c: Connection, events: seq<SocketEvent>)
    requires events != [] && events[|events| - 1] == Opened
    requires c.toast != NoToast || Closed in events
    ensures Run(c, events).toast == Hidden
    decreases |events|
  {
    if |events| == 1 {
      assert Closed !in events;
    } else {
      var c' := Step(c, events[0]);
      assert events[1..][|events| - 2] == Opened;
      assert events == [events[0]] + events[1..];
      OpenHidesToast(c', events[1..]);
    }
  }

  /**
   * The toast is not recreated: after a close, an open and a second close
   * the one toast stays hidden during the second outage.
   */
  lemma SecondOutageShowsNoToast()
    ensures Run(NotConnected, [Closed, Opened, Closed]) == Connection(Hidden, 1, [ReconnectDelayMs, ReconnectDelayMs])
  {
    assert [Closed, Opened, Closed][1..] == [Opened, Closed];
    assert [Opened, Closed][1..] == [Closed];
  }

  // ---------------------------------------------------------------------------
  // _registerServiceWorker: the reload-once rule

  /** The controllerchange listener's state: the refreshing flag and the reloads it asked for. */
  datatype Reloading = Reloading(refreshing: bool, reloads: nat)

  function ControllerChanged(r: Reloading): (r': Reloading)
    ensures r'.refreshing
    ensures r'.reloads == r.reloads + (if r.refreshing then 0 else 1)
  {
    if r.refreshing then r else Reloading(true, r.reloads + 1)
  }

  /** n controllerchange events in a row. */
  function ControllerChanges(r: Reloading, n: nat): Reloading
    decreases n
  {
    if n == 0 then r else ControllerChanges(ControllerChanged(r), n - 1)
  }

  /** However many times the controller changes, the page reloads at most once. */
  lemma {:induction false} ReloadAtMostOnce(r: Reloading, n: nat)
    requires r.reloads == (if r.refreshing then 1 else 0)
    ensures ControllerChanges(r, n).reloads == (if r.refreshing || n > 0 then 1 else 0)
    ensures ControllerChanges(r, n).refreshing == (r.refreshing || n > 0)
    decreases n
  {
    if n > 0 {
      ReloadAtMostOnce(ControllerChanged(r), n - 1);
    }
  }

  // ---------------------------------------------------------------------------
  // _registerServiceWorker, _onSwInstallingHandler, _updateReady: updates

  /** A service worker, by identity. */
  datatype Worker = Worker(id: nat)

  /** The registration's waiting and installing workers when register() resolves. */
  datatype Registration = Registration(waiting: Option<Worker>, installing: Option<Worker>)

  /** What the page does once register() resolves. */
  datatype RegisteredAction =
    | Ignore                          // the page is not controlled: a first install
    | PromptUpdate(worker: Worker)    // _updateReady on the waiting worker
    | TrackInstalling(worker: Worker) // _onSwInstallingHandler on the installing worker
    | AwaitUpdateFound                // listen for updatefound

  function OnRegistered(hasController: bool, reg: Registration): (r: RegisteredAction)
    ensures r.Ignore? <==> !hasController
    ensures r.PromptUpdate? ==> reg.waiting == Some(r.worker)
    ensures r.TrackInstalling? ==> reg.waiting.None? && reg.installing == Some(r.worker)
    ensures r.AwaitUpdateFound? <==> hasController && reg.waiting.None? && reg.installing.None?
  {
    if !hasController then Ignore
    else if reg.waiting.Some? then PromptUpdate(reg.waiting.value)
    else if reg.installing.Some? then TrackInstalling(reg.installing.value)
    else AwaitUpdateFound
  }

  /** The statechange listener of a tracked worker: the update is ready when it reports 'installed'. */
  function ReadyOnStateChange(w: Worker, state: string): Option<Worker>
  {
    if state == "installed" then Some(w) else None
  }

  /** A worker the page tracks, and the states its statechange events report, in order. */
  datatype Tracked = Tracked(worker: Worker, states: seq<string>)

  /**
   * _onSwInstallingHandler: every statechange event that reports 'installed'
   * calls _updateReady on the tracked worker, so one toast per such report.
   */
  function ReadyPrompts(t: Tracked): (r: seq<Worker>)
    ensures forall i :: 0 <= i < |r| ==> r[i] == t.worker
    ensures |r| == multiset(t.states)["installed"]
    decreases |t.states|
  {
    if t.states == [] then []
    else
      assert t.states == [t.states[0]] + t.states[1..];
      var ready := ReadyOnStateChange(t.worker, t.states[0]);
      (if ready.Some? then [ready.value] else []) + ReadyPrompts(Tracked(t.worker, t.states[1..]))
  }

  /** A tracked worker gets a toast exactly when it reports 'installed'. */
  lemma ReadyPromptsMembers(t: Tracked)
    ensures forall w :: w in ReadyPrompts(t) <==> w == t.worker && "installed" in t.states
  {
    var r := ReadyPrompts(t);
    if "installed" in t.states {
      assert "installed" in multiset(t.states);
      assert r[0] == t.worker;
    } else {
      assert "installed" !in multiset(t.states);
    }
  }

  /**
   * The updatefound listener stays attached: every updatefound event, in
   * order, tracks the worker then installing.
   */
  function FoundPrompts(found: seq<Tracked>): (r: seq<Worker>)
    ensures forall w :: w in r <==> exists i :: 0 <= i < |found| && found[i].worker == w && "installed" in found[i].states
    decreases |found|
  {
    if found == [] then []
    else
      var r := ReadyPrompts(found[0]) + FoundPrompts(found[1..]);
      ReadyPromptsMembers(found[0]);
      assert forall i :: 0 < i < |found| ==> found[i] == found[1..][i - 1];
      r
  }

  /**
   * Every "New version available" toast the page shows, by the worker it is
   * about: given whether the page is controlled, the registration when
   * register() resolved, the states the worker installing then reports, and
   * the workers that later updatefound events find, with their states.
   */
  function UpdatePrompts(hasController: bool, reg: Registration, installingStates: seq<string>, found: seq<Tracked>): seq<Worker>
  {
    match OnRegistered(hasController, reg)
    case Ignore => []
    case PromptUpdate(w) => [w]
    case TrackInstalling(w) => ReadyPrompts(Tracked(w, installingStates))
    case AwaitUpdateFound => FoundPrompts(found)
  }

  /**
   * _updateReady: the worker of each toast answered 'refresh' is told to
   * skipWaiting. answers[i] is the answer to the i-th toast; a toast past
   * the end of answers has not been answered.
   */
  function SkipWaitingTo(prompts: seq<Worker>, answers: seq<string>): (r: seq<Worker>)
    ensures |r| <= |prompts|
    ensures forall w :: w in r <==> exists i :: 0 <= i < |prompts| && i < |answers| && prompts[i] == w && answers[i] == "refresh"
    decreases |prompts|
  {
    if prompts == [] then []
    else
      var rest := SkipWaitingTo(prompts[1..], if answers == [] then [] else answers[1..]);
      assert forall i :: 0 < i < |prompts| ==> prompts[i] == prompts[1..][i - 1];
      assert forall i :: 0 < i < |answers| ==> answers[i] == answers[1..][i - 1];
      if answers != [] && answers[0] == "refresh" then [prompts[0]] + rest else rest
  }

  /**
   * The update flow end to end: no toast on an uncontrolled page; a waiting
   * worker gives exactly one toast and nothing else is tracked; otherwise an
   * installing worker is tracked and nothing else; otherwise every worker
   * later found gives a toast once it reaches 'installed'. A worker is told
   * to skipWaiting exactly when one of its toasts was answered 'refresh'.
   */
  lemma UpdateFlow(hasController: bool, reg: Registration, installingStates: seq<string>, found: seq<Tracked>, answers: seq<string>)
    ensures var p := UpdatePrompts(hasController, reg, installingStates, found);
      && (!hasController ==> p == [])
      && (hasController && reg.waiting.Some? ==> p == [reg.waiting.value])
      && (hasController && reg.waiting.None? && reg.installing.Some? ==>
            forall w :: w in p <==> w == reg.installing.value && "installed" in installingStates)
      && (reg.waiting.Some? || reg.installing.Some? ==> p == UpdatePrompts(hasController, reg, installingStates, []))
      && (hasController && reg.waiting.None? && reg.installing.None? ==>
            forall w :: w in p <==> exists i :: 0 <= i < |found| && found[i].worker == w && "installed" in found[i].states)
    ensures hasController && reg.waiting.Some? ==>
      (SkipWaitingTo(UpdatePrompts(hasController, reg, installingStates, found), answers) != [] <==> answers != [] && answers[0] == "refresh")
  {
    if reg.installing.Some? {
      ReadyPromptsMembers(Tracked(reg.installing.value, installingStates));
    }
  }

  // ---------------------------------------------------------------------------
  // The controller

  class Controller {
    /** The database openDatabase gave, null without service-worker support. */
    const db: Database?
    /** Every batch handed to the posts view's addPosts, in order. */
    var posts: seq<seq<Value>>
    var connection: Connection
    var reloading: Reloading

    ghost predicate Valid()
      reads this, db
    {
      && (db != null ==> db.Valid() && db.version == WittrVersion && WittrSchema(db.stores))
      && connection.toastsCreated == (if connection.toast == NoToast then 0 else 1)
      && reloading.reloads == (if reloading.refreshing then 1 else 0)
    }

    constructor (serviceWorkerSupported: bool, disk: Database)
      requires disk.Valid() && disk.version <= WittrVersion
      requires disk.version == WittrVersion ==> WittrSchema(disk.stores)
      modifies disk
      ensures Valid()
      ensures serviceWorkerSupported <==> db != null
      ensures db != null ==> db == disk
      ensures posts == [] && connection == NotConnected && reloading == Reloading(false, 0)
    {
      var d := OpenDatabase(serviceWorkerSupported, disk);
      db := d;
      posts := [];
      connection := NotConnected;
      reloading := Reloading(false, 0);
    }

    /** The feed store as the database holds it. */
    function Feed(): (r: Option<Store>)
      reads this, db
      requires Valid()
      ensures r.Some? <==> db != null
      ensures r.Some? ==> r.value.Valid() && IsFeedStore(r.value)
    {
      if db == null then None else Some(db.stores[FeedStore])
    }

    /** _showCachedMessages: hands the cached messages, newest first, to the posts view. */
    method ShowCachedMessages(showingPosts: bool)
      requires Valid()
      modifies this`posts
      ensures Valid()
      ensures var shown := CachedMessages(Feed(), showingPosts);
        posts == if shown.Some? then old(posts) + [shown.value] else old(posts)
    {
      var shown := CachedMessages(Feed(), showingPosts);
      if shown.Some? {
        posts := posts + [shown.value];
      }
    }

    /**
     * _onSocketMessage: the batch is put into the feed store one message at
     * a time (when there is a database), and handed to the posts view either way.
     */
    method OnSocketMessage(messages: seq<Value>)
      requires Valid()
      modifies this`posts, db
      ensures Valid()
      ensures posts == old(posts) + [messages]
      ensures db != null ==> db.version == old(db.version)
      ensures db != null ==> db.stores == old(db.stores)[FeedStore := PutBatch(old(db.stores)[FeedStore], messages)]
    {
      if db != null {
        PutMessages(db, messages);
      }
      posts := posts + [messages];
    }

    /** The socket's open listener. */
    method OnSocketOpen()
      requires Valid()
      modifies this`connection
      ensures Valid()
      ensures connection == OnOpen(old(connection))
    {
      if connection.toast != NoToast {
        connection := connection.(toast := Hidden);
      }
    }

    /** The socket's close listener: the toast the first time, and a reconnect every time. */
    method OnSocketClose()
      requires Valid()
      modifies this`connection
      ensures Valid()
      ensures connection == OnClose(old(connection))
    {
      if connection.toast == NoToast {
        connection := connection.(toast := Showing, toastsCreated := connection.toastsCreated + 1);
      }
      connection := connection.(reconnects := connection.reconnects + [ReconnectDelayMs]);
    }

    /** The controllerchange listener: reload unless a reload is already under way. */
    method OnControllerChange()
      requires Valid()
      modifies this`reloading
      ensures Valid()
      ensures reloading == ControllerChanged(old(reloading))
      ensures reloading.reloads <= 1
    {
      if reloading.refreshing {
        return;
      }
      reloading := Reloading(true, reloading.reloads + 1);
    }
  }

  /**
   * The readwrite transaction of _onSocketMessage: put each message into the
   * feed store in turn; a put that is rejected changes nothing.
   */
  method PutMessages(db: Database, messages: seq<Value>)
    requires db.Valid() && db.version == WittrVersion && WittrSchema(db.stores)
    modifies db`stores
    ensures db.Valid() && WittrSchema(db.stores)
    ensures db.stores == old(db.stores)[FeedStore := PutBatch(old(db.stores)[FeedStore], messages)]
  {
    ghost var m0 := db.stores;
    ghost var s0 := m0[FeedStore];
    for i := 0 to |messages|
      invariant db.Valid()
      invariant db.stores == m0[FeedStore := PutBatch(s0, messages[..i])]
    {
      var _ := db.Put(FeedStore, messages[i], None);
      PutBatchSnoc(s0, messages[..i], messages[i]);
      assert messages[..i + 1] == messages[..i] + [messages[i]];
    }
    assert messages[..|messages|] == messages;
  }

  /** Extending a batch by one message is one more put on the result (nothing when that put is rejected). */
  lemma {:induction false} PutBatchSnoc(s: Store, messages: seq<Value>, m: Value)
    requires s.Valid()
    ensures var b := PutBatch(s, messages);
      PutBatch(s, messages + [m]) == match Put(b, m, None) case Success((s', _)) => s' case Failure(_) => b
    decreases |messages|
  {
    if messages == [] {
      assert [m][1..] == [];
    } else {
      assert (messages + [m])[1..] == messages[1..] + [m];
      match Put(s, messages[0], None)
      case Failure(_) =>
        PutBatchSnoc(s, messages[1..], m);
      case Success((s', _)) =>
        PutBatchSnoc(s', messages[1..], m);
    }
  }
}
