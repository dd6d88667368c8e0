/**
 * The per-type configuration cache over the `searchguard` index
 * (IndexBaseConfigurationRepository).  The backing store, the cluster's
 * readiness probes and the listeners' callbacks are inputs and outputs of
 * the methods: a `Store` says what a multi-get would answer, a `Cluster`
 * what the lifecycle, index-exists and health requests would answer, and
 * every notification is returned as a `Notification` record.
 */
module ConfigurationRepository {
  import opened Support

  // ---------------------------------------------------------------------
  // The backing store and the readiness gate
  // ---------------------------------------------------------------------

  datatype HealthStatus = Green | Yellow | Red

  /** The answers of the three readiness probes at the moment of a call. */
  datatype Cluster = Cluster(started: bool, indexExists: bool, healthTimedOut: bool, status: HealthStatus)

  /** The index is serving: started, existing, and its health neither red nor timed out. */
  predicate ClusterServing(c: Cluster) {
    c.started && c.indexExists && !c.healthTimedOut && c.status != Red
  }

  /** The stored document of one configuration type, as the get response reports it. */
  datatype Document = Missing | EmptySource | Parseable(settings: Settings) | Unparseable

  /**
   * What a multi-get answers: the document per type (a type not in `docs`
   * does not exist) and the types whose item fails.
   */
  datatype Store = Store(docs: map<string, Document>, failed: set<string>)

  function DocumentAt(store: Store, t: string): Document {
    if t in store.docs then store.docs[t] else Missing
  }

  /** The settings a non-failed item yields; None when its source does not parse. */
  function ItemSettings(d: Document): Option<Settings> {
    match d
    case Missing => Some(EMPTY)
    case EmptySource => Some(EMPTY)
    case Parseable(s) => Some(s)
    case Unparseable => None
  }

  /** Loading `t` does not raise: its item fails or its document converts to settings. */
  predicate Loadable(store: Store, t: string) {
    t in store.failed || ItemSettings(DocumentAt(store, t)).Some?
  }

  /**
   * The exceptions modelled: an unparseable stored document, the
   * unimplemented persist, and an exception raised by a listener's
   * `onChange` during the call recorded in `call`.
   */
  datatype Error = ParseFailure(configType: string) | NotImplemented | ListenerFailed(call: Notification)

  /** A result, or the exception the call raises. */
  datatype Outcome<T> = Ok(value: T) | Fail(error: Error)

  /**
   * `loadConfigurations`: one multi-get request over `types`, responses in
   * request order.  Failed items are left out, a missing or empty document
   * gives EMPTY settings, and the first unparseable document raises.
   */
  function Load(store: Store, types: seq<string>): (r: Outcome<map<string, Settings>>)
    ensures r.Ok? <==> forall t :: t in types ==> Loadable(store, t)
    ensures r.Ok? ==> r.value.Keys == set t | t in types && t !in store.failed
    ensures r.Ok? ==> forall t :: t in r.value ==> ItemSettings(DocumentAt(store, t)) == Some(r.value[t])
    ensures r.Fail? ==> r.error.ParseFailure? && r.error.configType in types && !Loadable(store, r.error.configType)
    decreases |types|
  {
    if |types| == 0 then Ok(map[])
    else
      var prefix, t := types[..|types| - 1], types[|types| - 1];
      assert types == prefix + [t];
      match Load(store, prefix)
      case Fail(e) => Fail(e)
      case Ok(m) =>
        if t in store.failed then Ok(m)
        else match ItemSettings(DocumentAt(store, t))
          case None => assert t in types && !Loadable(store, t); Fail(ParseFailure(t))
          case Some(s) => Ok(m[t := s])
  }

  /** Once a prefix of the request raises, the whole request raises the same way. */
  lemma {:induction false} LoadFailurePersists(store: Store, types: seq<string>, j: nat)
    requires j <= |types|
    requires Load(store, types[..j]).Fail?
    ensures Load(store, types) == Load(store, types[..j])
    decreases |types| - j
  {
    if j < |types| {
      var prefix := types[..|types| - 1];
      assert prefix[..j] == types[..j];
      LoadFailurePersists(store, prefix, j);
    } else {
      assert types[..j] == types;
    }
  }

  /** Two stores that agree on the requested types load the same result. */
  lemma {:induction false} LoadReadsOnlyRequestedTypes(s1: Store, s2: Store, types: seq<string>)
    requires forall t :: t in types ==> DocumentAt(s1, t) == DocumentAt(s2, t) && (t in s1.failed <==> t in s2.failed)
    ensures Load(s1, types) == Load(s2, types)
    decreases |types|
  {
    if |types| > 0 {
      var prefix := types[..|types| - 1];
      assert forall t :: t in prefix ==> t in types;
      LoadReadsOnlyRequestedTypes(s1, s2, prefix);
    }
  }

  /** `loadConfigurations`, walking the responses in order. */
  method LoadConfigurations(store: Store, types: seq<string>) returns (r: Outcome<map<string, Settings>>)
    ensures r == Load(store, types)
  {
    var result: map<string, Settings> := map[];
    var i := 0;
    while i < |types|
      invariant 0 <= i <= |types|
      invariant Load(store, types[..i]) == Ok(result)
    {
      var t := types[i];
      assert types[..i + 1][..i] == types[..i];
      if t !in store.failed {
        var settings: Settings;
        match DocumentAt(store, t) {
          case Missing => settings := EMPTY;
          case EmptySource => settings := EMPTY;
          case Parseable(s) => settings := s;
          case Unparseable =>
            LoadFailurePersists(store, types, i + 1);
            return Fail(ParseFailure(t));
        }
        result := result[t := settings];
      }
      ghost var done := types[..i + 1];
      assert done[..|done| - 1] == types[..i] && done[|done| - 1] == t;
      assert Load(store, done) == Ok(result);
      i := i + 1;
    }
    assert types[..i] == types;
    r := Ok(result);
  }

  // ---------------------------------------------------------------------
  // The readiness flag
  // ---------------------------------------------------------------------

  /** `indexReady` after one `ensureIndexReady` call. */
  function ReadinessAfter(ready: bool, c: Cluster): bool {
    ready || ClusterServing(c)
  }

  /** `indexReady` after a series of `ensureIndexReady` calls, one per cluster answer. */
  function ReadinessAfterChecks(ready: bool, checks: seq<Cluster>): bool
    decreases |checks|
  {
    if checks == [] then ready else ReadinessAfterChecks(ReadinessAfter(ready, checks[0]), checks[1..])
  }

  /**
   * Readiness is sticky and is only ever gained by a check that found the
   * index serving.
   */
  lemma {:induction false} ReadinessIsSticky(ready: bool, checks: seq<Cluster>)
    ensures ReadinessAfterChecks(ready, checks) <==> ready || exists i :: 0 <= i < |checks| && ClusterServing(checks[i])
    decreases |checks|
  {
    if checks != [] {
      ReadinessIsSticky(ReadinessAfter(ready, checks[0]), checks[1..]);
      if exists i :: 0 <= i < |checks[1..]| && ClusterServing(checks[1..][i]) {
        var i :| 0 <= i < |checks[1..]| && ClusterServing(checks[1..][i]);
        assert ClusterServing(checks[i + 1]);
      }
      if exists i :: 0 <= i < |checks| && ClusterServing(checks[i]) {
        var i :| 0 <= i < |checks| && ClusterServing(checks[i]);
        if i > 0 {
          assert ClusterServing(checks[1..][i - 1]);
        }
      }
    }
  }

  // ---------------------------------------------------------------------
  // The cache
  // ---------------------------------------------------------------------

  /** `putIfAbsent` of a possibly null value. */
  function PutIfAbsent(cache: map<string, Settings>, t: string, v: Option<Settings>): (c: map<string, Settings>)
    ensures forall k :: k in cache ==> k in c && c[k] == cache[k]
    ensures c.Keys == cache.Keys + (if v.Some? then {t} else {})
    ensures v.Some? && t !in cache ==> c[t] == v.value
  {
    if v.Some? && t !in cache then cache[t := v.value] else cache
  }

  /** What a call returns, and the cache it leaves. */
  datatype Step<T> = Step(result: Outcome<T>, cache: map<string, Settings>)

  /** `getConfiguration(String)`, given the answer of the readiness gate. */
  function SingleGet(ready: bool, cache: map<string, Settings>, store: Store, t: string): (r: Step<Option<Settings>>)
    ensures !ready ==> r == Step(Ok(None), cache)
    ensures ready && t in cache ==> r == Step(Ok(Some(cache[t])), cache)
    ensures forall k :: k in cache ==> k in r.cache && r.cache[k] == cache[k]
    ensures r.cache.Keys <= cache.Keys + {t}
    ensures ready && r.result.Ok? ==> r.result.value == Get(r.cache, t)
    ensures r.result.Fail? ==> r.cache == cache
    ensures ready && t !in cache ==>
      && (r.result == Ok(None) <==> t in store.failed)
      && (r.result.Fail? <==> !Loadable(store, t))
      && (r.result.Ok? && r.result.value.Some? ==> ItemSettings(DocumentAt(store, t)) == r.result.value)
  {
    if !ready then Step(Ok(None), cache)
    else if t in cache then Step(Ok(Some(cache[t])), cache)
    else match Load(store, [t])
      case Fail(e) => Step(Fail(e), cache)
      case Ok(loaded) =>
        var c := PutIfAbsent(cache, t, Get(loaded, t));
        Step(Ok(Get(c, t)), c)
  }

  /** The requested types without a cache entry, in request order. */
  function Uncached(cache: map<string, Settings>, types: seq<string>): (r: seq<string>)
    ensures forall t :: t in r <==> t in types && t !in cache
    decreases |types|
  {
    if types == [] then []
    else
      var prefix, t := types[..|types| - 1], types[|types| - 1];
      assert types == prefix + [t];
      Uncached(cache, prefix) + (if t in cache then [] else [t])
  }

  /** The cache entries of the requested types. */
  function Hits(cache: map<string, Settings>, types: seq<string>): (r: map<string, Settings>)
    ensures forall t :: t in r <==> t in types && t in cache
    ensures forall t :: t in r ==> r[t] == cache[t]
    decreases |types|
  {
    if types == [] then map[]
    else
      var prefix, t := types[..|types| - 1], types[|types| - 1];
      assert types == prefix + [t];
      if t in cache then Hits(cache, prefix)[t := cache[t]] else Hits(cache, prefix)
  }

  /** What a bulk get loads is never cached yet. */
  lemma LoadedAreUncached(cache: map<string, Settings>, store: Store, types: seq<string>)
    requires Load(store, Uncached(cache, types)).Ok?
    ensures forall k :: k in Load(store, Uncached(cache, types)).value ==> k !in cache
  {
  }

  /** Put-if-absent of entries none of which is cached is a plain put. */
  lemma PutIfAbsentOfUncached(cache: map<string, Settings>, loaded: map<string, Settings>, confs: map<string, Settings>)
    requires forall k :: k in loaded ==> k !in cache
    requires confs.Keys == loaded.Keys
    requires forall k :: k in confs ==> confs[k] == (loaded + cache)[k]
    ensures loaded + cache == cache + loaded
    ensures confs == loaded
  {
  }

  /** `getConfiguration(Collection)`, given the answer of the readiness gate. */
  function BulkGet(ready: bool, cache: map<string, Settings>, store: Store, types: seq<string>): (r: Step<map<string, Settings>>)
    ensures !ready && |types| > 0 ==> r == Step(Ok(map[]), cache)
    ensures r.result.Ok? ==> forall t :: t in r.result.value ==> t in types && t in r.cache && r.result.value[t] == r.cache[t]
    ensures r.result.Ok? && (ready || types == []) ==>
      forall t :: t in types && t in cache ==> t in r.result.value && r.result.value[t] == cache[t]
    ensures forall t :: t in cache ==> t in r.cache && r.cache[t] == cache[t]
    ensures forall t :: t in r.cache && t !in cache ==> t in types && r.result.Ok? && t in r.result.value
    ensures r.result.Fail? ==> r.cache == cache
    ensures ready ==> (r.result.Fail? <==> exists t :: t in types && t !in cache && !Loadable(store, t))
    ensures r.result.Fail? ==>
      r.result.error.ParseFailure? && var t := r.result.error.configType; t in types && t !in cache && !Loadable(store, t)
    ensures ready && r.result.Ok? ==> forall t :: t in types && t !in cache ==>
      && (t in store.failed ==> t !in r.result.value)
      && (t !in store.failed ==> t in r.result.value && Some(r.result.value[t]) == ItemSettings(DocumentAt(store, t)))
  {
    if !ready && |types| > 0 then Step(Ok(map[]), cache)
    else
      var toLoad := Uncached(cache, types);
      if toLoad == [] then Step(Ok(Hits(cache, types)), cache)
      else match Load(store, toLoad)
        case Fail(e) => Step(Fail(e), cache)
        case Ok(loaded) =>
          var c := cache + loaded;
          Step(Ok(Hits(cache, types) + loaded), c)
  }

  /**
   * A ready bulk get answers, for every requested type, what a single get
   * of that type alone would answer.
   */
  lemma BulkGetAgreesWithSingleGet(cache: map<string, Settings>, store: Store, types: seq<string>, t: string)
    requires t in types
    requires BulkGet(true, cache, store, types).result.Ok?
    ensures SingleGet(true, cache, store, t).result == Ok(Get(BulkGet(true, cache, store, types).result.value, t))
  {
    if t !in cache {
      var toLoad := Uncached(cache, types);
      assert t in toLoad;
      var loaded := Load(store, toLoad).value;
      assert Load(store, [t]).Ok?;
    }
  }

  /** A bulk get never reads the store for a type that is already cached. */
  lemma BulkGetReadsOnlyUncachedTypes(cache: map<string, Settings>, s1: Store, s2: Store, types: seq<string>, ready: bool)
    requires forall t :: t in types && t !in cache ==> DocumentAt(s1, t) == DocumentAt(s2, t) && (t in s1.failed <==> t in s2.failed)
    ensures BulkGet(ready, cache, s1, types) == BulkGet(ready, cache, s2, types)
  {
    LoadReadsOnlyRequestedTypes(s1, s2, Uncached(cache, types));
  }

  // ---------------------------------------------------------------------
  // Subscriptions and notifications
  // ---------------------------------------------------------------------

  /** A change listener, known only by its identity. */
  datatype Listener = Listener(id: nat)

  /** One entry of the type-to-listener multimap. */
  datatype Subscription = Subscription(configType: string, listener: Listener)

  /** One `listener.onChange(settings)` call made for `configType`. */
  datatype Notification = Notification(listener: Listener, configType: string, settings: Settings)

  /** `notifyAboutChanges`: the calls made, one per subscription entry whose type changed. */
  function Notifications(subs: seq<Subscription>, changed: map<string, Settings>): (r: seq<Notification>)
    ensures forall n :: n in r ==>
      n.configType in changed && n.settings == changed[n.configType] && Subscription(n.configType, n.listener) in subs
    ensures |r| <= |subs|
    decreases |subs|
  {
    if subs == [] then []
    else
      var prefix, s := subs[..|subs| - 1], subs[|subs| - 1];
      assert subs == prefix + [s];
      Notifications(prefix, changed)
        + (if s.configType in changed then [Notification(s.listener, s.configType, changed[s.configType])] else [])
  }

  /**
   * Every subscription entry whose type changed is called exactly once with
   * that type's settings, so a listener subscribed twice is called twice;
   * nothing else is called.
   */
  lemma {:induction false} NotifiedOncePerSubscription(subs: seq<Subscription>, changed: map<string, Settings>, n: Notification)
    ensures multiset(Notifications(subs, changed))[n] ==
      if n.configType in changed && changed[n.configType] == n.settings
      then multiset(subs)[Subscription(n.configType, n.listener)] else 0
    decreases |subs|
  {
    if subs != [] {
      var prefix, s := subs[..|subs| - 1], subs[|subs| - 1];
      assert subs == prefix + [s];
      NotifiedOncePerSubscription(prefix, changed, n);
    }
  }

  /** What a `notifyAboutChanges` walk did: the calls made, and the call that raised, if one did. */
  datatype NotifyRun = NotifyRun(calls: seq<Notification>, raised: Option<Notification>)

  /**
   * `notifyAboutChanges` when the calls in `raising` throw: the walk makes
   * the calls of `Notifications` in order and stops right after the first
   * call that throws, whose exception then propagates.
   */
  function Notify(subs: seq<Subscription>, changed: map<string, Settings>, raising: set<Notification>): (r: NotifyRun)
    ensures r.raised.None? ==> r.calls == Notifications(subs, changed)
    ensures r.raised.Some? ==> |r.calls| > 0 && r.raised.value == r.calls[|r.calls| - 1] && r.raised.value in raising
    ensures forall i :: 0 <= i < |r.calls| && r.calls[i] in raising ==> r.raised == Some(r.calls[i])
    decreases |subs|
  {
    if subs == [] then NotifyRun([], None)
    else
      var prefix, s := subs[..|subs| - 1], subs[|subs| - 1];
      assert subs == prefix + [s];
      var before := Notify(prefix, changed, raising);
      var all := Notifications(subs, changed);
      var sofar := Notifications(prefix, changed);
      if before.raised.Some? then
        before
      else if s.configType !in changed then
        assert all == sofar;
        before
      else
        var n := Notification(s.listener, s.configType, changed[s.configType]);
        assert all == sofar + [n];
        var calls := before.calls + [n];
        assert calls == all;
        var r := NotifyRun(calls, if n in raising then Some(n) else None);
        assert forall i :: 0 <= i < |before.calls| ==> calls[i] == before.calls[i];
        r
  }

  /** The calls the walk makes are the first calls of `Notifications`. */
  lemma {:induction false} NotifyCallsArePrefix(subs: seq<Subscription>, changed: map<string, Settings>, raising: set<Notification>)
    ensures Notify(subs, changed, raising).calls <= Notifications(subs, changed)
    decreases |subs|
  {
    if subs != [] {
      var prefix, s := subs[..|subs| - 1], subs[|subs| - 1];
      assert subs == prefix + [s];
      NotifyCallsArePrefix(prefix, changed, raising);
      var sofar := Notifications(prefix, changed);
      assert sofar <= Notifications(subs, changed);
    }
  }

  /**
   * The walk stops at the first call that throws: it raises exactly when
   * one of the calls of `Notifications` throws, and then it made every
   * call up to that one and no later call.
   */
  lemma NotifyStopsAtFirstRaise(subs: seq<Subscription>, changed: map<string, Settings>, raising: set<Notification>)
    ensures var all, run := Notifications(subs, changed), Notify(subs, changed, raising);
      && run.calls <= all
      && (run.raised.None? <==> forall i :: 0 <= i < |all| ==> all[i] !in raising)
      && (run.raised.Some? ==> var k := |run.calls| - 1;
            && all[k] == run.raised.value && all[k] in raising
            && forall i :: 0 <= i < k ==> all[i] !in raising)
  {
    var all, run := Notifications(subs, changed), Notify(subs, changed, raising);
    NotifyCallsArePrefix(subs, changed, raising);
    if run.raised.Some? {
      var k := |run.calls| - 1;
      assert all[k] == run.calls[k];
      forall i | 0 <= i < k ensures all[i] !in raising {
        assert all[i] == run.calls[i];
      }
    }
  }

  /** Once the walk over a prefix of the entries has raised, the rest of the entries are never reached. */
  lemma {:induction false} NotifyRaisePersists(subs: seq<Subscription>, changed: map<string, Settings>, raising: set<Notification>, j: nat)
    requires j <= |subs|
    requires Notify(subs[..j], changed, raising).raised.Some?
    ensures Notify(subs, changed, raising) == Notify(subs[..j], changed, raising)
    decreases |subs| - j
  {
    if j < |subs| {
      var prefix := subs[..|subs| - 1];
      assert prefix[..j] == subs[..j];
      NotifyRaisePersists(prefix, changed, raising, j);
    } else {
      assert subs[..j] == subs;
    }
  }

  /** `reloadConfiguration`: what it returns, the cache it leaves and the calls it makes. */
  datatype ReloadStep = ReloadStep(result: Outcome<map<string, Settings>>, cache: map<string, Settings>, notified: seq<Notification>)

  /**
   * `reloadConfiguration`, given the answer of the readiness gate and the
   * listener calls that throw.  The loaded entries overwrite the cache
   * before any listener is called, so a throwing listener leaves them in
   * place and the listeners after it uncalled.
   */
  function Reload(ready: bool, cache: map<string, Settings>, subs: seq<Subscription>, store: Store, types: seq<string>,
                  raising: set<Notification>): (r: ReloadStep)
    ensures !ready ==> r == ReloadStep(Ok(map[]), cache, [])
    ensures r.result.Fail? && r.result.error.ParseFailure? ==> r.cache == cache && r.notified == []
    ensures ready && Load(store, types).Fail? ==> r.result == Load(store, types)
    ensures ready && Load(store, types).Ok? ==>
      var loaded := Load(store, types).value;
      && r.cache.Keys == cache.Keys + loaded.Keys
      && (forall t :: t in loaded ==> r.cache[t] == loaded[t])
      && (forall t :: t in cache && t !in loaded ==> r.cache[t] == cache[t])
      && r.notified == Notify(subs, loaded, raising).calls
      && (r.result.Ok? <==> forall n :: n in Notifications(subs, loaded) ==> n !in raising)
      && (r.result.Ok? ==> r.result.value == loaded && r.notified == Notifications(subs, loaded))
      && (r.result.Fail? ==> r.result.error.ListenerFailed? && r.result.error.call in raising
                             && r.notified[|r.notified| - 1] == r.result.error.call)
  {
    if !ready then ReloadStep(Ok(map[]), cache, [])
    else match Load(store, types)
      case Fail(e) => ReloadStep(Fail(e), cache, [])
      case Ok(loaded) =>
        var run := Notify(subs, loaded, raising);
        NotifyStopsAtFirstRaise(subs, loaded, raising);
        ReloadStep(if run.raised.Some? then Fail(ListenerFailed(run.raised.value)) else Ok(loaded), cache + loaded, run.calls)
  }

  // ---------------------------------------------------------------------
  // The repository object
  // ---------------------------------------------------------------------

  class Repository {
    var cache: map<string, Settings>
    var subscriptions: seq<Subscription>
    var indexReady: bool

    constructor ()
      ensures cache == map[] && subscriptions == [] && !indexReady
    {
      cache, subscriptions, indexReady := map[], [], false;
    }

    /** `ensureIndexReady`: probes the cluster only while the index has never been found ready. */
    method EnsureIndexReady(cluster: Cluster) returns (ready: bool)
      modifies this`indexReady
      ensures indexReady == ReadinessAfter(old(indexReady), cluster)
      ensures ready == indexReady
    {
      if indexReady {
        return true;
      }
      if !cluster.started {
        return false;
      }
      if !cluster.indexExists {
        return false;
      }
      var stateOk := !(cluster.healthTimedOut || cluster.status == Red);
      if stateOk {
        indexReady := true;
      }
      return stateOk;
    }

    /** `putSettingsToCache`. */
    method PutSettingsToCache(t: string, v: Option<Settings>) returns (r: Option<Settings>)
      modifies this`cache
      ensures cache == PutIfAbsent(old(cache), t, v)
      ensures r == Get(cache, t)
    {
      if v.Some? && t !in cache {
        cache := cache[t := v.value];
      }
      r := Get(cache, t);
    }

    /** `getConfiguration(String)`. */
    method GetConfiguration(cluster: Cluster, store: Store, t: string) returns (r: Outcome<Option<Settings>>)
      modifies this`cache, this`indexReady
      ensures indexReady == ReadinessAfter(old(indexReady), cluster)
      ensures Step(r, cache) == SingleGet(indexReady, old(cache), store, t)
    {
      var ready := EnsureIndexReady(cluster);
      if !ready {
        return Ok(None);
      }
      if t in cache {
        return Ok(Some(cache[t]));
      }
      var loaded := LoadConfigurations(store, [t]);
      if loaded.Fail? {
        return Fail(loaded.error);
      }
      var conf := PutSettingsToCache(t, Get(loaded.value, t));
      r := Ok(conf);
    }

    /** `getConfiguration(Collection)`. */
    method GetConfigurations(cluster: Cluster, store: Store, types: seq<string>) returns (r: Outcome<map<string, Settings>>)
      modifies this`cache, this`indexReady
      ensures indexReady == ReadinessAfter(old(indexReady), cluster)
      ensures Step(r, cache) == BulkGet(indexReady, old(cache), store, types)
    {
      var ready := EnsureIndexReady(cluster);
      if !ready && |types| > 0 {
        return Ok(map[]);
      }
      var result, typesToLoad := SplitByCache(types);
      if typesToLoad == [] {
        return Ok(result);
      }
      var loaded := LoadConfigurations(store, typesToLoad);
      if loaded.Fail? {
        return Fail(loaded.error);
      }
      ghost var cache0 := cache;
      LoadedAreUncached(cache0, store, types);
      var confs := PutAllToCache(loaded.value);
      PutIfAbsentOfUncached(cache0, loaded.value, confs);
      r := Ok(result + confs);
    }

    /** The first loop of `getConfiguration(Collection)`: cache hits, and the types left to load. */
    method SplitByCache(types: seq<string>) returns (hits: map<string, Settings>, typesToLoad: seq<string>)
      ensures hits == Hits(cache, types)
      ensures typesToLoad == Uncached(cache, types)
    {
      typesToLoad := [];
      hits := map[];
      for i := 0 to |types|
        invariant typesToLoad == Uncached(cache, types[..i])
        invariant hits == Hits(cache, types[..i])
      {
        var t := types[i];
        ghost var done := types[..i + 1];
        assert done[..|done| - 1] == types[..i] && done[|done| - 1] == t;
        if t in cache {
          hits := hits[t := cache[t]];
        } else {
          typesToLoad := typesToLoad + [t];
        }
      }
      assert types[..|types|] == types;
    }

    /**
     * The second loop of `getConfiguration(Collection)`: put-if-absent every
     * loaded entry, keeping what the cache then holds for it.
     */
    method PutAllToCache(loaded: map<string, Settings>) returns (confs: map<string, Settings>)
      modifies this`cache
      ensures cache == loaded + old(cache)
      ensures confs.Keys == loaded.Keys
      ensures forall k :: k in confs ==> confs[k] == cache[k]
    {
      confs := map[];
      var remaining := loaded.Keys;
      while remaining != {}
        invariant remaining <= loaded.Keys
        invariant cache == (loaded - remaining) + old(cache)
        invariant confs.Keys == loaded.Keys - remaining
        invariant forall k :: k in confs ==> confs[k] == cache[k]
        decreases remaining
      {
        var k :| k in remaining;
        var conf := PutSettingsToCache(k, Some(loaded[k]));
        confs := confs[k := conf.value];
        remaining := remaining - {k};
      }
      assert loaded - {} == loaded;
    }

    /** `reloadConfiguration`: overwrite the loaded entries, then notify; `raising` are the calls that throw. */
    method ReloadConfiguration(cluster: Cluster, store: Store, types: seq<string>, raising: set<Notification>)
      returns (r: Outcome<map<string, Settings>>, notified: seq<Notification>)
      modifies this`cache, this`indexReady
      ensures indexReady == ReadinessAfter(old(indexReady), cluster)
      ensures ReloadStep(r, cache, notified) == Reload(indexReady, old(cache), subscriptions, store, types, raising)
    {
      var ready := EnsureIndexReady(cluster);
      if !ready {
        return Ok(map[]), [];
      }
      var loaded := LoadConfigurations(store, types);
      if loaded.Fail? {
        return loaded, [];
      }
      cache := cache + loaded.value;
      var raised;
      notified, raised := NotifyAboutChanges(loaded.value, raising);
      if raised.Some? {
        return Fail(ListenerFailed(raised.value)), notified;
      }
      r := loaded;
    }

    /**
     * `notifyAboutChanges`: walk the subscription entries, calling those
     * whose type changed, until a call in `raising` throws.
     */
    method NotifyAboutChanges(changed: map<string, Settings>, raising: set<Notification>)
      returns (notified: seq<Notification>, raised: Option<Notification>)
      ensures NotifyRun(notified, raised) == Notify(subscriptions, changed, raising)
    {
      notified := [];
      for i := 0 to |subscriptions|
        invariant NotifyRun(notified, None) == Notify(subscriptions[..i], changed, raising)
      {
        var entry := subscriptions[i];
        assert subscriptions[..i + 1][..i] == subscriptions[..i];
        if entry.configType in changed {
          var call := Notification(entry.listener, entry.configType, changed[entry.configType]);
          notified := notified + [call];
          if call in raising {
            NotifyRaisePersists(subscriptions, changed, raising, i + 1);
            return notified, Some(call);
          }
        }
      }
      assert subscriptions[..|subscriptions|] == subscriptions;
      raised := None;
    }

    /** `subscribeOnChange`: append one multimap entry. */
    method SubscribeOnChange(t: string, listener: Listener)
      modifies this`subscriptions
      ensures subscriptions == old(subscriptions) + [Subscription(t, listener)]
    {
      subscriptions := subscriptions + [Subscription(t, listener)];
    }

    /** `getSubscribeTypes`. */
    function GetSubscribeTypes(): (r: set<string>)
      reads this
      ensures forall i :: 0 <= i < |subscriptions| ==> subscriptions[i].configType in r
      ensures forall t :: t in r ==> exists i :: 0 <= i < |subscriptions| && subscriptions[i].configType == t
    {
      set i | 0 <= i < |subscriptions| :: subscriptions[i].configType
    }

    /** `persistConfiguration` is not implemented: it always raises. */
    method PersistConfiguration(t: string, settings: Settings) returns (r: Outcome<()>)
      ensures r == Fail(NotImplemented)
    {
      r := Fail(NotImplemented);
    }
  }
}
