/**
 * The marketplace client's behaviour as functions of the cache contents and
 * the collaborators in `Env`. Each operation yields a `Step`: its outcome,
 * the cache afterwards and the HTTP requests it sent.
 */
module Marketplace {
  import opened Wrappers
  import opened PhpValue
  import opened KeySort

  const CacheTimeoutInSeconds: nat := 1200
  const HttpRequestTimeout: nat := 30
  const Domain: string := "http://plugins.piwik.org"
  const Endpoint: string := Domain + "/api/1.0/"

  /** The collaborators the client calls, given as functions. */
  datatype Env = Env(
    sendHttpRequest: string -> string,         // Http::sendHttpRequest: URL to response body
    jsonDecode: string -> Value,               // json_decode($body, true); null when the body is not JSON
    jsonEncode: Value -> string,               // json_encode
    buildQuery: seq<Param> -> string,          // http_build_query
    md5: string -> string,                     // md5
    fetchRemoteFile: (string, string) -> bool, // Http::fetchRemoteFile(url, target)
    isBundledWithCore: string -> bool,         // PluginsManager::isPluginBundledWithCore
    coreVersion: string)                       // Version::VERSION

  /** The cache namespace the client reads and clearAllCacheEntries empties. */
  const CacheNamespace: string := "marketplace"

  /**
   * How an operation fails: a MarketplaceApiException with its (string)
   * message, or the fatal error PHP raises when an Exception is constructed
   * with an array as its message.
   */
  datatype Failure = MarketplaceApiException(message: string) | WrongExceptionParameters

  /** An installed plugin: what getPluginName() and getVersion() answer. */
  datatype Plugin = Plugin(name: string, version: string)

  datatype Step<T> = Step(result: Result<T, Failure>, cache: map<string, Value>, requests: seq<string>)

  // ---------------------------------------------------------------- cache key

  /** `str_replace('/', '.', $action)` */
  function Dotted(action: string): string {
    seq(|action|, i requires 0 <= i < |action| => if action[i] == '/' then '.' else action[i])
  }

  /** The query string: the parameters sorted by key, then serialised. */
  function Query(env: Env, params: seq<Param>): string {
    env.buildQuery(KSort(params))
  }

  /** getCacheKey: `api.1.0.<action, '/' replaced by '.'>.<md5 of the query>` */
  function CacheKey(env: Env, action: string, query: string): string {
    "api.1.0." + Dotted(action) + "." + env.md5(query)
  }

  /** The key is `api.1.0.`, the action with every '/' turned into '.', a '.', and the query's hash. */
  lemma CacheKeyShape(env: Env, action: string, query: string)
    ensures var key := CacheKey(env, action, query);
      && |key| == 9 + |action| + |env.md5(query)|
      && key[..8] == "api.1.0."
      && (forall i :: 0 <= i < |action| ==> key[8 + i] == if action[i] == '/' then '.' else action[i])
      && key[8 + |action|] == '.' && key[9 + |action|..] == env.md5(query)
  {
  }

  function FetchKey(env: Env, action: string, params: seq<Param>): string {
    CacheKey(env, action, Query(env, params))
  }

  /**
   * Parameter arrays holding the same entries in different orders give the
   * same cache key and the same request URL.
   */
  lemma CacheKeyIgnoresParamOrder(env: Env, action: string, p: seq<Param>, q: seq<Param>)
    requires DistinctKeys(p) && DistinctKeys(q)
    requires multiset(p) == multiset(q)
    ensures FetchKey(env, action, p) == FetchKey(env, action, q)
    ensures Url(action, Query(env, p)) == Url(action, Query(env, q))
  {
    KSortIgnoresOrder(p, q);
  }

  /**
   * getCachedResult: the cache answers `false` for a missing key and fetch
   * reads `false` as a miss, so a stored `false` is a miss as well.
   */
  function CachedResult(cache: map<string, Value>, key: string): (r: Option<Value>)
    ensures r.Some? <==> key in cache && cache[key] != Bool(false)
    ensures r.Some? ==> r.value == cache[key]
  {
    var stored := if key in cache then cache[key] else Bool(false);
    if stored == Bool(false) then None else Some(stored)
  }

  /** What cacheResult stores is what getCachedResult answers next, unless it is `false`. */
  lemma StoredResultIsServed(cache: map<string, Value>, key: string, v: Value)
    requires v != Bool(false)
    ensures CachedResult(cache[key := v], key) == Some(v)
  {
  }

  /** Once clearAllCacheEntries has emptied the namespace, every lookup misses. */
  lemma ClearedCacheMisses(key: string)
    ensures CachedResult(map[], key) == None
  {
  }

  // ---------------------------------------------------------------- fetch

  function Url(action: string, query: string): string {
    Endpoint + action + "?" + query
  }

  /** `substr($body, 0, 50)` */
  function Excerpt(body: string): (r: string)
    ensures |r| == if |body| < 50 then |body| else 50
    ensures r <= body
  {
    if |body| <= 50 then body else body[..50]
  }

  const UnreadablePrefix: string := "There was an error reading the response from the Marketplace: "
  const UnreadableSuffix: string := ". Please try again later."

  /** The message for a body that does not decode: it quotes at most 50 characters of it. */
  function UnreadableMessage(body: string): (m: string)
    ensures |UnreadablePrefix| + |Excerpt(body)| + |UnreadableSuffix| == |m|
    ensures m[..|UnreadablePrefix|] == UnreadablePrefix
    ensures m[|UnreadablePrefix|..|UnreadablePrefix| + |Excerpt(body)|] == Excerpt(body)
    ensures m[|m| - |UnreadableSuffix|..] == UnreadableSuffix
    ensures |m| <= |UnreadablePrefix| + 50 + |UnreadableSuffix|
  {
    UnreadablePrefix + Excerpt(body) + UnreadableSuffix
  }

  /**
   * `new MarketplaceApiException($result['error'])`: the Exception constructor
   * takes the error's string form as the message, and refuses an array.
   */
  function ErrorFailure(error: Value): (f: Failure)
    ensures f.WrongExceptionParameters? <==> error.Arr?
    ensures error.Str? ==> f == MarketplaceApiException(error.s)
    ensures error == Bool(true) ==> f == MarketplaceApiException("1")
    ensures error.Int? && error.i >= 0 ==> f == MarketplaceApiException(NatToDecimal(error.i))
    ensures error.Int? && error.i < 0 ==> f == MarketplaceApiException("-" + NatToDecimal(-error.i))
    ensures error == Int(42) ==> f == MarketplaceApiException("42")
  {
    if error.Arr? then WrongExceptionParameters else MarketplaceApiException(ToPhpString(error))
  }

  /**
   * fetch: a hit is answered from the cache; a miss sends one request,
   * rejects a body that does not decode or that carries a non-empty `error`,
   * and otherwise stores the decoded body under the key.
   */
  function FetchSpec(env: Env, cache: map<string, Value>, action: string, params: seq<Param>): (s: Step<Value>)
    // a hit has no side effect
    ensures CachedResult(cache, FetchKey(env, action, params)).Some? ==>
      s == Step(Ok(CachedResult(cache, FetchKey(env, action, params)).value), cache, [])
    // a miss sends exactly one request
    ensures CachedResult(cache, FetchKey(env, action, params)).None? ==>
      s.requests == [Url(action, Query(env, params))]
    // a failure writes nothing; a success writes exactly its key
    ensures s.result.Err? ==> s.cache == cache
    ensures s.result.Ok? ==> s.cache == cache[FetchKey(env, action, params) := s.result.value]
    ensures cache.Keys <= s.cache.Keys
  {
    var query := Query(env, params);
    var key := CacheKey(env, action, query);
    match CachedResult(cache, key)
    case Some(v) => Step(Ok(v), cache, [])
    case None =>
      var url := Url(action, query);
      var body := env.sendHttpRequest(url);
      var decoded := env.jsonDecode(body);
      if decoded.Null? then
        Step(Err(MarketplaceApiException(UnreadableMessage(body))), cache, [url])
      else if !IsEmpty(Get(decoded, "error")) then
        Step(Err(ErrorFailure(Get(decoded, "error"))), cache, [url])
      else
        Step(Ok(decoded), cache[key := decoded], [url])
  }

  /**
   * What a miss answers: the decoded body when it decodes to something other
   * than null and carries no `error`; otherwise an exception quoting the start
   * of the body, or carrying the `error` verbatim.
   */
  lemma FetchMissOutcome(env: Env, cache: map<string, Value>, action: string, params: seq<Param>)
    requires CachedResult(cache, FetchKey(env, action, params)).None?
    ensures var s := FetchSpec(env, cache, action, params);
      var body := env.sendHttpRequest(Url(action, Query(env, params)));
      var decoded := env.jsonDecode(body);
      && (s.result.Ok? <==> decoded != Null && IsEmpty(Get(decoded, "error")))
      && (s.result.Ok? ==> s.result.value == decoded)
      && (decoded == Null ==> s.result.error == MarketplaceApiException(UnreadableMessage(body)))
      && (decoded != Null && s.result.Err? ==>
            && !IsEmpty(Get(decoded, "error"))
            && s.result.error == ErrorFailure(Get(decoded, "error")))
      && (decoded != Null && Get(decoded, "error").Str? && s.result.Err? ==>
            s.result.error == MarketplaceApiException(Get(decoded, "error").s))
  {
  }

  /**
   * A successful fetch is not repeated: fetching the same action again, with
   * the parameters in any order, is answered from the cache without a
   * request, unless the decoded body was `false`.
   */
  lemma RefetchIsServedFromCache(env: Env, cache: map<string, Value>, action: string, p: seq<Param>, q: seq<Param>)
    requires DistinctKeys(p) && DistinctKeys(q) && multiset(p) == multiset(q)
    requires FetchSpec(env, cache, action, p).result.Ok?
    requires FetchSpec(env, cache, action, p).result.value != Bool(false)
    ensures var s := FetchSpec(env, cache, action, p);
      FetchSpec(env, s.cache, action, q) == Step(s.result, s.cache, [])
  {
    CacheKeyIgnoresParamOrder(env, action, p, q);
  }

  /** A response that decodes to `false` is stored but never served: every fetch asks again. */
  lemma FalseResultIsFetchedAgain(env: Env, cache: map<string, Value>, action: string, params: seq<Param>)
    requires FetchSpec(env, cache, action, params).result == Ok(Bool(false))
    ensures var s := FetchSpec(env, cache, action, params);
      && FetchKey(env, action, params) in s.cache
      && FetchSpec(env, s.cache, action, params).requests == [Url(action, Query(env, params))]
  {
  }

  // ---------------------------------------------------------------- plugin info

  /** `sprintf('plugins/%s/info', $name)` */
  function InfoAction(name: string): string {
    "plugins/" + name + "/info"
  }

  /** getPluginInfo: fetch the info action without parameters. */
  function PluginInfoSpec(env: Env, cache: map<string, Value>, name: string): Step<Value> {
    FetchSpec(env, cache, InfoAction(name), [])
  }

  // ---------------------------------------------------------------- checkUpdates

  const CheckUpdatesAction: string := "plugins/checkUpdates"

  /** `array('name' => ..., 'version' => ...)` */
  function RequestEntry(p: Plugin): Value {
    Arr([(StrKey("name"), Str(p.name)), (StrKey("version"), Str(p.version))])
  }

  /** The entries checkUpdates sends: one per plugin not bundled with core, in input order. */
  function UpdateRequests(env: Env, plugins: seq<Plugin>): (r: seq<Value>)
    ensures |r| <= |plugins|
    decreases |plugins|
  {
    if plugins == [] then []
    else
      var last := plugins[|plugins| - 1];
      UpdateRequests(env, plugins[..|plugins| - 1])
        + (if env.isBundledWithCore(last.name) then [] else [RequestEntry(last)])
  }

  /** Filtering keeps the input order: the entries for `a + b` are those for `a`, then those for `b`. */
  lemma {:induction false} UpdateRequestsAppend(env: Env, a: seq<Plugin>, b: seq<Plugin>)
    ensures UpdateRequests(env, a + b) == UpdateRequests(env, a) + UpdateRequests(env, b)
    decreases |b|
  {
    if b != [] {
      var b' := b[..|b| - 1];
      assert (a + b)[..|a + b| - 1] == a + b';
      assert (a + b)[|a + b| - 1] == b[|b| - 1];
      UpdateRequestsAppend(env, a, b');
    } else {
      assert a + b == a;
    }
  }

  /** Every entry sent is the name and version of an input plugin that is not bundled with core. */
  lemma {:induction false} OnlyUnbundledPluginsAreSent(env: Env, plugins: seq<Plugin>, e: Value)
    requires e in UpdateRequests(env, plugins)
    ensures exists i :: 0 <= i < |plugins| && !env.isBundledWithCore(plugins[i].name) && e == RequestEntry(plugins[i])
    decreases |plugins|
  {
    var n := |plugins|;
    var init := plugins[..n - 1];
    if e in UpdateRequests(env, init) {
      OnlyUnbundledPluginsAreSent(env, init, e);
      var i :| 0 <= i < |init| && !env.isBundledWithCore(init[i].name) && e == RequestEntry(init[i]);
      assert plugins[i] == init[i];
    } else {
      assert !env.isBundledWithCore(plugins[n - 1].name) && e == RequestEntry(plugins[n - 1]);
    }
  }

  /** Every input plugin not bundled with core is sent. */
  lemma {:induction false} EveryUnbundledPluginIsSent(env: Env, plugins: seq<Plugin>, i: nat)
    requires i < |plugins| && !env.isBundledWithCore(plugins[i].name)
    ensures RequestEntry(plugins[i]) in UpdateRequests(env, plugins)
    decreases |plugins|
  {
    var n := |plugins|;
    if i < n - 1 {
      EveryUnbundledPluginIsSent(env, plugins[..n - 1], i);
    }
  }

  /** The single request parameter: `plugins` => json_encode(array('plugins' => $params)). */
  function CheckUpdatesParams(env: Env, plugins: seq<Plugin>): seq<Param> {
    [("plugins", env.jsonEncode(Arr([(StrKey("plugins"), ListOf(UpdateRequests(env, plugins)))])))]
  }

  /** checkUpdates: the fetched answer, or `array()` when the answer is empty. */
  function CheckUpdatesSpec(env: Env, cache: map<string, Value>, plugins: seq<Plugin>): (s: Step<Value>)
  {
    var f := FetchSpec(env, cache, CheckUpdatesAction, CheckUpdatesParams(env, plugins));
    if f.result.Ok? && IsEmpty(f.result.value) then Step(Ok(EmptyArray), f.cache, f.requests) else f
  }

  /** checkUpdates answers the fetched value, except that an empty answer becomes `array()`. */
  lemma CheckUpdatesAnswer(env: Env, cache: map<string, Value>, plugins: seq<Plugin>)
    ensures var f := FetchSpec(env, cache, CheckUpdatesAction, CheckUpdatesParams(env, plugins));
      var s := CheckUpdatesSpec(env, cache, plugins);
      && s.cache == f.cache && s.requests == f.requests
      && (f.result.Err? ==> s.result == f.result)
      && (f.result.Ok? && !IsEmpty(f.result.value) ==> s.result == f.result)
      && (f.result.Ok? && IsEmpty(f.result.value) ==> s.result == Ok(EmptyArray))
  {
  }

  // ---------------------------------------------------------------- getInfoOfPluginsHavingUpdate

  /** `!empty($plugin['isTheme'])` */
  predicate IsTheme(info: Value) {
    !IsEmpty(Get(info, "isTheme"))
  }

  /** The name getInfoOfPluginsHavingUpdate looks up for one entry of the update list. */
  function UpdateName(update: Value): string {
    ToPhpString(Get(update, "name"))
  }

  /**
   * Fetches the info of every entry in order, each fetch seeing the cache the
   * previous one left; stops at the first failure.
   */
  function FetchInfos(env: Env, cache: map<string, Value>, updates: seq<Value>): (s: Step<seq<Value>>)
    ensures s.result.Ok? ==> |s.result.value| == |updates|
    ensures cache.Keys <= s.cache.Keys
    decreases |updates|
  {
    if updates == [] then Step(Ok([]), cache, [])
    else
      var prev := FetchInfos(env, cache, updates[..|updates| - 1]);
      if prev.result.Err? then prev
      else
        var f := PluginInfoSpec(env, prev.cache, UpdateName(updates[|updates| - 1]));
        var requests := prev.requests + f.requests;
        if f.result.Err? then Step(Err(f.result.error), f.cache, requests)
        else Step(Ok(prev.result.value + [f.result.value]), f.cache, requests)
  }

  /** One more iteration of the loop: the info of entry `i`, fetched against the cache the first `i` left. */
  lemma FetchInfosNext(env: Env, cache: map<string, Value>, updates: seq<Value>, i: nat)
    requires i < |updates|
    requires FetchInfos(env, cache, updates[..i]).result.Ok?
    ensures var prev := FetchInfos(env, cache, updates[..i]);
      var f := PluginInfoSpec(env, prev.cache, UpdateName(updates[i]));
      FetchInfos(env, cache, updates[..i + 1])
        == if f.result.Err? then Step(Err(f.result.error), f.cache, prev.requests + f.requests)
           else Step(Ok(prev.result.value + [f.result.value]), f.cache, prev.requests + f.requests)
  {
    assert updates[..i + 1][..i] == updates[..i];
  }

  /** Once a prefix of the updates fails, the whole loop ends as that prefix did. */
  lemma {:induction false} FetchInfosStopsAtFailure(env: Env, cache: map<string, Value>, updates: seq<Value>, k: nat)
    requires k <= |updates|
    requires FetchInfos(env, cache, updates[..k]).result.Err?
    ensures FetchInfos(env, cache, updates) == FetchInfos(env, cache, updates[..k])
    decreases |updates|
  {
    if k < |updates| {
      var init := updates[..|updates| - 1];
      assert init[..k] == updates[..k];
      FetchInfosStopsAtFailure(env, cache, init, k);
    } else {
      assert updates[..k] == updates;
    }
  }

  /** Every entry's info is fetched, kept or not: its key is in the cache afterwards. */
  lemma {:induction false} FetchInfosFetchesEveryUpdate(env: Env, cache: map<string, Value>, updates: seq<Value>, i: nat)
    requires i < |updates|
    requires FetchInfos(env, cache, updates).result.Ok?
    ensures FetchKey(env, InfoAction(UpdateName(updates[i])), []) in FetchInfos(env, cache, updates).cache
    decreases |updates|
  {
    var n := |updates|;
    var init := updates[..n - 1];
    var prev := FetchInfos(env, cache, init);
    var f := PluginInfoSpec(env, prev.cache, UpdateName(updates[n - 1]));
    assert FetchInfos(env, cache, updates).cache == f.cache;
    if i < n - 1 {
      FetchInfosFetchesEveryUpdate(env, cache, init, i);
      assert init[i] == updates[i];
    }
  }


  /** The infos whose `!empty($plugin['isTheme'])` equals `themesOnly`, in order. */
  function ThemeFilter(infos: seq<Value>, themesOnly: bool): (r: seq<Value>)
    ensures |r| <= |infos|
    decreases |infos|
  {
    if infos == [] then []
    else
      var last := infos[|infos| - 1];
      ThemeFilter(infos[..|infos| - 1], themesOnly) + (if IsTheme(last) == themesOnly then [last] else [])
  }

  /**
   * The filter keeps the input order: the infos kept from `a + b` are those
   * kept from `a`, then those kept from `b`.
   */
  lemma {:induction false} ThemeFilterAppend(a: seq<Value>, b: seq<Value>, themesOnly: bool)
    ensures ThemeFilter(a + b, themesOnly) == ThemeFilter(a, themesOnly) + ThemeFilter(b, themesOnly)
    decreases |b|
  {
    if b != [] {
      var b' := b[..|b| - 1];
      assert (a + b)[..|a + b| - 1] == a + b';
      assert (a + b)[|a + b| - 1] == b[|b| - 1];
      ThemeFilterAppend(a, b', themesOnly);
    } else {
      assert a + b == a;
    }
  }

  /** Only infos of the requested kind are kept, and each comes from the input. */
  lemma {:induction false} ThemeFilterKeepsOnlyRequestedKind(infos: seq<Value>, themesOnly: bool, d: Value)
    requires d in ThemeFilter(infos, themesOnly)
    ensures d in infos && IsTheme(d) == themesOnly
    decreases |infos|
  {
    var n := |infos|;
    var init := infos[..n - 1];
    if d in ThemeFilter(init, themesOnly) {
      ThemeFilterKeepsOnlyRequestedKind(init, themesOnly, d);
      assert init[..] == infos[..n - 1];
    } else {
      assert d == infos[n - 1];
    }
  }

  /** Every info of the requested kind is kept. */
  lemma {:induction false} ThemeFilterKeepsRequestedKind(infos: seq<Value>, themesOnly: bool, i: nat)
    requires i < |infos| && IsTheme(infos[i]) == themesOnly
    ensures infos[i] in ThemeFilter(infos, themesOnly)
    decreases |infos|
  {
    if i < |infos| - 1 {
      ThemeFilterKeepsRequestedKind(infos[..|infos| - 1], themesOnly, i);
    }
  }

  /** The themes kept and the non-themes kept together number exactly the input infos. */
  lemma {:induction false} ThemeFilterPartitions(infos: seq<Value>)
    ensures |ThemeFilter(infos, true)| + |ThemeFilter(infos, false)| == |infos|
    decreases |infos|
  {
    if infos != [] {
      ThemeFilterPartitions(infos[..|infos| - 1]);
    }
  }

  /** The themes kept and the non-themes kept are, together, exactly the input infos. */
  lemma {:induction false} ThemeFilterMultiset(infos: seq<Value>)
    ensures multiset(ThemeFilter(infos, true)) + multiset(ThemeFilter(infos, false)) == multiset(infos)
    decreases |infos|
  {
    if infos != [] {
      var init := infos[..|infos| - 1];
      ThemeFilterMultiset(init);
      assert infos == init + [infos[|infos| - 1]];
    }
  }

  /** getInfoOfPluginsHavingUpdate: check for updates, fetch each one's info, keep the requested kind. */
  function InfoOfPluginsHavingUpdateSpec(env: Env, cache: map<string, Value>, plugins: seq<Plugin>, themesOnly: bool): Step<seq<Value>>
  {
    var c := CheckUpdatesSpec(env, cache, plugins);
    if c.result.Err? then Step(Err(c.result.error), c.cache, c.requests)
    else
      var f := FetchInfos(env, c.cache, Elements(c.result.value));
      var requests := c.requests + f.requests;
      if f.result.Err? then Step(Err(f.result.error), f.cache, requests)
      else Step(Ok(ThemeFilter(f.result.value, themesOnly)), f.cache, requests)
  }

  /** getInfoOfPluginsHavingUpdate's outcome once the update list is known and its loop has run. */
  lemma InfoOfPluginsHavingUpdateAfterLoop(env: Env, cache: map<string, Value>, plugins: seq<Plugin>, themesOnly: bool)
    requires CheckUpdatesSpec(env, cache, plugins).result.Ok?
    ensures var c := CheckUpdatesSpec(env, cache, plugins);
      var f := FetchInfos(env, c.cache, Elements(c.result.value));
      var s := InfoOfPluginsHavingUpdateSpec(env, cache, plugins, themesOnly);
      && s.cache == f.cache && s.requests == c.requests + f.requests
      && (f.result.Err? ==> s.result == Err(f.result.error))
      && (f.result.Ok? ==> s.result == Ok(ThemeFilter(f.result.value, themesOnly)))
  {
  }

  /** getInfoOfPluginsHavingUpdate answers only themes when asked for themes, and only non-themes otherwise. */
  lemma InfoOfPluginsHavingUpdateOnlyRequestedKind(env: Env, cache: map<string, Value>, plugins: seq<Plugin>, themesOnly: bool, d: Value)
    requires InfoOfPluginsHavingUpdateSpec(env, cache, plugins, themesOnly).result.Ok?
    requires d in InfoOfPluginsHavingUpdateSpec(env, cache, plugins, themesOnly).result.value
    ensures IsTheme(d) == themesOnly
  {
    var c := CheckUpdatesSpec(env, cache, plugins);
    var f := FetchInfos(env, c.cache, Elements(c.result.value));
    ThemeFilterKeepsOnlyRequestedKind(f.result.value, themesOnly, d);
  }

  /**
   * Asking once for themes and once for non-themes from the same cache splits
   * the fetched infos between the two answers: each one lands in exactly one.
   */
  lemma ThemesAndPluginsSplitUpdates(env: Env, cache: map<string, Value>, plugins: seq<Plugin>)
    requires CheckUpdatesSpec(env, cache, plugins).result.Ok?
    requires InfoOfPluginsHavingUpdateSpec(env, cache, plugins, true).result.Ok?
    ensures InfoOfPluginsHavingUpdateSpec(env, cache, plugins, false).result.Ok?
    ensures |InfoOfPluginsHavingUpdateSpec(env, cache, plugins, true).result.value|
          + |InfoOfPluginsHavingUpdateSpec(env, cache, plugins, false).result.value|
         == |Elements(CheckUpdatesSpec(env, cache, plugins).result.value)|
    ensures var c := CheckUpdatesSpec(env, cache, plugins);
      multiset(InfoOfPluginsHavingUpdateSpec(env, cache, plugins, true).result.value)
        + multiset(InfoOfPluginsHavingUpdateSpec(env, cache, plugins, false).result.value)
      == multiset(FetchInfos(env, c.cache, Elements(c.result.value)).result.value)
  {
    var c := CheckUpdatesSpec(env, cache, plugins);
    var f := FetchInfos(env, c.cache, Elements(c.result.value));
    ThemeFilterPartitions(f.result.value);
    ThemeFilterMultiset(f.result.value);
  }

  // ---------------------------------------------------------------- search

  function SearchParams(keywords: string, query: string, sort: string): seq<Param> {
    [("keywords", keywords), ("query", query), ("sort", sort)]
  }

  /** The search parameters are already in key order, so the query lists them as written. */
  lemma SearchParamsAreSorted(keywords: string, query: string, sort: string)
    ensures KSort(SearchParams(keywords, query, sort)) == SearchParams(keywords, query, sort)
  {
  }

  /** `$response['plugins']` when it is not empty, `array()` otherwise. */
  function PluginsField(response: Value): (r: Value)
    ensures r == Get(response, "plugins") || r == EmptyArray
    ensures !IsEmpty(Get(response, "plugins")) ==> r == Get(response, "plugins")
    ensures IsEmpty(r) ==> r == EmptyArray
  {
    if !IsEmpty(Get(response, "plugins")) then Get(response, "plugins") else EmptyArray
  }

  /** searchForPlugins (action `plugins`) and searchForThemes (action `themes`). */
  function SearchSpec(env: Env, cache: map<string, Value>, action: string, keywords: string, query: string, sort: string): (s: Step<Value>)
  {
    var f := FetchSpec(env, cache, action, SearchParams(keywords, query, sort));
    match f.result
    case Err(e) => f
    case Ok(response) => Step(Ok(PluginsField(response)), f.cache, f.requests)
  }

  // ---------------------------------------------------------------- download

  const NoVersionsMessage: string := "Plugin has no versions."
  const CoreVersionParam: string := "?coreVersion="

  /**
   * The download URL of a plugin's info: the `download` path of the LAST entry
   * of `versions`, between the domain and `?coreVersion=<version>`.
   */
  function DownloadUrlOf(info: Value, coreVersion: string): (r: Result<string, Failure>)
    ensures r.Err? <==> IsEmpty(Get(info, "versions"))
    ensures r.Err? ==> r.error == MarketplaceApiException(NoVersionsMessage)
    ensures r.Ok? ==> Domain <= r.value && !IsEmpty(Str(r.value))
    ensures r.Ok? ==>
              && |CoreVersionParam + coreVersion| <= |r.value|
              && r.value[|r.value| - |CoreVersionParam + coreVersion|..] == CoreVersionParam + coreVersion
  {
    var versions := Get(info, "versions");
    if IsEmpty(versions) then Err(MarketplaceApiException(NoVersionsMessage))
    else
      var latest := LastElement(versions);
      var url := Domain + ToPhpString(Get(latest, "download")) + CoreVersionParam + coreVersion;
      assert url[..|Domain|] == Domain;
      Ok(url)
  }

  /** The URL is built from the last entry of `versions`, whatever the others hold. */
  lemma DownloadUrlTakesLastVersion(info: Value, coreVersion: string, versions: seq<(Key, Value)>)
    requires Get(info, "versions") == Arr(versions) && versions != []
    ensures DownloadUrlOf(info, coreVersion)
         == Ok(Domain + ToPhpString(Get(versions[|versions| - 1].1, "download")) + CoreVersionParam + coreVersion)
  {
  }

  /** getDownloadUrl: fetch the info, then pick the URL. */
  function DownloadUrlSpec(env: Env, cache: map<string, Value>, name: string): (s: Step<string>)
  {
    var f := PluginInfoSpec(env, cache, name);
    match f.result
    case Err(e) => Step(Err(e), f.cache, f.requests)
    case Ok(info) => Step(DownloadUrlOf(info, env.coreVersion), f.cache, f.requests)
  }
}
