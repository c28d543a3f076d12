/**
 * The marketplace client: an object holding the marketplace cache, whose
 * operations read and update that cache in place and send HTTP requests.
 * Each operation is proved to act as its specification in `Marketplace`.
 */
module CorePluginsAdmin {
  import opened Wrappers
  import opened PhpValue
  import opened KeySort
  import opened Cache
  import opened Marketplace

  class MarketplaceApiClient {
    const env: Env
    /** The `marketplace` cache namespace, shared with every other handle on it. */
    const cache: CacheFile
    /** Every URL sent with Http::sendHttpRequest, in order. */
    ghost var requests: seq<string>
    /** Every (URL, target) handed to Http::fetchRemoteFile, in order. */
    ghost var transfers: seq<(string, string)>

    constructor (env: Env, store: CacheFile)
      requires store.namespace == CacheNamespace
      ensures this.env == env && cache == store && cache.namespace == CacheNamespace
      ensures requests == [] && transfers == []
    {
      this.env := env;
      cache := store;
      requests := [];
      transfers := [];
    }

    /** Empties the shared `marketplace` namespace; needs no client. */
    static method ClearAllCacheEntries(store: CacheFile)
      requires store.namespace == CacheNamespace
      modifies store
      ensures store.entries == map[]
    {
      store.DeleteAll();
    }

    method GetCachedResult(action: string, query: string) returns (r: Option<Value>)
      ensures r == CachedResult(cache.entries, CacheKey(env, action, query))
    {
      var key := CacheKey(env, action, query);
      var v := cache.Get(key);
      r := if v == Bool(false) then None else Some(v);
    }

    method CacheResult(action: string, query: string, result: Value)
      modifies cache
      ensures cache.entries == old(cache.entries)[CacheKey(env, action, query) := result]
    {
      var key := CacheKey(env, action, query);
      cache.Set(key, result);
    }

    method Fetch(action: string, params: seq<Param>) returns (r: Result<Value, Failure>)
      modifies this`requests, cache
      ensures var s := FetchSpec(env, old(cache.entries), action, params);
        r == s.result && cache.entries == s.cache && requests == old(requests) + s.requests
    {
      var sorted := KSort(params);
      var query := env.buildQuery(sorted);
      var cached := GetCachedResult(action, query);
      if cached.Some? {
        return Ok(cached.value);
      }
      var url := Endpoint + action + "?" + query;
      var response := env.sendHttpRequest(url);
      requests := requests + [url];
      var result := env.jsonDecode(response);
      if result.Null? {
        return Err(MarketplaceApiException(UnreadableMessage(response)));
      }
      if !IsEmpty(Get(result, "error")) {
        return Err(ErrorFailure(Get(result, "error")));
      }
      CacheResult(action, query, result);
      return Ok(result);
    }

    method GetPluginInfo(name: string) returns (r: Result<Value, Failure>)
      modifies this`requests, cache
      ensures var s := PluginInfoSpec(env, old(cache.entries), name);
        r == s.result && cache.entries == s.cache && requests == old(requests) + s.requests
    {
      var action := "plugins/" + name + "/info";
      r := Fetch(action, []);
    }

    method CheckUpdates(plugins: seq<Plugin>) returns (r: Result<Value, Failure>)
      modifies this`requests, cache
      ensures var s := CheckUpdatesSpec(env, old(cache.entries), plugins);
        r == s.result && cache.entries == s.cache && requests == old(requests) + s.requests
    {
      var params: seq<Value> := [];
      for i := 0 to |plugins|
        invariant params == UpdateRequests(env, plugins[..i])
      {
        assert plugins[..i + 1][..i] == plugins[..i];
        if !env.isBundledWithCore(plugins[i].name) {
          params := params + [RequestEntry(plugins[i])];
        }
      }
      assert plugins[..|plugins|] == plugins;
      var body := Arr([(StrKey("plugins"), ListOf(params))]);
      var hasUpdates := Fetch(CheckUpdatesAction, [("plugins", env.jsonEncode(body))]);
      if hasUpdates.Ok? && IsEmpty(hasUpdates.value) {
        return Ok(EmptyArray);
      }
      return hasUpdates;
    }

    method GetInfoOfPluginsHavingUpdate(plugins: seq<Plugin>, themesOnly: bool) returns (r: Result<seq<Value>, Failure>)
      modifies this`requests, cache
      ensures var s := InfoOfPluginsHavingUpdateSpec(env, old(cache.entries), plugins, themesOnly);
        r == s.result && cache.entries == s.cache && requests == old(requests) + s.requests
    {
      var hasUpdates := CheckUpdates(plugins);
      if hasUpdates.Err? {
        return Err(hasUpdates.error);
      }
      ghost var c := CheckUpdatesSpec(env, old(cache.entries), plugins);
      ghost var f := FetchInfos(env, c.cache, Elements(c.result.value));
      ghost var r0, r1, r2 := old(requests), c.requests, f.requests;
      assert r0 + r1 + r2 == r0 + (r1 + r2);
      InfoOfPluginsHavingUpdateAfterLoop(env, old(cache.entries), plugins, themesOnly);
      r := PluginDetailsOfUpdates(Elements(hasUpdates.value), themesOnly);
    }

    /**
     * The `foreach` of getInfoOfPluginsHavingUpdate: fetch the info of every
     * updatable entry in order and keep those of the requested kind.
     */
    method PluginDetailsOfUpdates(updates: seq<Value>, themesOnly: bool) returns (r: Result<seq<Value>, Failure>)
      modifies this`requests, cache
      ensures var f := FetchInfos(env, old(cache.entries), updates);
        && cache.entries == f.cache && requests == old(requests) + f.requests
        && (f.result.Err? ==> r == Err(f.result.error))
        && (f.result.Ok? ==> r == Ok(ThemeFilter(f.result.value, themesOnly)))
    {
      ghost var cache0, requests0 := cache.entries, requests;
      ghost var infos: seq<Value> := [];
      ghost var sent: seq<string> := [];
      var pluginDetails: seq<Value> := [];
      assert requests0 + [] == requests0;
      for i := 0 to |updates|
        invariant FetchInfos(env, cache0, updates[..i]) == Step(Ok(infos), cache.entries, sent)
        invariant requests == requests0 + sent
        invariant pluginDetails == ThemeFilter(infos, themesOnly)
      {
        ghost var cacheBefore := cache.entries;
        var plugin := GetPluginInfo(UpdateName(updates[i]));
        ghost var f := PluginInfoSpec(env, cacheBefore, UpdateName(updates[i]));
        FetchInfosNext(env, cache0, updates, i);
        assert requests0 + sent + f.requests == requests0 + (sent + f.requests);
        sent := sent + f.requests;
        if plugin.Err? {
          FetchInfosStopsAtFailure(env, cache0, updates, i + 1);
          return Err(plugin.error);
        }
        infos := infos + [plugin.value];
        if IsTheme(plugin.value) == themesOnly {
          pluginDetails := pluginDetails + [plugin.value];
        }
      }
      assert updates[..|updates|] == updates;
      return Ok(pluginDetails);
    }

    method SearchForPlugins(keywords: string, query: string, sort: string) returns (r: Result<Value, Failure>)
      modifies this`requests, cache
      ensures var s := SearchSpec(env, old(cache.entries), "plugins", keywords, query, sort);
        r == s.result && cache.entries == s.cache && requests == old(requests) + s.requests
    {
      var response := Fetch("plugins", [("keywords", keywords), ("query", query), ("sort", sort)]);
      if response.Err? {
        return response;
      }
      if !IsEmpty(Get(response.value, "plugins")) {
        return Ok(Get(response.value, "plugins"));
      }
      return Ok(EmptyArray);
    }

    method SearchForThemes(keywords: string, query: string, sort: string) returns (r: Result<Value, Failure>)
      modifies this`requests, cache
      ensures var s := SearchSpec(env, old(cache.entries), "themes", keywords, query, sort);
        r == s.result && cache.entries == s.cache && requests == old(requests) + s.requests
    {
      var response := Fetch("themes", [("keywords", keywords), ("query", query), ("sort", sort)]);
      if response.Err? {
        return response;
      }
      if !IsEmpty(Get(response.value, "plugins")) {
        return Ok(Get(response.value, "plugins"));
      }
      return Ok(EmptyArray);
    }

    method GetDownloadUrl(pluginOrThemeName: string) returns (r: Result<string, Failure>)
      modifies this`requests, cache
      ensures var s := DownloadUrlSpec(env, old(cache.entries), pluginOrThemeName);
        r == s.result && cache.entries == s.cache && requests == old(requests) + s.requests
    {
      var plugin := GetPluginInfo(pluginOrThemeName);
      if plugin.Err? {
        return Err(plugin.error);
      }
      var versions := Get(plugin.value, "versions");
      if IsEmpty(versions) {
        return Err(MarketplaceApiException(NoVersionsMessage));
      }
      var latestVersion := LastElement(versions);
      var downloadUrl := ToPhpString(Get(latestVersion, "download"));
      return Ok(Domain + downloadUrl + CoreVersionParam + env.coreVersion);
    }

    /**
     * Resolves the download URL (a failure propagates) and hands it to the
     * file transfer, whose success is the answer.
     */
    method Download(pluginOrThemeName: string, target: string) returns (r: Result<bool, Failure>)
      modifies this`requests, this`transfers, cache
      ensures var s := DownloadUrlSpec(env, old(cache.entries), pluginOrThemeName);
        && cache.entries == s.cache && requests == old(requests) + s.requests
        && (s.result.Err? ==> r == Err(s.result.error) && transfers == old(transfers))
        && (s.result.Ok? ==> r == Ok(env.fetchRemoteFile(s.result.value, target))
                             && transfers == old(transfers) + [(s.result.value, target)])
    {
      var downloadUrl := GetDownloadUrl(pluginOrThemeName);
      if downloadUrl.Err? {
        return Err(downloadUrl.error);
      }
      if IsEmpty(Str(downloadUrl.value)) {
        return Ok(false);
      }
      var success := env.fetchRemoteFile(downloadUrl.value, target);
      transfers := transfers + [(downloadUrl.value, target)];
      return Ok(success);
    }
  }
}
