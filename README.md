# Marketplace API client, modelled in Dafny

This project models Piwik's marketplace API client, `MarketplaceApiClient` in
the `CorePluginsAdmin` plugin. The client asks the plugin marketplace at
`http://plugins.piwik.org/api/1.0/` for plugin information, update checks,
searches and download URLs. Every successful answer is kept in the
`marketplace` file cache under a key derived from the action and the sorted
query string.

Layout:

- `wrappers.dfy` — `Option` and `Result`.
- `php_value.dfy` — the PHP values the client handles (null, booleans,
  integers, strings, ordered arrays), with `empty()`, `$v['k']`, `foreach`,
  `array_pop` and the string cast.
- `key_sort.dfy` — `ksort` on a string-keyed parameter array, as an insertion
  sort. It is proved to be a permutation, sorted, and independent of the input
  order when the keys are distinct.
- `cache_file.dfy` — the `CacheFile` namespace: a map that is read, written
  and emptied in place, answering `false` for a missing key.
- `marketplace.dfy` — the client's behaviour as pure functions. Each operation
  gives a `Step`: the outcome, the cache afterwards, and the HTTP requests
  sent. The properties of the client are proved about these functions.
- `client.dfy` — the client itself: a class holding the cache, whose methods
  follow the source statement by statement. Each operation method (fetch and
  the public operations built on it) is proved to produce exactly the result,
  cache and request log of its `Step` function. `Download` also fixes the
  file transfers it starts, in `transfers`. The cache helpers and
  `ClearAllCacheEntries` state the new cache directly.

HTTP, JSON, `http_build_query`, `md5`, the plugin manager's "bundled with
core" test and the core version are not written out. They are the fields of
the `Env` datatype, given to the client at construction. The URLs the client
sends are recorded in the ghost field `requests`, and the file transfers in
`transfers`. A thrown `MarketplaceApiException`, carrying its string message,
is the `Err` side of a `Result`. So is the fatal error PHP raises when the
exception would be built from an array.

## Model

| member | source | states |
|---|---|---|
| Marketplace.CacheKeyShape | plugins/CorePluginsAdmin/MarketplaceApiClient.php:177-180 | The cache key is `api.1.0.`, then the action with every `/` replaced by `.`, then `.`, then the md5 of the query string. |
| Marketplace.CacheKeyIgnoresParamOrder | plugins/CorePluginsAdmin/MarketplaceApiClient.php:137-143 | Two parameter arrays holding the same distinct-keyed entries in any order give the same cache key and the same request URL, because of `ksort`. |
| KeySort.KSort | plugins/CorePluginsAdmin/MarketplaceApiClient.php:137 | `ksort` returns a permutation of its input: the multiset of entries is unchanged. |
| KeySort.KSortOrdered | plugins/CorePluginsAdmin/MarketplaceApiClient.php:137 | The result of `ksort` is ordered by key, and strictly ordered when the keys are distinct. |
| KeySort.KSortIgnoresOrder | plugins/CorePluginsAdmin/MarketplaceApiClient.php:137 | Two distinct-keyed arrays with the same entries sort to the same array. |
| Marketplace.CachedResult | plugins/CorePluginsAdmin/MarketplaceApiClient.php:139-141 | A lookup is a hit exactly when the key is stored with a value other than `false`, and it then answers that value. |
| Marketplace.StoredResultIsServed | plugins/CorePluginsAdmin/MarketplaceApiClient.php:170-175 | After `cacheResult` stores a value other than `false`, looking up the same key answers that value. |
| Marketplace.ClearedCacheMisses | plugins/CorePluginsAdmin/MarketplaceApiClient.php:39-43 | After the namespace is emptied, every lookup misses. |
| Marketplace.Excerpt | plugins/CorePluginsAdmin/MarketplaceApiClient.php:149 | `substr($response, 0, 50)` is a prefix of the body, of length min(50, body length). |
| Marketplace.UnreadableMessage | plugins/CorePluginsAdmin/MarketplaceApiClient.php:148-150 | The message for an unreadable body is the fixed prefix, then the excerpt, then the fixed suffix. Its length is bounded whatever the body's length. |
| Marketplace.ErrorFailure | plugins/CorePluginsAdmin/MarketplaceApiClient.php:153-154 | An `error` field becomes the exception's string message: a string verbatim, `true` as `1`, an integer in decimal with a leading `-` when negative. An array `error` gives the fatal wrong-parameters error and no MarketplaceApiException. |
| Marketplace.FetchSpec | plugins/CorePluginsAdmin/MarketplaceApiClient.php:135-161 | A hit answers the cached value, with no request and no cache change. A miss sends exactly one request, to `<endpoint><action>?<query>`. A failure leaves the cache unchanged. A success stores exactly its own key and removes no key. |
| Marketplace.FetchMissOutcome | plugins/CorePluginsAdmin/MarketplaceApiClient.php:145-155 | On a miss, fetch succeeds exactly when the body decodes to non-null and has an empty `error`, and it then answers the decoded value. A null decode throws the excerpt message. Otherwise the `error` field is non-empty, and the failure is the one `ErrorFailure` builds from it: a string `error` is thrown as that message. |
| Marketplace.RefetchIsServedFromCache | plugins/CorePluginsAdmin/MarketplaceApiClient.php:137-160 | After a successful fetch whose value is not `false`, fetching again is a hit that sends no request and changes nothing, even with the parameters in another order. |
| Marketplace.FalseResultIsFetchedAgain | plugins/CorePluginsAdmin/MarketplaceApiClient.php:141-157 | A response that decodes to `false` is stored, but the next fetch still misses and sends the request again. |
| Marketplace.UpdateRequestsAppend | plugins/CorePluginsAdmin/MarketplaceApiClient.php:73-78 | The update-request entries for `a + b` are those for `a` followed by those for `b`, so the input order is kept. |
| Marketplace.OnlyUnbundledPluginsAreSent | plugins/CorePluginsAdmin/MarketplaceApiClient.php:73-78 | Every entry sent to checkUpdates is the name and version of an input plugin that is not bundled with core. |
| Marketplace.EveryUnbundledPluginIsSent | plugins/CorePluginsAdmin/MarketplaceApiClient.php:73-78 | Every input plugin that is not bundled with core is sent to checkUpdates. |
| Marketplace.CheckUpdatesAnswer | plugins/CorePluginsAdmin/MarketplaceApiClient.php:82-88 | checkUpdates answers the fetched value and has the same effects as the fetch. An empty answer becomes `array()`, and an exception propagates. |
| Marketplace.FetchInfos | plugins/CorePluginsAdmin/MarketplaceApiClient.php:102-103 | Fetching the info of each updatable entry in turn gives one info per entry and removes no cache key. |
| Marketplace.FetchInfosStopsAtFailure | plugins/CorePluginsAdmin/MarketplaceApiClient.php:102-103 | Once fetching the info of some entry throws, the loop ends with that exception, cache and request log. |
| Marketplace.FetchInfosFetchesEveryUpdate | plugins/CorePluginsAdmin/MarketplaceApiClient.php:102-103 | When the loop completes, every entry's info is in the cache, including entries the filter drops. |
| Marketplace.ThemeFilterAppend | plugins/CorePluginsAdmin/MarketplaceApiClient.php:102-107 | The filter keeps the input order: the infos kept from `a + b` are those kept from `a`, then those kept from `b`. |
| Marketplace.ThemeFilterKeepsOnlyRequestedKind | plugins/CorePluginsAdmin/MarketplaceApiClient.php:105-107 | Every kept info comes from the fetched infos, and its `!empty(isTheme)` equals `themesOnly`. |
| Marketplace.ThemeFilterKeepsRequestedKind | plugins/CorePluginsAdmin/MarketplaceApiClient.php:105-107 | Every fetched info whose `!empty(isTheme)` equals `themesOnly` is kept. |
| Marketplace.ThemeFilterPartitions | plugins/CorePluginsAdmin/MarketplaceApiClient.php:105 | The themes kept plus the non-themes kept number exactly the fetched infos. |
| Marketplace.ThemeFilterMultiset | plugins/CorePluginsAdmin/MarketplaceApiClient.php:105-107 | As multisets, the themes kept plus the non-themes kept are exactly the fetched infos, so each info lands in exactly one of the two. |
| Marketplace.InfoOfPluginsHavingUpdateOnlyRequestedKind | plugins/CorePluginsAdmin/MarketplaceApiClient.php:96-111 | getInfoOfPluginsHavingUpdate answers only themes when asked for themes, and only non-themes otherwise. |
| Marketplace.ThemesAndPluginsSplitUpdates | plugins/CorePluginsAdmin/MarketplaceApiClient.php:96-111 | From the same cache, the themes answer and the plugins answer together number exactly the updatable entries. As multisets, the two answers together are exactly the fetched infos, so each info lands in exactly one answer. |
| Marketplace.SearchParamsAreSorted | plugins/CorePluginsAdmin/MarketplaceApiClient.php:115 | The search parameters `keywords`, `query`, `sort` are already in key order, so `ksort` leaves them as written. |
| Marketplace.PluginsField | plugins/CorePluginsAdmin/MarketplaceApiClient.php:117-121 | A search answers the response's `plugins` field when it is non-empty, and `array()` otherwise, so an empty answer is always `array()`. |
| Marketplace.DownloadUrlOf | plugins/CorePluginsAdmin/MarketplaceApiClient.php:191-198 | The URL cannot be resolved exactly when `versions` is empty, and the exception is then `Plugin has no versions.`. Otherwise the URL starts with the domain, ends with `?coreVersion=<version>`, and is never empty. |
| Marketplace.DownloadUrlTakesLastVersion | plugins/CorePluginsAdmin/MarketplaceApiClient.php:195-198 | The URL is the domain, then the `download` field of the last entry of `versions`, then `?coreVersion=<version>`. |
| Cache.CacheFile.Get | plugins/CorePluginsAdmin/MarketplaceApiClient.php:167 | The cache answers the stored value, or `false` for a missing key. |
| Cache.CacheFile.Set | plugins/CorePluginsAdmin/MarketplaceApiClient.php:174 | Storing updates exactly that key. |
| Cache.CacheFile.DeleteAll | plugins/CorePluginsAdmin/MarketplaceApiClient.php:42 | Deleting all entries empties the namespace. |
| CorePluginsAdmin.MarketplaceApiClient.constructor | plugins/CorePluginsAdmin/MarketplaceApiClient.php:34-37 | A new client is given the `marketplace` namespace, as its only store. It keeps that cache and has sent nothing yet. |
| CorePluginsAdmin.MarketplaceApiClient.ClearAllCacheEntries | plugins/CorePluginsAdmin/MarketplaceApiClient.php:39-43 | Given the `marketplace` namespace, the same one every client reads, it leaves that namespace empty. |
| CorePluginsAdmin.MarketplaceApiClient.GetCachedResult | plugins/CorePluginsAdmin/MarketplaceApiClient.php:163-168 | Answers the `CachedResult` of the current cache under the action's key, so a missing key or a stored `false` is a miss. |
| CorePluginsAdmin.MarketplaceApiClient.CacheResult | plugins/CorePluginsAdmin/MarketplaceApiClient.php:170-175 | The cache afterwards is the old cache with the action's key set to the result. |
| CorePluginsAdmin.MarketplaceApiClient.Fetch | plugins/CorePluginsAdmin/MarketplaceApiClient.php:135-161 | The outcome, the new cache and the newly sent requests are exactly those of `FetchSpec`, whose properties are proved above. |
| CorePluginsAdmin.MarketplaceApiClient.GetPluginInfo | plugins/CorePluginsAdmin/MarketplaceApiClient.php:45-50 | Fetches `plugins/<name>/info` with no parameters, with the outcome and effects of that fetch. |
| CorePluginsAdmin.MarketplaceApiClient.CheckUpdates | plugins/CorePluginsAdmin/MarketplaceApiClient.php:69-89 | Its loop builds exactly the entries of the unbundled plugins, in order. Outcome and effects are those of `CheckUpdatesSpec`. |
| CorePluginsAdmin.MarketplaceApiClient.GetInfoOfPluginsHavingUpdate | plugins/CorePluginsAdmin/MarketplaceApiClient.php:96-111 | Outcome and effects are those of `InfoOfPluginsHavingUpdateSpec`: check for updates, fetch every entry's info, keep the requested kind. |
| CorePluginsAdmin.MarketplaceApiClient.PluginDetailsOfUpdates | plugins/CorePluginsAdmin/MarketplaceApiClient.php:100-110 | The `foreach` fetches every entry's info in order. It stops with the first exception, and otherwise answers the infos of the requested kind. |
| CorePluginsAdmin.MarketplaceApiClient.SearchForPlugins | plugins/CorePluginsAdmin/MarketplaceApiClient.php:113-122 | Fetches `plugins` with keywords, query and sort. It answers the `plugins` field or `array()`, and an exception propagates. |
| CorePluginsAdmin.MarketplaceApiClient.SearchForThemes | plugins/CorePluginsAdmin/MarketplaceApiClient.php:124-133 | The same as searchForPlugins, on action `themes`, still reading the `plugins` field. |
| CorePluginsAdmin.MarketplaceApiClient.GetDownloadUrl | plugins/CorePluginsAdmin/MarketplaceApiClient.php:187-199 | A failure to fetch the info propagates. Otherwise it answers `DownloadUrlOf` the info. The effects are those of the info fetch. |
| CorePluginsAdmin.MarketplaceApiClient.Download | plugins/CorePluginsAdmin/MarketplaceApiClient.php:52-63 | A failure to resolve the URL propagates, and nothing is transferred. Otherwise the resolved URL and target are handed to the file transfer, exactly once, and its success is the answer. |

## Left out

- HTTP transport errors and the 30-second timeout are not modelled. `Http::sendHttpRequest` is a total function from URL to body, and the same URL always gets the same body.
- `Http::fetchRemoteFile` is a total function of URL and target. Writing the target file is not modelled.
- The file-backed cache's 1200-second expiry and its persistence on disk are not modelled. The namespace is an in-memory map shared by every client holding it, so an entry never expires.
- One `CacheFile` object stands for the `marketplace` namespace. The client and `ClearAllCacheEntries` are given that object. In PHP, every `new CacheFile('marketplace')` reaches the same files. In the model, a second `CacheFile` built with the same name has entries of its own, and emptying it leaves the client's cache untouched.
- `json_decode`, `json_encode`, `http_build_query` and `md5` are given as functions and not written out. Nothing about JSON syntax or the hash is proved.
- Floating-point JSON numbers are not modelled: a value is null, a boolean, an integer, a string or an array.
- Reading `$x['name']` or `$x['download']` when `$x` is a string answers that string's first character in PHP. The model answers null there, which only matters for malformed marketplace answers.
- `ksort` is modelled as a lexicographic sort on string keys. PHP's numeric comparison of numeric-string keys is not modelled, since the client's parameter keys are fixed words.
- `substr` counts bytes, while the model counts characters.
- The `Plugin` objects are reduced to the name and version the client reads from them.
- `$x['k']` inside `empty()` on a string `$x` is false in PHP 5.4 and later, which is what the model's null lookup gives. PHP 5.3's reading of the string's first character is not modelled.
- The `MarketplaceApiException` class is not part of this model. It is taken to keep `Exception`'s constructor, so its message is the string form of its argument, and an array argument is a fatal error. That error is the separate failure `WrongExceptionParameters`.
- `PluginsManager` and `Version::VERSION` are not part of this model. They enter through `Env`.
- Several clients writing the same cache concurrently is not modelled.
- CorePluginsAdmin.MarketplaceApiClient.GetInfoOfPluginsHavingUpdate: its `foreach` is a separate method, `PluginDetailsOfUpdates`, to keep each proof small. It runs the same statements in the same order.
- CorePluginsAdmin.MarketplaceApiClient.Download: the `empty($downloadUrl)` branch (MarketplaceApiClient.php:56-58) answers `false`. A URL that cannot be resolved never reaches it: `getDownloadUrl` throws (line 192), and the exception propagates out of `download` (line 54). The model keeps the branch and proves it unreachable, since a resolved URL always starts with the domain.
