# prox: the proxy store and its pools, in Dafny

prox is a Go library that gathers free proxies from providers and hands
them out one at a time. This project models its storage and pool layer:

- the host-keyed `providers.Set` and the country-bucketed `prox.Set`;
- the filters;
- the provider registry (lookup, the multi-provider, freezing);
- the dummy and static providers;
- the ProxyScrape source: URL building and body parsing;
- the three pools. `SimplePool` has one provider. `ComplexPool` adds
  fallback providers, a cache, filters and reload-on-empty. `Pool` is
  driven by sources and options.

Every operation is a pure function, or a method where Go picks from a map
in an unspecified order. Each one returns the new state instead of
mutating it.

Some Go behaviour has no direct Dafny counterpart, and is modelled as
follows:

- **Randomness.** `rand.Intn(n)` is an input `choice`, read as
  `choice % n`. A pick from a map is a nondeterministic `:|` choice.
- **Concurrency.** Goroutine fan-out over providers is a loop in list
  order. Every provider writes into the one shared collector set.
- **Outside code.** `url.Parse`, `castProxy` and the HTTP client are
  parameters.
- **Pointer aliasing.** Where it matters, it is modelled explicitly. In
  `ComplexPool` and `Pool`, a `Live` cache reads whatever the live sets
  hold. In `CountrySet`, `Clone` shares the map object.

Modules, one per file:

| module | file | models |
|---|---|---|
| `Results` | results.dfy | `Option` and `Result` |
| `Text` | text.dfy | `strings.Split/Join/Trim/ToLower/Map`, `unicode.IsSpace`, decimal `%d` |
| `Urls` | urls.dfy | the scheme and host of a `*url.URL` |
| `Providers` | providers_types.dfy | providers/types.go |
| `Proxies` | proxy.dfy | `prox.Proxy` and `CastProxy` |
| `Filters` | filters.dfy | filters.go |
| `CountrySet` | country_set.dfy | set.go |
| `Registry` | registry.dfy | providers.go |
| `DummyProviders` | dummy_providers.dfy | providers/prov_dummy.go |
| `StaticProvider` | static_provider.dfy | providers/prov_static.go |
| `ProxyScrape` | proxyscrape.dfy | sources/proxyscrape.go |
| `SimplePool` | pool_simple.dfy | pool_simple.go |
| `ComplexPool` | pool_complex.dfy | pool_complex.go |
| `ComplexPoolScenarios` | pool_complex_scenarios.dfy | pool_complex_test.go |
| `SourcePool` | pool_sources.dfy | pool.go |

Where the code and its documentation disagree, the model follows the code:

- **A failed `ComplexPool.Load` still changes the pool.** `Fetch` adds the
  proxies every provider returned to `All` and `Unused` before it checks
  whether the collector is empty, so a failed load is not a no-op
  (`ComplexPool.FailedLoadKeepsAdditions`).
- **A successful load keeps an unfiltered cache.** `Filter` replaces the
  live sets, so the cache keeps the sets as they were fetched, unfiltered
  (`ComplexPool.LoadCachesUnfiltered`).
- **`Fetch` in pool.go keeps the cache live.** It clones both sets into
  the cache, but `Clone` shares the map. The cache therefore reads the
  live sets and is never an independent snapshot
  (`CountrySet.CloneSharesWrites`, `SourcePool.Fetch`).
- **Options' errors are dropped at construction.** `NewComplexPool`
  ignores the error an option returns. The `Option` method returns only
  the last option's error.

## Model

| member | source | states |
|---|---|---|
| Text.Split | providers/prov_static.go:18-21 | splitting on a one-character separator gives one piece more than there are separators, and no piece contains the separator |
| Text.JoinSplit | providers/prov_static.go:18-21 | joining the pieces of a split with the same separator gives the original text back |
| Text.SplitJoin | providers.go:69-75 | splitting a join of at least one separator-free piece gives exactly those pieces back |
| Text.TrimLeft | sources/proxyscrape.go:88 | the result is a suffix of the input; everything dropped is the trimmed character, and the result does not start with it |
| Text.TrimRight | sources/proxyscrape.go:88 | the result is a prefix of the input; everything dropped is the trimmed character, and the result does not end with it |
| Text.Lower | filters.go:53-54 | lower-casing keeps the length and maps each character on its own |
| Text.LowerIdempotent | filters.go:53-54 | lower-casing an already lower-cased type name changes nothing |
| Text.StripSpace | sources/proxyscrape.go:96-101 | the whitespace-deleting map keeps exactly the non-space characters, and leaves space-free text unchanged |
| Text.DigitsRoundTrip | sources/proxyscrape.go:21-30 | the decimal rendering of a millisecond count reads back as that count |
| Proxies.CastProxy | proxy.go:205-211 | the cast copies URL, provider and country |
| Providers.NewProxy | providers/types.go:23-34 | a proxy is built exactly when the raw URL parses, with the given provider and country and not marked used |
| Providers.NewSet | providers/types.go:101-105 | a new set is empty, has no members and is consistent |
| Providers.Add | providers/types.go:44-54 | adding a proxy whose host is already a member changes nothing; otherwise the proxy is appended and its host becomes a member; membership stays consistent |
| Providers.FirstMatch | providers/types.go:79-85 | the loop stops at the first stored proxy spelt like the one removed, and finds none exactly when no stored proxy is spelt like it |
| Providers.SwapOut | providers/types.go:81-82 | swapping the match with the last slot and truncating removes exactly that one element and moves the last into its slot |
| Providers.Remove | providers/types.go:76-89 | the host always leaves the membership; the stored list loses the first proxy spelt like the removed one, if there is one, and otherwise stays as it was |
| Providers.RemoveKeepsConsistent | providers/types.go:76-89 | removing keeps a consistent set consistent when the match found by spelling has the removed proxy's host |
| Providers.RemoveOtherSchemeBreaksMembership | providers/types.go:76-89 | removing a SOCKS5 proxy whose host an HTTP member shares drops the host but keeps the HTTP proxy stored, and re-adding it stores it twice |
| Providers.AddAll | providers/types.go:44-54 | adding a list in order makes its hosts members, keeps the old list as a prefix, adds at most one slot per proxy, and keeps consistency |
| Providers.AddAllFresh | providers/types.go:44-54 | adding proxies with distinct, new hosts appends all of them, in order |
| Providers.ConsistentLength | providers/types.go:92-98 | for a consistent set, the length is the number of distinct member hosts |
| Filters.Listed | filters.go:21-26 | the loop over the countries finds a match exactly when the country is listed |
| Filters.FilterAllowCountries | filters.go:16-30 | admits a proxy exactly when its country is listed; an empty list admits nothing |
| Filters.FilterDisallowCountries | filters.go:34-48 | admits a proxy exactly when its country is not listed; an empty list admits everything |
| Filters.FirstInvalidType | filters.go:53-59 | finds the first argument that is not http, https, socks4 or socks5 once lower-cased, and finds none exactly when all are valid |
| Filters.FilterProxyTypes | filters.go:51-73 | succeeds exactly when every lower-cased type is valid, and then admits a proxy exactly when its scheme is one of them; otherwise panics naming the first bad type, with the arguments up to it lower-cased in place |
| Filters.ApplyFilters | filters.go:94-121 | the result is an in-order subsequence of the input holding exactly the proxies every filter admits |
| Filters.AdmitsEvery | filters.go:101-112 | the inner loop admits a proxy exactly when every filter admits it |
| Filters.RejectionIsFinal | filters.go:107-111 | once a filter rejects a proxy, no later filter can admit it |
| Filters.NoFiltersKeepAll | filters.go:94-121 | with no filters, every proxy is kept, in order |
| Filters.AdmitsConcat | filters.go:101-112 | two filter lists together admit a proxy exactly when each list admits it |
| Filters.OnePassEqualsTwo | filters.go:94-121 | applying `f1 + f2` in one pass equals applying `f1` and then `f2` |
| Filters.FilterKeepsDistinct | filters.go:94-121 | filtering a list with distinct hosts keeps the hosts distinct |
| Filters.SameVerdictSameResult | filters.go:94-121 | filter lists that agree on every proxy give the same result |
| Filters.ApplyFiltersIdempotent | filters.go:94-121 | filtering twice with the same filters is filtering once |
| Filters.FilterOrderIrrelevant | filters.go:94-121 | any reordering (or repetition) of the same filters gives the same result |
| Filters.TypeThenCountryEquivalence | pool_complex_test.go:203-235 | filtering by type and country together equals filtering by type and then by country |
| CountrySet.NewSet | set.go:167-171 | a new set has no buckets and no members |
| CountrySet.Add | set.go:25-34 | files the proxy under its country, creating the bucket if needed; the members grow by exactly that proxy; other buckets are untouched |
| CountrySet.Remove | set.go:37-46 | the proxy is no longer in the set, other proxies' membership is unchanged, and no bucket is created or deleted |
| CountrySet.InIsMembership | set.go:49-58 | for a valid set, looking a proxy up in its country's bucket is membership in the whole set |
| CountrySet.AddIdempotent | set.go:24-34 | adding a proxy twice is adding it once |
| CountrySet.RemoveLeavesEmptyBucket | set.go:37-46 | removing the only proxy of a country leaves an empty bucket behind, not a missing one |
| CountrySet.Enumerate | set.go:68-70 | listing one bucket yields each of its proxies exactly once |
| CountrySet.Array | set.go:61-74 | the array holds exactly the set's members, without repeats when the set is valid |
| CountrySet.GetBiasedRandom | set.go:80-92 | fails exactly when the set has no members; otherwise returns a member |
| CountrySet.GetRandom | set.go:96-104 | fails exactly when the set has no members; otherwise returns a member |
| CountrySet.GetRandomFromCountry | set.go:107-124 | as written: always returns the error, even alongside the proxy it found in a non-empty bucket |
| CountrySet.GetRandomFromCountryFixed | set.go:107-124 | as intended: fails exactly when the country has no proxies, and otherwise returns one of them with no error |
| CountrySet.Countries | set.go:134 | the countries asked for, as a set |
| CountrySet.GetRandomFromCountries | set.go:129-153 | fails exactly when none of the given countries has proxies; otherwise returns one of theirs |
| CountrySet.Clone | set.go:156-164 | the clone reads the same map as the original in every state |
| CountrySet.CloneSharesWrites | set.go:156-164 | a write through the clone is seen through the original, and the reverse |
| CountrySet.CountryScenario | set.go:129-153 | with a French and a German proxy stored, asking for France always yields the French proxy and asking for Italy fails |
| Registry.Registry | providers.go:34-39 | the registry has exactly the four built-in names, each mapped to a provider of that name |
| Registry.GetProvider | providers.go:42-52 | succeeds exactly for registered names, returning their entry; otherwise panics with "invalid provider type" and the name |
| Registry.GetProviders | providers.go:55-64 | succeeds exactly when every name is registered, returning the entries in argument order; otherwise panics at the first unknown name |
| Registry.Names | providers.go:69-73 | the names of the given providers, in order |
| Registry.MultiRun | providers.go:77-97 | every provider writes into the shared collector; the result is the collector's list, which is an error exactly when it is empty, with the multi-provider's name in the message |
| Registry.MultiProvider | providers.go:68-98 | the multi-provider's function runs all the given providers into the collector it is handed |
| Registry.MultiNameRoundTrip | providers.go:69-75 | the multi-provider's name is `Multi{...}` around the names joined by `|`, and splitting it gives the names back |
| Registry.FreezeProvider | providers.go:102-113 | panics exactly for unknown names; otherwise the frozen provider replays the one earlier answer and never touches the collector |
| Registry.FrozenIgnoresArguments | providers.go:102-113 | a frozen provider gives the same proxies and error whatever collector it is handed |
| DummyProviders.ColumnsOfLine | providers/prov_dummy.go:36-40 | splitting a dummy line on a space gives the URL column and the country column |
| DummyProviders.EntryProxy | providers/prov_dummy.go:42-51 | each line becomes a proxy with its URL, its country and provider "DummyProvider" |
| DummyProviders.DummyList | providers/prov_dummy.go:14-55 | the list has the 19 entries, in order, with their countries |
| DummyProviders.Supply | providers/prov_dummy.go:53-57 | a provider that adds a fixed list to the collector returns that list with no error, and its hosts become members |
| DummyProviders.DummyProvider | providers/prov_dummy.go:11-58 | returns exactly the 19 listed proxies, in order, and no error; each is now a member of the collector, and nothing else was added |
| DummyProviders.DummyProviderEmpty | providers/prov_dummy.go:62-64 | returns nothing, no error, and leaves the collector alone |
| DummyProviders.DummyProviderError | providers/prov_dummy.go:68-70 | returns nothing and an error, and leaves the collector alone |
| DummyProviders.DummyHostsDistinct | providers/prov_dummy.go:14-34 | the 19 dummy hosts are pairwise distinct |
| DummyProviders.DummyFillsFreshCollector | providers/prov_dummy.go:36-55 | on a fresh collector, the collector ends up holding exactly the 19 dummy proxies, in order |
| StaticProvider.LineProxy | providers/prov_static.go:19-34 | a line yields a proxy exactly when it has two space-separated columns and the URL parses; it then carries that URL, the country and provider "Static" |
| StaticProvider.Accept | providers/prov_static.go:36 | an accepted line adds its proxy's host to the collector and keeps the collector's list as a prefix |
| StaticProvider.AddLines | providers/prov_static.go:18-39 | the collector gains exactly the hosts of the accepted lines, keeps its earlier list as a prefix and stays consistent |
| StaticProvider.Static | providers/prov_static.go:12-47 | an asset error is returned as is, with nothing added; otherwise the collector becomes the one `AddLines` gives for the asset split on newlines, so its members are the old ones plus the hosts of the accepted lines and every new proxy is read from a line; the result is the collector's list, which is an error exactly when it is empty |
| StaticProvider.EntryRoundTrip | providers/prov_static.go:21-30 | a well-formed line yields the proxy `newProxy` builds from its columns |
| StaticProvider.MalformedLinesSkipped | providers/prov_static.go:21-25 | an empty line and a line with three columns yield nothing |
| StaticProvider.KnownHostKept | providers/prov_static.go:36 | a proxy already in the collector stays there whatever lines follow |
| ProxyScrape.OptionsProxyScrape | sources/proxyscrape.go:131-146 | an empty country becomes "all" and a zero timeout becomes ten seconds; the rest is kept |
| ProxyScrape.Milliseconds | sources/proxyscrape.go:21 | the millisecond count of a duration truncates toward zero |
| ProxyScrape.BadVerbInt64 | sources/proxyscrape.go:29-30 | `%s` applied to an integer renders a bad-verb marker that starts with `%`, not a number |
| ProxyScrape.BuildUrl | sources/proxyscrape.go:18-58 | fails exactly for SOCKS types with an anonymity given; an unknown type gives the empty URL; otherwise the URL starts with the API base |
| ProxyScrape.PiecesReadBack | sources/proxyscrape.go:18-58 | the query string of a built URL splits back into the parameters it was built from |
| ProxyScrape.RequestParamAt | sources/proxyscrape.go:18-58 | each parameter of the request reads back with the value it was given |
| ProxyScrape.HttpProxyType | sources/proxyscrape.go:24-38 | HTTP and HTTPS requests both ask for proxy type "http" |
| ProxyScrape.HttpSsl | sources/proxyscrape.go:24-38 | the ssl parameter is "yes" for HTTPS and "no" for HTTP |
| ProxyScrape.HttpAnonymity | sources/proxyscrape.go:24-38 | an HTTP(S) request asks for the given anonymity, or "all" when none is given |
| ProxyScrape.SocksParams | sources/proxyscrape.go:40-54 | a SOCKS request names its own type and has no ssl or anonymity parameter |
| ProxyScrape.CountryAndTimeout | sources/proxyscrape.go:18-58 | every request carries the country and the rendered timeout |
| ProxyScrape.BuildUrlIsRequest | sources/proxyscrape.go:18-58 | a built URL is the request for the lower-cased type and the rendered millisecond timeout |
| ProxyScrape.TimeoutAsWrittenIsNotANumber | sources/proxyscrape.go:21-30 | as written, the timeout parameter does not start with a digit or a sign |
| ProxyScrape.TimeoutReadsBack | sources/proxyscrape.go:21-30 | rendered as intended, the timeout parameter reads back as the millisecond count |
| ProxyScrape.OptionsIdempotent | sources/proxyscrape.go:131-146 | filling in defaults twice is filling them in once |
| ProxyScrape.MillisecondsOdd | sources/proxyscrape.go:21 | truncation toward zero is symmetric for negative durations |
| ProxyScrape.BodyLines | sources/proxyscrape.go:87-101 | the body gives one line more than the newlines inside it once trimmed, and no line contains whitespace |
| ProxyScrape.BodyRoundTrip | sources/proxyscrape.go:87-101 | a body of non-empty space-free addresses, one per line, gives those addresses back |
| ProxyScrape.Record | sources/proxyscrape.go:108-122 | a record carries the URL and the query's country ("unknown" for "all"), anonymity, timeout and owner |
| ProxyScrape.ParseIPs | sources/proxyscrape.go:94-124 | succeeds exactly when every line parses, giving one record per line in order; otherwise fails on the first malformed line |
| ProxyScrape.Query | sources/proxyscrape.go:60-127 | takes the timeout rendering as a parameter: the program renders with `%s` (`BadVerbInt64`). An invalid type, a URL error, an unreachable API or a status other than 200 each give their own error. Otherwise the query succeeds exactly when every body line parses, and then returns, in order, one record per body line holding that line's parsed URL |
| ProxyScrape.InvalidTypeSendsNothing | sources/proxyscrape.go:61-65 | an invalid type gives the same options error whatever the client would answer, for any timeout rendering |
| ProxyScrape.SocksAnonymityRejected | sources/proxyscrape.go:40-70 | a SOCKS query with an anonymity fails with the URL error wrapping the options error, for any timeout rendering |
| ProxyScrape.CallerAnonymityKept | sources/proxyscrape.go:24-122 | an HTTP request asks for anonymity "all", but the records keep the caller's empty anonymity; this holds for any rendering free of `&`, the program's included |
| ProxyScrape.RenderingsHaveNoAmp | sources/proxyscrape.go:21-30 | neither the `%s` rendering nor the decimal one puts a `&` into the timeout |
| ProxyScrape.EmptyBodyOneRecord | sources/proxyscrape.go:87-124 | a body of only newlines still yields one record, for the bare scheme |
| ProxyScrape.SingleLine | sources/proxyscrape.go:94-124 | one well-formed line yields its one record |
| ProxyScrape.OneBadLineFailsAll | sources/proxyscrape.go:103-106 | one malformed line makes the whole query fail |
| SimplePool.SizeAll | pool_simple.go:34-36 | for a consistent set, the size is the number of distinct loaded hosts |
| SimplePool.SizeUnused | pool_simple.go:39-41 | for a consistent set, the size is the number of distinct unused hosts |
| SimplePool.LoadLoop | pool_simple.go:56-62 | the loop adds the provider's proxies to both sets, in order |
| SimplePool.Load | pool_simple.go:49-65 | fails exactly when the provider errs, with its error; otherwise each set is `AddAll` of the returned proxies onto it: the old list stays its prefix, only returned proxies are stored after it, the returned hosts become members, consistency is kept, and unused stays within all |
| SimplePool.New | pool_simple.go:83-94 | fails exactly when nothing is unused; otherwise hands out an unused slot, removes it from unused, and leaves all alone |
| SimplePool.Random | pool_simple.go:69-80 | fails exactly when nothing is loaded; otherwise hands out any loaded slot, removes it from unused, and leaves all alone |
| SimplePool.Rebuild | pool_simple.go:101-110 | re-adding a list into a fresh set gives a consistent set of its hosts, the list itself when the hosts are distinct |
| SimplePool.Filter | pool_simple.go:97-111 | both sets keep only admitted proxies and become consistent; for a consistent set, exactly the admitted proxies, in order (`ApplyFilters` of the old list) |
| SimplePool.NewReachesEvery | pool_simple.go:83-94 | every unused slot can be the one `New` hands out |
| SimplePool.RandomReachesEvery | pool_simple.go:69-80 | every loaded slot can be the one `Random` hands out |
| SimplePool.LoadReoffersDispensed | pool_simple.go:49-94 | a proxy handed out by `New` is unused again after a load that returns it |
| SimplePool.FilterOnePassEqualsTwo | pool_simple_test.go:37-71 | filtering with two filters at once equals filtering with each in turn |
| SimplePool.FilterIdempotent | pool_simple.go:97-111 | filtering twice with the same filters is filtering once |
| SimplePool.FilterCanBreakInclusion | pool_simple.go:97-111 | filtering can leave a host unused that is no longer loaded |
| ComplexPool.SizeAll | pool_complex.go:38-40 | for a consistent set, the size is the number of distinct loaded hosts |
| ComplexPool.SizeUnused | pool_complex.go:43-45 | for a consistent set, the size is the number of distinct unused hosts |
| ComplexPool.Gather | pool_complex.go:59-80 | each provider's returned proxies are added to both sets whether or not it errs: each set is `AddAll` of the returned list onto it, keeping the old list as its prefix and storing only returned proxies after it; the cache is untouched |
| ComplexPool.Fetch | pool_complex.go:54-96 | fails exactly when the shared collector stays empty, after adding the returned proxies anyway (each set is `AddAll` of them onto it, old list as prefix); keeps the sets consistent; success makes the cache alias the live sets |
| ComplexPool.FetchFallback | pool_complex.go:99-137 | the same for the fallback providers' proxies, with its own error, keeping the sets consistent and never touching the cache |
| ComplexPool.ApplyCache | pool_complex.go:140-151 | without a cache, an error and no change; otherwise the sets become the cached ones and the cache is used up |
| ComplexPool.ApplyCacheOnce | pool_complex.go:140-151 | after the cache is applied, applying it again fails and changes nothing |
| ComplexPool.Filter | pool_complex.go:244-258 | each set becomes a fresh consistent set of admitted proxies; for a consistent set, exactly its admitted proxies, in order (`ApplyFilters` of the old list); a cache that aliased the old sets keeps them |
| ComplexPool.FilterOnePassEqualsTwo | pool_complex_test.go:203-235 | filtering with `f1 + f2` equals filtering with `f1` and then `f2` |
| ComplexPool.Load | pool_complex.go:155-190 | succeeds exactly when the providers, the enabled cache or the enabled fallback providers deliver; on success every proxy held passes the filters; the error is the providers' error, or the fallback providers' when those were tried; a failed cache's error is never returned |
| ComplexPool.Loaded | pool_complex.go:155-190 | the sets `Load` filters: the fetched ones (`AddAll` of the providers' proxies onto the old sets, consistent), else the cache (a detached cache's sets, or the live sets with the failed fetch's additions), else the old sets with the providers' and then the fallback providers' proxies added; in each case the old list is a prefix and only returned proxies follow it |
| ComplexPool.LoadFiltersLoaded | pool_complex.go:155-190 | a successful `Load` holds exactly the admitted proxies of the sets it loaded, in their order |
| ComplexPool.LoadCachesUnfiltered | pool_complex.go:155-161 | after a successful fetch, the cache holds the fetched sets before filtering |
| ComplexPool.FailedLoadKeepsAdditions | pool_complex.go:155-190 | a failed load still adds the returned hosts to both sets, and leaves the cache alone |
| ComplexPool.FetchesAdd | pool_complex.go:54-137 | a fetch, and the fallback fetch after it when enabled, add exactly the returned hosts |
| ComplexPool.FailedLoadIsFetch | pool_complex.go:155-190 | a failed load is the failed fetch, then the failed fallback fetch when enabled |
| ComplexPool.Pick | pool_complex.go:210-213 | hands out the chosen slot, removes it from unused and leaves all alone |
| ComplexPool.PickIsPicked | pool_complex.go:210-213 | any choice names one of the slots |
| ComplexPool.NewAfterReload | pool_complex.go:226-240 | after a reload, `New` reports its error, or an error if unused is still empty, or hands out an unused proxy |
| ComplexPool.New | pool_complex.go:218-241 | never panics; with unused proxies, hands one out and removes it; otherwise errs, or reloads when enabled |
| ComplexPool.RandomAsWritten | pool_complex.go:194-214 | as written: an empty pool that reloads into an empty set reaches `rand.Intn(0)` |
| ComplexPool.Random | pool_complex.go:194-214 | as intended: never panics; every proxy handed out comes from the pool; checks the reloaded size as `New` does |
| ComplexPool.RandomAgreesUnlessPanic | pool_complex.go:194-214 | wherever the as-written `Random` does not panic, the checked one does the same |
| ComplexPool.RandomPanicsOnEmptyReload | pool_complex.go:194-214 | the as-written `Random` panics exactly on an empty pool whose reload succeeds into an empty set, where the checked one returns an error |
| ComplexPool.ApplyOptions | pool_complex.go:262-279 | with no options, the setup unchanged and no error; a panic comes from one of the options; otherwise the earlier options did not panic and the result is the last option applied to the setup they built |
| ComplexPool.ApplyOptionsAppend | pool_complex.go:274-276 | applying `a + b` is applying `b` to what `a` configured; a panic in `a` ends it, and a non-empty `b` leaves only its own error |
| ComplexPool.NewComplexPool | pool_complex.go:262-279 | succeeds exactly when no option panics, with the setup the options built from the defaults, empty sets and no cache; option errors are ignored |
| ComplexPool.Configure | pool_complex.go:384-390 | succeeds exactly when no option panics, giving the setup the options built from the pool's own and the last option's error; leaves the pool's sets alone |
| ComplexPool.ConfigureComposes | pool_complex.go:384-390 | configuring with `a` and then a non-empty `b` is configuring with `a + b` once |
| ComplexPool.Resolve | pool_complex.go:293-309 | looks up every name in argument order, or panics naming the first unknown one |
| ComplexPool.UseProviders | pool_complex.go:293-309 | panics exactly when a name is unknown; otherwise appends the named providers and changes nothing else |
| ComplexPool.UseFallbackProviders | pool_complex.go:318-334 | panics exactly when a name is unknown; otherwise appends the named fallback providers and changes nothing else |
| ComplexPool.OptionReloadWhenEmpty | pool_complex.go:344-349 | sets the reload flag, never fails, and leaves the providers, fallback providers, filters and other flags alone |
| ComplexPool.OptionFallbackToCached | pool_complex.go:352-357 | sets the cache fallback flag, never fails, and leaves the providers, fallback providers, filters and other flags alone |
| ComplexPool.OptionFallbackToBackupProviders | pool_complex.go:360-365 | sets the fallback-provider flag, never fails, and leaves the providers, fallback providers, filters and other flags alone |
| ComplexPool.OptionAddFilters | pool_complex.go:368-373 | appends the filters after the existing ones, never fails, and leaves the providers, fallback providers and config alone |
| ComplexPoolScenarios.OneOption | pool_complex.go:262-279 | one option is applied to the defaults |
| ComplexPoolScenarios.TwoOptions | pool_complex.go:262-279 | two options apply in order, the second to what the first configured |
| ComplexPoolScenarios.UseOne | pool_complex.go:312-314 | one registered provider gives the defaults with that provider and an empty pool |
| ComplexPoolScenarios.DummyConfigured | pool_complex_test.go:116-137 | the dummy-provider pool has the defaults and the one provider |
| ComplexPoolScenarios.LoadDummy | pool_complex_test.go:116-137 | loading the dummy provider unfiltered fills both sets with its 19 proxies, in order |
| ComplexPoolScenarios.CreationDefaults | pool_complex_test.go:37-55 | a pool made without options has the defaults and an empty state |
| ComplexPoolScenarios.CreationWithOptions | pool_complex_test.go:37-55 | a pool made with the config options has those flags set |
| ComplexPoolScenarios.InvalidProviderPanics | pool_complex_test.go:71-81 | an unknown provider name panics, naming it |
| ComplexPoolScenarios.LoadFindsNothing | pool_complex_test.go:84-102 | a lone provider that leaves the collector empty, with fallback enabled but no fallback providers, makes the load fail with the fallback error |
| ComplexPoolScenarios.EmptyProviderFails | pool_complex_test.go:84-91 | the empty provider makes the load fail |
| ComplexPoolScenarios.ErrorProviderFails | pool_complex_test.go:95-102 | the error provider makes the load fail |
| ComplexPoolScenarios.FallbackConfigured | pool_complex_test.go:105-113 | the fallback pool has the empty provider and the dummy fallback |
| ComplexPoolScenarios.LoadFallsBack | pool_complex.go:176-185 | with providers that find nothing and the dummy provider as the fallback, both sets of an empty pool end up holding the 19 dummy proxies, in order |
| ComplexPoolScenarios.FallbackProvidersLoad | pool_complex_test.go:105-113 | the pool configured with an empty provider and the dummy fallback loads, and both sets hold the 19 dummy proxies |
| ComplexPoolScenarios.CacheConfigured | pool_complex_test.go:116-137 | the cache pool has the empty provider and the cache fallback |
| ComplexPoolScenarios.LoadFromCache | pool_complex.go:164-171 | when the providers find nothing, both cached sets come back unchanged |
| ComplexPoolScenarios.CacheLoads | pool_complex_test.go:116-137 | a pool given another pool's sets as its cache loads those 19 proxies |
| ComplexPoolScenarios.ReloadConfigured | pool_complex_test.go:141-159 | the reload pool has the dummy provider and the reload flag |
| ComplexPoolScenarios.AutomaticReload | pool_complex_test.go:141-159 | on an empty reloading pool, `New` and `Random` each load the 19 proxies and hand one out |
| ComplexPoolScenarios.NewAfterLoad | pool_complex_test.go:162-179 | after loading, `New` leaves unused one short of all; with unused emptied, `New` refuses |
| ComplexPoolScenarios.RandomAfterLoad | pool_complex_test.go:182-200 | after loading, `Random` leaves unused one short of all; with unused emptied, it still hands one out |
| ComplexPoolScenarios.NoCountryAdmitsNothing | filters.go:16-30 | allowing no countries filters everything out |
| ComplexPoolScenarios.LoadFiltersAll | pool_complex.go:155-161 | a load whose filters admit nothing succeeds with both sets empty |
| ComplexPoolScenarios.RandomPanicsWhenFilteredEmpty | pool_complex.go:194-214 | a reloading dummy pool that filters out every country panics in the as-written `Random`; the checked `Random` and `New` return errors |
| SourcePool.NewPool | pool.go:114-123 | a new pool holds the source options, four empty sets and no proxies |
| SourcePool.FetchGroups | pool.go:31-49 | every source is queried in order until one fails; each delivered proxy not yet handed out is added to both sets |
| SourcePool.Fetch | pool.go:27-52 | fails exactly when a source fails, with the message wrapping its error; all gains every delivered proxy and unused those not handed out; the cache reads the live sets; the invariant is kept |
| SourcePool.FetchKeepsUsed | pool.go:39-47 | a proxy handed out before a fetch is still handed out after it |
| SourcePool.FetchTwiceIsOnce | pool.go:27-52 | with sources that answer the same, a second fetch changes neither set |
| SourcePool.ArrayAll | pool.go:55-57 | lists exactly the loaded proxies, each once |
| SourcePool.ArrayUnused | pool.go:60-62 | lists exactly the unused proxies, each once |
| SourcePool.HandOut | pool.go:71 | removes exactly that proxy from unused and marks it handed out; the invariant is kept |
| SourcePool.Random | pool.go:65-74 | fails exactly when nothing is loaded; otherwise hands out a loaded proxy |
| SourcePool.New | pool.go:102-111 | fails exactly when nothing is unused; otherwise hands out an unused proxy, which is then handed out |
| SourcePool.RandomFromCountry | pool.go:77-86 | fails exactly when none of the countries has a loaded proxy; otherwise hands out one from those countries |
| SourcePool.NewFromCountry | pool.go:89-98 | fails exactly when none of the countries has an unused proxy; otherwise hands out one from those countries |
| SourcePool.HandedOutNotReoffered | pool.go:39-47 | a proxy handed out is not offered again by the next fetch, even when a source returns it |

## Left out

- **I/O, the network and the clock.**
  - `SetTimeout` and the provider timeouts in both pools carry no logic the model can see.
  - `waitTimeout` and the goroutines of `MultiProvider` are replaced by a sequential loop in list order.
  - `FilterProxySpeed` and `FilterProxyConnection` need live connections and are not modelled.
- **Distributions.** Random choices are an input or a nondeterministic pick, so the model says which proxies can be chosen, not how likely each is. `GetBiasedRandom`'s bias is not modelled.
- **Logging and output.** Logging, the `fmt.Println` in pool.go's `Fetch` and the `%p` pool pointer in error messages are dropped. The messages keep their fixed text.
- **Outside code.**
  - `url.Parse` and the ProxyScrape HTTP client are parameters.
  - `castProxy` (used by pool.go) is not part of this model and is a parameter too.
  - The `log.Fatal` on a failed body read in `Query` is not modelled.
- **`ToLower`** is modelled for ASCII letters only.
- **`providers.Set.List`,** which the providers call, is not part of this model. It is taken to be `All`.
- **Key equality in set.go.** Go compares the `*url.URL` pointer inside a `Proxy` key. The model compares URL values. Sources build a fresh `*url.URL` with `url.Parse` on every query (sources/proxyscrape.go:103), so in Go a re-fetched proxy is a new key, and so is a second line naming the same address in one answer. The three lemmas below rely on value equality and hold in Go only for sources that hand back the very same `Proxy` values:
- FetchKeepsUsed: holds only under value keys. In Go, a handed-out proxy that a source returns again, freshly parsed, is added back to `unused`.
- FetchTwiceIsOnce: holds only under value keys. In Go, a second fetch of freshly parsed proxies adds them to both sets a second time, as new keys.
- HandedOutNotReoffered: holds only under value keys. In Go, the freshly parsed copy of a handed-out proxy is not recognised as used, so it is offered again.
- PoolOption: Go's `Option` is `func(*ComplexPool) error` (pool_complex.go:289), which may change anything in the pool. The model's options change only the configuration (providers, fallback providers, filters, flags). Every option the library defines does only that; an option written by a caller that touches `All`, `Unused` or the cache is not modelled. This is why `Configure` leaves the sets alone.
- **Unmodelled names and providers.**
  - `NewSimplePool` (pool_simple.go:114-128) only validates names and wraps a multi-provider; that is modelled by `Registry.GetProviders` and `Registry.MultiProvider`.
  - `NewPool` in pool_complex.go (pool_complex.go:283) is an alias of `NewComplexPool`.
  - The network providers (FreeProxyLists, GetProxyList, ProxyScrape) are not modelled. A name in the complex pool's registry maps to any provider function.
- **Tests not modelled.**
  - `TestComplexPoolIsStatic` and `TestSimplePoolIsStatic` are about concurrency.
  - `TestComplexPoolProviders` needs the network.
- SimplePool.Filter: for a set that is not consistent (reachable when a removal by spelling leaves a same-host proxy of another scheme stored, `Providers.RemoveOtherSchemeBreaksMembership`), the contract promises only admitted, consistent sets, not which duplicate Go's re-adding by host keeps.
- ComplexPool.Filter: the same gap as `SimplePool.Filter` for sets that are not consistent.
- **Option members without a contract of their own.** `UseProvider`, `UseFallbackProvider` and `OptionAddFilter` are one-element calls of `UseProviders`, `UseFallbackProviders` and `OptionAddFilters`.

## Findings

| source | as written | input that shows it | evidently intended | confidence | as-written member | corrected member |
|---|---|---|---|---|---|---|
| sources/proxyscrape.go:21-30 | the millisecond timeout, an `int64`, is formatted with `%s`, which prints a bad-verb marker instead of the number. `ProxyScrape.Query` takes the rendering as a parameter, so it covers both the program (`BadVerbInt64`) and the fix (`Decimal`) | any HTTP options, e.g. type "http", country "all", timeout 10s: the `timeout` parameter starts with `%` | the timeout rendered as decimal milliseconds (`%d`) | not executed | ProxyScrape.TimeoutAsWrittenIsNotANumber | ProxyScrape.TimeoutReadsBack |
| pool_complex.go:194-214 | after reloading an empty pool, `Random` draws `rand.Intn(len(All))` without checking that the reload filled `All` | a reloading pool whose filter allows no country, with the dummy provider: the reload succeeds, every proxy is filtered out, and `rand.Intn(0)` panics | an error when the pool is still empty after reloading, as `New` does | not executed | ComplexPoolScenarios.RandomPanicsWhenFilteredEmpty | ComplexPool.Random |
| set.go:107-124 | `GetRandomFromCountry` returns `ErrNoneAvaliable` alongside the proxy it found | a set holding one French proxy, asked for "FR": both the proxy and the error come back | the proxy with a nil error | not executed | CountrySet.GetRandomFromCountry | CountrySet.GetRandomFromCountryFixed |
