/** `ComplexPool` (pool_complex.go): a pool with primary and fallback
    providers, a cache of the last good fetch, filters re-applied after
    every load, and optional reloading when empty. Providers write into a
    shared collector; the goroutine fan-out is a loop in list order.
    `rand.Intn(n)` is an input `choice`, read as `choice % n`. */
module ComplexPool {
  import opened Results
  import opened Providers
  import Proxies
  import Filters
  import SimplePool

  /** `ComplexPool.Config`. */
  datatype Config = Config(fallbackToBackupProviders: bool, fallbackToCached: bool, reloadWhenEmpty: bool)

  /** What the options configure: the providers, fallback providers and
      filters (in the order they were added), and the config. */
  datatype Setup = Setup(
    providers: seq<Provider>,
    fallbacks: seq<Provider>,
    filters: seq<Filters.Filter>,
    config: Config)

  /** Where `CacheAll`/`CacheUnused` point. `Live`: at the very sets `All`
      and `Unused` point at, so every change to those is a change to the
      cache. `Detached`: at other sets, which nothing changes any more. */
  datatype Cache = Detached(all: Set, unused: Set) | Live

  /** The pool's sets and cache. */
  datatype State = State(all: Set, unused: Set, cacheAvailable: bool, cache: Cache)

  /** The state after an operation that returns only an error. */
  datatype Step = Step(state: State, err: Option<string>)

  /** The outcome of `New` and `Random`: a proxy, a returned error, or the
      panic of `rand.Intn(0)`. The state is the pool after the call. */
  datatype Drawn =
    | Drawn(state: State, proxy: Proxies.Proxy)
    | Refused(state: State, msg: string)
    | Panicked(state: State)

  const NoneLoaded := "prox: no proxies could be loaded from providers"
  const NoneFromFallback := "prox: no proxies could be loaded from fallback providers"
  const NoCache := "prox: no cache to revert back to"
  const NoProxiesInPool := "prox: cannot select random proxy, no proxies in pool"
  const NoUnusedLeft := "prox: cannot select proxy, no unused proxies left in pool"
  const NoUnusedAfterReload := "prox: cannot select proxy, no unused proxies even after reload"

  function RandomReloadFailed(err: string): string {
    "prox: cannot select random proxy, error occurred while reloading empty pool: " + err
  }

  function NewReloadFailed(err: string): string {
    "prox: cannot select unused proxy, error occurred while reloading pool: " + err
  }

  /** The proxies the pool holds live, read through the cache when it
      aliases them. */
  function CachedAll(st: State): Set {
    if st.cache.Live? then st.all else st.cache.all
  }

  function CachedUnused(st: State): Set {
    if st.cache.Live? then st.unused else st.cache.unused
  }

  /** `SizeAll`: for a consistent set, the number of distinct loaded hosts. */
  function SizeAll(st: State): (n: nat)
    ensures Consistent(st.all) ==> n == |st.all.membership|
  {
    SimplePool.SizeAll(SimplePool.Pool(st.all, st.unused))
  }

  /** `SizeUnused`: for a consistent set, the number of distinct unused hosts. */
  function SizeUnused(st: State): (n: nat)
    ensures Consistent(st.unused) ==> n == |st.unused.membership|
  {
    SimplePool.SizeUnused(SimplePool.Pool(st.all, st.unused))
  }

  // ---------------------------------------------------------------------
  // Fetching

  /** The shared collector after the providers ran, in order, each given
      the collector the previous one left. */
  function Collected(provs: seq<Provider>, collector: Set): Set
    decreases |provs|
  {
    if |provs| == 0 then collector
    else Collected(provs[1..], provs[0](collector).collector)
  }

  /** Every proxy the providers returned, in order. Adding these to the
      pool one provider at a time is adding the whole list in order. */
  function Returned(provs: seq<Provider>, collector: Set): seq<Proxy>
    decreases |provs|
  {
    if |provs| == 0 then []
    else provs[0](collector).proxies + Returned(provs[1..], provs[0](collector).collector)
  }

  /** The loop of `Fetch` and `FetchFallback`: each provider's returned
      proxies are added to `All` and `Unused` whether or not it reported an
      error (the error is only logged). */
  function Gather(provs: seq<Provider>, st: State): (r: State)
    ensures r.all.membership == st.all.membership + Hosts(Returned(provs, NewSet()))
    ensures r.unused.membership == st.unused.membership + Hosts(Returned(provs, NewSet()))
    ensures r.all == AddAll(st.all, Returned(provs, NewSet()))
    ensures r.unused == AddAll(st.unused, Returned(provs, NewSet()))
    ensures Extends(st.all, r.all, Returned(provs, NewSet())) && Extends(st.unused, r.unused, Returned(provs, NewSet()))
    ensures Consistent(st.all) ==> Consistent(r.all)
    ensures Consistent(st.unused) ==> Consistent(r.unused)
    ensures r.cacheAvailable == st.cacheAvailable && r.cache == st.cache
  {
    var sets := SimplePool.LoadLoop(SimplePool.Pool(st.all, st.unused), Returned(provs, NewSet()));
    st.(all := sets.all, unused := sets.unused)
  }

  /** `Fetch`: fails exactly when the providers left the collector empty;
      on success the cache is switched to the live sets. */
  function Fetch(setup: Setup, st: State): (r: Step)
    ensures r.err.Some? <==> Length(Collected(setup.providers, NewSet())) == 0
    ensures r.err.Some? ==> r.err.value == NoneLoaded
    ensures r.state.all.membership == st.all.membership + Hosts(Returned(setup.providers, NewSet()))
    ensures r.state.unused.membership == st.unused.membership + Hosts(Returned(setup.providers, NewSet()))
    ensures r.err.None? ==> r.state.cacheAvailable && r.state.cache.Live?
    ensures r.state.all == AddAll(st.all, Returned(setup.providers, NewSet()))
    ensures r.state.unused == AddAll(st.unused, Returned(setup.providers, NewSet()))
    ensures Extends(st.all, r.state.all, Returned(setup.providers, NewSet()))
    ensures Extends(st.unused, r.state.unused, Returned(setup.providers, NewSet()))
    ensures Consistent(st.all) ==> Consistent(r.state.all)
    ensures Consistent(st.unused) ==> Consistent(r.state.unused)
    ensures r.err.Some? ==> r.state.cacheAvailable == st.cacheAvailable && r.state.cache == st.cache
  {
    var st' := Gather(setup.providers, st);
    if Length(Collected(setup.providers, NewSet())) == 0 then Step(st', Some(NoneLoaded))
    else Step(st'.(cacheAvailable := true, cache := Live), None)
  }

  /** `FetchFallback`: the same loop over the fallback providers; the
      cache is never touched. */
  function FetchFallback(setup: Setup, st: State): (r: Step)
    ensures r.err.Some? <==> Length(Collected(setup.fallbacks, NewSet())) == 0
    ensures r.err.Some? ==> r.err.value == NoneFromFallback
    ensures r.state.all == AddAll(st.all, Returned(setup.fallbacks, NewSet()))
    ensures r.state.unused == AddAll(st.unused, Returned(setup.fallbacks, NewSet()))
    ensures Extends(st.all, r.state.all, Returned(setup.fallbacks, NewSet()))
    ensures Extends(st.unused, r.state.unused, Returned(setup.fallbacks, NewSet()))
    ensures Consistent(st.all) ==> Consistent(r.state.all)
    ensures Consistent(st.unused) ==> Consistent(r.state.unused)
    ensures r.state.all.membership == st.all.membership + Hosts(Returned(setup.fallbacks, NewSet()))
    ensures r.state.unused.membership == st.unused.membership + Hosts(Returned(setup.fallbacks, NewSet()))
    ensures r.state.cacheAvailable == st.cacheAvailable && r.state.cache == st.cache
  {
    var st' := Gather(setup.fallbacks, st);
    if Length(Collected(setup.fallbacks, NewSet())) == 0 then Step(st', Some(NoneFromFallback))
    else Step(st', None)
  }

  /** `ApplyCache`: without a cache, an error and no change. Otherwise the
      pool's sets become the cached ones (so the cache now aliases them)
      and the cache is marked unavailable. */
  function ApplyCache(st: State): (r: Step)
    ensures r.err.Some? <==> !st.cacheAvailable
    ensures r.err.Some? ==> r.state == st && r.err.value == NoCache
    ensures r.err.None? ==> && r.state.all == CachedAll(st) && r.state.unused == CachedUnused(st)
                            && !r.state.cacheAvailable && r.state.cache.Live?
  {
    if !st.cacheAvailable then Step(st, Some(NoCache))
    else Step(State(CachedAll(st), CachedUnused(st), false, Live), None)
  }

  /** `Filter`: both sets are replaced by fresh sets of their admitted
      proxies. A cache that aliased the old sets keeps them, unfiltered. */
  function Filter(fs: seq<Filters.Filter>, st: State): (r: State)
    ensures Consistent(r.all) && Consistent(r.unused)
    ensures forall q :: q in r.all.proxies ==> q in st.all.proxies && Filters.Admits(fs, Proxies.CastProxy(q))
    ensures forall q :: q in r.unused.proxies ==> q in st.unused.proxies && Filters.Admits(fs, Proxies.CastProxy(q))
    ensures Consistent(st.all) ==> r.all.proxies == Filters.ApplyFilters(st.all.proxies, fs)
    ensures Consistent(st.unused) ==> r.unused.proxies == Filters.ApplyFilters(st.unused.proxies, fs)
    ensures Consistent(st.all) ==>
              forall q :: q in r.all.proxies <==> q in st.all.proxies && Filters.Admits(fs, Proxies.CastProxy(q))
    ensures Consistent(st.unused) ==>
              forall q :: q in r.unused.proxies <==> q in st.unused.proxies && Filters.Admits(fs, Proxies.CastProxy(q))
    ensures r.cacheAvailable == st.cacheAvailable
    ensures r.cache.Detached? && CachedAll(r) == CachedAll(st) && CachedUnused(r) == CachedUnused(st)
  {
    var sets := SimplePool.Filter(SimplePool.Pool(st.all, st.unused), fs);
    var cache := if st.cache.Live? then Detached(st.all, st.unused) else st.cache;
    State(sets.all, sets.unused, st.cacheAvailable, cache)
  }

  /** The cascade of `Load`: the providers; else, if enabled, the cache;
      else, if enabled, the fallback providers. Whichever succeeds is
      followed by `Filter`. The error is the providers' one, or the
      fallback providers' one when they were tried. */
  function Load(setup: Setup, st: State): (r: Step)
    ensures r.err.None? <==>
      || Length(Collected(setup.providers, NewSet())) > 0
      || (setup.config.fallbackToCached && st.cacheAvailable)
      || (setup.config.fallbackToBackupProviders && Length(Collected(setup.fallbacks, NewSet())) > 0)
    ensures r.err.Some? ==>
      r.err.value == (if setup.config.fallbackToBackupProviders then NoneFromFallback else NoneLoaded)
    ensures r.err.None? ==> Consistent(r.state.all) && Consistent(r.state.unused)
    ensures r.err.None? ==> forall q :: q in r.state.all.proxies ==> Filters.Admits(setup.filters, Proxies.CastProxy(q))
    ensures r.err.None? ==> forall q :: q in r.state.unused.proxies ==> Filters.Admits(setup.filters, Proxies.CastProxy(q))
  {
    var fetched := Fetch(setup, st);
    if fetched.err.None? then Step(Filter(setup.filters, fetched.state), None)
    else
      var cached := ApplyCache(fetched.state);
      if setup.config.fallbackToCached && cached.err.None? then Step(Filter(setup.filters, cached.state), None)
      else if setup.config.fallbackToBackupProviders then
        var fallback := FetchFallback(setup, fetched.state);
        if fallback.err.None? then Step(Filter(setup.filters, fallback.state), None)
        else fallback
      else fetched
  }

  /** The sets a successful `Load` goes on to filter: the fetched ones
      when the providers found something, else the cached ones when the
      pool falls back to an available cache, else those the fallback
      providers added to. A live cache is the pool's own sets, so falling
      back to it keeps what the failed fetch added. */
  function Loaded(setup: Setup, st: State): (r: State)
    ensures Length(Collected(setup.providers, NewSet())) > 0 ==>
              var added := Returned(setup.providers, NewSet());
              && r.all == AddAll(st.all, added) && r.unused == AddAll(st.unused, added)
              && Extends(st.all, r.all, added) && Extends(st.unused, r.unused, added)
              && r.all.membership == st.all.membership + Hosts(added)
              && r.unused.membership == st.unused.membership + Hosts(added)
              && (Consistent(st.all) ==> Consistent(r.all))
              && (Consistent(st.unused) ==> Consistent(r.unused))
    ensures Length(Collected(setup.providers, NewSet())) == 0 && setup.config.fallbackToCached && st.cacheAvailable ==>
              var added := Returned(setup.providers, NewSet());
              if st.cache.Detached? then r.all == st.cache.all && r.unused == st.cache.unused
              else && r.all == AddAll(st.all, added) && r.unused == AddAll(st.unused, added)
                   && Extends(st.all, r.all, added) && Extends(st.unused, r.unused, added)
                   && r.all.membership == st.all.membership + Hosts(added)
                   && r.unused.membership == st.unused.membership + Hosts(added)
    ensures Length(Collected(setup.providers, NewSet())) == 0 && !(setup.config.fallbackToCached && st.cacheAvailable) ==>
              var added, backup := Returned(setup.providers, NewSet()), Returned(setup.fallbacks, NewSet());
              && r.all == AddAll(AddAll(st.all, added), backup)
              && r.unused == AddAll(AddAll(st.unused, added), backup)
              && Extends(st.all, r.all, added + backup) && Extends(st.unused, r.unused, added + backup)
              && r.all.membership == st.all.membership + Hosts(added) + Hosts(backup)
              && r.unused.membership == st.unused.membership + Hosts(added) + Hosts(backup)
  {
    var fetched := Fetch(setup, st);
    if fetched.err.None? then fetched.state
    else if setup.config.fallbackToCached && fetched.state.cacheAvailable then ApplyCache(fetched.state).state
    else
      var added, backup := Returned(setup.providers, NewSet()), Returned(setup.fallbacks, NewSet());
      var r := FetchFallback(setup, fetched.state).state;
      assert r.all.membership == fetched.state.all.membership + Hosts(backup);
      ExtendsTrans(st.all, fetched.state.all, r.all, added, backup);
      ExtendsTrans(st.unused, fetched.state.unused, r.unused, added, backup);
      r
  }

  /** A successful `Load` holds exactly the admitted proxies of the sets
      it loaded, in their order. */
  lemma LoadFiltersLoaded(setup: Setup, st: State)
    requires Load(setup, st).err.None?
    ensures Load(setup, st).state == Filter(setup.filters, Loaded(setup, st))
    ensures var from, r := Loaded(setup, st), Load(setup, st).state;
            && (Consistent(from.all) ==> r.all.proxies == Filters.ApplyFilters(from.all.proxies, setup.filters))
            && (Consistent(from.unused) ==> r.unused.proxies == Filters.ApplyFilters(from.unused.proxies, setup.filters))
  {
  }

  /** A successful fetch leaves the cache holding the fetched sets
      unfiltered: `Filter` replaces the live sets, the cache keeps the old
      ones. */
  lemma LoadCachesUnfiltered(setup: Setup, st: State)
    requires Length(Collected(setup.providers, NewSet())) > 0
    ensures var r := Load(setup, st);
            && r.err.None? && r.state.cacheAvailable
            && r.state.cache == Detached(Fetch(setup, st).state.all, Fetch(setup, st).state.unused)
            && r.state.cache.all.membership == st.all.membership + Hosts(Returned(setup.providers, NewSet()))
            && r.state.cache.unused.membership == st.unused.membership + Hosts(Returned(setup.providers, NewSet()))
  {
  }

  /** A failed `Load` is not a no-op: what the providers returned (and the
      fallback providers, when tried) stays in the pool, unfiltered. */
  lemma FailedLoadKeepsAdditions(setup: Setup, st: State)
    requires Load(setup, st).err.Some?
    ensures && Load(setup, st).state.all.membership == st.all.membership + Added(setup)
            && Load(setup, st).state.unused.membership == st.unused.membership + Added(setup)
            && Load(setup, st).state.cache == st.cache
  {
    FailedLoadIsFetch(setup, st);
    FetchesAdd(setup, st);
  }

  /** The fetch followed, when enabled, by the fallback fetch adds the
      hosts of `Added` and leaves the cache alone when both fail. */
  lemma FetchesAdd(setup: Setup, st: State)
    ensures var r := if setup.config.fallbackToBackupProviders
                     then FetchFallback(setup, Fetch(setup, st).state) else Fetch(setup, st);
            && r.state.all.membership == st.all.membership + Added(setup)
            && r.state.unused.membership == st.unused.membership + Added(setup)
            && (Fetch(setup, st).err.Some? ==> r.state.cache == st.cache)
  {
  }

  /** A failed `Load` is the failed fetch, followed by the failed fallback
      fetch when those are enabled; the cache played no part. */
  lemma FailedLoadIsFetch(setup: Setup, st: State)
    requires Load(setup, st).err.Some?
    ensures Fetch(setup, st).err.Some?
    ensures Load(setup, st) == if setup.config.fallbackToBackupProviders
                               then FetchFallback(setup, Fetch(setup, st).state) else Fetch(setup, st)
  {
    if setup.config.fallbackToCached {
      assert ApplyCache(Fetch(setup, st).state).err.Some?;
    }
  }

  /** The hosts a failed `Load` adds: the providers', and the fallback
      providers' when those are enabled. */
  function Added(setup: Setup): set<string> {
    Hosts(Returned(setup.providers, NewSet()))
      + (if setup.config.fallbackToBackupProviders then Hosts(Returned(setup.fallbacks, NewSet())) else {})
  }

  /** The cache can be applied once: applying it marks it unavailable. */
  lemma ApplyCacheOnce(st: State)
    requires ApplyCache(st).err.None?
    ensures ApplyCache(ApplyCache(st).state) == Step(ApplyCache(st).state, Some(NoCache))
  {
  }

  /** Filtering a consistent pool with `f1 + f2` leaves the same sets as
      filtering with `f1` and then with `f2`; the cache keeps what it held
      before either. */
  lemma FilterOnePassEqualsTwo(st: State, f1: seq<Filters.Filter>, f2: seq<Filters.Filter>)
    requires Consistent(st.all) && Consistent(st.unused)
    ensures Filter(f1 + f2, st) == Filter(f2, Filter(f1, st))
  {
    SimplePool.FilterOnePassEqualsTwo(SimplePool.Pool(st.all, st.unused), f1, f2);
  }

  // ---------------------------------------------------------------------
  // Dispensing

  /** Hands out slot `choice % n` of `from` (which has `n > 0` slots) and
      removes it from `Unused`. */
  function Pick(st: State, from: Set, choice: nat): (r: Drawn)
    requires Length(from) > 0
    ensures r.Drawn?
    ensures r.state == st.(unused := Remove(st.unused, from.proxies[choice % Length(from)]))
    ensures r.proxy == Proxies.CastProxy(from.proxies[choice % Length(from)])
    ensures r.state.all == st.all && Length(r.state.unused) <= Length(st.unused)
    ensures from == st.unused ==> Length(r.state.unused) == Length(st.unused) - 1
  {
    var raw := from.proxies[choice % Length(from)];
    assert SameSpelling(raw, raw);
    Drawn(st.(unused := Remove(st.unused, raw)), Proxies.CastProxy(raw))
  }

  /** `r` hands out one slot of `from` (in the state `st`). */
  predicate PickedFrom(st: State, from: Set, r: Drawn)
    requires Length(from) > 0
  {
    exists i :: 0 <= i < Length(from) && r == Pick(st, from, i)
  }

  /** What `New` does once it has reloaded an empty pool: the reload's
      error, an error if `Unused` is still empty, or one unused proxy. The
      reload's changes to the pool stay in every case. */
  predicate AfterReload(loaded: Step, r: Drawn) {
    if loaded.err.Some? then r == Refused(loaded.state, NewReloadFailed(loaded.err.value))
    else if Length(loaded.state.unused) == 0 then r == Refused(loaded.state, NoUnusedAfterReload)
    else PickedFrom(loaded.state, loaded.state.unused, r)
  }

  /** Slot `choice % n` names one of the `n` slots. */
  lemma PickIsPicked(st: State, from: Set, choice: nat)
    requires Length(from) > 0
    ensures PickedFrom(st, from, Pick(st, from, choice))
  {
    var i := choice % Length(from);
    assert i % Length(from) == i;
    assert Pick(st, from, i) == Pick(st, from, choice);
    assert 0 <= i < Length(from);
  }

  function NewAfterReload(loaded: Step, choice: nat): (r: Drawn)
    ensures AfterReload(loaded, r)
  {
    if loaded.err.Some? then Refused(loaded.state, NewReloadFailed(loaded.err.value))
    else if Length(loaded.state.unused) == 0 then Refused(loaded.state, NoUnusedAfterReload)
    else
      PickIsPicked(loaded.state, loaded.state.unused, choice);
      Pick(loaded.state, loaded.state.unused, choice)
  }

  /** `New`: an empty `Unused` is an error unless reloading is enabled, in
      which case the pool is reloaded first. Otherwise one unused proxy is
      handed out and removed from `Unused`; `All` is unchanged. */
  function New(setup: Setup, st: State, choice: nat): (r: Drawn)
    ensures !r.Panicked?
    ensures Length(st.unused) > 0 ==> r.Drawn? && PickedFrom(st, st.unused, r)
    ensures Length(st.unused) > 0 ==> r.state.all == st.all && Length(r.state.unused) == Length(st.unused) - 1
    ensures Length(st.unused) == 0 && !setup.config.reloadWhenEmpty ==> r == Refused(st, NoUnusedLeft)
    ensures Length(st.unused) == 0 && setup.config.reloadWhenEmpty ==> AfterReload(Load(setup, st), r)
  {
    if Length(st.unused) > 0 then
      PickIsPicked(st, st.unused, choice);
      Pick(st, st.unused, choice)
    else if !setup.config.reloadWhenEmpty then Refused(st, NoUnusedLeft)
    else NewAfterReload(Load(setup, st), choice)
  }

  /** What `Random` does once it has reloaded an empty pool, as written:
      a reload that succeeds yet leaves `All` empty reaches `rand.Intn(0)`,
      which panics. */
  predicate RandomAfterReloadAsWritten(loaded: Step, r: Drawn) {
    if loaded.err.Some? then r == Refused(loaded.state, RandomReloadFailed(loaded.err.value))
    else if Length(loaded.state.all) == 0 then r == Panicked(loaded.state)
    else PickedFrom(loaded.state, loaded.state.all, r)
  }

  /** `Random` as written: draws from `All`, used or not, and removes the
      pick from `Unused`; an empty `All` is reloaded when enabled, but the
      reloaded size is not checked. */
  function RandomAsWritten(setup: Setup, st: State, choice: nat): (r: Drawn)
    ensures Length(st.all) > 0 ==> r.Drawn? && PickedFrom(st, st.all, r) && r.state.all == st.all
    ensures Length(st.all) == 0 && !setup.config.reloadWhenEmpty ==> r == Refused(st, NoProxiesInPool)
    ensures Length(st.all) == 0 && setup.config.reloadWhenEmpty ==> RandomAfterReloadAsWritten(Load(setup, st), r)
  {
    if Length(st.all) > 0 then
      PickIsPicked(st, st.all, choice);
      Pick(st, st.all, choice)
    else if !setup.config.reloadWhenEmpty then Refused(st, NoProxiesInPool)
    else
      var loaded := Load(setup, st);
      if loaded.err.Some? then Refused(loaded.state, RandomReloadFailed(loaded.err.value))
      else if Length(loaded.state.all) == 0 then Panicked(loaded.state)
      else
        PickIsPicked(loaded.state, loaded.state.all, choice);
        Pick(loaded.state, loaded.state.all, choice)
  }

  const NoProxiesAfterReload := "prox: cannot select random proxy, no proxies in pool even after reload"

  /** What `Random` should do once it has reloaded an empty pool: check the
      reloaded size, as `New` does. */
  predicate RandomAfterReload(loaded: Step, r: Drawn) {
    if loaded.err.Some? then r == Refused(loaded.state, RandomReloadFailed(loaded.err.value))
    else if Length(loaded.state.all) == 0 then r == Refused(loaded.state, NoProxiesAfterReload)
    else PickedFrom(loaded.state, loaded.state.all, r)
  }

  /** `Random` with the reloaded size checked: it never panics, and a
      proxy it hands out is one of the pool's. */
  function Random(setup: Setup, st: State, choice: nat): (r: Drawn)
    ensures !r.Panicked?
    ensures Length(st.all) > 0 ==> r.Drawn? && PickedFrom(st, st.all, r) && r.state.all == st.all
    ensures Length(st.all) == 0 && !setup.config.reloadWhenEmpty ==> r == Refused(st, NoProxiesInPool)
    ensures Length(st.all) == 0 && setup.config.reloadWhenEmpty ==> RandomAfterReload(Load(setup, st), r)
    ensures r.Drawn? ==> exists q :: q in r.state.all.proxies && r.proxy == Proxies.CastProxy(q)
  {
    if Length(st.all) > 0 then
      PickIsPicked(st, st.all, choice);
      Pick(st, st.all, choice)
    else if !setup.config.reloadWhenEmpty then Refused(st, NoProxiesInPool)
    else
      var loaded := Load(setup, st);
      if loaded.err.Some? then Refused(loaded.state, RandomReloadFailed(loaded.err.value))
      else if Length(loaded.state.all) == 0 then Refused(loaded.state, NoProxiesAfterReload)
      else
        PickIsPicked(loaded.state, loaded.state.all, choice);
        Pick(loaded.state, loaded.state.all, choice)
  }

  /** Wherever the as-written `Random` does not panic, the checked one
      behaves the same. */
  lemma RandomAgreesUnlessPanic(setup: Setup, st: State, choice: nat)
    requires !RandomAsWritten(setup, st, choice).Panicked?
    ensures Random(setup, st, choice) == RandomAsWritten(setup, st, choice)
  {
  }

  /** The as-written `Random` panics exactly when an empty pool with
      reloading enabled reloads successfully into an empty `All`; the
      checked one returns an error there instead. */
  lemma RandomPanicsOnEmptyReload(setup: Setup, st: State, choice: nat)
    ensures RandomAsWritten(setup, st, choice).Panicked? <==>
      && Length(st.all) == 0 && setup.config.reloadWhenEmpty
      && Load(setup, st).err.None? && Length(Load(setup, st).state.all) == 0
    ensures RandomAsWritten(setup, st, choice).Panicked? ==>
      Random(setup, st, choice) == Refused(Load(setup, st).state, NoProxiesAfterReload)
  {
  }

  // ---------------------------------------------------------------------
  // Construction and options

  /** A pool: its configuration and its state. */
  datatype Pool = Pool(setup: Setup, state: State)

  /** What applying options gives: the configuration and the error the
      options returned, or the panic one of them raised. */
  datatype Applied = Applied(setup: Setup, err: Option<string>) | OptionPanic(msg: string)

  /** `Option`: a function configuring the pool. */
  type PoolOption = Setup -> Applied

  /** The defaults of `NewComplexPool`: no providers, no filters, falling
      back to backup providers but not to the cache, not reloading. */
  const DefaultSetup := Setup([], [], [], Config(true, false, false))

  /** The initial state: empty sets and no cache. The nil cache pointers
      are never read while the cache is unavailable. */
  const EmptyState := State(NewSet(), NewSet(), false, Detached(NewSet(), NewSet()))

  /** Option `o` applied to configuration `c` gives `r`. */
  ghost predicate Yields(o: PoolOption, c: Setup, r: Applied) {
    o(c) == r
  }

  /** The last of `opts` applied to `c` gives `r`. */
  ghost predicate LastYields(opts: seq<PoolOption>, c: Setup, r: Applied) {
    |opts| > 0 && opts[|opts| - 1](c) == r
  }

  /** Applies `opts` in order. A panic stops everything; otherwise the
      result is the error of the last option, earlier ones being dropped. */
  function ApplyOptions(s: Setup, opts: seq<PoolOption>): (r: Applied)
    ensures |opts| == 0 ==> r.Applied? && r.err.None?
    ensures r.Applied? && |opts| > 0 ==> exists c :: LastYields(opts, c, r)
    ensures r.Applied? && |opts| > 0 ==>
              && ApplyOptions(s, opts[..|opts| - 1]).Applied?
              && r == opts[|opts| - 1](ApplyOptions(s, opts[..|opts| - 1]).setup)
    ensures r.OptionPanic? ==> exists k, c :: 0 <= k < |opts| && Yields(opts[k], c, r)
    decreases |opts|
  {
    if |opts| == 0 then Applied(s, None)
    else
      var init := opts[..|opts| - 1];
      var before := ApplyOptions(s, init);
      if before.OptionPanic? then
        assert exists k, c :: 0 <= k < |opts| && Yields(opts[k], c, before) by {
          var k, c :| 0 <= k < |init| && Yields(init[k], c, before);
          assert opts[k] == init[k];
        }
        before
      else
        assert LastYields(opts, before.setup, opts[|opts| - 1](before.setup));
        assert Yields(opts[|opts| - 1], before.setup, opts[|opts| - 1](before.setup));
        opts[|opts| - 1](before.setup)
  }

  lemma ApplyOptionsSnoc(s: Setup, opts: seq<PoolOption>, o: PoolOption)
    ensures ApplyOptions(s, opts + [o]) ==
      if ApplyOptions(s, opts).OptionPanic? then ApplyOptions(s, opts) else o(ApplyOptions(s, opts).setup)
  {
    assert (opts + [o])[..|opts|] == opts;
  }

  /** Options apply in order: `b` acts on what `a` configured, unless `a`
      already panicked, and the error left is `b`'s alone when `b` is not
      empty. */
  lemma {:induction false} ApplyOptionsAppend(s: Setup, a: seq<PoolOption>, b: seq<PoolOption>)
    ensures ApplyOptions(s, a + b) ==
      if ApplyOptions(s, a).OptionPanic? || |b| == 0 then ApplyOptions(s, a)
      else ApplyOptions(ApplyOptions(s, a).setup, b)
    decreases |b|
  {
    if |b| == 0 {
      assert a + b == a;
    } else {
      var init, o := b[..|b| - 1], b[|b| - 1];
      assert b == init + [o];
      assert a + b == (a + init) + [o];
      ApplyOptionsAppend(s, a, init);
      ApplyOptionsSnoc(s, a + init, o);
      if !ApplyOptions(s, a).OptionPanic? {
        var c := ApplyOptions(s, a).setup;
        ApplyOptionsSnoc(c, init, o);
        if |init| == 0 {
          assert init + [o] == [o];
        }
      }
    }
  }

  /** `NewComplexPool`: the defaults, then the options in order; their
      errors are ignored, their panics are not. */
  function NewComplexPool(opts: seq<PoolOption>): (r: Result<Pool, string>)
    ensures r.Ok? <==> ApplyOptions(DefaultSetup, opts).Applied?
    ensures r.Ok? ==> r.value.state == EmptyState && r.value.setup == ApplyOptions(DefaultSetup, opts).setup
    ensures r.Err? ==> r.error == ApplyOptions(DefaultSetup, opts).msg
  {
    match ApplyOptions(DefaultSetup, opts)
    case OptionPanic(msg) => Err(msg)
    case Applied(setup, _) => Ok(Pool(setup, EmptyState))
  }

  /** The `Option` method: applies `opts` to a pool's configuration and
      returns the last option's error; a panic ends the call. */
  function Configure(pool: Pool, opts: seq<PoolOption>): (r: Result<(Pool, Option<string>), string>)
    ensures r.Ok? <==> ApplyOptions(pool.setup, opts).Applied?
    ensures r.Ok? ==> r.value.0.state == pool.state
    ensures r.Ok? && |opts| == 0 ==> r.value.0 == pool && r.value.1.None?
    ensures r.Ok? ==> r.value.0.setup == ApplyOptions(pool.setup, opts).setup
                      && r.value.1 == ApplyOptions(pool.setup, opts).err
    ensures r.Ok? && |opts| > 0 ==> exists c :: LastYields(opts, c, Applied(r.value.0.setup, r.value.1))
  {
    match ApplyOptions(pool.setup, opts)
    case OptionPanic(msg) => Err(msg)
    case Applied(setup, err) => Ok((Pool(setup, pool.state), err))
  }

  /** Configuring with `a` and then with a non-empty `b` is configuring
      with `a + b` once: the pool and the error left are the same. */
  lemma ConfigureComposes(pool: Pool, a: seq<PoolOption>, b: seq<PoolOption>)
    requires Configure(pool, a).Ok? && |b| > 0
    ensures Configure(Configure(pool, a).value.0, b) == Configure(pool, a + b)
  {
    ApplyOptionsAppend(pool.setup, a, b);
  }

  /** The provider registry the pool reads: names to provider functions. */
  type Catalogue = map<string, Provider>

  /** `names[k]` is the first name the catalogue lacks. */
  predicate FirstUnknown(reg: Catalogue, names: seq<string>, k: int) {
    0 <= k < |names| && names[k] !in reg && forall i :: 0 <= i < k ==> names[i] in reg
  }

  function InvalidProvider(name: string, fallback: bool): string {
    (if fallback then "prox: invalid fallback provider '" else "prox: invalid provider '") + name + "'"
  }

  /** The lookups of `UseProviders`/`UseFallbackProviders`: the providers
      in argument order, or the panic at the first unknown name. */
  function Resolve(reg: Catalogue, names: seq<string>, fallback: bool): (r: Result<seq<Provider>, string>)
    ensures r.Ok? <==> forall i :: 0 <= i < |names| ==> names[i] in reg
    ensures r.Ok? ==> |r.value| == |names| && forall i :: 0 <= i < |names| ==> r.value[i] == reg[names[i]]
    ensures r.Err? ==> exists k :: FirstUnknown(reg, names, k) && r.error == InvalidProvider(names[k], fallback)
    decreases |names|
  {
    if |names| == 0 then Ok([])
    else if names[0] !in reg then Err(InvalidProvider(names[0], fallback))
    else match Resolve(reg, names[1..], fallback)
      case Err(e) =>
        var k :| FirstUnknown(reg, names[1..], k) && e == InvalidProvider(names[1..][k], fallback);
        assert FirstUnknown(reg, names, k + 1);
        Err(e)
      case Ok(rest) => Ok([reg[names[0]]] + rest)
  }

  /** `UseProviders`: appends the named providers, or panics. */
  function UseProviders(reg: Catalogue, names: seq<string>): (o: PoolOption)
    ensures forall s :: o(s).OptionPanic? <==> exists i :: 0 <= i < |names| && names[i] !in reg
    ensures forall s :: o(s).Applied? ==> && o(s).err.None?
                                          && o(s).setup.providers == s.providers + Resolve(reg, names, false).value
                                          && o(s).setup.fallbacks == s.fallbacks
                                          && o(s).setup.filters == s.filters
                                          && o(s).setup.config == s.config
  {
    (s: Setup) =>
      match Resolve(reg, names, false)
      case Err(m) => OptionPanic(m)
      case Ok(ps) => Applied(s.(providers := s.providers + ps), None)
  }

  /** `UseFallbackProviders`: appends the named fallback providers, or panics. */
  function UseFallbackProviders(reg: Catalogue, names: seq<string>): (o: PoolOption)
    ensures forall s :: o(s).OptionPanic? <==> exists i :: 0 <= i < |names| && names[i] !in reg
    ensures forall s :: o(s).Applied? ==> && o(s).err.None?
                                          && o(s).setup.fallbacks == s.fallbacks + Resolve(reg, names, true).value
                                          && o(s).setup.providers == s.providers
                                          && o(s).setup.filters == s.filters
                                          && o(s).setup.config == s.config
  {
    (s: Setup) =>
      match Resolve(reg, names, true)
      case Err(m) => OptionPanic(m)
      case Ok(ps) => Applied(s.(fallbacks := s.fallbacks + ps), None)
  }

  function UseProvider(reg: Catalogue, name: string): PoolOption {
    UseProviders(reg, [name])
  }

  function UseFallbackProvider(reg: Catalogue, name: string): PoolOption {
    UseFallbackProviders(reg, [name])
  }

  /** The config options set one flag and nothing else. */
  function OptionReloadWhenEmpty(b: bool): (o: PoolOption)
    ensures forall s :: o(s).Applied? && o(s).err.None? && o(s).setup.config == s.config.(reloadWhenEmpty := b)
    ensures forall s :: && o(s).setup.providers == s.providers && o(s).setup.fallbacks == s.fallbacks
                        && o(s).setup.filters == s.filters
  {
    (s: Setup) => Applied(s.(config := s.config.(reloadWhenEmpty := b)), None)
  }

  function OptionFallbackToCached(b: bool): (o: PoolOption)
    ensures forall s :: o(s).Applied? && o(s).err.None? && o(s).setup.config == s.config.(fallbackToCached := b)
    ensures forall s :: && o(s).setup.providers == s.providers && o(s).setup.fallbacks == s.fallbacks
                        && o(s).setup.filters == s.filters
  {
    (s: Setup) => Applied(s.(config := s.config.(fallbackToCached := b)), None)
  }

  function OptionFallbackToBackupProviders(b: bool): (o: PoolOption)
    ensures forall s :: o(s).Applied? && o(s).err.None? && o(s).setup.config == s.config.(fallbackToBackupProviders := b)
    ensures forall s :: && o(s).setup.providers == s.providers && o(s).setup.fallbacks == s.fallbacks
                        && o(s).setup.filters == s.filters
  {
    (s: Setup) => Applied(s.(config := s.config.(fallbackToBackupProviders := b)), None)
  }

  /** `OptionAddFilters` and `OptionAddFilter`: append to the filters. */
  function OptionAddFilters(fs: seq<Filters.Filter>): (o: PoolOption)
    ensures forall s :: o(s).Applied? && o(s).err.None? && o(s).setup.filters == s.filters + fs
    ensures forall s :: && o(s).setup.providers == s.providers && o(s).setup.fallbacks == s.fallbacks
                        && o(s).setup.config == s.config
  {
    (s: Setup) => Applied(s.(filters := s.filters + fs), None)
  }

  function OptionAddFilter(f: Filters.Filter): PoolOption {
    OptionAddFilters([f])
  }
}
