/** The situations pool_complex_test.go sets up, with the three dummy
    providers registered under their names. Each lemma states what the
    corresponding test expects of the pool. */
module ComplexPoolScenarios {
  import opened Results
  import opened Providers
  import opened ComplexPool
  import Filters
  import DummyProviders

  /** The registry with the dummy providers added. */
  const Reg: Catalogue := map[
    "DummyProvider" := DummyProviders.DummyProvider,
    "DummyProviderEmpty" := DummyProviders.DummyProviderEmpty,
    "DummyProviderError" := DummyProviders.DummyProviderError
  ]

  /** `ApplyOptions` over one option is that option on the defaults. */
  lemma OneOption(o: PoolOption)
    ensures ApplyOptions(DefaultSetup, [o]) == o(DefaultSetup)
  {
    ApplyOptionsSnoc(DefaultSetup, [], o);
    assert [] + [o] == [o];
  }

  /** `ApplyOptions` over two options that do not panic. */
  lemma TwoOptions(o1: PoolOption, o2: PoolOption)
    requires o1(DefaultSetup).Applied?
    ensures ApplyOptions(DefaultSetup, [o1, o2]) == o2(o1(DefaultSetup).setup)
  {
    OneOption(o1);
    ApplyOptionsSnoc(DefaultSetup, [o1], o2);
    assert [o1] + [o2] == [o1, o2];
  }

  /** `UseProvider(name)` on the defaults, for a registered name. */
  lemma UseOne(name: string)
    requires name in Reg
    ensures NewComplexPool([UseProvider(Reg, name)]) == Ok(Pool(DefaultSetup.(providers := [Reg[name]]), EmptyState))
  {
    var o := UseProviders(Reg, [name]);
    assert UseProvider(Reg, name) == o;
    OneOption(o);
    assert !o(DefaultSetup).OptionPanic?;
    var v := Resolve(Reg, [name], false).value;
    assert v == [Reg[name]];
    assert o(DefaultSetup).setup.providers == [] + v;
    assert o(DefaultSetup).setup == DefaultSetup.(providers := [Reg[name]]);
  }

  /** The pool holding one dummy provider and nothing else, as
      `UseProvider("DummyProvider")` configures it. */
  lemma DummyConfigured()
    ensures NewComplexPool([UseProvider(Reg, "DummyProvider")])
         == Ok(Pool(Setup([DummyProviders.DummyProvider], [], [], Config(true, false, false)), EmptyState))
  {
    UseOne("DummyProvider");
  }

  /** Loading the dummy provider, unfiltered, into an empty pool fills
      both sets with its 19 proxies, in order. */
  lemma LoadDummy(setup: Setup)
    requires setup.providers == [DummyProviders.DummyProvider] && setup.filters == []
    ensures var r := Load(setup, EmptyState);
            && r.err.None? && r.state.all == r.state.unused && Consistent(r.state.all)
            && r.state.all.proxies == DummyProviders.DummyList()
  {
    var ps := DummyProviders.DummyList();
    var provs := setup.providers;
    assert provs[1..] == [];
    assert Returned(provs, NewSet()) == ps + [];
    assert ps + [] == ps;
    DummyProviders.DummyFillsFreshCollector();
    assert Collected(provs, NewSet()) == DummyProviders.DummyProvider(NewSet()).collector;
    DummyProviders.DummyHostsDistinct();
    AddAllFresh(NewSet(), ps);
    var fetched := Fetch(setup, EmptyState).state;
    assert fetched.all == Set(Hosts(ps), ps) && fetched.unused == Set(Hosts(ps), ps);
    Filters.NoFiltersKeepAll(ps);
  }

  /** `TestComplexPoolCreation`, first half: the defaults. */
  lemma CreationDefaults()
    ensures var r := NewComplexPool([]);
            && r.Ok? && SizeAll(r.value.state) == 0 && !r.value.state.cacheAvailable
            && r.value.setup.config == Config(true, false, false)
  {
  }

  /** `TestComplexPoolCreation`, second half: the three config options. */
  lemma CreationWithOptions()
    ensures var r := NewComplexPool([OptionFallbackToBackupProviders(true), OptionFallbackToCached(true),
                                     OptionReloadWhenEmpty(true)]);
            r.Ok? && r.value.setup.config == Config(true, true, true)
  {
    var o1, o2, o3 := OptionFallbackToBackupProviders(true), OptionFallbackToCached(true), OptionReloadWhenEmpty(true);
    TwoOptions(o1, o2);
    ApplyOptionsSnoc(DefaultSetup, [o1, o2], o3);
    assert [o1, o2] + [o3] == [o1, o2, o3];
  }

  /** `TestComplexPoolInvalidProviders`: an unknown name panics. */
  lemma InvalidProviderPanics()
    ensures NewComplexPool([UseProviders(Reg, ["HGUIExampleBadProvideraAOIJD"])])
         == Err(InvalidProvider("HGUIExampleBadProvideraAOIJD", false))
  {
    OneOption(UseProviders(Reg, ["HGUIExampleBadProvideraAOIJD"]));
  }

  /** A lone provider that leaves the collector empty, no fallback
      providers and no cache: `Load` fails. */
  lemma LoadFindsNothing(setup: Setup)
    requires |setup.providers| == 1 && setup.providers[0](NewSet()).collector == NewSet()
    requires setup.fallbacks == [] && setup.config.fallbackToBackupProviders
    ensures Load(setup, EmptyState).err == Some(NoneFromFallback)
  {
    assert setup.providers[1..] == [];
    assert Collected(setup.providers, NewSet()) == NewSet();
  }

  /** `TestComplexPoolEmptyProvider`: a provider that finds nothing makes
      `Load` fail (the default fallback to backup providers has none). */
  lemma EmptyProviderFails()
    ensures var r := NewComplexPool([UseProvider(Reg, "DummyProviderEmpty")]);
            && r.Ok? && r.value.setup.providers == [DummyProviders.DummyProviderEmpty]
            && Load(r.value.setup, r.value.state).err == Some(NoneFromFallback)
  {
    UseOne("DummyProviderEmpty");
    LoadFindsNothing(DefaultSetup.(providers := [DummyProviders.DummyProviderEmpty]));
  }

  /** `TestComplexPoolErrorProvider`: a provider that reports an error
      makes `Load` fail. */
  lemma ErrorProviderFails()
    ensures var r := NewComplexPool([UseProvider(Reg, "DummyProviderError")]);
            && r.Ok? && r.value.setup.providers == [DummyProviders.DummyProviderError]
            && Load(r.value.setup, r.value.state).err == Some(NoneFromFallback)
  {
    UseOne("DummyProviderError");
    LoadFindsNothing(DefaultSetup.(providers := [DummyProviders.DummyProviderError]));
  }

  /** The configuration of `TestComplexPoolFallbackProviders`. */
  lemma FallbackConfigured()
    ensures NewComplexPool([UseProvider(Reg, "DummyProviderEmpty"), UseFallbackProvider(Reg, "DummyProvider")])
         == Ok(Pool(DefaultSetup.(providers := [DummyProviders.DummyProviderEmpty],
                                  fallbacks := [DummyProviders.DummyProvider]), EmptyState))
  {
    var o1, o2 := UseProviders(Reg, ["DummyProviderEmpty"]), UseFallbackProviders(Reg, ["DummyProvider"]);
    assert UseProvider(Reg, "DummyProviderEmpty") == o1 && UseFallbackProvider(Reg, "DummyProvider") == o2;
    assert !o1(DefaultSetup).OptionPanic?;
    assert Resolve(Reg, ["DummyProviderEmpty"], false).value == [Reg["DummyProviderEmpty"]];
    var s1 := DefaultSetup.(providers := [DummyProviders.DummyProviderEmpty]);
    assert o1(DefaultSetup).setup == s1;
    TwoOptions(o1, o2);
    assert !o2(s1).OptionPanic?;
    assert Resolve(Reg, ["DummyProvider"], true).value == [Reg["DummyProvider"]];
    assert o2(s1).setup.fallbacks == [] + [DummyProviders.DummyProvider];
    assert o2(s1).setup == DefaultSetup.(providers := [DummyProviders.DummyProviderEmpty],
                                         fallbacks := [DummyProviders.DummyProvider]);
  }

  /** Providers that find nothing and the dummy provider as the lone
      fallback, unfiltered, loaded into an empty pool: both sets hold the
      fallback's 19 proxies, in order. */
  lemma LoadFallsBack(setup: Setup)
    requires setup.providers == [DummyProviders.DummyProviderEmpty] && setup.filters == []
    requires setup.fallbacks == [DummyProviders.DummyProvider] && setup.config.fallbackToBackupProviders
    requires !setup.config.fallbackToCached
    ensures var r := Load(setup, EmptyState);
            && r.err.None? && r.state.all == r.state.unused && Consistent(r.state.all)
            && r.state.all.proxies == DummyProviders.DummyList()
  {
    var ps := DummyProviders.DummyList();
    assert setup.providers[1..] == [] && setup.fallbacks[1..] == [];
    assert Collected(setup.providers, NewSet()) == NewSet();
    assert Returned(setup.providers, NewSet()) == [];
    var fetched := Fetch(setup, EmptyState);
    assert fetched.err.Some? && fetched.state.all == NewSet() && fetched.state.unused == NewSet();
    assert Returned(setup.fallbacks, NewSet()) == ps + [];
    assert ps + [] == ps;
    DummyProviders.DummyFillsFreshCollector();
    assert Collected(setup.fallbacks, NewSet()) == DummyProviders.DummyProvider(NewSet()).collector;
    DummyProviders.DummyHostsDistinct();
    AddAllFresh(NewSet(), ps);
    var fallback := FetchFallback(setup, fetched.state);
    assert fallback.state.all == Set(Hosts(ps), ps) && fallback.state.unused == Set(Hosts(ps), ps);
    Filters.NoFiltersKeepAll(ps);
  }

  /** `TestComplexPoolFallbackProviders`: when the providers find nothing,
      the fallback provider's 19 proxies are loaded. */
  lemma FallbackProvidersLoad()
    ensures var r := NewComplexPool([UseProvider(Reg, "DummyProviderEmpty"), UseFallbackProvider(Reg, "DummyProvider")]);
            && r.Ok? && r.value.setup.fallbacks == [DummyProviders.DummyProvider]
            && var loaded := Load(r.value.setup, r.value.state);
            && loaded.err.None?
            && loaded.state.all.proxies == DummyProviders.DummyList()
            && loaded.state.unused.proxies == DummyProviders.DummyList()
  {
    FallbackConfigured();
    LoadFallsBack(DefaultSetup.(providers := [DummyProviders.DummyProviderEmpty],
                                fallbacks := [DummyProviders.DummyProvider]));
  }

  /** The configuration of the second pool of `TestComplexPoolCache`. */
  lemma CacheConfigured()
    ensures NewComplexPool([OptionFallbackToCached(true), UseProvider(Reg, "DummyProviderEmpty")])
         == Ok(Pool(Setup([DummyProviders.DummyProviderEmpty], [], [], Config(true, true, false)), EmptyState))
  {
    var o1, o2 := OptionFallbackToCached(true), UseProviders(Reg, ["DummyProviderEmpty"]);
    assert UseProvider(Reg, "DummyProviderEmpty") == o2;
    var s1 := o1(DefaultSetup).setup;
    assert s1 == DefaultSetup.(config := Config(true, true, false));
    TwoOptions(o1, o2);
    assert !o2(s1).OptionPanic?;
    assert Resolve(Reg, ["DummyProviderEmpty"], false).value == [Reg["DummyProviderEmpty"]];
    assert o2(s1).setup.providers == [] + [DummyProviders.DummyProviderEmpty];
    assert o2(s1).setup == Setup([DummyProviders.DummyProviderEmpty], [], [], Config(true, true, false));
  }

  /** Providers that find nothing, and a cache to fall back to: `Load`
      puts the cached sets back, unfiltered when there are no filters. */
  lemma LoadFromCache(setup: Setup, st: State)
    requires setup.providers == [DummyProviders.DummyProviderEmpty] && setup.filters == []
    requires setup.config.fallbackToCached && st.cacheAvailable && st.cache.Detached?
    requires Consistent(st.cache.all) && Consistent(st.cache.unused)
    ensures Load(setup, st).err.None?
    ensures Load(setup, st).state.all.proxies == st.cache.all.proxies
    ensures Load(setup, st).state.unused.proxies == st.cache.unused.proxies
  {
    assert setup.providers[1..] == [];
    assert Collected(setup.providers, NewSet()) == NewSet();
    assert Returned(setup.providers, NewSet()) == [];
    var fetched := Fetch(setup, st);
    assert fetched.err.Some? && fetched.state.cache == st.cache;
    var cached := ApplyCache(fetched.state);
    assert cached.state.all == st.cache.all && cached.state.unused == st.cache.unused;
    Filters.NoFiltersKeepAll(st.cache.all.proxies);
    Filters.NoFiltersKeepAll(st.cache.unused.proxies);
    assert Load(setup, st) == Step(Filter([], cached.state), None);
  }

  /** `TestComplexPoolCache`: a pool whose provider finds nothing, given
      the sets of a pool that loaded the dummy provider as its cache,
      loads those 19 proxies. */
  lemma CacheLoads()
    ensures var initial := NewComplexPool([UseProvider(Reg, "DummyProvider")]);
            var r := NewComplexPool([OptionFallbackToCached(true), UseProvider(Reg, "DummyProviderEmpty")]);
            && initial.Ok? && r.Ok?
            && var loaded := Load(initial.value.setup, initial.value.state);
            && loaded.err.None?
            && var st := r.value.state.(cacheAvailable := true, cache := Detached(loaded.state.all, loaded.state.unused));
            && Load(r.value.setup, st).err.None?
            && Load(r.value.setup, st).state.all.proxies == DummyProviders.DummyList()
  {
    DummyConfigured();
    var first := Setup([DummyProviders.DummyProvider], [], [], Config(true, false, false));
    LoadDummy(first);
    CacheConfigured();
    var loaded := Load(first, EmptyState);
    var st := EmptyState.(cacheAvailable := true, cache := Detached(loaded.state.all, loaded.state.unused));
    LoadFromCache(Setup([DummyProviders.DummyProviderEmpty], [], [], Config(true, true, false)), st);
  }

  /** The configuration of `TestComplexPoolAutomaticReload`. */
  lemma ReloadConfigured()
    ensures NewComplexPool([OptionReloadWhenEmpty(true), UseProvider(Reg, "DummyProvider")])
         == Ok(Pool(Setup([DummyProviders.DummyProvider], [], [], Config(true, false, true)), EmptyState))
  {
    var o1, o2 := OptionReloadWhenEmpty(true), UseProviders(Reg, ["DummyProvider"]);
    assert UseProvider(Reg, "DummyProvider") == o2;
    var s1 := o1(DefaultSetup).setup;
    assert s1 == DefaultSetup.(config := Config(true, false, true));
    TwoOptions(o1, o2);
    assert !o2(s1).OptionPanic?;
    assert Resolve(Reg, ["DummyProvider"], false).value == [Reg["DummyProvider"]];
    assert o2(s1).setup.providers == [] + [DummyProviders.DummyProvider];
    assert o2(s1).setup == Setup([DummyProviders.DummyProvider], [], [], Config(true, false, true));
  }

  /** `TestComplexPoolAutomaticReload`: on an empty pool that reloads when
      empty, `New` and `Random` each load the 19 proxies and hand one out. */
  lemma AutomaticReload(choice: nat)
    ensures var r := NewComplexPool([OptionReloadWhenEmpty(true), UseProvider(Reg, "DummyProvider")]);
            && r.Ok?
            && New(r.value.setup, r.value.state, choice).Drawn?
            && SizeAll(New(r.value.setup, r.value.state, choice).state) == 19
            && Random(r.value.setup, r.value.state, choice).Drawn?
            && SizeAll(Random(r.value.setup, r.value.state, choice).state) == 19
  {
    ReloadConfigured();
    var setup := Setup([DummyProviders.DummyProvider], [], [], Config(true, false, true));
    LoadDummy(setup);
    var loaded := Load(setup, EmptyState);
    assert Length(loaded.state.unused) == 19 && Length(loaded.state.all) == 19;
    var n := New(setup, EmptyState, choice);
    assert AfterReload(loaded, n);
    var i :| 0 <= i < Length(loaded.state.unused) && n == Pick(loaded.state, loaded.state.unused, i);
    var m := Random(setup, EmptyState, choice);
    assert RandomAfterReload(loaded, m);
    var j :| 0 <= j < Length(loaded.state.all) && m == Pick(loaded.state, loaded.state.all, j);
  }

  /** `TestComplexPoolNew`: after loading, `New` hands out a proxy and
      `Unused` holds one fewer than `All`; with `Unused` emptied by hand,
      `New` refuses. */
  lemma NewAfterLoad(choice: nat)
    ensures var setup := Setup([DummyProviders.DummyProvider], [], [], Config(true, false, false));
            var loaded := Load(setup, EmptyState);
            && loaded.err.None?
            && var n := New(setup, loaded.state, choice);
            && n.Drawn? && SizeUnused(n.state) == SizeAll(n.state) - 1 == 18
            && var emptied := n.state.(unused := NewSet());
            New(setup, emptied, choice) == Refused(emptied, NoUnusedLeft)
  {
    DummyConfigured();
    LoadDummy(Setup([DummyProviders.DummyProvider], [], [], Config(true, false, false)));
  }

  /** `TestComplexPoolRandom`: after loading, `Random` hands out a proxy
      and `Unused` holds one fewer than `All`; with `Unused` emptied by
      hand, `Random` still hands one out. */
  lemma RandomAfterLoad(choice: nat)
    ensures var setup := Setup([DummyProviders.DummyProvider], [], [], Config(true, false, false));
            var loaded := Load(setup, EmptyState);
            && loaded.err.None?
            && var n := Random(setup, loaded.state, choice);
            && n.Drawn? && SizeUnused(n.state) == SizeAll(n.state) - 1 == 18
            && var emptied := n.state.(unused := NewSet());
            Random(setup, emptied, choice).Drawn?
  {
    var setup := Setup([DummyProviders.DummyProvider], [], [], Config(true, false, false));
    LoadDummy(setup);
    var st := Load(setup, EmptyState).state;
    assert Random(setup, st, choice) == Pick(st, st.all, choice);
    assert st.all == st.unused;
  }

  /** An empty allow-list of countries: admits no proxy. */
  lemma NoCountryAdmitsNothing(ps: seq<Proxy>)
    ensures Filters.ApplyFilters(ps, [Filters.FilterAllowCountries([])]) == []
  {
    var fs := [Filters.FilterAllowCountries([])];
    forall p: Proxies.Proxy ensures !Filters.Admits(fs, p) {
      assert fs[0](p) == false;
    }
  }

  /** The dummy provider behind a filter admitting no country, with
      reloading on: the reload of an empty pool succeeds and leaves it
      empty. */
  lemma LoadFiltersAll(setup: Setup)
    requires setup.providers == [DummyProviders.DummyProvider]
    requires setup.filters == [Filters.FilterAllowCountries([])]
    ensures Load(setup, EmptyState).err.None?
    ensures Length(Load(setup, EmptyState).state.all) == 0
    ensures Length(Load(setup, EmptyState).state.unused) == 0
  {
    assert setup.providers[1..] == [];
    DummyProviders.DummyFillsFreshCollector();
    assert Collected(setup.providers, NewSet()) == DummyProviders.DummyProvider(NewSet()).collector;
    forall p: Proxies.Proxy ensures !Filters.Admits(setup.filters, p) {
      assert setup.filters[0](p) == false;
    }
  }

  /** The `Random` finding on a concrete pool: with every proxy filtered
      out and reloading on, `Random` as written reaches `rand.Intn(0)`
      and panics, where `New` and the checked `Random` return errors. */
  lemma RandomPanicsWhenFilteredEmpty(choice: nat)
    ensures var setup := Setup([DummyProviders.DummyProvider], [], [Filters.FilterAllowCountries([])],
                               Config(true, false, true));
            && RandomAsWritten(setup, EmptyState, choice).Panicked?
            && Random(setup, EmptyState, choice) == Refused(Load(setup, EmptyState).state, NoProxiesAfterReload)
            && New(setup, EmptyState, choice) == Refused(Load(setup, EmptyState).state, NoUnusedAfterReload)
  {
    var setup := Setup([DummyProviders.DummyProvider], [], [Filters.FilterAllowCountries([])], Config(true, false, true));
    LoadFiltersAll(setup);
    RandomPanicsOnEmptyReload(setup, EmptyState, choice);
  }
}
