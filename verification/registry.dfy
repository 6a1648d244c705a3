/** Package `prox`'s provider registry and combinators (providers.go). A
    scraper is an input: each registered entry wraps a provider function
    the caller supplies. */
module Registry {
  import opened Results
  import opened Text
  import Providers

  /** `prox.Provider`: a name and the provider function it stands for. */
  datatype Provider = Provider(name: string, internal: Providers.Provider)

  /** The four scraping functions of package `providers`. */
  datatype Scrapers = Scrapers(
    freeProxyLists: Providers.Provider,
    proxyScrape: Providers.Provider,
    getProxyList: Providers.Provider,
    staticList: Providers.Provider)

  /** `Providers`: the default registry, keyed by provider name. */
  function Registry(sc: Scrapers): (reg: map<string, Provider>)
    ensures reg.Keys == {"FreeProxyLists", "ProxyScrape", "GetProxyList", "Static"}
    ensures forall n :: n in reg ==> reg[n].name == n
  {
    map[
      "FreeProxyLists" := Provider("FreeProxyLists", sc.freeProxyLists),
      "ProxyScrape" := Provider("ProxyScrape", sc.proxyScrape),
      "GetProxyList" := Provider("GetProxyList", sc.getProxyList),
      "Static" := Provider("Static", sc.staticList)]
  }

  /** The panic `panicValidProvider` raises for an unregistered name (the
      zero `Provider` it then reads has a nil function). */
  function InvalidProvider(name: string): string {
    "invalid provider type " + name
  }

  /** `GetProvider`: the registered entry, or the panic for an unknown name. */
  function GetProvider(reg: map<string, Provider>, name: string): (r: Result<Provider, string>)
    ensures r.Ok? <==> name in reg
    ensures r.Ok? ==> r.value == reg[name]
    ensures r.Err? ==> r.error == InvalidProvider(name)
  {
    if name in reg then Ok(reg[name]) else Err(InvalidProvider(name))
  }

  /** `names[k]` is the first unregistered name. */
  predicate FirstUnknown(reg: map<string, Provider>, names: seq<string>, k: int) {
    0 <= k < |names| && names[k] !in reg && forall i :: 0 <= i < k ==> names[i] in reg
  }

  /** `GetProviders`: the entries in argument order; panics at the first
      unknown name. */
  function GetProviders(reg: map<string, Provider>, names: seq<string>): (r: Result<seq<Provider>, string>)
    ensures r.Ok? <==> forall i :: 0 <= i < |names| ==> names[i] in reg
    ensures r.Ok? ==> |r.value| == |names| && forall i :: 0 <= i < |names| ==> r.value[i] == reg[names[i]]
    ensures r.Err? ==> exists k :: FirstUnknown(reg, names, k) && r.error == InvalidProvider(names[k])
    decreases |names|
  {
    if |names| == 0 then Ok([])
    else if names[0] !in reg then Err(InvalidProvider(names[0]))
    else match GetProviders(reg, names[1..])
      case Err(e) =>
        var k :| FirstUnknown(reg, names[1..], k) && e == InvalidProvider(names[1..][k]);
        assert FirstUnknown(reg, names, k + 1);
        Err(e)
      case Ok(rest) => Ok([reg[names[0]]] + rest)
  }

  // ---------------------------------------------------------------------
  // MultiProvider

  function Names(ps: seq<Provider>): (r: seq<string>)
    ensures |r| == |ps| && forall i :: 0 <= i < |ps| ==> r[i] == ps[i].name
  {
    seq(|ps|, i requires 0 <= i < |ps| => ps[i].name)
  }

  /** The name of a `MultiProvider`: `Multi{a|b|...}`. */
  function MultiName(ps: seq<Provider>): string {
    "Multi{" + Join(Names(ps), '|') + "}"
  }

  /** Every given provider writes into the one shared collector, in order;
      what each returns is ignored. */
  function RunAll(ps: seq<Provider>, collector: Providers.Set): (r: Providers.Set)
    decreases |ps|
  {
    if |ps| == 0 then collector
    else RunAll(ps[1..], ps[0].internal(collector).collector)
  }

  /** The function of a `MultiProvider`: the collector's contents after all
      the given providers ran, with an error exactly when it is empty. */
  function MultiRun(ps: seq<Provider>, collector: Providers.Set): (r: Providers.ProviderResult)
    ensures r.collector == RunAll(ps, collector)
    ensures r.proxies == Providers.All(r.collector)
    ensures r.err.Some? <==> Providers.Length(r.collector) == 0
    ensures r.err.Some? ==> r.err.value == "providers (" + MultiName(ps) + "): no proxies could be gathered"
  {
    var filled := RunAll(ps, collector);
    var all := Providers.All(filled);
    if |all| == 0 then Providers.ProviderResult(filled, all, Some("providers (" + MultiName(ps) + "): no proxies could be gathered"))
    else Providers.ProviderResult(filled, all, None)
  }

  /** `MultiProvider`. */
  function MultiProvider(ps: seq<Provider>): (r: Provider)
    ensures forall c :: r.internal(c) == MultiRun(ps, c)
  {
    Provider(MultiName(ps), (c: Providers.Set) => MultiRun(ps, c))
  }

  /** The name of a `MultiProvider` is `Multi{`, the names joined by `|`,
      and `}`; when no name contains `|`, the names can be read back. */
  lemma MultiNameRoundTrip(ps: seq<Provider>)
    requires |ps| >= 1
    requires forall i :: 0 <= i < |ps| ==> '|' !in ps[i].name
    ensures var n := MultiProvider(ps).name;
            && |n| >= 7 && n[..6] == "Multi{" && n[|n| - 1] == '}'
            && Split(n[6..|n| - 1], '|') == Names(ps)
  {
    var n := MultiProvider(ps).name;
    var inner := Join(Names(ps), '|');
    assert n == "Multi{" + inner + "}";
    assert n[6..|n| - 1] == inner;
    SplitJoin(Names(ps), '|');
  }

  // ---------------------------------------------------------------------
  // FreezeProvider

  /** `FreezeProvider`: checks the name, runs the provider once against a
      fresh collector, and returns a provider that ignores its collector
      and replays that one result (its list, or its error and no list). */
  function FreezeProvider(reg: map<string, Provider>, name: string): (r: Result<Providers.Provider, string>)
    ensures r.Ok? <==> name in reg
    ensures r.Err? ==> r.error == InvalidProvider(name)
    ensures r.Ok? ==>
              var once := reg[name].internal(Providers.NewSet());
              forall c :: && r.value(c).collector == c
                          && r.value(c).err == once.err
                          && r.value(c).proxies == (if once.err.Some? then [] else once.proxies)
  {
    if name !in reg then Err(InvalidProvider(name))
    else
      var once := reg[name].internal(Providers.NewSet());
      Ok((c: Providers.Set) =>
        if once.err.Some? then Providers.ProviderResult(c, [], once.err)
        else Providers.ProviderResult(c, once.proxies, None))
  }

  /** Two calls of a frozen provider give the same answer whatever their
      collectors hold. */
  lemma FrozenIgnoresArguments(reg: map<string, Provider>, name: string, c1: Providers.Set, c2: Providers.Set)
    requires FreezeProvider(reg, name).Ok?
    ensures var f := FreezeProvider(reg, name).value;
            f(c1).proxies == f(c2).proxies && f(c1).err == f(c2).err
  {
  }
}
