/** `SimplePool` (pool_simple.go): a provider wrapper holding the loaded
    proxies in `All` and the not yet dispensed ones in `Unused`, both
    host-keyed `providers.Set`s. Pool methods are state-transforming
    functions; `rand.Intn(n)` is an input `choice`, read as `choice % n`. */
module SimplePool {
  import opened Results
  import opened Providers
  import Proxies
  import Filters

  /** The pool's two sets. The provider is passed to `Load`. */
  datatype Pool = Pool(all: Set, unused: Set)

  /** A dispensed proxy and the pool after dispensing it. */
  datatype Dispensed = Dispensed(proxy: Proxies.Proxy, pool: Pool)

  const NoUnusedLeft := "prox: no unused proxies left in pool"
  const NoProxiesInPool := "prox: cannot select random proxy, no proxies in pool"

  /** Every unused host is a loaded host. */
  predicate UnusedWithinAll(pool: Pool) {
    pool.unused.membership <= pool.all.membership
  }

  /** `d` hands out slot `i` of `from` and removes it from `Unused`. */
  predicate Picked(pool: Pool, from: Set, i: int, d: Dispensed)
    requires 0 <= i < Length(from)
  {
    && d.proxy == Proxies.CastProxy(from.proxies[i])
    && d.pool == Pool(pool.all, Remove(pool.unused, from.proxies[i]))
  }

  /** `SizeAll`: for a consistent set, the number of distinct loaded hosts. */
  function SizeAll(pool: Pool): (n: nat)
    ensures Consistent(pool.all) ==> n == |pool.all.membership|
  {
    if Consistent(pool.all) then ConsistentLength(pool.all); Length(pool.all)
    else Length(pool.all)
  }

  /** `SizeUnused`: for a consistent set, the number of distinct unused hosts. */
  function SizeUnused(pool: Pool): (n: nat)
    ensures Consistent(pool.unused) ==> n == |pool.unused.membership|
  {
    if Consistent(pool.unused) then ConsistentLength(pool.unused); Length(pool.unused)
    else Length(pool.unused)
  }

  /** The loop of `Load`: every proxy goes into `All`, and into `Unused`
      when `Unused` does not already hold its host. */
  function LoadLoop(pool: Pool, ps: seq<Proxy>): (r: Pool)
    ensures r == Pool(AddAll(pool.all, ps), AddAll(pool.unused, ps))
    decreases |ps|
  {
    if |ps| == 0 then pool
    else
      var p := ps[0];
      var unused := if !In(pool.unused, p) then Add(pool.unused, p) else pool.unused;
      LoadLoop(Pool(Add(pool.all, p), unused), ps[1..])
  }

  /** `Load`: runs the provider on a fresh collector. A provider error is
      returned and the pool is left as it was (the `Err` carries no pool);
      otherwise every returned host is loaded and offered again, even one
      dispensed earlier. */
  function Load(pool: Pool, provider: Provider): (r: Result<Pool, string>)
    ensures r.Err? <==> provider(NewSet()).err.Some?
    ensures r.Err? ==> r.error == provider(NewSet()).err.value
    ensures r.Ok? ==>
      var hosts := Hosts(provider(NewSet()).proxies);
      && r.value.all.membership == pool.all.membership + hosts
      && r.value.unused.membership == pool.unused.membership + hosts
    ensures r.Ok? ==>
      var ps := provider(NewSet()).proxies;
      && r.value.all == AddAll(pool.all, ps) && r.value.unused == AddAll(pool.unused, ps)
      && Extends(pool.all, r.value.all, ps) && Extends(pool.unused, r.value.unused, ps)
    ensures r.Ok? ==> (Consistent(pool.all) ==> Consistent(r.value.all))
                      && (Consistent(pool.unused) ==> Consistent(r.value.unused))
    ensures r.Ok? && UnusedWithinAll(pool) ==> UnusedWithinAll(r.value)
  {
    var res := provider(NewSet());
    if res.err.Some? then Err(res.err.value)
    else Ok(LoadLoop(pool, res.proxies))
  }

  /** `New`: picks slot `choice % n` of `Unused` and removes that proxy
      from `Unused`; `All` stays as it is. */
  function New(pool: Pool, choice: nat): (r: Result<Dispensed, string>)
    ensures r.Err? <==> Length(pool.unused) == 0
    ensures r.Err? ==> r.error == NoUnusedLeft
    ensures r.Ok? ==> exists i :: 0 <= i < Length(pool.unused) && Picked(pool, pool.unused, i, r.value)
    ensures r.Ok? ==> r.value.pool.all == pool.all
                      && Length(r.value.pool.unused) == Length(pool.unused) - 1
                      && !In(r.value.pool.unused, pool.unused.proxies[choice % Length(pool.unused)])
    ensures r.Ok? && UnusedWithinAll(pool) ==> UnusedWithinAll(r.value.pool)
  {
    var n := Length(pool.unused);
    if n == 0 then Err(NoUnusedLeft)
    else
      var raw := pool.unused.proxies[choice % n];
      assert SameSpelling(raw, raw);
      var d := Dispensed(Proxies.CastProxy(raw), Pool(pool.all, Remove(pool.unused, raw)));
      assert Picked(pool, pool.unused, choice % n, d);
      Ok(d)
  }

  /** `Random`: picks slot `choice % n` of `All`, used or not, and removes
      it from `Unused`; `All` stays as it is. */
  function Random(pool: Pool, choice: nat): (r: Result<Dispensed, string>)
    ensures r.Err? <==> Length(pool.all) == 0
    ensures r.Err? ==> r.error == NoProxiesInPool
    ensures r.Ok? ==> exists i :: 0 <= i < Length(pool.all) && Picked(pool, pool.all, i, r.value)
    ensures r.Ok? ==> r.value.pool.all == pool.all
                      && Length(r.value.pool.unused) <= Length(pool.unused)
                      && !In(r.value.pool.unused, pool.all.proxies[choice % Length(pool.all)])
    ensures r.Ok? && UnusedWithinAll(pool) ==> UnusedWithinAll(r.value.pool)
  {
    var n := Length(pool.all);
    if n == 0 then Err(NoProxiesInPool)
    else
      var raw := pool.all.proxies[choice % n];
      var d := Dispensed(Proxies.CastProxy(raw), Pool(pool.all, Remove(pool.unused, raw)));
      assert Picked(pool, pool.all, choice % n, d);
      Ok(d)
  }

  /** A fresh set holding `ps`, added in order. */
  function Rebuild(ps: seq<Proxy>): (r: Set)
    ensures Consistent(r)
    ensures r.membership == Hosts(ps)
    ensures DistinctHosts(ps) ==> r.proxies == ps
  {
    if DistinctHosts(ps) then
      AddAllFresh(NewSet(), ps);
      assert {} + Hosts(ps) == Hosts(ps) && [] + ps == ps;
      AddAll(NewSet(), ps)
    else AddAll(NewSet(), ps)
  }

  /** `Filter`: replaces both sets with fresh sets holding the proxies of
      each that every filter admits. A consistent set keeps exactly its
      admitted proxies, in their order. */
  function Filter(pool: Pool, fs: seq<Filters.Filter>): (r: Pool)
    ensures Consistent(r.all) && Consistent(r.unused)
    ensures forall q :: q in r.all.proxies ==> q in pool.all.proxies && Filters.Admits(fs, Proxies.CastProxy(q))
    ensures forall q :: q in r.unused.proxies ==> q in pool.unused.proxies && Filters.Admits(fs, Proxies.CastProxy(q))
    ensures Consistent(pool.all) ==> r.all.proxies == Filters.ApplyFilters(pool.all.proxies, fs)
    ensures Consistent(pool.unused) ==> r.unused.proxies == Filters.ApplyFilters(pool.unused.proxies, fs)
  {
    var all := Filters.ApplyFilters(pool.all.proxies, fs);
    var unused := Filters.ApplyFilters(pool.unused.proxies, fs);
    assert Consistent(pool.all) ==> DistinctHosts(all) by {
      if Consistent(pool.all) { Filters.FilterKeepsDistinct(pool.all.proxies, fs); }
    }
    assert Consistent(pool.unused) ==> DistinctHosts(unused) by {
      if Consistent(pool.unused) { Filters.FilterKeepsDistinct(pool.unused.proxies, fs); }
    }
    Pool(Rebuild(all), Rebuild(unused))
  }

  // ---------------------------------------------------------------------
  // Properties

  /** Every unused slot can be the one `New` hands out. */
  lemma NewReachesEvery(pool: Pool, i: nat)
    requires i < Length(pool.unused)
    ensures New(pool, i).Ok? && Picked(pool, pool.unused, i, New(pool, i).value)
  {
    assert i % Length(pool.unused) == i;
  }

  /** Every loaded slot can be the one `Random` hands out. */
  lemma RandomReachesEvery(pool: Pool, i: nat)
    requires i < Length(pool.all)
    ensures Random(pool, i).Ok? && Picked(pool, pool.all, i, Random(pool, i).value)
  {
    assert i % Length(pool.all) == i;
  }

  /** A dispensed proxy is offered again once a later `Load` returns its
      host. */
  lemma LoadReoffersDispensed(pool: Pool, choice: nat, provider: Provider)
    requires New(pool, choice).Ok?
    requires provider(NewSet()).err.None?
    requires pool.unused.proxies[choice % Length(pool.unused)] in provider(NewSet()).proxies
    ensures var p := pool.unused.proxies[choice % Length(pool.unused)];
            var after := New(pool, choice).value.pool;
            && !In(after.unused, p)
            && Load(after, provider).Ok? && In(Load(after, provider).value.unused, p)
  {
  }

  /** Filtering a consistent pool with `f1 + f2` gives the same pool as
      filtering with `f1` and then with `f2`. */
  lemma FilterOnePassEqualsTwo(pool: Pool, f1: seq<Filters.Filter>, f2: seq<Filters.Filter>)
    requires Consistent(pool.all) && Consistent(pool.unused)
    ensures Filter(pool, f1 + f2) == Filter(Filter(pool, f1), f2)
  {
    Filters.OnePassEqualsTwo(pool.all.proxies, f1, f2);
    Filters.OnePassEqualsTwo(pool.unused.proxies, f1, f2);
  }

  /** Filtering a consistent pool twice with the same filters is
      filtering it once. */
  lemma FilterIdempotent(pool: Pool, fs: seq<Filters.Filter>)
    requires Consistent(pool.all) && Consistent(pool.unused)
    ensures Filter(Filter(pool, fs), fs) == Filter(pool, fs)
  {
    Filters.ApplyFiltersIdempotent(pool.all.proxies, fs);
    Filters.ApplyFiltersIdempotent(pool.unused.proxies, fs);
  }

  /** A provider that always returns `ps` and no error. */
  function Returns(ps: seq<Proxy>): (f: Provider)
    ensures forall c :: f(c).proxies == ps && f(c).err.None?
  {
    (c: Set) => ProviderResult(c, ps, None)
  }

  /** Admits SOCKS5 proxies only. */
  predicate SocksOnly(p: Proxies.Proxy) {
    p.url.scheme == "socks5"
  }

  lemma SocksOnlyVerdicts()
    ensures Filters.ApplyFilters([HttpOne], [SocksOnly]) == []
    ensures Filters.ApplyFilters([SocksOne], [SocksOnly]) == [SocksOne]
  {
    var fs: seq<Filters.Filter> := [SocksOnly];
    assert fs[1..] == [] && [SocksOne][1..] == [] && [HttpOne][1..] == [];
    assert Filters.Admits(fs, Proxies.CastProxy(SocksOne));
    assert !Filters.Admits(fs, Proxies.CastProxy(HttpOne));
  }

  /** `Filter` does not keep `Unused` within `All`: load an HTTP proxy,
      dispense it, load the same host as SOCKS5 (only `Unused` takes it,
      `All` already has the host), then keep only SOCKS5. */
  lemma FilterCanBreakInclusion()
    ensures var p0 := Load(Pool(NewSet(), NewSet()), Returns([HttpOne]));
            p0.Ok? && New(p0.value, 0).Ok? &&
            var p1 := Load(New(p0.value, 0).value.pool, Returns([SocksOne]));
            && p1.Ok? && UnusedWithinAll(p1.value)
            && !UnusedWithinAll(Filter(p1.value, [SocksOnly]))
  {
    var p0 := Load(Pool(NewSet(), NewSet()), Returns([HttpOne])).value;
    assert p0 == Pool(Set({"1.1.1.1:80"}, [HttpOne]), Set({"1.1.1.1:80"}, [HttpOne]));
    var d := New(p0, 0).value.pool;
    assert SameSpelling(HttpOne, HttpOne);
    assert d == Pool(Set({"1.1.1.1:80"}, [HttpOne]), Set({}, []));
    var p1 := Load(d, Returns([SocksOne])).value;
    assert p1 == Pool(Set({"1.1.1.1:80"}, [HttpOne]), Set({"1.1.1.1:80"}, [SocksOne]));
    var r := Filter(p1, [SocksOnly]);
    SocksOnlyVerdicts();
    assert "1.1.1.1:80" in r.unused.membership && r.all.membership == {};
  }
}
