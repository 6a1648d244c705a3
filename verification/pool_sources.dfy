/** `Pool` (pool.go): the source-driven pool over country-bucketed sets.
    Each fetch queries every source with its options and adds the proxies
    that have not been handed out before; `New`, `Random` and their
    by-country variants hand one out and mark it used. */
module SourcePool {
  import opened Results
  import opened Proxies
  import CountrySet
  import ProxyScrape

  /** `sources.Source`: a query from options to proxies, or an error
      (its text). The network behind it is not part of this model. */
  type Source = ProxyScrape.Options -> Result<seq<ProxyScrape.Proxy>, string>

  /** `SourceOption`. */
  datatype SourceOption = SourceOption(source: Source, options: ProxyScrape.Options)

  /** `castProxy`, which turns a source's proxy into a pool proxy; its
      definition is not part of this model, so it is a parameter. */
  type Cast = ProxyScrape.Proxy -> Proxy

  /** Where `cacheAll`/`cacheUnused` point. `Clone` shares the map object,
      so after `Fetch` the cache reads whatever `all` and `unused` hold
      (`Live`); before it, they are the empty sets of `NewPool`. */
  datatype Cache = Detached(all: CountrySet.Set, unused: CountrySet.Set) | Live

  /** `Pool`. */
  datatype Pool = Pool(sourceOptions: seq<SourceOption>, all: CountrySet.Set, unused: CountrySet.Set, cache: Cache)

  /** What `Fetch` leaves: the pool, and the error it returned, if any. */
  datatype Fetched = Fetched(pool: Pool, err: Option<string>)

  /** What the dispensing methods return. */
  datatype Drawn = Drawn(pool: Pool, proxy: Proxy) | Refused(pool: Pool, err: CountrySet.SetError)

  /** `q` was handed out: loaded, but no longer unused. */
  predicate Used(all: CountrySet.Set, unused: CountrySet.Set, q: Proxy) {
    CountrySet.In(all, q) && !CountrySet.In(unused, q)
  }

  /** The pool's invariant: both sets file proxies under their own
      country, and every unused proxy is loaded. */
  ghost predicate Inv(p: Pool) {
    && CountrySet.Valid(p.all) && CountrySet.Valid(p.unused)
    && forall q :: CountrySet.In(p.unused, q) ==> CountrySet.In(p.all, q)
  }

  /** `NewPool`: the source options and four empty sets. */
  function NewPool(sourceOptions: seq<SourceOption>): (r: Pool)
    ensures Inv(r) && r.sourceOptions == sourceOptions
    ensures CountrySet.Members(r.all) == {} && CountrySet.Members(r.unused) == {}
    ensures r.cache == Detached(CountrySet.NewSet(), CountrySet.NewSet())
  {
    Pool(sourceOptions, CountrySet.NewSet(), CountrySet.NewSet(), Detached(CountrySet.NewSet(), CountrySet.NewSet()))
  }

  // ---------------------------------------------------------------------
  // Fetching

  /** The inner loop of `Fetch` over one source's proxies: a proxy is
      added to both sets unless it was already handed out. Whether a proxy
      was handed out is the same before and after. */
  function AddProxies(all: CountrySet.Set, unused: CountrySet.Set, qs: seq<Proxy>): (r: (CountrySet.Set, CountrySet.Set))
    ensures forall x :: CountrySet.In(r.0, x) <==> CountrySet.In(all, x) || x in qs
    ensures forall x :: CountrySet.In(r.1, x) <==> CountrySet.In(unused, x) || (x in qs && !Used(all, unused, x))
    ensures forall x :: Used(r.0, r.1, x) <==> Used(all, unused, x)
    ensures CountrySet.Valid(all) ==> CountrySet.Valid(r.0)
    ensures CountrySet.Valid(unused) ==> CountrySet.Valid(r.1)
    decreases |qs|
  {
    if |qs| == 0 then (all, unused)
    else
      var q := qs[0];
      assert qs == [q] + qs[1..];
      if !(CountrySet.In(all, q) && !CountrySet.In(unused, q)) then
        AddProxies(CountrySet.Add(all, q), CountrySet.Add(unused, q), qs[1..])
      else AddProxies(all, unused, qs[1..])
  }

  /** The pool proxies one source delivered. */
  function Casts(ps: seq<ProxyScrape.Proxy>, cast: Cast): (r: seq<Proxy>)
    ensures |r| == |ps| && forall i :: 0 <= i < |ps| ==> r[i] == cast(ps[i])
  {
    seq(|ps|, i requires 0 <= i < |ps| => cast(ps[i]))
  }

  /** Group `k` is the first whose query fails. */
  predicate FirstFailing(groups: seq<SourceOption>, k: int) {
    && 0 <= k < |groups| && groups[k].source(groups[k].options).Err?
    && forall i :: 0 <= i < k ==> groups[i].source(groups[i].options).Ok?
  }

  /** `msg` is the error of the first failing group, as `Fetch` wraps it. */
  ghost predicate FailsWith(groups: seq<SourceOption>, msg: string) {
    exists k :: FirstFailing(groups, k) && msg == "could not fetch proxies: " + groups[k].source(groups[k].options).error
  }

  /** The proxies the groups delivered before the first failing query. */
  function Delivered(groups: seq<SourceOption>, cast: Cast): set<Proxy>
    decreases |groups|
  {
    if |groups| == 0 then {}
    else match groups[0].source(groups[0].options)
      case Err(_) => {}
      case Ok(ps) => (set q | q in Casts(ps, cast)) + Delivered(groups[1..], cast)
  }

  /** The outer loop of `Fetch`: queries the groups in order and stops at
      the first error, keeping what the earlier groups added. */
  function FetchGroups(groups: seq<SourceOption>, all: CountrySet.Set, unused: CountrySet.Set, cast: Cast)
    : (r: (CountrySet.Set, CountrySet.Set, Option<string>))
    ensures r.2.None? <==> forall i :: 0 <= i < |groups| ==> groups[i].source(groups[i].options).Ok?
    ensures r.2.Some? ==> FailsWith(groups, r.2.value)
    ensures forall x :: CountrySet.In(r.0, x) <==> CountrySet.In(all, x) || x in Delivered(groups, cast)
    ensures forall x :: CountrySet.In(r.1, x) <==> CountrySet.In(unused, x) || (x in Delivered(groups, cast) && !Used(all, unused, x))
    ensures forall x :: Used(r.0, r.1, x) <==> Used(all, unused, x)
    ensures CountrySet.Valid(all) ==> CountrySet.Valid(r.0)
    ensures CountrySet.Valid(unused) ==> CountrySet.Valid(r.1)
    decreases |groups|
  {
    if |groups| == 0 then (all, unused, None)
    else match groups[0].source(groups[0].options)
      case Err(e) =>
        assert FirstFailing(groups, 0);
        assert FailsWith(groups, "could not fetch proxies: " + e);
        (all, unused, Some("could not fetch proxies: " + e))
      case Ok(ps) =>
        var added := AddProxies(all, unused, Casts(ps, cast));
        var r := FetchGroups(groups[1..], added.0, added.1, cast);
        assert forall i :: 1 <= i < |groups| ==> groups[i] == groups[1..][i - 1];
        assert r.2.Some? ==> FailsWith(groups, r.2.value) by {
          if r.2.Some? {
            var k :| FirstFailing(groups[1..], k)
                     && r.2.value == "could not fetch proxies: " + groups[1..][k].source(groups[1..][k].options).error;
            assert FirstFailing(groups, k + 1);
          }
        }
        r
  }

  /** `Fetch`: points the cache at clones of the sets (which share their
      maps, so the cache follows every later change), then runs the
      groups. A failing query ends the fetch with its error; what the
      earlier groups added stays. */
  function Fetch(p: Pool, cast: Cast): (r: Fetched)
    ensures r.pool.sourceOptions == p.sourceOptions && r.pool.cache == Live
    ensures r.err.None? <==> forall i :: 0 <= i < |p.sourceOptions| ==> p.sourceOptions[i].source(p.sourceOptions[i].options).Ok?
    ensures r.err.Some? ==> FailsWith(p.sourceOptions, r.err.value)
    ensures forall x :: CountrySet.In(r.pool.all, x) <==> CountrySet.In(p.all, x) || x in Delivered(p.sourceOptions, cast)
    ensures forall x :: CountrySet.In(r.pool.unused, x) <==>
                          CountrySet.In(p.unused, x) || (x in Delivered(p.sourceOptions, cast) && !Used(p.all, p.unused, x))
    ensures Inv(p) ==> Inv(r.pool)
  {
    var loaded := FetchGroups(p.sourceOptions, p.all, p.unused, cast);
    Fetched(Pool(p.sourceOptions, loaded.0, loaded.1, Live), loaded.2)
  }

  /** A proxy handed out before a fetch is still handed out after it,
      whatever the sources return: the fetch never offers it again. */
  lemma FetchKeepsUsed(p: Pool, cast: Cast, q: Proxy)
    requires Used(p.all, p.unused, q)
    ensures Used(Fetch(p, cast).pool.all, Fetch(p, cast).pool.unused, q)
  {
    var loaded := FetchGroups(p.sourceOptions, p.all, p.unused, cast);
    assert Used(loaded.0, loaded.1, q);
  }

  /** With sources that answer the same way each time, a second fetch
      changes neither set. */
  lemma FetchTwiceIsOnce(p: Pool, cast: Cast)
    ensures var once := Fetch(p, cast).pool;
            var twice := Fetch(once, cast).pool;
            && (forall x :: CountrySet.In(twice.all, x) <==> CountrySet.In(once.all, x))
            && (forall x :: CountrySet.In(twice.unused, x) <==> CountrySet.In(once.unused, x))
  {
    var once := Fetch(p, cast).pool;
    var d := Delivered(p.sourceOptions, cast);
    forall x | x in d && !Used(once.all, once.unused, x) ensures CountrySet.In(once.unused, x) {
      assert CountrySet.In(once.all, x);
    }
  }

  // ---------------------------------------------------------------------
  // Listing and dispensing

  /** `ArrayAll`: every loaded proxy, once each. */
  method ArrayAll(p: Pool) returns (arr: seq<Proxy>)
    ensures forall q :: q in arr <==> q in CountrySet.Members(p.all)
    ensures Inv(p) ==> CountrySet.Distinct(arr)
  {
    arr := CountrySet.Array(p.all);
  }

  /** `ArrayUnused`: every unused proxy, once each. */
  method ArrayUnused(p: Pool) returns (arr: seq<Proxy>)
    ensures forall q :: q in arr <==> q in CountrySet.Members(p.unused)
    ensures Inv(p) ==> CountrySet.Distinct(arr)
  {
    arr := CountrySet.Array(p.unused);
  }

  /** The pool after handing out `q`: `q` leaves `unused`, nothing else
      changes. */
  function HandOut(p: Pool, q: Proxy): (r: Pool)
    ensures r.all == p.all && r.sourceOptions == p.sourceOptions && r.cache == p.cache
    ensures !CountrySet.In(r.unused, q) && forall x :: x != q ==> (CountrySet.In(r.unused, x) <==> CountrySet.In(p.unused, x))
    ensures Inv(p) ==> Inv(r)
    ensures Inv(p) && CountrySet.In(p.all, q) ==> Used(r.all, r.unused, q)
  {
    p.(unused := CountrySet.Remove(p.unused, q))
  }

  /** `Random`: any loaded proxy, used or not; an empty pool is
      `ErrNoneAvaliable` and no change. */
  method Random(p: Pool) returns (r: Drawn)
    ensures r.Refused? <==> CountrySet.Members(p.all) == {}
    ensures r.Refused? ==> r == Refused(p, CountrySet.ErrNoneAvailable)
    ensures r.Drawn? ==> r.proxy in CountrySet.Members(p.all) && r.pool == HandOut(p, r.proxy)
  {
    var got := CountrySet.GetRandom(p.all);
    if got.Err? {
      return Refused(p, got.error);
    }
    return Drawn(HandOut(p, got.value), got.value);
  }

  /** `New`: an unused proxy, which is then used; no unused proxy is
      `ErrNoneAvaliable` and no change. */
  method New(p: Pool) returns (r: Drawn)
    ensures r.Refused? <==> CountrySet.Members(p.unused) == {}
    ensures r.Refused? ==> r == Refused(p, CountrySet.ErrNoneAvailable)
    ensures r.Drawn? ==> r.proxy in CountrySet.Members(p.unused) && r.pool == HandOut(p, r.proxy)
    ensures r.Drawn? && Inv(p) ==> Used(r.pool.all, r.pool.unused, r.proxy)
  {
    var got := CountrySet.GetRandom(p.unused);
    if got.Err? {
      return Refused(p, got.error);
    }
    assert Inv(p) ==> CountrySet.In(p.unused, got.value) by {
      if Inv(p) { CountrySet.InIsMembership(p.unused, got.value); }
    }
    return Drawn(HandOut(p, got.value), got.value);
  }

  /** `RandomFromCountry`: any loaded proxy of one of `countries`. */
  method RandomFromCountry(p: Pool, countries: seq<string>) returns (r: Drawn)
    ensures r.Refused? <==> CountrySet.Gather(p.all, CountrySet.Countries(countries)) == {}
    ensures r.Refused? ==> r == Refused(p, CountrySet.ErrNoneAvailable)
    ensures r.Drawn? ==> r.proxy in CountrySet.Gather(p.all, CountrySet.Countries(countries)) && r.pool == HandOut(p, r.proxy)
    ensures r.Drawn? && Inv(p) ==> r.proxy.country in countries
  {
    var got := CountrySet.GetRandomFromCountries(p.all, countries);
    if got.Err? {
      return Refused(p, got.error);
    }
    return Drawn(HandOut(p, got.value), got.value);
  }

  /** `NewFromCountry`: an unused proxy of one of `countries`. */
  method NewFromCountry(p: Pool, countries: seq<string>) returns (r: Drawn)
    ensures r.Refused? <==> CountrySet.Gather(p.unused, CountrySet.Countries(countries)) == {}
    ensures r.Refused? ==> r == Refused(p, CountrySet.ErrNoneAvailable)
    ensures r.Drawn? ==> r.proxy in CountrySet.Gather(p.unused, CountrySet.Countries(countries)) && r.pool == HandOut(p, r.proxy)
    ensures r.Drawn? && Inv(p) ==> r.proxy.country in countries && Used(r.pool.all, r.pool.unused, r.proxy)
  {
    var got := CountrySet.GetRandomFromCountries(p.unused, countries);
    if got.Err? {
      return Refused(p, got.error);
    }
    return Drawn(HandOut(p, got.value), got.value);
  }

  /** A proxy handed out from a loaded pool is not offered again by the
      next fetch, even when a source returns it. */
  lemma HandedOutNotReoffered(p: Pool, q: Proxy, cast: Cast)
    requires Inv(p) && CountrySet.In(p.all, q)
    requires q in Delivered(p.sourceOptions, cast)
    ensures var after := Fetch(HandOut(p, q), cast).pool;
            CountrySet.In(after.all, q) && !CountrySet.In(after.unused, q)
  {
    FetchKeepsUsed(HandOut(p, q), cast, q);
  }
}
