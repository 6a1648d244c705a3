/** The country-bucketed proxy set of package `prox` (set.go): a map from
    country code to the set of proxies filed under it. Random selection is a
    nondeterministic choice, so the selecting operations are methods. */
module CountrySet {
  import opened Results
  import opened Proxies

  /** `ErrNoneAvaliable`. */
  datatype SetError = ErrNoneAvailable

  /** `Set`: the `proxies` map. A bucket that is present but empty is a
      different state from a missing bucket, as in Go. */
  datatype Set = Set(proxies: map<string, set<Proxy>>)

  /** Every proxy is filed under its own country; `Add` files it so. */
  predicate Valid(s: Set) {
    forall c :: c in s.proxies ==> forall p :: p in s.proxies[c] ==> p.country == c
  }

  /** The proxies filed under the countries `cs`. */
  function Gather(s: Set, cs: set<string>): set<Proxy> {
    set c, p | c in cs && c in s.proxies && p in s.proxies[c] :: p
  }

  /** Every stored proxy, across all buckets. */
  function Members(s: Set): set<Proxy> {
    Gather(s, s.proxies.Keys)
  }

  predicate Distinct(xs: seq<Proxy>) {
    forall i, j :: 0 <= i < j < |xs| ==> xs[i] != xs[j]
  }

  /** The proxies of a single country: its bucket, if there is one. */
  lemma GatherOne(s: Set, c: string)
    ensures Gather(s, {c}) == if c in s.proxies then s.proxies[c] else {}
  {
    if c in s.proxies {
      forall p | p in s.proxies[c] ensures p in Gather(s, {c}) {
        assert c in {c} && c in s.proxies && p in s.proxies[c];
      }
    }
  }

  lemma GatherUnion(s: Set, a: set<string>, b: set<string>)
    ensures Gather(s, a + b) == Gather(s, a) + Gather(s, b)
  {
    forall p | p in Gather(s, a + b) ensures p in Gather(s, a) + Gather(s, b) {
      var c :| c in a + b && c in s.proxies && p in s.proxies[c];
      if c in a {
        assert c in a && c in s.proxies && p in s.proxies[c];
      } else {
        assert c in b && c in s.proxies && p in s.proxies[c];
      }
    }
    forall p | p in Gather(s, a) + Gather(s, b) ensures p in Gather(s, a + b) {
      if p in Gather(s, a) {
        var c :| c in a && c in s.proxies && p in s.proxies[c];
        assert c in a + b;
      } else {
        var c :| c in b && c in s.proxies && p in s.proxies[c];
        assert c in a + b;
      }
    }
  }

  /** Replacing the bucket of `c` changes only what is gathered from `c`. */
  lemma GatherUpdate(s: Set, c: string, b: set<Proxy>, cs: set<string>)
    requires c !in cs
    ensures Gather(Set(s.proxies[c := b]), cs) == Gather(s, cs)
  {
    var s' := Set(s.proxies[c := b]);
    forall p | p in Gather(s', cs) ensures p in Gather(s, cs) {
      var d :| d in cs && d in s'.proxies && p in s'.proxies[d];
      assert d in cs && d in s.proxies && p in s.proxies[d];
    }
    forall p | p in Gather(s, cs) ensures p in Gather(s', cs) {
      var d :| d in cs && d in s.proxies && p in s.proxies[d];
      assert d in cs && d in s'.proxies && p in s'.proxies[d];
    }
  }

  /** Nothing is gathered exactly when every requested bucket is missing or empty. */
  lemma GatherEmpty(s: Set, cs: set<string>)
    ensures Gather(s, cs) == {} <==> forall c :: c in cs && c in s.proxies ==> s.proxies[c] == {}
  {
    if exists c :: c in cs && c in s.proxies && s.proxies[c] != {} {
      var c :| c in cs && c in s.proxies && s.proxies[c] != {};
      var p :| p in s.proxies[c];
      assert p in Gather(s, cs);
    }
  }

  /** Replacing the bucket of `c`: the members are those of the other
      buckets plus the new bucket. */
  lemma MembersUpdate(s: Set, c: string, b: set<Proxy>)
    ensures Members(Set(s.proxies[c := b])) == Gather(s, s.proxies.Keys - {c}) + b
    ensures Members(s) == Gather(s, s.proxies.Keys - {c}) + (if c in s.proxies then s.proxies[c] else {})
  {
    var s' := Set(s.proxies[c := b]);
    var others := s.proxies.Keys - {c};
    assert s'.proxies.Keys == others + {c};
    GatherUnion(s', others, {c});
    GatherUpdate(s, c, b, others);
    GatherOne(s', c);
    if c in s.proxies {
      assert s.proxies.Keys == others + {c};
      GatherUnion(s, others, {c});
      GatherOne(s, c);
    } else {
      assert s.proxies.Keys == others;
    }
  }

  // ---------------------------------------------------------------------
  // Operations on the map

  /** `NewSet`. */
  function NewSet(): (r: Set)
    ensures Valid(r) && Members(r) == {} && r.proxies == map[]
  {
    Set(map[])
  }

  /** `In`: looks only in the bucket of `p`'s own country. */
  predicate In(s: Set, p: Proxy) {
    p.country in s.proxies && p in s.proxies[p.country]
  }

  /** `Add`: creates the bucket of `p.Country` if it is missing and files
      `p` there. */
  function Add(s: Set, p: Proxy): (r: Set)
    ensures In(r, p)
    ensures Members(r) == Members(s) + {p}
    ensures r.proxies.Keys == s.proxies.Keys + {p.country}
    ensures forall c :: c in s.proxies && c != p.country ==> r.proxies[c] == s.proxies[c]
    ensures forall q :: In(r, q) <==> In(s, q) || q == p
    ensures Valid(s) ==> Valid(r)
  {
    var bucket := if p.country in s.proxies then s.proxies[p.country] else {};
    MembersUpdate(s, p.country, bucket + {p});
    Set(s.proxies[p.country := bucket + {p}])
  }

  /** `Remove`: deletes `p` from the bucket of its country, if that bucket
      exists. The bucket stays even when it becomes empty. */
  function Remove(s: Set, p: Proxy): (r: Set)
    ensures !In(r, p)
    ensures forall q :: q != p ==> (In(r, q) <==> In(s, q))
    ensures !In(s, p) ==> r == s
    ensures r.proxies.Keys == s.proxies.Keys
    ensures forall c :: c in s.proxies && c != p.country ==> r.proxies[c] == s.proxies[c]
    ensures Valid(s) ==> Valid(r) && Members(r) == Members(s) - {p}
  {
    if p.country !in s.proxies then s
    else
      var c := p.country;
      MembersUpdate(s, c, s.proxies[c] - {p});
      assert Valid(s) ==> p !in Gather(s, s.proxies.Keys - {c}) by {
        if Valid(s) { OthersElsewhere(s, c); }
      }
      var r := Set(s.proxies[c := s.proxies[c] - {p}]);
      assert !In(s, p) ==> r == s by {
        if !In(s, p) {
          assert s.proxies[c] - {p} == s.proxies[c];
          assert r.proxies == s.proxies;
        }
      }
      assert Valid(s) ==> Valid(r) by {
        if Valid(s) {
          forall d, q | d in r.proxies && q in r.proxies[d] ensures q.country == d {
            assert q in s.proxies[d];
          }
        }
      }
      r
  }

  /** In a valid set, the other buckets hold no proxy of country `c`. */
  lemma OthersElsewhere(s: Set, c: string)
    requires Valid(s)
    ensures forall p :: p in Gather(s, s.proxies.Keys - {c}) ==> p.country != c
  {
    forall p | p in Gather(s, s.proxies.Keys - {c}) ensures p.country != c {
      var d :| d in s.proxies.Keys - {c} && p in s.proxies[d];
    }
  }

  /** In a valid set, `In` is membership among all stored proxies. */
  lemma InIsMembership(s: Set, p: Proxy)
    requires Valid(s)
    ensures In(s, p) <==> p in Members(s)
  {
    if p in Members(s) {
      var c :| c in s.proxies && p in s.proxies[c];
      assert p.country == c;
    }
  }

  /** Adding a proxy twice is adding it once. */
  lemma AddIdempotent(s: Set, p: Proxy)
    ensures Add(Add(s, p), p) == Add(s, p)
  {
    var once := Add(s, p);
    assert once.proxies[p.country] + {p} == once.proxies[p.country];
    assert once.proxies[p.country := once.proxies[p.country]] == once.proxies;
  }

  /** Removing the only proxy of a country leaves an empty bucket behind. */
  lemma RemoveLeavesEmptyBucket(p: Proxy)
    ensures Remove(Add(NewSet(), p), p).proxies == map[p.country := {}]
    ensures Members(Remove(Add(NewSet(), p), p)) == {}
  {
    var empty: set<Proxy> := {};
    assert empty + {p} == {p};
    assert Add(NewSet(), p).proxies == map[p.country := {p}];
    GatherEmpty(Remove(Add(NewSet(), p), p), {p.country});
  }

  // ---------------------------------------------------------------------
  // Materialising and selecting

  /** Lists a set in some order, as a Go `range` over a map does. */
  method Enumerate(b: set<Proxy>) returns (xs: seq<Proxy>)
    ensures forall p :: p in xs <==> p in b
    ensures Distinct(xs)
    ensures |xs| == |b|
  {
    xs := [];
    var todo := b;
    while todo != {}
      invariant todo <= b
      invariant forall p :: p in xs <==> p in b - todo
      invariant Distinct(xs)
      invariant |xs| + |todo| == |b|
      decreases |todo|
    {
      var p :| p in todo;
      xs := xs + [p];
      todo := todo - {p};
    }
  }

  /** Joining two repeat-free lists with nothing in common gives a
      repeat-free list. */
  lemma DistinctConcat(a: seq<Proxy>, b: seq<Proxy>)
    requires Distinct(a) && Distinct(b) && forall p :: p in a ==> p !in b
    ensures Distinct(a + b)
  {
    forall i, j | 0 <= i < j < |a + b| ensures (a + b)[i] != (a + b)[j] {
      if i < |a| && j >= |a| {
        assert (a + b)[i] in a && (a + b)[j] == b[j - |a|];
      }
    }
  }

  /** One turn of the loop of `Array`: appending the bucket of a country
      not yet listed extends what is listed by that country. */
  lemma ArrayStep(s: Set, arr: seq<Proxy>, done: set<string>, c: string, xs: seq<Proxy>)
    requires c in s.proxies && c !in done
    requires forall p :: p in xs <==> p in s.proxies[c]
    requires Distinct(xs)
    requires forall p :: p in arr <==> p in Gather(s, done)
    requires Valid(s) ==> Distinct(arr) && forall p :: p in arr ==> p.country in done
    ensures forall p :: p in arr + xs <==> p in Gather(s, done + {c})
    ensures Valid(s) ==> Distinct(arr + xs) && forall p :: p in arr + xs ==> p.country in done + {c}
  {
    GatherUnion(s, done, {c});
    GatherOne(s, c);
    if Valid(s) {
      assert forall p :: p in xs ==> p.country == c;
      DistinctConcat(arr, xs);
    }
  }

  /** `Array`: every stored proxy, each once, in no particular order. */
  method Array(s: Set) returns (arr: seq<Proxy>)
    ensures forall p :: p in arr <==> p in Members(s)
    ensures Valid(s) ==> Distinct(arr)
  {
    arr := [];
    var todo := s.proxies.Keys;
    ghost var done: set<string> := {};
    while todo != {}
      invariant todo + done == s.proxies.Keys && todo !! done
      invariant forall p :: p in arr <==> p in Gather(s, done)
      invariant Valid(s) ==> Distinct(arr)
      invariant Valid(s) ==> forall p :: p in arr ==> p.country in done
      decreases |todo|
    {
      var c :| c in todo;
      var xs := Enumerate(s.proxies[c]);
      ArrayStep(s, arr, done, c, xs);
      arr := arr + xs;
      todo := todo - {c};
      done := done + {c};
    }
  }

  /** `GetBiasedRandom`: the first proxy of the first non-empty bucket met
      in map order. */
  method GetBiasedRandom(s: Set) returns (r: Result<Proxy, SetError>)
    ensures r.Err? <==> Members(s) == {}
    ensures r.Ok? ==> r.value in Members(s)
  {
    GatherEmpty(s, s.proxies.Keys);
    var todo := s.proxies.Keys;
    while todo != {}
      invariant todo <= s.proxies.Keys
      invariant forall c :: c in s.proxies && c !in todo ==> s.proxies[c] == {}
      decreases |todo|
    {
      var c :| c in todo;
      if s.proxies[c] != {} {
        var p :| p in s.proxies[c];
        assert c in s.proxies.Keys && c in s.proxies && p in s.proxies[c];
        return Ok(p);
      }
      todo := todo - {c};
    }
    return Err(ErrNoneAvailable);
  }

  /** `GetRandom`: a uniformly chosen element of `Array`. */
  method GetRandom(s: Set) returns (r: Result<Proxy, SetError>)
    ensures r.Err? <==> Members(s) == {}
    ensures r.Ok? ==> r.value in Members(s)
  {
    var arr := Array(s);
    if |arr| == 0 {
      return Err(ErrNoneAvailable);
    }
    var i :| 0 <= i < |arr|;
    assert arr[i] in Members(s);
    return Ok(arr[i]);
  }

  /** What `GetRandomFromCountry` returns: a proxy, or the zero `Proxy{}`
      (here `None`), next to an error. */
  datatype CountryReply = CountryReply(proxy: Option<Proxy>, err: Option<SetError>)

  /** `GetRandomFromCountry`, as written: it finds a proxy whenever the
      bucket is non-empty, yet returns `ErrNoneAvaliable` in every case. */
  method GetRandomFromCountry(s: Set, country: string) returns (r: CountryReply)
    ensures r.err == Some(ErrNoneAvailable)
    ensures r.proxy.Some? <==> country in s.proxies && s.proxies[country] != {}
    ensures r.proxy.Some? ==> r.proxy.value in s.proxies[country]
  {
    if country !in s.proxies {
      return CountryReply(None, Some(ErrNoneAvailable));
    }
    if s.proxies[country] == {} {
      return CountryReply(None, Some(ErrNoneAvailable));
    }
    var p :| p in s.proxies[country];
    return CountryReply(Some(p), Some(ErrNoneAvailable));
  }

  /** `GetRandomFromCountry` as its comment describes it: a proxy of the
      country and no error, or `ErrNoneAvaliable` when there is none. */
  method GetRandomFromCountryFixed(s: Set, country: string) returns (r: Result<Proxy, SetError>)
    ensures r.Err? <==> Gather(s, {country}) == {}
    ensures r.Ok? ==> r.value in Gather(s, {country})
  {
    GatherOne(s, country);
    var reply := GetRandomFromCountry(s, country);
    if reply.proxy.Some? {
      return Ok(reply.proxy.value);
    }
    return Err(ErrNoneAvailable);
  }

  /** The countries named in a list. */
  function Countries(cs: seq<string>): (r: set<string>)
    ensures forall c :: c in r <==> c in cs
  {
    if |cs| == 0 then {} else Countries(cs[..|cs| - 1]) + {cs[|cs| - 1]}
  }

  /** `GetRandomFromCountries`: flattens the buckets of the requested
      countries (missing and empty ones skipped) and picks one entry. */
  method GetRandomFromCountries(s: Set, countries: seq<string>) returns (r: Result<Proxy, SetError>)
    ensures r.Err? <==> Gather(s, Countries(countries)) == {}
    ensures r.Ok? ==> r.value in Gather(s, Countries(countries))
  {
    var flat: seq<Proxy> := [];
    var i := 0;
    while i < |countries|
      invariant 0 <= i <= |countries|
      invariant forall p :: p in flat <==> p in Gather(s, Countries(countries[..i]))
      decreases |countries| - i
    {
      var country := countries[i];
      assert countries[..i + 1] == countries[..i] + [country];
      assert Countries(countries[..i + 1]) == Countries(countries[..i]) + {country};
      GatherUnion(s, Countries(countries[..i]), {country});
      GatherOne(s, country);
      if country in s.proxies && s.proxies[country] != {} {
        var xs := Enumerate(s.proxies[country]);
        flat := flat + xs;
      }
      i := i + 1;
    }
    assert countries[..i] == countries;
    if |flat| == 0 {
      assert flat == [];
      return Err(ErrNoneAvailable);
    }
    var k :| 0 <= k < |flat|;
    assert flat[k] in Gather(s, Countries(countries));
    return Ok(flat[k]);
  }

  // ---------------------------------------------------------------------
  // Clone

  /** Go `*Set` values and the map objects they point to: `Clone` makes a
      new `Set` whose `proxies` field is the original's map, so the heap of
      map objects is part of the model here. */
  datatype Store = Store(maps: map<nat, Set>)

  /** A `*Set`, identified by the map object its `proxies` field refers to. */
  datatype Handle = Handle(mapRef: nat)

  /** The contents a handle reads in a store. */
  function View(st: Store, h: Handle): Set {
    if h.mapRef in st.maps then st.maps[h.mapRef] else NewSet()
  }

  /** `Add` called through a handle: it writes the shared map object. */
  function AddVia(st: Store, h: Handle, p: Proxy): Store {
    Store(st.maps[h.mapRef := Add(View(st, h), p)])
  }

  /** `Remove` called through a handle. */
  function RemoveVia(st: Store, h: Handle, p: Proxy): Store {
    Store(st.maps[h.mapRef := Remove(View(st, h), p)])
  }

  /** `Clone`: the copy reads the original's map in every store. */
  function Clone(h: Handle): (r: Handle)
    ensures forall st :: View(st, r) == View(st, h)
  {
    Handle(h.mapRef)
  }

  /** Writes through either the original or the clone are seen by both. */
  lemma CloneSharesWrites(st: Store, h: Handle, p: Proxy)
    ensures View(AddVia(st, Clone(h), p), h) == Add(View(st, h), p)
    ensures View(RemoveVia(st, h, p), Clone(h)) == Remove(View(st, h), p)
  {
  }

  // ---------------------------------------------------------------------
  // Scenario: a French and a German proxy

  const France := Proxy(Urls.Url("http", "1.1.1.1:80"), "", "FR")
  const Germany := Proxy(Urls.Url("socks5", "2.2.2.2:1080"), "", "DE")

  /** With one French and one German proxy, asking for France always yields
      the French proxy and asking for Italy fails. */
  method CountryScenario() returns (fr: Result<Proxy, SetError>, it: Result<Proxy, SetError>)
    ensures fr == Ok(France)
    ensures it == Err(ErrNoneAvailable)
  {
    var empty: set<Proxy> := {};
    assert empty + {France} == {France} && empty + {Germany} == {Germany};
    var s1 := Add(NewSet(), France);
    assert s1.proxies == map["FR" := {France}];
    var s := Add(s1, Germany);
    assert s.proxies == map["FR" := {France}, "DE" := {Germany}];
    assert Countries(["FR"]) == {"FR"};
    GatherOne(s, "FR");
    assert Countries(["IT"]) == {"IT"};
    GatherOne(s, "IT");
    assert "IT" !in s.proxies;
    fr := GetRandomFromCountries(s, ["FR"]);
    it := GetRandomFromCountries(s, ["IT"]);
    assert Gather(s, Countries(["IT"])) == {};
    assert it.error.ErrNoneAvailable?;
  }
}
