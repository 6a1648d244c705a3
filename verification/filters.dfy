/** The filter pipeline (filters.go): admission predicates over a proxy and
    `ApplyFilters`, which keeps the proxies every filter admits. */
module Filters {
  import opened Results
  import opened Text
  import opened Proxies
  import Providers

  /** `Filter`: a pure admission test. */
  type Filter = Proxy -> bool

  /** The loop both country filters run: is `c` one of `cs`? */
  function Listed(cs: seq<string>, c: string): (r: bool)
    ensures r <==> c in cs
    decreases |cs|
  {
    if |cs| == 0 then false
    else if cs[0] == c then true
    else Listed(cs[1..], c)
  }

  /** `FilterAllowCountries`: admits exactly the listed countries, so an
      empty list admits nothing. */
  function FilterAllowCountries(countries: seq<string>): (f: Filter)
    ensures forall p :: f(p) <==> p.country in countries
    ensures countries == [] ==> forall p :: !f(p)
  {
    (p: Proxy) => Listed(countries, p.country)
  }

  /** `FilterDisallowCountries`: admits every country not listed, so an
      empty list admits everything. */
  function FilterDisallowCountries(countries: seq<string>): (f: Filter)
    ensures forall p :: f(p) <==> p.country !in countries
    ensures countries == [] ==> forall p :: f(p)
  {
    (p: Proxy) => !Listed(countries, p.country)
  }

  // ---------------------------------------------------------------------
  // FilterProxyTypes

  predicate ValidType(t: string) {
    t == "http" || t == "https" || t == "socks4" || t == "socks5"
  }

  /** Index of the first argument that is not a valid type once lower-cased. */
  function FirstInvalidType(ptypes: seq<string>): (r: Option<nat>)
    ensures r.None? <==> forall i :: 0 <= i < |ptypes| ==> ValidType(Lower(ptypes[i]))
    ensures r.Some? ==> r.value < |ptypes| && !ValidType(Lower(ptypes[r.value]))
    ensures r.Some? ==> forall i :: 0 <= i < r.value ==> ValidType(Lower(ptypes[i]))
    decreases |ptypes|
  {
    if |ptypes| == 0 then None
    else if !ValidType(Lower(ptypes[0])) then Some(0)
    else match FirstInvalidType(ptypes[1..])
      case None => None
      case Some(i) => Some(i + 1)
  }

  /** What `FilterProxyTypes` leaves behind: the argument slice, lower-cased
      in place up to where the loop stopped, and either the filter or the
      panic message. */
  datatype TypeFilter = TypeFilter(args: seq<string>, filter: Result<Filter, string>)

  /** `FilterProxyTypes`: lower-cases each argument in place and panics on
      the first one outside http, https, socks4 and socks5; otherwise the
      filter admits exactly the proxies whose URL scheme is listed. */
  function FilterProxyTypes(ptypes: seq<string>): (r: TypeFilter)
    ensures |r.args| == |ptypes|
    ensures r.filter.Ok? <==> forall i :: 0 <= i < |ptypes| ==> ValidType(Lower(ptypes[i]))
    ensures r.filter.Ok? ==> forall i :: 0 <= i < |ptypes| ==> r.args[i] == Lower(ptypes[i])
    ensures r.filter.Ok? ==> forall p :: r.filter.value(p) <==> exists i :: 0 <= i < |ptypes| && p.url.scheme == Lower(ptypes[i])
    ensures r.filter.Err? ==>
      var k := FirstInvalidType(ptypes).value;
      && r.filter.error == "prox: invalid proxy type specified for filter: " + Lower(ptypes[k])
      && (forall i :: 0 <= i <= k ==> r.args[i] == Lower(ptypes[i]))
      && (forall i :: k < i < |ptypes| ==> r.args[i] == ptypes[i])
  {
    match FirstInvalidType(ptypes)
    case Some(k) =>
      var args := seq(|ptypes|, i requires 0 <= i < |ptypes| => if i <= k then Lower(ptypes[i]) else ptypes[i]);
      TypeFilter(args, Err("prox: invalid proxy type specified for filter: " + Lower(ptypes[k])))
    case None =>
      var args := seq(|ptypes|, i requires 0 <= i < |ptypes| => Lower(ptypes[i]));
      TypeFilter(args, Ok((p: Proxy) => Listed(args, p.url.scheme)))
  }

  // ---------------------------------------------------------------------
  // ApplyFilters

  /** The inner loop of `ApplyFilters`: true until the first filter that
      rejects, which stops the loop. */
  function Admits(fs: seq<Filter>, p: Proxy): bool
    decreases |fs|
  {
    if |fs| == 0 then true
    else if fs[0](p) then Admits(fs[1..], p)
    else false
  }

  /** `r` is `ps` with some elements left out, the rest in order. */
  predicate Subsequence<T(==)>(r: seq<T>, ps: seq<T>)
    decreases |ps|
  {
    if |r| == 0 then true
    else if |ps| == 0 then false
    else if r[0] == ps[0] then Subsequence(r[1..], ps[1..])
    else Subsequence(r, ps[1..])
  }

  /** `ApplyFilters`. */
  function ApplyFilters(ps: seq<Providers.Proxy>, fs: seq<Filter>): (r: seq<Providers.Proxy>)
    ensures Subsequence(r, ps)
    ensures forall p :: p in r <==> p in ps && Admits(fs, CastProxy(p))
    decreases |ps|
  {
    if |ps| == 0 then []
    else if Admits(fs, CastProxy(ps[0])) then [ps[0]] + ApplyFilters(ps[1..], fs)
    else ApplyFilters(ps[1..], fs)
  }

  // ---------------------------------------------------------------------
  // Properties

  /** AND semantics: a proxy is admitted exactly when every filter admits it. */
  lemma {:induction false} AdmitsEvery(fs: seq<Filter>, p: Proxy)
    ensures Admits(fs, p) <==> forall i :: 0 <= i < |fs| ==> fs[i](p)
    decreases |fs|
  {
    if |fs| > 0 {
      AdmitsEvery(fs[1..], p);
      assert forall i :: 1 <= i < |fs| ==> fs[i] == fs[1..][i - 1];
    }
  }

  /** Short-circuit: once a filter rejects, the filters after it cannot
      change the verdict. */
  lemma {:induction false} RejectionIsFinal(fs: seq<Filter>, rest: seq<Filter>, p: Proxy)
    requires |fs| > 0 && !fs[|fs| - 1](p)
    ensures !Admits(fs + rest, p)
    decreases |fs|
  {
    if fs[0](p) {
      assert (fs + rest)[1..] == fs[1..] + rest;
      RejectionIsFinal(fs[1..], rest, p);
    }
  }

  /** An empty filter list keeps everything. */
  lemma {:induction false} NoFiltersKeepAll(ps: seq<Providers.Proxy>)
    ensures ApplyFilters(ps, []) == ps
    decreases |ps|
  {
    if |ps| > 0 {
      NoFiltersKeepAll(ps[1..]);
      assert ps == [ps[0]] + ps[1..];
    }
  }

  lemma {:induction false} AdmitsConcat(f1: seq<Filter>, f2: seq<Filter>, p: Proxy)
    ensures Admits(f1 + f2, p) <==> Admits(f1, p) && Admits(f2, p)
    decreases |f1|
  {
    if |f1| > 0 {
      assert (f1 + f2)[1..] == f1[1..] + f2;
      AdmitsConcat(f1[1..], f2, p);
    } else {
      assert f1 + f2 == f2;
    }
  }

  /** One pass with `f1 + f2` keeps the same proxies, in the same order, as
      a pass with `f1` followed by a pass with `f2`. */
  lemma {:induction false} OnePassEqualsTwo(ps: seq<Providers.Proxy>, f1: seq<Filter>, f2: seq<Filter>)
    ensures ApplyFilters(ps, f1 + f2) == ApplyFilters(ApplyFilters(ps, f1), f2)
    decreases |ps|
  {
    if |ps| > 0 {
      OnePassEqualsTwo(ps[1..], f1, f2);
      AdmitsConcat(f1, f2, CastProxy(ps[0]));
      if Admits(f1, CastProxy(ps[0])) {
        var once := ApplyFilters(ps, f1);
        assert once == [ps[0]] + ApplyFilters(ps[1..], f1);
        assert once[1..] == ApplyFilters(ps[1..], f1);
      }
    }
  }

  /** Filtering a list whose hosts are distinct leaves them distinct. */
  lemma {:induction false} FilterKeepsDistinct(ps: seq<Providers.Proxy>, fs: seq<Filter>)
    requires Providers.DistinctHosts(ps)
    ensures Providers.DistinctHosts(ApplyFilters(ps, fs))
    decreases |ps|
  {
    if |ps| > 0 {
      var rest := ApplyFilters(ps[1..], fs);
      assert Providers.DistinctHosts(ps[1..]) by {
        assert forall i :: 0 <= i < |ps[1..]| ==> ps[1..][i] == ps[i + 1];
      }
      FilterKeepsDistinct(ps[1..], fs);
      forall q | q in rest ensures q.url.host != ps[0].url.host {
        var k :| 0 <= k < |ps[1..]| && ps[1..][k] == q;
        assert ps[k + 1] == q;
      }
    }
  }

  /** Filter lists that admit the same proxies filter every list alike. */
  lemma {:induction false} SameVerdictSameResult(ps: seq<Providers.Proxy>, fs: seq<Filter>, gs: seq<Filter>)
    requires forall p :: Admits(fs, p) == Admits(gs, p)
    ensures ApplyFilters(ps, fs) == ApplyFilters(ps, gs)
    decreases |ps|
  {
    if |ps| > 0 {
      SameVerdictSameResult(ps[1..], fs, gs);
    }
  }

  /** Filtering twice with the same list is filtering once. */
  lemma {:induction false} ApplyFiltersIdempotent(ps: seq<Providers.Proxy>, fs: seq<Filter>)
    ensures ApplyFilters(ApplyFilters(ps, fs), fs) == ApplyFilters(ps, fs)
    decreases |ps|
  {
    if |ps| > 0 {
      ApplyFiltersIdempotent(ps[1..], fs);
      if Admits(fs, CastProxy(ps[0])) {
        var once := ApplyFilters(ps, fs);
        assert once == [ps[0]] + ApplyFilters(ps[1..], fs);
        assert once[1..] == ApplyFilters(ps[1..], fs);
      }
    }
  }

  /** Reordering the filters (`gs[j]` is `fs[perm[j]]`, every filter of `fs`
      used) does not change the result. */
  lemma FilterOrderIrrelevant(ps: seq<Providers.Proxy>, fs: seq<Filter>, gs: seq<Filter>, perm: seq<nat>)
    requires |perm| == |gs|
    requires forall j :: 0 <= j < |perm| ==> perm[j] < |fs|
    requires forall j :: 0 <= j < |gs| ==> gs[j] == fs[perm[j]]
    requires forall i :: 0 <= i < |fs| ==> i in perm
    ensures ApplyFilters(ps, fs) == ApplyFilters(ps, gs)
  {
    forall p ensures Admits(fs, p) == Admits(gs, p) {
      AdmitsEvery(fs, p);
      AdmitsEvery(gs, p);
      if Admits(gs, p) {
        forall i | 0 <= i < |fs| ensures fs[i](p) {
          assert i in perm;
          var j :| 0 <= j < |perm| && perm[j] == i;
          assert gs[j](p);
        }
      }
    }
    SameVerdictSameResult(ps, fs, gs);
  }

  /** The filter pairs the pool tests compare: types then countries in one
      pass, or in two passes. */
  lemma TypeThenCountryEquivalence(ps: seq<Providers.Proxy>)
    ensures FilterProxyTypes(["HTTP"]).filter.Ok?
    ensures var types := FilterProxyTypes(["HTTP"]).filter.value;
            var countries := FilterDisallowCountries(["BR"]);
            ApplyFilters(ps, [types, countries]) == ApplyFilters(ApplyFilters(ps, [types]), [countries])
  {
    assert Lower("HTTP") == "http";
    var types := FilterProxyTypes(["HTTP"]).filter.value;
    var countries := FilterDisallowCountries(["BR"]);
    assert [types, countries] == [types] + [countries];
    OnePassEqualsTwo(ps, [types], [countries]);
  }
}
