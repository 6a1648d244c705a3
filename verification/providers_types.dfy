/** Package `providers` (providers/types.go): the provider-side proxy record,
    the host-keyed deduplicating `Set` that providers write into, and the
    `Provider` function type. */
module Providers {
  import opened Results
  import opened Urls

  /** `providers.Proxy`. */
  datatype Proxy = Proxy(url: Url, provider: string, country: string, used: bool)

  /** `providers.Set`: the stored proxies in insertion order, and the keys of
      the membership map that hold `true` (the map only ever stores `true`,
      and `delete` removes a key). */
  datatype Set = Set(membership: set<string>, proxies: seq<Proxy>)

  /** What a provider hands back: the collector after its writes, the list
      it returns, and its error, if any. */
  datatype ProviderResult = ProviderResult(collector: Set, proxies: seq<Proxy>, err: Option<string>)

  /** `providers.Provider`. The timeout argument is not modelled: a provider
      is a function from the collector it is given to what it returns. */
  type Provider = Set -> ProviderResult

  /** `newProxy`: parses the raw URL with `parse` (`url.Parse`) and files
      the result under the given provider and country; a URL that does not
      parse is an error. */
  function NewProxy(parse: Parser, raw: string, provider: string, country: string): (r: Result<Proxy, string>)
    ensures r.Ok? <==> parse(raw).Some?
    ensures r.Ok? ==> r.value.url == parse(raw).value && r.value.provider == provider
                      && r.value.country == country && !r.value.used
  {
    match parse(raw)
    case None => Err("providers: cannot parse ip to URL")
    case Some(u) => Ok(Proxy(u, provider, country, false))
  }

  // ---------------------------------------------------------------------
  // Views and invariants

  /** The hosts (host:port) of a list of proxies. */
  function Hosts(ps: seq<Proxy>): set<string> {
    set p | p in ps :: p.url.host
  }

  predicate DistinctHosts(ps: seq<Proxy>) {
    forall i, j :: 0 <= i < j < |ps| ==> ps[i].url.host != ps[j].url.host
  }

  /** The membership keys are exactly the stored hosts, each stored once. */
  predicate Consistent(s: Set) {
    s.membership == Hosts(s.proxies) && DistinctHosts(s.proxies)
  }

  // ---------------------------------------------------------------------
  // Operations

  /** `NewSet`. */
  function NewSet(): (r: Set)
    ensures Length(r) == 0
    ensures forall p :: !In(r, p)
    ensures Consistent(r)
  {
    Set({}, [])
  }

  /** `In`: membership is decided by the host alone; the scheme, provider
      and country of `p` play no part. */
  predicate In(s: Set, p: Proxy) {
    p.url.host in s.membership
  }

  /** `All`. */
  function All(s: Set): seq<Proxy> {
    s.proxies
  }

  /** `Length`. */
  function Length(s: Set): nat {
    |s.proxies|
  }

  /** `Add`: stores `p` at the end unless a proxy with the same host is
      already a member, in which case nothing changes. */
  function Add(s: Set, p: Proxy): (r: Set)
    ensures In(r, p)
    ensures r.membership == s.membership + {p.url.host}
    ensures forall q :: In(r, q) <==> In(s, q) || q.url.host == p.url.host
    ensures In(s, p) ==> r == s
    ensures !In(s, p) ==> Length(r) == Length(s) + 1 && r.proxies[..Length(s)] == s.proxies && r.proxies[Length(s)] == p
    ensures forall q :: q in r.proxies <==> q in s.proxies || (q == p && !In(s, p))
    ensures Consistent(s) ==> Consistent(r)
  {
    if p.url.host in s.membership then s
    else
      var r := Set(s.membership + {p.url.host}, s.proxies + [p]);
      assert Hosts(r.proxies) == Hosts(s.proxies) + {p.url.host};
      r
  }

  /** `Remove` compares `URL.String()`. */
  predicate SameSpelling(p: Proxy, q: Proxy) {
    Spelling(p.url) == Spelling(q.url)
  }

  /** The index the loop of `Remove` stops at: the first proxy spelt like `q`. */
  function FirstMatch(ps: seq<Proxy>, q: Proxy): (r: Option<nat>)
    ensures r.Some? ==> r.value < |ps| && SameSpelling(ps[r.value], q)
    ensures r.Some? ==> forall j :: 0 <= j < r.value ==> !SameSpelling(ps[j], q)
    ensures r.None? <==> forall j :: 0 <= j < |ps| ==> !SameSpelling(ps[j], q)
    decreases |ps|
  {
    if |ps| == 0 then None
    else if SameSpelling(ps[0], q) then Some(0)
    else match FirstMatch(ps[1..], q)
      case None => None
      case Some(i) => Some(i + 1)
  }

  /** The list after swapping slot `i` with the last slot and dropping the
      last slot: every other proxy is kept, the last one moving into `i`. */
  function SwapOut(ps: seq<Proxy>, i: nat): (r: seq<Proxy>)
    requires i < |ps|
    ensures |r| == |ps| - 1
    ensures forall j :: 0 <= j < |r| ==> r[j] == (if j == i then ps[|ps| - 1] else ps[j])
    ensures multiset(r) + multiset{ps[i]} == multiset(ps)
  {
    SwapOutKeepsOthers(ps, i);
    ps[i := ps[|ps| - 1]][..|ps| - 1]
  }

  lemma SwapOutKeepsOthers(ps: seq<Proxy>, i: nat)
    requires i < |ps|
    ensures multiset(ps[i := ps[|ps| - 1]][..|ps| - 1]) + multiset{ps[i]} == multiset(ps)
  {
    var last := |ps| - 1;
    var r := ps[i := ps[last]][..last];
    if i == last {
      assert ps == r + [ps[i]];
    } else {
      assert r == ps[..i] + [ps[last]] + ps[i + 1..last];
      assert ps == ps[..i] + [ps[i]] + ps[i + 1..last] + [ps[last]];
    }
  }

  /** `Remove`: swaps the first proxy spelt like `q` with the last one and
      drops the last slot; then deletes the membership key of `q`'s host,
      whether or not anything was removed. */
  function Remove(s: Set, q: Proxy): (r: Set)
    ensures r.membership == s.membership - {q.url.host}
    ensures !In(r, q)
    ensures FirstMatch(s.proxies, q).None? ==> r.proxies == s.proxies
    ensures FirstMatch(s.proxies, q).Some? ==>
      var i := FirstMatch(s.proxies, q).value;
      && Length(r) == Length(s) - 1
      && multiset(r.proxies) + multiset{s.proxies[i]} == multiset(s.proxies)
      && (forall j :: 0 <= j < Length(r) && j != i ==> r.proxies[j] == s.proxies[j])
  {
    var membership := s.membership - {q.url.host};
    match FirstMatch(s.proxies, q)
    case None => Set(membership, s.proxies)
    case Some(i) => Set(membership, SwapOut(s.proxies, i))
  }

  /** `after` keeps `before`'s list as its prefix and stores nothing but
      `before`'s proxies and those of `ps`. */
  ghost predicate Extends(before: Set, after: Set, ps: seq<Proxy>) {
    && Length(before) <= Length(after)
    && after.proxies[..Length(before)] == before.proxies
    && forall q :: q in after.proxies ==> q in before.proxies || q in ps
  }

  /** Extending by `ps` and then by `qs` is extending by `ps + qs`. */
  lemma ExtendsTrans(a: Set, b: Set, c: Set, ps: seq<Proxy>, qs: seq<Proxy>)
    requires Extends(a, b, ps) && Extends(b, c, qs)
    ensures Extends(a, c, ps + qs)
  {
    assert c.proxies[..Length(a)] == c.proxies[..Length(b)][..Length(a)];
    forall q | q in c.proxies ensures q in a.proxies || q in ps + qs {
      if q in b.proxies && q !in ps {
        assert q in a.proxies;
      }
    }
  }

  /** Adds every proxy of `ps` in order, as the `for ... Add` loops do. */
  function AddAll(s: Set, ps: seq<Proxy>): (r: Set)
    ensures r.membership == s.membership + Hosts(ps)
    ensures forall q :: In(r, q) <==> In(s, q) || q.url.host in Hosts(ps)
    ensures Length(s) <= Length(r) <= Length(s) + |ps|
    ensures r.proxies[..Length(s)] == s.proxies
    ensures forall q :: q in r.proxies ==> q in s.proxies || q in ps
    ensures Extends(s, r, ps)
    ensures Consistent(s) ==> Consistent(r)
    decreases |ps|
  {
    if |ps| == 0 then s
    else
      var r := AddAll(Add(s, ps[0]), ps[1..]);
      assert ps == [ps[0]] + ps[1..];
      assert Hosts(ps) == {ps[0].url.host} + Hosts(ps[1..]);
      r
  }

  // ---------------------------------------------------------------------
  // Properties

  /** Adding proxies whose hosts are distinct and all new appends exactly
      those proxies: nothing is deduplicated away. */
  lemma {:induction false} AddAllFresh(s: Set, ps: seq<Proxy>)
    requires Consistent(s)
    requires DistinctHosts(ps)
    requires forall i :: 0 <= i < |ps| ==> ps[i].url.host !in s.membership
    ensures AddAll(s, ps) == Set(s.membership + Hosts(ps), s.proxies + ps)
    decreases |ps|
  {
    if |ps| > 0 {
      var s' := Set(s.membership + {ps[0].url.host}, s.proxies + [ps[0]]);
      AddFreshHead(s, ps);
      AddAllFresh(s', ps[1..]);
      assert AddAll(s, ps) == AddAll(s', ps[1..]);
    }
  }

  /** One step of `AddAllFresh`: the head is appended, and the tail still
      meets the lemma's requirements against the grown set. */
  lemma AddFreshHead(s: Set, ps: seq<Proxy>)
    requires Consistent(s) && |ps| > 0 && DistinctHosts(ps)
    requires forall i :: 0 <= i < |ps| ==> ps[i].url.host !in s.membership
    ensures var s' := Set(s.membership + {ps[0].url.host}, s.proxies + [ps[0]]);
      && Add(s, ps[0]) == s' && Consistent(s') && DistinctHosts(ps[1..])
      && (forall i :: 0 <= i < |ps[1..]| ==> ps[1..][i].url.host !in s'.membership)
      && s'.membership + Hosts(ps[1..]) == s.membership + Hosts(ps)
      && s'.proxies + ps[1..] == s.proxies + ps
  {
    var head, tail := ps[0], ps[1..];
    assert ps == [head] + tail;
    ConcatAssoc(s.proxies, [head], tail);
    HostsCons(ps);
    forall i | 0 <= i < |tail| ensures tail[i] == ps[i + 1] {}
  }

  lemma ConcatAssoc(a: seq<Proxy>, b: seq<Proxy>, c: seq<Proxy>)
    ensures (a + b) + c == a + (b + c)
  {
  }

  lemma HostsCons(ps: seq<Proxy>)
    requires |ps| > 0
    ensures Hosts(ps) == {ps[0].url.host} + Hosts(ps[1..])
  {
    assert ps == [ps[0]] + ps[1..];
  }

  /** A consistent set stores one proxy per member host, so its length is
      the number of member hosts. */
  lemma {:induction false} ConsistentLength(s: Set)
    requires Consistent(s)
    ensures Length(s) == |s.membership|
    decreases |s.proxies|
  {
    var ps := s.proxies;
    if |ps| > 0 {
      var init := ps[..|ps| - 1];
      var last := ps[|ps| - 1];
      var t := Set(Hosts(init), init);
      assert Hosts(ps) == Hosts(init) + {last.url.host} by {
        assert ps == init + [last];
      }
      assert forall k :: 0 <= k < |init| ==> init[k].url.host != last.url.host by {
        assert forall k :: 0 <= k < |init| ==> init[k] == ps[k];
      }
      ConsistentLength(t);
    }
  }

  /** `Remove` keeps the invariant when it deletes the proxy whose host it
      unregisters, or when that host was not a member. */
  lemma RemoveKeepsConsistent(s: Set, q: Proxy)
    requires Consistent(s)
    requires FirstMatch(s.proxies, q).Some? ==> s.proxies[FirstMatch(s.proxies, q).value].url.host == q.url.host
    requires FirstMatch(s.proxies, q).None? ==> !In(s, q)
    ensures Consistent(Remove(s, q))
  {
    match FirstMatch(s.proxies, q)
    case None =>
      assert Remove(s, q) == s;
    case Some(i) =>
      SwapOutDistinct(s.proxies, i);
      SwapOutHosts(s.proxies, i);
  }

  lemma SwapOutDistinct(ps: seq<Proxy>, i: nat)
    requires i < |ps| && DistinctHosts(ps)
    ensures DistinctHosts(SwapOut(ps, i))
  {
    var rs, last := SwapOut(ps, i), |ps| - 1;
    forall a, b | 0 <= a < b < |rs| ensures rs[a].url.host != rs[b].url.host {
      assert rs[a] == ps[if a == i then last else a];
      assert rs[b] == ps[if b == i then last else b];
    }
  }

  lemma SwapOutHosts(ps: seq<Proxy>, i: nat)
    requires i < |ps| && DistinctHosts(ps)
    ensures Hosts(SwapOut(ps, i)) == Hosts(ps) - {ps[i].url.host}
  {
    var rs, last := SwapOut(ps, i), |ps| - 1;
    forall h | h in Hosts(rs) ensures h in Hosts(ps) - {ps[i].url.host} {
      var k :| 0 <= k < |rs| && rs[k].url.host == h;
      var k' := if k == i then last else k;
      assert rs[k] == ps[k'] && k' != i;
    }
    forall h | h in Hosts(ps) - {ps[i].url.host} ensures h in Hosts(rs) {
      var k :| 0 <= k < |ps| && ps[k].url.host == h;
      if k == last {
        assert rs[i] == ps[k];
      } else {
        assert rs[k] == ps[k];
      }
    }
  }

  /** Two spellings of one endpoint: the same host under two schemes. */
  const HttpOne := Proxy(Url("http", "1.1.1.1:80"), "", "FR", false)
  const SocksOne := Proxy(Url("socks5", "1.1.1.1:80"), "", "FR", false)

  /** `Remove` with the same host but another scheme removes nothing from
      the list yet unregisters the host: afterwards the stored proxy is not
      `In` the set, and adding it again stores the host twice. */
  lemma RemoveOtherSchemeBreaksMembership()
    ensures var s := Add(NewSet(), HttpOne);
            var r := Remove(s, SocksOne);
            && r.proxies == [HttpOne]
            && !In(r, HttpOne)
            && Add(r, HttpOne).proxies == [HttpOne, HttpOne]
            && !Consistent(Add(r, HttpOne))
  {
    var s := Add(NewSet(), HttpOne);
    assert s.proxies == [HttpOne];
    assert |Spelling(HttpOne.url)| != |Spelling(SocksOne.url)|;
    assert FirstMatch(s.proxies, SocksOne) == None;
  }
}
