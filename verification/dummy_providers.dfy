/** The fixed test providers of package `providers` (providers/prov_dummy.go). */
module DummyProviders {
  import opened Results
  import opened Urls
  import opened Text
  import opened Providers

  /** One line of the fixed list: the URL, already split into scheme and
      host:port as `url.Parse` splits these literals, and the country. */
  datatype Entry = Entry(scheme: string, host: string, country: string)

  const Entries: seq<Entry> := [
    Entry("http", "154.72.199.38:32954", "UG"),
    Entry("http", "117.191.11.103:8080", "CN"),
    Entry("http", "186.103.175.158:3128", "CL"),
    Entry("http", "170.254.150.165:80", "BR"),
    Entry("http", "190.149.165.150:50806", "GT"),
    Entry("http", "112.12.91.67:8888", "CN"),
    Entry("http", "112.12.91.213:8888", "CN"),
    Entry("http", "150.109.55.190:83", "US"),
    Entry("http", "112.12.91.211:8888", "CN"),
    Entry("http", "177.99.11.207:8080", "BR"),
    Entry("http", "110.164.58.180:8080", "TH"),
    Entry("socks5", "178.62.193.19:1080", "NL"),
    Entry("socks5", "82.196.11.105:1080", "NL"),
    Entry("socks5", "94.130.73.24:37188", "DE"),
    Entry("socks5", "94.130.73.24:36975", "DE"),
    Entry("socks5", "94.130.73.24:36966", "DE"),
    Entry("socks5", "94.130.73.24:37374", "DE"),
    Entry("socks5", "54.38.195.161:47404", "FR"),
    Entry("socks5", "94.130.73.30:64918", "DE")
  ]

  /** The literal line of an entry: `"<url> <country>"`. */
  function Line(e: Entry): string {
    Spelling(Url(e.scheme, e.host)) + " " + e.country
  }

  /** `strings.Split(line, " ")` yields the URL column and the country
      column, as the loop expects, whenever neither column has a space. */
  lemma ColumnsOfLine(e: Entry)
    requires ' ' !in Spelling(Url(e.scheme, e.host)) && ' ' !in e.country
    ensures Split(Line(e), ' ') == [Spelling(Url(e.scheme, e.host)), e.country]
  {
    SplitAtSeparator(Spelling(Url(e.scheme, e.host)), e.country, ' ');
    SplitNoSeparator(e.country, ' ');
  }

  /** The proxy built from one line. */
  function EntryProxy(e: Entry): (p: Proxy)
    ensures Spelling(p.url) == Spelling(Url(e.scheme, e.host))
    ensures p.url.host == e.host && p.provider == "DummyProvider" && p.country == e.country && !p.used
  {
    Proxy(Url(e.scheme, e.host), "DummyProvider", e.country, false)
  }

  /** The list `DummyProvider` returns, in line order. */
  function DummyList(): (r: seq<Proxy>)
    ensures |r| == |Entries| == 19
    ensures forall i :: 0 <= i < |r| ==> r[i] == EntryProxy(Entries[i])
    ensures forall i :: 0 <= i < |r| ==> r[i].provider == "DummyProvider" && r[i].country == Entries[i].country
  {
    seq(|Entries|, i requires 0 <= i < |Entries| => EntryProxy(Entries[i]))
  }

  /** What a provider that supplies the fixed list `ps` returns: the
      collector with `ps` added, and `ps` itself, with no error. */
  function Supply(collector: Set, ps: seq<Proxy>): (r: ProviderResult)
    ensures r.err.None? && r.proxies == ps
    ensures forall p :: p in r.proxies ==> In(r.collector, p)
    ensures forall q :: In(r.collector, q) <==> In(collector, q) || q.url.host in Hosts(ps)
    ensures Consistent(collector) ==> Consistent(r.collector)
  {
    ProviderResult(AddAll(collector, ps), ps, None)
  }

  /** `DummyProvider`: adds each of the 19 proxies to the collector and
      returns them all with no error. */
  function DummyProvider(collector: Set): (r: ProviderResult)
    ensures r.err.None?
    ensures r.proxies == DummyList() && |r.proxies| == 19
    ensures forall p :: p in r.proxies ==> In(r.collector, p)
    ensures forall q :: In(r.collector, q) <==> In(collector, q) || q.url.host in Hosts(r.proxies)
    ensures Consistent(collector) ==> Consistent(r.collector)
  {
    Supply(collector, DummyList())
  }

  /** `DummyProviderEmpty`: no proxies, no error, collector untouched. */
  function DummyProviderEmpty(collector: Set): (r: ProviderResult)
    ensures r.collector == collector && r.proxies == [] && r.err.None?
  {
    ProviderResult(collector, [], None)
  }

  /** `DummyProviderError`: no proxies, an error, collector untouched. */
  function DummyProviderError(collector: Set): (r: ProviderResult)
    ensures r.collector == collector && r.proxies == [] && r.err.Some?
  {
    ProviderResult(collector, [], Some("providers (DummyProviderError): no proxies could be gathered"))
  }

  /** No two of the 19 lines share a host:port. */
  lemma DummyHostsDistinct()
    ensures DistinctHosts(DummyList())
  {
    var ps := DummyList();
    forall i, j | 0 <= i < j < |ps| ensures ps[i].url.host != ps[j].url.host {
      if i < 7 {
        HostsDistinctFrom(0, 7);
      } else if i < 13 {
        HostsDistinctFrom(7, 13);
      } else {
        HostsDistinctFrom(13, 19);
      }
    }
  }

  /** The lines from `lo` (inclusive) to `hi` (exclusive) share no host
      with any later line. */
  lemma HostsDistinctFrom(lo: nat, hi: nat)
    requires lo <= hi <= |Entries| && hi - lo <= 7
    ensures forall i, j :: lo <= i < hi && i < j < |Entries| ==> Entries[i].host != Entries[j].host
  {
  }

  /** Run against a fresh collector, `DummyProvider` leaves exactly its 19
      proxies there, in line order. */
  lemma DummyFillsFreshCollector()
    ensures DummyProvider(NewSet()).collector.proxies == DummyList()
    ensures Length(DummyProvider(NewSet()).collector) == 19
  {
    DummyHostsDistinct();
    AddAllFresh(NewSet(), DummyList());
  }
}
