/** The offline provider of package `providers` (providers/prov_static.go):
    one `"<url> <country>"` entry per line of an embedded asset. Reading the
    asset and `url.Parse` are inputs. */
module StaticProvider {
  import opened Results
  import opened Urls
  import opened Text
  import opened Providers

  /** The proxy a line describes, if it has exactly two space-separated
      columns and its first column parses. Any other line is skipped. */
  function LineProxy(parse: Parser, line: string): (r: Option<Proxy>)
    ensures r.Some? <==> |Split(line, ' ')| == 2 && parse(Split(line, ' ')[0]).Some?
    ensures r.Some? ==> r.value.url == parse(Split(line, ' ')[0]).value
    ensures r.Some? ==> r.value.provider == "Static" && r.value.country == Split(line, ' ')[1]
  {
    var columns := Split(line, ' ');
    if |columns| != 2 then None
    else match NewProxy(parse, columns[0], "Static", columns[1])
      case Err(_) => None
      case Ok(p) => Some(p)
  }

  /** Line `line` contributes a proxy with the host of `q`. */
  predicate Supplies(parse: Parser, line: string, q: Proxy) {
    LineProxy(parse, line).Some? && LineProxy(parse, line).value.url.host == q.url.host
  }

  /** One turn of the loop: an accepted line's proxy is added. */
  function Accept(parse: Parser, collector: Set, line: string): (r: Set)
    ensures forall q :: In(r, q) <==> In(collector, q) || Supplies(parse, line, q)
    ensures Length(collector) <= Length(r) && r.proxies[..Length(collector)] == collector.proxies
    ensures forall q :: q in r.proxies ==> q in collector.proxies || LineProxy(parse, line) == Some(q)
    ensures Consistent(collector) ==> Consistent(r)
  {
    match LineProxy(parse, line)
    case None => collector
    case Some(p) => Add(collector, p)
  }

  /** Some line of `lines` contributes a proxy with the host of `q`. */
  ghost predicate SuppliedBy(parse: Parser, lines: seq<string>, q: Proxy) {
    exists i :: 0 <= i < |lines| && Supplies(parse, lines[i], q)
  }

  /** Some line of `lines` reads as exactly `q`. */
  ghost predicate ReadFrom(parse: Parser, lines: seq<string>, q: Proxy) {
    exists i :: 0 <= i < |lines| && LineProxy(parse, lines[i]) == Some(q)
  }

  /** A line is the first one or one of the rest. */
  lemma LinesCons(parse: Parser, lines: seq<string>)
    requires |lines| > 0
    ensures forall q :: SuppliedBy(parse, lines, q) <==> Supplies(parse, lines[0], q) || SuppliedBy(parse, lines[1..], q)
    ensures forall q :: ReadFrom(parse, lines, q) <==> LineProxy(parse, lines[0]) == Some(q) || ReadFrom(parse, lines[1..], q)
  {
    forall q ensures SuppliedBy(parse, lines, q) ==> Supplies(parse, lines[0], q) || SuppliedBy(parse, lines[1..], q) {
      if SuppliedBy(parse, lines, q) && !Supplies(parse, lines[0], q) {
        var i :| 0 <= i < |lines| && Supplies(parse, lines[i], q);
        assert lines[1..][i - 1] == lines[i];
      }
    }
    forall q ensures SuppliedBy(parse, lines[1..], q) ==> SuppliedBy(parse, lines, q) {
      if SuppliedBy(parse, lines[1..], q) {
        var i :| 0 <= i < |lines[1..]| && Supplies(parse, lines[1..][i], q);
        assert lines[i + 1] == lines[1..][i];
      }
    }
    forall q ensures ReadFrom(parse, lines, q) ==> LineProxy(parse, lines[0]) == Some(q) || ReadFrom(parse, lines[1..], q) {
      if ReadFrom(parse, lines, q) && LineProxy(parse, lines[0]) != Some(q) {
        var i :| 0 <= i < |lines| && LineProxy(parse, lines[i]) == Some(q);
        assert lines[1..][i - 1] == lines[i];
      }
    }
    forall q ensures ReadFrom(parse, lines[1..], q) ==> ReadFrom(parse, lines, q) {
      if ReadFrom(parse, lines[1..], q) {
        var i :| 0 <= i < |lines[1..]| && LineProxy(parse, lines[1..][i]) == Some(q);
        assert lines[i + 1] == lines[1..][i];
      }
    }
  }

  /** The loop over the lines: each accepted line is added to the collector. */
  function AddLines(parse: Parser, collector: Set, lines: seq<string>): (r: Set)
    ensures forall q :: In(r, q) <==> In(collector, q) || SuppliedBy(parse, lines, q)
    ensures Length(collector) <= Length(r)
    ensures r.proxies[..Length(collector)] == collector.proxies
    ensures forall q :: q in r.proxies ==> q in collector.proxies || ReadFrom(parse, lines, q)
    ensures Consistent(collector) ==> Consistent(r)
    decreases |lines|
  {
    if |lines| == 0 then collector
    else
      var next := Accept(parse, collector, lines[0]);
      var r := AddLines(parse, next, lines[1..]);
      LinesCons(parse, lines);
      assert r.proxies[..Length(collector)] == next.proxies[..Length(next)][..Length(collector)];
      r
  }

  /** `Static`: a missing asset is returned as the error before anything is
      added; otherwise every accepted line is added and the collector's
      contents are returned, with an error exactly when it is still empty.
      The collector may already hold proxies on entry. */
  function Static(asset: Result<string, string>, parse: Parser, collector: Set): (r: ProviderResult)
    ensures asset.Err? ==> r.collector == collector && r.proxies == [] && r.err == Some(asset.error)
    ensures asset.Ok? ==> r.collector == AddLines(parse, collector, Split(asset.value, '\n'))
    ensures asset.Ok? ==> forall q :: In(r.collector, q) <==> In(collector, q) || SuppliedBy(parse, Split(asset.value, '\n'), q)
    ensures asset.Ok? ==> forall q :: q in r.collector.proxies ==>
              q in collector.proxies || ReadFrom(parse, Split(asset.value, '\n'), q)
    ensures asset.Ok? ==> r.proxies == All(r.collector)
    ensures asset.Ok? ==> (r.err.Some? <==> Length(r.collector) == 0)
    ensures Consistent(collector) ==> Consistent(r.collector)
  {
    match asset
    case Err(e) => ProviderResult(collector, [], Some(e))
    case Ok(text) =>
      var filled := AddLines(parse, collector, Split(text, '\n'));
      var ps := All(filled);
      if |ps| == 0 then ProviderResult(filled, ps, Some("providers (Static): no proxies could be gathered"))
      else ProviderResult(filled, ps, None)
  }

  // ---------------------------------------------------------------------
  // Properties

  /** A well-formed entry is read back as the proxy `newProxy` builds from
      its two columns. */
  lemma EntryRoundTrip(parse: Parser, url: string, country: string)
    requires ' ' !in url && ' ' !in country
    ensures LineProxy(parse, url + " " + country) ==
              match NewProxy(parse, url, "Static", country)
              case Ok(p) => Some(p)
              case Err(_) => None
  {
    SplitAtSeparator(url, country, ' ');
    SplitNoSeparator(country, ' ');
  }

  /** The empty line after a final newline has one column, so it is skipped;
      so is a line with a third column. */
  lemma MalformedLinesSkipped(parse: Parser, a: string, b: string, c: string)
    requires ' ' !in a && ' ' !in b && ' ' !in c
    ensures LineProxy(parse, "").None?
    ensures LineProxy(parse, a + " " + b + " " + c).None?
  {
    SplitAtSeparator(a, b + " " + c, ' ');
    assert a + " " + b + " " + c == a + [' '] + (b + [' '] + c);
    SplitAtSeparator(b, c, ' ');
    SplitNoSeparator(c, ' ');
  }

  /** A proxy whose host is already in the collector is not replaced by a
      line supplying the same host: the first spelling stays. */
  lemma KnownHostKept(parse: Parser, collector: Set, lines: seq<string>, q: Proxy)
    requires Consistent(collector) && q in collector.proxies
    ensures q in AddLines(parse, collector, lines).proxies
  {
    var r := AddLines(parse, collector, lines);
    var k :| 0 <= k < |collector.proxies| && collector.proxies[k] == q;
    assert r.proxies[..Length(collector)][k] == q;
  }
}
