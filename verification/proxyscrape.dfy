/** The ProxyScrape source of package `sources` (sources/proxyscrape.go,
    sources/options.go, sources/proxy.go): option defaults, the API URL and
    the parsing of the response body. The HTTP client and `url.Parse` are
    inputs. */
module ProxyScrape {
  import opened Results
  import opened Urls
  import opened Text

  /** `sources.Options`; `timeout` is a `time.Duration` in nanoseconds. */
  datatype Options = Options(ptype: string, country: string, anonymity: string, timeout: int)

  /** `sources.Proxy`. */
  datatype Proxy = Proxy(url: Url, country: string, anonymity: string, timeout: int, owner: string)

  /** The errors `Query` can return. */
  datatype QueryError =
    | OptionsErr(options: Options, msg: string)   // `NewOptionsErr`
    | UrlErr(cause: QueryError)                   // "proxyscrape error: %w"
    | Unreachable(reason: string)                 // the GET failed
    | BadStatus(got: int)                         // status other than 200
    | Malformed(raw: string)                      // a line did not parse

  /** `time.Millisecond`, in nanoseconds. */
  const Millisecond: int := 1_000_000

  /** The default timeout `OptionsProxyScrape` fills in: 10 seconds. */
  const DefaultTimeout: int := 10_000 * Millisecond

  /** `OptionsProxyScrape`: an empty country means `"all"`, a zero timeout
      means ten seconds; the other fields pass through. */
  function OptionsProxyScrape(t: string, country: string, anonymity: string, timeout: int): (o: Options)
    ensures o.ptype == t && o.anonymity == anonymity
    ensures o.country == (if country == "" then "all" else country)
    ensures o.timeout == (if timeout == 0 then DefaultTimeout else timeout)
  {
    Options(t, if country == "" then "all" else country, anonymity,
            if timeout == 0 then DefaultTimeout else timeout)
  }

  /** `Duration.Milliseconds`: Go's integer division, which truncates
      toward zero. */
  function Milliseconds(ns: int): (ms: int)
    ensures 0 <= ns ==> 0 <= ms * Millisecond <= ns < (ms + 1) * Millisecond
    ensures ns < 0 ==> (ms - 1) * Millisecond < ns <= ms * Millisecond <= 0
  {
    if ns >= 0 then ns / Millisecond else -((-ns) / Millisecond)
  }

  /** The schemes ProxyScrape serves. */
  predicate ValidScheme(t: string) {
    t == "http" || t == "https" || t == "socks4" || t == "socks5"
  }

  // ---------------------------------------------------------------------
  // The API URL

  const Base := "https://api.proxyscrape.com/?"

  function Param(key: string, value: string): string {
    key + "=" + value
  }

  /** What `fmt.Sprintf("%s", n)` gives for an `int64` `n`: a bad-verb
      marker around its decimal value, not the number itself. */
  function BadVerbInt64(n: int): (r: string)
    ensures |r| > 0 && r[0] == '%' && '&' !in r
  {
    "%!s(int64=" + Decimal(n) + ")"
  }

  /** The anonymity the URL asks for: empty means `"all"`. This is the
      callee's copy of the options; the caller's stays as it was. */
  function UrlAnonymity(o: Options): string {
    if o.anonymity == "" then "all" else o.anonymity
  }

  /** The query parameters of the request for scheme `t`, with the
      millisecond timeout rendered by `render`. */
  function Params(o: Options, t: string, ms: string): seq<string> {
    Pieces(ParamKeys(t), ParamValues(o, t, ms))
  }

  /** The request URL for scheme `t` and rendered timeout `ms`. */
  function Request(o: Options, t: string, ms: string): string {
    Base + Join(Params(o, t, ms), '&')
  }

  /** The parameter names, in the order of the format strings. */
  function ParamKeys(t: string): (r: seq<string>)
    ensures forall j :: 0 <= j < |r| ==> '=' !in r[j]
  {
    if t == "http" || t == "https" then ["request", "proxytype", "timeout", "country", "ssl", "anonymity"]
    else ["request", "proxytype", "timeout", "country"]
  }

  function ParamValues(o: Options, t: string, ms: string): (r: seq<string>)
    ensures |r| == |ParamKeys(t)|
  {
    if t == "http" || t == "https" then
      ["getproxies", "http", ms, o.country, if t == "https" then "yes" else "no", UrlAnonymity(o)]
    else ["getproxies", t, ms, o.country]
  }

  /** `proxyScrapeURL` with the timeout rendered by `render`. The type is
      matched case-insensitively; a SOCKS type with an anonymity is an
      options error; an unknown type gives the empty URL and no error. */
  function BuildUrl(o: Options, render: int -> string): (r: Result<string, QueryError>)
    ensures r.Err? <==> (Lower(o.ptype) == "socks4" || Lower(o.ptype) == "socks5") && o.anonymity != ""
    ensures r.Err? ==> r.error.OptionsErr? && r.error.options == o
    ensures !ValidScheme(Lower(o.ptype)) ==> r == Ok("")
    ensures ValidScheme(Lower(o.ptype)) && r.Ok? ==> |r.value| > |Base| && r.value[..|Base|] == Base
  {
    var t := Lower(o.ptype);
    if !ValidScheme(t) then Ok("")
    else if (t == "socks4" || t == "socks5") && o.anonymity != "" then
      Err(OptionsErr(o, "anonymity has been specifed for " + t + " proxy which isn't avaliable with ProxyScrape"))
    else Ok(Request(o, t, render(Milliseconds(o.timeout))))
  }

  /** `proxyScrapeURL` as written: the timeout goes through `%s`. */
  function ProxyScrapeUrlAsWritten(o: Options): Result<string, QueryError> {
    BuildUrl(o, BadVerbInt64)
  }

  /** `proxyScrapeURL` as intended: the timeout in decimal milliseconds. */
  function ProxyScrapeUrl(o: Options): Result<string, QueryError> {
    BuildUrl(o, Decimal)
  }

  // ---------------------------------------------------------------------
  // Reading a URL back

  /** The `key=value` pieces of a URL's query string. */
  function QueryPieces(u: string): seq<string> {
    if |u| >= |Base| && u[..|Base|] == Base then Split(u[|Base|..], '&') else []
  }

  /** Piece `p` is a `key=...` piece. */
  predicate Names(p: string, key: string) {
    |p| >= |key| + 1 && p[..|key| + 1] == key + "="
  }

  /** The value of the first piece named `key`. */
  function Lookup(pieces: seq<string>, key: string): (r: Option<string>)
    ensures r.Some? <==> exists i :: 0 <= i < |pieces| && Names(pieces[i], key)
    ensures r.Some? ==> exists i :: 0 <= i < |pieces| && pieces[i] == key + "=" + r.value
    decreases |pieces|
  {
    if |pieces| == 0 then None
    else
      var p := pieces[0];
      var k := |key| + 1;
      if Names(p, key) then
        assert p == key + "=" + p[k..];
        Some(p[k..])
      else
        var r := Lookup(pieces[1..], key);
        assert forall i :: 0 <= i < |pieces[1..]| ==> pieces[1..][i] == pieces[i + 1];
        if r.Some? then
          var i :| 0 <= i < |pieces[1..]| && pieces[1..][i] == key + "=" + r.value;
          assert pieces[i + 1] == key + "=" + r.value;
          r
        else r
  }

  /** A `key=value` piece reads back as `value`. */
  lemma NamesOwnKey(key: string, value: string)
    ensures Names(Param(key, value), key) && Param(key, value)[|key| + 1..] == value
  {
    assert Param(key, value)[..|key| + 1] == key + "=";
  }

  /** A piece for one key is not a piece for another, when neither key
      contains `=`. */
  lemma OtherKey(k1: string, k2: string, value: string)
    requires '=' !in k1 && '=' !in k2 && k1 != k2
    ensures !Names(Param(k1, value), k2)
  {
    var p := Param(k1, value);
    if |p| >= |k2| + 1 {
      var q := p[..|k2| + 1];
      if |k1| == |k2| {
        assert q == k1 + "=";
        assert (k1 + "=")[..|k1|] == k1 && (k2 + "=")[..|k2|] == k2;
      } else if |k1| < |k2| {
        assert q[|k1|] == '=' && (k2 + "=")[|k1|] == k2[|k1|];
      } else {
        assert q[|k2|] == k1[|k2|] && (k2 + "=")[|k2|] == '=';
      }
    }
  }

  /** The `key=value` pieces for parallel lists of keys and values. */
  function Pieces(keys: seq<string>, values: seq<string>): (r: seq<string>)
    requires |keys| == |values|
    ensures |r| == |keys| && forall i :: 0 <= i < |r| ==> r[i] == Param(keys[i], values[i])
  {
    seq(|keys|, i requires 0 <= i < |keys| => Param(keys[i], values[i]))
  }

  /** Looking up a key finds the value paired with its first occurrence... */
  lemma {:induction false} LookupFirst(keys: seq<string>, values: seq<string>, i: nat)
    requires |keys| == |values| && i < |keys|
    requires forall j :: 0 <= j < |keys| ==> '=' !in keys[j]
    requires forall j :: 0 <= j < i ==> keys[j] != keys[i]
    ensures Lookup(Pieces(keys, values), keys[i]) == Some(values[i])
    decreases i
  {
    var pieces := Pieces(keys, values);
    assert pieces[1..] == Pieces(keys[1..], values[1..]);
    if i == 0 {
      NamesOwnKey(keys[0], values[0]);
    } else {
      OtherKey(keys[0], keys[i], values[0]);
      LookupFirst(keys[1..], values[1..], i - 1);
    }
  }

  /** ... and a key that is not there finds nothing. */
  lemma {:induction false} LookupMissing(keys: seq<string>, values: seq<string>, key: string)
    requires |keys| == |values|
    requires forall j :: 0 <= j < |keys| ==> '=' !in keys[j]
    requires '=' !in key && key !in keys
    ensures Lookup(Pieces(keys, values), key) == None
    decreases |keys|
  {
    if |keys| > 0 {
      var pieces := Pieces(keys, values);
      assert pieces[1..] == Pieces(keys[1..], values[1..]);
      OtherKey(keys[0], key, values[0]);
      LookupMissing(keys[1..], values[1..], key);
    }
  }

  /** The URL's value for `key`, if it names one. */
  function UrlParam(u: string, key: string): Option<string> {
    Lookup(QueryPieces(u), key)
  }

  predicate NoAmp(s: string) {
    '&' !in s
  }

  /** The pieces of a request URL are the parameters it was built from,
      provided no value contains `&`. */
  lemma PiecesReadBack(o: Options, t: string, ms: string)
    requires NoAmp(o.country) && NoAmp(o.anonymity) && NoAmp(ms) && ValidScheme(t)
    ensures QueryPieces(Request(o, t, ms)) == Params(o, t, ms)
  {
    var j := Join(Params(o, t, ms), '&');
    assert Request(o, t, ms)[|Base|..] == j;
    ParamsNoAmp(o, t, ms);
    SplitJoin(Params(o, t, ms), '&');
  }

  /** No parameter piece contains `&` when no value does. */
  lemma ParamsNoAmp(o: Options, t: string, ms: string)
    requires NoAmp(o.country) && NoAmp(o.anonymity) && NoAmp(ms) && ValidScheme(t)
    ensures |Params(o, t, ms)| >= 1
    ensures forall i :: 0 <= i < |Params(o, t, ms)| ==> '&' !in Params(o, t, ms)[i]
  {
    var keys, values := ParamKeys(t), ParamValues(o, t, ms);
    forall i | 0 <= i < |keys| ensures '&' !in Param(keys[i], values[i]) {
      assert '&' !in keys[i] && '&' !in values[i];
    }
  }

  /** A name that is not a parameter of the request reads back as nothing. */
  lemma ParamMissing(o: Options, t: string, ms: string, key: string)
    requires NoAmp(o.country) && NoAmp(o.anonymity) && NoAmp(ms) && ValidScheme(t)
    requires '=' !in key && key !in ParamKeys(t)
    ensures UrlParam(Request(o, t, ms), key) == None
  {
    PiecesReadBack(o, t, ms);
    LookupMissing(ParamKeys(t), ParamValues(o, t, ms), key);
  }

  /** The parameter names of a request are pairwise different. */
  lemma ParamKeysDistinct(t: string)
    ensures forall i, j :: 0 <= i < j < |ParamKeys(t)| ==> ParamKeys(t)[i] != ParamKeys(t)[j]
  {
  }

  /** The `i`-th parameter of a request URL reads back as its value. */
  lemma RequestParamAt(o: Options, t: string, ms: string, i: nat)
    requires NoAmp(o.country) && NoAmp(o.anonymity) && NoAmp(ms) && ValidScheme(t)
    requires i < |ParamKeys(t)|
    ensures UrlParam(Request(o, t, ms), ParamKeys(t)[i]) == Some(ParamValues(o, t, ms)[i])
  {
    ParamKeysDistinct(t);
    PiecesReadBack(o, t, ms);
    LookupFirst(ParamKeys(t), ParamValues(o, t, ms), i);
  }

  /** An HTTP or HTTPS request asks for `proxytype=http`... */
  lemma HttpProxyType(o: Options, t: string, ms: string)
    requires NoAmp(o.country) && NoAmp(o.anonymity) && NoAmp(ms)
    requires t == "http" || t == "https"
    ensures UrlParam(Request(o, t, ms), "proxytype") == Some("http")
  {
    RequestParamAt(o, t, ms, 1);
  }

  /** ... with `ssl=yes` exactly for HTTPS ... */
  lemma HttpSsl(o: Options, t: string, ms: string)
    requires NoAmp(o.country) && NoAmp(o.anonymity) && NoAmp(ms)
    requires t == "http" || t == "https"
    ensures UrlParam(Request(o, t, ms), "ssl") == Some(if t == "https" then "yes" else "no")
  {
    RequestParamAt(o, t, ms, 4);
  }

  /** ... and for anonymity `all` when none was given. */
  lemma HttpAnonymity(o: Options, t: string, ms: string)
    requires NoAmp(o.country) && NoAmp(o.anonymity) && NoAmp(ms)
    requires t == "http" || t == "https"
    ensures UrlParam(Request(o, t, ms), "anonymity") == Some(if o.anonymity == "" then "all" else o.anonymity)
  {
    RequestParamAt(o, t, ms, 5);
  }

  /** A SOCKS request names its own type and has no `ssl` or `anonymity`. */
  lemma SocksParams(o: Options, t: string, ms: string)
    requires NoAmp(o.country) && NoAmp(o.anonymity) && NoAmp(ms)
    requires t == "socks4" || t == "socks5"
    ensures UrlParam(Request(o, t, ms), "proxytype") == Some(t)
    ensures UrlParam(Request(o, t, ms), "ssl") == None
    ensures UrlParam(Request(o, t, ms), "anonymity") == None
  {
    RequestParamAt(o, t, ms, 1);
    ParamMissing(o, t, ms, "ssl");
    ParamMissing(o, t, ms, "anonymity");
  }

  /** Every request carries the country and the rendered timeout. */
  lemma CountryAndTimeout(o: Options, t: string, ms: string)
    requires NoAmp(o.country) && NoAmp(o.anonymity) && NoAmp(ms) && ValidScheme(t)
    ensures UrlParam(Request(o, t, ms), "timeout") == Some(ms)
    ensures UrlParam(Request(o, t, ms), "country") == Some(o.country)
  {
    RequestParamAt(o, t, ms, 2);
    RequestParamAt(o, t, ms, 3);
  }

  /** `proxyScrapeURL` builds the request for the lower-cased type. */
  lemma BuildUrlIsRequest(o: Options, render: int -> string)
    requires ValidScheme(Lower(o.ptype)) && BuildUrl(o, render).Ok?
    ensures BuildUrl(o, render).value == Request(o, Lower(o.ptype), render(Milliseconds(o.timeout)))
  {
  }

  /** As written, the timeout parameter starts with `%`: the API is not
      sent a number of milliseconds. */
  lemma TimeoutAsWrittenIsNotANumber(o: Options)
    requires NoAmp(o.country) && NoAmp(o.anonymity)
    requires ValidScheme(Lower(o.ptype)) && ProxyScrapeUrlAsWritten(o).Ok?
    ensures var v := UrlParam(ProxyScrapeUrlAsWritten(o).value, "timeout");
            v.Some? && |v.value| > 0 && !('0' <= v.value[0] <= '9') && v.value[0] != '-'
  {
    var t, ms := Lower(o.ptype), BadVerbInt64(Milliseconds(o.timeout));
    BuildUrlIsRequest(o, BadVerbInt64);
    CountryAndTimeout(o, t, ms);
  }

  lemma DecimalHasNoAmp(n: int)
    ensures NoAmp(Decimal(n))
  {
    var d := Digits(if n < 0 then -n else n);
    assert forall i :: 0 <= i < |d| ==> d[i] != '&';
  }

  /** As intended, the timeout parameter reads back as the option's
      timeout in milliseconds. */
  lemma TimeoutReadsBack(o: Options)
    requires NoAmp(o.country) && NoAmp(o.anonymity) && o.timeout >= 0
    requires ValidScheme(Lower(o.ptype)) && ProxyScrapeUrl(o).Ok?
    ensures var v := UrlParam(ProxyScrapeUrl(o).value, "timeout");
            && v == Some(Digits(Milliseconds(o.timeout)))
            && ParseDigits(v.value) == Milliseconds(o.timeout)
  {
    var t, ms := Lower(o.ptype), Decimal(Milliseconds(o.timeout));
    DecimalHasNoAmp(Milliseconds(o.timeout));
    BuildUrlIsRequest(o, Decimal);
    CountryAndTimeout(o, t, ms);
    DigitsRoundTrip(Milliseconds(o.timeout));
  }

  // ---------------------------------------------------------------------
  // OptionsProxyScrape and Duration.Milliseconds

  /** Filling in the defaults a second time changes nothing. */
  lemma OptionsIdempotent(t: string, country: string, anonymity: string, timeout: int)
    ensures var o := OptionsProxyScrape(t, country, anonymity, timeout);
            OptionsProxyScrape(o.ptype, o.country, o.anonymity, o.timeout) == o
  {
  }

  /** Truncation toward zero treats negative durations symmetrically. */
  lemma MillisecondsOdd(ns: int)
    ensures Milliseconds(-ns) == -Milliseconds(ns)
  {
  }

  // ---------------------------------------------------------------------
  // Query

  /** What the HTTP GET returned. */
  datatype Response = Response(status: int, body: string)

  /** The HTTP client: a failed GET is an error message. */
  type Client = string -> Result<Response, string>

  /** The status the API must answer with: `http.StatusOK`. */
  const StatusOk := 200

  /** The text handed to `url.Parse` for a cleaned body line. */
  function Raw(scheme: string, ip: string): string {
    scheme + "://" + ip
  }

  /** The body lines: trimmed of surrounding newlines, split on newlines,
      each with every whitespace character deleted. */
  function BodyLines(body: string): (r: seq<string>)
    ensures |r| == Count(Trim(body, '\n'), '\n') + 1
    ensures forall i :: 0 <= i < |r| ==> forall k :: 0 <= k < |r[i]| ==> !IsSpace(r[i][k])
  {
    var raw := Split(Trim(body, '\n'), '\n');
    seq(|raw|, i requires 0 <= i < |raw| => StripSpace(raw[i]))
  }

  /** A body of newline-terminated lines, each non-empty and free of
      whitespace, reads back as exactly those lines. */
  lemma BodyRoundTrip(ips: seq<string>)
    requires |ips| >= 1
    requires forall i :: 0 <= i < |ips| ==> |ips[i]| > 0
    requires forall i :: 0 <= i < |ips| ==> forall k :: 0 <= k < |ips[i]| ==> !IsSpace(ips[i][k])
    ensures BodyLines(Join(ips, '\n') + "\n") == ips
  {
    var j := Join(ips, '\n');
    JoinEnds(ips, '\n');
    assert (j + "\n")[..|j|] == j;
    assert TrimRight(j + "\n", '\n') == j;
    assert TrimLeft(j, '\n') == j;
    assert TrimLeft(j + "\n", '\n') == j + "\n";
    assert Trim(j + "\n", '\n') == j;
    SplitJoin(ips, '\n');
  }

  /** What `Query` stamps on every record it returns. */
  predicate Stamped(o: Options, p: Proxy) {
    && p.country == (if o.country == "all" then "unknown" else o.country)
    && p.anonymity == o.anonymity
    && p.timeout == o.timeout
    && p.owner == "ProxyScrape"
  }

  function Record(o: Options, u: Url): (p: Proxy)
    ensures Stamped(o, p) && p.url == u
  {
    Proxy(u, if o.country == "all" then "unknown" else o.country, o.anonymity, o.timeout, "ProxyScrape")
  }

  /** Line `i` is the first whose URL does not parse. */
  predicate FirstMalformed(scheme: string, parse: Parser, ips: seq<string>, i: int) {
    && 0 <= i < |ips|
    && parse(Raw(scheme, ips[i])).None?
    && forall j :: 0 <= j < i ==> parse(Raw(scheme, ips[j])).Some?
  }

  /** The loop over the body lines: one record per line, in order, or the
      first line that does not parse. */
  function ParseIPs(o: Options, scheme: string, parse: Parser, ips: seq<string>): (r: Result<seq<Proxy>, QueryError>)
    ensures r.Ok? <==> forall i :: 0 <= i < |ips| ==> parse(Raw(scheme, ips[i])).Some?
    ensures r.Ok? ==> |r.value| == |ips|
    ensures r.Ok? ==> forall i :: 0 <= i < |ips| ==> r.value[i] == Record(o, parse(Raw(scheme, ips[i])).value)
    ensures r.Err? ==> exists i :: FirstMalformed(scheme, parse, ips, i) && r.error == Malformed(Raw(scheme, ips[i]))
    decreases |ips|
  {
    if |ips| == 0 then Ok([])
    else
      match parse(Raw(scheme, ips[0]))
      case None =>
        assert FirstMalformed(scheme, parse, ips, 0);
        Err(Malformed(Raw(scheme, ips[0])))
      case Some(u) =>
        var rest := ParseIPs(o, scheme, parse, ips[1..]);
        assert forall i :: 0 < i < |ips| ==> ips[1..][i - 1] == ips[i];
        if rest.Err? then
          var k :| FirstMalformed(scheme, parse, ips[1..], k) && rest.error == Malformed(Raw(scheme, ips[1..][k]));
          assert FirstMalformed(scheme, parse, ips, k + 1);
          rest
        else
          Ok([Record(o, u)] + rest.value)
  }

  /** The body lines `client` answered with for `url`. */
  function Answered(client: Client, url: string): seq<string>
    requires client(url).Ok?
  {
    BodyLines(client(url).value.body)
  }

  /** `Query`: validate the type, build the URL with the timeout rendered
      by `render`, GET it, and parse the body. The program renders the
      timeout with `%s`, that is `BadVerbInt64`; `Decimal` is the
      rendering it evidently intends. */
  function Query(o: Options, render: int -> string, client: Client, parse: Parser): (r: Result<seq<Proxy>, QueryError>)
    ensures !ValidScheme(Lower(o.ptype)) ==> r == Err(OptionsErr(o, "invalid proxy type " + o.ptype))
    ensures ValidScheme(Lower(o.ptype)) && BuildUrl(o, render).Err? ==> r == Err(UrlErr(BuildUrl(o, render).error))
    ensures ValidScheme(Lower(o.ptype)) && BuildUrl(o, render).Ok? && client(BuildUrl(o, render).value).Err? ==>
              r == Err(Unreachable(client(BuildUrl(o, render).value).error))
    ensures ValidScheme(Lower(o.ptype)) && BuildUrl(o, render).Ok? && client(BuildUrl(o, render).value).Ok?
              && client(BuildUrl(o, render).value).value.status != StatusOk ==>
              r == Err(BadStatus(client(BuildUrl(o, render).value).value.status))
    ensures r.Ok? <==> && ValidScheme(Lower(o.ptype)) && BuildUrl(o, render).Ok?
                       && client(BuildUrl(o, render).value).Ok?
                       && client(BuildUrl(o, render).value).value.status == StatusOk
                       && var ips := Answered(client, BuildUrl(o, render).value);
                          forall i :: 0 <= i < |ips| ==> parse(Raw(Lower(o.ptype), ips[i])).Some?
    ensures r.Ok? ==> var ips := Answered(client, BuildUrl(o, render).value);
                      && |r.value| == |ips| >= 1
                      && forall i :: 0 <= i < |ips| ==> r.value[i] == Record(o, parse(Raw(Lower(o.ptype), ips[i])).value)
    ensures r.Ok? ==> forall i :: 0 <= i < |r.value| ==> Stamped(o, r.value[i])
  {
    var scheme := Lower(o.ptype);
    if !ValidScheme(scheme) then Err(OptionsErr(o, "invalid proxy type " + o.ptype))
    else
      match BuildUrl(o, render)
      case Err(e) => Err(UrlErr(e))
      case Ok(u) =>
        match client(u)
        case Err(e) => Err(Unreachable(e))
        case Ok(resp) =>
          if resp.status != StatusOk then Err(BadStatus(resp.status))
          else ParseIPs(o, scheme, parse, BodyLines(resp.body))
  }

  /** An invalid type is rejected before any request: the client is
      never consulted. */
  lemma InvalidTypeSendsNothing(o: Options, render: int -> string, c1: Client, c2: Client, parse: Parser)
    requires !ValidScheme(Lower(o.ptype))
    ensures Query(o, render, c1, parse) == Query(o, render, c2, parse)
    ensures Query(o, render, c1, parse).Err? && Query(o, render, c1, parse).error.OptionsErr?
  {
  }

  /** A SOCKS type with an anonymity fails with the wrapped options
      error, whatever the client would have answered. */
  lemma SocksAnonymityRejected(o: Options, render: int -> string, client: Client, parse: Parser)
    requires Lower(o.ptype) == "socks4" || Lower(o.ptype) == "socks5"
    requires o.anonymity != ""
    ensures var r := Query(o, render, client, parse);
            r.Err? && r.error.UrlErr? && r.error.cause.OptionsErr? && r.error.cause.options == o
  {
  }

  /** For HTTP with no anonymity the request asks for `all`, yet the
      records carry the caller's empty anonymity. This holds for the
      timeout rendered as written and as intended alike. */
  lemma CallerAnonymityKept(o: Options, render: int -> string, client: Client, parse: Parser)
    requires Lower(o.ptype) == "http" && o.anonymity == "" && NoAmp(o.country)
    requires NoAmp(render(Milliseconds(o.timeout)))
    ensures BuildUrl(o, render).Ok?
    ensures UrlParam(BuildUrl(o, render).value, "anonymity") == Some("all")
    ensures var r := Query(o, render, client, parse);
            r.Ok? ==> forall i :: 0 <= i < |r.value| ==> r.value[i].anonymity == ""
  {
    BuildUrlIsRequest(o, render);
    HttpAnonymity(o, "http", render(Milliseconds(o.timeout)));
  }

  /** The program's own rendering and the intended one both keep `&` out
      of the timeout. */
  lemma RenderingsHaveNoAmp(n: int)
    ensures NoAmp(BadVerbInt64(n)) && NoAmp(Decimal(n))
  {
    DecimalHasNoAmp(n);
  }

  /** An empty body (or one of newlines only) still yields one record:
      the URL made of the scheme and an empty host. */
  lemma EmptyBodyOneRecord(o: Options, render: int -> string, client: Client, parse: Parser, u: Url)
    requires ValidScheme(Lower(o.ptype)) && BuildUrl(o, render).Ok?
    requires client(BuildUrl(o, render).value) == Ok(Response(StatusOk, "\n\n"))
    requires parse(Lower(o.ptype) + "://") == Some(u)
    ensures Query(o, render, client, parse) == Ok([Record(o, u)])
  {
    assert Trim("\n\n", '\n') == "";
    assert BodyLines("\n\n") == [""];
    var t := Lower(o.ptype);
    assert Raw(t, "") == t + "://";
    SingleLine(o, t, parse, "", u);
  }

  lemma SingleLine(o: Options, scheme: string, parse: Parser, ip: string, u: Url)
    requires parse(Raw(scheme, ip)) == Some(u)
    ensures ParseIPs(o, scheme, parse, [ip]) == Ok([Record(o, u)])
  {
    var r := ParseIPs(o, scheme, parse, [ip]);
    assert [ip][0] == ip;
    assert r.Ok? && |r.value| == 1 && r.value[0] == Record(o, u);
    assert r.value == [Record(o, u)];
  }

  /** One bad line discards the whole answer. */
  lemma OneBadLineFailsAll(o: Options, render: int -> string, client: Client, parse: Parser, i: nat)
    requires ValidScheme(Lower(o.ptype)) && BuildUrl(o, render).Ok?
    requires client(BuildUrl(o, render).value).Ok?
    requires client(BuildUrl(o, render).value).value.status == StatusOk
    requires var ips := BodyLines(client(BuildUrl(o, render).value).value.body);
             i < |ips| && parse(Raw(Lower(o.ptype), ips[i])).None?
    ensures Query(o, render, client, parse).Err? && Query(o, render, client, parse).error.Malformed?
  {
  }
}
