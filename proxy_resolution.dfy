/** Which proxy, if any, `set_proxy` names for a request (`Request#set_proxy`
    and `Request#no_proxy_host?`). The process
    environment is an explicit map from variable names to values. */
module ProxyResolution {
  import opened Wrappers
  import opened Exceptions
  import opened RubyStrings
  import opened Uris

  type Environment = map<string, string>

  const HttpProxy := "http_proxy"
  const HttpProxyUpper := "HTTP_PROXY"
  const NoProxy := "no_proxy"
  const NoProxyUpper := "NO_PROXY"

  /** `ENV[lower] || ENV[upper]`. Every value Ruby's ENV holds is a String and
      so truthy, the empty string included: the upper-case variable is read
      only when the lower-case one is absent. */
  function EnvFirst(env: Environment, lower: string, upper: string): (r: Option<string>)
    ensures lower in env ==> r == Some(env[lower])
    ensures lower !in env ==> r == Lookup(env, upper)
  {
    if lower in env then Some(env[lower]) else Lookup(env, upper)
  }

  /** The entries of a no_proxy value: split on commas, each entry stripped. */
  function NoProxyEntries(value: string): seq<string>
  {
    var fields := Split(value, ',');
    seq(|fields|, i requires 0 <= i < |fields| => Strip(fields[i]))
  }

  /** The exclusion list in force: no entries when neither variable is set. */
  function ExclusionList(env: Environment): seq<string>
  {
    match EnvFirst(env, NoProxy, NoProxyUpper)
    case None => []
    case Some(v) => NoProxyEntries(v)
  }

  /** `no_proxy_host?(host)`: true when some entry is contained in the host.
      Each entry is tested with `host.include?`, so a nil host raises as soon
      as there is one entry to test. */
  function NoProxyHost(env: Environment, host: Option<string>): (r: Result<bool, Exception>)
    ensures ExclusionList(env) == [] ==> r == Ok(false)
    ensures ExclusionList(env) != [] && host.None? ==> r == Err(NilHost)
    ensures host.Some? ==> r.Ok?
  {
    match EnvFirst(env, NoProxy, NoProxyUpper)
    case None => Ok(false)
    case Some(v) =>
      var entries := NoProxyEntries(v);
      if entries == [] then Ok(false)
      else if host.None? then Err(NilHost)
      else
        Ok(true in Matches(host.value, entries))
  }

  /** `entries.map { |h| host.include? h }` */
  function Matches(host: string, entries: seq<string>): seq<bool>
  {
    seq(|entries|, i requires 0 <= i < |entries| => Includes(host, entries[i]))
  }

  /** The proxy a request is sent through. */
  datatype ProxyTarget = ProxyTarget(host: Option<string>, port: Option<int>)

  /** The decision `set_proxy` takes for a target host: Ok(None) when it leaves
      the proxy fields alone, Ok(Some(t)) when it assigns them from `t`, or the
      exception it raises. The exclusion test comes first, the parse of the
      proxy URL second. */
  function ResolveProxy(env: Environment, host: Option<string>, parse: Parser)
    : Result<Option<ProxyTarget>, Exception>
  {
    match EnvFirst(env, HttpProxy, HttpProxyUpper)
    case None => Ok(None)
    case Some(proxy) =>
      match NoProxyHost(env, host)
      case Err(e) => Err(e)
      case Ok(true) => Ok(None)
      case Ok(false) =>
        match GetUriPartsFrom(parse, proxy)
        case Err(e) => Err(e)
        case Ok(parts) => Ok(Some(ProxyTarget(parts.host, parts.port)))
  }

  // ---------------------------------------------------------------------------
  // Properties of the exclusion test

  /** A host is excluded exactly when some stripped no_proxy entry occurs in it
      as a substring, wherever in the list that entry stands. */
  lemma ExcludedExactlyWhenSomeEntryOccurs(env: Environment, h: string)
    ensures NoProxyHost(env, Some(h))
      == Ok(exists i :: 0 <= i < |ExclusionList(env)| && Occurs(ExclusionList(env)[i], h))
  {
    var list := ExclusionList(env);
    forall i | 0 <= i < |list| ensures Includes(h, list[i]) <==> Occurs(list[i], h) {
      IncludesIff(h, list[i]);
    }
    var matches := Matches(h, list);
    if true in matches {
      var i :| 0 <= i < |list| && matches[i];
      assert Occurs(list[i], h);
    } else {
      forall i | 0 <= i < |list| ensures !Occurs(list[i], h) {
        assert !matches[i];
      }
    }
  }

  /** The list of a variable whose value is `raw` joined with commas, `raw`
      ending in a non-empty field: each field of `raw`, stripped. */
  lemma {:induction false} ListOfJoinedEntries(env: Environment, raw: seq<string>)
    requires raw != [] && raw[|raw| - 1] != []
    requires forall i :: 0 <= i < |raw| ==> ',' !in raw[i]
    requires EnvFirst(env, NoProxy, NoProxyUpper) == Some(Join(raw, ','))
    ensures |ExclusionList(env)| == |raw|
    ensures forall i :: 0 <= i < |raw| ==> ExclusionList(env)[i] == Strip(raw[i])
  {
    FieldsJoin(raw, ',');
    assert Split(Join(raw, ','), ',') == raw;
  }

  /** A single entry without padding is the whole list. */
  lemma SingleEntryList(env: Environment, e: string)
    requires Trimmed(e)
    requires EnvFirst(env, NoProxy, NoProxyUpper) == Some(e)
    ensures ExclusionList(env) == [e]
  {
    assert Join([e], ',') == e;
    ListOfJoinedEntries(env, [e]);
    StripPadded([], e, []);
    assert [] + e + [] == e;
  }

  /** An entry occurring in the host excludes the host. */
  lemma {:induction false} OccurringEntryExcludes(env: Environment, pre: string, i: nat, post: string)
    requires i < |ExclusionList(env)|
    ensures NoProxyHost(env, Some(pre + ExclusionList(env)[i] + post)) == Ok(true)
  {
    var h := pre + ExclusionList(env)[i] + post;
    assert ExclusionList(env)[i] <= h[|pre|..];
    ExcludedExactlyWhenSomeEntryOccurs(env, h);
  }

  /** An entry excludes every host it occurs in, at either end or in the
      middle, not only the hosts it is a domain suffix of: "foo" excludes
      "myfoo.com" as much as "foo.com" or "xfoo". */
  lemma SubstringNotSuffix(pre: string, post: string)
    ensures NoProxyHost(map[NoProxy := "foo"], Some(pre + "foo" + post)) == Ok(true)
  {
    var env := map[NoProxy := "foo"];
    SingleEntryList(env, "foo");
    OccurringEntryExcludes(env, pre, 0, post);
  }

  /** The shape of the source's multi-entry test (".google.co.uk, foo,
      localhost" against the host "localhost"): a host equal to the third entry
      is excluded, once the space after the comma is stripped away. */
  lemma LaterEntryExcludes(first: string, second: string, host: string)
    requires Trimmed(first) && Trimmed(second) && Trimmed(host)
    ensures NoProxyHost(map[NoProxy := first + ", " + second + ", " + host], Some(host)) == Ok(true)
  {
    var v := first + ", " + second + ", " + host;
    var env := map[NoProxy := v];
    var raw := [first, [' '] + second, [' '] + host];
    assert Join(raw[2..], ',') == raw[2];
    assert Join(raw[1..], ',') == raw[1] + [','] + raw[2];
    assert Join(raw, ',') == first + [','] + (raw[1] + [','] + raw[2]);
    assert v == first + [','] + (raw[1] + [','] + raw[2]);
    ListOfJoinedEntries(env, raw);
    StripPadded([' '], host, []);
    assert [' '] + host + [] == raw[2];
    OccurringEntryExcludes(env, [], 2, []);
    assert [] + host + [] == host;
  }

  /** A non-empty, comma-free entry with no whitespace at either end. */
  predicate Trimmed(e: string)
  {
    e != [] && ',' !in e && !IsSpace(e[0]) && !IsSpace(e[|e| - 1])
  }

  /** A list entry made of whitespace alone strips to "", which every host
      contains: with "localhost, " every host is excluded, so `set_proxy`
      names no proxy for any request whose URL has a host. */
  lemma BlankEntryExcludesEveryHost(h: string)
    ensures NoProxyHost(map[NoProxy := "localhost, "], Some(h)) == Ok(true)
  {
    var env := map[NoProxy := "localhost, "];
    var raw := ["localhost", " "];
    assert Join(raw, ',') == "localhost, ";
    ListOfJoinedEntries(env, raw);
    BlankStripsToEmpty(" ");
    OccurringEntryExcludes(env, h, 1, []);
    assert h + [] + [] == h;
  }

  /** An empty entry between two commas matches every host as a blank one
      does: "a,,b" excludes every present host. */
  lemma EmptyEntryExcludesEveryHost(h: string)
    ensures NoProxyHost(map[NoProxy := "a,,b"], Some(h)) == Ok(true)
  {
    var env := map[NoProxy := "a,,b"];
    var raw := ["a", "", "b"];
    assert Join(raw, ',') == "a,,b";
    ListOfJoinedEntries(env, raw);
    BlankStripsToEmpty("");
    OccurringEntryExcludes(env, h, 1, []);
    assert h + [] + [] == h;
  }

  /** An empty or comma-only no_proxy value has no entries and excludes nothing,
      even for a nil host. */
  lemma EmptyListExcludesNothing(env: Environment, v: string, host: Option<string>)
    requires EnvFirst(env, NoProxy, NoProxyUpper) == Some(v)
    requires forall i :: 0 <= i < |v| ==> v[i] == ','
    ensures NoProxyHost(env, host) == Ok(false)
  {
    SplitOfSeparatorsIsEmpty(v, ',');
    assert ExclusionList(env) == [];
  }

  // ---------------------------------------------------------------------------
  // Properties of the proxy decision

  /** With neither proxy variable set the proxy fields are never touched, and
      the host is not even looked at (a nil host raises nothing). */
  lemma NoProxyVariableLeavesFields(env: Environment, host: Option<string>, parse: Parser)
    requires HttpProxy !in env && HttpProxyUpper !in env
    ensures ResolveProxy(env, host, parse) == Ok(None)
  {
  }

  /** With a proxy set and no exclusion list, every request uses the host and
      port of the proxy URL. */
  lemma ProxyWithoutExclusionList(env: Environment, host: Option<string>, parse: Parser,
                                  proxy: string, parts: UriParts)
    requires EnvFirst(env, HttpProxy, HttpProxyUpper) == Some(proxy)
    requires NoProxy !in env && NoProxyUpper !in env
    requires GetUriPartsFrom(parse, proxy) == Ok(parts)
    ensures ResolveProxy(env, host, parse) == Ok(Some(ProxyTarget(parts.host, parts.port)))
  {
  }

  /** With a proxy set, the proxy fields are left alone exactly when some
      no_proxy entry occurs in the host. Otherwise the proxy URL is parsed:
      its host and port are assigned, or its parse error is raised. */
  lemma ProxyAssignedUnlessExcluded(env: Environment, h: string, parse: Parser, proxy: string)
    requires EnvFirst(env, HttpProxy, HttpProxyUpper) == Some(proxy)
    ensures ResolveProxy(env, Some(h), parse)
      == if exists i :: 0 <= i < |ExclusionList(env)| && Occurs(ExclusionList(env)[i], h)
         then Ok(None)
         else match GetUriPartsFrom(parse, proxy)
           case Err(e) => Err(e)
           case Ok(parts) => Ok(Some(ProxyTarget(parts.host, parts.port)))
  {
    ExcludedExactlyWhenSomeEntryOccurs(env, h);
  }

  /** With a proxy set and at least one exclusion entry, a URL without a host
      raises: `include?` is sent to nil before the proxy URL is looked at. */
  lemma NilHostRaises(env: Environment, parse: Parser, proxy: string)
    requires EnvFirst(env, HttpProxy, HttpProxyUpper) == Some(proxy)
    requires ExclusionList(env) != []
    ensures ResolveProxy(env, None, parse) == Err(NilHost)
  {
  }

  /** With `http_proxy` present, `HTTP_PROXY` makes no difference, even when
      `http_proxy` is the empty string. */
  lemma LowerCaseProxyWins(env: Environment, host: Option<string>, parse: Parser)
    requires HttpProxy in env
    ensures ResolveProxy(env, host, parse) == ResolveProxy(env - {HttpProxyUpper}, host, parse)
  {
    var env' := env - {HttpProxyUpper};
    assert EnvFirst(env, NoProxy, NoProxyUpper) == EnvFirst(env', NoProxy, NoProxyUpper);
  }

  /** With `no_proxy` present, `NO_PROXY` makes no difference. */
  lemma LowerCaseNoProxyWins(env: Environment, host: Option<string>, parse: Parser)
    requires NoProxy in env
    ensures ResolveProxy(env, host, parse) == ResolveProxy(env - {NoProxyUpper}, host, parse)
  {
    var env' := env - {NoProxyUpper};
    assert EnvFirst(env, HttpProxy, HttpProxyUpper) == EnvFirst(env', HttpProxy, HttpProxyUpper);
    assert EnvFirst(env, NoProxy, NoProxyUpper) == EnvFirst(env', NoProxy, NoProxyUpper);
    assert NoProxyHost(env, host) == NoProxyHost(env', host);
  }

  /** Without `http_proxy`, `HTTP_PROXY` acts exactly as `http_proxy` would. */
  lemma UpperCaseProxyFallback(env: Environment, host: Option<string>, parse: Parser)
    requires HttpProxy !in env && HttpProxyUpper in env
    ensures ResolveProxy(env, host, parse)
      == ResolveProxy((env - {HttpProxyUpper})[HttpProxy := env[HttpProxyUpper]], host, parse)
  {
    var env' := (env - {HttpProxyUpper})[HttpProxy := env[HttpProxyUpper]];
    assert EnvFirst(env, NoProxy, NoProxyUpper) == EnvFirst(env', NoProxy, NoProxyUpper);
  }

  /** The scenario of the source's first proxy test: `http_proxy` set to
      "http://cache.foo.co.uk:80" and no exclusion list. */
  lemma ProxyFromEnvironmentScenario(parse: Parser)
    requires parse("http://cache.foo.co.uk:80")
      == Some(Uri(Some("http"), Some("cache.foo.co.uk"), Some(80), Some(""), None, None))
    ensures ResolveProxy(map[HttpProxy := "http://cache.foo.co.uk:80"], Some("www.google.co.uk"), parse)
      == Ok(Some(ProxyTarget(Some("cache.foo.co.uk"), Some(80))))
  {
    var proxy := "http://cache.foo.co.uk:80";
    var parts := UriParts(Some("http"), Some("cache.foo.co.uk"), Some(80), "/", None, None);
    assert GetUriPartsFrom(parse, proxy) == Ok(parts);
    ProxyWithoutExclusionList(map[HttpProxy := proxy], Some("www.google.co.uk"), parse, proxy, parts);
  }

  /** The shape of the source's second proxy test (".google.co.uk" against
      "www.google.co.uk"): for a host ending in the one listed entry the proxy
      fields are left alone, whatever the proxy. */
  lemma ExcludedDomainScenario(parse: Parser, proxy: string, domain: string, sub: string)
    requires Trimmed(domain)
    ensures ResolveProxy(map[HttpProxy := proxy, NoProxy := domain], Some(sub + domain), parse) == Ok(None)
  {
    var env := map[HttpProxy := proxy, NoProxy := domain];
    SingleEntryList(env, domain);
    OccurringEntryExcludes(env, sub, 0, []);
    assert sub + domain + [] == sub + domain;
  }
}
