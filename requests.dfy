/** One HTTP request (`Request` and its four verb subclasses): parse the URL,
    resolve the proxy, build the verb's request, attach the headers and hand
    everything to the transport. Net::HTTP is a parameter: a function from
    the connection settings and the built request to a response or an error. */
module Requests {
  import opened Wrappers
  import opened Exceptions
  import opened Uris
  import opened ProxyResolution

  /** The keys of the params Hash that the request reads; any other key is
      carried along untouched. */
  datatype Key = SslClientCert | Headers | Body | Other(name: string)

  /** A value in the params Hash: a String, or a Hash of string pairs kept in
      insertion order. */
  datatype Value = Text(text: string) | Pairs(pairs: seq<(string, string)>)

  type Params = map<Key, Value>

  /** The four subclasses of Request. The base class's `create_request`
      raises; no request of the base class is ever built by the client. */
  datatype Verb = Get | Post | Put | Delete

  /** The Net::HTTP request object: verb, request target, body, and the header
      fields this code adds, in the order it adds them. The default fields
      Net::HTTP sets when it builds a request are not among them. */
  datatype HttpRequest = HttpRequest(
    verb: Verb,
    target: string,
    body: Option<Value>,
    fields: seq<(string, string)>)

  /** What `get_connection` sets up: target host and port, the proxy host and
      port handed to `Net::HTTP::Proxy` (which names no proxy when the host is
      nil), whether TLS is on, and the client certificate path. */
  datatype Connection = Connection(
    host: Option<string>,
    port: Option<int>,
    proxyHost: Option<string>,
    proxyPort: Option<int>,
    useSsl: bool,
    clientCert: Option<Value>)

  /** A response: status code, header pairs in the order `each_header` yields
      them, and body (nil when there is none). */
  datatype Response = Response(code: string, headers: seq<(string, string)>, body: Option<string>)

  /** Net::HTTP's `connection.request`: a response, or the message of an error. */
  type Transport = (Connection, HttpRequest) -> Result<Response, string>

  // ---------------------------------------------------------------------------
  // create_request and add_headers

  /** `create_request` of each subclass: GET appends "?" and the query when the
      URL has one (an empty query included); POST and PUT carry the body as
      given; GET and DELETE drop it. */
  function CreateRequest(verb: Verb, parts: UriParts, body: Option<Value>): (r: HttpRequest)
    ensures r.verb == verb && r.fields == []
    ensures parts.path <= r.target
    ensures r.body == if verb == Post || verb == Put then body else None
  {
    match verb
    case Get =>
      var query := match parts.query case Some(q) => "?" + q case None => "";
      HttpRequest(Get, parts.path + query, None, [])
    case Post => HttpRequest(Post, parts.path, body, [])
    case Put => HttpRequest(Put, parts.path, body, [])
    case Delete => HttpRequest(Delete, parts.path, None, [])
  }

  /** A request target cut at its first '?': the path, and what follows the
      '?' when there is one. */
  function SplitTarget(t: string): (string, Option<string>)
  {
    if t == [] then ([], None)
    else if t[0] == '?' then ([], Some(t[1..]))
    else
      var (path, query) := SplitTarget(t[1..]);
      ([t[0]] + path, query)
  }

  lemma {:induction false} SplitAfterPath(path: string, rest: string)
    requires '?' !in path
    ensures SplitTarget(path + rest) == (path + SplitTarget(rest).0, SplitTarget(rest).1)
    decreases |path|
  {
    if path == [] {
      assert path + rest == rest;
      assert path + SplitTarget(rest).0 == SplitTarget(rest).0;
    } else {
      assert path[0] in path;
      assert (path + rest)[0] == path[0];
      assert (path + rest)[1..] == path[1..] + rest;
      SplitAfterPath(path[1..], rest);
      assert [path[0]] + (path[1..] + SplitTarget(rest).0) == path + SplitTarget(rest).0;
    }
  }

  /** The target of a built request gives back the URL's path and, for GET
      only, its query: nothing else is added and nothing is lost. URI paths
      never contain '?'. */
  lemma TargetRoundTrip(verb: Verb, parts: UriParts, body: Option<Value>)
    requires '?' !in parts.path
    ensures SplitTarget(CreateRequest(verb, parts, body).target)
      == (parts.path, if verb == Get then parts.query else None)
  {
    var r := CreateRequest(verb, parts, body);
    if verb == Get && parts.query.Some? {
      var q := parts.query.value;
      assert r.target == parts.path + ("?" + q);
      SplitAfterPath(parts.path, "?" + q);
      assert ("?" + q)[0] == '?' && ("?" + q)[1..] == q;
      assert SplitTarget("?" + q) == ([], Some(q));
      assert parts.path + [] == parts.path;
    } else {
      assert r.target == parts.path + [];
      SplitAfterPath(parts.path, []);
      assert parts.path + [] == parts.path;
    }
  }

  /** The request with the headers parameter applied (the specification of
      AddHeaders). */
  function WithHeaders(request: HttpRequest, headers: Option<Value>): Result<HttpRequest, Exception>
  {
    match headers
    case None => Ok(request)
    case Some(Text(_)) => Err(HeadersNotEnumerable)
    case Some(Pairs(hs)) => Ok(request.(fields := request.fields + hs))
  }

  /** `add_headers`: every header pair is added to the request, in order, after
      the fields it already has; a repeated name is added again, not
      overwritten. A nil headers parameter adds nothing; a String cannot be
      iterated and raises. */
  method AddHeaders(request: HttpRequest, headers: Option<Value>) returns (r: Result<HttpRequest, Exception>)
    ensures headers.None? ==> r == Ok(request)
    ensures headers.Some? && headers.value.Text? ==> r == Err(HeadersNotEnumerable)
    ensures headers.Some? && headers.value.Pairs? ==>
      && r.Ok?
      && r.value.fields == request.fields + headers.value.pairs
      && r.value.(fields := request.fields) == request
    ensures r == WithHeaders(request, headers)
  {
    if headers.None? {
      return Ok(request);
    }
    match headers.value
    case Text(_) =>
      return Err(HeadersNotEnumerable);
    case Pairs(hs) =>
      var req := request;
      var i := 0;
      while i < |hs|
        invariant 0 <= i <= |hs|
        invariant req == request.(fields := request.fields + hs[..i])
      {
        assert hs[..i + 1] == hs[..i] + [hs[i]];
        req := req.(fields := req.fields + [hs[i]]);
        i := i + 1;
      }
      assert hs[..|hs|] == hs;
      return Ok(req);
  }

  // ---------------------------------------------------------------------------
  // The whole request, as functions of its inputs

  /** `get_connection`/`configure_ssl`: TLS is on exactly for the scheme
      "https"; the client certificate parameter is passed on. */
  function Connect(parts: UriParts, proxyHost: Option<string>, proxyPort: Option<int>, params: Params)
    : Connection
  {
    Connection(parts.host, parts.port, proxyHost, proxyPort,
               parts.scheme == Some("https"), Lookup(params, SslClientCert))
  }

  /** `prepare_connection` for a request whose proxy fields hold `proxyHost0`
      and `proxyPort0` beforehand: the parsed URL parts and the connection, or
      the exception raised on the way. */
  function Prepared(url: string, params: Params, env: Environment, parse: Parser,
                    proxyHost0: Option<string>, proxyPort0: Option<int>)
    : Result<(UriParts, Connection), Exception>
  {
    match GetUriPartsFrom(parse, url)
    case Err(e) => Err(e)
    case Ok(parts) =>
      match ResolveProxy(env, parts.host, parse)
      case Err(e) => Err(e)
      case Ok(None) => Ok((parts, Connect(parts, proxyHost0, proxyPort0, params)))
      case Ok(Some(t)) => Ok((parts, Connect(parts, t.host, t.port, params)))
  }

  /** What is handed to the transport: the connection and the finished request. */
  function Outgoing(verb: Verb, url: string, params: Params, env: Environment, parse: Parser,
                    proxyHost0: Option<string>, proxyPort0: Option<int>)
    : Result<(Connection, HttpRequest), Exception>
  {
    match Prepared(url, params, env, parse, proxyHost0, proxyPort0)
    case Err(e) => Err(e)
    case Ok((parts, conn)) =>
      match WithHeaders(CreateRequest(verb, parts, Lookup(params, Body)), Lookup(params, Headers))
      case Err(e) => Err(e)
      case Ok(req) => Ok((conn, req))
  }

  /** `request(url, params)`: the transport's response, or the exception. */
  function ExecuteOutcome(verb: Verb, url: string, params: Params, env: Environment, parse: Parser,
                          send: Transport, proxyHost0: Option<string>, proxyPort0: Option<int>)
    : Result<Response, Exception>
  {
    match Outgoing(verb, url, params, env, parse, proxyHost0, proxyPort0)
    case Err(e) => Err(e)
    case Ok((conn, req)) =>
      match send(conn, req)
      case Ok(resp) => Ok(resp)
      case Err(message) => Err(Transport(message))
  }

  // ---------------------------------------------------------------------------
  // Properties of the whole request

  /** A built request is sent to the URL's host and port, with TLS exactly for
      https, the certificate parameter, and the proxy `set_proxy` decided (or
      the proxy fields as they were, when it decided none); its target holds
      the URL's path (never empty), the body goes only with POST and PUT, and
      the fields are the caller's header pairs in order. */
  lemma OutgoingRequestShape(verb: Verb, url: string, params: Params, env: Environment, parse: Parser,
                             ph0: Option<string>, pp0: Option<int>)
    requires Outgoing(verb, url, params, env, parse, ph0, pp0).Ok?
    ensures var (conn, req) := Outgoing(verb, url, params, env, parse, ph0, pp0).value;
      var parts := GetUriPartsFrom(parse, url).value;
      && GetUriPartsFrom(parse, url).Ok?
      && conn.host == parts.host && conn.port == parts.port
      && (conn.useSsl <==> parts.scheme == Some("https"))
      && conn.clientCert == Lookup(params, SslClientCert)
      && var rp := ResolveProxy(env, parts.host, parse);
      && rp.Ok?
      && (rp.value.None? ==> conn.proxyHost == ph0 && conn.proxyPort == pp0)
      && (rp.value.Some? ==> conn.proxyHost == rp.value.value.host && conn.proxyPort == rp.value.value.port)
      && req.verb == verb
      && req.target != [] && parts.path <= req.target
      && req.body == (if verb == Post || verb == Put then Lookup(params, Body) else None)
      && (Headers in params ==> params[Headers].Pairs? && req.fields == params[Headers].pairs)
      && (Headers !in params ==> req.fields == [])
  {
  }

  /** Nothing reaches the transport when the headers parameter is a String:
      the call raises before sending. */
  lemma TextHeadersNeverSent(verb: Verb, url: string, params: Params, env: Environment, parse: Parser,
                             ph0: Option<string>, pp0: Option<int>)
    requires Headers in params && params[Headers].Text?
    ensures Outgoing(verb, url, params, env, parse, ph0, pp0).Err?
  {
  }

  /** On a new request, a host the exclusion list matches gets a connection
      that names no proxy, whatever the proxy variables. */
  lemma ExcludedHostNamesNoProxy(url: string, params: Params, env: Environment, parse: Parser,
                                     parts: UriParts, h: string)
    requires GetUriPartsFrom(parse, url) == Ok(parts) && parts.host == Some(h)
    requires exists i :: 0 <= i < |ExclusionList(env)| && RubyStrings.Occurs(ExclusionList(env)[i], h)
    ensures Prepared(url, params, env, parse, None, None) == Ok((parts, Connect(parts, None, None, params)))
  {
    ExcludedExactlyWhenSomeEntryOccurs(env, h);
  }

  // ---------------------------------------------------------------------------
  // The request object

  /** A request of one verb. `parts` is nil until `prepare_connection`; the
      proxy fields are nil until `set_proxy` assigns them. */
  class Request {
    const verb: Verb
    var parts: Option<UriParts>
    var proxyHost: Option<string>
    var proxyPort: Option<int>

    constructor (verb: Verb)
      ensures this.verb == verb
      ensures parts == None && proxyHost == None && proxyPort == None
    {
      this.verb := verb;
      parts := None;
      proxyHost := None;
      proxyPort := None;
    }

    /** `set_proxy`: assigns the proxy fields from the proxy URL when a proxy
        variable is set and the host is not excluded; otherwise leaves them as
        they were. An exception leaves them as they were too. */
    method SetProxy(env: Environment, parse: Parser) returns (o: Outcome<Exception>)
      requires parts.Some?
      modifies this
      ensures parts == old(parts)
      ensures match ResolveProxy(env, parts.value.host, parse)
        case Err(e) => o == Fail(e) && proxyHost == old(proxyHost) && proxyPort == old(proxyPort)
        case Ok(None) => o == Pass && proxyHost == old(proxyHost) && proxyPort == old(proxyPort)
        case Ok(Some(t)) => o == Pass && proxyHost == t.host && proxyPort == t.port
    {
      var proxy := EnvFirst(env, HttpProxy, HttpProxyUpper);
      if proxy.Some? {
        var excluded := NoProxyHost(env, parts.value.host);
        if excluded.Err? {
          return Fail(excluded.error);
        }
        if !excluded.value {
          var proxyParts := GetUriPartsFrom(parse, proxy.value);
          if proxyParts.Err? {
            return Fail(proxyParts.error);
          }
          proxyHost := proxyParts.value.host;
          proxyPort := proxyParts.value.port;
        }
      }
      return Pass;
    }

    /** `prepare_connection`: stores the URL's parts, resolves the proxy and
        returns the connection. A URL that does not parse leaves every field as
        it was; an exception in `set_proxy` leaves the new parts stored. */
    method PrepareConnection(url: string, params: Params, env: Environment, parse: Parser)
      returns (r: Result<Connection, Exception>)
      modifies this
      ensures var p := Prepared(url, params, env, parse, old(proxyHost), old(proxyPort));
        && (p.Ok? ==> r == Ok(p.value.1) && parts == Some(p.value.0)
                      && proxyHost == r.value.proxyHost && proxyPort == r.value.proxyPort)
        && (p.Err? ==> r == Err(p.error) && proxyHost == old(proxyHost) && proxyPort == old(proxyPort))
      ensures GetUriPartsFrom(parse, url).Err? ==> parts == old(parts)
      ensures GetUriPartsFrom(parse, url).Ok? ==> parts == Some(GetUriPartsFrom(parse, url).value)
    {
      var p := GetUriPartsFrom(parse, url);
      if p.Err? {
        return Err(p.error);
      }
      parts := Some(p.value);
      var o := SetProxy(env, parse);
      if o.Fail? {
        return Err(o.error);
      }
      r := Ok(Connect(p.value, proxyHost, proxyPort, params));
    }

    /** `request(url, params)`: prepare the connection, build the verb's
        request with the body parameter, add the headers parameter, send. */
    method Execute(url: string, params: Params, env: Environment, parse: Parser, send: Transport)
      returns (r: Result<Response, Exception>)
      modifies this
      ensures r == ExecuteOutcome(verb, url, params, env, parse, send, old(proxyHost), old(proxyPort))
      ensures var p := Prepared(url, params, env, parse, old(proxyHost), old(proxyPort));
        && (p.Ok? ==> parts == Some(p.value.0)
                      && proxyHost == p.value.1.proxyHost && proxyPort == p.value.1.proxyPort)
        && (p.Err? ==> proxyHost == old(proxyHost) && proxyPort == old(proxyPort))
      ensures GetUriPartsFrom(parse, url).Err? ==> parts == old(parts)
      ensures GetUriPartsFrom(parse, url).Ok? ==> parts == Some(GetUriPartsFrom(parse, url).value)
    {
      var connection := PrepareConnection(url, params, env, parse);
      if connection.Err? {
        return Err(connection.error);
      }
      var request := CreateRequest(verb, parts.value, Lookup(params, Body));
      var withHeaders := AddHeaders(request, Lookup(params, Headers));
      if withHeaders.Err? {
        return Err(withHeaders.error);
      }
      var response := send(connection.value, withHeaders.value);
      r := if response.Ok? then Ok(response.value) else Err(Transport(response.error));
    }
  }

  /** The source's first proxy test, run on a new request object: with
      `http_proxy` set to "http://cache.foo.co.uk:80", preparing a connection
      to "http://www.google.co.uk" stores the proxy host "cache.foo.co.uk" and
      port 80. */
  method ProxyIsSetWithoutNoProxy(parse: Parser)
    requires parse("http://cache.foo.co.uk:80")
      == Some(Uri(Some("http"), Some("cache.foo.co.uk"), Some(80), Some(""), None, None))
    requires parse("http://www.google.co.uk")
      == Some(Uri(Some("http"), Some("www.google.co.uk"), Some(80), Some(""), None, None))
  {
    var r := new Request(Get);
    var env := map[HttpProxy := "http://cache.foo.co.uk:80"];
    ProxyFromEnvironmentScenario(parse);
    var connection := r.PrepareConnection("http://www.google.co.uk", map[], env, parse);
    assert r.proxyHost == Some("cache.foo.co.uk");
    assert r.proxyPort == Some(80);
    assert r.parts.value.path == "/";
  }
}
