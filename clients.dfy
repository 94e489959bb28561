/** The client facade (`Client`): settings held across calls are written into
    each call's params, every call goes through a new request object of its
    verb, and the response is stored on the client, which is returned. */
module Clients {
  import opened Wrappers
  import opened Exceptions
  import opened Uris
  import opened ProxyResolution
  import opened Requests

  // ---------------------------------------------------------------------------
  // convert_api_to_hash

  /** The held setting that `convert_api_to_hash` writes under a key, if any. */
  function HeldValue(k: Key, cert: Option<Value>, headers: Option<Value>, body: Option<Value>)
    : Option<Value>
  {
    match k
    case SslClientCert => cert
    case Headers => headers
    case Body => body
    case Other(_) => None
  }

  /** The params after `convert_api_to_hash`: every held setting that is set
      overwrites its key; each other key keeps what the caller passed, present
      or absent. */
  function MergeHeld(m: Params, cert: Option<Value>, headers: Option<Value>, body: Option<Value>)
    : (r: Params)
    ensures forall k ::
              Lookup(r, k) == (if HeldValue(k, cert, headers, body).Some? then HeldValue(k, cert, headers, body) else Lookup(m, k))
  {
    var m1 := if cert.Some? then m[SslClientCert := cert.value] else m;
    var m2 := if headers.Some? then m1[Headers := headers.value] else m1;
    if body.Some? then m2[Body := body.value] else m2
  }

  /** The caller's params Hash, which `convert_api_to_hash` changes in place. */
  class ParamHash {
    var entries: Params

    constructor (entries: Params)
      ensures this.entries == entries
    {
      this.entries := entries;
    }
  }

  // ---------------------------------------------------------------------------
  // set_response_headers

  /** `@response_headers[h] = v` for each pair, first to last. */
  function ApplyHeaders(m: map<string, string>, hs: seq<(string, string)>): map<string, string>
    decreases |hs|
  {
    if hs == [] then m else ApplyHeaders(m[hs[0].0 := hs[0].1], hs[1..])
  }

  /** The value of the last pair with this name, searching from the end. */
  function LastValue(hs: seq<(string, string)>, name: string): Option<string>
    decreases |hs|
  {
    if hs == [] then None
    else if hs[|hs| - 1].0 == name then Some(hs[|hs| - 1].1)
    else LastValue(hs[..|hs| - 1], name)
  }

  lemma {:induction false} LastValueCons(h: (string, string), t: seq<(string, string)>, name: string)
    ensures LastValue([h] + t, name)
      == if LastValue(t, name).Some? then LastValue(t, name)
         else if h.0 == name then Some(h.1) else None
    decreases |t|
  {
    var s := [h] + t;
    if t == [] {
      assert s == [h];
      assert s[..0] == [];
    } else {
      assert s[|s| - 1] == t[|t| - 1];
      assert s[..|s| - 1] == [h] + t[..|t| - 1];
      LastValueCons(h, t[..|t| - 1], name);
    }
  }

  /** Last write wins: after the pairs are written, a name holds the value of
      its last pair; a name with no pair keeps what it had, present or absent. */
  lemma {:induction false} ApplyHeadersLastWins(m: map<string, string>, hs: seq<(string, string)>, name: string)
    ensures Lookup(ApplyHeaders(m, hs), name)
      == if LastValue(hs, name).Some? then LastValue(hs, name) else Lookup(m, name)
    decreases |hs|
  {
    if hs != [] {
      ApplyHeadersLastWins(m[hs[0].0 := hs[0].1], hs[1..], name);
      LastValueCons(hs[0], hs[1..], name);
      assert [hs[0]] + hs[1..] == hs;
    }
  }

  /** Writing the pairs of two responses one after the other is the same as
      writing all of them at once: nothing is cleared between calls. */
  lemma {:induction false} ApplyHeadersAccumulates(m: map<string, string>, a: seq<(string, string)>, b: seq<(string, string)>)
    ensures ApplyHeaders(ApplyHeaders(m, a), b) == ApplyHeaders(m, a + b)
    decreases |a|
  {
    if a != [] {
      ApplyHeadersAccumulates(m[a[0].0 := a[0].1], a[1..], b);
      assert (a + b)[0] == a[0];
      assert (a + b)[1..] == a[1..] + b;
    } else {
      assert a + b == b;
    }
  }

  /** After two calls, a header name that only the first response carried is
      still there with the first response's value. */
  lemma EarlierHeaderSurvives(m: map<string, string>, first: seq<(string, string)>,
                              second: seq<(string, string)>, name: string)
    requires LastValue(first, name).Some? && LastValue(second, name).None?
    ensures Lookup(ApplyHeaders(ApplyHeaders(m, first), second), name) == LastValue(first, name)
  {
    ApplyHeadersLastWins(ApplyHeaders(m, first), second, name);
    ApplyHeadersLastWins(m, first, name);
  }

  // ---------------------------------------------------------------------------
  // The client

  class Client {
    var response: Option<Response>
    var responseHeaders: map<string, string>
    var responseCode: Option<string>
    var responseBody: Option<string>
    var sslClientCert: Option<Value>
    var requestHeaders: Option<Value>
    var body: Option<Value>

    /** `initialize`: no response yet and an empty header map; the other
        attributes are nil. */
    constructor ()
      ensures response == None && responseHeaders == map[]
      ensures responseCode == None && responseBody == None
      ensures sslClientCert == None && requestHeaders == None && body == None
    {
      response := None;
      responseHeaders := map[];
      responseCode := None;
      responseBody := None;
      sslClientCert := None;
      requestHeaders := None;
      body := None;
    }

    /** `convert_api_to_hash(params)`: the held settings that are set are
        written into the caller's Hash; the client itself is unchanged. */
    method ConvertApiToHash(params: ParamHash)
      modifies params
      ensures params.entries == MergeHeld(old(params.entries), sslClientCert, requestHeaders, body)
    {
      if sslClientCert.Some? {
        params.entries := params.entries[SslClientCert := sslClientCert.value];
      }
      if requestHeaders.Some? {
        params.entries := params.entries[Headers := requestHeaders.value];
      }
      if body.Some? {
        params.entries := params.entries[Body := body.value];
      }
    }

    /** `set_response_headers`: each pair of the response is written into the
        header map, which is never cleared. */
    method SetResponseHeaders()
      requires response.Some?
      modifies this`responseHeaders
      ensures responseHeaders == ApplyHeaders(old(responseHeaders), response.value.headers)
    {
      var hs := response.value.headers;
      var i := 0;
      while i < |hs|
        invariant 0 <= i <= |hs|
        invariant ApplyHeaders(responseHeaders, hs[i..]) == ApplyHeaders(old(responseHeaders), hs)
      {
        assert hs[i..][1..] == hs[i + 1..];
        responseHeaders := responseHeaders[hs[i].0 := hs[i].1];
        i := i + 1;
      }
    }

    /** `store_response_data`: headers merged in, code and body overwritten. */
    method StoreResponseData()
      requires response.Some?
      modifies this`responseHeaders, this`responseCode, this`responseBody
      ensures responseHeaders == ApplyHeaders(old(responseHeaders), response.value.headers)
      ensures responseCode == Some(response.value.code)
      ensures responseBody == response.value.body
    {
      SetResponseHeaders();
      responseCode := Some(response.value.code);
      responseBody := response.value.body;
    }

    /** The effect of one call of verb `verb`: the params hold the merged
        settings (also when the call raises); the held settings stay; on an
        exception the response attributes stay as they were and the exception
        is passed on; on success the response is stored, its header pairs are
        written over the earlier ones, code and body are replaced, and the
        client itself is returned. */
    twostate predicate Called(verb: Verb, url: string, params: ParamHash, env: Environment,
                              parse: Parser, send: Transport, new r: Result<Client, Exception>)
      reads this, params
    {
      && params.entries == MergeHeld(old(params.entries), old(sslClientCert), old(requestHeaders), old(body))
      && sslClientCert == old(sslClientCert) && requestHeaders == old(requestHeaders) && body == old(body)
      && match ExecuteOutcome(verb, url, params.entries, env, parse, send, None, None)
         case Err(e) =>
           && r == Err(e)
           && response == old(response) && responseHeaders == old(responseHeaders)
           && responseCode == old(responseCode) && responseBody == old(responseBody)
         case Ok(resp) =>
           && r == Ok(this)
           && response == Some(resp)
           && responseHeaders == ApplyHeaders(old(responseHeaders), resp.headers)
           && responseCode == Some(resp.code)
           && responseBody == resp.body
    }

    /** `do_request(http, url, params)`, on a new request object of the verb. */
    method DoRequest(verb: Verb, url: string, params: ParamHash, env: Environment,
                     parse: Parser, send: Transport)
      returns (r: Result<Client, Exception>)
      modifies this, params
      ensures Called(verb, url, params, env, parse, send, r)
    {
      ConvertApiToHash(params);
      var http := new Request(verb);
      var outcome := http.Execute(url, params.entries, env, parse, send);
      if outcome.Err? {
        return Err(outcome.error);
      }
      response := Some(outcome.value);
      StoreResponseData();
      return Ok(this);
    }

    /** `get(url, params)` */
    method Get(url: string, params: ParamHash, env: Environment, parse: Parser, send: Transport)
      returns (r: Result<Client, Exception>)
      modifies this, params
      ensures Called(Verb.Get, url, params, env, parse, send, r)
    {
      r := DoRequest(Verb.Get, url, params, env, parse, send);
    }

    /** `post(url, params)` */
    method Post(url: string, params: ParamHash, env: Environment, parse: Parser, send: Transport)
      returns (r: Result<Client, Exception>)
      modifies this, params
      ensures Called(Verb.Post, url, params, env, parse, send, r)
    {
      r := DoRequest(Verb.Post, url, params, env, parse, send);
    }

    /** `put(url, params)` */
    method Put(url: string, params: ParamHash, env: Environment, parse: Parser, send: Transport)
      returns (r: Result<Client, Exception>)
      modifies this, params
      ensures Called(Verb.Put, url, params, env, parse, send, r)
    {
      r := DoRequest(Verb.Put, url, params, env, parse, send);
    }

    /** `delete(url, params)` */
    method Delete(url: string, params: ParamHash, env: Environment, parse: Parser, send: Transport)
      returns (r: Result<Client, Exception>)
      modifies this, params
      ensures Called(Verb.Delete, url, params, env, parse, send, r)
    {
      r := DoRequest(Verb.Delete, url, params, env, parse, send);
    }
  }

  /** The source's test of request headers set through the client's accessor:
      a GET with no proxy variables, against a transport that answers every
      request with status 200, one Cache-Control header and body "abc". The
      held headers reach the params and the request, and the client ends with
      exactly that one response header. */
  method HeadersThroughAccessor(url: string, parse: Parser, send: Transport, u: Uri)
    requires parse(url) == Some(u) && u.path.Some?
    requires forall c, req :: send(c, req) == Ok(Response("200", [("cache-control", "private")], Some("abc")))
  {
    var s := new Client();
    var held := Pairs([("X-Test1", "foo"), ("X-Test2", "bar")]);
    s.requestHeaders := Some(held);
    var params := new ParamHash(map[]);
    var r := s.Get(url, params, map[], parse, send);
    assert params.entries[Headers] == held;
    var sent := Outgoing(Verb.Get, url, params.entries, map[], parse, None, None);
    assert sent.Ok?;
    OutgoingRequestShape(Verb.Get, url, params.entries, map[], parse, None, None);
    assert sent.value.1.fields == held.pairs;
    assert r == Ok(s);
    assert s.responseHeaders == map["cache-control" := "private"];
    assert s.responseCode == Some("200") && s.responseBody == Some("abc");
  }

  /** Two calls on one client: the header map is never cleared, so a name only
      the first response carried is still there after the second call, a name
      both carried holds the second value, and code and body are the second
      response's. */
  method HeadersPersistAcrossCalls(url: string, parse: Parser, first: Transport, second: Transport, u: Uri)
    requires parse(url) == Some(u) && u.path.Some?
    requires forall c, req :: first(c, req) == Ok(Response("200", [("cache-control", "private"), ("etag", "a")], None))
    requires forall c, req :: second(c, req) == Ok(Response("404", [("etag", "b")], Some("gone")))
  {
    var s := new Client();
    var p1 := new ParamHash(map[]);
    var r1 := s.Get(url, p1, map[], parse, first);
    var p2 := new ParamHash(map[]);
    var r2 := s.Delete(url, p2, map[], parse, second);
    assert r2 == Ok(s);
    assert s.responseHeaders == map["cache-control" := "private", "etag" := "b"];
    assert s.responseCode == Some("404") && s.responseBody == Some("gone");
  }
}
