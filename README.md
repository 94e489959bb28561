# simple-client, modelled in Dafny

`SimpleClient` is a small Ruby wrapper around Net::HTTP. A `Client` holds three
settings that persist across calls: a client certificate path, request headers
and a body. Each of `get`, `post`, `put` and `delete` does the following:

- writes the held settings into the caller's params Hash;
- builds a fresh request object of that verb;
- collects the response, its code and its body, merging the response headers
  into a map that lives as long as the client.

A request object does four things:

- parses the URL and replaces an empty path with "/";
- decides on a proxy from `http_proxy`/`HTTP_PROXY`, unless a
  `no_proxy`/`NO_PROXY` entry occurs in the target host;
- builds the verb's request target and body, and adds the header pairs;
- hands the request to Net::HTTP.

The project models `lib/simple-client/simple-client.rb` in seven modules:

- `Wrappers` holds Option, Result and Outcome, and Hash lookup.
- `Exceptions` lists what the code raises.
- `RubyStrings` holds the `split`, `strip` and `include?` that the exclusion
  test is built from, with their properties.
- `Uris` holds the parsed URI and `get_uri_parts_from`.
- `ProxyResolution` holds the environment lookups, `no_proxy_host?` and the
  decision `set_proxy` takes.
- `Requests` holds `create_request` for the four verbs, `add_headers`, and a
  `Request` class whose methods assign its parts and proxy fields.
- `Clients` holds the `Client` class for the client's bookkeeping, and the
  caller's params Hash as a class of its own, because `convert_api_to_hash`
  changes it in place.

URI.parse is a parameter: a function from a string to the parsed components,
or to None where it raises. The Net::HTTP transport is a parameter too: a
function from the connection settings and the built request to a response or
an error message. The process environment is a map parameter. The `request`
pipeline, as a value, is `Requests.ExecuteOutcome`. `Request.Execute` is proved
equal to it. `Client.DoRequest` is proved to store its result as
`Client.Called` describes.

Four behaviours of the code are worth knowing:

- **The empty string counts.** A variable set to the empty string still takes
  precedence: `ENV['http_proxy'] || ENV['HTTP_PROXY']` tests for nil only. So
  "first non-empty wins" is not what the code does, and the model follows the
  code.
- **Response headers are never reset.** The map is created once, in
  `initialize`. Names from earlier calls survive, and a later value for the
  same name overwrites the earlier one.
- **A failed call keeps the stale response.** When a call raises, the earlier
  response, headers, code and body stay. The params Hash has already received
  the held settings by then.
- **A blank entry excludes everything.** A `no_proxy` entry made only of
  whitespace (as in "localhost, ") strips to "". Every host contains "", so
  with such an entry `set_proxy` names no proxy for any request whose URL has
  a host. An empty entry (as in ",foo" or "a,,b") does the same. A URL without
  a host makes `include?` raise instead, as soon as the list has an entry.

## Model

| member | source | states |
|---|---|---|
| RubyStrings.Split | lib/simple-client/simple-client.rb:154 | `split(',')`: the fields without the trailing empty ones; its meaning is stated by `JoinFields`, `FieldsJoin`, `FieldsAreSeparatorFree`, `DropTrailingEmptyDropsOnlyEmpty` and `SplitOfSeparatorsIsEmpty` |
| RubyStrings.SplitOfSeparatorsIsEmpty | lib/simple-client/simple-client.rb:154 | a string made only of separators, the empty string included, splits into no fields |
| RubyStrings.FieldsOfSeparators | lib/simple-client/simple-client.rb:154 | every field of a string made only of separators is empty |
| RubyStrings.LStrip | lib/simple-client/simple-client.rb:155 | `lstrip`; stated by `LStripRemovesLeadingSpace` and `LStripPadded` |
| RubyStrings.RStrip | lib/simple-client/simple-client.rb:155 | `rstrip`; stated by `RStripRemovesTrailingSpace` and `RStripPadded` |
| RubyStrings.Strip | lib/simple-client/simple-client.rb:155 | `strip!` as `rstrip` after `lstrip`; stated by `StripPadded` and `BlankStripsToEmpty` |
| RubyStrings.Includes | lib/simple-client/simple-client.rb:156 | `include?`; stated by `IncludesIff` against the independent `Occurs` |
| RubyStrings.Fields | lib/simple-client/simple-client.rb:154 | splitting yields at least one field (possibly empty) |
| RubyStrings.FieldsAreSeparatorFree | lib/simple-client/simple-client.rb:154 | no field produced by splitting on ',' contains a ',' |
| RubyStrings.DropTrailingEmptyDropsOnlyEmpty | lib/simple-client/simple-client.rb:154 | `split` drops only empty fields, only at the end, and leaves a list that is empty or ends in a non-empty field |
| RubyStrings.JoinFields | lib/simple-client/simple-client.rb:154 | the fields of a string, joined with the separator, give the string back |
| RubyStrings.FieldsOfPrefix | lib/simple-client/simple-client.rb:154 | a separator-free prefix becomes part of the first field |
| RubyStrings.FieldsJoin | lib/simple-client/simple-client.rb:154 | splitting separator-free fields joined with the separator gives exactly those fields back |
| RubyStrings.LStripRemovesLeadingSpace | lib/simple-client/simple-client.rb:155 | `lstrip` keeps a suffix, removes only whitespace, and stops at a non-whitespace character |
| RubyStrings.RStripRemovesTrailingSpace | lib/simple-client/simple-client.rb:155 | `rstrip` keeps a prefix, removes only whitespace, and stops at a non-whitespace character |
| RubyStrings.LStripPadded | lib/simple-client/simple-client.rb:155 | `lstrip` of whitespace followed by a string that starts with non-whitespace is that string |
| RubyStrings.RStripPadded | lib/simple-client/simple-client.rb:155 | `rstrip` of a string that ends in non-whitespace, followed by whitespace, is that string |
| RubyStrings.StripPadded | lib/simple-client/simple-client.rb:155 | `strip` of any whitespace padding around a trimmed string is that string (uniqueness and idempotence of strip) |
| RubyStrings.BlankStripsToEmpty | lib/simple-client/simple-client.rb:155 | a whitespace-only entry strips to "" |
| RubyStrings.IncludesIff | lib/simple-client/simple-client.rb:156 | `include?` holds exactly when the needle occurs in the string at some offset |
| Uris.GetUriPartsFrom | lib/simple-client/simple-client.rb:177-184 | a URL that does not parse raises; a nil path raises; otherwise the path is never empty, an empty path becomes "/", a non-empty path is kept, and every other component is copied |
| ProxyResolution.EnvFirst | lib/simple-client/simple-client.rb:142 | the lower-case variable is used whenever it is present, even when empty; the upper-case one only when it is absent |
| ProxyResolution.NoProxyEntries | lib/simple-client/simple-client.rb:154-155 | the value split on commas, each entry stripped; stated by `ListOfJoinedEntries`, `SingleEntryList` and `EmptyListExcludesNothing` |
| ProxyResolution.ExclusionList | lib/simple-client/simple-client.rb:151-155 | the entries of `no_proxy`, falling back to `NO_PROXY`, and none when both are absent; stated by `ListOfJoinedEntries` and `LowerCaseNoProxyWins` |
| ProxyResolution.Matches | lib/simple-client/simple-client.rb:156 | `include?` of each entry in the host, in list order; stated through `ExcludedExactlyWhenSomeEntryOccurs` |
| ProxyResolution.ResolveProxy | lib/simple-client/simple-client.rb:141-148 | the decision `set_proxy` takes: no proxy variable leaves the fields; otherwise the exclusion test runs first, and a nil host with a non-empty list raises there; an excluded host leaves the fields; otherwise the proxy URL is parsed, raising its parse error or naming its host and port; stated by `NoProxyVariableLeavesFields`, `NilHostRaises`, `ProxyAssignedUnlessExcluded` and `ProxyWithoutExclusionList`, with precedence by `LowerCaseProxyWins`, `LowerCaseNoProxyWins` and `UpperCaseProxyFallback` |
| ProxyResolution.NoProxyHost | lib/simple-client/simple-client.rb:150-159 | an empty exclusion list excludes nothing, even for a nil host; a nil host with a non-empty list raises; a present host never raises |
| ProxyResolution.ExcludedExactlyWhenSomeEntryOccurs | lib/simple-client/simple-client.rb:150-159 | a host is excluded if and only if some stripped entry of the list occurs in it as a substring |
| ProxyResolution.ListOfJoinedEntries | lib/simple-client/simple-client.rb:151-155 | for a variable whose value is comma-joined fields ending in a non-empty field, the list holds each field, stripped, in order |
| ProxyResolution.SingleEntryList | lib/simple-client/simple-client.rb:154-155 | a value that is one trimmed, comma-free entry is a list of that one entry |
| ProxyResolution.OccurringEntryExcludes | lib/simple-client/simple-client.rb:156-158 | any entry, at any position in the list, excludes every host that contains it |
| ProxyResolution.SubstringNotSuffix | lib/simple-client/simple-client.rb:156 | the match is substring containment, not a domain-suffix match: "foo" excludes any host containing "foo" |
| ProxyResolution.BlankEntryExcludesEveryHost | lib/simple-client/simple-client.rb:154-158 | "localhost, " excludes every present host, because its blank second entry strips to "" |
| ProxyResolution.EmptyEntryExcludesEveryHost | lib/simple-client/simple-client.rb:154-158 | "a,,b" excludes every present host, because its empty middle entry is contained in every string |
| ProxyResolution.EmptyListExcludesNothing | lib/simple-client/simple-client.rb:152-158 | a no_proxy value that is empty or made only of commas yields no entries and excludes nothing, even for a nil host |
| ProxyResolution.LaterEntryExcludes | test/test_simple-client.rb:33-40 | with "first, second, host" as no_proxy, the host matching the third, space-padded entry is excluded |
| ProxyResolution.NoProxyVariableLeavesFields | lib/simple-client/simple-client.rb:141-148 | with neither proxy variable set, the proxy fields are left alone and the host is not examined |
| ProxyResolution.ProxyWithoutExclusionList | lib/simple-client/simple-client.rb:141-147 | with a proxy set and no no_proxy variable, the proxy URL's host and port are used |
| ProxyResolution.ProxyAssignedUnlessExcluded | lib/simple-client/simple-client.rb:143-147 | with a proxy set and a present host, the proxy fields are left alone exactly when some entry occurs in the host; otherwise the proxy URL's host and port are assigned, or its parse error is raised |
| ProxyResolution.NilHostRaises | lib/simple-client/simple-client.rb:143-156 | with a proxy set and a non-empty exclusion list, a URL without a host raises NilHost (`include?` on nil) |
| ProxyResolution.LowerCaseProxyWins | lib/simple-client/simple-client.rb:142 | when `http_proxy` is present, removing `HTTP_PROXY` changes nothing |
| ProxyResolution.LowerCaseNoProxyWins | lib/simple-client/simple-client.rb:151 | when `no_proxy` is present, removing `NO_PROXY` changes nothing |
| ProxyResolution.UpperCaseProxyFallback | lib/simple-client/simple-client.rb:142 | when `http_proxy` is absent, `HTTP_PROXY` decides exactly as `http_proxy` would |
| ProxyResolution.ProxyFromEnvironmentScenario | test/test_simple-client.rb:16-22 | `http_proxy` set to "http://cache.foo.co.uk:80" gives proxy host "cache.foo.co.uk" and port 80 |
| ProxyResolution.ExcludedDomainScenario | test/test_simple-client.rb:24-31 | for a host ending in the single listed domain the proxy fields are left alone, whatever the proxy |
| Requests.WithHeaders | lib/simple-client/simple-client.rb:135-139 | the request with the headers parameter applied, or the exception for a String; `AddHeaders` is proved equal to it |
| Requests.Connect | lib/simple-client/simple-client.rb:161-168 | the connection `get_connection` sets up: the URL's host and port, the given proxy fields, TLS exactly for https, the certificate parameter; stated by `OutgoingRequestShape`, which ties the proxy fields to the `set_proxy` decision |
| Requests.Prepared | lib/simple-client/simple-client.rb:119-123 | `prepare_connection` as a value: the parsed parts and connection, or the exception; `PrepareConnection` is proved against it, and `ExcludedHostNamesNoProxy` states it for excluded hosts |
| Requests.Outgoing | lib/simple-client/simple-client.rb:111-128 | the connection and finished request handed to the transport; stated by `OutgoingRequestShape` and `TextHeadersNeverSent` |
| Requests.ExecuteOutcome | lib/simple-client/simple-client.rb:111-128 | `request(url, params)` as a value: the transport's response or the first exception; `Execute` is proved equal to it |
| Requests.CreateRequest | lib/simple-client/simple-client.rb:192-226 | the request has the verb, none of the fields this code adds yet, and a target that starts with the path; the body is carried only by POST and PUT |
| Requests.SplitAfterPath | lib/simple-client/simple-client.rb:193-194 | cutting a path plus a suffix at the first '?' cuts inside the suffix |
| Requests.TargetRoundTrip | lib/simple-client/simple-client.rb:192-226 | cutting the target at its first '?' gives back the path and, for GET only, the query (an empty query included) |
| Requests.AddHeaders | lib/simple-client/simple-client.rb:135-139 | nil headers add nothing; String headers raise; header pairs are appended in order after the existing fields, and nothing else changes |
| Requests.OutgoingRequestShape | lib/simple-client/simple-client.rb:111-128 | a sent request goes to the URL's host and port, with TLS exactly for https, the certificate parameter, and the proxy `set_proxy` decided (the earlier proxy fields when it decided none); its target is non-empty and starts with the path, the body goes only with POST and PUT, and its added fields are exactly the caller's header pairs |
| Requests.TextHeadersNeverSent | lib/simple-client/simple-client.rb:125-128 | with a String headers parameter nothing reaches the transport |
| Requests.ExcludedHostNamesNoProxy | lib/simple-client/simple-client.rb:119-123 | on a new request, an excluded host gets a connection whose proxy host and port are nil |
| Requests.Request.constructor | lib/simple-client/simple-client.rb:98-101 | parts are unset, and proxy host and port are nil |
| Requests.Request.SetProxy | lib/simple-client/simple-client.rb:141-148 | the proxy fields are assigned from the proxy URL exactly when the decision names a proxy, and are left unchanged when there is none or when an exception is raised |
| Requests.Request.PrepareConnection | lib/simple-client/simple-client.rb:119-123 | parts are stored once the URL parses; the connection uses the proxy fields as they stand after `set_proxy`; exceptions leave the proxy fields unchanged |
| Requests.Request.Execute | lib/simple-client/simple-client.rb:111-123 | the result is the transport's response to the built request, or the first exception raised on the way; parts and proxy fields end as `prepare_connection` leaves them (parts stored once the URL parses, proxy fields as the connection names them, unchanged on an exception) |
| Requests.ProxyIsSetWithoutNoProxy | test/test_simple-client.rb:16-22 | on a new request object, preparing a connection with `http_proxy` set stores proxy host "cache.foo.co.uk", port 80 and path "/" |
| Clients.ParamHash.constructor | lib/simple-client/simple-client.rb:88 | the caller's params Hash, holding the given entries, as an object `convert_api_to_hash` can change in place |
| Clients.MergeHeld | lib/simple-client/simple-client.rb:88-92 | every held setting that is set overwrites its key; every other key keeps the caller's value, present or absent |
| Clients.ApplyHeaders | lib/simple-client/simple-client.rb:82-86 | the header map after each pair is written, first to last; stated by `ApplyHeadersLastWins` against the independent `LastValue`, and by `ApplyHeadersAccumulates` |
| Clients.LastValueCons | lib/simple-client/simple-client.rb:83-85 | a name's last value in `[h] + t` is its last value in `t` if it has one, and otherwise `h`'s value if `h` has that name |
| Clients.ApplyHeadersLastWins | lib/simple-client/simple-client.rb:82-86 | after the pairs are written, a name holds its last value in the response, or keeps its earlier entry (or absence) if the response lacks it |
| Clients.ApplyHeadersAccumulates | lib/simple-client/simple-client.rb:82-86 | writing two responses' pairs in turn equals writing them all at once: nothing is cleared between calls |
| Clients.EarlierHeaderSurvives | lib/simple-client/simple-client.rb:82-86 | a name only the first of two responses carried keeps the first response's value |
| Clients.Client.constructor | lib/simple-client/simple-client.rb:10-13 | no response yet, an empty header map, and every other attribute nil |
| Clients.Client.ConvertApiToHash | lib/simple-client/simple-client.rb:88-92 | the caller's Hash becomes the held settings merged over it, and only the Hash changes |
| Clients.Client.SetResponseHeaders | lib/simple-client/simple-client.rb:82-86 | the header map is the old map with every response pair written in order |
| Clients.Client.StoreResponseData | lib/simple-client/simple-client.rb:76-80 | headers are merged in, and code and body are replaced with the response's |
| Clients.Client.Called | lib/simple-client/simple-client.rb:69-80 | the effect of one call: params merged, held settings kept, and on success the response stored, headers merged, code and body replaced and the client returned; on an exception the response fields unchanged |
| Clients.Client.DoRequest | lib/simple-client/simple-client.rb:69-74 | the params receive the held settings; on success the response is stored, headers are merged, code and body are replaced, and the client itself is returned; on an exception those fields are unchanged and the exception is passed on |
| Clients.Client.Get | lib/simple-client/simple-client.rb:23-26 | `DoRequest` with a fresh GET request |
| Clients.Client.Post | lib/simple-client/simple-client.rb:36-39 | `DoRequest` with a fresh POST request |
| Clients.Client.Put | lib/simple-client/simple-client.rb:49-52 | `DoRequest` with a fresh PUT request |
| Clients.Client.Delete | lib/simple-client/simple-client.rb:62-65 | `DoRequest` with a fresh DELETE request |
| Clients.HeadersThroughAccessor | test/test_simple-client.rb:103-119 | request headers set through the accessor reach the params and, in order, the request handed to the transport, and the client ends with exactly the one response header, code 200 and body "abc" |
| Clients.HeadersPersistAcrossCalls | lib/simple-client/simple-client.rb:12 | after two calls, the headers of the first response survive unless the second overwrites them; code and body are the second response's |

## Left out

- Net::HTTP (`Net::HTTP::Proxy(...).new`, `connection.request`, `add_field`) is a transport parameter. Its networking, its header handling on the wire, the default fields it puts on every new request (such as Accept and User-Agent) and its lower-casing of response header names are not modelled: a request's `fields` hold only the pairs this code adds. A response is taken as the header pairs `each_header` yields.
- Net::HTTP's own proxy lookup is not modelled. When `set_proxy` leaves the proxy host nil, `Net::HTTP::Proxy(nil, nil)` is plain Net::HTTP, which may still take a proxy from `http_proxy` and apply its own `no_proxy` rule. So "names no proxy" in this model is about what simple-client hands over, not the route the request finally takes.
- URI.parse is a parser parameter. Its grammar and its choice of default ports belong to Ruby's URI library.
- The process environment is a map parameter. The environment changing while a call is running is not modelled.
- Requests.Connect: `configure_ssl` reads the certificate file and builds an OpenSSL certificate and RSA key from it, which is file I/O and foreign crypto. The model records only whether TLS is on and the certificate parameter that is passed on. `verify_mode` is not recorded.
- Requests.ExecuteOutcome: errors from reading or parsing the certificate happen inside `prepare_connection` in the source, before `add_headers`. The model folds them into the transport's error, which comes after `add_headers`. So when both a bad certificate and String headers occur, the model reports the headers error instead.
- Form-encoding of a Hash body is not done by this code: a POST or PUT body, a Hash included, is passed on as given.
- The base class's `create_request`, which raises "Not supported in base class", has no counterpart. The four request classes are a `Verb`, and every Client call builds one of them.
- Ruby's `false` is not modelled: a held setting or a params value is either nil (`None`) or a value. The source treats `false` like nil in every such test.
- A headers Hash is a sequence of pairs in insertion order. A Ruby Hash cannot repeat a key, but the sequence may; the model keeps repeated pairs.
- Values that are neither a String nor a Hash of strings (for example a Hash body with non-string values) are not modelled.
- `test/live_test.rb` makes live network calls, and is not part of this model.
