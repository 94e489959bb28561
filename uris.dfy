/** The URL parts a request is built from. Parsing itself belongs to Ruby's URI
    library: it is a parameter here, and only what `get_uri_parts_from` does
    with its result is modelled. */
module Uris {
  import opened Wrappers
  import opened Exceptions

  /** What URI.parse reports for a string; every component may be nil. */
  datatype Uri = Uri(
    scheme: Option<string>,
    host: Option<string>,
    port: Option<int>,
    path: Option<string>,
    query: Option<string>,
    fragment: Option<string>)

  /** URI.parse: the parsed URI, or None where it raises URI::InvalidURIError. */
  type Parser = string -> Option<Uri>

  /** The parts record of `get_uri_parts_from`; its path is a string. */
  datatype UriParts = UriParts(
    scheme: Option<string>,
    host: Option<string>,
    port: Option<int>,
    path: string,
    query: Option<string>,
    fragment: Option<string>)

  /** `get_uri_parts_from`: the components of the parsed URI, with an empty
      path replaced by "/". A nil path cannot answer `empty?` and raises. */
  function GetUriPartsFrom(parse: Parser, s: string): (r: Result<UriParts, Exception>)
    ensures parse(s).None? ==> r == Err(InvalidUri)
    ensures parse(s).Some? && parse(s).value.path.None? ==> r == Err(NilPath)
    ensures parse(s).Some? && parse(s).value.path.Some? ==>
      var u := parse(s).value;
      && r.Ok?
      && r.value.path != []
      && (u.path.value == [] ==> r.value.path == "/")
      && (u.path.value != [] ==> r.value.path == u.path.value)
      && (u.scheme, u.host, u.port, u.query, u.fragment)
         == (r.value.scheme, r.value.host, r.value.port, r.value.query, r.value.fragment)
  {
    match parse(s)
    case None => Err(InvalidUri)
    case Some(u) =>
      match u.path
      case None => Err(NilPath)
      case Some(p) =>
        Ok(UriParts(u.scheme, u.host, u.port, if p == [] then "/" else p, u.query, u.fragment))
  }
}
