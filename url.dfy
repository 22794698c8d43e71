/**
 * The parts of a parsed `url::Url` the pipeline looks at. Parsing and percent-decoding
 * belong to the `url` crate and are not modelled: a value of this type is what the
 * parser produced, with the query already split into decoded (key, value) pairs and
 * the host as the parser normalised it (lower-cased for `http` and `https`).
 */
module Urls {
  import opened Wrappers

  datatype Url = Url(scheme: string, host: Option<string>, path: string, query: seq<(string, string)>)

  /** `key=value` pairs joined by `&`, in order. */
  function QueryText(query: seq<(string, string)>): (s: string)
    ensures query == [] <==> s == []
  {
    if query == [] then []
    else if |query| == 1 then query[0].0 + "=" + query[0].1
    else query[0].0 + "=" + query[0].1 + "&" + QueryText(query[1..])
  }

  /**
   * `Url::as_str` for a URL whose parts need no percent-encoding: scheme, `://`, host,
   * path and, when there is a query, `?` and the query text.
   */
  function Serialize(u: Url): string {
    u.scheme + "://" + (if u.host.Some? then u.host.value else "") + u.path
      + (if u.query == [] then "" else "?" + QueryText(u.query))
  }
}
