/**
 * The library's error taxonomy (`Error`, `SearchingFor`), its two helper constructors,
 * its `Display` text, its `source()` chain and the conversion from a `reqwest::Error`.
 *
 * The foreign errors are opaque: a `url::ParseError` is known only by its display text,
 * a `reqwest::Error` by its display text and the URL it was fetching, if any.
 */
module Errors {
  import opened Wrappers

  /** A `url::ParseError`, known by the text it displays. */
  datatype ParseError = ParseError(text: string)

  /** A `reqwest::Error`: the text it displays and what its `url()` returns. */
  datatype RequestError = RequestError(text: string, url: Option<string>)

  /** The tournament data that can fail to be found. */
  datatype SearchingFor = ID

  datatype Error =
    | UrlConversion(invalidUrl: string, source: ParseError)
    | UnsupportedHost(host: string)
    | HtmlParseFailed(searchingFor: SearchingFor)
    | HttpRequest(request: RequestError)

  /** What `source()` can return: the wrapped foreign error. */
  datatype Source = ParseSource(parse: ParseError) | RequestSource(request: RequestError)

  // Written in two pieces only so that the verifier can index into it.
  const UNSUPPORTED_HOST_PREFIX: string := "we don't currently " + "scrape that tournament host: "
  const PARSE_FAILED_PREFIX: string := "unable to find the tournament's "
  const NO_URL_FOUND: string := "internal error: no url found"
  const CONVERT_LEAD: string := "unable to convert "
  const CONVERT_MIDDLE: string := " to a url: "
  const SCRAPE_LEAD: string := "unable to scrape url '"
  const SCRAPE_MIDDLE: string := "': "

  /** `Display for SearchingFor`: what could not be found is named by its variant's own name. */
  function SearchingForText(s: SearchingFor): (t: string)
    ensures s == ID ==> t == "ID"
  {
    match s
    case ID => "ID"
  }

  /** `Error::url_conversion`: keeps both the parser's error and the offending input. */
  function NewUrlConversion(source: ParseError, invalidUrl: string): (e: Error)
    ensures e.UrlConversion? && e.invalidUrl == invalidUrl && e.source == source
    ensures SourceOf(e) == Some(ParseSource(source))
  {
    UrlConversion(invalidUrl, source)
  }

  /** `Error::unsupported_host`: the host is kept verbatim and is what the message names. */
  function NewUnsupportedHost(host: string): (e: Error)
    ensures e.UnsupportedHost? && e.host == host
    ensures Display(e)[|UNSUPPORTED_HOST_PREFIX|..] == host
    ensures SourceOf(e) == None
  {
    UnsupportedHost(host)
  }

  /** `From<reqwest::Error> for Error`: every transport failure becomes `HttpRequest`. */
  function FromRequest(source: RequestError): (e: Error)
    ensures e.HttpRequest? && e.request == source
    ensures SourceOf(e) == Some(RequestSource(source))
  {
    HttpRequest(source)
  }

  /**
   * The text `Display for Error` writes: a fixed lead, the context, and for the two
   * kinds that wrap a foreign error, a fixed separator and that error's own text.
   * A failed request without a URL names the fallback text in the URL's place.
   */
  function Display(e: Error): (msg: string)
    ensures e.UrlConversion? ==>
      Shows(msg, CONVERT_LEAD, e.invalidUrl, CONVERT_MIDDLE, e.source.text)
    ensures e.UnsupportedHost? ==>
      |msg| == |UNSUPPORTED_HOST_PREFIX| + |e.host|
      && msg[..|UNSUPPORTED_HOST_PREFIX|] == UNSUPPORTED_HOST_PREFIX
      && msg[|UNSUPPORTED_HOST_PREFIX|..] == e.host
    ensures e.HtmlParseFailed? ==>
      |msg| == |PARSE_FAILED_PREFIX| + |SearchingForText(e.searchingFor)|
      && msg[..|PARSE_FAILED_PREFIX|] == PARSE_FAILED_PREFIX
      && msg[|PARSE_FAILED_PREFIX|..] == SearchingForText(e.searchingFor)
    ensures e.HttpRequest? && e.request.url.Some? ==>
      Shows(msg, SCRAPE_LEAD, e.request.url.value, SCRAPE_MIDDLE, e.request.text)
    ensures e.HttpRequest? && e.request.url.None? ==>
      Shows(msg, SCRAPE_LEAD, NO_URL_FOUND, SCRAPE_MIDDLE, e.request.text)
  {
    match e
    case UrlConversion(invalidUrl, source) =>
      WrappedText(CONVERT_LEAD, invalidUrl, CONVERT_MIDDLE, source.text);
      CONVERT_LEAD + invalidUrl + CONVERT_MIDDLE + source.text
    case UnsupportedHost(host) =>
      UNSUPPORTED_HOST_PREFIX + host
    case HtmlParseFailed(inner) =>
      PARSE_FAILED_PREFIX + SearchingForText(inner)
    case HttpRequest(source) =>
      var url := if source.url.Some? then source.url.value else NO_URL_FOUND;
      WrappedText(SCRAPE_LEAD, url, SCRAPE_MIDDLE, source.text);
      SCRAPE_LEAD + url + SCRAPE_MIDDLE + source.text
  }

  /**
   * `msg` reads `lead`, then `context`, then `middle`, then `last`, and nothing else:
   * each piece sits at its own offset.
   */
  predicate Shows(msg: string, lead: string, context: string, middle: string, last: string) {
    var a := |lead|;
    var b := a + |context|;
    var c := b + |middle|;
    |msg| == c + |last|
    && msg[..a] == lead
    && msg[a..b] == context
    && msg[b..c] == middle
    && msg[c..] == last
  }

  /** The test in the error module: the input and the parser's text, in the fixed wording. */
  lemma DisplayUrlConversionFixture(source: ParseError)
    ensures Display(UrlConversion("abcdef", source)) == "unable to convert abcdef to a url: " + source.text
  {
    var msg := Display(UrlConversion("abcdef", source));
    assert Shows(msg, CONVERT_LEAD, "abcdef", CONVERT_MIDDLE, source.text);
    assert msg[..35] == "unable to convert abcdef to a url: ";
    assert msg == msg[..35] + msg[35..];
  }

  /** What was not found, in its fixed wording. */
  lemma DisplayHtmlParseFailedFixture()
    ensures Display(HtmlParseFailed(ID)) == "unable to find the tournament's ID"
  {
  }

  /** A failed request that carries no URL names the fallback text where the URL would go. */
  lemma DisplayRequestWithoutUrl(text: string)
    ensures Display(HttpRequest(RequestError(text, None)))
         == "unable to scrape url '" + "internal error: no url found" + "': " + text
  {
  }

  /** `StdError::source`: the wrapped foreign error, for exactly the two kinds that wrap one. */
  function SourceOf(e: Error): (r: Option<Source>)
    ensures r.Some? <==> e.UrlConversion? || e.HttpRequest?
    ensures r.Some? && e.UrlConversion? ==> r.value.ParseSource? && r.value.parse == e.source
    ensures r.Some? && e.HttpRequest? ==> r.value.RequestSource? && r.value.request == e.request
  {
    match e
    case UrlConversion(_, source) => Some(ParseSource(source))
    case HttpRequest(source) => Some(RequestSource(source))
    case UnsupportedHost(_) => None
    case HtmlParseFailed(_) => None
  }

  /** The four variants, without their payloads. */
  datatype Kind = UrlConversionKind | UnsupportedHostKind | HtmlParseFailedKind | HttpRequestKind

  function KindOf(e: Error): Kind {
    match e
    case UrlConversion(_, _) => UrlConversionKind
    case UnsupportedHost(_) => UnsupportedHostKind
    case HtmlParseFailed(_) => HtmlParseFailedKind
    case HttpRequest(_) => HttpRequestKind
  }

  /** The variant a message was written for, read off its opening words. */
  function KindOfMessage(msg: string): Option<Kind> {
    if |msg| < 11 then None
    else if msg[0] == 'w' then Some(UnsupportedHostKind)
    else if msg[10] == 'c' then Some(UrlConversionKind)
    else if msg[10] == 'f' then Some(HtmlParseFailedKind)
    else if msg[10] == 's' then Some(HttpRequestKind)
    else None
  }

  /**
   * The four kinds never share a message: the variant is recoverable from the
   * display text alone, whatever the foreign errors and strings inside it.
   */
  lemma DisplayNamesKind(e: Error)
    ensures KindOfMessage(Display(e)) == Some(KindOf(e))
  {
    match e
    case UrlConversion(u, s) =>
      KindOfLead(CONVERT_LEAD + u + CONVERT_MIDDLE, s.text);
      KindOfLead(CONVERT_LEAD + u, CONVERT_MIDDLE);
      KindOfLead(CONVERT_LEAD, u);
    case UnsupportedHost(h) =>
      KindOfLead(UNSUPPORTED_HOST_PREFIX, h);
    case HtmlParseFailed(inner) =>
      KindOfLead(PARSE_FAILED_PREFIX, SearchingForText(inner));
    case HttpRequest(r) =>
      var u := if r.url.Some? then r.url.value else NO_URL_FOUND;
      KindOfLead(SCRAPE_LEAD + u + SCRAPE_MIDDLE, r.text);
      KindOfLead(SCRAPE_LEAD + u, SCRAPE_MIDDLE);
      KindOfLead(SCRAPE_LEAD, u);
  }

  /** The kind of a message is decided by its first eleven characters. */
  lemma KindOfLead(lead: string, rest: string)
    requires |lead| >= 11
    ensures KindOfMessage(lead + rest) == KindOfMessage(lead)
  {
    assert (lead + rest)[0] == lead[0] && (lead + rest)[10] == lead[10];
  }

  /** A message built as `lead + first + middle + last` shows each piece at its own offset. */
  lemma WrappedText(lead: string, first: string, middle: string, last: string)
    ensures Shows(lead + first + middle + last, lead, first, middle, last)
  {
    var msg := lead + first + middle + last;
    assert msg == lead + (first + (middle + last));
    assert msg[..|lead|] == lead;
    assert msg[|lead|..|lead| + |first|] == first;
  }

}
