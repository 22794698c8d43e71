/**
 * Building a tournament from a URL: the URL's host decides which hosting website
 * it belongs to, and the URL is handed to that website's builder.
 */
module FromUrl {
  import opened Wrappers
  import opened Urls
  import opened Errors
  import opened Tournaments

  /** The supported hosting websites. */
  datatype TabHost = Tabroom

  /** The message used in place of a host when the URL has none. */
  const NO_HOST: string := "unable to determine host"

  /** The host strings accepted as tabroom: the bare domain and its `www.` form, nothing else. */
  predicate IsTabroomHost(host: string) {
    host == "tabroom.com" || host == "www.tabroom.com"
  }

  /**
   * `TryFrom<&Url> for TabHost`: exact match on the (normalised) host alone. Any
   * other host is unsupported and is reported verbatim; a URL without a host is
   * reported with a fixed message.
   */
  function TryFrom(url: Url): (r: Result<TabHost, Error>)
    ensures r.Ok? <==> url.host.Some? && IsTabroomHost(url.host.value)
    ensures r.Ok? ==> r.value == Tabroom
    ensures r.Err? && url.host.Some? ==> r.error == UnsupportedHost(url.host.value)
    ensures url.host.None? ==> r == Err(UnsupportedHost(NO_HOST))
  {
    match url.host
    case None => Err(NewUnsupportedHost(NO_HOST))
    case Some(host) =>
      if host == "tabroom.com" || host == "www.tabroom.com" then Ok(Tabroom)
      else Err(NewUnsupportedHost(host))
  }

  /** Only the host matters: URLs that differ in scheme, path or query classify alike. */
  lemma TryFromOnlyReadsHost(u: Url, v: Url)
    requires u.host == v.host
    ensures TryFrom(u) == TryFrom(v)
  {
  }

  /** The bare domain and the `www.` form are the same website. */
  lemma TryFromWwwForm(u: Url)
    ensures TryFrom(u.(host := Some("tabroom.com"))) == TryFrom(u.(host := Some("www.tabroom.com"))) == Ok(Tabroom)
  {
  }

  /**
   * Other sub-domains, other websites and any other spelling of the host text are
   * unsupported, and the error names the host that was given.
   */
  lemma TryFromRejectsLookalikes(u: Url)
    ensures TryFrom(u.(host := Some("Tabroom.com"))) == Err(UnsupportedHost("Tabroom.com"))
    ensures TryFrom(u.(host := Some("sub.tabroom.com"))) == Err(UnsupportedHost("sub.tabroom.com"))
    ensures TryFrom(u.(host := Some("joyoftournaments.com"))) == Err(UnsupportedHost("joyoftournaments.com"))
    ensures TryFrom(u.(host := Some("example.org"))) == Err(UnsupportedHost("example.org"))
  {
  }

  /**
   * `from_url_impl`: the text is turned into a URL by `processUrl` and classified;
   * either failure is returned as it is, before any website-specific work, and a
   * tabroom URL is handed to `fromTabroom`. The URL parser and the tabroom builder
   * (which fetches over the network) are parameters.
   */
  function FromUrlImpl(urlText: string, processUrl: string -> Result<Url, Error>,
                       fromTabroom: Url -> Result<Tournament, Error>): (r: Result<Tournament, Error>)
    ensures processUrl(urlText).Err? ==> r == Err(processUrl(urlText).error)
    ensures processUrl(urlText).Ok? ==>
      var url := processUrl(urlText).value;
      && (url.host.None? ==> r == Err(UnsupportedHost(NO_HOST)))
      && (url.host.Some? && !IsTabroomHost(url.host.value) ==> r == Err(UnsupportedHost(url.host.value)))
      && (url.host.Some? && IsTabroomHost(url.host.value) ==> r == fromTabroom(url))
  {
    var url :- processUrl(urlText);
    var host :- TryFrom(url);
    match host
    case Tabroom => fromTabroom(url)
  }

  /** A tournament is only ever built from a URL on a tabroom host. */
  lemma FromUrlImplNeedsTabroom(urlText: string, processUrl: string -> Result<Url, Error>,
                                fromTabroom: Url -> Result<Tournament, Error>)
    ensures FromUrlImpl(urlText, processUrl, fromTabroom).Ok? ==>
      processUrl(urlText).Ok? && processUrl(urlText).value.host.Some?
      && IsTabroomHost(processUrl(urlText).value.host.value)
  {
  }
}
