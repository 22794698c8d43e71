/**
 * Locating a tabroom tournament's feed: its id, read from the `tourn_id` query
 * parameter of any page of the tournament, and the feed URL built from that id.
 * Fetching the feed and reading its body are not part of this model.
 */
module Tabroom {
  import opened Wrappers
  import opened Numeric
  import opened Urls
  import opened Errors

  const TOURN_ID_KEY: string := "tourn_id"
  const API_HOST: string := "www.tabroom.com"
  const API_PATH: string := "/api/tourn_published.mhtml"

  /** The text of the feed URL up to the id. */
  const FEED_URL_PREFIX: string := "https" + "://" + API_HOST + API_PATH + "?" + TOURN_ID_KEY + "="

  /** Spelled out: the fixed feed endpoint of tabroom, on `www.tabroom.com`. */
  lemma FeedUrlPrefixText()
    ensures FEED_URL_PREFIX == "https://www.tabroom.com" + "/api/tourn_published.mhtml?tourn_id="
  {
    var origin, rest := "https" + "://" + API_HOST, API_PATH + "?" + TOURN_ID_KEY + "=";
    assert origin == "https://www.tabroom.com";
    assert rest == "/api/tourn_published.mhtml?tourn_id=";
    assert FEED_URL_PREFIX == origin + rest;
  }

  /** The position of the first pair whose key is `key`, or `|query|` when there is none. */
  function FirstIndexOf(query: seq<(string, string)>, key: string): (i: nat)
    ensures i <= |query|
    ensures forall j :: 0 <= j < i ==> query[j].0 != key
    ensures i < |query| ==> query[i].0 == key
  {
    if query == [] then 0
    else if query[0].0 == key then 0
    else 1 + FirstIndexOf(query[1..], key)
  }

  /**
   * `query_pairs().find(|(k, _)| k == key)`: the value of the first pair whose key is
   * exactly `key`, if there is one.
   */
  function FindValue(query: seq<(string, string)>, key: string): (r: Option<string>)
    ensures r.None? <==> FirstIndexOf(query, key) == |query|
    ensures r.Some? ==> r.value == query[FirstIndexOf(query, key)].1
  {
    if query == [] then None
    else if query[0].0 == key then Some(query[0].1)
    else FindValue(query[1..], key)
  }

  /**
   * `get_id`: the first `tourn_id` parameter, read as a `u32`. A missing parameter and
   * a value that is not a `u32` (empty, not digits, too large) are the same error.
   */
  function GetId(url: Url): (r: Result<u32, Error>)
    ensures r.Err? ==> r.error == HtmlParseFailed(ID)
    ensures r.Ok? <==> FindValue(url.query, TOURN_ID_KEY).Some?
                       && ParseU32(FindValue(url.query, TOURN_ID_KEY).value).Some?
    ensures r.Ok? ==> Some(r.value) == ParseU32(FindValue(url.query, TOURN_ID_KEY).value)
  {
    match FindValue(url.query, TOURN_ID_KEY)
    case None => Err(HtmlParseFailed(ID))
    case Some(text) =>
      match ParseU32(text)
      case None => Err(HtmlParseFailed(ID))
      case Some(id) => Ok(id)
  }

  /**
   * The feed URL of tournament `id`: on `www.tabroom.com` over `https`, its text the
   * fixed endpoint followed by the decimal id.
   */
  function ApiUrl(id: u32): (u: Url)
    ensures u.scheme == "https" && u.host == Some("www.tabroom.com")
    ensures Serialize(u) == FEED_URL_PREFIX + Decimal(id)
  {
    var digits := Decimal(id);
    var u := Url("https", Some(API_HOST), API_PATH, [(TOURN_ID_KEY, digits)]);
    assert QueryText(u.query) == TOURN_ID_KEY + "=" + digits;
    assert Serialize(u) == "https" + "://" + API_HOST + API_PATH + ("?" + (TOURN_ID_KEY + "=" + digits));
    u
  }

  /**
   * `get_api_url`: fails exactly when `get_id` does; otherwise the feed URL on
   * `www.tabroom.com`, whatever host the page was on, with the id written in decimal.
   */
  function GetApiUrl(url: Url): (r: Result<Url, Error>)
    ensures r.Ok? <==> GetId(url).Ok?
    ensures r.Err? ==> r.error == HtmlParseFailed(ID)
    ensures r.Ok? ==> r.value.host == Some("www.tabroom.com")
    ensures r.Ok? ==> Serialize(r.value)
                      == FEED_URL_PREFIX + Decimal(GetId(url).value)
  {
    var id :- GetId(url);
    Ok(ApiUrl(id))
  }

  /** Round trip: the id read back from the feed URL is the id it was built from. */
  lemma GetIdOfApiUrl(id: u32)
    ensures GetId(ApiUrl(id)) == Ok(id)
  {
    ParseDecimal(id);
  }

  /** Round trip through `get_api_url`: the feed URL names the same tournament as the page. */
  lemma GetApiUrlKeepsId(url: Url)
    ensures GetApiUrl(url).Ok? ==> GetId(GetApiUrl(url).value) == GetId(url)
  {
    if GetId(url).Ok? {
      GetIdOfApiUrl(GetId(url).value);
    }
  }

  /** Distinct tournaments get distinct feed URLs. */
  lemma ApiUrlInjective(a: u32, b: u32)
    ensures Serialize(ApiUrl(a)) == Serialize(ApiUrl(b)) ==> a == b
  {
    var prefix := FEED_URL_PREFIX;
    if Serialize(ApiUrl(a)) == Serialize(ApiUrl(b)) {
      assert (prefix + Decimal(a))[|prefix|..] == Decimal(a);
      assert (prefix + Decimal(b))[|prefix|..] == Decimal(b);
      DecimalInjective(a, b);
    }
  }

  /**
   * Parameters other than `tourn_id` do not matter, wherever they stand: putting more
   * of them before or after it leaves the id unchanged.
   */
  lemma {:induction false} GetIdIgnoresOtherParams(url: Url, before: seq<(string, string)>, after: seq<(string, string)>)
    requires forall i :: 0 <= i < |before| ==> before[i].0 != TOURN_ID_KEY
    ensures GetId(url.(query := before + url.query + after)).Ok? ==> GetId(url).Ok? || FindValue(after, TOURN_ID_KEY).Some?
    ensures GetId(url).Ok? ==> GetId(url.(query := before + url.query + after)) == GetId(url)
  {
    FindValueSkips(before, url.query + after, TOURN_ID_KEY);
    assert before + url.query + after == before + (url.query + after);
    FindValueAppend(url.query, after, TOURN_ID_KEY);
  }

  /** A prefix without the key does not change what is found. */
  lemma {:induction false} FindValueSkips(before: seq<(string, string)>, rest: seq<(string, string)>, key: string)
    requires forall i :: 0 <= i < |before| ==> before[i].0 != key
    ensures FindValue(before + rest, key) == FindValue(rest, key)
  {
    if before == [] {
      assert before + rest == rest;
    } else {
      assert (before + rest)[0] == before[0];
      assert before[0].0 != key;
      assert FindValue(before + rest, key) == FindValue((before + rest)[1..], key);
      assert (before + rest)[1..] == before[1..] + rest;
      FindValueSkips(before[1..], rest, key);
    }
  }

  /** The first match in a prefix is the first match of the whole. */
  lemma {:induction false} FindValueAppend(query: seq<(string, string)>, after: seq<(string, string)>, key: string)
    ensures FindValue(query, key).Some? ==> FindValue(query + after, key) == FindValue(query, key)
    ensures FindValue(query, key).None? ==> FindValue(query + after, key) == FindValue(after, key)
  {
    if query == [] {
      assert query + after == after;
    } else {
      assert (query + after)[0] == query[0];
      assert (query + after)[1..] == query[1..] + after;
      FindValueAppend(query[1..], after, key);
    }
  }

  /** A tournament page: `.../index.mhtml?tourn_id=17253` names tournament 17253. */
  lemma GetIdFixture()
    ensures GetId(Url("https", Some("www.tabroom.com"), "/index/tourn/index.mhtml", [("tourn_id", "17253")])) == Ok(17253)
  {
    assert Decimal(17253) == "17253";
    GetIdOfApiUrl(17253);
  }

  /** A page with no query names no tournament. */
  lemma GetIdWithoutQuery(scheme: string, host: Option<string>, path: string)
    ensures GetId(Url(scheme, host, path, [])) == Err(HtmlParseFailed(ID))
  {
  }

  /** A pairings page: `tourn_id` comes first and the `round_id` after it is ignored. */
  lemma GetIdPairingsFixture()
    ensures GetId(Url("https", Some("www.tabroom.com"), "/index/tourn/postings/round.mhtml",
                      [("tourn_id", "17253"), ("round_id", "622046")])) == Ok(17253)
  {
    var page := Url("https", Some("www.tabroom.com"), "/index/tourn/index.mhtml", [("tourn_id", "17253")]);
    GetIdFixture();
    GetIdIgnoresOtherParams(page, [], [("round_id", "622046")]);
    assert [] + page.query + [("round_id", "622046")] == [("tourn_id", "17253"), ("round_id", "622046")];
  }

  /** The feed URL of the tournament page above ends in its id. */
  lemma GetApiUrlFixture()
    ensures var page := Url("https", Some("www.tabroom.com"), "/index/tourn/index.mhtml", [("tourn_id", "17253")]);
      GetApiUrl(page).Ok? && Serialize(GetApiUrl(page).value) == FEED_URL_PREFIX + "17253"
  {
    GetIdFixture();
    assert Decimal(17253) == "17253";
  }
}
