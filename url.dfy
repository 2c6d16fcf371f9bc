/** Keywords a site already ranks for (app/src/services/utils/getKeywordsForUrl.ts).
    The URL parser (`url-parse`) and the ranked-keywords service are not
    part of this model: they are given as functions, and the environment's
    credentials as values. */
module Url {
  import opened Seqs
  import opened Strings
  import opened Records

  /** What `url-parse` makes of the text: host name and path name. */
  datatype ParsedUrl = ParsedUrl(hostname: string, pathname: string)

  type UrlParser = string -> ParsedUrl

  /** `process.env.D4S_API_USER` and `process.env.D4S_API_PASS`. */
  datatype Credentials = Credentials(user: Option<string>, pass: Option<string>)

  /** One call of the ranked-keywords service: host and optional path. */
  datatype RankedQuery = RankedQuery(hostname: string, pathname: Option<string>)

  /** The ranked-keywords service: `None` when it gives back nothing. */
  type RankedSource = (Credentials, RankedQuery) -> Option<seq<string>>

  /** The keywords found (`undefined` is `None`) and the service calls made. */
  datatype UrlLookup = UrlLookup(keywords: Option<seq<string>>, calls: seq<RankedQuery>)

  /** The path name sent: the root path `/` only when the text itself ends in
      `/`; absent when the text names the bare host; any other path as it
      was parsed. */
  function SelectPathname(raw: string, parsed: string): (p: Option<string>)
    ensures p.None? <==> parsed == "/" && !EndsWith(raw, "/")
    ensures p.Some? ==> p.value == parsed
  {
    if EndsWith(raw, "/") && parsed == "/" then Some(parsed)
    else if !EndsWith(raw, "/") && parsed == "/" then None
    else Some(parsed)
  }

  /** `getKeywordsForUrl`. Without both credentials nothing is found and
      the service is not called; with them it is called once, with the
      parsed host and the selected path, and its answer is returned exactly
      when it is not empty. */
  function GetKeywordsForUrl(raw: string, parse: UrlParser, env: Credentials, ranked: RankedSource): (r: UrlLookup)
    ensures !Present(env.user) || !Present(env.pass) ==> r == UrlLookup(None, [])
    ensures Present(env.user) && Present(env.pass) ==>
      var query := RankedQuery(parse(raw).hostname, SelectPathname(raw, parse(raw).pathname));
      && r.calls == [query]
      && (r.keywords.Some? <==> ranked(env, query).Some? && ranked(env, query).value != [])
      && (r.keywords.Some? ==> r.keywords == ranked(env, query))
    ensures r.keywords.Some? ==> |r.keywords.value| > 0
  {
    var url := parse(raw);
    var pathname := SelectPathname(raw, url.pathname);
    if !Present(env.user) || !Present(env.pass) then UrlLookup(None, [])
    else
      var query := RankedQuery(url.hostname, pathname);
      var found := ranked(env, query);
      if found.Some? && |found.value| > 0 then UrlLookup(found, [query])
      else UrlLookup(None, [query])
  }
}
