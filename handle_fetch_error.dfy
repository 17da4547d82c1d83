/** What a failed fetch does to the page (packages/next/src/rsc/data/handleFetchError.ts):
    nothing, a not-found page, or a permanent or temporary redirect found by looking
    the path up among the WordPress redirects. */
module HandleFetchError {
  import opened Js
  import opened Config

  datatype FetchError = FetchError(name: string, message: string)

  /** The path and source URL a redirect lookup is made with. */
  datatype RedirectRequest = RedirectRequest(path: string, sourceUrl: string)

  /** What a redirect lookup answers: a location (possibly absent or empty) and an HTTP status. */
  datatype RedirectResult = RedirectResult(location: Option<string>, status: int)

  /** The navigation the handler ends in; the three last abort rendering. */
  datatype Navigation =
    | NoNavigation
    | NotFound
    | PermanentRedirect(location: string)
    | TemporaryRedirect(location: string)

  /** The redirect lookup the handler makes, if any: only for a NotFoundError, with the
      '404' redirect strategy and a non-empty path. */
  function RedirectLookup(error: FetchError, config: HeadlessConfig, path: string): (r: Option<RedirectRequest>)
    ensures r.Some? <==> error.name == "NotFoundError" && config.redirectStrategy == Some("404") && |path| > 0
    ensures r.Some? ==> r.value.path == path && r.value.sourceUrl == config.sourceUrl.GetOr("")
  {
    if error.name == "NotFoundError" && config.redirectStrategy == Some("404") && |path| > 0 then
      Some(RedirectRequest(path, StringOrEmpty(config.sourceUrl)))
    else None
  }

  /** The navigation a looked-up redirect leads to: a redirect to its location when it
      has one, permanent for status 301 or 308, and not-found otherwise. */
  function RedirectNavigation(result: RedirectResult): (r: Navigation)
    ensures r.PermanentRedirect? <==> TruthyString(result.location) && result.status in {301, 308}
    ensures r.TemporaryRedirect? <==> TruthyString(result.location) && result.status !in {301, 308}
    ensures r.NotFound? <==> !TruthyString(result.location)
    ensures r.PermanentRedirect? || r.TemporaryRedirect? ==> result.location == Some(r.location)
  {
    if TruthyString(result.location) then
      if result.status == 301 || result.status == 308 then PermanentRedirect(result.location.value)
      else TemporaryRedirect(result.location.value)
    else NotFound
  }

  /** Handles a fetch error; `fetchRedirect` answers a redirect lookup. */
  function HandleFetchError(error: FetchError, config: HeadlessConfig, path: string,
                            fetchRedirect: RedirectRequest -> RedirectResult): (r: Navigation)
    ensures error.name != "NotFoundError" <==> r.NoNavigation?
    ensures RedirectLookup(error, config, path).None? && error.name == "NotFoundError" ==> r.NotFound?
    ensures RedirectLookup(error, config, path).Some? ==>
      var result := fetchRedirect(RedirectLookup(error, config, path).value);
      && (r.PermanentRedirect? <==> TruthyString(result.location) && result.status in {301, 308})
      && (r.TemporaryRedirect? <==> TruthyString(result.location) && result.status !in {301, 308})
      && (r.NotFound? <==> !TruthyString(result.location))
      && (r.PermanentRedirect? || r.TemporaryRedirect? ==> result.location == Some(r.location))
  {
    if error.name == "NotFoundError" then
      match RedirectLookup(error, config, path)
      case Some(request) => RedirectNavigation(fetchRedirect(request))
      case None => NotFound
    else NoNavigation
  }

  /** When no lookup is made, the outcome does not depend on what a lookup would answer. */
  lemma NoLookupNoDependence(error: FetchError, config: HeadlessConfig, path: string,
                             f: RedirectRequest -> RedirectResult, g: RedirectRequest -> RedirectResult)
    requires RedirectLookup(error, config, path).None?
    ensures HandleFetchError(error, config, path, f) == HandleFetchError(error, config, path, g)
  {
  }

  /** The debug settings, which only decide whether the error is logged, do not change
      the outcome. */
  lemma OutcomeIgnoresDebug(error: FetchError, config: HeadlessConfig, path: string,
                            debug: Option<DebugSettings>, fetchRedirect: RedirectRequest -> RedirectResult)
    ensures HandleFetchError(error, config.(debug := debug), path, fetchRedirect)
         == HandleFetchError(error, config, path, fetchRedirect)
  {
  }

  /** A redirect target always comes from the lookup made with the request's path and
      the configured source URL. */
  lemma RedirectsComeFromLookup(error: FetchError, config: HeadlessConfig, path: string,
                                fetchRedirect: RedirectRequest -> RedirectResult)
    ensures var r := HandleFetchError(error, config, path, fetchRedirect);
      r.PermanentRedirect? || r.TemporaryRedirect? ==>
        && error.name == "NotFoundError" && config.redirectStrategy == Some("404") && path != ""
        && fetchRedirect(RedirectRequest(path, StringOrEmpty(config.sourceUrl))).location == Some(r.location)
  {
  }
}
