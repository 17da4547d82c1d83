/** Query preparation for the server-side data fetchers
    (packages/next/src/rsc/data/queries/prepareQuery.ts): which path and which
    configuration a request uses, its fetch options, and the missing-sub-site error. */
module PrepareQuery {
  import opened Js
  import opened Config

  /** The route's path parameter: one string, or the catch-all route's segments. */
  datatype PathParam = PathString(text: string) | PathSegments(segments: seq<string>)

  datatype RouteParams = RouteParams(path: Option<PathParam>, site: Option<string>)

  /** Fetch options: the headers object (absent when the caller gives none) and every
      other option key with its value. */
  datatype FetchOptions = FetchOptions(headers: Option<map<string, string>>, others: map<string, string>)

  /** A query: its route parameters, its options, and its remaining properties by name. */
  datatype Query = Query(routeParams: Option<RouteParams>, options: Option<FetchOptions>, others: map<string, string>)

  /** The prepared query: the remaining properties, with options, path and config set. */
  datatype PreparedQuery = PreparedQuery(others: map<string, string>, options: FetchOptions, path: string, config: HeadlessConfig)

  /** The property names the prepared query sets or drops itself. */
  const ReservedKeys: set<string> := {"routeParams", "options", "path", "config"}

  /** The default options, `{ headers: { cache: 'no-store' } }`, deep-merged with the
      caller's, the caller's values winning. */
  function MergeOptions(caller: Option<FetchOptions>): (r: FetchOptions)
    ensures r.headers.Some?
    ensures var given := if caller.Some? then caller.value.headers.GetOr(map[]) else map[];
      && r.headers.value.Keys == given.Keys + {"cache"}
      && (forall k :: k in given ==> r.headers.value[k] == given[k])
      && ("cache" !in given ==> r.headers.value["cache"] == "no-store")
    ensures r.others == if caller.Some? then caller.value.others else map[]
  {
    var options := caller.GetOr(FetchOptions(None, map[]));
    FetchOptions(Some(map["cache" := "no-store"] + options.headers.GetOr(map[])), options.others)
  }

  /** The route path, '' when there are no route parameters or no path among them. */
  function RoutePath(routeParams: Option<RouteParams>): PathParam {
    if routeParams.Some? then routeParams.value.path.GetOr(PathString("")) else PathString("")
  }

  /** The sub-site named by the route, when there is one. */
  function RouteSite(routeParams: Option<RouteParams>): Option<string> {
    if routeParams.Some? then routeParams.value.site else None
  }

  /** Prepares a query. A truthy sub-site that no configured site serves is a
      FrameworkError; otherwise the configuration is the sub-site's if there is one,
      else the caller's, else the global one. `convertToPath` turns route segments
      into a path. */
  function PrepareQuery(store: HeadlessConfigStore, query: Query, config: Option<HeadlessConfig>,
                        convertToPath: seq<string> -> string): (r: Result<PreparedQuery>)
    reads store
    ensures var site := RouteSite(query.routeParams);
      r.Err? <==> TruthyString(site) && store.GetSiteByHost(site.value, None).None?
    ensures r.Err? ==> r.error.FrameworkError?
    ensures r.Ok? ==> var site := RouteSite(query.routeParams);
      && (TruthyString(site) ==> Some(r.value.config) == store.GetSiteByHost(site.value, None))
      && (!TruthyString(site) && config.Some? ==> r.value.config == config.value)
      && (!TruthyString(site) && config.None? ==> r.value.config == store.GetHeadstartWPConfig())
    ensures r.Ok? ==>
      && (RoutePath(query.routeParams).PathString? ==> r.value.path == RoutePath(query.routeParams).text)
      && (RoutePath(query.routeParams).PathSegments? ==> r.value.path == convertToPath(RoutePath(query.routeParams).segments))
    ensures r.Ok? ==> r.value.options == MergeOptions(query.options)
    ensures r.Ok? ==>
      && r.value.others.Keys == query.others.Keys - ReservedKeys
      && forall k :: k in r.value.others ==> r.value.others[k] == query.others[k]
  {
    var site := RouteSite(query.routeParams);
    var siteConfig := if TruthyString(site) then store.GetSiteByHost(site.value, None) else None;
    if TruthyString(site) && siteConfig.None? then
      Err(FrameworkError("Sub site not found, make sure to add " + site.value + " to headstartwp.config.js"))
    else
      var options := MergeOptions(query.options);
      var chosen := if siteConfig.Some? then siteConfig else config;
      var pathname := match RoutePath(query.routeParams)
        case PathString(text) => text
        case PathSegments(segments) => convertToPath(segments);
      Ok(PreparedQuery(query.others - ReservedKeys, options, pathname,
                       if chosen.Some? then chosen.value else store.GetHeadstartWPConfig()))
  }

  /** Without route parameters, or without a path among them, the path is ''. */
  lemma PathDefaultsToEmpty(store: HeadlessConfigStore, query: Query, config: Option<HeadlessConfig>,
                            convertToPath: seq<string> -> string)
    requires query.routeParams.None? || query.routeParams.value.path.None?
    ensures var r := PrepareQuery(store, query, config, convertToPath);
      r.Ok? ==> r.value.path == ""
  {
  }

  /** An absent or empty sub-site never fails, and the global settings are then
      irrelevant whenever the caller passes a configuration. */
  lemma NoSubSiteNoError(store: HeadlessConfigStore, query: Query, config: Option<HeadlessConfig>,
                         convertToPath: seq<string> -> string)
    requires !TruthyString(RouteSite(query.routeParams))
    ensures var r := PrepareQuery(store, query, config, convertToPath);
      && r.Ok?
      && (config.Some? ==> r.value.config == config.value)
  {
  }

  /** The cache header is 'no-store' unless the caller sets it, and the caller's
      setting wins. */
  lemma CacheHeaderDefault(query: Query)
    ensures var h := MergeOptions(query.options).headers.value;
      var given := if query.options.Some? then query.options.value.headers.GetOr(map[]) else map[];
      && "cache" in h
      && h["cache"] == (if "cache" in given then given["cache"] else "no-store")
  {
  }
}
