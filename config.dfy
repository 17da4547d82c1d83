/** The headless configuration: the process-wide settings value, its resolution with
    defaults, and the per-site accessors (packages/core/src/utils/config.ts). */
module Config {
  import opened Js

  datatype Taxonomy = Taxonomy(slug: string, endpoint: string, rewrite: Option<string>, restParam: Option<string>)

  datatype PostType = PostType(slug: string, endpoint: string, single: Option<string>, archive: Option<string>)

  /** A user customisation of a list: entries to put before the defaults, or a
      callback that builds the whole list. The callback is handed the default
      taxonomies, whichever list it builds. */
  datatype Customization<T> =
    | Entries(items: seq<T>)
    | Callback(build: seq<Taxonomy> -> seq<T>)

  /** Opaque object-valued settings (integrations, preview, cache). */
  datatype Settings = Settings(entries: map<string, string>)

  datatype DebugSettings = DebugSettings(devMode: bool)

  /** A headless configuration; the same shape describes the global settings and each site. */
  datatype HeadlessConfig = HeadlessConfig(
    sourceUrl: Option<string>,
    hostUrl: Option<string>,
    host: Option<string>,
    locale: Option<string>,
    customPostTypes: Option<Customization<PostType>>,
    customTaxonomies: Option<Customization<Taxonomy>>,
    redirectStrategy: Option<string>,
    useWordPressPlugin: Option<bool>,
    integrations: Option<Settings>,
    debug: Option<DebugSettings>,
    preview: Option<Settings>,
    cache: Option<Settings>,
    sites: Option<seq<HeadlessConfig>>)

  /** The configuration with every field absent: the module's initial value. */
  const EmptyConfig: HeadlessConfig :=
    HeadlessConfig(None, None, None, None, None, None, None, None, None, None, None, None, None)

  /** The REST endpoints of the two built-in taxonomies, from the endpoints module. */
  datatype Endpoints = Endpoints(category: string, tags: string)

  function DefaultTaxonomies(endpoints: Endpoints): seq<Taxonomy> {
    [ Taxonomy("category", endpoints.category, None, Some("categories")),
      Taxonomy("post_tag", endpoints.tags, Some("tag"), Some("tags")) ]
  }

  const DefaultPostTypes: seq<PostType> :=
    [ PostType("page", "/wp-json/wp/v2/pages", Some("/"), None),
      PostType("post", "/wp-json/wp/v2/posts", Some("/"), Some("/blog")) ]

  /** The list a customisation resolves to: the callback's output, or the custom
      entries (none when absent) followed by the defaults. */
  function ResolveList<T>(custom: Option<Customization<T>>, defaults: seq<T>, defaultTaxonomies: seq<Taxonomy>): seq<T> {
    match custom
    case Some(Callback(build)) => build(defaultTaxonomies)
    case Some(Entries(items)) => items + defaults
    case None => defaults
  }

  function TaxonomySlug(t: Taxonomy): string { t.slug }

  function PostTypeSlug(p: PostType): string { p.slug }

  /** The message of the TypeError raised by calling an array method on a function value. */
  function NotAnArray(name: string): JsError {
    TypeError(name + " is not a function")
  }

  /** The module-level settings variable and the accessors that read it. `parseUrlHost`
      stands for `new URL(s).host`, None where the URL constructor throws. */
  class HeadlessConfigStore {
    var stored: HeadlessConfig
    const parseUrlHost: string -> Option<string>
    const endpoints: Endpoints

    constructor (parseUrlHost: string -> Option<string>, endpoints: Endpoints)
      ensures stored == EmptyConfig
      ensures this.parseUrlHost == parseUrlHost && this.endpoints == endpoints
    {
      stored := EmptyConfig;
      this.parseUrlHost := parseUrlHost;
      this.endpoints := endpoints;
    }

    /** Replaces the settings with a copy of the given configuration. */
    method SetHeadstartWPConfig(config: HeadlessConfig)
      modifies this
      ensures stored == config
    {
      stored := config;
    }

    /** A site as the resolved configuration lists it: when it has no host but has a
        hostUrl that parses, it gains the parsed host. */
    function InferHost(site: HeadlessConfig): HeadlessConfig {
      if site.host.None? && site.hostUrl.Some? then
        match parseUrlHost(site.hostUrl.value)
        case Some(h) => site.(host := Some(h))
        case None => site
      else site
    }

    /** The settings with defaults filled in and customisations merged. */
    function GetHeadstartWPConfig(): (r: HeadlessConfig)
      reads this
      ensures r.customTaxonomies.Some? && r.customTaxonomies.value.Entries?
      ensures r.customPostTypes.Some? && r.customPostTypes.value.Entries?
      ensures r.hostUrl.Some? && (r.hostUrl.value != "" ==> r.hostUrl == stored.hostUrl)
      ensures r.hostUrl == Some("") <==> !TruthyString(stored.hostUrl)
      ensures TruthyString(r.redirectStrategy)
      ensures TruthyString(stored.redirectStrategy) ==> r.redirectStrategy == stored.redirectStrategy
      ensures !TruthyString(stored.redirectStrategy) ==> r.redirectStrategy == Some("none")
      ensures r.useWordPressPlugin == Some(stored.useWordPressPlugin == Some(true))
      ensures r.sourceUrl == stored.sourceUrl && r.debug == stored.debug
      ensures r.integrations == stored.integrations && r.preview == stored.preview && r.cache == stored.cache
      ensures r.host.None? && r.locale.None?
      ensures r.sites.Some? && |r.sites.value| == |stored.sites.GetOr([])|
    {
      var defaultTaxonomies := DefaultTaxonomies(endpoints);
      var taxonomies := ResolveList(stored.customTaxonomies, defaultTaxonomies, defaultTaxonomies);
      var postTypes := ResolveList(stored.customPostTypes, DefaultPostTypes, defaultTaxonomies);
      HeadlessConfig(
        sourceUrl := stored.sourceUrl,
        hostUrl := Some(StringOrEmpty(stored.hostUrl)),
        host := None,
        locale := None,
        customPostTypes := Some(Entries(postTypes)),
        customTaxonomies := Some(Entries(taxonomies)),
        redirectStrategy := OrString(stored.redirectStrategy, Some("none")),
        useWordPressPlugin := OrBool(stored.useWordPressPlugin, Some(false)),
        integrations := stored.integrations,
        debug := stored.debug,
        preview := stored.preview,
        cache := stored.cache,
        sites := Some(Map(stored.sites.GetOr([]), site => InferHost(site))))
    }

    /** The resolved taxonomy list. */
    function ResolvedTaxonomies(): (r: seq<Taxonomy>)
      reads this
    {
      GetHeadstartWPConfig().customTaxonomies.value.items
    }

    /** The resolved post-type list. */
    function ResolvedPostTypes(): (r: seq<PostType>)
      reads this
    {
      GetHeadstartWPConfig().customPostTypes.value.items
    }

    /** The resolved site list. */
    function ResolvedSites(): (r: seq<HeadlessConfig>)
      reads this
    {
      GetHeadstartWPConfig().sites.value
    }

    /** The configuration for one site (or, with None, for no site): each overridable
        field is the site's when truthy and the global one otherwise; host and
        hostUrl come from the site alone. */
    function GetSite(site: Option<HeadlessConfig>): (r: HeadlessConfig)
      reads this
      ensures var g := GetHeadstartWPConfig();
        && r.host == (if site.Some? then site.value.host else None)
        && r.hostUrl == (if site.Some? then site.value.hostUrl else None)
        && (site.Some? && TruthyString(site.value.sourceUrl) ==> r.sourceUrl == site.value.sourceUrl)
        && (site.None? || !TruthyString(site.value.sourceUrl) ==> r.sourceUrl == g.sourceUrl)
        && (site.Some? && site.value.customPostTypes.Some? ==> r.customPostTypes == site.value.customPostTypes)
        && (site.None? || site.value.customPostTypes.None? ==> r.customPostTypes == g.customPostTypes)
        && (site.Some? && site.value.customTaxonomies.Some? ==> r.customTaxonomies == site.value.customTaxonomies)
        && (site.None? || site.value.customTaxonomies.None? ==> r.customTaxonomies == g.customTaxonomies)
        && (site.Some? && TruthyString(site.value.redirectStrategy) ==> r.redirectStrategy == site.value.redirectStrategy)
        && (site.None? || !TruthyString(site.value.redirectStrategy) ==> r.redirectStrategy == g.redirectStrategy)
        && r.useWordPressPlugin == Some((site.Some? && site.value.useWordPressPlugin == Some(true)) || g.useWordPressPlugin == Some(true))
        && (site.Some? && site.value.integrations.Some? ==> r.integrations == site.value.integrations)
        && (site.None? || site.value.integrations.None? ==> r.integrations == g.integrations)
        && (site.Some? && site.value.preview.Some? ==> r.preview == site.value.preview)
        && (site.None? || site.value.preview.None? ==> r.preview == g.preview)
        && (site.Some? && site.value.cache.Some? ==> r.cache == site.value.cache)
        && (site.None? || site.value.cache.None? ==> r.cache == g.cache)
      ensures r.customPostTypes.Some? && r.customTaxonomies.Some? && TruthyString(r.redirectStrategy)
      ensures r.locale.None? && r.debug.None? && r.sites.None?
    {
      var settings := GetHeadstartWPConfig();
      var s := site.GetOr(EmptyConfig);
      HeadlessConfig(
        sourceUrl := OrString(s.sourceUrl, settings.sourceUrl),
        hostUrl := s.hostUrl,
        host := s.host,
        locale := None,
        customPostTypes := OrObject(s.customPostTypes, settings.customPostTypes),
        customTaxonomies := OrObject(s.customTaxonomies, settings.customTaxonomies),
        redirectStrategy := OrString(OrString(s.redirectStrategy, settings.redirectStrategy), Some("none")),
        useWordPressPlugin := OrBool(OrBool(s.useWordPressPlugin, settings.useWordPressPlugin), Some(false)),
        integrations := OrObject(s.integrations, settings.integrations),
        debug := None,
        preview := OrObject(s.preview, settings.preview),
        cache := OrObject(s.cache, settings.cache),
        sites := None)
    }

    /** The host a site lookup compares against: an http(s) URL reduced to its host
        when it parses, any other input as given. */
    function NormalizeHost(hostOrUrl: string): (r: string)
      ensures !StartsWith(hostOrUrl, "https://") && !StartsWith(hostOrUrl, "http://") ==> r == hostOrUrl
      ensures (StartsWith(hostOrUrl, "https://") || StartsWith(hostOrUrl, "http://")) && parseUrlHost(hostOrUrl).Some?
        ==> r == parseUrlHost(hostOrUrl).value
      ensures parseUrlHost(hostOrUrl).None? ==> r == hostOrUrl
    {
      if StartsWith(hostOrUrl, "https://") || StartsWith(hostOrUrl, "http://") then
        match parseUrlHost(hostOrUrl)
        case Some(h) => h
        case None => hostOrUrl
      else hostOrUrl
    }

    /** Finds the first resolved site whose host is the normalised host and, when a
        non-empty locale is given, whose locale is that locale; None when there is none. */
    function GetSiteByHost(hostOrUrl: string, locale: Option<string>): (r: Option<HeadlessConfig>)
      reads this
      ensures r.None? <==> forall i :: 0 <= i < |ResolvedSites()| ==> !SiteMatchesHost(ResolvedSites()[i], NormalizeHost(hostOrUrl), locale)
      ensures r.Some? ==> exists i ::
        && IsFirstMatch(ResolvedSites(), site => SiteMatchesHost(site, NormalizeHost(hostOrUrl), locale), i)
        && r.value == GetSite(Some(ResolvedSites()[i]))
    {
      var host := NormalizeHost(hostOrUrl);
      match Find(ResolvedSites(), site => SiteMatchesHost(site, host, locale))
      case None => None
      case Some(site) => Some(GetSite(Some(site)))
    }

    /** The configuration of the first resolved site whose sourceUrl is exactly the
        given one; the global-derived configuration when there is none. */
    function GetSiteBySourceUrl(sourceUrl: string): (r: HeadlessConfig)
      reads this
      ensures (forall i :: 0 <= i < |ResolvedSites()| ==> ResolvedSites()[i].sourceUrl != Some(sourceUrl))
        ==> r == GetSite(None)
      ensures (exists i :: 0 <= i < |ResolvedSites()| && ResolvedSites()[i].sourceUrl == Some(sourceUrl))
        ==> exists i :: IsFirstMatch(ResolvedSites(), site => SiteHasSourceUrl(site, sourceUrl), i)
                        && r == GetSite(Some(ResolvedSites()[i]))
    {
      GetSite(Find(ResolvedSites(), site => SiteHasSourceUrl(site, sourceUrl)))
    }

    /** The taxonomy customisation in force for a source URL (the global one for none). */
    function GetCustomTaxonomies(sourceUrl: Option<string>): (r: Customization<Taxonomy>)
      reads this
      ensures !TruthyString(sourceUrl) ==> r == Entries(ResolvedTaxonomies())
      ensures TruthyString(sourceUrl) ==> Some(r) == GetSiteBySourceUrl(sourceUrl.value).customTaxonomies
    {
      if TruthyString(sourceUrl) then GetSiteBySourceUrl(sourceUrl.value).customTaxonomies.value
      else GetHeadstartWPConfig().customTaxonomies.value
    }

    /** The taxonomy slugs, one per taxonomy in order; a TypeError when the
        customisation in force is a callback. */
    function GetCustomTaxonomySlugs(sourceUrl: Option<string>): (r: Result<seq<string>>)
      reads this
      ensures r.Err? <==> GetCustomTaxonomies(sourceUrl).Callback?
      ensures r.Ok? ==> var ts := GetCustomTaxonomies(sourceUrl).items;
        |r.value| == |ts| && forall i :: 0 <= i < |ts| ==> r.value[i] == ts[i].slug
    {
      match GetCustomTaxonomies(sourceUrl)
      case Entries(items) => Ok(Map(items, TaxonomySlug))
      case Callback(_) => Err(NotAnArray("customTaxonomies.map"))
    }

    /** The first taxonomy with the given slug, if any; a TypeError when the
        customisation in force is a callback. */
    function GetCustomTaxonomy(slug: string, sourceUrl: Option<string>): (r: Result<Option<Taxonomy>>)
      reads this
      ensures r.Err? <==> GetCustomTaxonomies(sourceUrl).Callback?
      ensures r.Ok? ==> var ts := GetCustomTaxonomies(sourceUrl).items;
        && (r.value.None? <==> forall i :: 0 <= i < |ts| ==> ts[i].slug != slug)
        && (r.value.Some? ==> exists i :: IsFirstMatch(ts, (t: Taxonomy) => t.slug == slug, i) && r.value.value == ts[i])
    {
      match GetCustomTaxonomies(sourceUrl)
      case Entries(items) => Ok(Find(items, (t: Taxonomy) => t.slug == slug))
      case Callback(_) => Err(NotAnArray("taxonomies.find"))
    }

    /** The post-type customisation in force for a source URL (the global one for none). */
    function GetCustomPostTypes(sourceUrl: Option<string>): (r: Customization<PostType>)
      reads this
      ensures !TruthyString(sourceUrl) ==> r == Entries(ResolvedPostTypes())
      ensures TruthyString(sourceUrl) ==> Some(r) == GetSiteBySourceUrl(sourceUrl.value).customPostTypes
    {
      if TruthyString(sourceUrl) then GetSiteBySourceUrl(sourceUrl.value).customPostTypes.value
      else GetHeadstartWPConfig().customPostTypes.value
    }

    /** The post-type slugs, one per post type in order; a TypeError when the
        customisation in force is a callback. */
    function GetCustomPostTypesSlugs(sourceUrl: Option<string>): (r: Result<seq<string>>)
      reads this
      ensures r.Err? <==> GetCustomPostTypes(sourceUrl).Callback?
      ensures r.Ok? ==> var ps := GetCustomPostTypes(sourceUrl).items;
        |r.value| == |ps| && forall i :: 0 <= i < |ps| ==> r.value[i] == ps[i].slug
    {
      match GetCustomPostTypes(sourceUrl)
      case Entries(items) => Ok(Map(items, PostTypeSlug))
      case Callback(_) => Err(NotAnArray("customPostTypes.map"))
    }

    /** The first post type with the given slug, if any; a TypeError when the
        customisation in force is a callback. */
    function GetCustomPostType(slug: string, sourceUrl: Option<string>): (r: Result<Option<PostType>>)
      reads this
      ensures r.Err? <==> GetCustomPostTypes(sourceUrl).Callback?
      ensures r.Ok? ==> var ps := GetCustomPostTypes(sourceUrl).items;
        && (r.value.None? <==> forall i :: 0 <= i < |ps| ==> ps[i].slug != slug)
        && (r.value.Some? ==> exists i :: IsFirstMatch(ps, (p: PostType) => p.slug == slug, i) && r.value.value == ps[i])
    {
      match GetCustomPostTypes(sourceUrl)
      case Entries(items) => Ok(Find(items, (p: PostType) => p.slug == slug))
      case Callback(_) => Err(NotAnArray("postTypes.find"))
    }

    /** The WordPress URL of the settings, '' when unset. */
    function GetWPUrl(): (r: string)
      reads this
      ensures r == "" <==> !TruthyString(stored.sourceUrl)
      ensures r != "" ==> stored.sourceUrl == Some(r)
    {
      StringOrEmpty(GetHeadstartWPConfig().sourceUrl)
    }

    /** The host URL of the settings, '' when unset. */
    function GetHostUrl(): (r: string)
      reads this
      ensures r == "" <==> !TruthyString(stored.hostUrl)
      ensures r != "" ==> stored.hostUrl == Some(r)
    {
      StringOrEmpty(GetHeadstartWPConfig().hostUrl)
    }
  }

  /** The site-lookup test of getSiteByHost. */
  predicate SiteMatchesHost(site: HeadlessConfig, host: string, locale: Option<string>) {
    site.host == Some(host) && (TruthyString(locale) ==> site.locale == locale)
  }

  /** The site-lookup test of getSiteBySourceUrl. */
  predicate SiteHasSourceUrl(site: HeadlessConfig, sourceUrl: string) {
    site.sourceUrl == Some(sourceUrl)
  }

  /** Two first matches of predicates that agree on every element are at the same index. */
  lemma FirstMatchUnique<T>(xs: seq<T>, p: T -> bool, q: T -> bool, i: int, j: int)
    requires forall k :: 0 <= k < |xs| ==> p(xs[k]) == q(xs[k])
    requires IsFirstMatch(xs, p, i) && IsFirstMatch(xs, q, j)
    ensures i == j
  {
  }

  /** Without a callback, the resolved taxonomies are the custom entries (none when
      absent) in their order, followed by `category` and then `post_tag`. */
  lemma ResolvedTaxonomiesWithoutCallback(s: HeadlessConfigStore)
    requires s.stored.customTaxonomies.None? || s.stored.customTaxonomies.value.Entries?
    ensures var custom := if s.stored.customTaxonomies.None? then [] else s.stored.customTaxonomies.value.items;
      var t := s.ResolvedTaxonomies();
      && |t| == |custom| + 2
      && t[..|custom|] == custom
      && t[|custom|..] == DefaultTaxonomies(s.endpoints)
      && t[|custom|].slug == "category" && t[|custom| + 1].slug == "post_tag"
  {
    var custom := if s.stored.customTaxonomies.None? then [] else s.stored.customTaxonomies.value.items;
    assert s.ResolvedTaxonomies() == custom + DefaultTaxonomies(s.endpoints);
  }

  /** Without a callback, the resolved post types are the custom entries (none when
      absent) in their order, followed by `page` and then `post`. */
  lemma ResolvedPostTypesWithoutCallback(s: HeadlessConfigStore)
    requires s.stored.customPostTypes.None? || s.stored.customPostTypes.value.Entries?
    ensures var custom := if s.stored.customPostTypes.None? then [] else s.stored.customPostTypes.value.items;
      var p := s.ResolvedPostTypes();
      && |p| == |custom| + 2
      && p[..|custom|] == custom
      && p[|custom|..] == DefaultPostTypes
      && p[|custom|].slug == "page" && p[|custom| + 1].slug == "post"
  {
    var custom := if s.stored.customPostTypes.None? then [] else s.stored.customPostTypes.value.items;
    assert s.ResolvedPostTypes() == custom + DefaultPostTypes;
  }

  /** A callback customisation replaces the list outright, and both callbacks, the
      post-type one included, are handed the default taxonomies. */
  lemma CallbacksGetDefaultTaxonomies(s: HeadlessConfigStore)
    ensures s.stored.customTaxonomies.Some? && s.stored.customTaxonomies.value.Callback? ==>
      s.ResolvedTaxonomies() == s.stored.customTaxonomies.value.build(DefaultTaxonomies(s.endpoints))
    ensures s.stored.customPostTypes.Some? && s.stored.customPostTypes.value.Callback? ==>
      s.ResolvedPostTypes() == s.stored.customPostTypes.value.build(DefaultTaxonomies(s.endpoints))
  {
  }

  /** The resolved sites are the configured ones, in the same order, each unchanged
      except that a site without a host gains the host parsed from its hostUrl. */
  lemma ResolvedSitesInferHosts(s: HeadlessConfigStore)
    ensures var sites := s.stored.sites.GetOr([]);
      var resolved := s.ResolvedSites();
      && |resolved| == |sites|
      && (forall i :: 0 <= i < |sites| ==> resolved[i].(host := sites[i].host) == sites[i])
      && (forall i :: 0 <= i < |sites| ==>
            (resolved[i].host != sites[i].host <==>
               sites[i].host.None? && sites[i].hostUrl.Some? && s.parseUrlHost(sites[i].hostUrl.value).Some?))
      && (forall i :: 0 <= i < |sites| && resolved[i].host != sites[i].host ==>
            resolved[i].host == s.parseUrlHost(sites[i].hostUrl.value))
  {
  }

  /** With no site, getSite yields the global configuration's overridable fields and
      no host or hostUrl. */
  lemma GetSiteOfNoSiteIsGlobal(s: HeadlessConfigStore)
    ensures var r := s.GetSite(None); var g := s.GetHeadstartWPConfig();
      && r.sourceUrl == g.sourceUrl && r.customPostTypes == g.customPostTypes
      && r.customTaxonomies == g.customTaxonomies && r.redirectStrategy == g.redirectStrategy
      && r.useWordPressPlugin == g.useWordPressPlugin && r.integrations == g.integrations
      && r.preview == g.preview && r.cache == g.cache
      && r.host.None? && r.hostUrl.None?
  {
  }

  /** A site's empty string or `false` does not override the global value: it acts
      exactly as if the field were absent. */
  lemma FalsySiteValuesDoNotOverride(s: HeadlessConfigStore, site: HeadlessConfig)
    ensures s.GetSite(Some(site.(sourceUrl := Some(""), redirectStrategy := Some(""), useWordPressPlugin := Some(false))))
         == s.GetSite(Some(site.(sourceUrl := None, redirectStrategy := None, useWordPressPlugin := None)))
  {
  }

  /** When some resolved site matches, getSiteByHost returns the configuration of the
      first one in list order. */
  lemma GetSiteByHostFirstMatch(s: HeadlessConfigStore, hostOrUrl: string, locale: Option<string>, i: int)
    requires IsFirstMatch(s.ResolvedSites(), site => SiteMatchesHost(site, s.NormalizeHost(hostOrUrl), locale), i)
    ensures s.GetSiteByHost(hostOrUrl, locale) == Some(s.GetSite(Some(s.ResolvedSites()[i])))
  {
    var p := site => SiteMatchesHost(site, s.NormalizeHost(hostOrUrl), locale);
    var r := s.GetSiteByHost(hostOrUrl, locale);
    assert r.Some?;
    var j :| IsFirstMatch(s.ResolvedSites(), p, j) && r.value == s.GetSite(Some(s.ResolvedSites()[j]));
    FirstMatchUnique(s.ResolvedSites(), p, p, i, j);
  }

  /** An http(s) URL is looked up by the host it parses to: the lookup agrees with
      looking up that bare host. */
  lemma GetSiteByHostUrlMatchesBareHost(s: HeadlessConfigStore, url: string, host: string, locale: Option<string>)
    requires StartsWith(url, "https://") || StartsWith(url, "http://")
    requires s.parseUrlHost(url) == Some(host)
    requires !StartsWith(host, "https://") && !StartsWith(host, "http://")
    ensures s.GetSiteByHost(url, locale) == s.GetSiteByHost(host, locale)
  {
    assert s.NormalizeHost(url) == s.NormalizeHost(host) == host;
    var sites := s.ResolvedSites();
    var p := site => SiteMatchesHost(site, host, locale);
    var a, b := s.GetSiteByHost(url, locale), s.GetSiteByHost(host, locale);
    if a.Some? {
      var i :| IsFirstMatch(sites, site => SiteMatchesHost(site, s.NormalizeHost(url), locale), i) && a.value == s.GetSite(Some(sites[i]));
      var j :| IsFirstMatch(sites, site => SiteMatchesHost(site, s.NormalizeHost(host), locale), j) && b.value == s.GetSite(Some(sites[j]));
      FirstMatchUnique(sites, site => SiteMatchesHost(site, s.NormalizeHost(url), locale),
                       site => SiteMatchesHost(site, s.NormalizeHost(host), locale), i, j);
    }
  }

  /** An empty locale is no locale: the lookup then matches on host alone. */
  lemma GetSiteByHostEmptyLocale(s: HeadlessConfigStore, hostOrUrl: string)
    ensures s.GetSiteByHost(hostOrUrl, Some("")) == s.GetSiteByHost(hostOrUrl, None)
  {
    var sites := s.ResolvedSites();
    var host := s.NormalizeHost(hostOrUrl);
    var a, b := s.GetSiteByHost(hostOrUrl, Some("")), s.GetSiteByHost(hostOrUrl, None);
    if a.Some? {
      var i :| IsFirstMatch(sites, site => SiteMatchesHost(site, host, Some("")), i) && a.value == s.GetSite(Some(sites[i]));
      var j :| IsFirstMatch(sites, site => SiteMatchesHost(site, host, None), j) && b.value == s.GetSite(Some(sites[j]));
      FirstMatchUnique(sites, site => SiteMatchesHost(site, host, Some("")), site => SiteMatchesHost(site, host, None), i, j);
    }
  }

  /** A site found by sourceUrl that lists its own taxonomies uses exactly that list:
      the defaults are not added to a site's entries. */
  lemma SiteTaxonomiesReplaceDefaults(s: HeadlessConfigStore, sourceUrl: string, i: int)
    requires sourceUrl != ""
    requires IsFirstMatch(s.ResolvedSites(), site => SiteHasSourceUrl(site, sourceUrl), i)
    requires s.ResolvedSites()[i].customTaxonomies.Some?
    ensures s.GetCustomTaxonomies(Some(sourceUrl)) == s.ResolvedSites()[i].customTaxonomies.value
  {
    var sites := s.ResolvedSites();
    var p := site => SiteHasSourceUrl(site, sourceUrl);
    var j :| IsFirstMatch(sites, p, j) && s.GetSiteBySourceUrl(sourceUrl) == s.GetSite(Some(sites[j]));
    FirstMatchUnique(sites, p, p, i, j);
  }
}
