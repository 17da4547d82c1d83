# Headless WordPress configuration and block adapters, in Dafny

This project models the configuration-resolution layer of a headless-WordPress
integration for a web meta-framework, the two request-level decisions built on it, and
four block adapters that turn a parsed WordPress block into component props.

- **Configuration** (`config.dfy`, module `Config`). The process-wide settings
  variable is the field `stored` of the class `HeadlessConfigStore`.
  `SetHeadstartWPConfig` replaces it. `GetHeadstartWPConfig` resolves it:
  - custom taxonomy and post-type lists are put before the defaults, and a callback
    replaces the defaults;
  - `hostUrl`, `redirectStrategy` and `useWordPressPlugin` get their defaults;
  - each site without a `host` gains one from its `hostUrl`.
  `GetSite` lays one site over the globals with JavaScript `||` semantics.
  `GetSiteByHost` and `GetSiteBySourceUrl` find a site. The slug and lookup helpers
  follow. The URL parser behind `new URL(..).host` is the constant `parseUrlHost`
  (None where the constructor throws). The two taxonomy endpoints are the constant
  `endpoints`.
- **Query preparation** (`prepare_query.dfy`): the path, the sub-site lookup and its
  FrameworkError, the precedence between sub-site, caller and global configuration,
  and the default `cache: 'no-store'` header.
- **Fetch-error handling** (`handle_fetch_error.dfy`): a decision table from the error
  name, redirect strategy, path and redirect-lookup answer to no navigation,
  not-found, a permanent redirect or a temporary redirect.
- **Block adapters** (`image_block.dfy`, `heading_block.dfy`, `file_block.dfy`,
  `verse_block.dfy`, over the node types of `dom.dfy`): each is a function from the
  node and what `useBlock` and `useBlockAttributes` return to the props record. Each
  default `test` is a predicate that states which dom query it makes.
- `js.dfy` holds the JavaScript semantics the rest relies on:
  - truthiness, as `||`, `??` and `!!` see it;
  - `Array.prototype.find` and `map`, and `String.prototype.replace` with a
    one-character pattern;
  - `Number()`, exact on decimal-digit strings.

The code is modelled as written in three places where its behaviour is easy to
misread:
- At `config.ts:72` the post-type callback is handed the default *taxonomies*, so its
  parameter type is `seq<Taxonomy>`.
- `getSiteBySourceUrl` never returns null: with no match it returns the
  global-derived configuration.
- A site's own list of taxonomies or post types replaces the defaults rather than
  being merged with them. When that list is a callback, the slug and lookup helpers
  call an array method on a function; that TypeError is modelled as `Err(TypeError)`.

The image block throws when it has no children, when its leading `<figure>` is empty,
or when the chosen image node is text. Those cases are modelled as `Err` results, not
as preconditions.

## Model

| member | source | states |
|---|---|---|
| Config.HeadlessConfigStore.constructor | packages/core/src/utils/config.ts:4 | the settings start out empty |
| Config.HeadlessConfigStore.SetHeadstartWPConfig | packages/core/src/utils/config.ts:6-8 | the settings become the given configuration |
| Config.HeadlessConfigStore.GetHeadstartWPConfig | packages/core/src/utils/config.ts:22-106 | taxonomy and post-type lists are always resolved lists; hostUrl is '' exactly when unset or empty; redirectStrategy is the stored one when truthy, else 'none'; useWordPressPlugin is true exactly when stored true; sourceUrl, debug, integrations, preview, cache pass through; the site list keeps its length |
| Config.ResolvedTaxonomiesWithoutCallback | packages/core/src/utils/config.ts:37-54 | without a callback the taxonomies are the custom entries in order, then `category`, then `post_tag`; with none they are exactly the defaults |
| Config.ResolvedPostTypesWithoutCallback | packages/core/src/utils/config.ts:56-73 | without a callback the post types are the custom entries in order, then `page`, then `post` |
| Config.CallbacksGetDefaultTaxonomies | packages/core/src/utils/config.ts:51-73 | a callback's output is the whole list, and both callbacks, the post-type one included, receive the default taxonomies |
| Config.ResolvedSitesInferHosts | packages/core/src/utils/config.ts:86-102 | resolved sites keep length and order; a site differs from its input only in host, and only when host was absent, hostUrl present and parsing succeeds, in which case host is the parsed host |
| Config.HeadlessConfigStore.GetSite | packages/core/src/utils/config.ts:115-131 | each overridable field is the site's value when truthy and the global one otherwise; host and hostUrl come only from the site; redirectStrategy is never falsy |
| Config.GetSiteOfNoSiteIsGlobal | packages/core/src/utils/config.ts:115-131 | with no site the result carries the global configuration's fields and no host or hostUrl |
| Config.FalsySiteValuesDoNotOverride | packages/core/src/utils/config.ts:118-124 | a site's '' or false acts exactly as an absent field |
| Config.HeadlessConfigStore.NormalizeHost | packages/core/src/utils/config.ts:143-152 | http(s) inputs are reduced to the parsed host when parsing succeeds; every other input is kept verbatim |
| Config.HeadlessConfigStore.GetSiteByHost | packages/core/src/utils/config.ts:141-171 | null exactly when no resolved site matches the normalised host (and the non-empty locale); otherwise built from the first match in list order |
| Config.GetSiteByHostFirstMatch | packages/core/src/utils/config.ts:154-170 | when site i is the first match, the result is the configuration of site i |
| Config.GetSiteByHostUrlMatchesBareHost | packages/core/src/utils/config.ts:143-170 | looking up an http(s) URL gives the same result as looking up the host it parses to |
| Config.GetSiteByHostEmptyLocale | packages/core/src/utils/config.ts:159-163 | an empty locale behaves as no locale |
| Config.HeadlessConfigStore.GetSiteBySourceUrl | packages/core/src/utils/config.ts:179-184 | the configuration of the first site with exactly that sourceUrl, and the global-derived configuration (never null) when there is none |
| Config.HeadlessConfigStore.GetCustomTaxonomies | packages/core/src/utils/config.ts:191-196 | without a truthy sourceUrl the resolved global list; otherwise the list of the site found by sourceUrl |
| Config.SiteTaxonomiesReplaceDefaults | packages/core/src/utils/config.ts:181-192 | a matched site's own taxonomy list is used as it is, without the defaults |
| Config.HeadlessConfigStore.GetCustomTaxonomySlugs | packages/core/src/utils/config.ts:203-211 | one slug per taxonomy, in order; a TypeError exactly when the list in force is a callback |
| Config.HeadlessConfigStore.GetCustomTaxonomy | packages/core/src/utils/config.ts:220-224 | the first taxonomy with an equal slug, undefined exactly when none has it; a TypeError exactly when the list in force is a callback |
| Config.HeadlessConfigStore.GetCustomPostTypes | packages/core/src/utils/config.ts:231-235 | without a truthy sourceUrl the resolved global list; otherwise the list of the site found by sourceUrl |
| Config.HeadlessConfigStore.GetCustomPostTypesSlugs | packages/core/src/utils/config.ts:242-246 | one slug per post type, in order; a TypeError exactly when the list in force is a callback |
| Config.HeadlessConfigStore.GetCustomPostType | packages/core/src/utils/config.ts:254-258 | the first post type with an equal slug, undefined exactly when none has it; a TypeError exactly when the list in force is a callback |
| Config.HeadlessConfigStore.GetWPUrl | packages/core/src/utils/config.ts:263-266 | '' exactly when the stored sourceUrl is unset or empty, and that sourceUrl otherwise |
| Config.HeadlessConfigStore.GetHostUrl | packages/core/src/utils/config.ts:271-274 | '' exactly when the stored hostUrl is unset or empty, and that hostUrl otherwise |
| PrepareQuery.MergeOptions | packages/next/src/rsc/data/queries/prepareQuery.ts:29-36 | the headers are the caller's headers plus `cache`, caller values kept; cache is 'no-store' unless the caller sets it; other caller options are kept |
| PrepareQuery.CacheHeaderDefault | packages/next/src/rsc/data/queries/prepareQuery.ts:29-36 | the cache header is the caller's when given, else 'no-store' |
| PrepareQuery.PrepareQuery | packages/next/src/rsc/data/queries/prepareQuery.ts:14-47 | a FrameworkError exactly when the route names a truthy sub-site that no site serves; config is the sub-site's, else the caller's, else the global one; a string path is kept, segments go through convertToPath; every other property except routeParams, options, path and config is kept |
| PrepareQuery.PathDefaultsToEmpty | packages/next/src/rsc/data/queries/prepareQuery.ts:20 | the path is '' without route parameters or without a path among them |
| PrepareQuery.NoSubSiteNoError | packages/next/src/rsc/data/queries/prepareQuery.ts:21-27 | an absent or empty sub-site never fails, and the caller's configuration is then used when given |
| HandleFetchError.RedirectLookup | packages/next/src/rsc/data/handleFetchError.ts:11-13 | a lookup is made exactly for a NotFoundError with strategy '404' and a non-empty path, with that path and the sourceUrl or '' |
| HandleFetchError.RedirectNavigation | packages/next/src/rsc/data/handleFetchError.ts:15-24 | a location with status 301 or 308 is a permanent redirect to it, any other status a temporary one; no location is not-found |
| HandleFetchError.HandleFetchError | packages/next/src/rsc/data/handleFetchError.ts:4-26 | no navigation exactly when the error is not a NotFoundError; not-found when no lookup is made; otherwise the lookup's answer decides as above |
| HandleFetchError.NoLookupNoDependence | packages/next/src/rsc/data/handleFetchError.ts:11-24 | when no lookup is made, the outcome does not depend on the lookup |
| HandleFetchError.OutcomeIgnoresDebug | packages/next/src/rsc/data/handleFetchError.ts:5-9 | the debug settings do not change the outcome |
| HandleFetchError.RedirectsComeFromLookup | packages/next/src/rsc/data/handleFetchError.ts:12-19 | every redirect target is the location the lookup with the request's path and sourceUrl answered |
| Dom.HtmlAnchor | packages/core/src/react/blocks/FileBlock.tsx:31 | '' exactly when the node has no id or an empty one, otherwise the id |
| ImageBlockAdapter.ImageNode | packages/core/src/react/blocks/ImageBlock.tsx:31-46 | the figure's first child when the first child is a figure, else the first child; an error when there is no child, the figure is empty, or the chosen node is text |
| ImageBlockAdapter.Dimension | packages/core/src/react/blocks/ImageBlock.tsx:47-59 | the block attribute when present, else the img attribute; a number when that choice is truthy, undefined otherwise |
| ImageBlockAdapter.ImageBlock | packages/core/src/react/blocks/ImageBlock.tsx:22-65 | renders exactly when the image node exists; src and alt from the img node; width and height as above; name, className, attributes and style forwarded |
| ImageBlockAdapter.SrcAndAltIgnoreMetadata | packages/core/src/react/blocks/ImageBlock.tsx:46-56 | block metadata never changes src, alt, or whether the block renders |
| ImageBlockAdapter.ZeroBlockDimensionIsUndefined | packages/core/src/react/blocks/ImageBlock.tsx:47-59 | a block width of 0 is kept by `??` and emitted as undefined, whatever the img says |
| ImageBlockAdapter.ImgDimensionFromDigits | packages/core/src/react/blocks/ImageBlock.tsx:47-59 | a digit-string img width converts to its decimal value |
| ImageBlockAdapter.EmptyFigureThrows | packages/core/src/react/blocks/ImageBlock.tsx:36-46 | an empty figure makes the block throw |
| ImageBlockAdapter.ImageBlockTest | packages/core/src/react/blocks/ImageBlock.tsx:73-75 | the default test accepts exactly the nodes `isBlockByName` accepts for `core/image` |
| HeadingBlockAdapter.HeadingBlockTest | packages/core/src/react/blocks/HeadingBlock.tsx:46-48 | the default test accepts exactly the nodes `isBlockByName` accepts for `core/heading` |
| HeadingBlockAdapter.HeadingLevel | packages/core/src/react/blocks/HeadingBlock.tsx:24 | the metadata level when present, else the tag name's number once its first `h` is removed |
| HeadingBlockAdapter.HeadingBlock | packages/core/src/react/blocks/HeadingBlock.tsx:15-38 | level as above; name, className, attributes and style forwarded |
| HeadingBlockAdapter.LevelFromTagName | packages/core/src/react/blocks/HeadingBlock.tsx:24 | without metadata, a tag `h` followed by decimal digits gives their value (`h3` gives 3) |
| HeadingBlockAdapter.MetadataLevelWins | packages/core/src/react/blocks/HeadingBlock.tsx:24 | a metadata level wins even when the tag disagrees |
| FileBlockAdapter.FileBlock | packages/core/src/react/blocks/FileBlock.tsx:17-41 | showDownloadButton is a boolean, true exactly when the metadata value is truthy; htmlAnchor is the id or ''; id and href copied from the metadata; name, className, attributes and style forwarded |
| FileBlockAdapter.FileBlockTest | packages/core/src/react/blocks/FileBlock.tsx:48-52 | the default test accepts exactly the nodes `isBlock` accepts for tag `div` with class `wp-block-file` |
| VerseBlockAdapter.VerseBlock | packages/core/src/react/blocks/VerseBlock.tsx:14-35 | className is '' exactly when the block has none or an empty one, otherwise the block's; htmlAnchor is the id or ''; name, attributes and style forwarded |
| VerseBlockAdapter.VerseBlockTest | packages/core/src/react/blocks/VerseBlock.tsx:43 | the default test accepts exactly the nodes `isBlock` accepts for tag `pre` with class `wp-block-verse` |

## Left out

- `new URL(...)` is not modelled. It is the constant `parseUrlHost`, a partial host extractor. The model does not lower-case hosts or drop default ports itself.
- The values of `endpoints.category` and `endpoints.tags` come from an endpoints module that is not part of this model. They are the constant `endpoints`.
- `setHeadlessConfig` and `getHeadlessConfig` are aliases of the modelled functions and have no members of their own.
- `deepmerge` is modelled only to the depth prepareQuery uses. The headers object is merged key by key with the caller winning, and other caller options are copied. The model does not cover deeper nesting, array concatenation, or an explicit `headers: undefined`.
- `convertToPath` and `fetchRedirect` are function parameters. Their code is not part of this model, and `fetchRedirect` goes over the network.
- `log` is not modelled. It is output only, and `OutcomeIgnoresDebug` states that it does not change the outcome.
- Next.js `notFound`, `redirect` and `permanentRedirect` throw to abort rendering. They are modelled as terminal `Navigation` values.
- `isBlock` and `isBlockByName` are not part of this model. The default tests take them as the `DomQueries` functions and state which query each test makes.
- `Number()` is evaluated only on strings of decimal digits. Any other text stays as the symbolic `NumberOf(text)`. There is no floating point or NaN, and block-metadata numbers are integers.
- The JSX rendering, the `useBlock` and `useBlockAttributes` hooks, the children and `domNode` props are not modelled. The hooks' outputs are inputs, and the props record is the output.
- InferHost: `null` is not modelled, so null and undefined are both None. A site whose host is `null` gains a host in the model, but the code's `typeof site.host === 'undefined'` test keeps such a site unchanged.
- The user's taxonomy and post-type callbacks are opaque function values.
- async/await is not modelled: nothing here is concurrent.
- The block renderer and the sanitizer are outside this model. The Next.js page in the wp-nextjs project is REST-fetching UI plumbing and is not modelled either.
