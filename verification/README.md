# Server rendering and routing of a shop front, in Dafny

This project models the server-rendering and routing core of a small shop
front that exists in two flavours, a React package and a vanilla-JS
package. Both serve the same two pages, the product list `/` and the
product detail `/product/:id/`, plus a 404 page. The model covers:

- **The server router.** `ServerRouter` compiles a route template such as
  `/product/:id/` into a pattern where every `:name` becomes a
  one-segment capture. `matchRoute` runs that pattern with backtracking,
  cuts the query string off a URL, tries
  the routes in registration order and pairs parameter names with
  captures. `RouteTemplate` states the template compilation and the
  pattern's language (a capture is non-empty and holds no `/`).
  `AppRoutes` applies all of this to the two routes both servers register.
- **The mock data layer of the server entries.** This is `Catalog`,
  `ItemSort`, `Numbers` and `Prefetch`, and it covers:
  - filtering by search text and categories, then sorting;
  - pagination with `Math.ceil` page counts;
  - product lookup and related products;
  - the category tree;
  - `parseInt(query.limit) || 20`;
  - `prefetchData` for each route.
- **The two `render(url, query)` functions.**
  - `ReactServer` sets the request store with `{...initialProductState, ...storeData}`, sets the SSR context, builds the `<title>` head, clears the context, resets the store and ships a payload chosen per route.
  - `VanillaServer` resets the store first. Prefetch then dispatches a `SETUP` with the loading flags. It exposes the router as `global.router` during the render and builds a title-and-meta head. The payload it ships is the whole store.
  - Both answer an unmatched path or a missing product with the 404 result and no payload.
- **The React package's Express host and static-site generator.**
  `ServerHost` covers `normalizeUrl` and the three `replace` splices of
  `renderSSR`. `StaticSite` covers the page list and the generation loop,
  which logs and skips a page whose render throws.
- **The browser side of the React package.** This covers:
  - `main()` (`ClientBootstrap`);
  - the snapshot cache of `useUniversalRouter` (`SnapshotCache`);
  - `useProductURLSync` (`UrlSync`);
  - `useRouterParams` and `useRouterQuery` (`RouterHooks`);
  - the React and vanilla router facades (`RouterFacades`);
  - the server-side dummy cart storage (`CartStorage`).

Everything is an immutable datatype and a pure function:

- The process-wide mutable slots are values threaded through the render functions and returned updated. These slots are the product store, the SSR context and `global.router`.
- A JavaScript `null` or `undefined` is `Option`'s `None`.
- A query object is an ordered sequence of key/value entries, because `JSON.stringify` depends on key order. Route params are a map.
- Strings are sequences of `char`.

The code keeps the request store and the SSR context in process-wide
slots. Two overlapping renders would share these slots. The model assumes
one render at a time, and each render returns the slots restored (React)
or reset at its start (vanilla).

## Model

| member | source | states |
|---|---|---|
| ServerRouter.StripTrailingSlash | packages/react/src/router/ServerRouter.ts:18 | the base loses exactly one trailing `/` if it has one and is otherwise kept |
| ServerRouter.NewRouter | packages/react/src/router/ServerRouter.ts:16-19 | a new router has no routes and a base without its trailing `/` |
| ServerRouter.AddRoute | packages/react/src/router/ServerRouter.ts:21-37 | like `Map.set`: re-adding a template replaces its entry in place, and a new template is appended; routes with other templates are untouched, and every entry stays the compilation of its own template |
| ServerRouter.PathOf | packages/react/src/router/ServerRouter.ts:40 | the pathname is the longest prefix of the URL without `?`; the character after it, if any, is the first `?` |
| ServerRouter.PairParams | packages/react/src/router/ServerRouter.ts:45-48 | the params hold exactly the route's names; each name maps to the capture at its last position, as repeated assignments leave it |
| ServerRouter.FindRoute | packages/react/src/router/ServerRouter.ts:42-57 | the route found is the first in registration order whose pattern matches; none found means no route matches |
| ServerRouter.MatchRoute | packages/react/src/router/ServerRouter.ts:39-60 | `null` exactly when no route matches the pathname; otherwise the first matching route's template and handler, its names paired with the captures, and `query \|\| {}` |
| ServerRouter.MatchRouteFirstAccepting | packages/react/src/router/ServerRouter.ts:42-55 | if route k's pattern accepts the pathname and no earlier route's pattern does, the match is route k's template and handler with `query \|\| {}`; when each of its parameters fills a whole segment, its params are its names paired with the captures |
| ServerRouter.MatchRouteNoneWhenNoneAccepts | packages/react/src/router/ServerRouter.ts:42-59 | the result is `null` exactly when no route's pattern accepts the pathname with any captures |
| RouteTemplate.WordRun | packages/react/src/router/ServerRouter.ts:24 | `\w+` is greedy: the run is all word characters and is followed by a non-word character or the end |
| RouteTemplate.RenderCompile | packages/react/src/router/ServerRouter.ts:23-27 | compiling a template loses nothing: rendering the tokens gives the template back, and the tokens are well formed |
| RouteTemplate.CompileRender | packages/react/src/router/ServerRouter.ts:23-27 | conversely, compiling the rendering of well-formed tokens gives the same tokens |
| RouteTemplate.CompileLiteralPrefix | packages/react/src/router/ServerRouter.ts:24 | text without `:` compiles to literal characters and does not change how the rest compiles |
| RouteTemplate.ParamNamesAreWords | packages/react/src/router/ServerRouter.ts:24-25 | every parameter name is a non-empty run of word characters |
| RouteTemplate.TryCaptureSplit | packages/react/src/router/ServerRouter.ts:26 | a parameter's capture is one of the prefixes it tried, and the rest of the pattern matched what follows it |
| RouteTemplate.MatchTokensSound | packages/react/src/router/ServerRouter.ts:26 | captures found by the backtracking matcher satisfy the compiled pattern: each is non-empty, has no `/` and fills its place |
| RouteTemplate.TryCaptureFinds | packages/react/src/router/ServerRouter.ts:26 | giving back characters one at a time misses no capture length that lets the rest match |
| RouteTemplate.MatchTokensFinds | packages/react/src/router/ServerRouter.ts:26 | whenever the pattern accepts the pathname with some captures, the matcher finds a match |
| RouteTemplate.MatchTokensComplete | packages/react/src/router/ServerRouter.ts:26 | when every parameter is followed by `/` or the end, any accepted capture list is the one the matcher finds, so captures are unique |
| RouteTemplate.MatchTokensIff | packages/react/src/router/ServerRouter.ts:43-44 | for every template the matcher succeeds exactly when the pattern accepts the pathname |
| AppRoutes.ServerRoutes | packages/react/src/main-server.tsx:197-199 | the router both servers build is well formed |
| AppRoutes.ServerRoutesShape | packages/react/src/main-server.tsx:197-199 | it holds `/` then `/product/:id/`, with the tokens and the single name `id` |
| AppRoutes.ProductTemplateTokens | packages/react/src/main-server.tsx:199 | `/product/:id/` compiles to the literal `/product/`, a parameter `id`, and `/` |
| AppRoutes.AddFreshRoute | packages/react/src/router/ServerRouter.ts:32 | adding a template not yet present appends its compiled route |
| AppRoutes.HomeAccepts | packages/react/src/main-server.tsx:198 | the home pattern accepts exactly the path `/`, with no captures |
| AppRoutes.ProductAccepts | packages/react/src/main-server.tsx:199 | the product pattern accepts a path exactly when it is `/product/<id>/` for one non-empty, slash-free id, which is the capture |
| AppRoutes.ServerRoutesMatch | packages/react/src/main-server.tsx:201 | matching splits into three cases: pathname `/` gives the home route with no params; `/product/<id>/` gives the product route with `{id}`; anything else gives `null` |
| AppRoutes.ServerRoutesMatchHome | packages/react/src/main-server.tsx:201 | pathname `/` matches the home route with empty params and the given query |
| AppRoutes.ServerRoutesMatchProduct | packages/react/src/main-server.tsx:201 | pathname `/product/<id>/` matches the product route with params `{id}` |
| AppRoutes.ServerRoutesMatchNone | packages/react/src/main-server.tsx:201 | any other pathname matches nothing |
| AppRoutes.ProductExamples | packages/react/src/main-server.tsx:201 | `/product/42/` gives `{id: "42"}`; `/product//` and `/product/42` match nothing |
| AppRoutes.ProductFortyTwo | packages/react/src/main-server.tsx:201 | `/product/42/` matches the product route with `id` `42` |
| AppRoutes.EmptyIdRejected | packages/react/src/main-server.tsx:201 | an empty id segment is not a product page |
| AppRoutes.MissingSlashRejected | packages/react/src/main-server.tsx:201 | a product URL without its trailing `/` is not a product page |
| AppRoutes.ProductPlain | packages/react/src/main-server.tsx:201 | every generated product URL matches its own product route |
| AppRoutes.ProductWithQueryString | packages/react/src/router/ServerRouter.ts:40 | a query string after a product URL does not change the match |
| Seqs.Filter | packages/react/src/main-server.tsx:48 | `Array.filter` keeps exactly the elements that pass, each drawn from the input |
| Seqs.FilterMultiset | packages/react/src/main-server.tsx:48 | filtering keeps every passing element as often as it occurs, and drops the rest |
| Seqs.FilterCons | packages/react/src/main-server.tsx:48 | filtering a list keeps its head exactly when the head passes, then filters the tail |
| Seqs.FilterSubseq | packages/react/src/main-server.tsx:132-137 | filtering keeps the input order |
| Seqs.JsSlice | packages/react/src/main-server.tsx:99 | `slice` clamps both bounds to the array, counting a negative bound from the end, and is empty when the clamped bounds cross |
| Seqs.CeilDiv | packages/react/src/main-server.tsx:107 | `Math.ceil(a / b)` is the least q with a <= q*b, for positive b |
| Strings.IndexOf | packages/react/src/main-server.tsx:49 | the index is found exactly when the pattern occurs, and it is the first occurrence |
| Strings.ReplaceFirst | packages/react/server.js:20-23 | string `replace` changes only the first occurrence, and leaves a string without one alone |
| Strings.Lower | packages/react/src/main-server.tsx:47 | the result has the input's length, and each of its characters is the ASCII lower-case form of the input character at the same position |
| Strings.Trim | packages/vanilla/src/main-server.js:187 | trimming yields a substring with no white space at either end, having removed only white space |
| Strings.LexLeTotal | packages/react/src/main-server.tsx:69 | the title order compares any two titles |
| Strings.LexLeTrans | packages/react/src/main-server.tsx:69 | the title order is transitive |
| Numbers.ParseInt | packages/react/src/main-server.tsx:146 | a number is parsed only from a string holding a digit |
| Numbers.ParseIntToDecimal | packages/react/src/main-server.tsx:146 | parsing a decimal integer's text gives the integer back |
| Numbers.ParseIntStopsAtNonDigit | packages/react/src/main-server.tsx:63 | `parseInt` reads the leading digits and ignores the rest, as in `"12000원"` |
| Numbers.ParseIntEmpty | packages/react/src/main-server.tsx:146 | a missing limit parses to `NaN` |
| Numbers.DigitsValue | packages/react/src/main-server.tsx:146 | the decimal digits of n have value n |
| ItemSort.LeTotal | packages/react/src/main-server.tsx:60-76 | each sort comparator compares any two items |
| ItemSort.LeTrans | packages/react/src/main-server.tsx:60-76 | each sort comparator is transitive |
| ItemSort.Sort | packages/react/src/main-server.tsx:60-76 | sorting is a permutation of its input, in the chosen order, and stable: the items comparing equal to any given item appear in their input order |
| ItemSort.InsertFilter | packages/react/src/main-server.tsx:60-76 | inserting an item puts it ahead of every item that compares equal to it |
| ItemSort.InsertSorted | packages/react/src/main-server.tsx:60-76 | inserting into a sorted list keeps it sorted |
| ItemSort.PriceOrders | packages/react/src/main-server.tsx:62-66 | the price orders sort by `parseInt(lprice)`, ascending or descending |
| ItemSort.OrderOfKeys | packages/react/src/main-server.tsx:61-76 | each of `price_desc`, `name_asc` and `name_desc` selects its own order; every other key sorts by ascending price |
| Catalog.FilterPassesKeep | packages/react/src/main-server.tsx:44-58 | the three successive filter passes equal one filter by the conjunction of their conditions |
| Catalog.FilterProducts | packages/react/src/main-server.tsx:43-80 | the result keeps exactly the matching items, each as often as in the input; it is in the requested order with equal items kept in input order, or wholly in input order when there is no sort key |
| Catalog.WindowSlice | packages/react/src/main-server.tsx:97-99 | the page window is the slice from start to start+limit, cut at the end; it is non-empty exactly when start is inside the list |
| Catalog.PageInRange | packages/react/src/main-server.tsx:107-108 | page p of a positive limit starts inside the list exactly when p <= `totalPages` |
| Catalog.Paginate | packages/react/src/main-server.tsx:97-110 | the page holds that window of the list; `hasNext` means items remain after it; `totalPages` bounds the list; a page is non-empty exactly when it is at most `totalPages`; a zero limit has no page count; for every limit `hasNext` means `page * limit` is below the total; a negative limit on page 1 drops that many items from the end, with `hasNext` true and `totalPages` at most 0 |
| Catalog.MockGetProducts | packages/react/src/main-server.tsx:91-112 | the total counts the filtered list; page and limit default to 1 and 20; `hasPrev` means page > 1; every listed product passes the filter |
| Catalog.FirstPage | packages/react/src/main-server.tsx:93-99 | page 1 is the first `limit` items, or for a negative limit all but the last `-limit` |
| Catalog.NegativeFirstPage | packages/react/src/main-server.tsx:97-108 | under a negative limit, `slice(0, limit)` drops `-limit` items from the end and `Math.ceil(total / limit)` is at most 0 |
| Catalog.FindById | packages/react/src/main-server.tsx:115 | `find` returns the first item with the id, or none when no item has it |
| Catalog.MockGetProduct | packages/react/src/main-server.tsx:114-125 | `null` exactly when no item has the id; otherwise that item with a description built from its title and brand |
| Catalog.MockGetRelatedProducts | packages/react/src/main-server.tsx:131-140 | exactly the first `limit` related items in catalogue order (all of them when they fit; a negative `limit` drops that many from the end), each sharing category2 or category1 and none the current product |
| Catalog.GetUniqueCategories | packages/react/src/main-server.tsx:25-34 | the tree's keys are exactly the items' category1 values, and under each exactly the non-empty category2 values seen with it |
| Prefetch.LimitOf | packages/react/src/main-server.tsx:146 | the limit is the parsed `limit`; `NaN` and 0 fall back to 20, so it is never 0 |
| Prefetch.LimitOfDecimal | packages/react/src/main-server.tsx:146 | a non-zero integer written as the limit is used as is; a missing one gives 20 |
| Prefetch.OrElse | packages/react/src/main-server.tsx:147-150 | `x \|\| fallback` keeps a non-empty x |
| Prefetch.HomeParams | packages/react/src/main-server.tsx:145-152 | the home load asks for page 1 with the query's search, categories, limit and sort, defaulting to `price_asc` |
| Prefetch.LoadHome | packages/react/src/main-server.tsx:143-160 | the home data is the first `limit` filtered items (all but the last `-limit` for a negative limit), their total and the category tree |
| Prefetch.LoadProduct | packages/react/src/main-server.tsx:161-171 | the load is "not found" exactly when no item has the `id` param; otherwise it is that item and its related products (at most 20) |
| Prefetch.Load | packages/react/src/main-server.tsx:142-175 | the home route loads the list, the product route loads the product, and any other route loads nothing |
| Prefetch.LoadProductFound | packages/react/src/main-server.tsx:161-171 | a product route whose id exists loads exactly that product and its related products |
| Store.MergeLaws | packages/react/src/main-server.tsx:222 | the object spread is associative, has the empty state as unit and is idempotent; a field present on the right wins |
| SsrContext.Set | packages/react/src/router/ssrContext.ts:8-10 | after `setSSRContext(c)`, `getSSRContext()` is c |
| SsrContext.Clear | packages/react/src/router/ssrContext.ts:16-18 | after clearing, the context is `null` |
| SsrContext.SlotLaws | packages/react/src/router/ssrContext.ts:6-18 | the slot starts `null`; a later set overrides an earlier one; clearing forgets any set; a set after a clear is read back |
| Queries.Get | packages/react/src/main-server.tsx:184-187 | the value is that of the first entry with the key; an absent key reads as `""` |
| Queries.Omit | packages/react/src/entities/products/components/hooks/useProductURLSync.ts:12 | the rest object is the query's entries with other keys, in their order |
| Queries.Serialize | packages/react/src/entities/products/components/hooks/useProductURLSync.ts:15 | the serialised object is braced, so never `""` |
| ReactServer.StoreData | packages/react/src/main-server.tsx:156-174 | the home data fills products, total and categories; the product data fills current and related products; only a missing product yields `error` |
| ReactServer.Title | packages/react/src/main-server.tsx:177-194 | a found product is titled `<title> - 쇼핑몰`; on home, search wins over the trimmed `category1 category2`, which wins over `쇼핑몰 - 홈`; every other case is `쇼핑몰 - 홈` |
| ReactServer.TitleSearchWins | packages/react/src/main-server.tsx:184-185 | on the home route, two queries with the same non-empty search get the same title |
| ReactServer.CategoryTitleTrimmed | packages/react/src/main-server.tsx:186-187 | a category title has no surrounding white space |
| ReactServer.InitialData | packages/react/src/main-server.tsx:242-257 | the home payload is products, categories, total and query; the product payload is current and related products; any other payload is the store data |
| ReactServer.Render | packages/react/src/main-server.tsx:196-266 | the result is the 404, or a render that restored the store to `initialProductState`, cleared the context, shipped a payload and showed the request's query |
| ReactServer.RenderMatched | packages/react/src/main-server.tsx:222-265 | the page renders with the spread store and the request's context; afterwards store and context are reset; the payload is `InitialData` |
| ReactServer.RenderHome | packages/react/src/main-server.tsx:201-265 | `/` renders the home page over page 1 of the filtered list with the title for the query, and ships those items, the tree, the total and the query |
| ReactServer.RenderProductMissing | packages/react/src/main-server.tsx:211-219 | an unknown product id gives the 404 and changes nothing |
| ReactServer.RenderProductFound | packages/react/src/main-server.tsx:211-265 | a known id renders the detail page with `{id}`, titles it after the product, and ships exactly the product and its related products |
| ReactServer.RenderUnmatched | packages/react/src/main-server.tsx:203-209 | any other path gives the 404 head and no payload, and changes nothing |
| VanillaServer.Done | packages/vanilla/src/main-server.js:133-140 | the prefetch payload carries its data with loading false, error null and status `done` |
| VanillaServer.AfterPrefetch | packages/vanilla/src/main-server.js:119-162 | the home and product loads replace the store with their payload; a missing product or an unknown route leaves it alone |
| VanillaServer.Meta | packages/vanilla/src/main-server.js:164-180 | a product is titled after itself and described by its description; search, category and plain home titles end in `- 쇼핑몰`; everything else gets the default title and description |
| VanillaServer.Tags | packages/vanilla/src/main-server.js:182-187 | the head is a run of tags, starting with `<` and ending with `>` |
| VanillaServer.HeadIsTags | packages/vanilla/src/main-server.js:182-187 | trimming the template literal leaves exactly the title and meta tags |
| VanillaServer.TrimOuter | packages/vanilla/src/main-server.js:187 | the literal's surrounding newline and indentation are removed |
| VanillaServer.ProductDescriptionUsed | packages/vanilla/src/main-server.js:171 | a fetched product always has a description, so the `brand title` fallback is never used |
| VanillaServer.CategoryTitleDoubleSpace | packages/vanilla/src/main-server.js:176 | with category1 and no category2, the title keeps two spaces before `- 쇼핑몰`, because `trim` only touches the ends |
| VanillaServer.Render | packages/vanilla/src/main-server.js:190-232 | the result is the 404, or a render that removed `global.router` after exposing the server router to the page and shipped the whole store it rendered with |
| VanillaServer.RenderMatched | packages/vanilla/src/main-server.js:217-231 | the page and head see the store after prefetch; the payload is that store |
| VanillaServer.RenderHome | packages/vanilla/src/main-server.js:190-232 | `/` renders over the `done` home payload and ships it |
| VanillaServer.RenderProductMissing | packages/vanilla/src/main-server.js:207-215 | an unknown product id gives the 404, with the store at `initialProductState` |
| VanillaServer.RenderProductFound | packages/vanilla/src/main-server.js:207-231 | a known id renders the detail page over the `done` product payload, with a head titled and described after the product, and ships it |
| VanillaServer.ProductRouteRenders | packages/vanilla/src/main-server.js:207-220 | a known id gets past the error check and renders with the product's payload |
| VanillaServer.ProductHead | packages/vanilla/src/main-server.js:168-171 | the product head is titled `<title> - 쇼핑몰` and described by the product description |
| VanillaServer.RenderUnmatched | packages/vanilla/src/main-server.js:199-205 | any other path gives the 404 with the store reset and no payload |
| ServerHost.NormalizeUrl | packages/react/server.js:26-34 | the result always starts with `/`; an empty base only adds a missing `/`; a URL outside the base is kept |
| ServerHost.NormalizeUnderBase | packages/react/server.js:26-34 | under a base ending in `/`, the URL becomes `/` plus the rest after the base |
| ServerHost.NormalizeBaseWithoutSlash | packages/react/server.js:27-28 | a base without its trailing `/` cuts one character too many: `/app/x` under `/app` is `/p/x` |
| ServerHost.RenderSsr | packages/react/server.js:17-24 | a template with none of the three markers comes back unchanged |
| ServerHost.RenderSsrSplices | packages/react/server.js:17-24 | on a template with the head marker, then the html marker, then `</head>`, each the first of its kind, the head and html take the markers' places and the script lands just before `</head>` |
| ServerHost.RenderSsrSplicesPage | packages/react/server.js:17-24 | the same for the page's order, head marker, `</head>`, then html marker in the body: the script lands before `</head>` and the html in the body |
| StaticSite.ProductPages | packages/react/static-site-generate.js:17-22 | one page per item, in item order, at `/product/<id>/`, written under `product/<id>/index.html` |
| StaticSite.Pages | packages/react/static-site-generate.js:15-22 | the home page comes first, then the product pages |
| StaticSite.FirstPageRendersHome | packages/react/static-site-generate.js:26 | the first page renders the home page |
| StaticSite.ProductPageRendersDetail | packages/react/static-site-generate.js:17-22 | every product page, for an id that is one URL segment, renders the detail page, never a 404 |
| StaticSite.Generate | packages/react/static-site-generate.js:24-44 | at most one write per page, and each write goes to a page whose render succeeded |
| StaticSite.GenerateAppend | packages/react/static-site-generate.js:24-44 | pages are independent: a failing page does not stop the ones after it |
| StaticSite.GenerateWritesRendered | packages/react/static-site-generate.js:26-39 | every page that renders is written to its output path with the template spliced |
| ClientBootstrap.Setup | packages/react/src/main.tsx:32 | `SETUP` replaces the store with its payload and counts one dispatch |
| ClientBootstrap.ConsumePayload | packages/react/src/main.tsx:27-40 | a payload is consumed once: one `SETUP` per truthy `products` and `currentProduct`, then the global is deleted; no payload changes nothing |
| ClientBootstrap.ConsumeOnce | packages/react/src/main.tsx:39 | consuming twice is consuming once |
| ClientBootstrap.Main | packages/react/src/main.tsx:18-50 | the three routes are registered before `start`; the payload is gone afterwards; the app hydrates exactly when `#root` has children |
| ClientBootstrap.MainFromServerPayload | packages/react/src/main.tsx:20-40 | a server payload with data lands in the store, and one with both products and a current product dispatches twice |
| SnapshotCache.Json | packages/react/src/hooks/useUniversalRouter.ts:33 | `JSON.stringify` of an object is its JSON, and is `undefined` only for `undefined` and functions |
| SnapshotCache.GetSnapshot | packages/react/src/hooks/useUniversalRouter.ts:16-40 | a null router gives `null`; the first call caches the selection; an equal reference or an object with equal JSON returns the cached snapshot; the cache always holds the result |
| SnapshotCache.ResultRepresentsSelection | packages/react/src/hooks/useUniversalRouter.ts:20-39 | the snapshot is the current selection or an object with its JSON |
| SnapshotCache.NonObjectsByReference | packages/react/src/hooks/useUniversalRouter.ts:26-39 | a different primitive or function always replaces the cache |
| SnapshotCache.ObjectsByJson | packages/react/src/hooks/useUniversalRouter.ts:30-36 | a new object with the cached JSON keeps the cached snapshot; new JSON replaces it |
| SnapshotCache.SecondCallStable | packages/react/src/hooks/useUniversalRouter.ts:16-40 | calling again with nothing changed gives the same snapshot and cache, as `useSyncExternalStore` requires |
| UrlSync.Key | packages/react/src/entities/products/components/hooks/useProductURLSync.ts:12-15 | the compared string is never the initial `""` |
| UrlSync.Run | packages/react/src/entities/products/components/hooks/useProductURLSync.ts:9-22 | products are reloaded exactly when the key differs from the remembered one, and the key is remembered |
| UrlSync.FirstRunLoads | packages/react/src/entities/products/components/hooks/useProductURLSync.ts:7-21 | the first run always loads |
| UrlSync.RunIdempotent | packages/react/src/entities/products/components/hooks/useProductURLSync.ts:18-21 | a second run on the same query does not load |
| UrlSync.CurrentIgnored | packages/react/src/entities/products/components/hooks/useProductURLSync.ts:12 | queries that differ only in `current` behave the same and do not reload |
| UrlSync.OmitCurrentAppended | packages/react/src/entities/products/components/hooks/useProductURLSync.ts:12 | appending a `current` page to a query does not change its key |
| RouterHooks.UseRouterParams | packages/react/src/router/hooks/useRouterParams.ts:9-21 | the SSR context's params win; otherwise the router's selection, or `{}` when it is nullish |
| RouterHooks.DefaultParams | packages/react/src/router/hooks/useRouterParams.ts:7-20 | with the default selector the hook returns the params themselves |
| RouterHooks.UseRouterQuery | packages/react/src/router/hooks/useRouterQuery.ts:5-23 | the SSR context's query wins; then a non-empty router query; then, in the browser, the payload's query; else the router query or `{}` |
| RouterHooks.QueryAfterBootstrap | packages/react/src/router/hooks/useRouterQuery.ts:16-22 | after `main` has deleted the payload, the browser query is the router's, or `{}` |
| RouterHooks.HooksDuringServerRender | packages/react/src/main-server.tsx:225-236 | during a matched server render both hooks see the request's query and the route's params, whatever the router stub reports |
| RouterFacades.CreateRouterInstance | packages/react/src/router/router.ts:7-39 | on the server, a stub; in the browser, a client router, created once and memoised |
| RouterFacades.CreateMemoised | packages/react/src/router/router.ts:10-13 | every browser creation after the first returns the same router |
| RouterFacades.Read | packages/react/src/router/router.ts:16-37 | the stub reads `{}` query and params and `null` route and target; a client router reads its own view |
| RouterFacades.Apply | packages/react/src/router/router.ts:17-28 | a stub call changes nothing; a client call is the router's own step |
| RouterFacades.StubInert | packages/react/src/router/router.ts:16-38 | any sequence of calls on the stub leaves it reading as the empty stub |
| RouterFacades.Selected | packages/vanilla/src/router/router.js:7-11 | the client router if there is one, else `global.router` if set, else `{params: {}, query: {}}` |
| RouterFacades.BaseUrl | packages/vanilla/src/router/router.js:31-33 | the instance's base URL when non-empty, else the constant |
| RouterFacades.WithQuery | packages/vanilla/src/router/router.js:20-24 | setting the query hands it to the client router's own setter and leaves `global.router` alone; without a client router nothing changes |
| RouterFacades.QuerySetGet | packages/vanilla/src/router/router.js:14-24 | with a client router every getter reads what its setter made of the write; without one the write is lost and query and params read as before |
| RouterFacades.Delegate | packages/vanilla/src/router/router.js:34-45 | the forwarding methods return the client router's result, or `undefined` without one |
| RouterFacades.ServerReadsGlobal | packages/vanilla/src/router/router.js:7-19 | on the server the getters read `global.router`, or `{}` params and query with no route or target |
| CartStorage.Init | packages/react/src/entities/carts/storage/cartStorage.ts:4-8 | a new storage holds `null` and no listeners |
| CartStorage.Set | packages/react/src/entities/carts/storage/cartStorage.ts:10-13 | `set` stores the value and calls each listener exactly once |
| CartStorage.Reset | packages/react/src/entities/carts/storage/cartStorage.ts:14-17 | `reset` stores `null` and calls each listener exactly once |
| CartStorage.Subscribe | packages/react/src/entities/carts/storage/cartStorage.ts:18-19 | the listener set gains exactly that function, and subscribing it again changes nothing |
| CartStorage.Unsubscribe | packages/react/src/entities/carts/storage/cartStorage.ts:20 | the returned function removes exactly that listener |
| CartStorage.SubscribeTwice | packages/react/src/entities/carts/storage/cartStorage.ts:18-19 | a listener subscribed twice is called once per write |
| CartStorage.UnsubscribeStopsOnlyThat | packages/react/src/entities/carts/storage/cartStorage.ts:20 | after unsubscribing, writes no longer call that listener but still call all the others |
| CartStorage.SetGetReset | packages/react/src/entities/carts/storage/cartStorage.ts:9-17 | `get` returns the last value set, and `null` after `reset` or at the start |

## Left out

- File and network I/O: reading `items.json` and the HTML template, writing output files, the Express app, `sirv`, compression and the Vite dev server are left out. The item list and the template are parameters.
- React machinery is left out: `renderToString`, hydration itself, `useRef`/`useEffect`/`useSyncExternalStore` scheduling and the page components. A rendered page is the component chosen, the store it saw and the SSR context or global router it saw.
- The vanilla `UniversalRouter` class and the browser `Router` are not part of this model. The client router's behaviour is a parameter (`RouterFacades.Apply`'s step function, `RouterFacades.WithQuery`'s setter).
- `VanillaServer.Render`: `packages/vanilla/src/main-server.js:9` imports `{ UniversalRouter }` from `./router/router.js`, which exports only `router`. As written the module fails to load, so no render runs. The model gives the evidently intended behaviour: a server router that compiles and matches like `ServerRouter`.
- `ServerRouter.MatchRoute`: regex metacharacters in a template or base, such as `.` or `*`, are treated as literal characters. The real `RegExp` would give them their regex meaning. The templates both servers register contain none.
- `initialProductState` and the product store's reducer are not part of this model. The initial state is a parameter, and `SETUP` is a full replace.
- `createStorage` is not part of this model, so the browser branch of `cartStorage` is left out. Only the dummy storage is modelled.
- Random product fields are left out: `rating`, `reviewCount` and `stock` come from `Math.random`.
- Async ordering and concurrency are left out. Promises are resolved in program order, and renders never overlap.
- `Catalog.FilterProducts`: `localeCompare(…, "ko")` is modelled as code-point order and `toLowerCase` as ASCII lower-casing, because neither Unicode collation nor full case mapping is available.
- `Queries.Serialize` states only that the text is braced. `JSON.stringify` escaping is not modelled. Equal queries serialise equally because the function is deterministic, and that is the property `useProductURLSync` relies on.
- `Strings.Lower` lower-cases only the ASCII letters `A`–`Z`. The full Unicode case mapping of `toLowerCase` is not available.
- `Numbers.ParseInt` has no 53-bit rounding of very long digit runs and no `Infinity`.
- `ServerHost.RenderSsr`: `$` patterns in the replacement strings of `String.replace` are not interpreted.
- `SnapshotCache.Json` takes an object's `JSON.stringify` text as given rather than computing it. `NaN` primitives, whose `===` is false, are not distinguished.
- `JSON.stringify` of the render payloads is not modelled. The payload is kept as a store value, and the `<script>` text around it is left out.
- The `.*` route is registered by `main()` but only recorded. Client-side matching is the unseen router's.
- Request-query parsing by Express (`req.query`) is left out. The query arrives already parsed.
- The null-router branch of `useUniversalRouter`, whose subscribe function does nothing, is left out. It has no state to observe.
- `mockGetCategories` and `getUniqueCategories` keep no key order. The tree is a map.
