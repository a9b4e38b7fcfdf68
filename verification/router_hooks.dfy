/** `useRouterParams` and `useRouterQuery`: where a component reads the
    route's params and query from, on the server and in the browser. */
module RouterHooks {
  import opened Wrappers
  import opened Queries
  import opened ServerRouter
  import opened Store
  import SsrContext
  import ClientBootstrap
  import ReactServer
  import opened ItemSort

  /** `useRouterParams(selector)`, given the SSR context, the router
      hook's result `routerResult` (`None` is nullish) and the value `{}`
      has as a selection result. */
  function UseRouterParams<S>(ctx: Option<SsrContext.Context>, routerResult: Option<S>, selector: Params -> S, empty: S): (r: S)
    ensures ctx.Some? ==> r == selector(ctx.value.params)
    ensures ctx.None? && routerResult.Some? ==> r == routerResult.value
    ensures ctx.None? && routerResult.None? ==> r == empty
  {
    match ctx
    case Some(c) => selector(c.params)
    case None => routerResult.GetOr(empty)
  }

  /** The default selector. */
  function Identity(p: Params): (r: Params)
    ensures r == p
  {
    p
  }

  /** With the default selector the hook yields the params themselves:
      the context's, else the router's, else `{}`. */
  lemma DefaultParams(ctx: Option<SsrContext.Context>, routerParams: Option<Params>)
    ensures UseRouterParams(ctx, routerParams, Identity, map[])
            == if ctx.Some? then ctx.value.params else routerParams.GetOr(map[])
  {
  }

  /** `useRouterQuery()`, given the SSR context, the router's query
      (`None` is nullish), whether `window` exists, and
      `window.__INITIAL_DATA__`. */
  function UseRouterQuery(ctx: Option<SsrContext.Context>, routerQuery: Option<Query>, isBrowser: bool, payload: Option<State>): (r: Query)
    ensures ctx.Some? ==> r == ctx.value.query
    ensures ctx.None? && routerQuery.Some? && |routerQuery.value| > 0 ==> r == routerQuery.value
    ensures ctx.None? && (routerQuery.None? || |routerQuery.value| == 0) ==>
              r == if isBrowser && payload.Some? && payload.value.query.Some? then payload.value.query.value
                   else routerQuery.GetOr([])
  {
    match ctx
    case Some(c) => c.query
    case None =>
      var empty := routerQuery.None? || |routerQuery.value| == 0;
      if empty && isBrowser && payload.Some? && payload.value.query.Some? then payload.value.query.value
      else routerQuery.GetOr([])
  }

  /** Once `main` has run, the payload is gone, so in the browser the
      query is the router's, or `{}`. */
  lemma QueryAfterBootstrap(c: ClientBootstrap.Client, routerQuery: Option<Query>)
    ensures UseRouterQuery(None, routerQuery, true, ClientBootstrap.Main(c).payload) == routerQuery.GetOr([])
  {
  }

  /** While the React server renders a matched page, both hooks see the
      request: the query passed to `render` and the route's params,
      whatever the router stub says. */
  lemma HooksDuringServerRender(items: seq<Item>, init: State, s: ReactServer.Server, url: string,
                                query: Option<Query>, routerQuery: Option<Query>, payload: Option<State>)
    ensures var r := ReactServer.Render(items, init, s, url, query);
            var v := r.out.view;
            r != ReactServer.NotFound(s) ==>
            && UseRouterQuery(v.ssr, routerQuery, false, payload) == query.GetOr([])
            && UseRouterParams(v.ssr, Some(map[]), Identity, map[]) == v.ssr.value.params
  {
  }
}
