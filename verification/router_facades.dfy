/** The two router facades components import: the React package's
    `router` (a memoised client router in the browser, an inert stub on
    the server) and the vanilla package's `router` object, which forwards
    to the client router, else `global.router`, else an empty default. */
module RouterFacades {
  import opened Wrappers
  import opened Queries
  import opened ServerRouter

  /** What the facades read from a router instance; `None` is
      `null`/`undefined`. The client router itself is not part of this
      model, so its state is this view and its behaviour a parameter. */
  datatype View = View(params: Params, query: Query, route: Option<string>, target: Option<string>, baseUrl: Option<string>)

  /** The calls a component can make on a router. */
  datatype Call = Push(url: string) | Replace(url: string) | Back | Forward
                | AddRoute(path: string) | Start | Stop | SetQuery(q: Query) | Subscribe(listener: nat)

  // ---------------------------------------------------------------
  // React: `createRouterInstance`

  /** A created router: the client router (by reference) or the stub. */
  datatype Instance = ClientRouter(ref: nat) | Stub

  datatype Created = Created(router: Instance, memo: Option<nat>)

  /** `createRouterInstance()`: in the browser the memoised `_router`, or
      a new one (`newRef`) that becomes the memo; on the server the stub,
      leaving the memo alone. */
  function CreateRouterInstance(isBrowser: bool, memo: Option<nat>, newRef: nat): (c: Created)
    ensures !isBrowser ==> c == Created(Stub, memo)
    ensures isBrowser ==> c.router.ClientRouter? && c.memo == Some(c.router.ref)
    ensures isBrowser && memo.Some? ==> c == Created(ClientRouter(memo.value), memo)
    ensures isBrowser && memo.None? ==> c.router == ClientRouter(newRef)
  {
    if isBrowser then
      match memo
      case Some(r) => Created(ClientRouter(r), memo)
      case None => Created(ClientRouter(newRef), Some(newRef))
    else Created(Stub, memo)
  }

  /** In the browser every creation after the first hands back the same
      router, whatever new one it could have made. */
  lemma CreateMemoised(memo: Option<nat>, newRef: nat, newRef': nat)
    ensures var first := CreateRouterInstance(true, memo, newRef);
            CreateRouterInstance(true, first.memo, newRef') == first
  {
  }

  /** The stub's getters: `{}`, `{}`, `null`, `null`. */
  const StubView: View := View(map[], [], None, None, None)

  /** What a router instance shows, with `client` the client router's
      view. */
  function Read(inst: Instance, client: View): (v: View)
    ensures inst.Stub? ==> v.query == [] && v.params == map[] && v.route.None? && v.target.None?
    ensures inst.ClientRouter? ==> v == client
  {
    match inst
    case ClientRouter(_) => client
    case Stub => StubView
  }

  /** A call on an instance, with `step` the client router's (unseen)
      behaviour. The stub's methods, its `query` setter and the
      unsubscribe its `subscribe` returns all do nothing. */
  function Apply(inst: Instance, client: View, call: Call, step: (View, Call) -> View): (v: View)
    ensures inst.Stub? ==> v == client
    ensures inst.ClientRouter? ==> v == step(client, call)
  {
    match inst
    case ClientRouter(_) => step(client, call)
    case Stub => client
  }

  /** Any sequence of calls on the stub. */
  function ApplyAll(inst: Instance, client: View, calls: seq<Call>, step: (View, Call) -> View): View
    decreases |calls|
  {
    if |calls| == 0 then client
    else ApplyAll(inst, Apply(inst, client, calls[0], step), calls[1..], step)
  }

  /** Whatever is called on the server stub, it keeps reading `{}` and
      `null`: navigation, route registration and query writes are lost. */
  lemma {:induction false} StubInert(client: View, calls: seq<Call>, step: (View, Call) -> View)
    ensures ApplyAll(Stub, client, calls, step) == client
    ensures Read(Stub, ApplyAll(Stub, client, calls, step)) == StubView
    decreases |calls|
  {
    if |calls| > 0 {
      StubInert(client, calls[1..], step);
    }
  }

  // ---------------------------------------------------------------
  // Vanilla: `getRouterInstance` and the `router` object

  /** What the vanilla facade can see: the module's client router (only in
      the browser) and `global.router` (set by the server render). */
  datatype Env = Env(client: Option<View>, global: Option<View>)

  /** The default `{ params: {}, query: {} }`. */
  const DefaultView: View := View(map[], [], None, None, None)

  /** `getRouterInstance()` */
  function Selected(e: Env): (v: View)
    ensures e.client.Some? ==> v == e.client.value
    ensures e.client.None? && e.global.Some? ==> v == e.global.value
    ensures e.client.None? && e.global.None? ==> v.params == map[] && v.query == []
  {
    if e.client.Some? then e.client.value
    else if e.global.Some? then e.global.value
    else DefaultView
  }

  /** The getters `params`, `query`, `route`, `target`. */
  function ParamsOf(e: Env): Params { Selected(e).params }
  function QueryOf(e: Env): Query { Selected(e).query }
  function Route(e: Env): Option<string> { Selected(e).route }
  function Target(e: Env): Option<string> { Selected(e).target }

  /** `get baseUrl()`: the instance's, unless missing or "", else
      `BASE_URL` (passed in). */
  function BaseUrl(e: Env, baseUrlConst: string): (b: string)
    ensures Selected(e).baseUrl.Some? && Selected(e).baseUrl.value != "" ==> b == Selected(e).baseUrl.value
    ensures Selected(e).baseUrl.None? || Selected(e).baseUrl.value == "" ==> b == baseUrlConst
  {
    var own := Selected(e).baseUrl;
    if own.Some? && own.value != "" then own.value else baseUrlConst
  }

  /** `set query(newQuery)`: only the client router takes it. What the
      client router's own setter does with the value is not visible here,
      so it is the parameter `write`. */
  function WithQuery(e: Env, q: Query, write: (View, Query) -> View): (e': Env)
    ensures e.client.None? ==> e' == e
    ensures e.client.Some? ==> e'.client == Some(write(e.client.value, q)) && e'.global == e.global
  {
    match e.client
    case Some(c) => e.(client := Some(write(c, q)))
    case None => e
  }

  /** With a client router every read sees what its setter made of the
      write; without one (on the server, even while `global.router` is
      set) the write is lost and params and query read as before. */
  lemma QuerySetGet(e: Env, q: Query, write: (View, Query) -> View)
    ensures e.client.Some? ==> Selected(WithQuery(e, q, write)) == write(e.client.value, q)
    ensures e.client.None? ==>
              QueryOf(WithQuery(e, q, write)) == QueryOf(e) && ParamsOf(WithQuery(e, q, write)) == ParamsOf(e)
  {
  }

  /** `addRoute`, `push`, `start`, `subscribe`: `clientRouter?.call(...)`;
      `None` is `undefined`. */
  function Delegate<T>(e: Env, call: View -> T): (r: Option<T>)
    ensures r.None? <==> e.client.None?
    ensures e.client.Some? ==> r == Some(call(e.client.value))
  {
    match e.client
    case Some(c) => Some(call(c))
    case None => None
  }

  /** On the server during a render, the facade reads the request's
      router; afterwards, with `global.router` deleted, the default. */
  lemma ServerReadsGlobal(g: View)
    ensures Selected(Env(None, Some(g))) == g
    ensures ParamsOf(Env(None, None)) == map[] && QueryOf(Env(None, None)) == []
    ensures Route(Env(None, None)).None? && Target(Env(None, None)).None?
  {
  }
}
