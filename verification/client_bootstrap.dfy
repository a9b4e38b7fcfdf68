/** The browser entry `main()`: route registration before `start()`, the
    one-shot consumption of `window.__INITIAL_DATA__`, and the choice
    between hydrating server HTML and a fresh render. */
module ClientBootstrap {
  import opened Wrappers
  import opened Store

  /** How the app is mounted. */
  datatype Mount = Hydrate | FreshRender

  /** The browser-side state `main` touches: the client router's route
      templates in registration order and the templates it had when
      `start()` ran, the payload global, the product store with the number
      of `SETUP` dispatches so far, whether `#root` has child nodes, and
      the mount chosen. */
  datatype Client = Client(
    routes: seq<string>,
    startedWith: Option<seq<string>>,
    payload: Option<State>,
    store: State,
    dispatches: nat,
    rootHasChildren: bool,
    mount: Option<Mount>)

  const ClientRoutes: seq<string> := ["/", "/product/:id/", ".*"]

  /** `productStore.dispatch({ type: SETUP, payload })`: full replace. */
  function Setup(c: Client, payload: State): (c': Client)
    ensures c'.store == payload && c'.dispatches == c.dispatches + 1
    ensures c' == c.(store := payload, dispatches := c.dispatches + 1)
  {
    c.(store := payload, dispatches := c.dispatches + 1)
  }

  /** The `if (window.__INITIAL_DATA__)` block: `SETUP` once for truthy
      `products` (an empty array is truthy) and once more for a truthy
      `currentProduct`, then delete the global. */
  function ConsumePayload(c: Client): (c': Client)
    ensures c'.payload.None?
    ensures c.payload.None? ==> c' == c
    ensures c.payload.Some? ==>
              var d := c.payload.value;
              var n := (if d.products.Some? then 1 else 0) + (if d.currentProduct.Some? then 1 else 0);
              && c'.dispatches == c.dispatches + n
              && c'.store == (if n > 0 then d else c.store)
              && c' == c.(payload := None, store := c'.store, dispatches := c'.dispatches)
  {
    match c.payload
    case None => c
    case Some(d) =>
      var c1 := if d.products.Some? then Setup(c, d) else c;
      var c2 := if d.currentProduct.Some? then Setup(c1, d) else c1;
      c2.(payload := None)
  }

  /** Consuming is one-shot: a second check finds nothing and changes
      nothing. */
  lemma ConsumeOnce(c: Client)
    ensures ConsumePayload(ConsumePayload(c)) == ConsumePayload(c)
  {
  }

  /** `main()` */
  function Main(c: Client): (c': Client)
    ensures c'.routes == c.routes + ClientRoutes
    ensures c'.startedWith == Some(c.routes + ClientRoutes)
    ensures c'.payload.None?
    ensures c'.mount == Some(if c.rootHasChildren then Hydrate else FreshRender)
  {
    var registered := c.(routes := c.routes + ClientRoutes);
    var started := registered.(startedWith := Some(registered.routes));
    var consumed := ConsumePayload(started);
    consumed.(mount := Some(if consumed.rootHasChildren then Hydrate else FreshRender))
  }

  /** On a fresh page: the three routes are registered in order before the
      router starts; a payload with `products` or `currentProduct` lands
      in the store (with both, the same `SETUP` runs twice); one with
      neither leaves the store alone; and either way the global is gone. */
  lemma MainFromServerPayload(c: Client, d: State)
    requires c.routes == [] && c.payload == Some(d) && c.dispatches == 0
    ensures var c' := Main(c);
            && c'.startedWith == Some(["/", "/product/:id/", ".*"])
            && c'.payload.None?
            && (d.products.Some? || d.currentProduct.Some? ==> c'.store == d)
            && (d.products.Some? && d.currentProduct.Some? ==> c'.dispatches == 2)
            && (d.products.None? && d.currentProduct.None? ==> c'.store == c.store && c'.dispatches == 0)
  {
    assert c.routes + ClientRoutes == ClientRoutes;
  }
}
