/** The chain scanners and the setup entry point: `shimMiddleware` rewrites
    the application's middleware stack in place, `shimRoutes` rewrites every
    callback of every route, and `debug` runs both with one resolved timeout.
    Wrapping a handler is `Wrapped(h, ms)`, the value `timeoutFn(h, ms)`
    returns; what that wrapper does per request is module TimeoutWrapper. */
module Shim {
  import opened Handlers

  /** The parts of an Express application the scanners touch. */
  class App {
    /** `app.router`, compared by identity against each stack entry. */
    const router: Handler
    /** `app.stack`, whose entries' handles are replaced in place. */
    const stack: array<Layer>
    /** `app.routes` */
    var routes: Registry

    constructor (router: Handler, stack: array<Layer>, routes: Registry)
      ensures this.router == router && this.stack == stack && this.routes == routes
    {
      this.router := router;
      this.stack := stack;
      this.routes := routes;
    }
  }

  // ---------------------------------------------------------------------------
  // The middleware stack

  /** `shimMiddleware` wraps a handle unless it is the router or its declared
      parameter count is other than 3 (error handlers take 4). */
  predicate Eligible(router: Handler, h: Handler)
  {
    h != router && Arity(h) == 3
  }

  function ShimLayer(router: Handler, layer: Layer, ms: int): Layer
  {
    if Eligible(router, layer.handle) then layer.(handle := Wrapped(layer.handle, ms)) else layer
  }

  /** The stack after `shimMiddleware`, entry by entry. */
  function ShimStack(router: Handler, stack: seq<Layer>, ms: int): seq<Layer>
    decreases |stack|
  {
    if stack == [] then [] else [ShimLayer(router, stack[0], ms)] + ShimStack(router, stack[1..], ms)
  }

  /** `ShimStack` keeps the length and order of the stack and treats each entry
      on its own. */
  lemma {:induction false} ShimStackAt(router: Handler, stack: seq<Layer>, ms: int, k: nat)
    requires k < |stack|
    ensures |ShimStack(router, stack, ms)| == |stack|
    ensures ShimStack(router, stack, ms)[k] == ShimLayer(router, stack[k], ms)
    decreases |stack|
  {
    if k == 0 {
      if |stack| > 1 {
        ShimStackAt(router, stack[1..], ms, 0);
      }
    } else {
      ShimStackAt(router, stack[1..], ms, k - 1);
    }
  }

  /** What `shimMiddleware` does to one entry: its mount path never changes;
      its handle changes exactly when it is neither the router nor a handle
      whose arity is other than 3, and then it becomes `timeoutFn(handle, ms)`.
      In particular the router entry and every error handler stay identical. */
  lemma {:induction false} ShimStackEntry(router: Handler, stack: seq<Layer>, ms: int, k: nat)
    requires k < |stack|
    ensures |ShimStack(router, stack, ms)| == |stack|
    ensures ShimStack(router, stack, ms)[k].route == stack[k].route
    ensures ShimStack(router, stack, ms)[k] != stack[k] <==> Eligible(router, stack[k].handle)
    ensures stack[k].handle == router ==> ShimStack(router, stack, ms)[k] == stack[k]
    ensures Arity(stack[k].handle) != 3 ==> ShimStack(router, stack, ms)[k] == stack[k]
    ensures Eligible(router, stack[k].handle) ==>
      ShimStack(router, stack, ms)[k].handle == Wrapped(stack[k].handle, ms)
  {
    ShimStackAt(router, stack, ms, k);
  }

  /** A stack that holds the router still holds it after the pass. */
  lemma {:induction false} ShimStackKeepsRouter(router: Handler, stack: seq<Layer>, ms: int, k: nat)
    requires k < |stack| && stack[k].handle == router
    ensures exists j :: 0 <= j < |ShimStack(router, stack, ms)| && ShimStack(router, stack, ms)[j].handle == router
  {
    ShimStackAt(router, stack, ms, k);
  }

  /** Running the pass twice is not idempotent: an eligible handle is wrapped
      again, because the wrapper itself takes three parameters and is not the
      router. */
  lemma {:induction false} ShimStackTwice(router: Handler, stack: seq<Layer>, ms: int, k: nat)
    requires router.Fn?
    requires k < |stack| && Eligible(router, stack[k].handle)
    ensures |ShimStack(router, ShimStack(router, stack, ms), ms)| == |stack|
    ensures ShimStack(router, ShimStack(router, stack, ms), ms)[k].handle
         == Wrapped(Wrapped(stack[k].handle, ms), ms)
  {
    ShimStackAt(router, stack, ms, k);
    ShimStackAt(router, ShimStack(router, stack, ms), ms, k);
  }

  /** `shimMiddleware(app, ms)`: for each index of `app.stack`, skip the router
      and every handle of arity other than 3, and replace the handle of every
      other entry by `timeoutFn(handle, ms)`. */
  method ShimMiddleware(app: App, ms: int)
    modifies app.stack
    ensures app.stack[..] == ShimStack(app.router, old(app.stack[..]), ms)
  {
    var stack := app.stack;
    var i := 0;
    while i < stack.Length
      invariant 0 <= i <= stack.Length
      invariant forall k :: 0 <= k < i ==> stack[k] == ShimLayer(app.router, old(stack[k]), ms)
      invariant forall k :: i <= k < stack.Length ==> stack[k] == old(stack[k])
    {
      var middleware := stack[i];
      if app.router != middleware.handle && Arity(middleware.handle) == 3 {
        stack[i] := middleware.(handle := Wrapped(middleware.handle, ms));
      }
      i := i + 1;
    }
    ghost var before := old(stack[..]);
    forall k | 0 <= k < stack.Length
      ensures |ShimStack(app.router, before, ms)| == stack.Length
      ensures stack[..][k] == ShimStack(app.router, before, ms)[k]
    {
      ShimStackAt(app.router, before, ms, k);
    }
    if stack.Length == 0 {
      assert before == [];
    }
  }

  // ---------------------------------------------------------------------------
  // The route table

  /** A callback chain with every callback wrapped. */
  function WrapAll(callbacks: seq<Handler>, ms: int): seq<Handler>
    decreases |callbacks|
  {
    if callbacks == [] then [] else [Wrapped(callbacks[0], ms)] + WrapAll(callbacks[1..], ms)
  }

  /** `WrapAll` keeps the chain's length and order and wraps every position. */
  lemma {:induction false} WrapAllAt(callbacks: seq<Handler>, ms: int, k: nat)
    requires k < |callbacks|
    ensures |WrapAll(callbacks, ms)| == |callbacks|
    ensures WrapAll(callbacks, ms)[k] == Wrapped(callbacks[k], ms)
    decreases |callbacks|
  {
    if k == 0 {
      if |callbacks| > 1 {
        WrapAllAt(callbacks[1..], ms, 0);
      }
    } else {
      WrapAllAt(callbacks[1..], ms, k - 1);
    }
  }

  /** A route after the pass: same path, every callback wrapped. */
  function ShimRoute(route: Route, ms: int): Route
  {
    route.(callbacks := WrapAll(route.callbacks, ms))
  }

  /** The routes registered under one method after the pass. */
  function ShimRouteList(routes: seq<Route>, ms: int): seq<Route>
  {
    seq(|routes|, j requires 0 <= j < |routes| => ShimRoute(routes[j], ms))
  }

  /** The route table after `shimRoutes`. */
  function ShimTable(table: Table, ms: int): Table
  {
    map m | m in table :: ShimRouteList(table[m], ms)
  }

  /** `shimRoutes` keeps the set of methods in the table. */
  lemma ShimTableKeys(table: Table, ms: int)
    ensures ShimTable(table, ms).Keys == table.Keys
  {
  }

  /** Under each method, `shimRoutes` keeps the routes in the same order, each
      with its path and its number of callbacks, empty callback chains
      included. */
  lemma ShimTableRoutes(table: Table, ms: int, m: string, j: nat)
    requires m in table && j < |table[m]|
    ensures m in ShimTable(table, ms)
    ensures |ShimTable(table, ms)[m]| == |table[m]|
    ensures ShimTable(table, ms)[m][j].path == table[m][j].path
    ensures |ShimTable(table, ms)[m][j].callbacks| == |table[m][j].callbacks|
  {
    var callbacks := table[m][j].callbacks;
    if callbacks == [] {
      assert WrapAll(callbacks, ms) == [];
    } else {
      WrapAllAt(callbacks, ms, 0);
    }
  }

  /** `shimRoutes` replaces every callback at every index of every route by
      `timeoutFn(callback, ms)`, with no exclusions. */
  lemma ShimTableCallback(table: Table, ms: int, m: string, j: nat, k: nat)
    requires m in table && j < |table[m]| && k < |table[m][j].callbacks|
    ensures m in ShimTable(table, ms) && j < |ShimTable(table, ms)[m]|
    ensures |ShimTable(table, ms)[m][j].callbacks| == |table[m][j].callbacks|
    ensures ShimTable(table, ms)[m][j].callbacks[k] == Wrapped(table[m][j].callbacks[k], ms)
  {
    WrapAllAt(table[m][j].callbacks, ms, k);
  }

  /** The innermost loop of `shimRoutes`: replace each `route.callbacks[i]` by
      `timeoutFn(route.callbacks[i], ms)`. */
  method ShimCallbacks(callbacks: seq<Handler>, ms: int) returns (wrapped: seq<Handler>)
    ensures wrapped == WrapAll(callbacks, ms)
  {
    wrapped := callbacks;
    var i := 0;
    while i < |wrapped|
      invariant 0 <= i <= |wrapped| == |callbacks|
      invariant forall k :: 0 <= k < i ==> wrapped[k] == Wrapped(callbacks[k], ms)
      invariant forall k :: i <= k < |wrapped| ==> wrapped[k] == callbacks[k]
    {
      wrapped := wrapped[i := Wrapped(wrapped[i], ms)];
      i := i + 1;
    }
    forall k | 0 <= k < |callbacks|
      ensures |WrapAll(callbacks, ms)| == |callbacks| && WrapAll(callbacks, ms)[k] == wrapped[k]
    {
      WrapAllAt(callbacks, ms, k);
    }
    if callbacks == [] {
      assert WrapAll(callbacks, ms) == [];
    }
  }

  /** `routes.forEach(...)`: shim every route registered under one method. */
  method ShimRouteSeq(routes: seq<Route>, ms: int) returns (shimmed: seq<Route>)
    ensures shimmed == ShimRouteList(routes, ms)
  {
    shimmed := routes;
    var j := 0;
    while j < |shimmed|
      invariant 0 <= j <= |shimmed| == |routes|
      invariant forall k :: 0 <= k < j ==> shimmed[k] == ShimRoute(routes[k], ms)
      invariant forall k :: j <= k < |shimmed| ==> shimmed[k] == routes[k]
    {
      var callbacks := ShimCallbacks(shimmed[j].callbacks, ms);
      shimmed := shimmed[j := shimmed[j].(callbacks := callbacks)];
      j := j + 1;
    }
  }

  /** `shimRoutes(app, ms)`: take the table as `app.routes.routes || app.routes`
      and, for every method in it, shim every route. The middleware stack,
      and with it the router entry, is left alone. */
  method ShimRoutes(app: App, ms: int)
    modifies app
    ensures app.routes == old(app.routes).WithTable(ShimTable(old(app.routes).Table(), ms))
    ensures app.stack[..] == old(app.stack[..])
  {
    var table := app.routes.Table();
    var result := table;
    var methods := table.Keys;
    while methods != {}
      invariant methods <= table.Keys && result.Keys == table.Keys
      invariant forall m :: m in table && m !in methods ==> result[m] == ShimRouteList(table[m], ms)
      invariant forall m :: m in methods ==> result[m] == table[m]
      invariant app.routes == old(app.routes)
      decreases methods
    {
      var m :| m in methods;
      var routes := ShimRouteSeq(result[m], ms);
      result := result[m := routes];
      methods := methods - {m};
    }
    assert result == ShimTable(table, ms);
    app.routes := app.routes.WithTable(result);
  }

  // ---------------------------------------------------------------------------
  // Setup

  /** The second argument of `debug`: `Missing` stands for every falsy value
      that is not a number (undefined, null, false, NaN, ""). */
  datatype TimeoutArg = Missing | Ms(value: int)

  const DefaultTimeout: int := 5000

  /** `msTimeout || 5000`: a missing timeout and 0 both give the default; any
      other number, negative ones included, is kept. */
  function ResolveTimeout(arg: TimeoutArg): (ms: int)
    ensures ms != 0
    ensures ms == DefaultTimeout <==> arg == Missing || arg.value == 0 || arg.value == DefaultTimeout
    ensures arg.Ms? && arg.value != 0 ==> ms == arg.value
  {
    if arg.Missing? || arg.value == 0 then DefaultTimeout else arg.value
  }

  /** `debug(app, msTimeout)`: resolve the timeout once and pass the same value
      to the route pass and then the stack pass. */
  method Debug(app: App, timeout: TimeoutArg)
    modifies app, app.stack
    ensures app.routes == old(app.routes).WithTable(ShimTable(old(app.routes).Table(), ResolveTimeout(timeout)))
    ensures app.stack[..] == ShimStack(app.router, old(app.stack[..]), ResolveTimeout(timeout))
  {
    var ms := ResolveTimeout(timeout);
    ShimRoutes(app, ms);
    ShimMiddleware(app, ms);
  }
}
