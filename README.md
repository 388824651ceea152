# debug-middleware, modelled in Dafny

`debug-middleware.js` instruments an Express application so that a handler
that stalls is reported. `debug(app, msTimeout)` resolves the timeout
(`msTimeout || 5000`) and runs two chain scanners with it:

- `shimRoutes` wraps every callback of every route under every HTTP method;
- `shimMiddleware` wraps every handle of `app.stack` except the router and
  every handle whose declared parameter count is not 3 (error handlers).

Wrapping is `timeoutFn(handler, ms)`. Each call of the returned handler starts
a timer, calls the original handler with a wrapped continuation, and then:
if the continuation is called first, it clears the timer and forwards its
argument to the real `next`; if the timer fires first, `callLogger` reports
the original handler, the request's host and URL. The continuation still
forwards after the timer fired.

The model:

- `handlers.dfy`, module `Handlers`: handlers as values
  (`Fn(id, arity, src)` for registered functions, `Wrapped(inner, ms)` for
  what `timeoutFn` returns), stack layers, routes, the route registry and
  requests. A handler's `length` and `toString()` are its `Arity` and
  `Source`. Handler identity is value equality.
- `shim.dfy`, module `Shim`: the `App` class (`router`, the `stack` array,
  the `routes` registry); `ShimMiddleware` updates the stack array in place
  with a loop; `ShimRoutes` runs the three nested loops of the source over
  methods, routes and callback indices; `Debug` drives both. Each method is
  proved against a specification function (`ShimStack`, `ShimTable`), and the
  lemmas state what those functions keep and change.
- `timeout_wrapper.dfy`, module `TimeoutWrapper`: one call of a wrapped
  handler is an `Invocation` object with a timer state
  `Pending | Cancelled | Fired`. Its event methods are `Continue(err)` and
  `TimerFires()`. The object records the logger calls, the arguments passed to
  `next` and the call of the original middleware. A pure reference, `Step` and
  `Run` over event sequences, states the same behaviour. Each event method's
  contract ties the object to `Step`, and the lemmas about `Run` give the
  properties over every order of events.
- `logger.dfy`, module `Logger`: the string `callLogger` builds.

Two consequences of the code as written:

- The wrapper always declares three parameters and calls `middleware(req,
  res, nextFn)`. So a 4-parameter route callback that `shimRoutes` wraps is
  called as `(req, res, next)`. The model gives every wrapped handler arity 3
  (`WrapperArity`).
- The code does not validate the host. A missing `routes` raises a TypeError
  when `app.routes.routes` is read. A missing `stack` makes the `for ... in`
  of `shimMiddleware` run zero times, so that pass silently does nothing. The
  model's types rule out malformed hosts.

The route table is selected as `app.routes.routes || app.routes`: in older
hosts `app.routes` is a router object holding the table, in newer ones it is
the table itself. `Handlers.Registry.Table` makes that choice, and
`ShimRoutes` writes the shimmed table back into the same place.

## Model

| member | source | states |
|---|---|---|
| `Shim.ResolveTimeout` | debug-middleware.js:2 | a missing timeout and 0 both resolve to 5000; any other integer is kept, negative ones included; the result is never 0 |
| `Shim.Debug` | debug-middleware.js:1-5 | the route table becomes `ShimTable` and the stack becomes `ShimStack` of their old values, both with the same resolved timeout |
| `Shim.ShimMiddleware` | debug-middleware.js:20-27 | the stack array, updated in place, equals `ShimStack` of its old contents |
| `Shim.ShimStackAt` | debug-middleware.js:21-26 | the pass keeps the stack's length and order and decides each entry on its own |
| `Shim.ShimStackEntry` | debug-middleware.js:23-25 | an entry's mount path never changes; its handle changes if and only if it is neither the router nor of arity other than 3, and then becomes `timeoutFn(handle, ms)`; the router entry and every error handler stay identical |
| `Shim.ShimStackKeepsRouter` | tests/debug-middleware.js:70-82 | a stack that holds the router still holds it after the pass |
| `Shim.ShimStackTwice` | debug-middleware.js:23-25 | a second pass wraps every eligible handle again, because the wrapper takes three parameters and is not the router, so the pass is not idempotent |
| `Shim.WrapAllAt` | debug-middleware.js:12-15 | wrapping a callback chain keeps its length and order and wraps every position |
| `Shim.ShimCallbacks` | debug-middleware.js:12-15 | the index loop over `route.callbacks` yields every callback wrapped, in the same order |
| `Shim.ShimRouteSeq` | debug-middleware.js:11-16 | the loop over one method's routes shims every route and keeps their order |
| `Shim.ShimRoutes` | debug-middleware.js:7-18 | the registry's table becomes `ShimTable` of the old one; the stack, and so the router entry, is unchanged |
| `Shim.ShimTableKeys` | debug-middleware.js:9 | the route pass keeps exactly the same set of HTTP methods |
| `Shim.ShimTableRoutes` | debug-middleware.js:10-16 | under every method, the same routes in the same order, each with the same path and the same number of callbacks, routes without callbacks included |
| `Shim.ShimTableCallback` | debug-middleware.js:12-15 | every callback at every index of every route is replaced by `timeoutFn(callback, ms)`, with no exclusions |
| `TimeoutWrapper.RunForwardsEveryCall` | debug-middleware.js:35-38 | every call of the wrapped continuation reaches the real `next` with its own argument, before and after the timer fired alike, and nothing else calls `next` |
| `TimeoutWrapper.RunAfterSettled` | debug-middleware.js:31-36 | once the timer is cleared or has fired, no event changes it and the logger is not called again |
| `TimeoutWrapper.RunFromStart` | debug-middleware.js:30-41 | the logger is called exactly when the timer fires before the first continuation call, so at most once and never when the continuation came first |
| `TimeoutWrapper.Invocation.Invoke` | debug-middleware.js:30-40 | a call of the wrapper starts with a pending timer, no log and no forwarded call, and calls the original middleware once with the same request and response |
| `TimeoutWrapper.Invocation.Continue` | debug-middleware.js:35-38 | the continuation clears a pending timer (a no-op otherwise), appends its argument to the calls of `next`, and is the `Next` step of the reference |
| `TimeoutWrapper.Invocation.TimerFires` | debug-middleware.js:31-33 | a pending timer fires and calls the logger with the original middleware, `req` and `res`; a cleared or fired timer does nothing; `next` is not called; it is the `Tick` step of the reference |
| `TimeoutWrapper.FastMiddleware` | tests/debug-middleware.js:208-230 | a middleware that continues before the timer: `next` is called once and the logger never |
| `TimeoutWrapper.SlowMiddleware` | tests/debug-middleware.js:232-251 | a middleware that continues after the timer: the logger is called once with the middleware, `req` and `res`, and `next` is still called |
| `Logger.LogMessage` | debug-middleware.js:44-50 | the report is the marker, then host and URL, then the handler's source text, as consecutive slices; an undefined host or URL is written as ""; a request without headers raises instead |
| `Logger.LogMessageMentions` | debug-middleware.js:45-50 | a report contains "took too long", the host immediately followed by the URL, and the handler's source |
| `Logger.LogMessageIdentifiesSource` | debug-middleware.js:49 | for one request, two handlers give the same report if and only if their source texts agree |

## Left out

- The real `setTimeout`/`clearTimeout` and the event loop: the timer is the
  abstract events `Tick` and `Next`; durations do not decide their order in
  the model, and `setTimeout`'s clamping of out-of-range delays is not modelled.
- The `console.warn` sink: only the string and the logger's arguments are
  modelled.
- A synchronous exception thrown by the original middleware: the source does
  not catch it and the timer stays pending; exceptions are not modelled.
- Identity of closures: every call of `timeoutFn` returns a new function in
  JavaScript, while `Wrapped(h, ms)` equals every other wrapper of `h` with
  the same `ms`.
- Route records are values: the route pass builds the new table and assigns
  it. In-place update of shared route objects and their aliasing are not
  modelled.
- `for ... in` over `app.stack` visits the array's indices; extra enumerable
  properties and holes of sparse arrays are not modelled.
- Timeouts are integers. The falsy values `undefined`, `null`, `false`, `NaN`
  and `""` of `msTimeout` are all `Missing`. Fractional timeouts, `Infinity`
  and non-numeric truthy timeouts are not modelled.
- `shimMiddleware` and `shimRoutes` called directly without a timeout pass
  `undefined` on to `timeoutFn`; the model's passes always take an integer.
- TimeoutWrapper.Invocation.Invoke: records the request and response the
  middleware is called with, not the continuation object it receives (that
  continuation is the invocation's own `Continue`).
- Calls through the mutable `exports` object, which the tests use to substitute
  functions, are direct calls in the model.
- example/app.js (server construction and `listen`), Express routing, URL
  matching and request dispatch are not part of this model.
