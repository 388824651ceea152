/** Values the instrumentation layer reads and rewrites: request handlers, the
    layers of the application's middleware stack, route records and requests.
    JavaScript introspection of a function (`length`, `toString()`) becomes
    fields of an abstract handler. */
module Handlers {

  datatype Option<+T> = None | Some(value: T)

  /** A request handler. `Fn` is a function registered by the application,
      identified by `id` (two handlers are the same function exactly when they
      are equal), with its declared parameter count and its source text.
      `Wrapped` is the function `timeoutFn(inner, ms)` returns. */
  datatype Handler =
    | Fn(id: nat, arity: nat, src: string)
    | Wrapped(inner: Handler, ms: int)

  /** The wrapper returned by `timeoutFn` is a function expression with the
      three parameters (req, res, next). Its `toString()` is the whole text of
      that expression, body included; `WrapperSource` is a stand-in for it. */
  const WrapperArity: nat := 3
  const WrapperSource: string := "function(req, res, next)"

  /** `handler.length`: the declared parameter count. */
  function Arity(h: Handler): nat
  {
    match h
    case Fn(_, arity, _) => arity
    case Wrapped(_, _) => WrapperArity
  }

  /** `handler.toString()`: the handler's source text. */
  function Source(h: Handler): string
  {
    match h
    case Fn(_, _, src) => src
    case Wrapped(_, _) => WrapperSource
  }

  /** An entry of `app.stack`: the mount path and the handle. */
  datatype Layer = Layer(route: string, handle: Handler)

  /** A route record: its path pattern and its callback chain. */
  datatype Route = Route(path: string, callbacks: seq<Handler>)

  /** The route table: HTTP method name to the routes registered under it. */
  type Table = map<string, seq<Route>>

  /** What `app.routes` holds. In older hosts it is a router object whose
      `routes` property is the table; in newer hosts it is the table itself. */
  datatype Registry = Legacy(routes: Table) | Current(table: Table)
  {
    /** `app.routes.routes || app.routes` */
    function Table(): Table
    {
      match this
      case Legacy(routes) => routes
      case Current(table) => table
    }

    /** The registry with the table picked by `Table()` replaced. */
    function WithTable(t: Table): (r: Registry)
      ensures r.Table() == t
      ensures r.Legacy? == Legacy?
    {
      match this
      case Legacy(_) => Legacy(t)
      case Current(_) => Current(t)
    }
  }

  /** The parts of a request the core reads. `headers` is `None` when
      `req.headers` is undefined; a header or URL that is undefined is `None`. */
  datatype Request = Request(id: nat, headers: Option<map<string, string>>, url: Option<string>)

  /** A response object; the core only passes it along. */
  datatype Response = Response(id: nat)

  /** The argument a continuation is called with: `undefined` or an error.
      Other values (`null`, Express's `'route'`) are not distinguished; the
      wrapper forwards whatever it receives unchanged. */
  datatype ErrArg = Undefined | Error(message: string)
}
