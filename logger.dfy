/** The diagnostic formatter `callLogger`: the single line reported when a
    wrapped handler does not call its continuation in time. Only the string is
    modelled; the sink it is written to is not. */
module Logger {
  import opened Handlers

  /** The fixed phrase every report starts with, and the words in it that
      name the condition. */
  const Lead: string := "A route middleware "
  const Condition: string := "took too long"
  const Marker: string := Lead + Condition + " to execute: "

  /** `Array.prototype.join` writes an undefined element as the empty string. */
  function Joined(v: Option<string>): string
  {
    match v
    case None => ""
    case Some(s) => s
  }

  /** `headers.host` */
  function HostHeader(headers: map<string, string>): Option<string>
  {
    if "host" in headers then Some(headers["host"]) else None
  }

  /** The host header as `join` renders it, or "" when `req.headers` is undefined. */
  function HostText(req: Request): string
  {
    match req.headers
    case None => ""
    case Some(h) => Joined(HostHeader(h))
  }

  /** The string `callLogger(middleware, req, res)` builds: the marker, the
      host header, the URL and the handler's source text, in that order.
      `None` stands for the TypeError raised by `req.headers.host` when the
      request has no headers object. */
  function LogMessage(middleware: Handler, req: Request): (r: Option<string>)
    ensures r.Some? <==> req.headers.Some?
    ensures r.Some? ==>
      var host, url, src := HostText(req), Joined(req.url), Source(middleware);
      |r.value| == |Marker| + |host| + |url| + |src| &&
      r.value[..|Marker|] == Marker &&
      r.value[|Marker|..|Marker| + |host| + |url|] == host + url &&
      r.value[|r.value| - |src|..] == src
  {
    match req.headers
    case None => None
    case Some(h) => Some(Marker + Joined(HostHeader(h)) + Joined(req.url) + Source(middleware))
  }

  /** `needle` occurs somewhere in `hay`. */
  predicate Occurs(needle: string, hay: string)
  {
    exists i, j :: 0 <= i <= j <= |hay| && hay[i..j] == needle
  }

  /** A report names the slow-handler condition, the host immediately followed
      by the URL, and the handler's source (hence its name, when it has one). */
  lemma LogMessageMentions(middleware: Handler, req: Request)
    requires req.headers.Some?
    ensures LogMessage(middleware, req).Some?
    ensures Occurs(Condition, LogMessage(middleware, req).value)
    ensures Occurs(HostText(req) + Joined(req.url), LogMessage(middleware, req).value)
    ensures Occurs(Source(middleware), LogMessage(middleware, req).value)
  {
    var r := LogMessage(middleware, req).value;
    var host, url, src := HostText(req), Joined(req.url), Source(middleware);
    assert Marker[|Lead|..|Lead| + |Condition|] == Condition;
    assert r[|Lead|..|Lead| + |Condition|] == r[..|Marker|][|Lead|..|Lead| + |Condition|];
    assert r[|Marker|..|Marker| + |host| + |url|] == host + url;
    assert r[|r| - |src|..|r|] == src;
  }

  /** For one request, two handlers give the same report exactly when their
      source texts agree: the report identifies the handler as far as its
      source does. */
  lemma LogMessageIdentifiesSource(m1: Handler, m2: Handler, req: Request)
    requires req.headers.Some?
    ensures LogMessage(m1, req) == LogMessage(m2, req) <==> Source(m1) == Source(m2)
  {
  }
}
