/** The per-request behaviour of the handler `timeoutFn(middleware, ms)`
    returns. Each call of that handler is an `Invocation`: it schedules a timer,
    builds a wrapped continuation and calls the original middleware once. After
    that, two kinds of event can happen, in any order and any number of times:
    the middleware calls the wrapped continuation (`Continue`), or the event
    loop reaches the timer (`TimerFires`). Wall-clock time and the event loop
    are abstracted into that order of events. */
module TimeoutWrapper {
  import opened Handlers

  /** The timer behind `timeoutId`. */
  datatype TimerState = Pending | Cancelled | Fired

  /** The two events an invocation reacts to. */
  datatype Event = Next(err: ErrArg) | Tick

  /** What an invocation has done so far: its timer, how many times it has
      called the logger, and the arguments it has passed to the real `next`. */
  datatype WrapperState = WrapperState(timer: TimerState, logs: nat, forwarded: seq<ErrArg>)

  /** The state right after the wrapper has been called. */
  const Start := WrapperState(Pending, 0, [])

  /** One event. The wrapped continuation clears the timer (a no-op unless it
      is still pending) and always forwards its argument; the timer's callback
      runs only while the timer is pending, and calls the logger. */
  function Step(s: WrapperState, e: Event): WrapperState
  {
    match e
    case Next(err) =>
      s.(timer := if s.timer == Pending then Cancelled else s.timer, forwarded := s.forwarded + [err])
    case Tick =>
      if s.timer == Pending then s.(timer := Fired, logs := s.logs + 1) else s
  }

  /** A sequence of events, applied in order. */
  function Run(s: WrapperState, events: seq<Event>): WrapperState
    decreases |events|
  {
    if events == [] then s else Run(Step(s, events[0]), events[1..])
  }

  /** The arguments of the continuation calls among `events`, in order. */
  function Forwarded(events: seq<Event>): seq<ErrArg>
    decreases |events|
  {
    if events == [] then []
    else (if events[0].Next? then [events[0].err] else []) + Forwarded(events[1..])
  }

  /** Every continuation call reaches the real `next` with its own argument,
      before and after the timer fired alike, and nothing else does. */
  lemma {:induction false} RunForwardsEveryCall(s: WrapperState, events: seq<Event>)
    ensures Run(s, events).forwarded == s.forwarded + Forwarded(events)
    decreases |events|
  {
    if events != [] {
      RunForwardsEveryCall(Step(s, events[0]), events[1..]);
    }
  }

  /** Once the timer has been cleared or has fired, no event changes it and
      the logger is not called again. */
  lemma {:induction false} RunAfterSettled(s: WrapperState, events: seq<Event>)
    requires s.timer != Pending
    ensures Run(s, events).timer == s.timer
    ensures Run(s, events).logs == s.logs
    decreases |events|
  {
    if events != [] {
      RunAfterSettled(Step(s, events[0]), events[1..]);
    }
  }

  /** From the start of an invocation: the logger is called exactly when the
      timer fires before the continuation is first called, so at most once and
      never when the continuation came first; the timer is still pending only
      while nothing has happened. */
  lemma RunFromStart(events: seq<Event>)
    ensures Run(Start, events).logs <= 1
    ensures Run(Start, events).logs == 1 <==> events != [] && events[0] == Tick
    ensures Run(Start, events).timer ==
      if events == [] then Pending else if events[0] == Tick then Fired else Cancelled
    ensures Run(Start, events).forwarded == Forwarded(events)
  {
    RunForwardsEveryCall(Start, events);
    if events != [] {
      RunAfterSettled(Step(Start, events[0]), events[1..]);
    }
  }

  /** The logger's arguments: the original middleware, `req` and `res`. */
  datatype LoggerCall = LoggerCall(middleware: Handler, req: Request, res: Response)

  /** A call of the original middleware, with the request and response the
      wrapper received; its continuation is the invocation's `Continue`. */
  datatype MiddlewareCall = MiddlewareCall(middleware: Handler, req: Request, res: Response)

  /** One call of the handler `timeoutFn(middleware, ms)` returns. */
  class Invocation {
    const middleware: Handler
    const ms: int
    const req: Request
    const res: Response
    var timer: TimerState
    var loggerCalls: seq<LoggerCall>
    var forwarded: seq<ErrArg>
    var middlewareCalls: seq<MiddlewareCall>

    /** The invocation's state in terms of the reference `Step`. */
    ghost function State(): WrapperState
      reads this
    {
      WrapperState(timer, |loggerCalls|, forwarded)
    }

    ghost predicate Valid()
      reads this
    {
      middlewareCalls == [MiddlewareCall(middleware, req, res)] &&
      (forall c :: c in loggerCalls ==> c == LoggerCall(middleware, req, res)) &&
      |loggerCalls| == (if timer == Fired then 1 else 0) &&
      (timer == Pending ==> forwarded == [])
    }

    /** Calling `timeoutFn(middleware, ms)` with `req`, `res`: the timer is
        scheduled, and the original middleware is called exactly once with the
        same request and response. */
    constructor Invoke(middleware: Handler, ms: int, req: Request, res: Response)
      ensures Valid()
      ensures this.middleware == middleware && this.ms == ms && this.req == req && this.res == res
      ensures State() == Start
      ensures middlewareCalls == [MiddlewareCall(middleware, req, res)]
    {
      this.middleware := middleware;
      this.ms := ms;
      this.req := req;
      this.res := res;
      timer := Pending;
      loggerCalls := [];
      forwarded := [];
      middlewareCalls := [MiddlewareCall(middleware, req, res)];
    }

    /** The wrapped continuation `nextFn(err)`: clear the timer, then call the
        real `next` with the same `err`. */
    method Continue(err: ErrArg)
      requires Valid()
      modifies this
      ensures Valid()
      ensures State() == Step(old(State()), Next(err))
      ensures timer == (if old(timer) == Pending then Cancelled else old(timer))
      ensures forwarded == old(forwarded) + [err]
      ensures loggerCalls == old(loggerCalls) && middlewareCalls == old(middlewareCalls)
    {
      if timer == Pending {
        timer := Cancelled;
      }
      forwarded := forwarded + [err];
    }

    /** The event loop reaches the timer. A cleared timer's callback never
        runs; a pending one calls the logger with the original middleware,
        `req` and `res`, and does not call `next`. */
    method TimerFires()
      requires Valid()
      modifies this
      ensures Valid()
      ensures State() == Step(old(State()), Tick)
      ensures timer == (if old(timer) == Pending then Fired else old(timer))
      ensures loggerCalls ==
        old(loggerCalls) + (if old(timer) == Pending then [LoggerCall(middleware, req, res)] else [])
      ensures forwarded == old(forwarded) && middlewareCalls == old(middlewareCalls)
    {
      if timer == Pending {
        timer := Fired;
        loggerCalls := loggerCalls + [LoggerCall(middleware, req, res)];
      }
    }
  }

  /** A middleware that calls its continuation before the budget runs out:
      the real `next` is called and the logger is not. */
  method FastMiddleware(middleware: Handler, ms: int, req: Request, res: Response)
    returns (logged: seq<LoggerCall>, nexts: seq<ErrArg>)
    ensures logged == [] && nexts == [Undefined]
  {
    var inv := new Invocation.Invoke(middleware, ms, req, res);
    inv.Continue(Undefined);
    inv.TimerFires();
    logged, nexts := inv.loggerCalls, inv.forwarded;
  }

  /** A middleware that calls its continuation only after the timer fired:
      the logger is called once, with the original middleware, `req` and
      `res`, and the real `next` is still called. */
  method SlowMiddleware(middleware: Handler, ms: int, req: Request, res: Response)
    returns (logged: seq<LoggerCall>, nexts: seq<ErrArg>)
    ensures logged == [LoggerCall(middleware, req, res)] && nexts == [Undefined]
  {
    var inv := new Invocation.Invoke(middleware, ms, req, res);
    inv.TimerFires();
    inv.Continue(Undefined);
    logged, nexts := inv.loggerCalls, inv.forwarded;
  }
}
