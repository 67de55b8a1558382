/** The decisions of Flask.dispatch_request: which view runs for a matched
    request, and what becomes of an exception raised by matching or by the
    view (an error handler's result, the exception itself, or a re-raise). */
module Dispatch {
  import opened Values
  import opened Responses

  /** The two `except` clauses of dispatch_request. An HTTPException goes to
      the handler registered for its code, and is itself the result when
      there is none. Any other Exception goes to the handler for 500 unless
      debug is on or there is no such handler, in which case it is
      re-raised. A BaseException outside Exception is not caught. */
  function HandleException(exc: Exc, handlers: map<int, ErrorHandlerFn>, debug: bool): (r: Outcome<Option<ReturnValue>>)
    ensures r == Raised(exc) || (exc.Http? && r == Returned(Some(HttpExceptionObject(exc.http))))
         || exists code :: code in handlers && r == handlers[code](exc)
    ensures exc.Interrupt? || (exc.Error? && (debug || InternalServerErrorCode !in handlers)) ==> r == Raised(exc)
    ensures exc.Http? && r.Raised? ==> exc.http.code in handlers
    ensures exc.Http? && exc.http.code in handlers ==> r == handlers[exc.http.code](exc)
    ensures exc.Error? && !debug && InternalServerErrorCode in handlers ==> r == handlers[InternalServerErrorCode](exc)
  {
    match exc
    case Http(e) =>
      if e.code in handlers then handlers[e.code](exc) else Returned(Some(HttpExceptionObject(e)))
    case Error(_) =>
      if debug || InternalServerErrorCode !in handlers then Raised(exc)
      else handlers[InternalServerErrorCode](exc)
    case Interrupt(_) => Raised(exc)
  }

  /** The body of dispatch_request once the URL adapter has produced `m`:
      a failed match raises its HTTPException; a matched endpoint without a
      view function raises KeyError; otherwise the view's return value is
      the result or its exception is handled. */
  function DispatchResult(m: RouteMatch, views: map<string, ViewFunction>, handlers: map<int, ErrorHandlerFn>,
                          debug: bool): (r: Outcome<Option<ReturnValue>>)
    ensures (m.Matched? && m.endpoint in views && views[m.endpoint](m.args).Returned? && r == views[m.endpoint](m.args))
         || exists e :: r == HandleException(e, handlers, debug)
    ensures m.NoMatch? ==> r == HandleException(Http(m.http), handlers, debug)
    ensures m.Matched? && m.endpoint !in views ==> r == HandleException(KeyError, handlers, debug)
    ensures m.Matched? && m.endpoint in views && views[m.endpoint](m.args).Returned? ==> r == views[m.endpoint](m.args)
    ensures m.Matched? && m.endpoint in views && views[m.endpoint](m.args).Raised? ==>
      r == HandleException(views[m.endpoint](m.args).exc, handlers, debug)
  {
    match m
    case NoMatch(e) => HandleException(Http(e), handlers, debug)
    case Matched(endpoint, args) =>
      if endpoint !in views then HandleException(KeyError, handlers, debug)
      else
        match views[endpoint](args)
        case Returned(rv) => Returned(rv)
        case Raised(e) => HandleException(e, handlers, debug)
  }

  /** Debug mode never changes what happens to an HTTP error. */
  lemma HttpErrorsIgnoreDebug(e: HttpException, handlers: map<int, ErrorHandlerFn>)
    ensures HandleException(Http(e), handlers, true) == HandleException(Http(e), handlers, false)
  {
  }

  /** An HTTP error with no handler for its code is returned as a value, and
      the response made from it carries that code. */
  lemma UnhandledHttpErrorKeepsCode(e: HttpException, handlers: map<int, ErrorHandlerFn>, debug: bool)
    requires e.code !in handlers
    ensures HandleException(Http(e), handlers, debug) == Returned(Some(HttpExceptionObject(e)))
    ensures MakeResponse(HandleException(Http(e), handlers, debug).value) == Returned(ErrorPage(e))
    ensures MakeResponse(HandleException(Http(e), handlers, debug).value).value.status == e.code
  {
  }

  /** The handler most recently registered for a code is the one that runs;
      for 500 only when debug is off. */
  lemma LatestHandlerWins(handlers: map<int, ErrorHandlerFn>, code: int, f: ErrorHandlerFn, exc: Exc, debug: bool)
    ensures exc.Http? && exc.http.code == code ==> HandleException(exc, handlers[code := f], debug) == f(exc)
    ensures exc.Error? && code == InternalServerErrorCode && !debug ==>
      HandleException(exc, handlers[code := f], debug) == f(exc)
  {
  }

  /** In debug mode an ordinary exception always propagates, whatever
      handlers are registered. */
  lemma DebugReraises(kind: string, handlers: map<int, ErrorHandlerFn>)
    ensures HandleException(Error(kind), handlers, true) == Raised(Error(kind))
  {
  }

  /** Exceptions are swallowed only by handlers: with debug off, a handler
      for 500, and handlers that do not raise, dispatching never raises
      except for a BaseException from the view. */
  lemma HandledDispatchDoesNotRaise(m: RouteMatch, views: map<string, ViewFunction>, handlers: map<int, ErrorHandlerFn>)
    requires InternalServerErrorCode in handlers
    requires forall code :: code in handlers ==> forall x :: handlers[code](x).Returned?
    ensures DispatchResult(m, views, handlers, false).Raised? ==>
      m.Matched? && m.endpoint in views && views[m.endpoint](m.args).Raised?
      && views[m.endpoint](m.args).exc.Interrupt?
  {
  }

  /** With debug on and a view that raises an ordinary exception, that very
      exception propagates out of dispatching. */
  lemma DebugViewFailurePropagates(endpoint: string, args: Args, views: map<string, ViewFunction>,
                                   handlers: map<int, ErrorHandlerFn>, kind: string)
    requires endpoint in views && views[endpoint](args) == Raised(Error(kind))
    ensures DispatchResult(Matched(endpoint, args), views, handlers, true) == Raised(Error(kind))
  {
  }
}
