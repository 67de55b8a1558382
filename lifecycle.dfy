/** Properties of the whole request lifecycle that wsgi_app runs, stated
    over Flask.Respond (which WsgiApp is proved to compute). */
module Lifecycle {
  import opened Values
  import opened Responses
  import opened Hooks
  import opened Dispatch
  import opened FlaskApp

  /** When a before-request hook answers, no view runs: two applications
      that differ only in their routes, views, error handlers and debug flag
      produce the same response, which is the hook's value made into a
      response and post-processed. */
  lemma PreHookAnswerSkipsDispatch(a: Flask, b: Flask, environ: Environ)
    requires a.beforeRequestFuncs == b.beforeRequestFuncs && a.afterRequestFuncs == b.afterRequestFuncs
    requires a.secretKey == b.secretKey && a.sessionCookieName == b.sessionCookieName && a.loadCookie == b.loadCookie
    requires !Declines(RunBeforeHooks(a.beforeRequestFuncs, Request(environ, None, None)))
    ensures a.Respond(environ) == b.Respond(environ)
    ensures RunBeforeHooks(a.beforeRequestFuncs, Request(environ, None, None)).Returned? ==>
      a.Respond(environ)
      == a.Finish(RunBeforeHooks(a.beforeRequestFuncs, Request(environ, None, None)).value,
                  a.OpenSession(Request(environ, None, None)))
  {
  }

  /** Every response wsgi_app returns went through make_response and
      process_response, with the session opened for the request. */
  lemma ResponsesAreNormalised(app: Flask, environ: Environ)
    ensures app.Respond(environ).Returned? ==>
      exists rv :: MakeResponse(rv).Returned? && app.Respond(environ) == app.Finish(rv, app.OpenSession(Request(environ, None, None)))
  {
  }

  /** When every before-request hook returns None, the route is matched and
      the view's result (or its handled exception) is what gets normalised. */
  lemma HooksDeclineDispatch(app: Flask, environ: Environ)
    requires AllDecline(app.beforeRequestFuncs, Request(environ, None, None), |app.beforeRequestFuncs|)
    ensures var d := DispatchResult(app.router(app.urlRules, environ), app.viewFunctions, app.errorHandlers, app.debug);
      app.Respond(environ)
      == if d.Raised? then Raised(d.exc) else app.Finish(d.value, app.OpenSession(Request(environ, None, None)))
  {
    BeforeHooksResult(app.beforeRequestFuncs, Request(environ, None, None));
  }

  /** The first before-request hook that does not return None decides the
      response: the hooks before it have declined and the ones after it are
      irrelevant. */
  lemma FirstAnsweringHookDecides(app: Flask, environ: Environ, i: nat)
    requires i < |app.beforeRequestFuncs|
    requires AllDecline(app.beforeRequestFuncs, Request(environ, None, None), i)
    requires !Declines(app.beforeRequestFuncs[i](Request(environ, None, None)))
    ensures var rv := app.beforeRequestFuncs[i](Request(environ, None, None));
      app.Respond(environ)
      == if rv.Raised? then Raised(rv.exc) else app.Finish(rv.value, app.OpenSession(Request(environ, None, None)))
  {
    var request := Request(environ, None, None);
    var hooks := app.beforeRequestFuncs;
    var k := FirstAnswer(hooks, request);
    BeforeHooksResult(hooks, request);
    assert k == i;
  }

  /** The session is saved before any after-request hook runs: the first
      hook already receives a response carrying the session cookie. */
  lemma SessionSavedBeforeAfterHooks(app: Flask, rv: Option<ReturnValue>, session: Option<Session>)
    requires MakeResponse(rv).Returned? && app.afterRequestFuncs != []
    ensures var saved := SaveSession(session, app.sessionCookieName, MakeResponse(rv).value);
      && (session.Some? ==> saved.cookies[app.sessionCookieName] == session.value)
      && app.Finish(rv, session) == ThenAfterHooks(app.afterRequestFuncs[0](saved), app.afterRequestFuncs[1..])
  {
  }

  /** Without after-request hooks the final response is the normalised one
      with the session saved into it, and without a session it is exactly
      the normalised one. */
  lemma NoAfterHooksSavedResponse(app: Flask, rv: Option<ReturnValue>, session: Option<Session>)
    requires MakeResponse(rv).Returned? && app.afterRequestFuncs == []
    ensures app.Finish(rv, session) == Returned(SaveSession(session, app.sessionCookieName, MakeResponse(rv).value))
    ensures session.None? ==> app.Finish(rv, session) == MakeResponse(rv)
  {
  }

  /** An HTTP error raised by matching (such as NotFound) with no handler for
      its code, and no hooks, ends as that error's page with its code. */
  lemma UnhandledRoutingErrorResponse(app: Flask, environ: Environ)
    requires app.beforeRequestFuncs == [] && app.afterRequestFuncs == [] && app.secretKey.None?
    requires app.router(app.urlRules, environ).NoMatch?
    requires app.router(app.urlRules, environ).http.code !in app.errorHandlers
    ensures app.Respond(environ) == Returned(ErrorPage(app.router(app.urlRules, environ).http))
  {
  }
}
