/** The application object, the request context and the context stack of
    flask 0.1, with the module-level functions that work through the stack
    (flash, get_flashed_messages) and the request lifecycle wsgi_app runs. */
module FlaskApp {
  import opened Values
  import opened Responses
  import opened Hooks
  import opened Dispatch
  import opened Flashing

  /** The URL under which static files are served. */
  const StaticPath: string := "/static"

  /** The build-only rule the constructor adds for static files. */
  const StaticRule: Rule := Rule(StaticPath + "/<filename>", "static", None, true)

  /** The method list add_url_rule uses when none is given. */
  const DefaultMethods: seq<string> := ["GET"]

  /** The Flask class: the registry of views, URL rules, error handlers and
      hooks, and the entry point that runs one request. */
  class Flask {
    var debug: bool
    const packageName: string
    var secretKey: Option<string>
    const sessionCookieName: string
    var viewFunctions: map<string, ViewFunction>
    var errorHandlers: map<int, ErrorHandlerFn>
    var beforeRequestFuncs: seq<BeforeRequestHook>
    var afterRequestFuncs: seq<AfterRequestHook>
    var templateContextProcessors: seq<ContextProcessorFn>
    /** The rules of the URL map, in the order they were added. */
    var urlRules: seq<Rule>
    /** Werkzeug's matching of a bound URL map. */
    const router: Router
    /** SecureCookie.load_cookie. */
    const loadCookie: CookieLoader

    constructor (packageName: string, router: Router, loadCookie: CookieLoader)
      ensures !debug && this.packageName == packageName
      ensures secretKey == None && sessionCookieName == "session"
      ensures viewFunctions == map[] && errorHandlers == map[]
      ensures beforeRequestFuncs == [] && afterRequestFuncs == []
      ensures templateContextProcessors == [DefaultContextProcessor]
      ensures urlRules == [StaticRule]
      ensures this.router == router && this.loadCookie == loadCookie
    {
      debug := false;
      this.packageName := packageName;
      secretKey := None;
      sessionCookieName := "session";
      viewFunctions := map[];
      errorHandlers := map[];
      beforeRequestFuncs := [];
      afterRequestFuncs := [];
      templateContextProcessors := [DefaultContextProcessor];
      urlRules := [StaticRule];
      this.router := router;
      this.loadCookie := loadCookie;
    }

    /** open_session: without a secret key there is no session. */
    function OpenSession(request: Request): (session: Option<Session>)
      reads this
      ensures session.None? <==> secretKey.None?
      ensures secretKey.Some? ==> session == Some(loadCookie(request, sessionCookieName, secretKey.value))
    {
      match secretKey
      case None => None
      case Some(key) => Some(loadCookie(request, sessionCookieName, key))
    }

    /** add_url_rule: the endpoint is attached to the rule and the methods
      default to GET. No view function is registered. */
    method AddUrlRule(rule: string, endpoint: string, methods: Option<seq<string>>)
      modifies this`urlRules
      ensures urlRules == old(urlRules) + [Rule(rule, endpoint, Some(methods.GetOr(DefaultMethods)), false)]
    {
      urlRules := urlRules + [Rule(rule, endpoint, Some(methods.GetOr(DefaultMethods)), false)];
    }

    /** The `route` decorator applied to a function named `name`: the rule is
      added with that name as endpoint and the function becomes the view of
      the endpoint, replacing any earlier one. */
    method Route(rule: string, name: string, f: ViewFunction, methods: Option<seq<string>>)
      modifies this`urlRules, this`viewFunctions
      ensures urlRules == old(urlRules) + [Rule(rule, name, Some(methods.GetOr(DefaultMethods)), false)]
      ensures viewFunctions == old(viewFunctions)[name := f]
    {
      AddUrlRule(rule, name, methods);
      viewFunctions := viewFunctions[name := f];
    }

    /** The `errorhandler(code)` decorator: registering overwrites. */
    method ErrorHandler(code: int, f: ErrorHandlerFn)
      modifies this`errorHandlers
      ensures errorHandlers == old(errorHandlers)[code := f]
    {
      errorHandlers := errorHandlers[code := f];
    }

    /** before_request: appended, so hooks run in registration order. */
    method BeforeRequest(f: BeforeRequestHook)
      modifies this`beforeRequestFuncs
      ensures beforeRequestFuncs == old(beforeRequestFuncs) + [f]
    {
      beforeRequestFuncs := beforeRequestFuncs + [f];
    }

    /** after_request: appended, so hooks run in registration order. */
    method AfterRequest(f: AfterRequestHook)
      modifies this`afterRequestFuncs
      ensures afterRequestFuncs == old(afterRequestFuncs) + [f]
    {
      afterRequestFuncs := afterRequestFuncs + [f];
    }

    /** context_processor: appended behind the default processor. */
    method ContextProcessor(f: ContextProcessorFn)
      modifies this`templateContextProcessors
      ensures templateContextProcessors == old(templateContextProcessors) + [f]
    {
      templateContextProcessors := templateContextProcessors + [f];
    }

    /** update_template_context: the processors' dictionaries are merged
      into the caller's context in place, in registration order. If a
      processor raises, the updates made before it stay in the context. */
    method UpdateTemplateContext(stack: ContextStack, context: TemplateContext) returns (failure: Option<Exc>)
      modifies context
      ensures Updated(context.vars, failure) == ApplyProcessors(templateContextProcessors, stack.View(), old(context.vars))
    {
      var view := stack.View();
      var i := 0;
      while i < |templateContextProcessors|
        invariant 0 <= i <= |templateContextProcessors|
        invariant ApplyProcessors(templateContextProcessors, view, old(context.vars))
               == ApplyProcessors(templateContextProcessors[i..], view, context.vars)
      {
        assert templateContextProcessors[i..][1..] == templateContextProcessors[i + 1..];
        var d := templateContextProcessors[i](view);
        if d.Raised? {
          return Some(d.exc);
        }
        context.vars := context.vars + d.value;
        i := i + 1;
      }
      return None;
    }

    /** preprocess_request: the hooks run in registration order and the
      first one that returns something other than None (or raises) ends
      the loop; None only when every hook returned None. */
    method PreprocessRequest(request: Request) returns (rv: Outcome<Option<ReturnValue>>)
      ensures rv == RunBeforeHooks(beforeRequestFuncs, request)
    {
      var i := 0;
      while i < |beforeRequestFuncs|
        invariant 0 <= i <= |beforeRequestFuncs|
        invariant RunBeforeHooks(beforeRequestFuncs, request) == RunBeforeHooks(beforeRequestFuncs[i..], request)
      {
        assert beforeRequestFuncs[i..][1..] == beforeRequestFuncs[i + 1..];
        rv := beforeRequestFuncs[i](request);
        if !Declines(rv) {
          return;
        }
        i := i + 1;
      }
      return Returned(None);
    }

    /** dispatch_request: match the top context's request, store the
      endpoint and view arguments on the request, call the view, and route
      exceptions to the error handlers. With no context, reading its URL
      adapter fails with AttributeError, which the `except Exception`
      clause receives. Only the top frame's request changes. */
    method DispatchRequest(stack: ContextStack) returns (rv: Outcome<Option<ReturnValue>>)
      modifies stack.TopFrame()
      ensures stack.frames == [] ==> rv == HandleException(AttributeError, errorHandlers, debug)
      ensures stack.frames != [] ==>
        var ctx := stack.frames[|stack.frames| - 1];
        var m := router(ctx.urlAdapter.rules, ctx.urlAdapter.environ);
        && rv == DispatchResult(m, viewFunctions, errorHandlers, debug)
        && ctx.request == (if m.Matched? then old(ctx.request).(endpoint := Some(m.endpoint), viewArgs := Some(m.args))
                           else old(ctx.request))
        && ctx.session == old(ctx.session) && ctx.g == old(ctx.g) && ctx.flashes == old(ctx.flashes)
    {
      var top := stack.Top();
      if top.None? {
        rv := HandleException(AttributeError, errorHandlers, debug);
        return;
      }
      var ctx := top.value;
      var m := router(ctx.urlAdapter.rules, ctx.urlAdapter.environ);
      match m {
        case NoMatch(e) =>
          rv := HandleException(Http(e), errorHandlers, debug);
        case Matched(endpoint, args) =>
          ctx.request := ctx.request.(endpoint := Some(endpoint), viewArgs := Some(args));
          if endpoint !in viewFunctions {
            rv := HandleException(KeyError, errorHandlers, debug);
          } else {
            var result := viewFunctions[endpoint](args);
            if result.Raised? {
              rv := HandleException(result.exc, errorHandlers, debug);
            } else {
              rv := result;
            }
          }
      }
    }

    /** process_response: the top context's session is saved into the
      response first (unless it is None), then the after-request hooks are
      applied in registration order, each to the previous one's result. */
    method ProcessResponse(stack: ContextStack, response: Response) returns (r: Outcome<Response>)
      ensures stack.frames == [] ==> r == Raised(AttributeError)
      ensures stack.frames != [] ==>
        r == RunAfterHooks(afterRequestFuncs,
                           SaveSession(stack.frames[|stack.frames| - 1].session, sessionCookieName, response))
    {
      var top := stack.Top();
      if top.None? {
        return Raised(AttributeError);
      }
      var saved := SaveSession(top.value.session, sessionCookieName, response);
      var current := saved;
      var i := 0;
      while i < |afterRequestFuncs|
        invariant 0 <= i <= |afterRequestFuncs|
        invariant RunAfterHooks(afterRequestFuncs, saved) == RunAfterHooks(afterRequestFuncs[i..], current)
      {
        assert afterRequestFuncs[i..][1..] == afterRequestFuncs[i + 1..];
        var next := afterRequestFuncs[i](current);
        if next.Raised? {
          return Raised(next.exc);
        }
        current := next.value;
        i := i + 1;
      }
      return Returned(current);
    }

    /** The tail of the lifecycle: make_response, then process_response with
      the given session. */
    function Finish(rv: Option<ReturnValue>, session: Option<Session>): (r: Outcome<Response>)
      reads this
      ensures rv.None? ==> r == Raised(TypeError)
    {
      match MakeResponse(rv)
      case Raised(e) => Raised(e)
      case Returned(response) => RunAfterHooks(afterRequestFuncs, SaveSession(session, sessionCookieName, response))
    }

    /** The response wsgi_app produces for an environment, as a function of
      the registered tables: preprocessing, then dispatching only if every
      before-request hook returned None, then normalising and
      post-processing. */
    function Respond(environ: Environ): Outcome<Response>
      reads this
    {
      var request := Request(environ, None, None);
      var session := OpenSession(request);
      var pre := RunBeforeHooks(beforeRequestFuncs, request);
      if pre.Raised? then Raised(pre.exc)
      else if pre.value.Some? then Finish(pre.value, session)
      else
        var dispatched := DispatchResult(router(urlRules, environ), viewFunctions, errorHandlers, debug);
        if dispatched.Raised? then Raised(dispatched.exc)
        else Finish(dispatched.value, session)
    }

    /** wsgi_app: a new request context is entered for the environment,
      the lifecycle runs inside it, and the context is left again. The
      stack is as before unless an exception escaped in debug mode; then
      the new context stays on top of it. The returned context is the one
      that was created. */
    method WsgiApp(stack: ContextStack, environ: Environ) returns (out: Outcome<Response>, ctx: RequestContext)
      modifies stack
      ensures fresh(ctx) && ctx.app == this
      ensures out == Respond(environ)
      ensures out.Returned? || !debug ==> stack.frames == old(stack.frames)
      ensures out.Raised? && debug ==> stack.frames == old(stack.frames) + [ctx]
    {
      ctx := new RequestContext(this, environ);
      ctx.Enter(stack);
      var pre := PreprocessRequest(ctx.request);
      if pre.Raised? {
        out := Raised(pre.exc);
        ctx.Exit(stack, true);
        return;
      }
      var rv := pre.value;
      if rv.None? {
        var dispatched := DispatchRequest(stack);
        if dispatched.Raised? {
          out := Raised(dispatched.exc);
          ctx.Exit(stack, true);
          return;
        }
        rv := dispatched.value;
      }
      var response := MakeResponse(rv);
      if response.Raised? {
        out := Raised(response.exc);
        ctx.Exit(stack, true);
        return;
      }
      out := ProcessResponse(stack, response.value);
      ctx.Exit(stack, out.Raised?);
    }
  }

  /** _RequestContext: everything one request needs, bundled as one frame
      of the context stack. */
  class RequestContext {
    const app: Flask
    const urlAdapter: UrlAdapter
    var request: Request
    var session: Option<Session>
    var g: map<string, SValue>
    var flashes: Option<SValue>

    /** The URL map is bound to the environment, the request is built, and
      the session is opened; g is empty and no messages are cached. */
    constructor (app: Flask, environ: Environ)
      ensures this.app == app
      ensures urlAdapter == UrlAdapter(app.urlRules, environ)
      ensures request == Request(environ, None, None)
      ensures session == app.OpenSession(Request(environ, None, None))
      ensures g == map[] && flashes == None
    {
      this.app := app;
      urlAdapter := UrlAdapter(app.urlRules, environ);
      request := Request(environ, None, None);
      session := app.OpenSession(Request(environ, None, None));
      g := map[];
      flashes := None;
    }

    /** What the context processors see of this frame. */
    function View(): FrameView
      reads this
    {
      FrameView(request, session, g)
    }

    /** __enter__: the context is pushed, so it is the top frame and the
      proxies resolve to its fields. */
    method Enter(stack: ContextStack)
      modifies stack
      ensures stack.frames == old(stack.frames) + [this]
      ensures stack.Top() == Some(this)
      ensures stack.CurrentApp() == Returned(app)
      ensures stack.CurrentRequest() == Returned(request)
      ensures stack.CurrentSession() == Returned(session)
      ensures stack.CurrentG() == Returned(g)
    {
      stack.Push(this);
    }

    /** __exit__: the stack is popped unless an exception escaped while the
      application is in debug mode; then the stack is left as it is, with
      this context still on top if it was. */
    method Exit(stack: ContextStack, raised: bool)
      modifies stack
      ensures !raised || !app.debug ==>
        stack.frames == if old(stack.frames) == [] then [] else old(stack.frames)[..|old(stack.frames)| - 1]
      ensures raised && app.debug ==> stack.frames == old(stack.frames)
      ensures raised && app.debug && old(stack.Top()) == Some(this) ==> stack.Top() == Some(this)
    {
      if !raised || !app.debug {
        var _ := stack.Pop();
      }
    }
  }

  /** _request_ctx_stack for one execution unit: the frames pushed and not
      yet popped, innermost last. */
  class ContextStack {
    var frames: seq<RequestContext>

    constructor ()
      ensures frames == []
    {
      frames := [];
    }

    /** LocalStack.top: the innermost frame, None when there is none. */
    function Top(): (top: Option<RequestContext>)
      reads this
      ensures top.None? <==> frames == []
      ensures top.Some? ==> top.value == frames[|frames| - 1]
    {
      if frames == [] then None else Some(frames[|frames| - 1])
    }

    /** The objects an operation on the top frame may change. */
    function TopFrame(): set<RequestContext>
      reads this
    {
      if frames == [] then {} else {frames[|frames| - 1]}
    }

    /** LocalStack.push. */
    method Push(ctx: RequestContext)
      modifies this
      ensures frames == old(frames) + [ctx]
    {
      frames := frames + [ctx];
    }

    /** LocalStack.pop: removes and returns the top frame; on an empty
      stack nothing changes and None is returned. */
    method Pop() returns (popped: Option<RequestContext>)
      modifies this
      ensures popped == old(Top())
      ensures frames == if old(frames) == [] then [] else old(frames)[..|old(frames)| - 1]
    {
      if frames == [] {
        return None;
      }
      popped := Some(frames[|frames| - 1]);
      frames := frames[..|frames| - 1];
    }

    /** The top frame as context processors see it. */
    function View(): (view: Option<FrameView>)
      reads this, frames
      ensures view.None? <==> frames == []
      ensures view.Some? ==> view.value == frames[|frames| - 1].View()
    {
      if frames == [] then None else Some(frames[|frames| - 1].View())
    }

    /** The `current_app` proxy: the top frame's application. */
    function CurrentApp(): (r: Outcome<Flask>)
      reads this
      ensures r.Raised? <==> frames == []
      ensures r.Raised? ==> r.exc == AttributeError
      ensures r.Returned? ==> r.value == Top().value.app
    {
      if frames == [] then Raised(AttributeError) else Returned(frames[|frames| - 1].app)
    }

    /** The `request` proxy: the top frame's request. */
    function CurrentRequest(): (r: Outcome<Request>)
      reads this, frames
      ensures r.Raised? <==> frames == []
      ensures r.Raised? ==> r.exc == AttributeError
      ensures r.Returned? ==> r.value == Top().value.request
    {
      if frames == [] then Raised(AttributeError) else Returned(frames[|frames| - 1].request)
    }

    /** The `session` proxy: the top frame's session (None without a key). */
    function CurrentSession(): (r: Outcome<Option<Session>>)
      reads this, frames
      ensures r.Raised? <==> frames == []
      ensures r.Raised? ==> r.exc == AttributeError
      ensures r.Returned? ==> r.value == Top().value.session
    {
      if frames == [] then Raised(AttributeError) else Returned(frames[|frames| - 1].session)
    }

    /** The `g` proxy: the top frame's globals. */
    function CurrentG(): (r: Outcome<map<string, SValue>>)
      reads this, frames
      ensures r.Raised? <==> frames == []
      ensures r.Raised? ==> r.exc == AttributeError
      ensures r.Returned? ==> r.value == Top().value.g
    {
      if frames == [] then Raised(AttributeError) else Returned(frames[|frames| - 1].g)
    }
  }

  /** A template context: the dictionary update_template_context updates
      in place. */
  class TemplateContext {
    var vars: map<string, TValue>

    constructor (vars: map<string, TValue>)
      ensures this.vars == vars
    {
      this.vars := vars;
    }
  }

  /** flash: the message is appended to the pending list of the top
      frame's session. It fails when there is no frame, no session, or a
      stored value that is not a list; then nothing changes. */
  method Flash(stack: ContextStack, message: string) returns (failure: Option<Exc>)
    modifies stack.TopFrame()
    ensures stack.frames == [] ==> failure == Some(AttributeError)
    ensures stack.frames != [] ==>
      var ctx := stack.frames[|stack.frames| - 1];
      var r := AddFlash(old(ctx.session), message);
      && (r.Raised? ==> failure == Some(r.exc) && ctx.session == old(ctx.session))
      && (r.Returned? ==> failure == None && ctx.session == Some(r.value))
      && ctx.request == old(ctx.request) && ctx.g == old(ctx.g) && ctx.flashes == old(ctx.flashes)
  {
    var top := stack.Top();
    if top.None? {
      return Some(AttributeError);
    }
    var ctx := top.value;
    var r := AddFlash(ctx.session, message);
    if r.Raised? {
      return Some(r.exc);
    }
    ctx.session := Some(r.value);
    return None;
  }

  /** get_flashed_messages: the first call of a request takes the pending
      list out of the session and caches it on the frame; later calls
      return the cached list and leave the session alone. */
  method GetFlashedMessages(stack: ContextStack) returns (r: Outcome<SValue>)
    modifies stack.TopFrame()
    ensures stack.frames == [] ==> r == Raised(AttributeError)
    ensures stack.frames != [] ==>
      var ctx := stack.frames[|stack.frames| - 1];
      && ctx.request == old(ctx.request) && ctx.g == old(ctx.g)
      && (old(ctx.flashes).Some? ==>
            r == Returned(old(ctx.flashes).value) && ctx.flashes == old(ctx.flashes) && ctx.session == old(ctx.session))
      && (old(ctx.flashes).None? && old(ctx.session).None? ==>
            r == Raised(AttributeError) && ctx.flashes == None && ctx.session == None)
      && (old(ctx.flashes).None? && old(ctx.session).Some? ==>
            var popped := PopFlashes(old(ctx.session).value);
            r == Returned(popped.0) && ctx.flashes == Some(popped.0) && ctx.session == Some(popped.1))
  {
    var top := stack.Top();
    if top.None? {
      return Raised(AttributeError);
    }
    var ctx := top.value;
    if ctx.flashes.Some? {
      return Returned(ctx.flashes.value);
    }
    if ctx.session.None? {
      return Raised(AttributeError);
    }
    var popped := PopFlashes(ctx.session.value);
    ctx.flashes := Some(popped.0);
    ctx.session := Some(popped.1);
    return Returned(popped.0);
  }
}
