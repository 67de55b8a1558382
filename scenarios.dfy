/** Client code that drives the model the way an application does: it
    registers views and hooks on a Flask object and calls WsgiApp; the
    verifier proves the asserted outcomes. */
module Scenarios {
  import opened Values
  import opened Responses
  import opened Hooks
  import opened Flashing
  import opened Dispatch
  import opened FlaskApp

  /** A URL map with the single rule "/" for the endpoint "index". */
  function IndexRouter(rules: seq<Rule>, environ: Environ): RouteMatch
  {
    if environ.path == "/" then Matched("index", map[]) else NoMatch(HttpException(404, "Not Found"))
  }

  function NoCookie(request: Request, name: string, key: string): Session
  {
    map[]
  }

  function Hello(args: Args): Outcome<Option<ReturnValue>>
  {
    Returned(Some(Str("Yet another hello!")))
  }

  function Broken(args: Args): Outcome<Option<ReturnValue>>
  {
    Raised(Error("ZeroDivisionError"))
  }

  const Get: Environ := Environ("/", "GET", map[])

  /** The example application: one view for "/", no hooks. */
  method HelloWorld()
  {
    var app := new Flask("hello", IndexRouter, NoCookie);
    app.Route("/", "index", Hello, None);
    var stack := new ContextStack();
    var out, _ := app.WsgiApp(stack, Get);
    assert out == Returned(Response("Yet another hello!", 200, [], "text/html", map[]));
    assert stack.frames == [];
    var missing, _ := app.WsgiApp(stack, Environ("/nowhere", "GET", map[]));
    assert missing == Returned(ErrorPage(HttpException(404, "Not Found")));
  }

  /** A before-request hook that answers keeps a failing view from running. */
  method ShortCircuit()
  {
    var app := new Flask("guard", IndexRouter, NoCookie);
    app.Route("/", "index", Broken, None);
    var decline := (r: Request) => Returned(None);
    var deny := (r: Request) => Returned(Some(Str("denied")));
    app.BeforeRequest(decline);
    app.BeforeRequest(deny);
    var request := Request(Get, None, None);
    assert app.beforeRequestFuncs[1..] == [deny];
    assert RunBeforeHooks([deny], request) == Returned(Some(Str("denied")));
    assert RunBeforeHooks(app.beforeRequestFuncs, request) == Returned(Some(Str("denied")));
    var stack := new ContextStack();
    var out, _ := app.WsgiApp(stack, Get);
    assert out == Returned(NewResponse("denied", None, None));
  }

  /** A view failure in debug mode propagates, even with a handler for 500,
      and the context is retained on the stack. */
  method DebugRetainsContext()
  {
    var app := new Flask("debugging", IndexRouter, NoCookie);
    app.Route("/", "index", Broken, None);
    app.ErrorHandler(500, (e: Exc) => Returned(Some(Tuple("sorry", Some(500), None))));
    app.debug := true;
    assert DispatchResult(IndexRouter(app.urlRules, Get), app.viewFunctions, app.errorHandlers, true)
        == Raised(Error("ZeroDivisionError"));
    var stack := new ContextStack();
    var out, ctx := app.WsgiApp(stack, Get);
    assert out == Raised(Error("ZeroDivisionError"));
    assert stack.frames == [ctx];
    assert stack.CurrentRequest() == Returned(ctx.request);
  }

  /** With debug off and a handler for 500, the handler answers and the
      context is popped. */
  method HandlerAnswersFailure()
  {
    var app := new Flask("handled", IndexRouter, NoCookie);
    app.Route("/", "index", Broken, None);
    var sorry := (e: Exc) => Returned(Some(Tuple("sorry", Some(500), None)));
    app.ErrorHandler(500, sorry);
    assert DispatchResult(IndexRouter(app.urlRules, Get), app.viewFunctions, app.errorHandlers, false)
        == Returned(Some(Tuple("sorry", Some(500), None)));
    var stack := new ContextStack();
    var handled, _ := app.WsgiApp(stack, Get);
    assert handled == Returned(NewResponse("sorry", Some(500), None));
    assert stack.frames == [];
  }

  function AddHeader(r: Response): Outcome<Response>
  {
    Returned(r.(headers := r.headers + [("X", "1")]))
  }

  function SeeHeader(r: Response): Outcome<Response>
  {
    if r.headers != [] && r.headers[|r.headers| - 1].0 == "X" then Returned(r.(status := 201)) else Returned(r)
  }

  /** After-request hooks run in registration order: the second hook sees
      the header the first one added. */
  method HookOrder()
  {
    var app := new Flask("headers", IndexRouter, NoCookie);
    app.Route("/", "index", Hello, None);
    app.AfterRequest(AddHeader);
    app.AfterRequest(SeeHeader);
    var made := NewResponse("Yet another hello!", None, None);
    var added := made.(headers := [("X", "1")]);
    assert made.headers + [("X", "1")] == [("X", "1")];
    assert AddHeader(made) == Returned(added);
    assert SeeHeader(added) == Returned(added.(status := 201));
    assert app.afterRequestFuncs == [AddHeader, SeeHeader];
    assert RunAfterHooks([SeeHeader], added) == Returned(added.(status := 201));
    var stack := new ContextStack();
    var out, _ := app.WsgiApp(stack, Get);
    assert out.Returned? && out.value.headers == [("X", "1")] && out.value.status == 201;
  }

  /** Flashing within one request and reading the messages twice. */
  method FlashInOneRequest()
  {
    var app := new Flask("flashing", IndexRouter, NoCookie);
    app.secretKey := Some("secret");
    var stack := new ContextStack();
    var ctx := new RequestContext(app, Get);
    ctx.Enter(stack);
    assert ctx.session == Some(map[]) && stack.frames[|stack.frames| - 1] == ctx;
    assert Pending(map[]) + ["saved"] == ["saved"];
    var f1 := Flash(stack, "saved");
    assert f1 == None && ctx.session == Some(map[FlashesKey := Messages(["saved"])]);
    assert stack.frames[|stack.frames| - 1] == ctx;
    var f2 := Flash(stack, "again");
    assert map[FlashesKey := Messages(["saved"])][FlashesKey := Messages(["saved", "again"])]
        == map[FlashesKey := Messages(["saved", "again"])];
    assert Pending(map[FlashesKey := Messages(["saved"])]) + ["again"] == ["saved", "again"];
    assert f2 == None && ctx.session == Some(map[FlashesKey := Messages(["saved", "again"])]);
    var first := GetFlashedMessages(stack);
    assert first == Returned(Messages(["saved", "again"]));
    assert ctx.session == Some(map[]);
    var second := GetFlashedMessages(stack);
    assert second == first;
    ctx.Exit(stack, false);
    assert stack.frames == [];
  }
}
