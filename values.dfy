/** The values that travel through one request of the framework: the WSGI
    environment and the request built from it, sessions, responses, the
    exceptions raised along the way, and the shapes of the callables an
    application registers (views, hooks, error handlers, context processors).
    Werkzeug's routing and cookie codec appear only as function types. */
module Values {

  datatype Option<+T> = None | Some(value: T) {
    function GetOr(default: T): T
    {
      match this
      case Some(v) => v
      case None => default
    }
  }

  /** werkzeug's HTTPException: a status code and a description; it is also
      a WSGI application that renders an error page. */
  datatype HttpException = HttpException(code: int, description: string)

  /** An exception raised during the request lifecycle.
      Http: an HTTPException (caught by the first `except` of dispatch);
      Error: any other subclass of Exception (caught by `except Exception`);
      Interrupt: a BaseException that is not an Exception, such as
      SystemExit, which neither `except` clause catches. */
  datatype Exc =
    | Http(http: HttpException)
    | Error(kind: string)
    | Interrupt(kind: string)

  /** What a Python call does: it returns a value or it raises. */
  datatype Outcome<+T> = Returned(value: T) | Raised(exc: Exc)

  /** Reading an attribute of None, as every access through an empty
      context stack does. */
  const AttributeError: Exc := Error("AttributeError")
  /** Looking up a missing key of a dict. */
  const KeyError: Exc := Error("KeyError")
  /** Combining values of the wrong types, or calling a non-callable. */
  const TypeError: Exc := Error("TypeError")

  /** The code whose error handler receives non-HTTP exceptions. */
  const InternalServerErrorCode: int := 500

  /** Extracted URL variables, passed to a view as keyword arguments. */
  type Args = map<string, string>

  /** The parts of a WSGI environment the model looks at. */
  datatype Environ = Environ(path: string, requestMethod: string, cookies: map<string, string>)

  /** flask.Request: the wrapped environment plus the endpoint and view
      arguments that matching stores on it (both None until then). */
  datatype Request = Request(environ: Environ, endpoint: Option<string>, viewArgs: Option<Args>)

  /** A value stored in a session: text, a number, or a list of messages. */
  datatype SValue = Text(text: string) | Number(n: int) | Messages(items: seq<string>)

  /** A session is a dictionary from keys to stored values. */
  type Session = map<string, SValue>

  type Headers = seq<(string, string)>

  /** flask.Response. `cookies` stands for the Set-Cookie headers the session
      codec writes: cookie name to the session it serialises. */
  datatype Response = Response(
    body: string,
    status: int,
    headers: Headers,
    mimetype: string,
    cookies: map<string, Session>)

  /** Defaults of werkzeug's response constructor as flask.Response sets them. */
  const DefaultStatus: int := 200
  const DefaultMimetype: string := "text/html"

  /** A value a view, a before-request hook or an error handler may return
      (Python's None is the None of an Option around it).
      ResponseObject: an instance of the response class;
      Str: a string, the body;
      Tuple: positional arguments for the response constructor;
      HttpExceptionObject: an HTTPException returned as a value;
      WsgiCallable: any other WSGI application, given by the response that
      buffering its output produces. */
  datatype ReturnValue =
    | ResponseObject(response: Response)
    | Str(s: string)
    | Tuple(body: string, status: Option<int>, headers: Option<Headers>)
    | HttpExceptionObject(http: HttpException)
    | WsgiCallable(buffered: Response)

  /** What the current request context exposes to context processors. */
  datatype FrameView = FrameView(request: Request, session: Option<Session>, g: map<string, SValue>)

  /** A value placed in a template context. */
  datatype TValue =
    | TRequest(request: Request)
    | TSession(session: Option<Session>)
    | TGlobals(g: map<string, SValue>)
    | TData(data: SValue)

  /** A URL rule of the URL map. `methods` None means every method. */
  datatype Rule = Rule(pattern: string, endpoint: string, methods: Option<seq<string>>, buildOnly: bool)

  /** What werkzeug's MapAdapter.match does: it finds the endpoint and the
      arguments, or raises an HTTPException (NotFound, MethodNotAllowed,
      RequestRedirect). */
  datatype RouteMatch = Matched(endpoint: string, args: Args) | NoMatch(http: HttpException)

  /** The URL adapter a request context binds: the rules and the environment. */
  datatype UrlAdapter = UrlAdapter(rules: seq<Rule>, environ: Environ)

  /** The callables an application registers. */
  type BeforeRequestHook = Request -> Outcome<Option<ReturnValue>>
  type AfterRequestHook = Response -> Outcome<Response>
  type ViewFunction = Args -> Outcome<Option<ReturnValue>>
  type ErrorHandlerFn = Exc -> Outcome<Option<ReturnValue>>
  /** A context processor reads the top frame (None when the stack is empty). */
  type ContextProcessorFn = Option<FrameView> -> Outcome<map<string, TValue>>

  /** Werkzeug's URL matching, abstracted. */
  type Router = (seq<Rule>, Environ) -> RouteMatch
  /** SecureCookie.load_cookie abstracted: request, cookie name, secret key. */
  type CookieLoader = (Request, string, string) -> Session
}
