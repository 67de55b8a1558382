# Flask 0.1 request lifecycle in Dafny

This project models the core of Flask 0.1 (`flask-0.1/flask.py`): the
application object and its registration tables, the request context and the
stack that holds it, the pipeline `wsgi_app` runs for one request, and flash
messages. The parts that Werkzeug, Jinja2 and the signed-cookie codec provide
are outside the model, as listed under "Left out".

Modules follow the structure of the program:

- `Values` holds the data: the WSGI environment (`Environ`), `Request`,
  `Response`, sessions, and the value a view may return (`ReturnValue`: a
  response object, a string, a tuple `(body, status, headers)`, an
  `HTTPException` or some other WSGI callable). It also holds the exceptions
  (`Exc`) and the shapes of the callables an application registers. A Python
  call that either returns or raises is modelled as
  `Outcome<T> = Returned(value) | Raised(exc)`. `Exc` has three kinds:
  `Http` for Werkzeug's `HTTPException`, `Error` for any other `Exception`
  (`AttributeError`, `KeyError`, `TypeError`, …), and `Interrupt` for a
  `BaseException` that `except Exception` does not catch.
- `Responses` covers `make_response` and `save_session`.
- `Hooks` holds the three ordered hook lists as folds.
  `RunBeforeHooks` is `preprocess_request`, `RunAfterHooks` is the loop of
  `process_response`, and `ApplyProcessors` is `update_template_context`.
  The module also holds the default context processor.
- `Dispatch` covers the decisions of `dispatch_request`:
  `DispatchResult` chooses the view, and `HandleException` implements the
  two `except` clauses.
- `Flashing` has the session updates of `flash` and `get_flashed_messages`.
- `FlaskApp` holds the classes. `Flask` carries the mutable registration
  tables and the lifecycle methods. `RequestContext` is one frame of the
  stack (`_RequestContext`). `ContextStack` is `_request_ctx_stack` together
  with the `current_app`, `request`, `session` and `g` proxies.
  `TemplateContext` is the dictionary that `update_template_context`
  updates in place. The module-level methods `Flash` and
  `GetFlashedMessages` work through the stack. `Flask.Respond` is the whole
  response of `wsgi_app` as a function of the registered tables, and
  `Flask.WsgiApp` is proved to compute it.
- `Lifecycle` holds lemmas about `Flask.Respond`: what pre-hooks, dispatch
  and post-processing contribute to the final response.
- `Scenarios` holds client methods. They register views and hooks the way an
  application does and call `WsgiApp`; their assertions prove the outcomes
  the model gives for those applications.

The following are modelled as parameters: Werkzeug's URL matching (a
`Router` function of the rules and the environment) and
`SecureCookie.load_cookie` (a `CookieLoader`). Both are supplied to the
`Flask` constructor.

Two behaviours of the code that are easy to miss:

- On an empty stack, reading `_request_ctx_stack.top.x` is `None.x`, so the
  proxies and every function that reads the top frame raise
  `AttributeError`. Inside `dispatch_request` that error is caught by
  `except Exception`, so it goes to the 500 handler unless debug is on or no
  handler for 500 is registered; in those cases it is re-raised.
- On an empty stack, Werkzeug's `LocalStack.pop` returns `None` and changes
  nothing, and `ContextStack.Pop` does the same.

## Model

| member | source | states |
|---|---|---|
| `Responses.NewResponse` | flask-0.1/flask.py:119-132 | the response class's constructor: the body as given, status 200 and no headers unless given, the `text/html` mimetype and no cookies |
| `Responses.ForceType` | flask-0.1/flask.py:813 | an `HTTPException` handed to force_type becomes a response carrying its status code |
| `Responses.MakeResponse` | flask-0.1/flask.py:807-813 | a response object is returned unchanged; a string becomes the body with status 200, no headers and the `text/html` mimetype; a tuple is spread over the constructor's arguments, with missing parts defaulted and the `text/html` mimetype; an HTTPException becomes its error page with its code; another WSGI callable gives its buffered response; `None` raises `TypeError`, and it is the only input that raises |
| `Responses.StrIsOneTuple` | flask-0.1/flask.py:809-812 | a string gives the same response as the one-element tuple holding it |
| `Responses.SaveSession` | flask-0.1/flask.py:565-575 | a `None` session leaves the response as it was; otherwise the cookie under the session cookie name holds the session; nothing but the cookies changes |
| `Hooks.RunBeforeHooks` | flask-0.1/flask.py:828-831 | the before-hook fold: its result is None or the result of one of the hooks; `Hooks.BeforeHooksResult` says which hook |
| `Hooks.FirstAnswer` | flask-0.1/flask.py:828-831 | the index of the first before-request hook that does not return None: every hook before it declines, and the hook at it does not |
| `Hooks.BeforeHooksResult` | flask-0.1/flask.py:828-831 | preprocessing yields the result of the first hook that does not return None (or its exception); it yields None exactly when every hook returns None |
| `Hooks.BeforeHooksAppend` | flask-0.1/flask.py:712-715 | hooks registered later run only if all earlier hooks declined; once a hook answers, the later hooks are not consulted |
| `Hooks.RunAfterHooks` | flask-0.1/flask.py:849-851 | the after-hook fold, with each hook applied to the previous hook's output; `Hooks.AfterHooksChain`, `Hooks.AfterHooksAppend` and `Hooks.AfterHookRegisteredLast` characterise it |
| `Hooks.AfterHooksAppend` | flask-0.1/flask.py:718-721 | running the hooks of a concatenated list is running the first list, then the second on its output; an exception stops the chain |
| `Hooks.AfterHookRegisteredLast` | flask-0.1/flask.py:849-851 | a hook registered last receives the output of all earlier hooks, and its result is the final response |
| `Hooks.AfterHooksChain` | flask-0.1/flask.py:849-851 | when no hook raises, there is a trace of responses in which each hook receives exactly the previous hook's output, starting from the input and ending with the result |
| `Hooks.ApplyProcessors` | flask-0.1/flask.py:471-473 | the processor fold: a reported failure is the exception one of the processors raised; `Hooks.ProcessorsKeepContext`, `Hooks.LastProcessorWins` and `Hooks.ProcessorsAppend` characterise the context it leaves |
| `Hooks.DefaultContextProcessor` | flask-0.1/flask.py:246-257 | without a frame it raises `AttributeError`; with one it returns exactly the keys `request`, `session` and `g`, bound to that frame's values |
| `Hooks.ProcessorsAppend` | flask-0.1/flask.py:726-729 | applying a concatenated processor list is applying the first list and then, unless it failed, the second list to its result |
| `Hooks.ProcessorsKeepContext` | flask-0.1/flask.py:471-473 | every key of the caller's context is still present after the processors ran, and a key that no processor returns keeps the caller's value |
| `Hooks.LastProcessorWins` | flask-0.1/flask.py:471-473 | when no processor fails, a processor registered last decides the value of every key it returns |
| `Hooks.DefaultProcessorFirst` | flask-0.1/flask.py:413 | with the default processor first, the frame's request, session and g are merged into the context before any other processor runs; with no frame the update fails with `AttributeError` and the context is unchanged |
| `Dispatch.HandleException` | flask-0.1/flask.py:763-772 | an HTTP error goes to the handler registered for its code and is returned as itself when there is none; an ordinary exception goes to the 500 handler when debug is off and one is registered, and is re-raised otherwise; a `BaseException` outside `Exception` always propagates; so the result is the exception re-raised, the HTTP error as a value, or a handler's result |
| `Dispatch.DispatchResult` | flask-0.1/flask.py:760-772 | a view that returns gives its own value unchanged; a view that raises has exactly its exception handled; a matched endpoint without a view has `KeyError` handled; a failed match has its HTTP error handled |
| `Dispatch.HttpErrorsIgnoreDebug` | flask-0.1/flask.py:763-767 | what happens to an HTTP error does not depend on the debug flag |
| `Dispatch.UnhandledHttpErrorKeepsCode` | flask-0.1/flask.py:763-767 | an HTTP error with no handler for its code is returned as the error itself, and the response made from it is its error page with its code |
| `Dispatch.LatestHandlerWins` | flask-0.1/flask.py:706-707 | the handler registered last for a code is the one that runs for an HTTP error of that code, and for an ordinary exception when the code is 500 and debug is off |
| `Dispatch.DebugReraises` | flask-0.1/flask.py:768-772 | in debug mode an ordinary exception is re-raised whatever handlers exist |
| `Dispatch.HandledDispatchDoesNotRaise` | flask-0.1/flask.py:760-772 | with debug off, a 500 handler, and handlers that do not raise, dispatching raises only when the view itself raises a `BaseException` outside `Exception` |
| `Dispatch.DebugViewFailurePropagates` | flask-0.1/flask.py:768-771 | in debug mode the exact exception a view raised propagates out of dispatching |
| `Flashing.AddFlash` | flask-0.1/flask.py:185-195 | the message is appended at the end of the pending list, and every other session key keeps its value; it raises `AttributeError` when there is no session and `TypeError` when the stored value is not a list, and only then |
| `Flashing.PopFlashes` | flask-0.1/flask.py:208-209 | returns the stored value, or an empty list when nothing is stored; the session loses the `_flashes` key and nothing else |
| `Flashing.FlashAllThenPop` | flask-0.1/flask.py:185-211 | messages flashed one after another all succeed; taking them out returns them in flash order, behind those already pending, and leaves the rest of the session as it was |
| `Flashing.FlashThenPop` | flask-0.1/flask.py:195 | a flashed message is returned last when the flashes are taken out, and the other session keys stay as they were |
| `FlaskApp.Flask.constructor` | flask-0.1/flask.py:333-422 | debug is off, there is no secret key, the session cookie is named `session`, the view and handler tables and both hook lists are empty, the default context processor is the only processor, and the URL map holds the build-only static rule |
| `FlaskApp.Flask.OpenSession` | flask-0.1/flask.py:546-560 | no session exactly when there is no secret key; otherwise the cookie loaded with that key under the session cookie name |
| `FlaskApp.Flask.AddUrlRule` | flask-0.1/flask.py:578-609 | one rule is appended, carrying the endpoint, with the methods defaulting to GET; no view function is registered |
| `FlaskApp.Flask.Route` | flask-0.1/flask.py:679-683 | the rule is added with the function's name as endpoint, and that function becomes the endpoint's view, replacing any earlier view |
| `FlaskApp.Flask.ErrorHandler` | flask-0.1/flask.py:706-707 | the handler table maps the code to the new handler, replacing any earlier one; other codes are unchanged |
| `FlaskApp.Flask.BeforeRequest` | flask-0.1/flask.py:712-715 | the hook is appended behind the earlier hooks |
| `FlaskApp.Flask.AfterRequest` | flask-0.1/flask.py:718-721 | the hook is appended behind the earlier hooks |
| `FlaskApp.Flask.ContextProcessor` | flask-0.1/flask.py:726-729 | the processor is appended behind the earlier ones |
| `FlaskApp.Flask.UpdateTemplateContext` | flask-0.1/flask.py:462-473 | the context is updated in place, as processor application defines; on a failure the updates made before it are kept and the exception is reported |
| `FlaskApp.Flask.PreprocessRequest` | flask-0.1/flask.py:818-831 | the loop computes the before-hook fold: the first hook that does not return None decides, and the result is None when every hook declines |
| `FlaskApp.Flask.DispatchRequest` | flask-0.1/flask.py:734-772 | with no frame, the `AttributeError` goes to the 500 path; otherwise the result is the dispatch decision for the top frame's match, a successful match stores the endpoint and view arguments on the request, and nothing else changes |
| `FlaskApp.Flask.ProcessResponse` | flask-0.1/flask.py:836-851 | the session is saved into the response first, then the after-request hooks run in order; with no frame it raises `AttributeError` |
| `FlaskApp.Flask.WsgiApp` | flask-0.1/flask.py:856-876 | the response is that of the whole lifecycle; the stack is restored unless an exception escaped in debug mode, and in that case the new context stays on top |
| `FlaskApp.RequestContext.constructor` | flask-0.1/flask.py:150-159 | the URL map is bound to the environment, the request is built from it, the session is opened, g is empty and no flashes are cached |
| `FlaskApp.RequestContext.Enter` | flask-0.1/flask.py:161-162 | the context is pushed; it is then the top frame, and every proxy resolves to its fields |
| `FlaskApp.RequestContext.Exit` | flask-0.1/flask.py:164-171 | the stack is popped unless an exception escaped and the application is in debug mode; in that case the stack is unchanged and this context stays on top |
| `FlaskApp.ContextStack.constructor` | flask-0.1/flask.py:922 | the stack starts empty |
| `FlaskApp.ContextStack.Top` | flask-0.1/flask.py:922 | no top frame exactly when the stack is empty; otherwise the most recently pushed frame still on the stack |
| `FlaskApp.ContextStack.Push` | flask-0.1/flask.py:161-162 | the frame is added on top of the existing ones |
| `FlaskApp.ContextStack.Pop` | flask-0.1/flask.py:170-171 | the top frame is removed and returned; an empty stack stays empty and `None` is returned |
| `FlaskApp.ContextStack.View` | flask-0.1/flask.py:254-257 | what the context processors see: nothing without a frame, otherwise the top frame's request, session and g |
| `FlaskApp.ContextStack.CurrentApp` | flask-0.1/flask.py:923 | raises `AttributeError` exactly when the stack is empty; otherwise returns the top frame's application |
| `FlaskApp.ContextStack.CurrentRequest` | flask-0.1/flask.py:924 | raises `AttributeError` exactly when the stack is empty; otherwise returns the top frame's request |
| `FlaskApp.ContextStack.CurrentSession` | flask-0.1/flask.py:926 | raises `AttributeError` exactly when the stack is empty; otherwise returns the top frame's session |
| `FlaskApp.ContextStack.CurrentG` | flask-0.1/flask.py:927 | raises `AttributeError` exactly when the stack is empty; otherwise returns the top frame's g |
| `FlaskApp.Flash` | flask-0.1/flask.py:185-195 | the top frame's session changes by the flash update; when that update fails, or there is no frame, the session is unchanged and the exception is reported; the request, g and cached flashes stay as they were |
| `FlaskApp.GetFlashedMessages` | flask-0.1/flask.py:198-211 | the first call in a request takes the pending messages out of the session and caches them on the frame; later calls return the cached value and leave the session alone; with no frame or no session it raises `AttributeError` |
| `FlaskApp.Flask.Finish` | flask-0.1/flask.py:873-874 | make_response then process_response; a `None` result (a view that returned nothing) raises `TypeError`; `Lifecycle.SessionSavedBeforeAfterHooks` and `Lifecycle.NoAfterHooksSavedResponse` characterise the rest |
| `FlaskApp.Flask.Respond` | flask-0.1/flask.py:868-875 | the response of one request as a function of the registered tables; `FlaskApp.Flask.WsgiApp` computes it and the `Lifecycle` lemmas characterise it |
| `Lifecycle.ResponsesAreNormalised` | flask-0.1/flask.py:868-875 | every response returned went through make_response and then process_response, with the session opened for the request |
| `Lifecycle.PreHookAnswerSkipsDispatch` | flask-0.1/flask.py:869-871 | once a before-request hook answers, routes, views, error handlers and the debug flag do not affect the response; it is the hook's value normalised and post-processed |
| `Lifecycle.HooksDeclineDispatch` | flask-0.1/flask.py:869-874 | when every before-request hook returns None, the response is the dispatch result normalised and post-processed, or the exception dispatching raised |
| `Lifecycle.FirstAnsweringHookDecides` | flask-0.1/flask.py:828-831 | when hooks 0..i-1 decline and hook i does not, hook i alone decides the response |
| `Lifecycle.SessionSavedBeforeAfterHooks` | flask-0.1/flask.py:845-850 | the first after-request hook already receives a response carrying the session cookie |
| `Lifecycle.NoAfterHooksSavedResponse` | flask-0.1/flask.py:845-851 | without after-request hooks, the final response is the normalised one with the session saved into it; without a session it is exactly the normalised one |
| `Lifecycle.UnhandledRoutingErrorResponse` | flask-0.1/flask.py:742-767 | a routing error with no handler for its code, and no hooks or session, ends as that error's page with its code |

## Left out

- Thread and greenlet locality of `LocalStack`: one `ContextStack` object models the stack of one execution unit. How units stay isolated from each other is not modelled.
- Werkzeug's URL matching and building, including `url_for`, trailing-slash redirects and converters. Matching is the `Router` function parameter, and rules are kept as data.
- The signing and parsing of `SecureCookie`. Loading is the `CookieLoader` parameter, and saving writes the session value into the response's cookie map, so no round trip through a cookie string is modelled.
- Jinja2: `render_template`, `render_template_string`, `create_jinja_loader` and the template globals. Only the context update they perform (`update_template_context`) is modelled.
- Filesystem helpers (`_get_package_path`, `open_resource`, `root_path`) and the `SharedDataMiddleware` for static files. Only the static URL rule the constructor adds is kept.
- `run`, `test_client`, `test_request_context`, `__call__`, and calling the final response with `start_response`. These are server plumbing; `WsgiApp` returns the response object.
- `request_context` is a one-line call of the `_RequestContext` constructor that `WsgiApp` makes directly.
- `match_request` is folded into `DispatchRequest`, which performs it and stores its result on the request.
- Responses.MakeResponse: UTF-8 encoding of unicode strings is not modelled, because strings are sequences of characters. Tuples longer than three elements and non-string bodies are not represented.
- Views, hooks, error handlers and context processors are pure functions. Their side effects on `g`, on the session or on the response object in place are not modelled. An after-request hook that mutates its argument is modelled as one that returns the changed response.
- Context processors see a snapshot of the top frame (request, session, g) rather than reading the stack themselves.
- Views receive only their URL arguments, and before-request hooks only the `Request`. A view that reads the `request`, `session` or `g` proxies is not modelled, so two requests with the same route match always dispatch to the same result.
- After-request hooks always return a response (or raise). A hook that returns `None`, which the source hands on to the next hook, is not modelled.
- Responses.ErrorPage and Responses.ForceType: an `HTTPException` run as a WSGI application is rendered as a response whose body is its bare description, with no headers; Werkzeug's HTML error page is not modelled. Other WSGI callables are represented by the response `force_type` buffers from them, so running them is not modelled.
- Responses.SaveSession: the cookie is written every time the session is not `None`. The source documents that the session is saved only when it needs updates, a decision left to `SecureCookie.save_cookie` that is not modelled.
- FlaskApp.Flask.AddUrlRule: a missing `methods` argument and an explicit `methods=None` are both modelled by `None` and both become `GET`. In the source `setdefault` keeps an explicit `None`, which Werkzeug reads as "any method".
- The example applications and the test suite of the repository are not part of this model.
