/** The three ordered hook lists of an application, each as the fold the
    framework performs over it: before-request hooks (preprocess_request),
    after-request hooks (process_response) and template context processors
    (update_template_context). */
module Hooks {
  import opened Values

  // ---------------------------------------------------------------------
  // Before-request hooks

  /** A hook declines when it returns None; anything else (a value or an
      exception) ends preprocessing. */
  predicate Declines(rv: Outcome<Option<ReturnValue>>)
  {
    rv.Returned? && rv.value.None?
  }

  /** The first n hooks all decline. */
  ghost predicate AllDecline(hooks: seq<BeforeRequestHook>, request: Request, n: nat)
    requires n <= |hooks|
  {
    forall j :: 0 <= j < n ==> Declines(hooks[j](request))
  }

  /** preprocess_request as a fold: hooks run in registration order and the
      first one that does not decline decides the result. */
  function RunBeforeHooks(hooks: seq<BeforeRequestHook>, request: Request): (r: Outcome<Option<ReturnValue>>)
    ensures r == Returned(None) || exists i :: 0 <= i < |hooks| && r == hooks[i](request)
    decreases |hooks|
  {
    if hooks == [] then Returned(None)
    else
      var rv := hooks[0](request);
      if Declines(rv) then RunBeforeHooks(hooks[1..], request) else rv
  }

  /** The index of the first hook that does not decline, or |hooks|. */
  ghost function FirstAnswer(hooks: seq<BeforeRequestHook>, request: Request): (i: nat)
    ensures i <= |hooks|
    ensures AllDecline(hooks, request, i)
    ensures i < |hooks| ==> !Declines(hooks[i](request))
    decreases |hooks|
  {
    if hooks == [] then 0
    else if Declines(hooks[0](request)) then
      var k := FirstAnswer(hooks[1..], request);
      assert forall j :: 1 <= j < k + 1 ==> hooks[j] == hooks[1..][j - 1];
      k + 1
    else 0
  }

  /** The result of preprocessing is that of the first hook that does not
      decline, and None exactly when every hook declines. */
  lemma {:induction false} BeforeHooksResult(hooks: seq<BeforeRequestHook>, request: Request)
    ensures FirstAnswer(hooks, request) < |hooks| ==>
      RunBeforeHooks(hooks, request) == hooks[FirstAnswer(hooks, request)](request)
    ensures FirstAnswer(hooks, request) == |hooks| ==> RunBeforeHooks(hooks, request) == Returned(None)
    ensures Declines(RunBeforeHooks(hooks, request)) <==> AllDecline(hooks, request, |hooks|)
    decreases |hooks|
  {
    if hooks != [] && Declines(hooks[0](request)) {
      BeforeHooksResult(hooks[1..], request);
      assert AllDecline(hooks[1..], request, |hooks| - 1) ==> AllDecline(hooks, request, |hooks|) by {
        if AllDecline(hooks[1..], request, |hooks| - 1) {
          forall j | 0 <= j < |hooks| ensures Declines(hooks[j](request)) {
            if j > 0 { assert hooks[j] == hooks[1..][j - 1]; }
          }
        }
      }
      assert AllDecline(hooks, request, |hooks|) ==> AllDecline(hooks[1..], request, |hooks| - 1) by {
        if AllDecline(hooks, request, |hooks|) {
          forall j | 0 <= j < |hooks| - 1 ensures Declines(hooks[1..][j](request)) {
            assert hooks[1..][j] == hooks[j + 1];
          }
        }
      }
    }
  }

  /** Registering more hooks behind a list: they run only when every
      earlier hook declined; once a hook answers the later ones are not run. */
  lemma {:induction false} BeforeHooksAppend(first: seq<BeforeRequestHook>, rest: seq<BeforeRequestHook>, request: Request)
    ensures RunBeforeHooks(first + rest, request)
         == if Declines(RunBeforeHooks(first, request)) then RunBeforeHooks(rest, request)
            else RunBeforeHooks(first, request)
    decreases |first|
  {
    if first == [] {
      assert first + rest == rest;
    } else {
      assert (first + rest)[0] == first[0];
      assert (first + rest)[1..] == first[1..] + rest;
      BeforeHooksAppend(first[1..], rest, request);
    }
  }

  // ---------------------------------------------------------------------
  // After-request hooks

  /** process_response's loop: every hook receives the previous hook's
      response; an exception stops the loop and propagates. */
  function RunAfterHooks(hooks: seq<AfterRequestHook>, response: Response): Outcome<Response>
    decreases |hooks|
  {
    if hooks == [] then Returned(response)
    else
      match hooks[0](response)
      case Raised(e) => Raised(e)
      case Returned(next) => RunAfterHooks(hooks[1..], next)
  }

  /** Continue an outcome with more after-request hooks. */
  function ThenAfterHooks(o: Outcome<Response>, hooks: seq<AfterRequestHook>): Outcome<Response>
  {
    match o
    case Raised(e) => Raised(e)
    case Returned(response) => RunAfterHooks(hooks, response)
  }

  /** Running two registered lists is running the first, then the second on
      its output. */
  lemma {:induction false} AfterHooksAppend(first: seq<AfterRequestHook>, rest: seq<AfterRequestHook>, response: Response)
    ensures RunAfterHooks(first + rest, response) == ThenAfterHooks(RunAfterHooks(first, response), rest)
    decreases |first|
  {
    if first == [] {
      assert first + rest == rest;
    } else {
      assert (first + rest)[0] == first[0];
      assert (first + rest)[1..] == first[1..] + rest;
      match first[0](response)
      case Raised(e) =>
      case Returned(next) => AfterHooksAppend(first[1..], rest, next);
    }
  }

  /** A hook registered last is applied to the output of all earlier ones,
      and its output is the final response. */
  lemma AfterHookRegisteredLast(hooks: seq<AfterRequestHook>, hook: AfterRequestHook, response: Response)
    ensures RunAfterHooks(hooks + [hook], response)
         == match RunAfterHooks(hooks, response)
            case Raised(e) => Raised(e)
            case Returned(r) => hook(r)
  {
    AfterHooksAppend(hooks, [hook], response);
    match RunAfterHooks(hooks, response)
    case Raised(e) =>
    case Returned(r) =>
      assert RunAfterHooks([hook], r) == ThenAfterHooks(hook(r), []);
  }

  /** `trace` lists the responses handed from hook to hook: it starts with
      the input, each hook maps one to the next, and it ends with `result`. */
  ghost predicate IsChain(hooks: seq<AfterRequestHook>, trace: seq<Response>, response: Response, result: Response)
  {
    && |trace| == |hooks| + 1
    && trace[0] == response
    && trace[|hooks|] == result
    && forall i :: 0 <= i < |hooks| ==> hooks[i](trace[i]) == Returned(trace[i + 1])
  }

  /** When no hook raises, the result is the end of a chain in which each
      hook received exactly its predecessor's output. */
  lemma {:induction false} AfterHooksChain(hooks: seq<AfterRequestHook>, response: Response)
    requires RunAfterHooks(hooks, response).Returned?
    ensures exists trace :: IsChain(hooks, trace, response, RunAfterHooks(hooks, response).value)
    decreases |hooks|
  {
    if hooks == [] {
      assert IsChain(hooks, [response], response, response);
    } else {
      var next := hooks[0](response).value;
      AfterHooksChain(hooks[1..], next);
      var tail :| IsChain(hooks[1..], tail, next, RunAfterHooks(hooks[1..], next).value);
      var trace := [response] + tail;
      forall i | 0 <= i < |hooks| ensures hooks[i](trace[i]) == Returned(trace[i + 1]) {
        if i > 0 { assert hooks[i] == hooks[1..][i - 1]; }
      }
      assert IsChain(hooks, trace, response, RunAfterHooks(hooks, response).value);
    }
  }

  // ---------------------------------------------------------------------
  // Template context processors

  /** The template context after the processors ran, and the exception
      that stopped them, if any; the updates made before it are kept. */
  datatype Updated = Updated(vars: map<string, TValue>, failure: Option<Exc>)

  /** update_template_context: each processor's dictionary is merged into
      the context in registration order, later keys replacing earlier ones. */
  function ApplyProcessors(processors: seq<ContextProcessorFn>, view: Option<FrameView>, context: map<string, TValue>): (r: Updated)
    ensures r.failure.Some? ==> exists i :: 0 <= i < |processors| && processors[i](view) == Raised(r.failure.value)
    decreases |processors|
  {
    if processors == [] then Updated(context, None)
    else
      match processors[0](view)
      case Raised(e) => Updated(context, Some(e))
      case Returned(d) => ApplyProcessors(processors[1..], view, context + d)
  }

  /** _default_template_ctx_processor: injects the request, the session and g
      of the top frame; with no frame it fails on the missing context. */
  function DefaultContextProcessor(view: Option<FrameView>): (r: Outcome<map<string, TValue>>)
    ensures r.Raised? <==> view.None?
    ensures view.Some? ==>
      && r.value.Keys == {"request", "session", "g"}
      && r.value["request"] == TRequest(view.value.request)
      && r.value["session"] == TSession(view.value.session)
      && r.value["g"] == TGlobals(view.value.g)
  {
    match view
    case None => Raised(AttributeError)
    case Some(frame) =>
      Returned(map["request" := TRequest(frame.request), "session" := TSession(frame.session), "g" := TGlobals(frame.g)])
  }

  /** Running two lists of processors is running the first and, unless it
      failed, the second on its result. */
  lemma {:induction false} ProcessorsAppend(first: seq<ContextProcessorFn>, rest: seq<ContextProcessorFn>,
                                            view: Option<FrameView>, context: map<string, TValue>)
    ensures ApplyProcessors(first + rest, view, context)
         == var u := ApplyProcessors(first, view, context);
            if u.failure.Some? then u else ApplyProcessors(rest, view, u.vars)
    decreases |first|
  {
    if first == [] {
      assert first + rest == rest;
    } else {
      assert (first + rest)[0] == first[0];
      assert (first + rest)[1..] == first[1..] + rest;
      match first[0](view)
      case Raised(e) =>
      case Returned(d) => ProcessorsAppend(first[1..], rest, view, context + d);
    }
  }

  /** No processor that returns a dictionary has `key` in it. */
  predicate Untouched(processors: seq<ContextProcessorFn>, view: Option<FrameView>, key: string)
  {
    forall i :: 0 <= i < |processors| && processors[i](view).Returned? ==> key !in processors[i](view).value
  }

  /** The context only grows: every key the caller put in is still there
      afterwards, whether or not a processor failed, and a key that no
      processor returns keeps the caller's value. */
  lemma {:induction false} ProcessorsKeepContext(processors: seq<ContextProcessorFn>, view: Option<FrameView>,
                                                 context: map<string, TValue>)
    ensures context.Keys <= ApplyProcessors(processors, view, context).vars.Keys
    ensures forall k :: k in context && Untouched(processors, view, k) ==>
      ApplyProcessors(processors, view, context).vars[k] == context[k]
    decreases |processors|
  {
    if processors != [] {
      match processors[0](view)
      case Raised(e) =>
      case Returned(d) =>
        ProcessorsKeepContext(processors[1..], view, context + d);
        forall k | k in context && Untouched(processors, view, k)
          ensures Untouched(processors[1..], view, k) && (context + d)[k] == context[k]
        {
          forall i | 0 <= i < |processors[1..]| && processors[1..][i](view).Returned?
            ensures k !in processors[1..][i](view).value
          {
            assert processors[1..][i] == processors[i + 1];
          }
        }
    }
  }

  /** A processor registered last has the final word on the keys it returns. */
  lemma LastProcessorWins(processors: seq<ContextProcessorFn>, last: ContextProcessorFn,
                          view: Option<FrameView>, context: map<string, TValue>, key: string)
    requires ApplyProcessors(processors + [last], view, context).failure.None?
    requires last(view).Returned? && key in last(view).value
    ensures key in ApplyProcessors(processors + [last], view, context).vars
    ensures ApplyProcessors(processors + [last], view, context).vars[key] == last(view).value[key]
  {
    ProcessorsAppend(processors, [last], view, context);
    var u := ApplyProcessors(processors, view, context);
    assert u.failure.None?;
    assert ApplyProcessors([last], view, u.vars) == ApplyProcessors([], view, u.vars + last(view).value);
  }

  /** With the default processor first, an active frame's request, session
      and g reach the template context before any other processor runs;
      with an empty stack nothing is updated and AttributeError is raised. */
  lemma DefaultProcessorFirst(rest: seq<ContextProcessorFn>, view: Option<FrameView>, context: map<string, TValue>)
    ensures view.None? ==>
      ApplyProcessors([DefaultContextProcessor] + rest, view, context) == Updated(context, Some(AttributeError))
    ensures view.Some? ==>
      ApplyProcessors([DefaultContextProcessor] + rest, view, context)
      == ApplyProcessors(rest, view, context + DefaultContextProcessor(view).value)
  {
    assert ([DefaultContextProcessor] + rest)[1..] == rest;
  }
}
