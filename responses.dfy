/** Turning what a view returns into a response object (Flask.make_response)
    and writing the session into a response (Flask.save_session). */
module Responses {
  import opened Values

  /** response_class(body, status, headers): werkzeug's constructor with the
      default status and headers filled in and flask's default mimetype. */
  function NewResponse(body: string, status: Option<int>, headers: Option<Headers>): (r: Response)
    ensures r.body == body && r.mimetype == DefaultMimetype && r.cookies == map[]
    ensures status.Some? ==> r.status == status.value
    ensures status.None? ==> r.status == DefaultStatus
    ensures headers.Some? ==> r.headers == headers.value
    ensures headers.None? ==> r.headers == []
  {
    Response(body, status.GetOr(DefaultStatus), headers.GetOr([]), DefaultMimetype, map[])
  }

  /** The response an HTTPException produces when it is run as a WSGI
      application: an error page carrying its code. */
  function ErrorPage(e: HttpException): Response
  {
    Response(e.description, e.code, [], DefaultMimetype, map[])
  }

  /** response_class.force_type for the values make_response hands to it:
      the WSGI application is run and its output buffered. */
  function ForceType(rv: ReturnValue): (r: Response)
    requires rv.HttpExceptionObject? || rv.WsgiCallable?
    ensures rv.HttpExceptionObject? ==> r.status == rv.http.code
  {
    match rv
    case HttpExceptionObject(e) => ErrorPage(e)
    case WsgiCallable(buffered) => buffered
  }

  /** Flask.make_response: a response instance is returned unchanged, a
      string becomes the body, a tuple is spread over the constructor's
      arguments, anything else goes to force_type. None is not a WSGI
      application, so force_type raises on it. */
  function MakeResponse(rv: Option<ReturnValue>): (r: Outcome<Response>)
    ensures r.Raised? <==> rv.None?
    ensures r.Raised? ==> r.exc == TypeError
    ensures rv.Some? && rv.value.ResponseObject? ==> r == Returned(rv.value.response)
    ensures rv.Some? && rv.value.Str? ==>
      r.Returned? && r.value.body == rv.value.s && r.value.status == DefaultStatus
      && r.value.headers == [] && r.value.mimetype == DefaultMimetype && r.value.cookies == map[]
    ensures rv.Some? && rv.value.Tuple? ==>
      && r.Returned? && r.value.body == rv.value.body
      && (rv.value.status.Some? ==> r.value.status == rv.value.status.value)
      && (rv.value.status.None? ==> r.value.status == DefaultStatus)
      && (rv.value.headers.Some? ==> r.value.headers == rv.value.headers.value)
      && (rv.value.headers.None? ==> r.value.headers == [])
      && r.value.mimetype == DefaultMimetype && r.value.cookies == map[]
    ensures rv.Some? && rv.value.HttpExceptionObject? ==>
      r == Returned(ErrorPage(rv.value.http)) && r.value.status == rv.value.http.code
    ensures rv.Some? && rv.value.WsgiCallable? ==> r == Returned(rv.value.buffered)
  {
    match rv
    case None => Raised(TypeError)
    case Some(ResponseObject(response)) => Returned(response)
    case Some(Str(s)) => Returned(NewResponse(s, None, None))
    case Some(Tuple(body, status, headers)) => Returned(NewResponse(body, status, headers))
    case Some(other) => Returned(ForceType(other))
  }

  /** A string is treated exactly like the one-element tuple holding it. */
  lemma StrIsOneTuple(s: string)
    ensures MakeResponse(Some(Str(s))) == MakeResponse(Some(Tuple(s, None, None)))
  {
  }

  /** Flask.save_session: a None session is not saved; otherwise the codec
      writes the session into the response under the cookie name. Nothing
      but the cookies of the response changes. */
  function SaveSession(session: Option<Session>, cookieName: string, response: Response): (r: Response)
    ensures session.None? ==> r == response
    ensures session.Some? ==> r.cookies == response.cookies[cookieName := session.value]
    ensures r.(cookies := response.cookies) == response
  {
    match session
    case None => response
    case Some(s) => response.(cookies := response.cookies[cookieName := s])
  }

}
