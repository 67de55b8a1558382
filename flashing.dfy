/** Message flashing on the session: `flash` appends a message to the list
    stored under "_flashes"; `get_flashed_messages` takes that list out of
    the session. These are the session updates; the methods that apply them
    to the current request context are in FlaskApp. */
module Flashing {
  import opened Values

  /** The session key holding the pending messages. */
  const FlashesKey: string := "_flashes"

  /** The messages already pending in a session: the stored list, or the
      empty list when nothing is stored. */
  function Pending(s: Session): seq<string>
  {
    if FlashesKey in s && s[FlashesKey].Messages? then s[FlashesKey].items else []
  }

  /** The session update of `flash`: the pending list with the message
      appended at the end. A missing session (no secret key) has no `get`,
      and a stored value that is not a list cannot be extended. */
  function AddFlash(session: Option<Session>, message: string): (r: Outcome<Session>)
    ensures r.Raised? <==> session.None? || (FlashesKey in session.value && !session.value[FlashesKey].Messages?)
    ensures r.Raised? ==> r.exc == if session.None? then AttributeError else TypeError
    ensures r.Returned? ==> r.value.Keys == session.value.Keys + {FlashesKey}
    ensures r.Returned? ==> r.value[FlashesKey] == Messages(Pending(session.value) + [message])
    ensures r.Returned? ==> forall k :: k in session.value && k != FlashesKey ==> r.value[k] == session.value[k]
  {
    match session
    case None => Raised(AttributeError)
    case Some(s) =>
      var stored := if FlashesKey in s then s[FlashesKey] else Messages([]);
      if stored.Messages? then Returned(s[FlashesKey := Messages(stored.items + [message])])
      else Raised(TypeError)
  }

  /** session.pop('_flashes', []): the stored value (or an empty list) and
      the session without the key. */
  function PopFlashes(s: Session): (r: (SValue, Session))
    ensures r.1 == s - {FlashesKey}
    ensures FlashesKey in s ==> r.0 == s[FlashesKey]
    ensures FlashesKey !in s ==> r.0 == Messages([])
  {
    if FlashesKey in s then (s[FlashesKey], s - {FlashesKey}) else (Messages([]), s - {FlashesKey})
  }

  /** `flash` called once for each message, in order, within one request. */
  function FlashAll(session: Session, messages: seq<string>): Outcome<Session>
    decreases |messages|
  {
    if messages == [] then Returned(session)
    else
      match AddFlash(Some(session), messages[0])
      case Raised(e) => Raised(e)
      case Returned(s) => FlashAll(s, messages[1..])
  }

  /** Messages flashed one after another are collected in the order they
      were flashed behind the ones already pending, and taking them out
      leaves the rest of the session as it was. */
  lemma {:induction false} FlashAllThenPop(s: Session, messages: seq<string>)
    requires FlashesKey !in s || s[FlashesKey].Messages?
    ensures FlashAll(s, messages).Returned?
    ensures PopFlashes(FlashAll(s, messages).value) == (Messages(Pending(s) + messages), s - {FlashesKey})
    decreases |messages|
  {
    if messages == [] {
      assert Pending(s) + messages == Pending(s);
    } else {
      var s1 := AddFlash(Some(s), messages[0]).value;
      FlashAllThenPop(s1, messages[1..]);
      assert Pending(s1) == Pending(s) + [messages[0]];
      assert Pending(s1) + messages[1..] == Pending(s) + messages;
      assert s1 - {FlashesKey} == s - {FlashesKey};
    }
  }

  /** A message flashed in a session that later has its flashes taken out
      is returned last, and the session keeps everything else. */
  lemma FlashThenPop(s: Session, message: string)
    requires AddFlash(Some(s), message).Returned?
    ensures PopFlashes(AddFlash(Some(s), message).value) == (Messages(Pending(s) + [message]), s - {FlashesKey})
  {
    assert AddFlash(Some(s), message).value - {FlashesKey} == s - {FlashesKey};
  }
}
