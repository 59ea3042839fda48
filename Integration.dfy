/**
 * What the widget makes of what the session object sends, and what the
 * session object makes of what the widget opens and sends.
 */
module Integration {
  import opened Wrappers
  import opened Strings
  import opened Messages
  import opened ChatStore
  import opened ChatSession
  import opened ClientConnection

  /** The widget's store after receiving these envelopes in order. */
  function ApplyFrames(s: ChatState, frames: seq<Envelope>, userId: string, projectId: Option<string>, now: int): ChatState
    decreases |frames|
  {
    if frames == [] then s
    else ApplyFrames(HandleFrame(s, Json(frames[0]), userId, projectId, now), frames[1..], userId, projectId, now)
  }

  /** `assistant_message` envelopes without a `messageId` leave the widget's
      store as it was, however many arrive. */
  lemma {:induction false} UntaggedAssistantFramesIgnored(s: ChatState, frames: seq<Envelope>, userId: string, projectId: Option<string>, now: int)
    requires forall i :: 0 <= i < |frames| ==> frames[i].kind == AssistantMessageType && frames[i].messageId == None
    ensures ApplyFrames(s, frames, userId, projectId, now) == s
    decreases |frames|
  {
    if frames != [] {
      UntaggedAssistantFramesIgnored(s, frames[1..], userId, projectId, now);
    }
  }

  /** The whole answer to a `user_message` (acknowledgment, every cumulative
      frame and the terminal frame) is dropped by the widget: none of it
      carries a `messageId`, so no assistant message ever appears. */
  lemma ServerReplyInvisibleToClient(s: ChatState, content: Option<string>, userId: string, projectId: Option<string>,
                                     clientUser: string, clientProject: Option<string>, now: int)
    ensures ApplyFrames(s, UserMessageReply(content, userId, projectId), clientUser, clientProject, now) == s
  {
    UserMessageReplyOrder(content, userId, projectId);
    UntaggedAssistantFramesIgnored(s, UserMessageReply(content, userId, projectId), clientUser, clientProject, now);
  }

  /** The session's error frames put their text in `data.message`, but the
      widget reads `data.error`: it shows the default text instead. */
  lemma ServerErrorShowsDefaultText(s: ChatState, message: string, userId: string, projectId: Option<string>, now: int)
    ensures HandleFrame(s, Json(ErrorEnvelope(message)), userId, projectId, now) == SetError(s, Some(DefaultError))
    ensures ApplyFrames(s, [ErrorEnvelope(message)], userId, projectId, now).error == Some(DefaultError)
  {
  }

  /** The user and project the session object derives from the widget's socket
      URL: the widget's user unless it is empty, and its project when set. */
  lemma ClientQueryOnServer(userId: string, projectId: Option<string>)
    ensures var q := ConnectQuery(userId, projectId);
      && UserIdFrom(q.userId) == (if userId != "" then userId else Anonymous)
      && ProjectIdFrom(q.projectId) == (if Truthy(projectId) then projectId else None)
      && ScopeFilter(UserIdFrom(q.userId), ProjectIdFrom(q.projectId)) == ScopeFilter(UserIdFrom(q.userId), projectId)
  {
  }

  /** A message the widget sends is answered with the mock text built around
      exactly the typed content; its `messageId` plays no part. */
  lemma SentMessageReply(id: string, content: string, userId: string, projectId: Option<string>)
    ensures Reply(Json(UserEnvelope(id, content)), userId, projectId) == UserMessageReply(Some(content), userId, projectId)
    ensures var text := MockResponse(content, ScopeFilter(userId, projectId));
      var at := |MockHead|;
      at + |content| <= |text| && text[at..at + |content|] == content
  {
    var text := MockResponse(content, ScopeFilter(userId, projectId));
    assert text == MockHead + content + (text[|MockHead| + |content|..]);
  }
}
