/**
 * The chat router: opening a session, sending a message (crisis flag, the two
 * stored rows, the reply and the resource block), reading a session's
 * messages and ending a session, over the store.
 */
module Chat {
  import opened Wrappers
  import opened Http
  import opened SeqUtil
  import opened Database
  import CrisisDetection
  import AiService

  /** `create_anonymous_user`: a user row whose anonymous id is "anon_" and eight random
      hex digits, the digits being `tag`. */
  method CreateAnonymousUser(db: Store, tag: string) returns (user: UserRow)
    requires db.Valid()
    modifies db
    ensures db.Valid()
    ensures db.users == old(db.users) + [user]
    ensures user.anonymousId == Some("anon_" + tag) && user.email == None
    ensures db.sessions == old(db.sessions) && db.messages == old(db.messages) && db.topics == old(db.topics)
    ensures db.moods == old(db.moods) && db.activities == old(db.activities)
  {
    user := db.AddUser(Some("anon_" + tag), None);
  }

  datatype SessionResponse = SessionResponse(sessionId: Id, sessionType: string, emotionContext: Option<string>,
                                             topicId: Option<string>, createdAt: nat)

  /** `create_chat_session`: a caller without a user gets a fresh anonymous user, never a 401. */
  method CreateChatSession(db: Store, currentUser: Option<UserRow>, sessionType: string,
                           emotionContext: Option<string>, topicId: Option<string>, anonymousTag: string)
    returns (response: SessionResponse)
    requires db.Valid()
    modifies db
    ensures db.Valid()
    ensures currentUser.Some? ==> db.users == old(db.users)
    ensures currentUser.None? ==> |db.users| == |old(db.users)| + 1 && db.users[..|old(db.users)|] == old(db.users)
                                  && db.users[|old(db.users)|].anonymousId == Some("anon_" + anonymousTag)
    ensures var owner := if currentUser.Some? then currentUser.value.id else db.users[|db.users| - 1].id;
      db.sessions == old(db.sessions)
        + [SessionRow(response.sessionId, owner, sessionType, emotionContext, topicId, response.createdAt, None)]
    ensures response.sessionType == sessionType && response.emotionContext == emotionContext && response.topicId == topicId
    ensures forall s :: s in old(db.sessions) ==> s.id != response.sessionId
    ensures db.messages == old(db.messages) && db.topics == old(db.topics)
    ensures db.moods == old(db.moods) && db.activities == old(db.activities)
  {
    var owner: Id;
    if currentUser.None? {
      var user := CreateAnonymousUser(db, anonymousTag);
      owner := user.id;
    } else {
      owner := currentUser.value.id;
    }
    var row := db.AddSession(owner, sessionType, emotionContext, topicId);
    response := SessionResponse(row.id, row.sessionType, row.emotionContext, row.topicId, row.createdAt);
  }

  // ------------------------------------------------------------- history read

  /** `{"role": ..., "content": ...}` of each message. */
  function Turns(ms: seq<MessageRow>): (r: seq<AiService.ChatTurn>)
    ensures |r| == |ms|
    ensures forall i :: 0 <= i < |ms| ==> r[i] == AiService.ChatTurn(ms[i].role, ms[i].content)
  {
    seq(|ms|, i requires 0 <= i < |ms| => AiService.ChatTurn(ms[i].role, ms[i].content))
  }

  /** What the history query of `_get_conversation_history` reads: each of the user's sessions,
      newest first, as its turns in timestamp order. */
  function HistorySessions(sessions: seq<SessionRow>, messages: seq<MessageRow>, userId: Id): seq<seq<AiService.ChatTurn>> {
    var newest := UserSessionsNewestFirst(sessions, userId);
    seq(|newest|, k requires 0 <= k < |newest| => Turns(SessionMessages(messages, newest[k].id)))
  }

  // ------------------------------------------------------------- send_message

  datatype ChatResponse = ChatResponse(message: string, sessionId: Id, crisisDetected: bool,
                                       crisisResources: Option<CrisisDetection.CrisisResources>)

  /** The fixed block `send_message` attaches: no severity, no "urgent" key. */
  const ChatCrisisResources: CrisisDetection.CrisisResources :=
    CrisisDetection.CrisisResources(CrisisDetection.CrisisHotline, CrisisDetection.CrisisText,
                                    CrisisDetection.SelfHarmMessage, None)

  /** The reply step of `send_message`: `generate_response` for the caller, whose history
      read sees `messages`. */
  method Generate(ai: AiService.AIService, content: string, sessionType: string, emotionContext: Option<string>,
                  topicId: Option<string>, owner: Id, sessions: seq<SessionRow>, messages: seq<MessageRow>,
                  historyReadFails: bool,
                  openAICall: seq<AiService.ChatTurn> -> AiService.ProviderResult,
                  anthropicCall: string -> AiService.ProviderResult)
    returns (reply: Option<string>)
    ensures reply.None? <==> historyReadFails
    ensures reply.Some? ==>
      AiService.Generated(reply.value, AiService.RouteFor(ai.aiProvider, ai.hasAnthropic, ai.hasOpenAI),
                          AiService.MessagesFor(content, sessionType, emotionContext, topicId, Some(owner),
                                                HistorySessions(sessions, messages, owner)),
                          openAICall, anthropicCall)
  {
    var history := if historyReadFails then None else Some(HistorySessions(sessions, messages, owner));
    var r := ai.GenerateResponse(content, sessionType, emotionContext, topicId, Some(owner), history,
                                 openAICall, anthropicCall);
    reply := if r.Success? then Some(r.value.text) else None;
  }

  /** The caller of `send_message`: the signed-in user, or a fresh anonymous one. */
  method ResolveOwner(db: Store, currentUser: Option<UserRow>, anonymousTag: string) returns (owner: Id)
    requires db.Valid()
    modifies db
    ensures db.Valid()
    ensures currentUser.Some? ==> db.users == old(db.users) && owner == currentUser.value.id
    ensures currentUser.None? ==> |db.users| == |old(db.users)| + 1 && db.users[..|old(db.users)|] == old(db.users)
                                  && db.users[|old(db.users)|].anonymousId == Some("anon_" + anonymousTag)
                                  && owner == db.users[|db.users| - 1].id
    ensures db.sessions == old(db.sessions) && db.messages == old(db.messages) && db.topics == old(db.topics)
    ensures db.moods == old(db.moods) && db.activities == old(db.activities)
  {
    if currentUser.None? {
      var user := CreateAnonymousUser(db, anonymousTag);
      owner := user.id;
      assert db.users[..|old(db.users)|] == old(db.users);
    } else {
      owner := currentUser.value.id;
    }
  }

  /** The part of `send_message` after the caller is known: the user row with its flag,
      the reply, whose history read sees that row, and the assistant row. */
  method Exchange(db: Store, ai: AiService.AIService, owner: Id, content: string,
                  sessionId: Id, sessionType: string, emotionContext: Option<string>, topicId: Option<string>,
                  historyReadFails: bool,
                  openAICall: seq<AiService.ChatTurn> -> AiService.ProviderResult,
                  anthropicCall: string -> AiService.ProviderResult)
    returns (r: Result<ChatResponse, HttpError>)
    requires db.Valid()
    modifies db
    ensures db.Valid()
    ensures db.users == old(db.users) && db.sessions == old(db.sessions) && db.topics == old(db.topics)
    ensures db.moods == old(db.moods) && db.activities == old(db.activities)
    ensures r.Failure? <==> historyReadFails
    ensures r.Failure? ==> r.error == InternalServerError
    ensures var n := |old(db.messages)|;
      && |db.messages| == n + (if r.Success? then 2 else 1)
      && db.messages[..n] == old(db.messages)
      && db.messages[n].sessionId == sessionId && db.messages[n].content == content && db.messages[n].role == "user"
      && db.messages[n].crisisDetected == CrisisDetection.DetectCrisis(content)
    ensures r.Success? ==>
      var n := |old(db.messages)|;
      var flag := CrisisDetection.DetectCrisis(content);
      && db.messages[n + 1].sessionId == sessionId && db.messages[n + 1].role == "assistant"
      && db.messages[n + 1].content == r.value.message && db.messages[n + 1].crisisDetected == flag
      && r.value.sessionId == sessionId && r.value.crisisDetected == flag
      && r.value.crisisResources == (if flag then Some(ChatCrisisResources) else None)
    ensures r.Success? ==>
      AiService.Generated(r.value.message, AiService.RouteFor(ai.aiProvider, ai.hasAnthropic, ai.hasOpenAI),
                          AiService.MessagesFor(content, sessionType, emotionContext, topicId, Some(owner),
                                                HistorySessions(db.sessions, db.messages[..|old(db.messages)| + 1], owner)),
                          openAICall, anthropicCall)
  {
    ghost var before := db.messages;
    var flag := CrisisDetection.DetectCrisis(content);
    var userRow := db.AddMessage(sessionId, content, "user", flag);
    var reply := Generate(ai, content, sessionType, emotionContext, topicId, owner, db.sessions, db.messages,
                          historyReadFails, openAICall, anthropicCall);
    if reply.None? {
      AppendPrefixes(before, userRow, userRow);
      return Failure(InternalServerError);
    }
    var assistantRow := db.AddMessage(sessionId, reply.value, "assistant", flag);
    AppendPrefixes(before, userRow, assistantRow);
    var resources := if flag then Some(ChatCrisisResources) else None;
    r := Success(ChatResponse(reply.value, sessionId, flag, resources));
  }

  /** `send_message`. The conversation-history read inside reply generation either returns
      (`historyReadFails` false) or raises, which the router turns into a 500. */
  method SendMessage(db: Store, ai: AiService.AIService, currentUser: Option<UserRow>, content: string,
                     sessionId: Id, sessionType: string, emotionContext: Option<string>, topicId: Option<string>,
                     anonymousTag: string, historyReadFails: bool,
                     openAICall: seq<AiService.ChatTurn> -> AiService.ProviderResult,
                     anthropicCall: string -> AiService.ProviderResult)
    returns (r: Result<ChatResponse, HttpError>)
    requires db.Valid()
    modifies db
    ensures db.Valid()
    ensures currentUser.Some? ==> db.users == old(db.users)
    ensures currentUser.None? ==> |db.users| == |old(db.users)| + 1 && db.users[..|old(db.users)|] == old(db.users)
                                  && db.users[|old(db.users)|].anonymousId == Some("anon_" + anonymousTag)
    ensures db.sessions == old(db.sessions) && db.topics == old(db.topics)
    ensures db.moods == old(db.moods) && db.activities == old(db.activities)
    ensures r.Failure? <==> historyReadFails
    ensures r.Failure? ==> r.error == InternalServerError
    // the user row is stored, with the flag, whatever happens next
    ensures var n := |old(db.messages)|;
      && |db.messages| == n + (if r.Success? then 2 else 1)
      && db.messages[..n] == old(db.messages)
      && db.messages[n].sessionId == sessionId && db.messages[n].content == content && db.messages[n].role == "user"
      && db.messages[n].crisisDetected == CrisisDetection.DetectCrisis(content)
    ensures r.Success? ==>
      var n := |old(db.messages)|;
      var flag := CrisisDetection.DetectCrisis(content);
      && db.messages[n + 1].sessionId == sessionId && db.messages[n + 1].role == "assistant"
      && db.messages[n + 1].content == r.value.message && db.messages[n + 1].crisisDetected == flag
      && r.value.sessionId == sessionId && r.value.crisisDetected == flag
      && r.value.crisisResources == (if flag then Some(ChatCrisisResources) else None)
    ensures r.Success? ==>
      var owner := if currentUser.Some? then currentUser.value.id else db.users[|db.users| - 1].id;
      AiService.Generated(r.value.message, AiService.RouteFor(ai.aiProvider, ai.hasAnthropic, ai.hasOpenAI),
                          AiService.MessagesFor(content, sessionType, emotionContext, topicId, Some(owner),
                                                HistorySessions(db.sessions, db.messages[..|old(db.messages)| + 1], owner)),
                          openAICall, anthropicCall)
  {
    var owner := ResolveOwner(db, currentUser, anonymousTag);
    r := Exchange(db, ai, owner, content, sessionId, sessionType, emotionContext, topicId, historyReadFails,
                  openAICall, anthropicCall);
  }

  /** A row appended to a user's only session ends that session's history. */
  lemma OnlySessionHistory(sessions: seq<SessionRow>, messages: seq<MessageRow>, userId: Id,
                           row: MessageRow, session: SessionRow)
    requires UserSessionsNewestFirst(sessions, userId) == [session]
    requires row.sessionId == session.id
    ensures var h := HistorySessions(sessions, messages + [row], userId);
      |h| == 1 && h[0] != [] && h[0][|h[0]| - 1] == AiService.ChatTurn(row.role, row.content)
  {
    var ms := messages + [row];
    assert ms[..|ms| - 1] == messages;
    var own := SessionMessages(ms, session.id);
    assert own == SessionMessages(messages, session.id) + [row];
    assert Turns(own)[|own| - 1] == AiService.ChatTurn(row.role, row.content);
  }

  /** The history is read after the user row is committed: for a user whose only session is
      the one written to, the history's last turn is the message just sent, so the provider
      sees that message twice, once as history and once as the current message. */
  lemma CurrentMessageRepeated(sessions: seq<SessionRow>, messages: seq<MessageRow>, userId: Id,
                               row: MessageRow, session: SessionRow,
                               sessionType: string, emotion: Option<string>, topicId: Option<string>)
    requires UserSessionsNewestFirst(sessions, userId) == [session]
    requires row.sessionId == session.id && row.role == "user"
    ensures var ms := AiService.MessagesFor(row.content, sessionType, emotion, topicId, Some(userId),
                                            HistorySessions(sessions, messages + [row], userId));
      |ms| >= 3 && ms[|ms| - 2] == ms[|ms| - 1] == AiService.ChatTurn("user", row.content)
  {
    OnlySessionHistory(sessions, messages, userId, row, session);
    AiService.MessagesForRepeatsLastTurn(row.content, sessionType, emotion, topicId, userId,
                                         HistorySessions(sessions, messages + [row], userId));
  }

  // ------------------------------------------------------- session endpoints

  /** `get_session_messages`. */
  function GetSessionMessages(db: Store, currentUser: Option<UserRow>, sessionId: Id): (r: Result<seq<MessageRow>, HttpError>)
    reads db
    ensures r.Failure? ==> r.error == Unauthorized || r.error == NotFound
    ensures r == Failure(Unauthorized) <==> currentUser.None?
    ensures r == Failure(NotFound) <==>
      currentUser.Some? && forall k :: 0 <= k < |db.sessions| ==> !(db.sessions[k].id == sessionId && db.sessions[k].userId == currentUser.value.id)
  {
    if currentUser.None? then Failure(Unauthorized)
    else if OwnedSession(db.sessions, sessionId, currentUser.value.id).None? then Failure(NotFound)
    else Success(SessionMessages(db.messages, sessionId))
  }

  /** On success the list is exactly the session's stored messages, in ascending timestamp order. */
  lemma GetSessionMessagesSpec(db: Store, currentUser: Option<UserRow>, sessionId: Id)
    requires db.Valid()
    requires GetSessionMessages(db, currentUser, sessionId).Success?
    ensures var ms := GetSessionMessages(db, currentUser, sessionId).value;
      && IncreasingBy(ms, (m: MessageRow) => m.timestamp)
      && (forall i :: 0 <= i < |ms| ==> ms[i] in db.messages && ms[i].sessionId == sessionId)
      && (forall i :: 0 <= i < |db.messages| && db.messages[i].sessionId == sessionId ==> db.messages[i] in ms)
  {
    SessionMessagesInOrder(db.messages, sessionId);
  }

  /** `end_session`: the same guards; on success the session's `ended_at` is `now` and
      nothing else changes. */
  method EndSession(db: Store, currentUser: Option<UserRow>, sessionId: Id, now: nat) returns (r: Result<string, HttpError>)
    requires db.Valid()
    modifies db
    ensures db.Valid()
    ensures r == Failure(Unauthorized) <==> currentUser.None?
    ensures r == Failure(NotFound) <==>
      currentUser.Some? && OwnedSession(old(db.sessions), sessionId, currentUser.value.id).None?
    ensures r.Failure? ==> db.sessions == old(db.sessions)
    ensures r.Success? ==>
      var i := OwnedSession(old(db.sessions), sessionId, currentUser.value.id).value;
      && r.value == "Session ended successfully"
      && db.sessions == old(db.sessions)[i := old(db.sessions)[i].(endedAt := Some(now))]
    ensures db.users == old(db.users) && db.messages == old(db.messages) && db.topics == old(db.topics)
    ensures db.moods == old(db.moods) && db.activities == old(db.activities)
  {
    if currentUser.None? {
      return Failure(Unauthorized);
    }
    var found := OwnedSession(db.sessions, sessionId, currentUser.value.id);
    if found.None? {
      return Failure(NotFound);
    }
    var i := found.value;
    db.UpdateSession(i, db.sessions[i].(endedAt := Some(now)));
    r := Success("Session ended successfully");
  }
}
