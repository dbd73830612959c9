/**
 * The Telegram relay: its in-memory table of logged-in Telegram users and
 * the handlers that update it. The calls to the back end and to Telegram are
 * given outcomes; the model states what is sent and how the table changes.
 */
module Bot {
  import opened Wrappers
  import opened Text

  /** The relay's entry for one Telegram user: the back end's access token and the current chat session. */
  datatype SessionEntry = SessionEntry(jwtToken: string, sessionId: Option<int>)

  /** The JSON values the relay puts in a request body. */
  datatype Json = JStr(s: string) | JInt(i: int)

  /** The fields of a send_message reply the relay reads. */
  datatype ChatBody = ChatBody(sessionId: int, content: string)

  /**
   * The back end's answer to send_message: an HTTP status with the fields the
   * relay reads (None when the JSON lacks one of them), or a request exception.
   */
  datatype ChatResponse = ChatResponse(status: int, body: Option<ChatBody>) | ChatRequestFailed

  /** What the relay tells the user in the chat, or that the handler raised. */
  datatype Notice =
    | WrongFormat | LoginFailed | LinkFailed | LoggedIn
    | NewDialog | LoginFirst
    | SessionExpired | ApiError | Answer(text: string) | Raised

  /**
   * The bot token read from the environment: a non-empty value is stripped of
   * surrounding quotes; an absent or empty one is kept as it is.
   */
  function ConfiguredToken(env: Option<string>): (r: Option<string>)
    ensures r.None? <==> env.None?
    ensures env == Some("") ==> r == Some("")
    ensures r.Some? && r.value != "" ==> !IsQuote(r.value[0]) && !IsQuote(r.value[|r.value| - 1])
    ensures r.Some? && env.value != "" ==>
      exists i, j :: 0 <= i <= j <= |env.value| && r.value == env.value[i..j]
                     && AllQuotes(env.value[..i]) && AllQuotes(env.value[j..])
  {
    if env.Some? && env.value != "" then Some(StripQuotes(env.value)) else env
  }

  /**
   * The send_message body: always the text and the model name; `session_id`
   * exactly when the entry holds one.
   */
  function Payload(text: string, sessionId: Option<int>): (p: map<string, Json>)
    ensures "message_content" in p && p["message_content"] == JStr(text)
    ensures "model" in p && p["model"] == JStr("gigachat")
    ensures "session_id" in p <==> sessionId.Some?
    ensures sessionId.Some? ==> p["session_id"] == JInt(sessionId.value)
    ensures p.Keys <= {"message_content", "model", "session_id"}
  {
    var base := map["message_content" := JStr(text), "model" := JStr("gigachat")];
    if sessionId.Some? then base["session_id" := JInt(sessionId.value)] else base
  }

  /** `raise_for_status()` raises for client and server errors. */
  predicate IsHttpError(status: int)
  {
    400 <= status < 600
  }

  class Relay {
    /** `user_sessions`, keyed by Telegram user id. */
    var userSessions: map<int, SessionEntry>

    constructor ()
      ensures userSessions == map[]
    {
      userSessions := map[];
    }

    /**
     * /login <email> <password>. `loginToken` is what the login call returned
     * (None on a request error), `linked` whether linking the Telegram id
     * succeeded. Only a well-formed command with a non-empty token and a
     * successful link stores an entry, replacing any earlier one, with no
     * session; every other path leaves the table as it was.
     */
    method Login(telegramId: int, args: seq<string>, loginToken: Option<string>, linked: bool) returns (notice: Notice)
      modifies this
      ensures |args| != 2 ==> notice == WrongFormat && userSessions == old(userSessions)
      ensures |args| == 2 && (loginToken.None? || loginToken.value == "") ==>
                notice == LoginFailed && userSessions == old(userSessions)
      ensures |args| == 2 && loginToken.Some? && loginToken.value != "" && !linked ==>
                notice == LinkFailed && userSessions == old(userSessions)
      ensures |args| == 2 && loginToken.Some? && loginToken.value != "" && linked ==>
                notice == LoggedIn && userSessions == old(userSessions)[telegramId := SessionEntry(loginToken.value, None)]
    {
      if |args| != 2 {
        return WrongFormat;
      }
      if loginToken.None? || loginToken.value == "" {
        return LoginFailed;
      }
      if !linked {
        return LinkFailed;
      }
      userSessions := userSessions[telegramId := SessionEntry(loginToken.value, None)];
      notice := LoggedIn;
    }

    /** /new: forget the current session of a logged-in user, keeping the token; nothing otherwise. */
    method NewChat(telegramId: int) returns (notice: Notice)
      modifies this
      ensures telegramId in old(userSessions) ==>
                notice == NewDialog
                && userSessions == old(userSessions)[telegramId := old(userSessions)[telegramId].(sessionId := None)]
      ensures telegramId !in old(userSessions) ==> notice == LoginFirst && userSessions == old(userSessions)
    {
      if telegramId in userSessions {
        userSessions := userSessions[telegramId := userSessions[telegramId].(sessionId := None)];
        notice := NewDialog;
      } else {
        notice := LoginFirst;
      }
    }

    /**
     * A text message. Without an entry nothing is sent and the table stays.
     * Otherwise the payload is built from the entry and sent; a 401 evicts the
     * entry; any other request failure, and a reply lacking the expected fields
     * (the handler raises), leave the table as it was; a good reply records the
     * returned session id and keeps the token.
     */
    method HandleMessage(telegramId: int, text: string, response: ChatResponse)
      returns (sent: Option<map<string, Json>>, notice: Notice)
      modifies this
      ensures telegramId !in old(userSessions) ==> sent.None? && notice == LoginFirst && userSessions == old(userSessions)
      ensures telegramId in old(userSessions) ==> sent == Some(Payload(text, old(userSessions)[telegramId].sessionId))
      ensures telegramId in old(userSessions) ==>
        match response
        case ChatRequestFailed => notice == ApiError && userSessions == old(userSessions)
        case ChatResponse(status, body) =>
          if status == 401 then notice == SessionExpired && userSessions == old(userSessions) - {telegramId}
          else if IsHttpError(status) then notice == ApiError && userSessions == old(userSessions)
          else if body.None? then notice == Raised && userSessions == old(userSessions)
          else notice == Answer(body.value.content)
               && userSessions == old(userSessions)[telegramId := SessionEntry(old(userSessions)[telegramId].jwtToken,
                                                                               Some(body.value.sessionId))]
    {
      if telegramId !in userSessions {
        return None, LoginFirst;
      }
      var entry := userSessions[telegramId];
      sent := Some(Payload(text, entry.sessionId));
      match response {
        case ChatRequestFailed =>
          notice := ApiError;
        case ChatResponse(status, body) =>
          if status == 401 {
            userSessions := userSessions - {telegramId};
            notice := SessionExpired;
          } else if IsHttpError(status) {
            notice := ApiError;
          } else if body.None? {
            notice := Raised;
          } else {
            userSessions := userSessions[telegramId := userSessions[telegramId].(sessionId := Some(body.value.sessionId))];
            notice := Answer(body.value.content);
          }
      }
    }
  }

  /**
   * After /new the next message of that user starts a new chat session:
   * its payload carries no `session_id`.
   */
  method NewChatThenMessage(relay: Relay, telegramId: int, text: string, response: ChatResponse)
    returns (sent: Option<map<string, Json>>)
    requires telegramId in relay.userSessions
    modifies relay
    ensures sent.Some? && "session_id" !in sent.value
  {
    var _ := relay.NewChat(telegramId);
    var notice;
    sent, notice := relay.HandleMessage(telegramId, text, response);
  }
}
