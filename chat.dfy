/**
 * The chat back end: sending a message (resolve or create the session,
 * record the user's message, read the recent history, build the prompt,
 * call the provider, record the reply, commit once) and reading a session's
 * history with its ownership check.
 */
module Chat {
  import opened Wrappers
  import opened Text
  import opened Store
  import opened LlmClients

  /** How many recent messages the prompt sees. */
  const HistoryLimit: nat := 10

  /** The smaller of two numbers: the length of a `.limit(n)` query over `m` rows. */
  function Min(a: int, b: int): (r: int)
    ensures r <= a && r <= b
    ensures r == a || r == b
  {
    if a <= b then a else b
  }

  const BasePersona := "Ты — полезный ассистент для малого бизнеса в РФ." + " Отвечай кратко и по делу."
  const IndustryLead := " Контекст о бизнесе пользователя: " + "Отрасль - "
  const SizeLead := ", Размер компании - "
  const GoalsLead := ", Цели - "

  // ---------------------------------------------------------------------
  // The system prompt
  // ---------------------------------------------------------------------

  /** `x` occurs in `s` at position `i`. */
  ghost predicate OccursAt(s: string, i: int, x: string)
  {
    0 <= i && i + |x| <= |s| && s[i..i + |x|] == x
  }

  /** `a`, `b` and `c` occur in `s` one after the other, without overlapping. */
  ghost predicate InOrder(s: string, a: string, b: string, c: string)
  {
    exists i, j, k :: OccursAt(s, i, a) && OccursAt(s, j, b) && OccursAt(s, k, c) && i + |a| <= j && j + |b| <= k
  }

  /**
   * The system prompt: the base persona alone when the user has no profile;
   * otherwise the persona followed by a context clause that names the
   * industry, the company size and the goals, in that order.
   */
  function SystemText(profile: Option<BusinessProfile>): (r: string)
    ensures profile.None? ==> r == BasePersona
    ensures profile.Some? ==>
      && StartsWith(r, BasePersona + IndustryLead)
      && InOrder(r[|BasePersona|..], profile.value.industry, profile.value.companySize, profile.value.goals)
  {
    match profile
    case None => BasePersona
    case Some(p) =>
      ClauseShape(BasePersona, IndustryLead, p.industry, SizeLead, p.companySize, GoalsLead, p.goals, ".");
      BasePersona + (IndustryLead + p.industry + SizeLead + p.companySize + GoalsLead + p.goals + ".")
  }

  /**
   * A persona followed by a clause that interleaves three values with fixed
   * texts starts with the persona and the clause's lead, and after the persona
   * holds the three values in order.
   */
  lemma ClauseShape(persona: string, lead: string, x: string, s1: string, y: string, s2: string, z: string, tail: string)
    ensures var r := persona + (lead + x + s1 + y + s2 + z + tail);
            StartsWith(r, persona + lead) && InOrder(r[|persona|..], x, y, z)
  {
    var clause := lead + x + s1 + y + s2 + z + tail;
    var i := |lead|;
    var j := i + |x| + |s1|;
    var k := j + |y| + |s2|;
    assert clause[i..i + |x|] == x;
    assert clause[j..j + |y|] == y;
    assert clause[k..k + |z|] == z;
    assert OccursAt(clause, i, x) && OccursAt(clause, j, y) && OccursAt(clause, k, z);
    assert (persona + clause)[|persona|..] == clause;
  }

  // ---------------------------------------------------------------------
  // The flattened history and its round trip through the client's parser
  // ---------------------------------------------------------------------

  /**
   * One message as a history line, `role: content`: the role, the separator,
   * then the content. A line built from newline-free parts holds no newline.
   */
  function Line(m: Message): (r: string)
    ensures |r| == |m.role| + 2 + |m.content|
    ensures r[..|m.role|] == m.role && r[|m.role| + 2..] == m.content
    ensures r[|m.role|..|m.role| + 2] == ": "
    ensures '\n' !in m.role && '\n' !in m.content ==> '\n' !in r
  {
    m.role + ": " + m.content
  }

  /** The rendered line of each message, in transcript order. */
  function RenderLines(ms: seq<Message>): (r: seq<string>)
    ensures |r| == |ms|
    ensures (forall k :: 0 <= k < |ms| ==> '\n' !in ms[k].role && '\n' !in ms[k].content) ==>
              forall k :: 0 <= k < |r| ==> '\n' !in r[k]
  {
    seq(|ms|, k requires 0 <= k < |ms| => Line(ms[k]))
  }

  /** The history text: one line per message, oldest first, joined by newlines. */
  function RenderHistory(ms: seq<Message>): (r: string)
  {
    Join(RenderLines(ms))
  }

  /**
   * The history text starts with the oldest message's line and ends with the
   * newest one's; two or more messages are separated by a newline, and no
   * messages give the empty text.
   */
  lemma RenderHistoryEnds(ms: seq<Message>)
    ensures ms == [] ==> RenderHistory(ms) == ""
    ensures ms != [] ==> StartsWith(RenderHistory(ms), Line(ms[0]))
    ensures ms != [] ==> var r, last := RenderHistory(ms), Line(ms[|ms| - 1]);
                         |last| <= |r| && r[|r| - |last|..] == last
    ensures |ms| >= 2 ==> '\n' in RenderHistory(ms)
  {
    var lines := RenderLines(ms);
    JoinEnds(lines);
    assert ms != [] ==> lines[0] == Line(ms[0]) && lines[|lines| - 1] == Line(ms[|ms| - 1]);
  }

  /** The role and content of each message, as the client's message list holds them. */
  function AsChat(ms: seq<Message>): (r: seq<ChatMessage>)
  {
    seq(|ms|, k requires 0 <= k < |ms| => ChatMessage(ms[k].role, ms[k].content))
  }

  /** A message the flattening does not garble: a lower-case role without `": "` or newline, a content without newline. */
  predicate Flattenable(m: Message)
  {
    IsLower(m.role) && !HasSep(m.role) && '\n' !in m.role && '\n' !in m.content
  }

  /** One rendered line parses back to its own role and content, even when the content holds `": "`. */
  lemma ParseOneLine(m: Message)
    requires !HasSep(m.role) && IsLower(m.role)
    ensures ParseLine(Line(m)) == [ChatMessage(m.role, m.content)]
  {
    FindSepAfterHead(m.role, m.content);
    assert Line(m)[..|m.role|] == m.role;
    assert Line(m)[|m.role| + 2..] == m.content;
  }

  /** The rendered lines of flattenable messages parse back to their (role, content) pairs, in order. */
  lemma {:induction false} ParseRenderedLines(ms: seq<Message>)
    requires forall k :: 0 <= k < |ms| ==> Flattenable(ms[k])
    ensures ParseLines(RenderLines(ms)) == AsChat(ms)
  {
    if ms != [] {
      var init := ms[..|ms| - 1];
      ParseRenderedLines(init);
      ParseOneLine(ms[|ms| - 1]);
      RenderLinesInit(ms);
      AsChatInit(ms);
    }
  }

  /** The rendered lines of all but the newest message. */
  lemma RenderLinesInit(ms: seq<Message>)
    requires ms != []
    ensures RenderLines(ms)[..|ms| - 1] == RenderLines(ms[..|ms| - 1])
  {
  }

  /** The (role, content) pairs of a transcript are those of all but its newest message, then the newest. */
  lemma AsChatInit(ms: seq<Message>)
    requires ms != []
    ensures AsChat(ms) == AsChat(ms[..|ms| - 1]) + [ChatMessage(ms[|ms| - 1].role, ms[|ms| - 1].content)]
  {
  }

  /**
   * Round trip of the flattened history: for flattenable messages, the
   * client's parse of the rendered text gives back every (role, content)
   * pair, in order.
   */
  lemma HistoryRoundTrip(ms: seq<Message>)
    requires forall k :: 0 <= k < |ms| ==> Flattenable(ms[k])
    ensures ParseLines(Lines(RenderHistory(ms))) == AsChat(ms)
  {
    if ms == [] {
      assert RenderHistory(ms) == "";
      assert ParseLines([""]) == ParseLines([]) + ParseLine("");
    } else {
      var lines := RenderLines(ms);
      forall k | 0 <= k < |lines| ensures '\n' !in lines[k] {
        assert lines[k] == ms[k].role + ": " + ms[k].content;
      }
      LinesOfJoin(lines);
      ParseRenderedLines(ms);
    }
  }

  /**
   * A user message without a newline reaches the provider twice: the window
   * read after it was recorded ends with it, so the parsed history's last
   * entry repeats the final user turn.
   */
  lemma UserMessageSentTwice(systemPrompt: string, history: seq<Message>, content: string)
    requires |history| >= 1 && history[|history| - 1].role == "user" && history[|history| - 1].content == content
    requires '\n' !in content
    ensures var ms := RequestMessages(systemPrompt, RenderHistory(history), content);
            |ms| >= 3 && ms[|ms| - 2] == ChatMessage("user", content) && ms[|ms| - 1] == ChatMessage("user", content)
  {
    RenderedLastLine(history);
    LastLineRepeated(systemPrompt, RenderHistory(history), history[|history| - 1]);
  }

  /** A history text whose last line renders the user's message puts that message twice at the end of the list. */
  lemma LastLineRepeated(systemPrompt: string, text: string, m: Message)
    requires var ls := Lines(text); ls[|ls| - 1] == Line(m)
    requires m.role == "user"
    ensures var ms := RequestMessages(systemPrompt, text, m.content);
            |ms| >= 3 && ms[|ms| - 2] == ChatMessage("user", m.content) && ms[|ms| - 1] == ChatMessage("user", m.content)
  {
    var ls := Lines(text);
    UserRoleFlattenable();
    ParseLastLine(ls, m);
    var parsed := ParseLines(ls);
    assert RequestMessages(systemPrompt, text, m.content) == [ChatMessage("system", systemPrompt)] + parsed + [ChatMessage("user", m.content)];
  }

  /** The role the chat handler stores for the user's turns is flattenable. */
  lemma UserRoleFlattenable()
    ensures !HasSep("user") && IsLower("user") && '\n' !in "user"
  {
    assert Lower("user") == "user";
  }

  /** The last line of the history text is the newest message's line. */
  lemma RenderedLastLine(history: seq<Message>)
    requires |history| >= 1 && '\n' !in history[|history| - 1].role && '\n' !in history[|history| - 1].content
    ensures var ls := Lines(RenderHistory(history)); ls[|ls| - 1] == Line(history[|history| - 1])
  {
    var lines := RenderLines(history);
    var last := Line(history[|history| - 1]);
    assert lines[|lines| - 1] == last && '\n' !in last;
    assert RenderHistory(history) == Join(lines);
    LinesOfJoinLast(lines);
  }

  /** A list of lines ending with a rendered line parses to a list ending with that line's message. */
  lemma ParseLastLine(ls: seq<string>, m: Message)
    requires |ls| >= 1 && ls[|ls| - 1] == Line(m)
    requires !HasSep(m.role) && IsLower(m.role)
    ensures var parsed := ParseLines(ls); |parsed| >= 1 && parsed[|parsed| - 1] == ChatMessage(m.role, m.content)
  {
    ParseOneLine(m);
    assert ParseLines(ls) == ParseLines(ls[..|ls| - 1]) + ParseLine(Line(m));
  }

  // ---------------------------------------------------------------------
  // The history window
  // ---------------------------------------------------------------------

  /** The window query's rows, newest first: at most `limit` of the last messages. */
  function NewestFirst(t: seq<Message>, limit: nat): (r: seq<Message>)
    ensures |r| == Min(limit, |t|)
    ensures forall k :: 0 <= k < |r| ==> r[k] == t[|t| - 1 - k]
  {
    if limit == 0 || |t| == 0 then [] else [t[|t| - 1]] + NewestFirst(t[..|t| - 1], limit - 1)
  }

  /** `list.reverse()` on the fetched rows. */
  method ReverseRows(a: array<Message>)
    modifies a
    ensures forall k :: 0 <= k < a.Length ==> a[k] == old(a[a.Length - 1 - k])
  {
    var i, j := 0, a.Length - 1;
    while i < j
      invariant 0 <= i <= j + 1 <= a.Length && i + j == a.Length - 1
      invariant forall k :: 0 <= k < i ==> a[k] == old(a[a.Length - 1 - k]) && a[a.Length - 1 - k] == old(a[k])
      invariant forall k :: i <= k <= j ==> a[k] == old(a[k])
    {
      a[i], a[j] := a[j], a[i];
      i, j := i + 1, j - 1;
    }
  }

  /**
   * The window: the newest `limit` messages fetched newest first and then
   * reversed in place. The result is the last `Min(limit, |t|)` messages of
   * the transcript in chronological order, so it ends with the newest one.
   */
  method ReadWindow(t: seq<Message>, limit: nat) returns (history: seq<Message>)
    ensures |history| == Min(limit, |t|) <= limit
    ensures history == t[|t| - |history|..]
    ensures |t| > 0 && limit > 0 ==> history[|history| - 1] == t[|t| - 1]
  {
    var rows := NewestFirst(t, limit);
    var a := new Message[|rows|](k requires 0 <= k < |rows| => rows[k]);
    ReverseRows(a);
    history := a[..];
    assert forall k :: 0 <= k < |history| ==> history[k] == t[|t| - |history| + k];
  }

  // ---------------------------------------------------------------------
  // Sending a message
  // ---------------------------------------------------------------------

  /** The provider's given outcomes: the configured credential and what the two HTTP calls answer. */
  datatype Provider = Provider(credentials: Option<string>, tokenExchange: TokenExchange, completion: Completion)

  /** The arguments get_gigachat_response is called with. */
  datatype ProviderCall = ProviderCall(systemPrompt: string, dialogHistory: string, userMessage: string)

  /** The handler's 200 body: the session's id and the recorded assistant message. */
  datatype SendReply = SendReply(sessionId: int, assistantMessage: Message)

  /** Python truthiness of the optional `session_id`: absent and 0 both mean "start a new session". */
  predicate Truthy(sessionId: Option<int>)
  {
    sessionId.Some? && sessionId.value != 0
  }

  predicate Owns(sessions: map<int, ChatSession>, userId: int, sid: int)
  {
    sid in sessions && sessions[sid].userId == userId
  }

  /** The stored transcript a request continues; empty for a session about to be created. */
  function Continued(sessions: map<int, ChatSession>, sessionId: Option<int>): (r: seq<Message>)
  {
    if Truthy(sessionId) && sessionId.value in sessions then sessions[sessionId.value].messages else []
  }

  /** `BusinessProfile.query.filter_by(user_id=...).first()`: the caller's profile, if there is one. */
  function ProfileOf(profiles: map<int, BusinessProfile>, userId: int): (r: Option<BusinessProfile>)
    ensures r.Some? <==> userId in profiles
    ensures r.Some? ==> r.value == profiles[userId]
  {
    if userId in profiles then Some(profiles[userId]) else None
  }

  /** The last `HistoryLimit` entries of a transcript, oldest first, ending with the newest. */
  function Recent(t: seq<Message>): (r: seq<Message>)
    ensures |r| == Min(HistoryLimit, |t|)
    ensures r == t[|t| - |r|..]
    ensures |t| > 0 ==> r[|r| - 1] == t[|t| - 1]
  {
    t[|t| - Min(HistoryLimit, |t|)..]
  }

  /**
   * Step 3 of a send: the system prompt from the caller's profile and the
   * rendered window of the transcript as recorded so far, read through the
   * newest-first query and the in-place reversal.
   */
  method BuildPrompt(profiles: map<int, BusinessProfile>, userId: int, recorded: seq<Message>, content: string)
    returns (call: ProviderCall)
    ensures call == ProviderCall(SystemText(ProfileOf(profiles, userId)), RenderHistory(Recent(recorded)), content)
  {
    var profile := ProfileOf(profiles, userId);
    var history := ReadWindow(recorded, HistoryLimit);
    assert history == Recent(recorded);
    call := ProviderCall(SystemText(profile), RenderHistory(history), content);
  }

  /** Steps 3 and 4 of a send: build the prompt and call get_gigachat_response with it. */
  method Consult(profiles: map<int, BusinessProfile>, userId: int, recorded: seq<Message>, content: string,
                 provider: Provider)
    returns (call: ProviderCall, reply: Raising<string>)
    ensures call == ProviderCall(SystemText(ProfileOf(profiles, userId)), RenderHistory(Recent(recorded)), content)
    ensures reply == Reply(GetToken(provider.credentials, provider.tokenExchange), provider.completion)
  {
    call := BuildPrompt(profiles, userId, recorded, content);
    var sent;
    reply, sent := GetResponse(call.systemPrompt, call.dialogHistory, content,
                               provider.credentials, provider.tokenExchange, provider.completion);
  }

  /**
   * `db.session.commit()` of one send: the session row (new or existing) now
   * holds its transcript followed by the user and the assistant message, and
   * the two message keys are used up.
   */
  method Commit(db: Database, sid: int, userId: int, before: seq<Message>,
                userMessage: Message, assistantMessage: Message, created: bool)
    requires db.Valid()
    requires created ==> sid == db.nextSessionId && before == []
    requires !created ==> sid in db.sessions && db.sessions[sid].messages == before
    requires userMessage.id == db.nextMessageId && assistantMessage.id == db.nextMessageId + 1
    modifies db
    ensures db.Valid()
    ensures db.sessions == old(db.sessions)[sid := ChatSession(userId, before + [userMessage, assistantMessage])]
    ensures db.nextSessionId == if created then old(db.nextSessionId) + 1 else old(db.nextSessionId)
    ensures db.nextMessageId == old(db.nextMessageId) + 2
    ensures db.users == old(db.users) && db.nextUserId == old(db.nextUserId)
    ensures db.profiles == old(db.profiles) && db.nextProfileId == old(db.nextProfileId)
  {
    SessionsExtend(db.sessions, db.nextSessionId, db.nextMessageId, sid, userId, before,
                   userMessage, assistantMessage, created);
    db.sessions := db.sessions[sid := ChatSession(userId, before + [userMessage, assistantMessage])];
    if created {
      db.nextSessionId := db.nextSessionId + 1;
    }
    db.nextMessageId := db.nextMessageId + 2;
  }

  /**
   * Steps 5 to 7 of a send, once the session `sid` is resolved (`before` is
   * its transcript; `created` when it is the session about to be created) and
   * the provider has answered `reply`: a `KeyError` from the token step gives
   * 500 with nothing committed; otherwise one commit records the user message
   * and then the assistant message, an error text included.
   */
  method Record(db: Database, userId: int, sid: int, before: seq<Message>, created: bool,
                content: string, reply: Raising<string>)
    returns (r: Result<SendReply>)
    requires db.Valid()
    requires created ==> sid == db.nextSessionId && before == []
    requires !created ==> sid in db.sessions && db.sessions[sid].messages == before
    modifies db
    ensures db.Valid()
    ensures db.users == old(db.users) && db.nextUserId == old(db.nextUserId)
    ensures db.profiles == old(db.profiles) && db.nextProfileId == old(db.nextProfileId)
    ensures r.Err? <==> reply.RaisesKeyError?
    ensures r.Err? ==> r.code == 500 && db.sessions == old(db.sessions)
                       && db.nextSessionId == old(db.nextSessionId) && db.nextMessageId == old(db.nextMessageId)
    ensures r.Ok? ==>
              var userMessage := Message(old(db.nextMessageId), "user", content);
              var assistantMessage := Message(old(db.nextMessageId) + 1, "assistant", reply.value);
              && r.value == SendReply(sid, assistantMessage)
              && db.sessions == old(db.sessions)[sid := ChatSession(userId, before + [userMessage, assistantMessage])]
              && db.nextSessionId == (if created then old(db.nextSessionId) + 1 else old(db.nextSessionId))
              && db.nextMessageId == old(db.nextMessageId) + 2
  {
    if reply.RaisesKeyError? {
      // the exception leaves the handler: 500, and the transaction is never committed
      return Err(500);
    }
    // a reply carrying the error marker is only logged, and recorded like any other
    var userMessage := Message(db.nextMessageId, "user", content);
    var assistantMessage := Message(db.nextMessageId + 1, "assistant", reply.value);
    Commit(db, sid, userId, before, userMessage, assistantMessage, created);
    r := Ok(SendReply(sid, assistantMessage));
  }

  /**
   * POST /chat/send_message. A named session that is missing or another
   * user's aborts with 403 before anything is written or sent; a session id
   * too wide for an SQLite integer makes the lookup raise, a 500. Otherwise the
   * provider is called with the system prompt, the rendered window (read after
   * the user message was recorded) and the message. If the token step raises,
   * the request fails with 500 and nothing is committed. Otherwise one commit
   * appends exactly the user message and then the assistant message (an error
   * text included) to the session, creating the session first when none was
   * named; nothing else changes.
   */
  method SendMessage(db: Database, userId: int, sessionId: Option<int>, content: string, provider: Provider)
    returns (r: Result<SendReply>, call: Option<ProviderCall>)
    requires db.Valid()
    modifies db
    ensures db.Valid()
    ensures r.Err? ==> r.code == 403 || r.code == 500
    ensures r == Err(403) <==> Truthy(sessionId) && BindsAsSqliteInteger(sessionId.value)
                               && !Owns(old(db.sessions), userId, sessionId.value)
    ensures call.None? <==> Truthy(sessionId) && (!BindsAsSqliteInteger(sessionId.value)
                                                 || !Owns(old(db.sessions), userId, sessionId.value))
    ensures r.Err? ==> db.sessions == old(db.sessions) && db.nextSessionId == old(db.nextSessionId)
                       && db.nextMessageId == old(db.nextMessageId)
    ensures db.users == old(db.users) && db.nextUserId == old(db.nextUserId)
    ensures db.profiles == old(db.profiles) && db.nextProfileId == old(db.nextProfileId)
    ensures call.Some? ==>
      var recorded := Continued(old(db.sessions), sessionId) + [Message(old(db.nextMessageId), "user", content)];
      call.value == ProviderCall(SystemText(ProfileOf(old(db.profiles), userId)), RenderHistory(Recent(recorded)), content)
    ensures var reply := Reply(GetToken(provider.credentials, provider.tokenExchange), provider.completion);
            && (r == Err(500) <==> (call.Some? && reply.RaisesKeyError?)
                                   || (Truthy(sessionId) && !BindsAsSqliteInteger(sessionId.value)))
            && (r.Ok? ==>
                 var sid := r.value.sessionId;
                 var userMessage := Message(old(db.nextMessageId), "user", content);
                 && r.value.assistantMessage == Message(old(db.nextMessageId) + 1, "assistant", reply.value)
                 && (Truthy(sessionId) ==> sid == sessionId.value && db.nextSessionId == old(db.nextSessionId))
                 && (!Truthy(sessionId) ==> sid == old(db.nextSessionId) && sid !in old(db.sessions)
                                            && db.nextSessionId == old(db.nextSessionId) + 1)
                 && db.sessions == old(db.sessions)[sid := ChatSession(userId,
                      Continued(old(db.sessions), sessionId) + [userMessage, r.value.assistantMessage])]
                 && db.nextMessageId == old(db.nextMessageId) + 2)
  {
    var sid: int;
    var before: seq<Message>;
    var created := false;
    if Truthy(sessionId) {
      if !BindsAsSqliteInteger(sessionId.value) {
        // `query.get` cannot bind the key: `OverflowError` leaves the handler as a 500
        return Err(500), None;
      }
      if sessionId.value !in db.sessions || db.sessions[sessionId.value].userId != userId {
        return Err(403), None;
      }
      sid := sessionId.value;
      before := db.sessions[sid].messages;
    } else {
      // the flush hands out the new session's key before any message refers to it
      sid := db.nextSessionId;
      before := [];
      created := true;
    }
    // the pending user message is flushed before the window query runs
    var prompt, reply := Consult(db.profiles, userId, before + [Message(db.nextMessageId, "user", content)], content, provider);
    call := Some(prompt);
    r := Record(db, userId, sid, before, created, content, reply);
  }

  /**
   * The window the provider sees holds at most `HistoryLimit` messages, is a
   * suffix of the recorded transcript, and ends with the new user message.
   */
  lemma RecentIsWindow(before: seq<Message>, userMessage: Message)
    ensures var w := Recent(before + [userMessage]);
            && 1 <= |w| <= HistoryLimit
            && w == (before + [userMessage])[|before| + 1 - |w|..]
            && w[|w| - 1] == userMessage
  {
  }

  // ---------------------------------------------------------------------
  // Reading a session
  // ---------------------------------------------------------------------

  /**
   * GET /chat/session/<id>: 500 when the id is too wide for an SQLite integer
   * (the lookup raises), 404 for a missing session, 403 for another user's
   * session, otherwise the stored session itself. Only reads.
   */
  function SessionHistory(sessions: map<int, ChatSession>, userId: int, sessionId: int): (r: Result<ChatSession>)
    ensures r == Err(500) <==> !BindsAsSqliteInteger(sessionId)
    ensures r == Err(404) <==> BindsAsSqliteInteger(sessionId) && sessionId !in sessions
    ensures r == Err(403) <==> BindsAsSqliteInteger(sessionId) && sessionId in sessions && sessions[sessionId].userId != userId
    ensures BindsAsSqliteInteger(sessionId) && Owns(sessions, userId, sessionId) ==> r == Ok(sessions[sessionId])
    ensures r.Ok? ==> Owns(sessions, userId, sessionId) && r.value == sessions[sessionId]
  {
    if !BindsAsSqliteInteger(sessionId) then Err(500)
    else if sessionId !in sessions then Err(404)
    else if sessions[sessionId].userId != userId then Err(403)
    else Ok(sessions[sessionId])
  }
}
